/** The DID alias scheme of `ZKDID`: a domain and an alias, built from a URL
    `did:alias:<domain>:<alias>` or from options, and written back as a URL.
    The segmented-URL codec (`DIDUrl`) is abstract: `parse` and `build`
    functions with the round-trip properties they are assumed to have. */
module DIDAlias {
  import opened JsRuntime

  /** A JavaScript argument as the constructor sees it: `undefined`, `null`,
      a string, or an object whose `alias` and `dlDomain` properties are read. */
  datatype Arg = Undefined | Null | Text(s: string) | Options(alias: Option<string>, dlDomain: Option<string>)

  /** A parsed segmented URL `<prefix>:<urlType>:<segment>:...`. */
  datatype DidUrlParts = DidUrlParts(prefix: string, urlType: string, segments: seq<string>)

  /** The `DIDUrl` codec: `parse` yields `None` where the constructor throws on
      a malformed URL; `build(type, segments)` is `toString` of a URL built
      from parts. */
  datatype DidUrlCodec = DidUrlCodec(
    parse: string -> Option<DidUrlParts>,
    build: (string, seq<string>) -> string)

  /** Building from a colon-free type and colon-free segments then parsing
      gives the parts back (with the "did" prefix), and such a built URL is
      never empty. Colon is the delimiter of the URL, so a part holding one
      cannot be expected to come back as one part. */
  ghost predicate ParsesWhatItBuilds(c: DidUrlCodec) {
    forall t: string, segments: seq<string> ::
      ColonFree(t) && (forall i :: 0 <= i < |segments| ==> ColonFree(segments[i])) ==>
        c.build(t, segments) != "" && c.parse(c.build(t, segments)) == Some(DidUrlParts("did", t, segments))
  }

  /** A URL that parses is rebuilt exactly from its parts. */
  ghost predicate BuildsWhatItParses(c: DidUrlCodec) {
    forall url: string :: c.parse(url).Some? ==>
      c.build(c.parse(url).value.urlType, c.parse(url).value.segments) == url
  }

  datatype DidError = InvalidUrl(url: string) | MissingDLDomain

  datatype DidFields = DidFields(dlDomain: Option<string>, alias: Option<string>)

  const AliasType: string := "alias"

  /** The `segments` validator handed to `DIDUrl`: exactly two non-empty segments. */
  predicate ValidSegments(segments: seq<string>)
  {
    if |segments| != 2 then false
    else if |segments[0]| == 0 || |segments[1]| == 0 then false
    else true
  }

  /** The first two lines of the constructor: an object (or `null`) first
      argument is taken as the options and the URL is dropped. */
  function NormalizeArgs(url: Arg, options: Arg): (Arg, Arg) {
    if url.Null? || url.Options? then (Undefined, url) else (url, options)
  }

  /** `options = options || {}` followed by reading `alias` and `dlDomain`. */
  function OptionFields(options: Arg): DidFields {
    match options
    case Options(alias, dlDomain) => DidFields(dlDomain, alias)
    case _ => DidFields(None, None)
  }

  /** JavaScript truthiness of the URL argument after normalisation. */
  predicate TruthyUrl(url: Arg) {
    url.Text? && url.s != ""
  }

  /** `restoreFromUrl`: the URL must parse as `did:alias:` with valid
      segments; the domain is the first segment and the alias the last. */
  function RestoredFields(url: string, c: DidUrlCodec): Result<DidFields, DidError> {
    match c.parse(url)
    case None => Err(InvalidUrl(url))
    case Some(parts) =>
      if parts.prefix != "did" || parts.urlType != AliasType || !ValidSegments(parts.segments) then Err(InvalidUrl(url))
      else Ok(DidFields(Some(parts.segments[0]), Some(parts.segments[|parts.segments| - 1])))
  }

  /** The outcome of `new ZKDID(url, options)` with `generated` standing for the
      alias `generateAlias` would draw. */
  function Construct(url: Arg, options: Arg, generated: string, c: DidUrlCodec): Result<DidFields, DidError> {
    var (u, o) := NormalizeArgs(url, options);
    if TruthyUrl(u) then RestoredFields(u.s, c)
    else
      var given := OptionFields(o);
      if !TruthyText(given.dlDomain) then Err(MissingDLDomain)
      else Ok(DidFields(given.dlDomain, if TruthyText(given.alias) then given.alias else Some(generated)))
  }

  /** `toUrl()` of a DID with these fields. */
  function UrlOf(fields: DidFields, c: DidUrlCodec): string
    requires fields.dlDomain.Some? && fields.alias.Some?
  {
    c.build(AliasType, [fields.dlDomain.value, fields.alias.value])
  }

  class ZKDID {
    var alias: Option<string>
    var dlDomain: Option<string>

    function Fields(): DidFields
      reads this
    {
      DidFields(dlDomain, alias)
    }

    /** The property reads at the top of the constructor, after normalisation. */
    constructor (options: Arg)
      ensures Fields() == OptionFields(options)
    {
      match options {
        case Options(a, d) =>
          alias, dlDomain := a, d;
        case _ =>
          alias, dlDomain := None, None;
      }
    }

    /** `restoreFromUrl(url)`: on a malformed URL it throws and nothing is set. */
    method RestoreFromUrl(url: string, c: DidUrlCodec) returns (outcome: Outcome<DidError>)
      modifies this
      ensures RestoredFields(url, c).Ok? ==> outcome == Pass && Fields() == RestoredFields(url, c).value
      ensures RestoredFields(url, c).Err? ==> outcome == Fail(RestoredFields(url, c).error) && Fields() == old(Fields())
    {
      var parsed := c.parse(url);
      if parsed.None? {
        return Fail(InvalidUrl(url));
      }
      var parts := parsed.value;
      if parts.prefix != "did" || parts.urlType != AliasType || !ValidSegments(parts.segments) {
        return Fail(InvalidUrl(url));
      }
      var first, rest := Shift(parts.segments);
      dlDomain := first;
      alias := Some(parts.segments[|parts.segments| - 1]);
      return Pass;
    }

    /** `initialize()`: the URL path, or the options path with a generated
        alias for a falsy one and the missing-domain check. */
    method Initialize(url: Arg, generated: string, c: DidUrlCodec) returns (outcome: Outcome<DidError>)
      modifies this
      ensures TruthyUrl(url) ==>
        (RestoredFields(url.s, c).Ok? ==> outcome == Pass && Fields() == RestoredFields(url.s, c).value)
        && (RestoredFields(url.s, c).Err? ==> outcome == Fail(RestoredFields(url.s, c).error))
      ensures !TruthyUrl(url) ==>
        alias == (if TruthyText(old(alias)) then old(alias) else Some(generated))
        && dlDomain == old(dlDomain)
        && outcome == (if TruthyText(old(dlDomain)) then Pass else Fail(MissingDLDomain))
    {
      if TruthyUrl(url) {
        outcome := RestoreFromUrl(url.s, c);
        return;
      }
      if !TruthyText(alias) {
        alias := Some(generated);
      }
      if !TruthyText(dlDomain) {
        return Fail(MissingDLDomain);
      }
      return Pass;
    }

    function GetAlias(): Option<string>
      reads this
    {
      alias
    }

    function GetDLDomain(): Option<string>
      reads this
    {
      dlDomain
    }

    /** `toUrl()`: an `alias` URL with segments `[dlDomain, alias]`. */
    function ToUrl(c: DidUrlCodec): string
      reads this
      requires dlDomain.Some? && alias.Some?
    {
      UrlOf(Fields(), c)
    }
  }

  /** `new ZKDID(url, options)`: the object, or the error the constructor throws. */
  method NewZKDID(url: Arg, options: Arg, generated: string, c: DidUrlCodec) returns (r: Result<ZKDID, DidError>)
    ensures Construct(url, options, generated, c).Ok? <==> r.Ok?
    ensures r.Ok? ==> fresh(r.value) && r.value.Fields() == Construct(url, options, generated, c).value
    ensures r.Err? ==> r.error == Construct(url, options, generated, c).error
  {
    var (u, o) := NormalizeArgs(url, options);
    var did := new ZKDID(o);
    var outcome := did.Initialize(u, generated, c);
    if outcome.Fail? {
      return Err(outcome.error);
    }
    return Ok(did);
  }

  /** A successfully built DID has a non-empty domain and an alias, so `toUrl`
      can always be called on it. */
  lemma ConstructedIsComplete(url: Arg, options: Arg, generated: string, c: DidUrlCodec)
    requires Construct(url, options, generated, c).Ok?
    ensures var f := Construct(url, options, generated, c).value;
      TruthyText(f.dlDomain) && f.alias.Some?
  {
  }

  /** An object first argument is the options and the URL is treated as absent;
      so is `null`, which then yields no options at all. */
  lemma ObjectFirstArgumentIsOptions(alias: Option<string>, dlDomain: Option<string>, second: Arg,
                                     generated: string, c: DidUrlCodec)
    ensures Construct(Options(alias, dlDomain), second, generated, c)
         == Construct(Undefined, Options(alias, dlDomain), generated, c)
    ensures Construct(Null, second, generated, c) == Err(MissingDLDomain)
  {
  }

  /** With a truthy URL the domain is the first segment and the alias the
      last, whatever the options say, and no domain check is made. */
  lemma UrlOverridesOptions(url: string, options: Arg, other: Arg, generated: string, otherGenerated: string, c: DidUrlCodec)
    requires url != ""
    ensures Construct(Text(url), options, generated, c) == Construct(Text(url), other, otherGenerated, c)
    ensures Construct(Text(url), options, generated, c) == RestoredFields(url, c)
    ensures c.parse(url).Some? && c.parse(url).value.prefix == "did" && c.parse(url).value.urlType == AliasType
            && ValidSegments(c.parse(url).value.segments) ==>
      Construct(Text(url), options, generated, c)
        == Ok(DidFields(Some(c.parse(url).value.segments[0]), Some(c.parse(url).value.segments[1])))
  {
  }

  /** With a truthy URL construction succeeds exactly when the URL parses
      with prefix "did", type "alias" and two non-empty segments. */
  lemma UrlPathSucceedsIff(url: string, options: Arg, generated: string, c: DidUrlCodec)
    requires url != ""
    ensures Construct(Text(url), options, generated, c).Ok? <==>
      && c.parse(url).Some?
      && c.parse(url).value.prefix == "did"
      && c.parse(url).value.urlType == AliasType
      && |c.parse(url).value.segments| == 2
      && c.parse(url).value.segments[0] != ""
      && c.parse(url).value.segments[1] != ""
  {
  }

  /** Without a URL a truthy alias is kept and only a falsy one is replaced by
      the generated alias; a falsy domain makes construction throw
      "Missing the DLDomain". */
  lemma OptionsPath(alias: Option<string>, dlDomain: Option<string>, generated: string, c: DidUrlCodec)
    ensures Construct(Undefined, Options(alias, dlDomain), generated, c).Err? <==> !TruthyText(dlDomain)
    ensures !TruthyText(dlDomain) ==> Construct(Undefined, Options(alias, dlDomain), generated, c) == Err(MissingDLDomain)
    ensures TruthyText(dlDomain) ==>
      Construct(Undefined, Options(alias, dlDomain), generated, c)
        == Ok(DidFields(dlDomain, if TruthyText(alias) then alias else Some(generated)))
    ensures Construct(Text(""), Options(alias, dlDomain), generated, c)
         == Construct(Undefined, Options(alias, dlDomain), generated, c)
  {
  }

  /** A URL accepted by the constructor is what `toUrl` gives back. */
  lemma ParseThenToUrl(url: string, options: Arg, generated: string, c: DidUrlCodec)
    requires BuildsWhatItParses(c)
    requires url != ""
    requires Construct(Text(url), options, generated, c).Ok?
    ensures UrlOf(Construct(Text(url), options, generated, c).value, c) == url
  {
    var parts := c.parse(url).value;
    assert parts.segments == [parts.segments[0], parts.segments[1]];
  }

  /** `toUrl` of a DID with a non-empty, colon-free domain and alias builds a
      URL the constructor reads back into the same domain and alias. */
  lemma ToUrlThenParse(fields: DidFields, options: Arg, generated: string, c: DidUrlCodec)
    requires ParsesWhatItBuilds(c)
    requires TruthyText(fields.dlDomain) && TruthyText(fields.alias)
    requires ColonFree(fields.dlDomain.value) && ColonFree(fields.alias.value)
    ensures Construct(Text(UrlOf(fields, c)), options, generated, c) == Ok(fields)
  {
    var segments := [fields.dlDomain.value, fields.alias.value];
    assert c.build(AliasType, segments) != "" && c.parse(c.build(AliasType, segments)) == Some(DidUrlParts("did", AliasType, segments));
  }

  /** A colon-delimited codec of the kind the `did:alias:<domain>:<alias>`
      form describes: `build` joins "did", the type and the segments with
      colons, `parse` splits at every colon. */
  function ColonBuild(t: string, segments: seq<string>): string {
    Join(["did", t] + segments)
  }

  function ColonParse(url: string): Option<DidUrlParts> {
    var parts := Split(url);
    if |parts| < 2 then None else Some(DidUrlParts(parts[0], parts[1], parts[2..]))
  }

  function ColonCodec(): DidUrlCodec {
    DidUrlCodec(url => ColonParse(url), (t, segments) => ColonBuild(t, segments))
  }

  /** The colon-delimited codec has the round-trip property assumed of `DIDUrl`. */
  lemma ColonCodecParsesWhatItBuilds()
    ensures ParsesWhatItBuilds(ColonCodec())
  {
    forall t: string, segments: seq<string> |
      ColonFree(t) && (forall i :: 0 <= i < |segments| ==> ColonFree(segments[i]))
      ensures ColonCodec().build(t, segments) != ""
      ensures ColonCodec().parse(ColonCodec().build(t, segments)) == Some(DidUrlParts("did", t, segments))
    {
      var parts := ["did", t] + segments;
      assert forall i :: 0 <= i < |parts| ==> ColonFree(parts[i]) by {
        forall i | 0 <= i < |parts| ensures ColonFree(parts[i]) {
          if i >= 2 { assert parts[i] == segments[i - 2]; }
        }
      }
      SplitJoin(parts);
      assert parts[2..] == segments;
      assert |Join(parts)| >= 3;
    }
  }

  /** Joining a head onto a non-empty list puts one colon between them. */
  lemma JoinCons(head: string, rest: seq<string>)
    requires |rest| >= 1
    ensures Join([head] + rest) == head + ":" + Join(rest)
  {
    assert ([head] + rest)[1..] == rest;
  }

  /** A domain holding a colon is accepted on the options path, but the URL
      `toUrl` writes for it has three segments under the colon-delimited
      codec, so the constructor rejects it: the round trip needs colon-free
      parts. */
  lemma ColonDomainDoesNotReadBack(d1: string, d2: string, alias: string, options: Arg, generated: string)
    requires ColonFree(d1) && ColonFree(d2) && ColonFree(alias) && alias != ""
    ensures Construct(Undefined, Options(Some(alias), Some(d1 + ":" + d2)), generated, ColonCodec())
         == Ok(DidFields(Some(d1 + ":" + d2), Some(alias)))
    ensures var url := UrlOf(DidFields(Some(d1 + ":" + d2), Some(alias)), ColonCodec());
      Construct(Text(url), options, generated, ColonCodec()) == Err(InvalidUrl(url))
  {
    var url := UrlOf(DidFields(Some(d1 + ":" + d2), Some(alias)), ColonCodec());
    var pieces := ["did", AliasType, d1, d2, alias];
    assert url == Join(pieces) by {
      JoinCons(d1 + ":" + d2, [alias]);
      JoinCons(AliasType, [d1 + ":" + d2, alias]);
      JoinCons("did", [AliasType, d1 + ":" + d2, alias]);
      assert ["did", AliasType] + [d1 + ":" + d2, alias] == ["did"] + [AliasType, d1 + ":" + d2, alias];
      JoinCons(d2, [alias]);
      JoinCons(d1, [d2, alias]);
      JoinCons(AliasType, [d1, d2, alias]);
      JoinCons("did", [AliasType, d1, d2, alias]);
    }
    assert forall i :: 0 <= i < |pieces| ==> ColonFree(pieces[i]);
    SplitJoin(pieces);
    assert ColonParse(url) == Some(DidUrlParts("did", AliasType, [d1, d2, alias]));
  }

  /** The colon-delimited codec that, like `DIDUrl`, only reads URLs whose
      first segment is "did". */
  function DidOnlyParse(url: string): Option<DidUrlParts> {
    var parts := Split(url);
    if |parts| < 2 || parts[0] != "did" then None else Some(DidUrlParts(parts[0], parts[1], parts[2..]))
  }

  function DidOnlyCodec(): DidUrlCodec {
    DidUrlCodec(url => DidOnlyParse(url), (t, segments) => ColonBuild(t, segments))
  }

  /** The "did"-only codec rebuilds every URL it reads, so `ParseThenToUrl`
      applies to it. */
  lemma DidOnlyCodecBuildsWhatItParses()
    ensures BuildsWhatItParses(DidOnlyCodec())
  {
    forall url: string | DidOnlyCodec().parse(url).Some?
      ensures DidOnlyCodec().build(DidOnlyCodec().parse(url).value.urlType, DidOnlyCodec().parse(url).value.segments) == url
    {
      var parts := Split(url);
      JoinSplit(url);
      assert ["did", parts[1]] + parts[2..] == parts;
    }
  }

  /** The "did"-only codec also reads back what it builds from colon-free parts. */
  lemma DidOnlyCodecParsesWhatItBuilds()
    ensures ParsesWhatItBuilds(DidOnlyCodec())
  {
    ColonCodecParsesWhatItBuilds();
    forall t: string, segments: seq<string> |
      ColonFree(t) && (forall i :: 0 <= i < |segments| ==> ColonFree(segments[i]))
      ensures DidOnlyCodec().build(t, segments) != ""
      ensures DidOnlyCodec().parse(DidOnlyCodec().build(t, segments)) == Some(DidUrlParts("did", t, segments))
    {
      assert ColonCodec().parse(ColonCodec().build(t, segments)) == Some(DidUrlParts("did", t, segments));
    }
  }
}
