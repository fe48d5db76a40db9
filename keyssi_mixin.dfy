/** The KeySSI entity built by `keySSIMixin`: its private closure state, the
    colon-delimited text form and its parser, field loading, hint objects,
    domain resolution, casting, cloning, capability flags and the anchor value
    it signs. The state is a class whose fields are the closure variables;
    `Snapshot()` gives that state as a value, and the functions over
    `KeyState` below are the specification the methods are proved against. */
module KeySSIMixin {
  import opened JsRuntime

  const Prefix: string := "ssi"
  const DefaultVersion: string := "v0"

  /** The key of the hint object that redirects brick storage (the
      `BRICKS_DOMAIN_KEY` constant of the surrounding platform). */
  const BricksDomainKey: string := "bricksDomain"

  /** Library calls the mixin makes but does not define. `base58Decode`
      yields `None` where the library throws; `jsonParse` yields `None`
      where `JSON.parse` throws. */
  datatype Primitives = Primitives(
    base58Encode: string -> string,
    base58Decode: string -> Option<string>,
    jsonParse: string -> Option<Json>)

  /** What a base58 codec is assumed to satisfy: its output never holds a colon
      and decoding undoes encoding. */
  ghost predicate IsBase58Codec(p: Primitives) {
    forall s: string :: ':' !in p.base58Encode(s) && p.base58Decode(p.base58Encode(s)) == Some(s)
  }

  /** What `JSON.parse` is assumed to satisfy: a text that starts with `{` or
      `[` never parses to `null`. */
  ghost predicate ParsesLikeJSON(p: Primitives) {
    forall h: string :: |h| > 0 && (h[0] == '{' || h[0] == '[') && p.jsonParse(h).Some? ==> p.jsonParse(h).value != JNull
  }

  /** `getTypeName` reads the `_subtype` closure variable until `cast` rebinds
      it to a function returning a fixed type. */
  datatype TypeAccessor = OwnField | CastTo(newType: Option<string>)

  /** The closure state of one KeySSI object. */
  datatype KeyState = KeyState(
    typeAccessor: TypeAccessor,
    subtype: Option<string>,
    dlDomain: Option<string>,
    specific: Option<string>,
    control: Option<string>,
    vn: Option<string>,
    hint: Option<string>,
    hintObject: Json,
    canSign: bool)

  /** The state `keySSIMixin` starts every object in. */
  const Fresh: KeyState :=
    KeyState(OwnField, None, None, None, None, Some(DefaultVersion), None, JObj(map[]), false)

  /** The argument of `autoLoad`: missing, a string, or any other value. */
  datatype Input = Missing | Text(s: string) | NonString

  datatype KeySSIError =
    | NotAString
    | NotBase58(identifier: string)
    | WrongFormat(original: string, decoded: string)

  function TypeNameOf(st: KeyState): Option<string> {
    match st.typeAccessor
    case OwnField => st.subtype
    case CastTo(t) => t
  }

  /** `getNoHintIdentifier(true)`. */
  function NoHintIdentifierOf(st: KeyState): string {
    Prefix + ":" + Render(TypeNameOf(st)) + ":" + Render(st.dlDomain) + ":" +
    Render(st.specific) + ":" + Render(st.control) + ":" + Render(st.vn)
  }

  /** `getIdentifier(true)`. */
  function IdentifierOf(st: KeyState): string {
    var id := NoHintIdentifierOf(st);
    if st.hint.Some? then id + ":" + st.hint.value else id
  }

  /** The `plain` switch of both serialisers: the text form, or its base58 encoding. */
  function EncodeUnlessPlain(plain: bool, id: string, p: Primitives): string {
    if plain then id else p.base58Encode(id)
  }

  /** `_inferJSON`: does the hint look like a JSON object or array? */
  predicate InferJSON(hint: string) {
    |hint| > 0 && (hint[0] == '{' || hint[0] == '[')
  }

  /** `_createHintObject`: the parsed hint, or `{value: hint}` when parsing fails. */
  function HintObjectFor(hint: string, p: Primitives): Json {
    match p.jsonParse(hint)
    case Some(j) => j
    case None => JObj(map["value" := JStr(hint)])
  }

  /** The state after `load(subtype, dlDomain, specific, control, vn, hint)`. */
  function LoadState(st: KeyState, subtype: Option<string>, dlDomain: Option<string>,
                     specific: Option<string>, control: Option<string>, vn: Option<string>,
                     hint: Option<string>, p: Primitives): KeyState
  {
    st.(subtype := subtype, dlDomain := dlDomain, specific := specific, control := control,
        vn := if TruthyText(vn) then vn else Some(DefaultVersion),
        hint := hint,
        hintObject := if TruthyText(hint) then HintObjectFor(hint.value, p) else st.hintObject)
  }

  /** The text `autoLoad` splits: the argument itself when it holds a colon,
      else its base58 decoding, which must then hold a colon. */
  function DecodedText(s: string, p: Primitives): Result<string, KeySSIError> {
    if ':' in s then Ok(s)
    else match p.base58Decode(s)
      case None => Err(NotBase58(s))
      case Some(d) => if ':' in d then Ok(d) else Err(WrongFormat(s, d))
  }

  /** The segment at position `i`, or `undefined` past the end. */
  function Segment(segments: seq<string>, i: nat): Option<string> {
    if i < |segments| then Some(segments[i]) else None
  }

  /** The state after `autoLoad` has split its text into `segments`: positions
      1 to 5 are the type, domain, specific string, control string and
      version; an empty version keeps the old one; positions 6 onwards,
      rejoined with colons, are the hint, and only then is the hint (and, for
      a JSON-looking hint, the hint object) replaced. */
  function SegmentsState(st: KeyState, segments: seq<string>, p: Primitives): KeyState {
    var version := Segment(segments, 5);
    var hint := if |segments| > 6 then Some(Join(segments[6..])) else None;
    st.(subtype := Segment(segments, 1), dlDomain := Segment(segments, 2),
        specific := Segment(segments, 3), control := Segment(segments, 4),
        vn := if version == Some("") then st.vn else version,
        hint := if hint.Some? then hint else st.hint,
        hintObject := if hint.Some? && InferJSON(hint.value) then HintObjectFor(hint.value, p) else st.hintObject)
  }

  /** The outcome of `autoLoad(identifier)`: the new state, or the error it
      throws (the state is then untouched). */
  function AutoLoadState(st: KeyState, identifier: Input, p: Primitives): Result<KeyState, KeySSIError> {
    match identifier
    case Missing => Ok(st)
    case NonString => Err(NotAString)
    case Text(s) =>
      match DecodedText(s, p)
      case Err(e) => Err(e)
      case Ok(text) => Ok(SegmentsState(st, Split(text), p))
  }

  /** The state after `cast(newType)`: `getTypeName` is rebound, then `load`
      runs again with the new type and the current fields. */
  function CastState(st: KeyState, newType: Option<string>, p: Primitives): KeyState {
    LoadState(st.(typeAccessor := CastTo(newType)), newType, st.dlDomain, st.specific,
              st.control, st.vn, st.hint, p)
  }

  /** `getDLDomain()` against the environment `env`: `undefined` for an empty
      or missing domain, the environment entry named by the rest of a
      `$`-domain, else the domain itself. */
  function DLDomainOf(st: KeyState, env: map<string, string>): Option<string>
  {
    match st.dlDomain
    case None => None
    case Some(d) =>
      if d == "" then None
      else if d[0] == '$' then (if d[1..] in env then Some(env[d[1..]]) else None)
      else Some(d)
  }

  datatype BricksDomainError = HintObjectIsNull

  /** `getBricksDomain()`: a truthy `bricksDomain` entry of the hint object,
      else the raw domain (`undefined` included). Reading a property of a
      JSON `null` hint object throws. */
  function BricksDomainOf(st: KeyState): Result<Option<Json>, BricksDomainError> {
    var domain := if st.dlDomain.Some? then Some(JStr(st.dlDomain.value)) else None;
    match st.hintObject
    case JNull => Err(HintObjectIsNull)
    case JObj(fields) =>
      if BricksDomainKey in fields && Truthy(fields[BricksDomainKey]) then Ok(Some(fields[BricksDomainKey]))
      else Ok(domain)
    case _ => Ok(domain)
  }

  /** `isTemplate()`: neither key material field is set. */
  predicate IsTemplateState(st: KeyState) {
    st.specific.None? && st.control.None?
  }

  /** The signing authority's answer for one payload. */
  datatype SignOutcome = SignFailed(reason: string) | Signed(signature: string)

  /** The six values `createAnchorValue` passes to the signed-hash-link KeySSI's
      `initialize`. */
  datatype AnchorRecord = AnchorRecord(
    bricksDomain: Option<Json>,
    hashLink: string,
    timestamp: nat,
    signature: string,
    vn: Option<string>,
    hint: Option<string>)

  datatype AnchorError = SigningError(reason: string) | BricksDomainThrows(cause: BricksDomainError)

  /** The text `createAnchorValue` signs: anchor id, content hash, previous
      identifier (empty for the first anchor) and timestamp, concatenated. */
  function AnchorPayload(anchorId: string, hashLink: string, previous: Option<string>, timestamp: nat): string {
    anchorId + hashLink + (if previous.Some? then previous.value else "") + Decimal(timestamp)
  }

  /** `createAnchorValue`: sign the payload; a signing error is passed on and no
      record is built; otherwise the record holds the bricks domain, hash,
      timestamp, signature, version and hint. */
  function AnchorValueOf(st: KeyState, anchorId: string, hashLink: string, previous: Option<string>,
                         timestamp: nat, sign: string -> SignOutcome): Result<AnchorRecord, AnchorError>
  {
    match sign(AnchorPayload(anchorId, hashLink, previous, timestamp))
    case SignFailed(reason) => Err(SigningError(reason))
    case Signed(signature) =>
      match BricksDomainOf(st)
      case Err(e) => Err(BricksDomainThrows(e))
      case Ok(domain) => Ok(AnchorRecord(domain, hashLink, timestamp, signature, st.vn, st.hint))
  }

  /** The `shift()` calls of `autoLoad`: the prefix segment is dropped, the next
      five become the type, domain, specific string, control string and
      version (`undefined` once the segments run out), and the rest is left. */
  method ShiftFields(all: seq<string>)
    returns (subtype: Option<string>, dlDomain: Option<string>, specific: Option<string>,
             control: Option<string>, version: Option<string>, rest: seq<string>)
    ensures subtype == Segment(all, 1) && dlDomain == Segment(all, 2)
    ensures specific == Segment(all, 3) && control == Segment(all, 4) && version == Segment(all, 5)
    ensures rest == if |all| > 6 then all[6..] else []
  {
    var discarded;
    discarded, rest := Shift(all);
    assert rest == if |all| > 1 then all[1..] else [];
    subtype, rest := Shift(rest);
    assert rest == if |all| > 2 then all[2..] else [];
    dlDomain, rest := Shift(rest);
    assert rest == if |all| > 3 then all[3..] else [];
    specific, rest := Shift(rest);
    assert rest == if |all| > 4 then all[4..] else [];
    control, rest := Shift(rest);
    assert rest == if |all| > 5 then all[5..] else [];
    version, rest := Shift(rest);
  }

  /** One object produced by `keySSIMixin`; the fields are its closure variables. */
  class KeySSI {
    var typeAccessor: TypeAccessor
    var subtype: Option<string>
    var dlDomain: Option<string>
    var specific: Option<string>
    var control: Option<string>
    var vn: Option<string>
    var hint: Option<string>
    var hintObject: Json
    var canSign: bool

    function Snapshot(): KeyState
      reads this
    {
      KeyState(typeAccessor, subtype, dlDomain, specific, control, vn, hint, hintObject, canSign)
    }

    /** `keySSIMixin(target)`: every closure variable at its initial value. */
    constructor ()
      ensures Snapshot() == Fresh
    {
      typeAccessor := OwnField;
      subtype, dlDomain, specific, control := None, None, None, None;
      vn := Some(DefaultVersion);
      hint := None;
      hintObject := JObj(map[]);
      canSign := false;
    }

    /** `_createHintObject(hint)`. */
    method CreateHintObject(hint: string, p: Primitives)
      modifies this`hintObject
      ensures hintObject == HintObjectFor(hint, p)
    {
      var parsed := p.jsonParse(hint);
      if parsed.Some? {
        hintObject := parsed.value;
      } else {
        hintObject := JObj(map["value" := JStr(hint)]);
      }
    }

    /** `load(subtype, dlDomain, specific, control, vn, hint)`. */
    method Load(subtype: Option<string>, dlDomain: Option<string>, specific: Option<string>,
                control: Option<string>, vn: Option<string>, hint: Option<string>, p: Primitives)
      modifies this
      ensures Snapshot() == LoadState(old(Snapshot()), subtype, dlDomain, specific, control, vn, hint, p)
    {
      this.subtype := subtype;
      this.dlDomain := dlDomain;
      this.specific := specific;
      this.control := control;
      this.vn := if TruthyText(vn) then vn else Some(DefaultVersion);
      this.hint := hint;
      if TruthyText(this.hint) {
        CreateHintObject(this.hint.value, p);
      }
    }

    /** `autoLoad(identifier)`: consumes the split segments one `shift()` at a time. */
    method AutoLoad(identifier: Input, p: Primitives) returns (outcome: Outcome<KeySSIError>)
      modifies this
      ensures AutoLoadState(old(Snapshot()), identifier, p).Ok? ==>
        outcome == Pass && Snapshot() == AutoLoadState(old(Snapshot()), identifier, p).value
      ensures AutoLoadState(old(Snapshot()), identifier, p).Err? ==>
        outcome == Fail(AutoLoadState(old(Snapshot()), identifier, p).error) && Snapshot() == old(Snapshot())
    {
      if identifier.Missing? {
        return Pass;
      }
      if identifier.NonString? {
        return Fail(NotAString);
      }
      var original := identifier.s;
      var text := original;
      if ':' !in text {
        var decoded := p.base58Decode(text);
        if decoded.None? {
          return Fail(NotBase58(original));
        }
        text := decoded.value;
      }
      if ':' !in text {
        return Fail(WrongFormat(original, text));
      }
      assert DecodedText(original, p) == Ok(text);
      LoadSegments(Split(text), p);
      return Pass;
    }

    /** The part of `autoLoad` after the split: the five fields take the
        segments after the prefix, then whatever remains is the hint. */
    method LoadSegments(all: seq<string>, p: Primitives)
      modifies this
      ensures Snapshot() == SegmentsState(old(Snapshot()), all, p)
    {
      var version, segments;
      subtype, dlDomain, specific, control, version, segments := ShiftFields(all);
      if version != Some("") {
        vn := version;
      }
      if |segments| > 0 {
        hint := Some(Join(segments));
        if InferJSON(hint.value) {
          CreateHintObject(hint.value, p);
        }
      }
    }

    /** `cast(newType)`. */
    method Cast(newType: Option<string>, p: Primitives)
      modifies this
      ensures Snapshot() == CastState(old(Snapshot()), newType, p)
    {
      typeAccessor := CastTo(newType);
      Load(newType, dlDomain, specific, control, vn, hint, p);
    }

    /** `setCanSign(canSign)`. */
    method SetCanSign(canSign: bool)
      modifies this`canSign
      ensures Snapshot() == old(Snapshot()).(canSign := canSign)
    {
      this.canSign := canSign;
    }

    /** `clone()`: the copied accessors are all replaced when `keySSIMixin` runs
        on the copy, so the clone is a new object in the initial state. */
    method Clone() returns (c: KeySSI)
      ensures fresh(c) && c.Snapshot() == Fresh
    {
      c := new KeySSI();
    }

    function GetTypeName(): Option<string>
      reads this
    {
      TypeNameOf(Snapshot())
    }

    /** `getName()`: logs a deprecation notice and returns the raw type field,
        which a cast does not rebind. */
    function GetName(): Option<string>
      reads this
    {
      subtype
    }

    function GetSpecificString(): Option<string>
      reads this
    {
      specific
    }

    function GetControlString(): Option<string>
      reads this
    {
      control
    }

    function GetHint(): Option<string>
      reads this
    {
      hint
    }

    function GetVn(): Option<string>
      reads this
    {
      vn
    }

    function GetNoHintIdentifier(plain: bool, p: Primitives): string
      reads this
    {
      EncodeUnlessPlain(plain, NoHintIdentifierOf(Snapshot()), p)
    }

    function GetIdentifier(plain: bool, p: Primitives): string
      reads this
    {
      EncodeUnlessPlain(plain, IdentifierOf(Snapshot()), p)
    }

    /** `toJSON()`: the encoded identifier. */
    function ToJSON(p: Primitives): string
      reads this
    {
      GetIdentifier(false, p)
    }

    function GetDLDomain(env: map<string, string>): Option<string>
      reads this
    {
      DLDomainOf(Snapshot(), env)
    }

    function GetBricksDomain(): Result<Option<Json>, BricksDomainError>
      reads this
    {
      BricksDomainOf(Snapshot())
    }

    predicate IsTemplate()
      reads this
    {
      IsTemplateState(Snapshot())
    }

    function CanSign(): bool
      reads this
    {
      canSign
    }

    /** `canBeVerified()`, `canAppend()`, `isTransfer()` and `isAlias()`: fixed
        answers of the base behaviour. */
    function CanBeVerified(): bool
    {
      false
    }

    function CanAppend(): bool
    {
      true
    }

    function IsTransfer(): bool
    {
      false
    }

    function IsAlias(): bool
    {
      false
    }

    function CreateAnchorValue(anchorId: string, hashLink: string, previous: Option<string>,
                               timestamp: nat, sign: string -> SignOutcome): Result<AnchorRecord, AnchorError>
      reads this
    {
      AnchorValueOf(Snapshot(), anchorId, hashLink, previous, timestamp, sign)
    }
  }
}
