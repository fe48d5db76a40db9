/** What the KeySSI text form, parser, loader, caster and anchor builder
    guarantee, stated over the `KeyState` specification functions. */
module KeySSIProperties {
  import opened JsRuntime
  import opened KeySSIMixin

  /** The six no-hint segments, in order. */
  function NoHintSegments(st: KeyState): seq<string> {
    [Prefix, Render(TypeNameOf(st)), Render(st.dlDomain), Render(st.specific),
     Render(st.control), Render(st.vn)]
  }

  /** Fields that survive a trip through the text form: type, domain,
      specific and control strings are set and colon-free, the version is a
      set, non-empty, colon-free string; the hint is free. */
  predicate RoundTrippable(st: KeyState) {
    && TypeNameOf(st).Some? && ColonFree(TypeNameOf(st).value)
    && st.dlDomain.Some? && ColonFree(st.dlDomain.value)
    && st.specific.Some? && ColonFree(st.specific.value)
    && st.control.Some? && ColonFree(st.control.value)
    && TruthyText(st.vn) && ColonFree(st.vn.value)
  }

  lemma {:induction false} JoinAppend(parts: seq<string>, last: string)
    requires |parts| >= 1
    ensures Join(parts + [last]) == Join(parts) + ":" + last
    decreases |parts|
  {
    var all := parts + [last];
    assert all[1..] == parts[1..] + [last];
    if |parts| > 1 {
      JoinAppend(parts[1..], last);
    }
  }

  /** `getNoHintIdentifier(true)` is the colon-join of prefix, type, domain,
      specific string, control string and version, with `undefined` written
      out for a missing field. */
  lemma NoHintIdentifierIsJoin(st: KeyState)
    ensures NoHintIdentifierOf(st) == Join(NoHintSegments(st))
  {
    var s := NoHintSegments(st);
    assert Join(s[5..]) == s[5];
    assert Join(s[4..]) == s[4] + ":" + s[5];
    assert Join(s[3..]) == s[3] + ":" + (s[4] + ":" + s[5]);
    assert Join(s[2..]) == s[2] + ":" + (s[3] + ":" + (s[4] + ":" + s[5]));
    assert Join(s[1..]) == s[1] + ":" + (s[2] + ":" + (s[3] + ":" + (s[4] + ":" + s[5])));
  }

  /** The no-hint identifier never depends on the hint, the hint object or the
      signing flag; `getIdentifier(true)` adds `":" + hint` exactly when the
      hint is defined. */
  lemma IdentifierAddsHint(st: KeyState, hint: Option<string>, hintObject: Json, canSign: bool)
    ensures NoHintIdentifierOf(st.(hint := hint, hintObject := hintObject, canSign := canSign)) == NoHintIdentifierOf(st)
    ensures st.hint.None? ==> IdentifierOf(st) == NoHintIdentifierOf(st)
    ensures st.hint.Some? ==> IdentifierOf(st) == NoHintIdentifierOf(st) + ":" + st.hint.value
    ensures IdentifierOf(st) == NoHintIdentifierOf(st) <==> st.hint.None?
  {
    if st.hint.Some? {
      assert |IdentifierOf(st)| > |NoHintIdentifierOf(st)|;
    }
  }

  /** The identifier splits into the six no-hint segments followed by the
      pieces of the hint. */
  lemma {:induction false} SplitIdentifier(st: KeyState)
    requires RoundTrippable(st)
    ensures st.hint.None? ==> Split(IdentifierOf(st)) == NoHintSegments(st)
    ensures st.hint.Some? ==> Split(IdentifierOf(st)) == NoHintSegments(st) + Split(st.hint.value)
  {
    var fields := NoHintSegments(st);
    NoHintIdentifierIsJoin(st);
    assert forall i :: 0 <= i < |fields| ==> ColonFree(fields[i]);
    if st.hint.Some? {
      JoinAppend(fields, st.hint.value);
      SplitJoinWithTail(fields, st.hint.value);
    } else {
      SplitJoin(fields);
    }
  }

  /** Plain round trip: `autoLoad(getIdentifier(true))` on a fresh object
      restores the type, the four fields and the hint (which may hold colons)
      and so reproduces the identifier. */
  lemma {:induction false} PlainRoundTrip(st: KeyState, p: Primitives)
    requires RoundTrippable(st)
    ensures AutoLoadState(Fresh, Text(IdentifierOf(st)), p).Ok?
    ensures var back := AutoLoadState(Fresh, Text(IdentifierOf(st)), p).value;
      && TypeNameOf(back) == TypeNameOf(st) && back.dlDomain == st.dlDomain
      && back.specific == st.specific && back.control == st.control
      && back.vn == st.vn && back.hint == st.hint
      && IdentifierOf(back) == IdentifierOf(st)
  {
    var id := IdentifierOf(st);
    assert id[3] == ':';
    assert DecodedText(id, p) == Ok(id);
    SplitIdentifier(st);
    var segments := Split(id);
    if st.hint.Some? {
      var h := st.hint.value;
      assert segments[6..] == Split(h);
      JoinSplit(h);
    }
  }

  /** Encoded round trip: under a base58 codec whose output has no colon and
      which decodes what it encodes, `autoLoad(getIdentifier())` behaves as
      the plain round trip. */
  lemma EncodedRoundTrip(st: KeyState, p: Primitives)
    requires IsBase58Codec(p)
    requires RoundTrippable(st)
    ensures AutoLoadState(Fresh, Text(EncodeUnlessPlain(false, IdentifierOf(st), p)), p)
         == AutoLoadState(Fresh, Text(IdentifierOf(st)), p)
    ensures AutoLoadState(Fresh, Text(EncodeUnlessPlain(false, IdentifierOf(st), p)), p).Ok?
  {
    var id := IdentifierOf(st);
    assert id[3] == ':';
    assert ':' !in p.base58Encode(id) && p.base58Decode(p.base58Encode(id)) == Some(id);
    PlainRoundTrip(st, p);
  }

  /** `autoLoad(undefined)` changes nothing, a non-string throws, and a string
      with no colon before or after decoding throws "Wrong format of SSI". */
  lemma AutoLoadRejects(st: KeyState, s: string, p: Primitives)
    ensures AutoLoadState(st, Missing, p) == Ok(st)
    ensures AutoLoadState(st, NonString, p) == Err(NotAString)
    ensures ':' !in s && p.base58Decode(s).Some? && ':' !in p.base58Decode(s).value ==>
      AutoLoadState(st, Text(s), p) == Err(WrongFormat(s, p.base58Decode(s).value))
    ensures AutoLoadState(st, Text(s), p).Err? <==>
      ':' !in s && (p.base58Decode(s).None? || ':' !in p.base58Decode(s).value)
  {
  }

  /** The version after `autoLoad`: an empty segment keeps the old one, any
      other segment (a missing one included) replaces it; the hint object
      changes only for a present hint that starts with `{` or `[`. */
  lemma AutoLoadVersionAndHintObject(st: KeyState, s: string, p: Primitives)
    requires DecodedText(s, p).Ok?
    ensures var segments := Split(DecodedText(s, p).value);
      var after := AutoLoadState(st, Text(s), p).value;
      && (Segment(segments, 5) == Some("") ==> after.vn == st.vn)
      && (Segment(segments, 5) != Some("") ==> after.vn == Segment(segments, 5))
      && (|segments| <= 5 ==> after.vn == None)
      && (after.hintObject != st.hintObject ==> after.hint.Some? && InferJSON(after.hint.value))
      && (|segments| <= 6 ==> after.hint == st.hint)
  {
  }

  /** After `autoLoad` of a text with at most three segments, the specific and
      control strings are both missing: exactly then is the object a template. */
  lemma AutoLoadTemplate(st: KeyState, s: string, p: Primitives)
    requires DecodedText(s, p).Ok?
    ensures IsTemplateState(AutoLoadState(st, Text(s), p).value) <==> |Split(DecodedText(s, p).value)| <= 3
  {
  }

  /** A template does not survive its own identifier: the missing specific and
      control strings are written as "undefined" and read back as that text. */
  lemma {:induction false} TemplateIdentifierLoadsAsNonTemplate(st: KeyState, p: Primitives)
    requires IsTemplateState(st) && st.hint.None?
    requires TypeNameOf(st).Some? && ColonFree(TypeNameOf(st).value)
    requires st.dlDomain.Some? && ColonFree(st.dlDomain.value)
    requires TruthyText(st.vn) && ColonFree(st.vn.value)
    ensures AutoLoadState(Fresh, Text(IdentifierOf(st)), p).Ok?
    ensures var back := AutoLoadState(Fresh, Text(IdentifierOf(st)), p).value;
      back.specific == Some("undefined") && back.control == Some("undefined") && !IsTemplateState(back)
  {
    var fields := NoHintSegments(st);
    var id := IdentifierOf(st);
    assert id[3] == ':';
    NoHintIdentifierIsJoin(st);
    assert forall i :: 0 <= i < |fields| ==> ColonFree(fields[i]);
    SplitJoin(fields);
  }

  /** `load` sets every field; a falsy version becomes "v0"; a truthy hint
      rebuilds the hint object, falling back to `{value: hint}` when parsing
      fails, and that fallback never redirects the bricks domain. */
  lemma LoadSetsFields(st: KeyState, subtype: Option<string>, dlDomain: Option<string>,
                       specific: Option<string>, control: Option<string>, vn: Option<string>,
                       hint: Option<string>, p: Primitives)
    ensures var after := LoadState(st, subtype, dlDomain, specific, control, vn, hint, p);
      && after.subtype == subtype && after.dlDomain == dlDomain && after.specific == specific
      && after.control == control && after.hint == hint
      && after.typeAccessor == st.typeAccessor && after.canSign == st.canSign
      && (TruthyText(vn) ==> after.vn == vn)
      && (!TruthyText(vn) ==> after.vn == Some(DefaultVersion))
      && (!TruthyText(hint) ==> after.hintObject == st.hintObject)
      && (TruthyText(hint) && p.jsonParse(hint.value).Some? ==> after.hintObject == p.jsonParse(hint.value).value)
      && (TruthyText(hint) && p.jsonParse(hint.value).None? ==>
            after.hintObject == JObj(map["value" := JStr(hint.value)])
            && BricksDomainOf(after) == Ok(if dlDomain.Some? then Some(JStr(dlDomain.value)) else None))
  {
  }

  /** Unlike `autoLoad`, `load` parses any truthy hint: the hint "null" makes
      `getBricksDomain` throw, which no identifier given to `autoLoad` can do. */
  lemma LoadNullHintBreaksBricksDomain(st: KeyState, subtype: Option<string>, dlDomain: Option<string>,
                                       specific: Option<string>, control: Option<string>,
                                       vn: Option<string>, p: Primitives)
    requires p.jsonParse("null") == Some(JNull)
    requires ParsesLikeJSON(p)
    ensures BricksDomainOf(LoadState(st, subtype, dlDomain, specific, control, vn, Some("null"), p)).Err?
    ensures forall s :: AutoLoadState(st, Text(s), p).Ok? && st.hintObject != JNull ==>
      BricksDomainOf(AutoLoadState(st, Text(s), p).value).Ok?
  {
    forall s | AutoLoadState(st, Text(s), p).Ok? && st.hintObject != JNull
      ensures BricksDomainOf(AutoLoadState(st, Text(s), p).value).Ok?
    {
      var after := AutoLoadState(st, Text(s), p).value;
      if after.hintObject != st.hintObject {
        assert InferJSON(after.hint.value);
        assert after.hintObject == HintObjectFor(after.hint.value, p);
      }
    }
  }

  /** `getBricksDomain` of a state whose hint object has no truthy
      `bricksDomain` entry is the raw domain; a fresh object has no entry. */
  lemma BricksDomainFallsBack(st: KeyState)
    requires st.hintObject.JObj? && (BricksDomainKey !in st.hintObject.fields || !Truthy(st.hintObject.fields[BricksDomainKey]))
    ensures BricksDomainOf(st) == Ok(if st.dlDomain.Some? then Some(JStr(st.dlDomain.value)) else None)
    ensures BricksDomainOf(Fresh) == Ok(None)
  {
  }

  /** A `$NAME` domain is kept as written through the text form and resolved
      against the environment only when it is read. */
  lemma {:induction false} DomainResolvedWhenRead(st: KeyState, p: Primitives, env: map<string, string>, name: string)
    requires RoundTrippable(st)
    requires st.dlDomain == Some("$" + name)
    ensures var back := AutoLoadState(Fresh, Text(IdentifierOf(st)), p).value;
      && back.dlDomain == Some("$" + name)
      && DLDomainOf(back, env) == (if name in env then Some(env[name]) else None)
  {
    PlainRoundTrip(st, p);
    assert ("$" + name)[1..] == name;
  }

  /** `getDLDomain()`: undefined exactly for a falsy domain or a `$NAME`
      domain whose variable is unset; a `$NAME` domain reads the variable;
      any other domain is returned as written, whatever the environment. */
  lemma DLDomainResolution(st: KeyState, env: map<string, string>, otherEnv: map<string, string>)
    ensures DLDomainOf(st, env) == None <==>
      !TruthyText(st.dlDomain) || (st.dlDomain.value[0] == '$' && st.dlDomain.value[1..] !in env)
    ensures TruthyText(st.dlDomain) && st.dlDomain.value[0] == '$' && st.dlDomain.value[1..] in env ==>
      DLDomainOf(st, env) == Some(env[st.dlDomain.value[1..]])
    ensures TruthyText(st.dlDomain) && st.dlDomain.value[0] != '$' ==>
      DLDomainOf(st, env) == DLDomainOf(st, otherEnv) == st.dlDomain
  {
  }

  /** After `cast(t)` the type is `t`; domain, specific string, control string
      and hint are unchanged; a non-empty version is unchanged and a falsy
      one becomes "v0"; the no-hint identifier differs only in its type. */
  lemma CastKeepsMaterial(st: KeyState, t: Option<string>, p: Primitives)
    ensures var c := CastState(st, t, p);
      && TypeNameOf(c) == t
      && c.dlDomain == st.dlDomain && c.specific == st.specific && c.control == st.control
      && c.hint == st.hint
      && (TruthyText(st.vn) ==> c.vn == st.vn)
      && (!TruthyText(st.vn) ==> c.vn == Some(DefaultVersion))
      && (TruthyText(st.vn) ==> NoHintSegments(c) == NoHintSegments(st)[1 := Render(t)])
  {
  }

  /** A cast type survives later `autoLoad` calls: the rebound accessor keeps
      answering the cast type whatever type segment is parsed. */
  lemma CastIsSticky(st: KeyState, t: Option<string>, identifier: Input, p: Primitives)
    requires AutoLoadState(CastState(st, t, p), identifier, p).Ok?
    ensures TypeNameOf(AutoLoadState(CastState(st, t, p), identifier, p).value) == t
  {
  }

  /** `getName()` and `getTypeName()` part ways after a cast: a later
      `autoLoad` of `ssi:<x>:...` sets the raw type field, which `getName`
      returns, to `x`, while `getTypeName` keeps answering the cast type. */
  lemma {:induction false} NameIgnoresCast(st: KeyState, t: Option<string>, x: string, rest: string, p: Primitives)
    requires ColonFree(x)
    ensures var back := AutoLoadState(CastState(st, t, p), Text(Prefix + ":" + x + ":" + rest), p);
      && back.Ok?
      && back.value.subtype == Some(x)
      && TypeNameOf(back.value) == t
  {
    var text := Prefix + ":" + x + ":" + rest;
    assert text == Prefix + ":" + (x + ":" + rest);
    assert text[3] == ':';
    SplitAtColon(Prefix, x + ":" + rest);
    SplitAtColon(x, rest);
    assert Split(text)[1] == x;
  }

  /** `clone()` gives an independent object: loading a hint into the clone
      leaves the original as it was. */
  method CloneIsIndependent(original: KeySSI, hint: string, p: Primitives) returns (c: KeySSI)
    ensures fresh(c) && c.hint == Some(hint)
    ensures original.Snapshot() == old(original.Snapshot())
  {
    c := original.Clone();
    c.Load(c.subtype, c.dlDomain, c.specific, c.control, c.vn, Some(hint), p);
  }

  /** A signing error is handed on and no record is produced; on success the
      record is (bricks domain, hash, timestamp, signature, version, hint). */
  lemma AnchorValueOutcome(st: KeyState, anchorId: string, hashLink: string, previous: Option<string>,
                           timestamp: nat, sign: string -> SignOutcome)
    ensures var signed := sign(AnchorPayload(anchorId, hashLink, previous, timestamp));
      var r := AnchorValueOf(st, anchorId, hashLink, previous, timestamp, sign);
      && (signed.SignFailed? <==> r.Err? && r.error.SigningError?)
      && (signed.SignFailed? ==> r == Err(SigningError(signed.reason)))
      && (signed.Signed? && BricksDomainOf(st).Ok? ==>
            r == Ok(AnchorRecord(BricksDomainOf(st).value, hashLink, timestamp, signed.signature, st.vn, st.hint)))
  {
  }

  /** The signed payload starts with the anchor id and the hash, then holds the
      previous identifier (nothing for the first anchor), and ends with the
      timestamp in decimal, which reads back as the timestamp. */
  lemma {:induction false} AnchorPayloadLayout(anchorId: string, hashLink: string, previous: Option<string>, timestamp: nat)
    ensures var payload := AnchorPayload(anchorId, hashLink, previous, timestamp);
      var linked := anchorId + hashLink + (if previous.Some? then previous.value else "");
      && payload[..|linked|] == linked
      && (previous.None? ==> payload[..|anchorId + hashLink|] == anchorId + hashLink)
      && (forall i :: |linked| <= i < |payload| ==> IsDigit(payload[i]))
      && DecimalValue(payload[|linked|..]) == timestamp
  {
    var payload := AnchorPayload(anchorId, hashLink, previous, timestamp);
    var linked := anchorId + hashLink + (if previous.Some? then previous.value else "");
    assert payload == linked + Decimal(timestamp);
    assert payload[|linked|..] == Decimal(timestamp);
    DecimalRoundTrip(timestamp);
    forall i | |linked| <= i < |payload| ensures IsDigit(payload[i]) {
      assert payload[i] == Decimal(timestamp)[i - |linked|];
    }
  }

  /** Chain linkage: with the anchor id, hash and timestamp fixed, the signed
      payload determines the previous identifier, a first anchor (no
      previous identifier) never signs the same text as a later one, and a
      record's signature is the signer's answer for the payload that holds
      the previous identifier. */
  lemma AnchorChainLinks(st: KeyState, anchorId: string, hashLink: string, idA: string, idB: string,
                         timestamp: nat, sign: string -> SignOutcome)
    ensures (AnchorPayload(anchorId, hashLink, Some(idA), timestamp)
             == AnchorPayload(anchorId, hashLink, Some(idB), timestamp)) <==> idA == idB
    ensures idA != "" ==>
      AnchorPayload(anchorId, hashLink, Some(idA), timestamp) != AnchorPayload(anchorId, hashLink, None, timestamp)
    ensures AnchorValueOf(st, anchorId, hashLink, Some(idA), timestamp, sign).Ok? ==>
      AnchorValueOf(st, anchorId, hashLink, Some(idA), timestamp, sign).value.signature
        == sign(anchorId + hashLink + idA + Decimal(timestamp)).signature
  {
    var pa := AnchorPayload(anchorId, hashLink, Some(idA), timestamp);
    var pb := AnchorPayload(anchorId, hashLink, Some(idB), timestamp);
    var k := |anchorId + hashLink|;
    if pa == pb {
      assert |idA| == |idB|;
      assert pa[k..k + |idA|] == idA;
      assert pb[k..k + |idB|] == idB;
    }
    assert |pa| == k + |idA| + |Decimal(timestamp)|;
    assert |AnchorPayload(anchorId, hashLink, None, timestamp)| == k + |Decimal(timestamp)|;
  }
}
