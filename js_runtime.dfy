/** The parts of the JavaScript runtime the KeySSI and DID code relies on:
    values that may be `undefined`, JSON values, truthiness, the template-literal
    rendering of `undefined`, `String.prototype.split(":")`, `Array.prototype.join(":")`,
    `Array.prototype.shift()` and the decimal rendering of an integer. */
module JsRuntime {

  datatype Option<+T> = None | Some(value: T)

  datatype Result<+T, +E> = Ok(value: T) | Err(error: E)

  datatype Outcome<+E> = Pass | Fail(error: E)

  /** A value produced by `JSON.parse` (numbers restricted to integers). */
  datatype Json =
    | JNull
    | JBool(b: bool)
    | JNum(n: int)
    | JStr(s: string)
    | JArr(items: seq<Json>)
    | JObj(fields: map<string, Json>)

  /** JavaScript truthiness of a JSON value. */
  predicate Truthy(j: Json) {
    match j
    case JNull => false
    case JBool(b) => b
    case JNum(n) => n != 0
    case JStr(s) => s != ""
    case JArr(_) => true
    case JObj(_) => true
  }

  /** JavaScript truthiness of a string-or-undefined value. */
  predicate TruthyText(v: Option<string>) {
    v.Some? && v.value != ""
  }

  /** How a template literal `${v}` renders a string-or-undefined value. */
  function Render(v: Option<string>): string {
    match v
    case None => "undefined"
    case Some(s) => s
  }

  predicate ColonFree(s: string) {
    ':' !in s
  }

  /** `s.split(":")`: the maximal colon-free pieces of `s`, in order. */
  function Split(s: string): (parts: seq<string>)
    ensures |parts| >= 1
    ensures forall i :: 0 <= i < |parts| ==> ColonFree(parts[i])
    decreases |s|
  {
    if s == [] then [""]
    else
      var rest := Split(s[1..]);
      if s[0] == ':' then [""] + rest
      else [[s[0]] + rest[0]] + rest[1..]
  }

  /** `parts.join(":")`. */
  function Join(parts: seq<string>): string
    decreases |parts|
  {
    if |parts| == 0 then ""
    else if |parts| == 1 then parts[0]
    else parts[0] + ":" + Join(parts[1..])
  }

  /** Joining the pieces of a split gives the original string back. */
  lemma {:induction false} JoinSplit(s: string)
    ensures Join(Split(s)) == s
    decreases |s|
  {
    if s != [] {
      var rest := Split(s[1..]);
      JoinSplit(s[1..]);
      if s[0] == ':' {
        assert Split(s) == [""] + rest;
        assert ([""] + rest)[1..] == rest;
        assert s == ":" + s[1..];
      } else if |rest| == 1 {
        assert Split(s) == [[s[0]] + rest[0]];
        assert s == [s[0]] + s[1..];
      } else {
        var parts := [[s[0]] + rest[0]] + rest[1..];
        assert Split(s) == parts;
        assert parts[1..] == rest[1..];
        assert Join(rest) == rest[0] + ":" + Join(rest[1..]);
        assert s == [s[0]] + s[1..];
      }
    }
  }

  /** A colon-free string splits into itself. */
  lemma {:induction false} SplitColonFree(p: string)
    requires ColonFree(p)
    ensures Split(p) == [p]
    decreases |p|
  {
    if p != [] {
      assert p[1..] == p[1..] && ColonFree(p[1..]) by {
        assert forall i :: 0 <= i < |p[1..]| ==> p[1..][i] == p[i + 1];
      }
      SplitColonFree(p[1..]);
      assert p == [p[0]] + p[1..];
    }
  }

  /** Splitting at the first colon: a colon-free head followed by ":" and a tail. */
  lemma {:induction false} SplitAtColon(p: string, tail: string)
    requires ColonFree(p)
    ensures Split(p + ":" + tail) == [p] + Split(tail)
    decreases |p|
  {
    var s := p + ":" + tail;
    if p == [] {
      assert s == ":" + tail;
      assert s[1..] == tail;
    } else {
      assert ColonFree(p[1..]) by {
        assert forall i :: 0 <= i < |p[1..]| ==> p[1..][i] == p[i + 1];
      }
      SplitAtColon(p[1..], tail);
      assert s[0] == p[0] && s[0] != ':';
      assert s[1..] == p[1..] + ":" + tail;
      assert [p[0]] + p[1..] == p;
    }
  }

  /** Splitting a join of colon-free pieces gives the pieces back. */
  lemma {:induction false} SplitJoin(parts: seq<string>)
    requires |parts| >= 1
    requires forall i :: 0 <= i < |parts| ==> ColonFree(parts[i])
    ensures Split(Join(parts)) == parts
    decreases |parts|
  {
    if |parts| == 1 {
      SplitColonFree(parts[0]);
    } else {
      SplitJoin(parts[1..]);
      SplitAtColon(parts[0], Join(parts[1..]));
      assert [parts[0]] + parts[1..] == parts;
    }
  }

  /** Splitting a join of colon-free pieces followed by an arbitrary last piece
      (which may itself hold colons) gives the pieces and the split last piece. */
  lemma {:induction false} SplitJoinWithTail(parts: seq<string>, tail: string)
    requires |parts| >= 1
    requires forall i :: 0 <= i < |parts| ==> ColonFree(parts[i])
    ensures Split(Join(parts + [tail])) == parts + Split(tail)
    decreases |parts|
  {
    var all := parts + [tail];
    assert all[1..] == parts[1..] + [tail];
    if |parts| == 1 {
      assert Join(all) == parts[0] + ":" + tail;
      SplitAtColon(parts[0], tail);
    } else {
      SplitJoinWithTail(parts[1..], tail);
      SplitAtColon(parts[0], Join(all[1..]));
      assert [parts[0]] + (parts[1..] + Split(tail)) == parts + Split(tail);
    }
  }

  /** `Array.prototype.shift()` on a local array: the first element (or
      `undefined` when empty) and what remains. */
  method Shift(s: seq<string>) returns (head: Option<string>, rest: seq<string>)
    ensures |s| == 0 ==> head == None && rest == []
    ensures |s| > 0 ==> head == Some(s[0]) && rest == s[1..]
    ensures s == (if head.Some? then [head.value] else []) + rest
  {
    if |s| == 0 {
      head, rest := None, [];
    } else {
      head, rest := Some(s[0]), s[1..];
    }
  }

  function DigitChar(d: nat): char
    requires d < 10
  {
    "0123456789"[d]
  }

  predicate IsDigit(c: char) {
    '0' <= c <= '9'
  }

  function DigitValue(c: char): nat
    requires IsDigit(c)
  {
    (c - '0') as nat
  }

  /** The decimal rendering of a non-negative integer, as `"" + n` gives it. */
  function Decimal(n: nat): string
    decreases n
  {
    if n < 10 then [DigitChar(n)] else Decimal(n / 10) + [DigitChar(n % 10)]
  }

  /** The value of a string of decimal digits. */
  function DecimalValue(s: string): nat
    requires forall i :: 0 <= i < |s| ==> IsDigit(s[i])
    decreases |s|
  {
    if s == [] then 0 else DecimalValue(s[..|s| - 1]) * 10 + DigitValue(s[|s| - 1])
  }

  /** The decimal rendering is a non-empty run of digits with no leading zero
      that reads back as the same number. */
  lemma {:induction false} DecimalRoundTrip(n: nat)
    ensures |Decimal(n)| >= 1
    ensures forall i :: 0 <= i < |Decimal(n)| ==> IsDigit(Decimal(n)[i])
    ensures Decimal(n)[0] == '0' ==> n == 0
    ensures DecimalValue(Decimal(n)) == n
    decreases n
  {
    if n >= 10 {
      DecimalRoundTrip(n / 10);
      var s := Decimal(n);
      assert s == Decimal(n / 10) + [DigitChar(n % 10)];
      assert s[..|s| - 1] == Decimal(n / 10);
      assert s[0] == Decimal(n / 10)[0];
    }
  }
}
