/** JavaScript strings: sequences of UTF-16 code units, in which a surrogate may stand alone. */
module Utf16 {

  newtype CodeUnit = x: int | 0 <= x < 0x10000

  type Text = seq<CodeUnit>

  predicate IsHigh(c: CodeUnit) { 0xD800 <= c <= 0xDBFF }

  predicate IsLow(c: CodeUnit) { 0xDC00 <= c <= 0xDFFF }

  /** Unit `i` is not a surrogate, or it stands beside its other half. */
  predicate UnitOk(s: Text, i: nat)
    requires i < |s|
  {
    && (IsHigh(s[i]) ==> i + 1 < |s| && IsLow(s[i + 1]))
    && (IsLow(s[i]) ==> i > 0 && IsHigh(s[i - 1]))
  }

  predicate WellFormed(s: Text) {
    forall i :: 0 <= i < |s| ==> UnitOk(s, i)
  }

  /** `assertWellFormedUnicode`: the loop that throws at a surrogate standing alone. */
  method AssertWellFormedUnicode(value: Text) returns (ok: bool)
    ensures ok == WellFormed(value)
  {
    var index := 0;
    while index < |value|
      invariant index <= |value| && forall i :: 0 <= i < index ==> UnitOk(value, i)
      invariant index > 0 ==> !IsHigh(value[index - 1])
    {
      if IsHigh(value[index]) {
        if index + 1 == |value| || !IsLow(value[index + 1]) {
          assert !UnitOk(value, index);
          return false;
        }
        index := index + 1;
      } else if IsLow(value[index]) {
        assert !UnitOk(value, index);
        return false;
      }
      index := index + 1;
    }
    return true;
  }

  // ----- Well-formed text is encoded Unicode -----

  type Scalar = x: int | 0 <= x < 0x110000 && !(0xD800 <= x < 0xE000) witness 0

  function EncodeScalar(c: Scalar): (s: Text) {
    if c < 0x10000 then [c as CodeUnit]
    else [(0xD800 + (c - 0x10000) / 0x400) as CodeUnit, (0xDC00 + (c - 0x10000) % 0x400) as CodeUnit]
  }

  function Encode(cs: seq<Scalar>): (s: Text) {
    if cs == [] then [] else EncodeScalar(cs[0]) + Encode(cs[1..])
  }

  lemma JoinWellFormed(a: Text, b: Text)
    requires WellFormed(a) && WellFormed(b)
    ensures WellFormed(a + b)
  {
    var s := a + b;
    forall i | 0 <= i < |s| ensures UnitOk(s, i) {
      if i < |a| {
        assert UnitOk(a, i) && s[i] == a[i];
      } else {
        assert UnitOk(b, i - |a|) && s[i] == b[i - |a|];
      }
    }
  }

  lemma EncodedScalar(c: Scalar)
    ensures WellFormed(EncodeScalar(c))
  {
    var s := EncodeScalar(c);
    if c >= 0x10000 { assert IsHigh(s[0]) && IsLow(s[1]); }
  }

  lemma {:induction false} EncodedIsWellFormed(cs: seq<Scalar>)
    ensures WellFormed(Encode(cs))
  {
    if cs != [] {
      EncodedScalar(cs[0]);
      EncodedIsWellFormed(cs[1..]);
      JoinWellFormed(EncodeScalar(cs[0]), Encode(cs[1..]));
    }
  }

  lemma PairDecodes(high: CodeUnit, low: CodeUnit) returns (c: Scalar)
    requires IsHigh(high) && IsLow(low)
    ensures EncodeScalar(c) == [high, low]
  {
    c := 0x10000 + (high as int - 0xD800) * 0x400 + (low as int - 0xDC00);
    assert (c - 0x10000) / 0x400 == high as int - 0xD800;
    assert (c - 0x10000) % 0x400 == low as int - 0xDC00;
  }

  lemma DropWellFormed(s: Text, n: nat)
    requires WellFormed(s) && n <= |s| && (n > 0 ==> !IsHigh(s[n - 1]))
    ensures WellFormed(s[n..])
  {
    forall i | 0 <= i < |s[n..]| ensures UnitOk(s[n..], i) { assert UnitOk(s, n + i); }
  }

  lemma {:induction false} WellFormedDecodes(s: Text) returns (cs: seq<Scalar>)
    requires WellFormed(s)
    ensures Encode(cs) == s
    decreases |s|
  {
    if s == [] {
      cs := [];
    } else {
      assert UnitOk(s, 0);
      var n := if IsHigh(s[0]) then 2 else 1;
      var c: Scalar := 0;
      if IsHigh(s[0]) { c := PairDecodes(s[0], s[1]); } else { c := s[0] as int; }
      DropWellFormed(s, n);
      var rest := WellFormedDecodes(s[n..]);
      cs := [c] + rest;
      assert cs[1..] == rest && s == s[..n] + s[n..] && EncodeScalar(c) == s[..n];
    }
  }

  /** A text is accepted exactly when it encodes some sequence of Unicode characters. */
  lemma WellFormedIffEncoded(s: Text)
    ensures WellFormed(s) <==> exists cs :: Encode(cs) == s
  {
    if WellFormed(s) { var cs := WellFormedDecodes(s); }
    if cs :| Encode(cs) == s { EncodedIsWellFormed(cs); }
  }

  // ----- Cutting -----

  /** `slice(0, n)`. */
  function Cut(s: Text, n: nat): (t: Text)
    ensures t <= s && |t| <= n
  {
    if |s| <= n then s else s[..n]
  }

  /** A cut of well-formed text stays well-formed exactly when it does not fall inside a surrogate pair. */
  lemma CutWellFormedIff(s: Text, n: nat)
    requires WellFormed(s)
    ensures WellFormed(Cut(s, n)) <==> !(0 < n < |s| && IsHigh(s[n - 1]))
  {
    if 0 < n < |s| && IsHigh(s[n - 1]) {
      assert !UnitOk(Cut(s, n), n - 1);
    } else {
      forall i | 0 <= i < |Cut(s, n)| ensures UnitOk(Cut(s, n), i) { assert UnitOk(s, i); }
    }
  }

  lemma CutOfCut(s: Text, m: nat, n: nat)
    requires n <= m
    ensures Cut(Cut(s, m), n) == Cut(s, n)
  {
  }

  /** Program text, all of it ASCII. */
  function Ascii(s: string): (t: Text) {
    seq(|s|, i requires 0 <= i < |s| => if s[i] < '\U{80}' then s[i] as CodeUnit else 0x3F)
  }

  lemma AsciiIsWellFormed(s: string)
    ensures WellFormed(Ascii(s))
  {
  }
}
