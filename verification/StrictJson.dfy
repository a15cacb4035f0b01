/**
 The duplicate-key scanner (packages/addin-loopback-fixture/src/strictJson.ts) over
 UTF-16 code units.  The functions are the specification of the cursor machine at the end.
 */
module StrictJson {
  import opened Wrappers
  import opened Utf16

  const QUOTE: CodeUnit := 0x22
  const BACKSLASH: CodeUnit := 0x5C
  const COMMA: CodeUnit := 0x2C
  const COLON: CodeUnit := 0x3A
  const LBRACKET: CodeUnit := 0x5B
  const RBRACKET: CodeUnit := 0x5D
  const LBRACE: CodeUnit := 0x7B
  const RBRACE: CodeUnit := 0x7D

  /** The characters the source's `\s` matches. */
  predicate IsSpace(c: CodeUnit) {
    || 0x09 <= c <= 0x0D || c == 0x20 || c == 0xA0 || c == 0x1680 || 0x2000 <= c <= 0x200A
    || c == 0x2028 || c == 0x2029 || c == 0x202F || c == 0x205F || c == 0x3000 || c == 0xFEFF
  }

  predicate EndsScalar(c: CodeUnit) {
    IsSpace(c) || c == COMMA || c == RBRACE || c == RBRACKET
  }

  predicate Starts(k: Text, c: CodeUnit) {
    k != [] && k[0] == c
  }

  // ----- Decoding a string token, as the JSON parser does -----

  function HexValue(c: CodeUnit): (v: Option<int>) {
    if 0x30 <= c <= 0x39 then Some(c as int - 0x30)
    else if 0x41 <= c <= 0x46 then Some(c as int - 0x41 + 10)
    else if 0x61 <= c <= 0x66 then Some(c as int - 0x61 + 10)
    else None
  }

  function Escaped(c: CodeUnit): (v: Option<CodeUnit>) {
    if c == QUOTE || c == BACKSLASH || c == 0x2F then Some(c)
    else if c == 0x62 then Some(0x08)
    else if c == 0x66 then Some(0x0C)
    else if c == 0x6E then Some(0x0A)
    else if c == 0x72 then Some(0x0D)
    else if c == 0x74 then Some(0x09)
    else None
  }

  function FourHex(a: CodeUnit, b: CodeUnit, c: CodeUnit, d: CodeUnit): (v: Option<CodeUnit>) {
    var p, q, r, s := HexValue(a), HexValue(b), HexValue(c), HexValue(d);
    if p.None? || q.None? || r.None? || s.None? then None
    else
      var n := ((p.value * 16 + q.value) * 16 + r.value) * 16 + s.value;
      if 0 <= n < 0x10000 then Some(n as CodeUnit) else None
  }

  /** The characters between the quotes, decoded; `None` where the parser refuses them. */
  function DecodeBody(s: Text): (name: Option<Text>)
    decreases |s|
  {
    if s == [] then Some([])
    else if s[0] != BACKSLASH then
      var rest := DecodeBody(s[1..]);
      if s[0] < 0x20 || s[0] == QUOTE || rest.None? then None else Some([s[0]] + rest.value)
    else if |s| < 2 then None
    else if s[1] == 0x75 then
      if |s| < 6 then None
      else
        var unit, rest := FourHex(s[2], s[3], s[4], s[5]), DecodeBody(s[6..]);
        if unit.None? || rest.None? then None else Some([unit.value] + rest.value)
    else
      var unit, rest := Escaped(s[1]), DecodeBody(s[2..]);
      if unit.None? || rest.None? then None else Some([unit.value] + rest.value)
  }

  // ----- The scanner, as a function of the text that is left -----

  datatype Scan = Rest(rest: Text) | Duplicate(key: Text) | Malformed

  datatype StringScan = Name(key: Text, after: Text) | NoString

  function SkipSpace(k: Text): (rest: Text)
    ensures |rest| <= |k|
  {
    if k != [] && IsSpace(k[0]) then SkipSpace(k[1..]) else k
  }

  /** How many characters come before the closing quote. */
  function BodyLength(k: Text): (n: Option<nat>)
    ensures n.Some? ==> n.value < |k|
    decreases |k|
  {
    if k == [] then None
    else if k[0] == QUOTE then Some(0)
    else
      var step := if k[0] == BACKSLASH then 2 else 1;
      if |k| < step then None
      else
        var n := BodyLength(k[step..]);
        if n.None? then None else Some(step + n.value)
  }

  function ScanString(k: Text): (r: StringScan)
    ensures r.Name? ==> |r.after| < |k|
  {
    if !Starts(k, QUOTE) then NoString
    else
      var n := BodyLength(k[1..]);
      if n.None? then NoString
      else
        var name := DecodeBody(k[1..][..n.value]);
        if name.None? then NoString else Name(name.value, k[1..][n.value + 1..])
  }

  function ScalarRest(k: Text): (rest: Text)
    ensures |rest| <= |k|
  {
    if k != [] && !EndsScalar(k[0]) then ScalarRest(k[1..]) else k
  }

  function ScanValue(k: Text): (r: Scan)
    ensures r.Rest? ==> |r.rest| <= |k|
    decreases |k|, 3
  {
    if Starts(k, LBRACE) then ScanObjectBody(SkipSpace(k[1..]))
    else if Starts(k, LBRACKET) then ScanArrayBody(SkipSpace(k[1..]))
    else if Starts(k, QUOTE) then
      var s := ScanString(k);
      if s.Name? then Rest(s.after) else Malformed
    else Rest(ScalarRest(k))
  }

  function ScanObjectBody(k: Text): (r: Scan)
    ensures r.Rest? ==> |r.rest| <= |k|
    decreases |k|, 3
  {
    if Starts(k, RBRACE) then Rest(k[1..]) else ScanMembers(k, {})
  }

  function ScanArrayBody(k: Text): (r: Scan)
    ensures r.Rest? ==> |r.rest| <= |k|
    decreases |k|, 6
  {
    if Starts(k, RBRACKET) then Rest(k[1..]) else ScanItems(k)
  }

  /** From the end of a member's name to what follows its value. */
  function ScanMemberValue(k: Text): (r: Scan)
    ensures r.Rest? ==> |r.rest| <= |k|
    decreases |k|, 4
  {
    var colon := SkipSpace(k);
    if !Starts(colon, COLON) then Malformed
    else
      var v := ScanValue(SkipSpace(colon[1..]));
      if v.Rest? then Rest(SkipSpace(v.rest)) else v
  }

  function ScanMembers(k: Text, keys: set<Text>): (r: Scan)
    ensures r.Rest? ==> |r.rest| <= |k|
    decreases |k|, 2
  {
    var s := ScanString(k);
    if s.NoString? then Malformed
    else if s.key in keys then Duplicate(s.key)
    else
      var v := ScanMemberValue(s.after);
      if !v.Rest? then v
      else if Starts(v.rest, RBRACE) then Rest(v.rest[1..])
      else if Starts(v.rest, COMMA) then ScanMembers(SkipSpace(v.rest[1..]), keys + {s.key})
      else Malformed
  }

  /** An array item and the white space after it. */
  function ScanItem(k: Text): (r: Scan)
    ensures r.Rest? ==> |r.rest| <= |k|
    decreases |k|, 4
  {
    var v := ScanValue(k);
    if v.Rest? then Rest(SkipSpace(v.rest)) else v
  }

  function ScanItems(k: Text): (r: Scan)
    ensures r.Rest? ==> |r.rest| <= |k|
    decreases |k|, 5
  {
    if k == [] then Malformed
    else
      var v := ScanItem(k);
      if !v.Rest? then v
      else if Starts(v.rest, RBRACKET) then Rest(v.rest[1..])
      else if Starts(v.rest, COMMA) then ScanItems(SkipSpace(v.rest[1..]))
      else Malformed
  }

  /** A whole text must leave nothing. */
  function ScanText(t: Text): (r: Scan) {
    var v := ScanValue(SkipSpace(t));
    if !v.Rest? then v
    else if SkipSpace(v.rest) == [] then Rest([]) else Malformed
  }

  function Later(n: nat, length: Option<nat>): (l: Option<nat>) {
    if length.Some? then Some(n + length.value) else None
  }

  lemma StepLength(k: Text, step: nat)
    requires k != [] && k[0] != QUOTE && step == (if k[0] == BACKSLASH then 2 else 1)
    ensures BodyLength(k) == Later(step, if step <= |k| then BodyLength(k[step..]) else None)
  {
  }

  function LengthFrom(t: Text, i: nat): (n: Option<nat>) {
    if i <= |t| then BodyLength(t[i..]) else None
  }

  lemma StepFrom(t: Text, i: nat, step: nat)
    requires i < |t| && t[i] != QUOTE && step == (if t[i] == BACKSLASH then 2 else 1)
    ensures LengthFrom(t, i) == Later(step, LengthFrom(t, i + step))
  {
    StepLength(t[i..], step);
    assert i + step <= |t| ==> t[i..][step..] == t[i + step..];
  }

  // ----- The cursor machine -----

  class DuplicateKeyScanner {
    const text: Text
    var index: nat

    /** What is left from the cursor on. */
    ghost function Left(): (k: Text)
      reads this
    {
      if index <= |text| then text[index..] else []
    }

    ghost predicate Inside()
      reads this
    {
      index <= |text|
    }

    constructor (text: Text)
      ensures this.text == text && index == 0 && Left() == text
    {
      this.text := text;
      index := 0;
    }

    predicate Sees(c: CodeUnit)
      reads this
      ensures Inside() ==> Sees(c) == Starts(Left(), c)
    {
      index < |text| && text[index] == c
    }

    method Advance()
      requires index < |text|
      modifies this
      ensures Inside() && Left() == old(Left())[1..] && index == old(index) + 1
    {
      index := index + 1;
    }

    method SkipWhitespace()
      requires Inside()
      modifies this
      ensures Inside() && index >= old(index) && Left() == SkipSpace(old(Left()))
    {
      while index < |text| && IsSpace(text[index])
        invariant Inside() && index >= old(index) && SkipSpace(Left()) == SkipSpace(old(Left()))
      {
        Advance();
      }
    }

    /** Moves to the closing quote, if there is one. */
    method FindQuote() returns (found: bool)
      requires Inside()
      modifies this
      ensures found == BodyLength(old(Left())).Some?
      ensures found ==> index == old(index) + BodyLength(old(Left())).value && index < |text|
    {
      ghost var all := LengthFrom(text, index);
      while index < |text|
        invariant old(index) <= index && all == Later(index - old(index), LengthFrom(text, index))
        decreases if index < |text| then |text| - index else 0
      {
        if text[index] == QUOTE { return true; }
        var step := if text[index] == BACKSLASH then 2 else 1;
        StepFrom(text, index, step);
        index := index + step;
      }
      return false;
    }

    method ScanName() returns (r: StringScan)
      requires Inside()
      modifies this
      ensures r == ScanString(old(Left()))
      ensures r.Name? ==> Inside() && index > old(index) && Left() == r.after
    {
      if !Sees(QUOTE) { return NoString; }
      Advance();
      var start := index;
      ghost var body := Left();
      var found := FindQuote();
      if !found { return NoString; }
      assert text[start..index] == body[..index - start];
      assert text[index + 1..] == body[index - start + 1..];
      var name := DecodeBody(text[start..index]);
      index := index + 1;
      return if name.None? then NoString else Name(name.value, text[index..]);
    }

    method ScanOne() returns (r: Scan)
      requires Inside()
      modifies this
      ensures r == ScanValue(old(Left()))
      ensures r.Rest? ==> Inside() && index >= old(index) && Left() == r.rest
      decreases |text| - index, 3
    {
      if Sees(LBRACE) {
        r := ScanObject();
      } else if Sees(LBRACKET) {
        r := ScanArray();
      } else if Sees(QUOTE) {
        var s := ScanName();
        r := if s.Name? then Rest(s.after) else Malformed;
      } else {
        while index < |text| && !EndsScalar(text[index])
          invariant Inside() && index >= old(index) && ScalarRest(Left()) == ScalarRest(old(Left()))
        {
          Advance();
        }
        r := Rest(text[index..]);
      }
    }

    method ScanNameValue() returns (r: Scan)
      requires Inside()
      modifies this
      ensures r == ScanMemberValue(old(Left()))
      ensures r.Rest? ==> Inside() && index >= old(index) && Left() == r.rest
      decreases |text| - index, 4
    {
      SkipWhitespace();
      if !Sees(COLON) { return Malformed; }
      Advance();
      SkipWhitespace();
      r := ScanOne();
      if r.Rest? {
        SkipWhitespace();
        r := Rest(text[index..]);
      }
    }

    method ScanObject() returns (r: Scan)
      requires Inside() && Sees(LBRACE)
      modifies this
      ensures r == ScanValue(old(Left()))
      ensures r.Rest? ==> Inside() && index >= old(index) && Left() == r.rest
      decreases |text| - index, 2
    {
      Advance();
      SkipWhitespace();
      if Sees(RBRACE) {
        Advance();
        return Rest(text[index..]);
      }
      var keys: set<Text> := {};
      ghost var all := ScanMembers(Left(), {});
      while index < |text|
        invariant Inside() && index > old(index) && ScanMembers(Left(), keys) == all
        decreases |text| - index
      {
        var s := ScanName();
        if s.NoString? { return Malformed; }
        if s.key in keys { return Duplicate(s.key); }
        keys := keys + {s.key};
        var v := ScanNameValue();
        if !v.Rest? { return v; }
        if Sees(RBRACE) {
          Advance();
          return Rest(text[index..]);
        }
        if !Sees(COMMA) { return Malformed; }
        Advance();
        SkipWhitespace();
      }
      return Malformed;
    }

    method ScanElement() returns (r: Scan)
      requires Inside()
      modifies this
      ensures r == ScanItem(old(Left()))
      ensures r.Rest? ==> Inside() && index >= old(index) && Left() == r.rest
      decreases |text| - index, 4
    {
      r := ScanOne();
      if r.Rest? {
        SkipWhitespace();
        r := Rest(text[index..]);
      }
    }

    method ScanArray() returns (r: Scan)
      requires Inside() && Sees(LBRACKET)
      modifies this
      ensures r == ScanValue(old(Left()))
      ensures r.Rest? ==> Inside() && index >= old(index) && Left() == r.rest
      decreases |text| - index, 2
    {
      Advance();
      SkipWhitespace();
      if Sees(RBRACKET) {
        Advance();
        return Rest(text[index..]);
      }
      ghost var all := ScanItems(Left());
      while index < |text|
        invariant Inside() && index > old(index) && ScanItems(Left()) == all
        decreases |text| - index
      {
        var v := ScanElement();
        if !v.Rest? { return v; }
        if Sees(RBRACKET) {
          Advance();
          return Rest(text[index..]);
        }
        if !Sees(COMMA) { return Malformed; }
        Advance();
        SkipWhitespace();
      }
      return Malformed;
    }

    /** Terminates on every text, with the verdict of the specification. */
    method Scan() returns (r: Scan)
      requires index == 0
      modifies this
      ensures r == ScanText(text)
    {
      SkipWhitespace();
      var v := ScanOne();
      if !v.Rest? { return v; }
      SkipWhitespace();
      return if index == |text| then Rest([]) else Malformed;
    }
  }
}
