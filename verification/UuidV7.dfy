/** Reproducible version-7 UUIDs (packages/gateway-stub/src/ids.ts, section 5.7 of RFC 9562). */
module UuidV7 {
  const TWO12 := 0x1000
  const TWO14 := 0x4000
  const TWO48 := 0x1_0000_0000_0000
  const TWO62 := 0x4000_0000_0000_0000
  const TWO74 := 0x400_0000_0000_0000_0000
  const TWO53 := 0x20_0000_0000_0000

  // ----- Hexadecimal -----

  function Digit(d: nat): (c: char)
    requires d < 16
  {
    "0123456789abcdef"[d]
  }

  function Value(c: char): (d: nat)
    ensures d < 16
  {
    if '0' <= c <= '9' then (c - '0') as nat
    else if 'a' <= c <= 'f' then (c - 'a') as nat + 10
    else 0
  }

  predicate IsHexDigit(c: char) {
    '0' <= c <= '9' || 'a' <= c <= 'f'
  }

  lemma DigitValue(d: nat)
    requires d < 16
    ensures Value(Digit(d)) == d && IsHexDigit(Digit(d))
  {
    assert d == 0 || d == 1 || d == 2 || d == 3 || d == 4 || d == 5 || d == 6 || d == 7 || d == 8
      || d == 9 || d == 10 || d == 11 || d == 12 || d == 13 || d == 14 || d == 15;
  }

  /** `value.toString(16)`. */
  function ToHex(v: nat): (s: string)
    ensures |s| > 0
  {
    if v < 16 then [Digit(v)] else ToHex(v / 16) + [Digit(v % 16)]
  }

  function Zeros(n: nat): (s: string)
    ensures |s| == n && forall i :: 0 <= i < n ==> s[i] == '0'
  {
    seq(n, _ => '0')
  }

  /** The source's `hex`: pad on the left, then keep the last `width` characters. */
  function Hex(v: nat, width: nat): (s: string)
    ensures |s| == width
  {
    Tail(ToHex(v), width)
  }

  /** Exactly `width` digits, most significant first. */
  function Fixed(v: nat, width: nat): (s: string)
    ensures |s| == width
  {
    if width == 0 then [] else Fixed(v / 16, width - 1) + [Digit(v % 16)]
  }

  lemma {:induction false} FixedZero(width: nat)
    ensures Fixed(0, width) == Zeros(width)
  {
    if width > 0 {
      FixedZero(width - 1);
      assert Zeros(width) == Zeros(width - 1) + ['0'];
    }
  }

  /** The last `width` characters of a padded string. */
  function Tail(digits: string, width: nat): (s: string)
    ensures |s| == width
  {
    var padded := Zeros(if |digits| < width then width - |digits| else 0) + digits;
    padded[|padded| - width..]
  }

  lemma TailStep(digits: string, c: char, width: nat)
    requires width > 0
    ensures Tail(digits + [c], width) == Tail(digits, width - 1) + [c]
  {
    var pad := Zeros(if |digits| < width - 1 then width - 1 - |digits| else 0);
    assert pad + (digits + [c]) == (pad + digits) + [c];
  }

  lemma TailOfOne(c: char, width: nat)
    requires width > 0
    ensures Tail([c], width) == Zeros(width - 1) + [c]
  {
  }

  lemma HexOfDigit(v: nat, width: nat)
    requires v < 16 && width > 0
    ensures Hex(v, width) == Zeros(width - 1) + [Digit(v)]
  {
    TailOfOne(Digit(v), width);
  }

  lemma FixedOfDigit(v: nat, width: nat)
    requires v < 16 && width > 0
    ensures Fixed(v, width) == Zeros(width - 1) + [Digit(v)]
  {
    FixedZero(width - 1);
    assert v / 16 == 0 && v % 16 == v;
  }

  lemma HexStep(v: nat, width: nat)
    requires v >= 16 && width > 0
    ensures Hex(v, width) == Hex(v / 16, width - 1) + [Digit(v % 16)]
  {
    TailStep(ToHex(v / 16), Digit(v % 16), width);
  }

  lemma FixedStep(v: nat, width: nat, prefix: string)
    requires width > 0 && prefix == Fixed(v / 16, width - 1)
    ensures Fixed(v, width) == prefix + [Digit(v % 16)]
  {
  }

  /** The source's padding and slicing is writing `width` digits. */
  lemma {:induction false} HexIsFixed(v: nat, width: nat)
    ensures Hex(v, width) == Fixed(v, width)
    decreases width
  {
    if width > 0 {
      if v < 16 {
        HexOfDigit(v, width);
        FixedOfDigit(v, width);
      } else {
        HexIsFixed(v / 16, width - 1);
        HexStep(v, width);
        FixedStep(v, width, Hex(v / 16, width - 1));
      }
    }
  }

  function Pow16(n: nat): (p: nat)
    ensures p > 0
  {
    if n == 0 then 1 else 16 * Pow16(n - 1)
  }

  function Parse(s: string): (v: nat) {
    if s == [] then 0 else 16 * Parse(s[..|s| - 1]) + Value(s[|s| - 1])
  }

  lemma {:induction false} ParseFixed(v: nat, width: nat)
    requires v < Pow16(width)
    ensures Parse(Fixed(v, width)) == v
    ensures forall i :: 0 <= i < width ==> IsHexDigit(Fixed(v, width)[i])
  {
    if width > 0 {
      ParseFixed(v / 16, width - 1);
      DigitValue(v % 16);
      assert Fixed(v, width)[..width - 1] == Fixed(v / 16, width - 1);
    }
  }

  lemma Pow16Values()
    ensures Pow16(3) == TWO12 && Pow16(4) == 0x1_0000 && Pow16(12) == TWO48
  {
    assert Pow16(3) == 16 * Pow16(2) && Pow16(2) == 16 * Pow16(1) && Pow16(1) == 16 * Pow16(0);
    assert Pow16(4) == 16 * Pow16(3) && Pow16(5) == 16 * Pow16(4) && Pow16(6) == 16 * Pow16(5);
    assert Pow16(7) == 16 * Pow16(6) && Pow16(8) == 16 * Pow16(7) && Pow16(9) == 16 * Pow16(8);
    assert Pow16(10) == 16 * Pow16(9) && Pow16(11) == 16 * Pow16(10) && Pow16(12) == 16 * Pow16(11);
  }

  /** A field of `width` digits reads back as its value. */
  lemma FieldRoundTrip(v: nat, width: nat)
    requires width > 0 && v < Pow16(width)
    ensures |Hex(v, width)| == width && Parse(Hex(v, width)) == v
    ensures forall i :: 0 <= i < width ==> IsHexDigit(Hex(v, width)[i])
  {
    HexIsFixed(v, width);
    ParseFixed(v, width);
  }

  // ----- The identifier -----

  /** Milliseconds truncated and clamped to the 48-bit time field. */
  function TimeField(nowMs: real): (t: nat)
    ensures t < TWO48
  {
    if nowMs <= 0.0 then 0 else nowMs.Floor % TWO48
  }

  function RandomA(counter: nat): (a: nat)
    ensures a < TWO12
  {
    counter % TWO12
  }

  function RandomB(counter: nat): (b: nat)
    ensures b < TWO62
  {
    counter / TWO12 % TWO62
  }

  function Variant(counter: nat): (v: nat)
    ensures 0x8000 <= v < 0xC000
  {
    0x8000 + RandomB(counter) / TWO48 % TWO14
  }

  function Low(counter: nat): (l: nat)
    ensures l < TWO48
  {
    RandomB(counter) % TWO48
  }

  function Layout(time: string, a: string, v: string, l: string): (id: string)
    requires |time| == 12
  {
    time[..8] + "-" + time[8..] + "-7" + a + "-" + v + "-" + l
  }

  function Uuid(counter: nat, nowMs: real): (id: string) {
    Layout(Hex(TimeField(nowMs), 12), Hex(RandomA(counter), 3), Hex(Variant(counter), 4), Hex(Low(counter), 12))
  }

  function TimeOf(id: string): (t: nat)
    requires |id| == 36
  {
    Parse(id[..8] + id[9..13])
  }

  function CounterOf(id: string): (c: nat)
    requires |id| == 36
  {
    var a, v, l := Parse(id[15..18]), Parse(id[19..23]), Parse(id[24..]);
    ((if v < 0x8000 then 0 else v - 0x8000) * TWO48 + l) * TWO12 + a
  }

  lemma CounterParts(counter: nat)
    ensures ((Variant(counter) - 0x8000) * TWO48 + Low(counter)) * TWO12 + RandomA(counter) == counter % TWO74
  {
    var b := RandomB(counter);
    assert b / TWO48 < TWO14;
    assert b / TWO48 * TWO48 + b % TWO48 == b;
    var q := counter / TWO12;
    assert q * TWO12 + counter % TWO12 == counter;
    assert q / TWO62 * TWO62 + b == q;
    assert counter == q / TWO62 * TWO74 + (b * TWO12 + counter % TWO12);
  }

  lemma LayoutFields(time: string, a: string, v: string, l: string)
    requires |time| == 12 && |a| == 3 && |v| == 4 && |l| == 12
    ensures var id := Layout(time, a, v, l);
            && |id| == 36
            && id[..8] == time[..8] && id[8] == '-' && id[9..13] == time[8..] && id[13] == '-' && id[14] == '7'
            && id[15..18] == a && id[18] == '-' && id[19..23] == v && id[23] == '-' && id[24..] == l
  {
  }

  lemma LayoutDecodes(time: string, a: string, v: string, l: string)
    requires |time| == 12 && |a| == 3 && |v| == 4 && |l| == 12 && Parse(v) >= 0x8000
    ensures var id := Layout(time, a, v, l);
            && |id| == 36 && TimeOf(id) == Parse(time)
            && CounterOf(id) == ((Parse(v) - 0x8000) * TWO48 + Parse(l)) * TWO12 + Parse(a)
  {
    LayoutFields(time, a, v, l);
    assert time[..8] + time[8..] == time;
  }

  /** An identifier decodes to its time modulo 2^48 and its counter modulo 2^74. */
  lemma UuidDecodes(counter: nat, nowMs: real)
    ensures |Uuid(counter, nowMs)| == 36
    ensures TimeOf(Uuid(counter, nowMs)) == TimeField(nowMs)
    ensures CounterOf(Uuid(counter, nowMs)) == counter % TWO74
  {
    Pow16Values();
    FieldRoundTrip(TimeField(nowMs), 12);
    FieldRoundTrip(RandomA(counter), 3);
    FieldRoundTrip(Variant(counter), 4);
    FieldRoundTrip(Low(counter), 12);
    LayoutDecodes(Hex(TimeField(nowMs), 12), Hex(RandomA(counter), 3), Hex(Variant(counter), 4), Hex(Low(counter), 12));
    CounterParts(counter);
  }

  predicate IsDash(i: nat) {
    i == 8 || i == 13 || i == 18 || i == 23
  }

  /** The version nibble is 7, the variant bits are 10, all else is hexadecimal. */
  predicate IsVersion7(id: string) {
    && |id| == 36
    && (forall i :: 0 <= i < 36 ==> if IsDash(i) then id[i] == '-' else IsHexDigit(id[i]))
    && id[14] == '7' && (id[19] == '8' || id[19] == '9' || id[19] == 'a' || id[19] == 'b')
  }

  lemma FixedFirst(v: nat, width: nat)
    requires width > 0
    ensures Fixed(v, width + 1)[0] == Fixed(v / 16, width)[0]
  {
  }

  lemma FixedOne(n: nat)
    requires 8 <= n < 12
    ensures var c := Fixed(n, 1)[0]; c == '8' || c == '9' || c == 'a' || c == 'b'
  {
    assert Fixed(n / 16, 0) == [];
    assert Fixed(n, 1) == [Digit(n)];
  }

  lemma VariantNibble(v: nat)
    requires 0x8000 <= v < 0xC000
    ensures var c := Hex(v, 4)[0]; c == '8' || c == '9' || c == 'a' || c == 'b'
  {
    HexIsFixed(v, 4);
    FixedFirst(v, 3);
    FixedFirst(v / 16, 2);
    FixedFirst(v / 16 / 16, 1);
    FixedOne(v / 16 / 16 / 16);
  }

  predicate AllHex(s: string) {
    forall i :: 0 <= i < |s| ==> IsHexDigit(s[i])
  }

  lemma LayoutIsVersion7(time: string, a: string, v: string, l: string)
    requires |time| == 12 && |a| == 3 && |v| == 4 && |l| == 12
    requires AllHex(time) && AllHex(a) && AllHex(v) && AllHex(l)
    requires v[0] == '8' || v[0] == '9' || v[0] == 'a' || v[0] == 'b'
    ensures IsVersion7(Layout(time, a, v, l))
  {
    var id := Layout(time, a, v, l);
    LayoutFields(time, a, v, l);
    forall i | 0 <= i < 36 ensures if IsDash(i) then id[i] == '-' else IsHexDigit(id[i]) {
      if i < 8 { assert id[i] == id[..8][i] == time[i]; }
      else if 8 < i < 13 { assert id[i] == id[9..13][i - 9] == time[i - 1]; }
      else if 14 < i < 18 { assert id[i] == id[15..18][i - 15] == a[i - 15]; }
      else if 18 < i < 23 { assert id[i] == id[19..23][i - 19] == v[i - 19]; }
      else if 23 < i { assert id[i] == id[24..][i - 24] == l[i - 24]; }
    }
    assert id[19] == id[19..23][0];
  }

  lemma UuidIsVersion7(counter: nat, nowMs: real)
    ensures IsVersion7(Uuid(counter, nowMs))
  {
    Pow16Values();
    FieldRoundTrip(TimeField(nowMs), 12);
    FieldRoundTrip(RandomA(counter), 3);
    FieldRoundTrip(Variant(counter), 4);
    FieldRoundTrip(Low(counter), 12);
    VariantNibble(Variant(counter));
    LayoutIsVersion7(Hex(TimeField(nowMs), 12), Hex(RandomA(counter), 3), Hex(Variant(counter), 4), Hex(Low(counter), 12));
  }

  // ----- Runs -----

  /** `nextId += 1` on a double: exact up to 2^53, where it sticks. */
  function Increment(n: nat): (next: nat)
    requires n <= TWO53
    ensures next <= TWO53
  {
    if n < TWO53 then n + 1 else n
  }

  class PersistedGatewayState {
    var nextId: nat

    constructor (start: nat)
      requires start <= TWO53
      ensures nextId == start
    {
      nextId := start;
    }

    method AllocateUuidV7(nowMs: real) returns (id: string)
      requires nextId <= TWO53
      modifies this
      ensures id == Uuid(old(nextId), nowMs) && IsVersion7(id)
      ensures nextId == Increment(old(nextId))
    {
      var sequence := nextId;
      nextId := if nextId < TWO53 then nextId + 1 else nextId;
      UuidIsVersion7(sequence, nowMs);
      id := Uuid(sequence, nowMs);
    }
  }

  /** The counter used by the `i`-th allocation. */
  function CounterAt(start: nat, i: nat): (c: nat)
    requires start <= TWO53
    ensures c <= TWO53
  {
    if i == 0 then start else Increment(CounterAt(start, i - 1))
  }

  lemma {:induction false} CounterAtIs(start: nat, i: nat)
    requires start <= TWO53
    ensures CounterAt(start, i) == if start + i <= TWO53 then start + i else TWO53
  {
    if i > 0 { CounterAtIs(start, i - 1); }
  }

  /** The identifiers of a run whose clock showed `clock`. */
  function RunIds(start: nat, clock: seq<real>): (ids: seq<string>)
    requires start <= TWO53
    ensures |ids| == |clock|
  {
    seq(|clock|, i requires 0 <= i < |clock| => Uuid(CounterAt(start, i), clock[i]))
  }

  lemma IdHasCounter(id: string, c: nat, now: real)
    requires c <= TWO53 && id == Uuid(c, now)
    ensures |id| == 36 && CounterOf(id) == c
  {
    UuidDecodes(c, now);
    SmallModulus(c);
  }

  lemma SmallModulus(c: nat)
    requires c < TWO74
    ensures c % TWO74 == c
  {
  }

  lemma EqualIdsEqualCounters(c: nat, s: real, d: nat, t: real)
    requires c <= TWO53 && d <= TWO53 && Uuid(c, s) == Uuid(d, t)
    ensures c == d
  {
    var id := Uuid(c, s);
    IdHasCounter(id, c, s);
    IdHasCounter(id, d, t);
  }

  lemma EqualIdsEqualTimes(c: nat, s: real, d: nat, t: real)
    requires Uuid(c, s) == Uuid(d, t)
    ensures TimeField(s) == TimeField(t)
  {
    UuidDecodes(c, s);
    UuidDecodes(d, t);
  }

  /** Two identifiers are equal exactly when the counter had stuck at 2^53 and the time fields agree. */
  lemma IdsRepeatIff(start: nat, clock: seq<real>, i: nat, j: nat)
    requires start <= TWO53 && i < j < |clock|
    ensures RunIds(start, clock)[i] == RunIds(start, clock)[j] <==>
            start + i >= TWO53 && TimeField(clock[i]) == TimeField(clock[j])
  {
    CounterAtIs(start, i);
    CounterAtIs(start, j);
    var c, d := CounterAt(start, i), CounterAt(start, j);
    if Uuid(c, clock[i]) == Uuid(d, clock[j]) {
      EqualIdsEqualCounters(c, clock[i], d, clock[j]);
      EqualIdsEqualTimes(c, clock[i], d, clock[j]);
    }
  }

  /** Whatever the clock does, identifiers are distinct while the counter has not stuck at 2^53. */
  lemma IdsAreDistinct(start: nat, clock: seq<real>, i: nat, j: nat)
    requires start <= TWO53 && i < j < |clock| && start + i < TWO53
    ensures RunIds(start, clock)[i] != RunIds(start, clock)[j]
  {
    IdsRepeatIff(start, clock, i, j);
  }

  /** A counter stuck at 2^53 repeats an identifier whenever the millisecond field comes round again. */
  lemma StuckCounterRepeats(start: nat, clock: seq<real>, i: nat, j: nat)
    requires start <= TWO53 && i < j < |clock| && start + i >= TWO53
    requires TimeField(clock[i]) == TimeField(clock[j])
    ensures RunIds(start, clock)[i] == RunIds(start, clock)[j]
  {
    IdsRepeatIff(start, clock, i, j);
  }
}
