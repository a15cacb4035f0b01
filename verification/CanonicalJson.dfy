/**
 Canonical JSON (packages/protocol/src/paramsDigest.ts, RFC 8785) beside the compact form that
 `JSON.stringify` writes.  A number is its JavaScript rendering and whether it is finite.
 */
module CanonicalJson {
  import opened Wrappers
  import opened Utf16
  import opened StrictJson

  datatype Value =
    | JNull
    | JBool(truth: bool)
    | JNumber(digits: string, finite: bool)
    | JString(units: Text)
    | JArray(items: seq<Value>)
    | JObject(members: seq<Member>)

  datatype Member = Member(name: Text, value: Value)

  /** A rendered member; members are put in order by name. */
  datatype Named = Named(name: Text, text: Text)

  // ----- Rendering -----

  function HexDigit(n: nat): (c: CodeUnit)
    requires n < 16
  {
    if n < 10 then (0x30 + n) as CodeUnit else (0x61 + n - 10) as CodeUnit
  }

  function UnicodeEscape(c: CodeUnit): (t: Text) {
    var n := c as int;
    [BACKSLASH, 0x75, HexDigit(n / 4096), HexDigit(n / 256 % 16), HexDigit(n / 16 % 16), HexDigit(n % 16)]
  }

  /** One unit inside a string token; a surrogate standing alone is escaped. */
  function QuoteUnit(s: Text, i: nat): (t: Text)
    requires i < |s|
  {
    var c := s[i];
    if c == QUOTE || c == BACKSLASH then [BACKSLASH, c]
    else if c == 0x08 then [BACKSLASH, 0x62]
    else if c == 0x09 then [BACKSLASH, 0x74]
    else if c == 0x0A then [BACKSLASH, 0x6E]
    else if c == 0x0C then [BACKSLASH, 0x66]
    else if c == 0x0D then [BACKSLASH, 0x72]
    else if c < 0x20 || !UnitOk(s, i) then UnicodeEscape(c)
    else [c]
  }

  function QuoteBody(s: Text, n: nat): (t: Text)
    requires n <= |s|
  {
    if n == 0 then [] else QuoteBody(s, n - 1) + QuoteUnit(s, n - 1)
  }

  function Quote(s: Text): (t: Text) {
    [QUOTE] + QuoteBody(s, |s|) + [QUOTE]
  }

  function Join(texts: seq<Text>): (t: Text) {
    if texts == [] then []
    else if |texts| == 1 then texts[0]
    else texts[0] + [COMMA] + Join(texts[1..])
  }

  function TextsOf(ms: seq<Named>): (texts: seq<Text>)
    ensures |texts| == |ms| && forall i :: 0 <= i < |ms| ==> texts[i] == ms[i].text
  {
    seq(|ms|, i requires 0 <= i < |ms| => ms[i].text)
  }

  function Bracketed(texts: seq<Text>): (t: Text) {
    [LBRACKET] + Join(texts) + [RBRACKET]
  }

  function Braced(ms: seq<Named>): (t: Text) {
    [LBRACE] + Join(TextsOf(ms)) + [RBRACE]
  }

  /** `JSON.stringify` of a JSON value. */
  function Stringify(v: Value): (t: Text) {
    match v
    case JNull => Ascii("null")
    case JBool(truth) => Ascii(if truth then "true" else "false")
    case JNumber(digits, finite) => Ascii(if finite then digits else "null")
    case JString(s) => Quote(s)
    case JArray(items) => Bracketed(StringifyItems(items))
    case JObject(members) => Braced(StringifyMembers(members))
  }

  function StringifyItems(items: seq<Value>): (texts: seq<Text>) {
    if items == [] then [] else [Stringify(items[0])] + StringifyItems(items[1..])
  }

  function StringifyMembers(members: seq<Member>): (ms: seq<Named>) {
    if members == [] then []
    else
      var m := members[0];
      [Named(m.name, Quote(m.name) + [COLON] + Stringify(m.value))] + StringifyMembers(members[1..])
  }

  // ----- The canonical form -----

  /** The order of `Array.prototype.sort`: by code units. */
  predicate Before(a: Text, b: Text) {
    b != [] && (a == [] || a[0] < b[0] || (a[0] == b[0] && Before(a[1..], b[1..])))
  }

  function Insert(m: Named, sorted: seq<Named>): (next: seq<Named>) {
    if sorted == [] || Before(m.name, sorted[0].name) then [m] + sorted
    else [sorted[0]] + Insert(m, sorted[1..])
  }

  function Sort(ms: seq<Named>): (sorted: seq<Named>) {
    if ms == [] then [] else Insert(ms[0], Sort(ms[1..]))
  }

  /** `canonicalizeJson`: throws at a number that is not finite and at a surrogate standing alone. */
  function Canonicalize(v: Value): (t: Result<Text>) {
    match v
    case JNull => Success(Ascii("null"))
    case JBool(truth) => Success(Ascii(if truth then "true" else "false"))
    case JNumber(digits, finite) => if finite then Success(Ascii(digits)) else Throw
    case JString(s) => if WellFormed(s) then Success(Quote(s)) else Throw
    case JArray(items) =>
      var texts :- CanonicalItems(items);
      Success(Bracketed(texts))
    case JObject(members) =>
      var ms :- CanonicalMembers(members);
      Success(Braced(Sort(ms)))
  }

  function CanonicalItems(items: seq<Value>): (texts: Result<seq<Text>>) {
    if items == [] then Success([])
    else
      var first :- Canonicalize(items[0]);
      var rest :- CanonicalItems(items[1..]);
      Success([first] + rest)
  }

  function CanonicalMembers(members: seq<Member>): (ms: Result<seq<Named>>) {
    if members == [] then Success([])
    else
      var m := members[0];
      if !WellFormed(m.name) then Throw
      else
        var text :- Canonicalize(m.value);
        var rest :- CanonicalMembers(members[1..]);
        Success([Named(m.name, Quote(m.name) + [COLON] + text)] + rest)
  }

  /** Every number in the value is finite, and every string and name in it is well-formed. */
  predicate HasCanonicalForm(v: Value) {
    match v
    case JNumber(_, finite) => finite
    case JString(s) => WellFormed(s)
    case JArray(items) => forall i :: 0 <= i < |items| ==> HasCanonicalForm(items[i])
    case JObject(members) =>
      forall i :: 0 <= i < |members| ==> WellFormed(members[i].name) && HasCanonicalForm(members[i].value)
    case _ => true
  }

  /** Canonicalising throws exactly at values that hold a surrogate standing alone or a number that is not finite. */
  lemma {:induction false} CanonicalizeIff(v: Value)
    ensures Canonicalize(v).Success? <==> HasCanonicalForm(v)
    decreases v
  {
    match v
    case JArray(items) => CanonicalItemsIff(items);
    case JObject(members) => CanonicalMembersIff(members);
    case _ =>
  }

  lemma {:induction false} CanonicalItemsIff(items: seq<Value>)
    ensures CanonicalItems(items).Success? <==> forall i :: 0 <= i < |items| ==> HasCanonicalForm(items[i])
    decreases items
  {
    if items != [] {
      CanonicalizeIff(items[0]);
      CanonicalItemsIff(items[1..]);
      assert items == [items[0]] + items[1..];
    }
  }

  lemma {:induction false} CanonicalMembersIff(members: seq<Member>)
    ensures CanonicalMembers(members).Success? <==>
      forall i :: 0 <= i < |members| ==> WellFormed(members[i].name) && HasCanonicalForm(members[i].value)
    decreases members
  {
    if members != [] {
      CanonicalizeIff(members[0].value);
      CanonicalMembersIff(members[1..]);
      assert members == [members[0]] + members[1..];
    }
  }

  // ----- Bytes -----

  /** UTF-8 bytes of a unit of well-formed text; each half of a pair stands for two of its four. */
  function UnitBytes(c: CodeUnit): (n: nat) {
    if c < 0x80 then 1 else if c < 0x800 || IsHigh(c) || IsLow(c) then 2 else 3
  }

  /** `Buffer.byteLength(t, "utf8")` of well-formed text. */
  function Utf8Bytes(t: Text): (n: nat) {
    if t == [] then 0 else UnitBytes(t[0]) + Utf8Bytes(t[1..])
  }

  function TotalBytes(texts: seq<Text>): (n: nat) {
    if texts == [] then 0 else Utf8Bytes(texts[0]) + TotalBytes(texts[1..])
  }

  lemma {:induction false} BytesAdd(a: Text, b: Text)
    ensures Utf8Bytes(a + b) == Utf8Bytes(a) + Utf8Bytes(b)
  {
    if a == [] {
      assert a + b == b;
    } else {
      BytesAdd(a[1..], b);
      assert (a + b)[1..] == a[1..] + b;
    }
  }

  lemma {:induction false} JoinBytes(texts: seq<Text>)
    ensures Utf8Bytes(Join(texts)) == TotalBytes(texts) + (if texts == [] then 0 else |texts| - 1)
  {
    if |texts| == 1 {
      assert TotalBytes(texts[1..]) == 0;
    } else if texts != [] {
      JoinBytes(texts[1..]);
      BytesAdd(texts[0] + [COMMA], Join(texts[1..]));
      BytesAdd(texts[0], [COMMA]);
      assert Utf8Bytes([COMMA]) == 1;
    }
  }

  lemma {:induction false} InsertBytes(m: Named, sorted: seq<Named>)
    ensures |Insert(m, sorted)| == |sorted| + 1
    ensures TotalBytes(TextsOf(Insert(m, sorted))) == Utf8Bytes(m.text) + TotalBytes(TextsOf(sorted))
    decreases sorted
  {
    if sorted == [] || Before(m.name, sorted[0].name) {
      assert TextsOf([m] + sorted)[1..] == TextsOf(sorted);
    } else {
      InsertBytes(m, sorted[1..]);
      assert TextsOf(Insert(m, sorted))[1..] == TextsOf(Insert(m, sorted[1..]));
      assert TextsOf(sorted)[1..] == TextsOf(sorted[1..]);
    }
  }

  lemma {:induction false} SortBytes(ms: seq<Named>)
    ensures |Sort(ms)| == |ms| && TotalBytes(TextsOf(Sort(ms))) == TotalBytes(TextsOf(ms))
  {
    if ms != [] {
      SortBytes(ms[1..]);
      InsertBytes(ms[0], Sort(ms[1..]));
      assert TextsOf(ms)[1..] == TextsOf(ms[1..]);
    }
  }

  lemma SameTotalSameBytes(open: CodeUnit, a: seq<Text>, b: seq<Text>, close: CodeUnit)
    requires |a| == |b| && TotalBytes(a) == TotalBytes(b)
    ensures Utf8Bytes([open] + Join(a) + [close]) == Utf8Bytes([open] + Join(b) + [close])
  {
    JoinBytes(a);
    JoinBytes(b);
    BytesAdd([open] + Join(a), [close]);
    BytesAdd([open] + Join(b), [close]);
    BytesAdd([open], Join(a));
    BytesAdd([open], Join(b));
  }

  /** The canonical form of a value, when it has one, takes as many bytes as its compact form. */
  lemma {:induction false} CanonicalBytes(v: Value)
    requires Canonicalize(v).Success?
    ensures Utf8Bytes(Canonicalize(v).value) == Utf8Bytes(Stringify(v))
    decreases v
  {
    match v
    case JArray(items) =>
      CanonicalItemsBytes(items);
      SameTotalSameBytes(LBRACKET, CanonicalItems(items).value, StringifyItems(items), RBRACKET);
    case JObject(members) =>
      var ms := CanonicalMembers(members).value;
      CanonicalMembersBytes(members);
      SortBytes(ms);
      SameTotalSameBytes(LBRACE, TextsOf(Sort(ms)), TextsOf(StringifyMembers(members)), RBRACE);
    case _ =>
  }

  lemma {:induction false} CanonicalItemsBytes(items: seq<Value>)
    requires CanonicalItems(items).Success?
    ensures |CanonicalItems(items).value| == |StringifyItems(items)|
    ensures TotalBytes(CanonicalItems(items).value) == TotalBytes(StringifyItems(items))
    decreases items
  {
    if items != [] {
      CanonicalBytes(items[0]);
      CanonicalItemsBytes(items[1..]);
      assert CanonicalItems(items).value[1..] == CanonicalItems(items[1..]).value;
      assert StringifyItems(items)[1..] == StringifyItems(items[1..]);
    }
  }

  lemma {:induction false} CanonicalMembersBytes(members: seq<Member>)
    requires CanonicalMembers(members).Success?
    ensures |CanonicalMembers(members).value| == |StringifyMembers(members)|
    ensures TotalBytes(TextsOf(CanonicalMembers(members).value)) == TotalBytes(TextsOf(StringifyMembers(members)))
    decreases members
  {
    if members != [] {
      var m := members[0];
      CanonicalBytes(m.value);
      CanonicalMembersBytes(members[1..]);
      BytesAdd(Quote(m.name) + [COLON], Canonicalize(m.value).value);
      BytesAdd(Quote(m.name) + [COLON], Stringify(m.value));
      assert TextsOf(CanonicalMembers(members).value)[1..] == TextsOf(CanonicalMembers(members[1..]).value);
      assert TextsOf(StringifyMembers(members))[1..] == TextsOf(StringifyMembers(members[1..]));
    }
  }

  // ----- The compact form is well-formed, whatever the value holds -----

  lemma QuoteUnitIs(s: Text, i: nat)
    requires i < |s|
    ensures QuoteUnit(s, i) == [s[i]] || forall j :: 0 <= j < |QuoteUnit(s, i)| ==> QuoteUnit(s, i)[j] < 0x80
    ensures UnitOk(s, i) && (IsHigh(s[i]) || IsLow(s[i])) ==> QuoteUnit(s, i) == [s[i]]
    ensures !UnitOk(s, i) ==> forall j :: 0 <= j < |QuoteUnit(s, i)| ==> QuoteUnit(s, i)[j] < 0x80
  {
  }

  /** Behind a whole character the quoted text is well-formed. */
  lemma {:induction false} QuoteBodyWellFormed(s: Text, n: nat)
    requires n <= |s| && (n > 0 && IsHigh(s[n - 1]) ==> !UnitOk(s, n - 1))
    ensures WellFormed(QuoteBody(s, n))
  {
    if n > 0 {
      var last := QuoteUnit(s, n - 1);
      QuoteUnitIs(s, n - 1);
      if IsLow(s[n - 1]) && UnitOk(s, n - 1) {
        QuoteUnitIs(s, n - 2);
        assert UnitOk(s, n - 2);
        assert n - 2 > 0 && IsHigh(s[n - 3]) ==> !UnitOk(s, n - 3);
        QuoteBodyWellFormed(s, n - 2);
        var pair := [s[n - 2], s[n - 1]];
        assert UnitOk(pair, 0) && UnitOk(pair, 1);
        JoinWellFormed(QuoteBody(s, n - 2), pair);
        assert QuoteBody(s, n) == QuoteBody(s, n - 2) + pair;
      } else {
        assert n - 1 > 0 && IsHigh(s[n - 2]) ==> !UnitOk(s, n - 2);
        QuoteBodyWellFormed(s, n - 1);
        assert WellFormed(last);
        JoinWellFormed(QuoteBody(s, n - 1), last);
      }
    }
  }

  lemma QuoteWellFormed(s: Text)
    ensures WellFormed(Quote(s))
  {
    assert |s| > 0 && IsHigh(s[|s| - 1]) ==> !UnitOk(s, |s| - 1);
    QuoteBodyWellFormed(s, |s|);
    JoinWellFormed([QUOTE], QuoteBody(s, |s|));
    JoinWellFormed([QUOTE] + QuoteBody(s, |s|), [QUOTE]);
  }

  ghost predicate AllWellFormed(texts: seq<Text>) {
    forall i :: 0 <= i < |texts| ==> WellFormed(texts[i])
  }

  lemma {:induction false} JoinedWellFormed(texts: seq<Text>)
    requires AllWellFormed(texts)
    ensures WellFormed(Join(texts))
  {
    if |texts| > 1 {
      JoinedWellFormed(texts[1..]);
      JoinWellFormed(texts[0], [COMMA]);
      JoinWellFormed(texts[0] + [COMMA], Join(texts[1..]));
    }
  }

  lemma EnclosedWellFormed(open: CodeUnit, texts: seq<Text>, close: CodeUnit)
    requires AllWellFormed(texts) && open < 0x80 && close < 0x80
    ensures WellFormed([open] + Join(texts) + [close])
  {
    JoinedWellFormed(texts);
    JoinWellFormed([open], Join(texts));
    JoinWellFormed([open] + Join(texts), [close]);
  }

  /** `JSON.stringify` of any value is well-formed text, so counting its bytes by units is exact. */
  lemma {:induction false} StringifyWellFormed(v: Value)
    ensures WellFormed(Stringify(v))
    decreases v
  {
    match v
    case JString(s) => QuoteWellFormed(s);
    case JArray(items) =>
      ItemsWellFormed(items);
      EnclosedWellFormed(LBRACKET, StringifyItems(items), RBRACKET);
    case JObject(members) =>
      MembersWellFormed(members);
      EnclosedWellFormed(LBRACE, TextsOf(StringifyMembers(members)), RBRACE);
    case JNull => AsciiIsWellFormed("null");
    case JBool(truth) => AsciiIsWellFormed(if truth then "true" else "false");
    case JNumber(digits, finite) => AsciiIsWellFormed(if finite then digits else "null");
  }

  lemma {:induction false} ItemsWellFormed(items: seq<Value>)
    ensures AllWellFormed(StringifyItems(items))
    decreases items
  {
    if items != [] {
      StringifyWellFormed(items[0]);
      ItemsWellFormed(items[1..]);
    }
  }

  lemma {:induction false} MembersWellFormed(members: seq<Member>)
    ensures AllWellFormed(TextsOf(StringifyMembers(members)))
    decreases members
  {
    if members != [] {
      var m := members[0];
      StringifyWellFormed(m.value);
      MembersWellFormed(members[1..]);
      QuoteWellFormed(m.name);
      JoinWellFormed(Quote(m.name), [COLON]);
      JoinWellFormed(Quote(m.name) + [COLON], Stringify(m.value));
      assert TextsOf(StringifyMembers(members))[1..] == TextsOf(StringifyMembers(members[1..]));
    }
  }

  // ----- Canonical means: whatever the order of members -----

  lemma {:induction false} BeforeIsTotal(a: Text, b: Text)
    ensures a == b || Before(a, b) || Before(b, a)
  {
    if a != [] && b != [] && a[0] == b[0] {
      BeforeIsTotal(a[1..], b[1..]);
      assert a == [a[0]] + a[1..] && b == [b[0]] + b[1..];
    }
  }

  lemma {:induction false} BeforeIsStrict(a: Text, b: Text)
    requires Before(a, b)
    ensures !Before(b, a)
  {
    if a != [] && a[0] == b[0] { BeforeIsStrict(a[1..], b[1..]); }
  }

  lemma {:induction false} BeforeIsTransitive(a: Text, b: Text, c: Text)
    requires Before(a, b) && Before(b, c)
    ensures Before(a, c)
  {
    if a != [] && a[0] == b[0] == c[0] { BeforeIsTransitive(a[1..], b[1..], c[1..]); }
  }

  ghost predicate Sorted(ms: seq<Named>) {
    forall i, j :: 0 <= i < j < |ms| ==> Before(ms[i].name, ms[j].name)
  }

  lemma {:induction false} InsertMembers(m: Named, ms: seq<Named>, x: Named)
    ensures x in Insert(m, ms) <==> x == m || x in ms
    decreases ms
  {
    if ms != [] && !Before(m.name, ms[0].name) {
      InsertMembers(m, ms[1..], x);
      assert ms == [ms[0]] + ms[1..];
    }
  }

  lemma {:induction false} InsertSorted(m: Named, ms: seq<Named>)
    requires Sorted(ms) && forall x :: x in ms ==> x.name != m.name
    ensures Sorted(Insert(m, ms))
    decreases ms
  {
    if ms == [] {
    } else if Before(m.name, ms[0].name) {
      forall j | 1 <= j < |ms| ensures Before(m.name, ms[j].name) { BeforeIsTransitive(m.name, ms[0].name, ms[j].name); }
    } else {
      var rest := Insert(m, ms[1..]);
      assert ms[0] in ms && forall x :: x in ms[1..] ==> x in ms;
      InsertSorted(m, ms[1..]);
      BeforeIsTotal(m.name, ms[0].name);
      forall j | 0 <= j < |rest| ensures Before(ms[0].name, rest[j].name) {
        assert rest[j] in rest;
        InsertMembers(m, ms[1..], rest[j]);
        if rest[j] != m { var i :| 0 <= i < |ms[1..]| && ms[1..][i] == rest[j]; }
      }
    }
  }

  /** Two sorted lists with the same members are the same list. */
  lemma {:induction false} SortedUnique(a: seq<Named>, b: seq<Named>)
    requires Sorted(a) && Sorted(b) && forall x :: x in a <==> x in b
    ensures a == b
  {
    SameEmpty(a, b);
    if a != [] {
      assert a[0] in a && b[0] in b;
      FirstOfSorted(a, b);
      assert a == [a[0]] + a[1..] && b == [b[0]] + b[1..];
      forall x ensures x in a[1..] <==> x in b[1..] {
        if x in a[1..] { NotFirst(a, x); }
        if x in b[1..] { NotFirst(b, x); }
      }
      SortedUnique(a[1..], b[1..]);
    }
  }

  lemma SameEmpty(a: seq<Named>, b: seq<Named>)
    requires forall x :: x in a <==> x in b
    ensures a == [] <==> b == []
  {
    if a != [] { assert a[0] in a; }
    if b != [] { assert b[0] in b; }
  }

  lemma NotFirst(a: seq<Named>, x: Named)
    requires Sorted(a) && a != [] && x in a[1..]
    ensures x != a[0] && Before(a[0].name, x.name) && x in a
  {
    var i :| 0 <= i < |a[1..]| && a[1..][i] == x;
    assert a[i + 1] == x;
    BeforeIsStrict(a[0].name, x.name);
  }

  lemma FirstOfSorted(a: seq<Named>, b: seq<Named>)
    requires Sorted(a) && Sorted(b) && a != [] && b != [] && a[0] in b && b[0] in a
    ensures a[0] == b[0]
  {
    if a[0] != b[0] {
      assert a == [a[0]] + a[1..] && b == [b[0]] + b[1..];
      NotFirst(a, b[0]);
      NotFirst(b, a[0]);
      BeforeIsStrict(a[0].name, b[0].name);
    }
  }

  ghost predicate DistinctNames(ms: seq<Named>) {
    forall i, j :: 0 <= i < j < |ms| ==> ms[i].name != ms[j].name
  }

  lemma {:induction false} SortSorts(ms: seq<Named>)
    requires DistinctNames(ms)
    ensures Sorted(Sort(ms)) && forall x :: x in Sort(ms) <==> x in ms
  {
    if ms != [] {
      SortSorts(ms[1..]);
      assert ms == [ms[0]] + ms[1..];
      forall x | x in Sort(ms[1..]) ensures x.name != ms[0].name {
        var i :| 0 <= i < |ms[1..]| && ms[1..][i] == x;
        assert ms[i + 1] == x;
      }
      InsertSorted(ms[0], Sort(ms[1..]));
      forall x ensures x in Sort(ms) <==> x in ms { InsertMembers(ms[0], Sort(ms[1..]), x); }
    }
  }

  ghost predicate DistinctMembers(ms: seq<Member>) {
    forall i, j :: 0 <= i < j < |ms| ==> ms[i].name != ms[j].name
  }

  ghost predicate RendersTo(m: Member, x: Named) {
    && Canonicalize(m.value).Success?
    && x == Named(m.name, Quote(m.name) + [COLON] + Canonicalize(m.value).value)
  }

  lemma {:induction false} CanonicalMembersAre(members: seq<Member>)
    requires CanonicalMembers(members).Success?
    ensures var ms := CanonicalMembers(members).value;
            |ms| == |members| && forall i :: 0 <= i < |ms| ==> RendersTo(members[i], ms[i])
  {
    if members != [] { CanonicalMembersAre(members[1..]); }
  }

  lemma PartHasForm(a: seq<Member>, b: seq<Member>)
    requires CanonicalMembers(b).Success? && forall m :: m in a ==> m in b
    ensures CanonicalMembers(a).Success?
  {
    CanonicalMembersIff(a);
    CanonicalMembersIff(b);
    forall i | 0 <= i < |a| ensures WellFormed(a[i].name) && HasCanonicalForm(a[i].value) {
      assert a[i] in a && a[i] in b;
      var j :| 0 <= j < |b| && b[j] == a[i];
    }
  }

  lemma SameMembers(a: seq<Member>, b: seq<Member>, x: Named)
    requires CanonicalMembers(a).Success? && CanonicalMembers(b).Success? && forall m :: m in a ==> m in b
    requires x in CanonicalMembers(a).value
    ensures x in CanonicalMembers(b).value
  {
    CanonicalMembersAre(a);
    CanonicalMembersAre(b);
    var i :| 0 <= i < |a| && CanonicalMembers(a).value[i] == x;
    assert a[i] in a && a[i] in b;
    var j :| 0 <= j < |b| && b[j] == a[i];
    assert RendersTo(a[i], x) && RendersTo(b[j], CanonicalMembers(b).value[j]);
  }

  /** The canonical form of an object does not depend on the order of its members. */
  lemma CanonicalIgnoresOrder(a: seq<Member>, b: seq<Member>)
    requires DistinctMembers(a) && DistinctMembers(b) && forall m :: m in a <==> m in b
    ensures Canonicalize(JObject(a)) == Canonicalize(JObject(b))
  {
    if CanonicalMembers(b).Success? { PartHasForm(a, b); }
    if CanonicalMembers(a).Success? {
      PartHasForm(b, a);
      var x, y := CanonicalMembers(a).value, CanonicalMembers(b).value;
      CanonicalMembersAre(a);
      CanonicalMembersAre(b);
      SortSorts(x);
      SortSorts(y);
      forall m ensures m in x <==> m in y {
        if m in x { SameMembers(a, b, m); }
        if m in y { SameMembers(b, a, m); }
      }
      SortedUnique(Sort(x), Sort(y));
    }
  }
}
