/** JSON texts as the grammar of RFC 8259 writes them, and the scanner's verdict on every one. */
module JsonGrammar {
  import opened Wrappers
  import opened StrictJson
  import opened Utf16

  datatype StringItem = Plain(unit: CodeUnit) | Escape(letter: CodeUnit) | UnicodeEscape(a: CodeUnit, b: CodeUnit, c: CodeUnit, d: CodeUnit)

  datatype Json =
    | Scalar(token: Text)
    | String(body: seq<StringItem>)
    | EmptyArray(space: Text)
    | Array(space: Text, items: Items)
    | EmptyObject(space: Text)
    | Object(space: Text, members: Members)

  /** `after` is the white space before the comma or bracket, `before` the one after the comma. */
  datatype Items = LastItem(value: Json, after: Text) | MoreItems(value: Json, after: Text, before: Text, rest: Items)

  datatype Member = Member(name: seq<StringItem>, afterName: Text, beforeValue: Text, value: Json, after: Text)

  datatype Members = LastMember(member: Member) | MoreMembers(member: Member, before: Text, rest: Members)

  // ----- Well-formedness -----

  /** The four white space characters of RFC 8259. */
  predicate IsJsonSpace(s: Text) {
    forall i :: 0 <= i < |s| ==> s[i] == 0x20 || s[i] == 0x09 || s[i] == 0x0A || s[i] == 0x0D
  }

  /** Numbers and the three literals; this admits more than RFC 8259 does. */
  predicate IsScalar(s: Text) {
    s != [] && forall i :: 0 <= i < |s| ==>
      !EndsScalar(s[i]) && s[i] != QUOTE && s[i] != LBRACE && s[i] != LBRACKET
  }

  predicate ItemOk(x: StringItem) {
    match x
    case Plain(u) => u >= 0x20 && u != QUOTE && u != BACKSLASH
    case Escape(l) => Escaped(l).Some?
    case UnicodeEscape(a, b, c, d) => FourHex(a, b, c, d).Some?
  }

  predicate StringOk(body: seq<StringItem>) {
    forall i :: 0 <= i < |body| ==> ItemOk(body[i])
  }

  predicate Ok(v: Json) {
    match v
    case Scalar(token) => IsScalar(token)
    case String(body) => StringOk(body)
    case EmptyArray(space) => IsJsonSpace(space)
    case EmptyObject(space) => IsJsonSpace(space)
    case Array(space, items) => IsJsonSpace(space) && ItemsOk(items)
    case Object(space, members) => IsJsonSpace(space) && MembersOk(members)
  }

  predicate ItemsOk(xs: Items) {
    match xs
    case LastItem(v, after) => Ok(v) && IsJsonSpace(after)
    case MoreItems(v, after, before, rest) => Ok(v) && IsJsonSpace(after) && IsJsonSpace(before) && ItemsOk(rest)
  }

  predicate MemberOk(m: Member) {
    StringOk(m.name) && IsJsonSpace(m.afterName) && IsJsonSpace(m.beforeValue) && IsJsonSpace(m.after)
  }

  predicate MembersOk(ms: Members) {
    match ms
    case LastMember(m) => MemberOk(m) && Ok(m.value)
    case MoreMembers(m, before, rest) => MemberOk(m) && Ok(m.value) && IsJsonSpace(before) && MembersOk(rest)
  }

  // ----- Rendering -----

  function RenderItem(x: StringItem): (s: Text) {
    match x
    case Plain(u) => [u]
    case Escape(l) => [BACKSLASH, l]
    case UnicodeEscape(a, b, c, d) => [BACKSLASH, 0x75, a, b, c, d]
  }

  function RenderBody(body: seq<StringItem>): (s: Text) {
    if body == [] then [] else RenderItem(body[0]) + RenderBody(body[1..])
  }

  /** The text of a string, followed by `k`. */
  function WriteString(body: seq<StringItem>, k: Text): (s: Text) {
    [QUOTE] + (RenderBody(body) + ([QUOTE] + k))
  }

  /** The text of a value, followed by `k`. */
  function Write(v: Json, k: Text): (s: Text) {
    match v
    case Scalar(token) => token + k
    case String(body) => WriteString(body, k)
    case EmptyArray(space) => [LBRACKET] + (space + ([RBRACKET] + k))
    case EmptyObject(space) => [LBRACE] + (space + ([RBRACE] + k))
    case Array(space, items) => [LBRACKET] + (space + WriteItems(items, k))
    case Object(space, members) => [LBRACE] + (space + WriteMembers(members, k))
  }

  function WriteItems(xs: Items, k: Text): (s: Text) {
    match xs
    case LastItem(v, after) => Write(v, after + ([RBRACKET] + k))
    case MoreItems(v, after, before, rest) => Write(v, after + ([COMMA] + (before + WriteItems(rest, k))))
  }

  /** The text of a member whose value and what follows it is `value`. */
  function WriteMember(m: Member, value: Text): (s: Text) {
    WriteString(m.name, m.afterName + ([COLON] + (m.beforeValue + value)))
  }

  function WriteMembers(ms: Members, k: Text): (s: Text) {
    match ms
    case LastMember(m) => WriteMember(m, Write(m.value, m.after + ([RBRACE] + k)))
    case MoreMembers(m, before, rest) =>
      WriteMember(m, Write(m.value, m.after + ([COMMA] + (before + WriteMembers(rest, k)))))
  }

  // ----- Duplicates -----

  function DecodeItem(x: StringItem): (u: CodeUnit)
    requires ItemOk(x)
  {
    match x
    case Plain(u) => u
    case Escape(l) => Escaped(l).value
    case UnicodeEscape(a, b, c, d) => FourHex(a, b, c, d).value
  }

  function Decoded(body: seq<StringItem>): (name: Text)
    requires StringOk(body)
  {
    if body == [] then [] else [DecodeItem(body[0])] + Decoded(body[1..])
  }

  function Names(ms: Members): (names: seq<Text>)
    requires MembersOk(ms)
  {
    match ms
    case LastMember(m) => [Decoded(m.name)]
    case MoreMembers(m, _, rest) => [Decoded(m.name)] + Names(rest)
  }

  predicate Repeats(names: seq<Text>) {
    exists i, j :: 0 <= i < j < |names| && names[i] == names[j]
  }

  /** Some object at some depth has two members with equal decoded names. */
  predicate HasDuplicate(v: Json)
    requires Ok(v)
  {
    match v
    case Array(_, items) => ItemsHaveDuplicate(items)
    case Object(_, members) => Repeats(Names(members)) || MembersHaveDuplicate(members)
    case _ => false
  }

  predicate ItemsHaveDuplicate(xs: Items)
    requires ItemsOk(xs)
  {
    match xs
    case LastItem(v, _) => HasDuplicate(v)
    case MoreItems(v, _, _, rest) => HasDuplicate(v) || ItemsHaveDuplicate(rest)
  }

  predicate MembersHaveDuplicate(ms: Members)
    requires MembersOk(ms)
  {
    match ms
    case LastMember(m) => HasDuplicate(m.value)
    case MoreMembers(m, _, rest) => HasDuplicate(m.value) || MembersHaveDuplicate(rest)
  }

  // ----- White space -----

  predicate StartsDark(k: Text) {
    k == [] || !IsSpace(k[0])
  }

  lemma Uncons(c: CodeUnit, k: Text)
    ensures Starts([c] + k, c) && ([c] + k)[1..] == k
  {
  }

  lemma {:induction false} SkipsSpace(space: Text, k: Text)
    requires IsJsonSpace(space) && StartsDark(k)
    ensures SkipSpace(space + k) == k
    decreases |space|
  {
    if space == [] {
      assert space + k == k;
    } else {
      assert (space + k)[1..] == space[1..] + k;
      SkipsSpace(space[1..], k);
    }
  }

  // ----- Strings -----

  lemma HexIsPlain(c: CodeUnit)
    ensures HexValue(c).Some? ==> c != QUOTE && c != BACKSLASH
  {
  }

  lemma PlainLength(c: CodeUnit, k: Text)
    requires c != QUOTE && c != BACKSLASH
    ensures BodyLength([c] + k) == if BodyLength(k).Some? then Some(1 + BodyLength(k).value) else None
  {
    assert ([c] + k)[1..] == k;
  }

  lemma EscapeLength(c: CodeUnit, k: Text)
    ensures BodyLength([BACKSLASH, c] + k) == if BodyLength(k).Some? then Some(2 + BodyLength(k).value) else None
  {
    assert ([BACKSLASH, c] + k)[2..] == k;
  }

  lemma UnicodeLength(a: CodeUnit, b: CodeUnit, c: CodeUnit, d: CodeUnit, k: Text)
    requires FourHex(a, b, c, d).Some?
    ensures BodyLength([BACKSLASH, 0x75] + ([a] + ([b] + ([c] + ([d] + k))))) ==
      if BodyLength(k).Some? then Some(6 + BodyLength(k).value) else None
  {
    HexIsPlain(a);
    HexIsPlain(b);
    HexIsPlain(c);
    HexIsPlain(d);
    PlainLength(d, k);
    PlainLength(c, [d] + k);
    PlainLength(b, [c] + ([d] + k));
    PlainLength(a, [b] + ([c] + ([d] + k)));
    EscapeLength(0x75, [a] + ([b] + ([c] + ([d] + k))));
  }

  lemma UnicodeText(a: CodeUnit, b: CodeUnit, c: CodeUnit, d: CodeUnit, k: Text)
    ensures RenderItem(UnicodeEscape(a, b, c, d)) + k == [BACKSLASH, 0x75] + ([a] + ([b] + ([c] + ([d] + k))))
  {
  }

  /** The search for the closing quote crosses one item whole. */
  lemma ItemLength(x: StringItem, k: Text)
    requires ItemOk(x)
    ensures BodyLength(RenderItem(x) + k) == if BodyLength(k).Some? then Some(|RenderItem(x)| + BodyLength(k).value) else None
  {
    match x
    case Plain(u) => PlainLength(u, k);
    case Escape(l) => EscapeLength(l, k);
    case UnicodeEscape(a, b, c, d) =>
      UnicodeText(a, b, c, d, k);
      UnicodeLength(a, b, c, d, k);
  }

  lemma {:induction false} BodyEnds(body: seq<StringItem>, k: Text)
    requires StringOk(body)
    ensures BodyLength(RenderBody(body) + ([QUOTE] + k)) == Some(|RenderBody(body)|)
    decreases |body|
  {
    if body == [] {
      assert RenderBody(body) + ([QUOTE] + k) == [QUOTE] + k;
    } else {
      var rest := RenderBody(body[1..]) + ([QUOTE] + k);
      assert RenderBody(body) + ([QUOTE] + k) == RenderItem(body[0]) + rest;
      BodyEnds(body[1..], k);
      ItemLength(body[0], rest);
    }
  }

  lemma {:induction false} DecodesBody(body: seq<StringItem>)
    requires StringOk(body)
    ensures DecodeBody(RenderBody(body)) == Some(Decoded(body))
    decreases |body|
  {
    if body != [] {
      DecodesBody(body[1..]);
      DecodesItem(body[0], RenderBody(body[1..]), Decoded(body[1..]));
    }
  }

  lemma DecodesItem(x: StringItem, rest: Text, decoded: Text)
    requires ItemOk(x) && DecodeBody(rest) == Some(decoded)
    ensures DecodeBody(RenderItem(x) + rest) == Some([DecodeItem(x)] + decoded)
  {
    var s := RenderItem(x) + rest;
    match x
    case Plain(_) => assert s[1..] == rest;
    case Escape(_) => assert s[2..] == rest;
    case UnicodeEscape(_, _, _, _) => assert s[6..] == rest;
  }

  lemma ScansString(body: seq<StringItem>, k: Text)
    requires StringOk(body)
    ensures ScanString(WriteString(body, k)) == Name(Decoded(body), k)
    ensures Starts(WriteString(body, k), QUOTE)
  {
    var inner := RenderBody(body);
    var rest := inner + ([QUOTE] + k);
    Uncons(QUOTE, rest);
    BodyEnds(body, k);
    assert rest[..|inner|] == inner;
    assert rest[|inner| + 1..] == k;
    DecodesBody(body);
  }

  // ----- Scalars -----

  predicate StartsEnd(k: Text) {
    k == [] || EndsScalar(k[0])
  }

  lemma {:induction false} ScalarEnds(token: Text, k: Text)
    requires StartsEnd(k) && forall j :: 0 <= j < |token| ==> !EndsScalar(token[j])
    ensures ScalarRest(token + k) == k
    decreases |token|
  {
    if token == [] {
      assert token + k == k;
    } else {
      assert (token + k)[1..] == token[1..] + k;
      ScalarEnds(token[1..], k);
    }
  }

  // ----- Values -----

  lemma WriteStarts(v: Json, k: Text)
    requires Ok(v)
    ensures Write(v, k) != [] && !IsSpace(Write(v, k)[0]) && Write(v, k)[0] != RBRACKET
  {
  }

  lemma ItemsStart(xs: Items, k: Text)
    requires ItemsOk(xs)
    ensures WriteItems(xs, k) != [] && !IsSpace(WriteItems(xs, k)[0]) && WriteItems(xs, k)[0] != RBRACKET
  {
    match xs
    case LastItem(v, after) => WriteStarts(v, after + ([RBRACKET] + k));
    case MoreItems(v, after, before, rest) => WriteStarts(v, after + ([COMMA] + (before + WriteItems(rest, k))));
  }

  lemma MembersStart(ms: Members, k: Text)
    ensures WriteMembers(ms, k) != [] && WriteMembers(ms, k)[0] == QUOTE
  {
  }

  /** White space and a separator end any value before them, and are skipped up to the separator. */
  lemma Separates(space: Text, c: CodeUnit, k: Text)
    requires IsJsonSpace(space) && EndsScalar(c) && !IsSpace(c)
    ensures StartsEnd(space + ([c] + k)) && SkipSpace(space + ([c] + k)) == [c] + k
  {
    SkipsSpace(space, [c] + k);
  }

  /** The verdict for something that leaves `k`. */
  predicate Verdict(r: Scan, duplicate: bool, k: Text) {
    if duplicate then r.Duplicate? else r == Rest(k)
  }

  lemma {:induction false} ScansValue(v: Json, k: Text)
    requires Ok(v) && StartsEnd(k)
    ensures Verdict(ScanValue(Write(v, k)), HasDuplicate(v), k)
    decreases v, 0
  {
    match v
    case Scalar(token) =>
      assert (token + k)[0] == token[0];
      ScalarEnds(token, k);
    case String(body) => ScansString(body, k);
    case EmptyArray(space) => ScansEmpty(LBRACKET, space, RBRACKET, k);
    case EmptyObject(space) => ScansEmpty(LBRACE, space, RBRACE, k);
    case Array(space, items) => ScansArray(space, items, k);
    case Object(space, members) => ScansObject(space, members, k);
  }

  lemma ScansEmpty(open: CodeUnit, space: Text, close: CodeUnit, k: Text)
    requires IsJsonSpace(space)
    requires (open == LBRACKET && close == RBRACKET) || (open == LBRACE && close == RBRACE)
    ensures ScanValue([open] + (space + ([close] + k))) == Rest(k)
  {
    Uncons(open, space + ([close] + k));
    SkipsSpace(space, [close] + k);
    Uncons(close, k);
  }

  lemma {:induction false} ScansArray(space: Text, items: Items, k: Text)
    requires IsJsonSpace(space) && ItemsOk(items)
    ensures Verdict(ScanValue([LBRACKET] + (space + WriteItems(items, k))), ItemsHaveDuplicate(items), k)
    decreases items, 1
  {
    ItemsStart(items, k);
    Uncons(LBRACKET, space + WriteItems(items, k));
    SkipsSpace(space, WriteItems(items, k));
    ScansItems(items, k);
  }

  lemma {:induction false} ScansObject(space: Text, members: Members, k: Text)
    requires IsJsonSpace(space) && MembersOk(members)
    ensures Verdict(ScanValue([LBRACE] + (space + WriteMembers(members, k))),
                    Repeats(Names(members)) || MembersHaveDuplicate(members), k)
    decreases members, 1
  {
    MembersStart(members, k);
    Uncons(LBRACE, space + WriteMembers(members, k));
    SkipsSpace(space, WriteMembers(members, k));
    ScansMembers(members, k, {});
    NoKeysYet(Names(members));
  }

  /** An item up to the separator after it. */
  lemma {:induction false} ScansItem(v: Json, after: Text, c: CodeUnit, k: Text)
    requires Ok(v) && IsJsonSpace(after) && EndsScalar(c) && !IsSpace(c)
    ensures Verdict(ScanItem(Write(v, after + ([c] + k))), HasDuplicate(v), [c] + k)
    decreases v, 1
  {
    Separates(after, c, k);
    ScansValue(v, after + ([c] + k));
  }

  lemma {:induction false} ScansItems(xs: Items, k: Text)
    requires ItemsOk(xs)
    ensures Verdict(ScanItems(WriteItems(xs, k)), ItemsHaveDuplicate(xs), k)
    decreases xs, 0
  {
    ItemsStart(xs, k);
    match xs
    case LastItem(v, after) =>
      ScansItem(v, after, RBRACKET, k);
      Uncons(RBRACKET, k);
    case MoreItems(v, after, before, rest) =>
      var tail := WriteItems(rest, k);
      ScansItem(v, after, COMMA, before + tail);
      Uncons(COMMA, before + tail);
      ItemsStart(rest, k);
      SkipsSpace(before, tail);
      ScansItems(rest, k);
  }

  /** A member's value up to the separator after it. */
  lemma {:induction false} ScansMemberValue(m: Member, c: CodeUnit, k: Text)
    requires MemberOk(m) && Ok(m.value) && EndsScalar(c) && !IsSpace(c)
    ensures Verdict(ScanMemberValue(m.afterName + ([COLON] + (m.beforeValue + Write(m.value, m.after + ([c] + k))))),
                    HasDuplicate(m.value), [c] + k)
    decreases m, 0
  {
    var value := Write(m.value, m.after + ([c] + k));
    SkipsSpace(m.afterName, [COLON] + (m.beforeValue + value));
    Uncons(COLON, m.beforeValue + value);
    WriteStarts(m.value, m.after + ([c] + k));
    SkipsSpace(m.beforeValue, value);
    Separates(m.after, c, k);
    ScansValue(m.value, m.after + ([c] + k));
  }

  /** Some name is one of `keys` already, or comes twice. */
  predicate Clashes(names: seq<Text>, keys: set<Text>) {
    Repeats(names) || exists i :: 0 <= i < |names| && names[i] in keys
  }

  lemma NoKeysYet(names: seq<Text>)
    ensures Clashes(names, {}) <==> Repeats(names)
  {
  }

  lemma ClashesStep(name: Text, rest: seq<Text>, keys: set<Text>)
    ensures Clashes([name] + rest, keys) <==> name in keys || Clashes(rest, keys + {name})
  {
    var names := [name] + rest;
    if Clashes(names, keys) && name !in keys {
      if Repeats(names) {
        var i, j :| 0 <= i < j < |names| && names[i] == names[j];
        assert rest[j - 1] == names[j];
        if i > 0 { assert rest[i - 1] == names[i]; }
      } else {
        var i :| 0 <= i < |names| && names[i] in keys;
        assert rest[i - 1] == names[i];
      }
    }
    if name in keys { assert names[0] in keys; }
    if i, j :| 0 <= i < j < |rest| && rest[i] == rest[j] { assert names[i + 1] == names[j + 1]; }
    if i :| 0 <= i < |rest| && rest[i] in keys + {name} { assert names[i + 1] == rest[i] && names[0] == name; }
  }

  lemma {:induction false} ScansMembers(ms: Members, k: Text, keys: set<Text>)
    requires MembersOk(ms)
    ensures Verdict(ScanMembers(WriteMembers(ms, k), keys), Clashes(Names(ms), keys) || MembersHaveDuplicate(ms), k)
    decreases ms, 0
  {
    match ms
    case LastMember(m) =>
      ScansString(m.name, m.afterName + ([COLON] + (m.beforeValue + Write(m.value, m.after + ([RBRACE] + k)))));
      ScansMemberValue(m, RBRACE, k);
      Uncons(RBRACE, k);
      ClashesStep(Decoded(m.name), [], keys);
      assert [Decoded(m.name)] + [] == Names(ms);
    case MoreMembers(m, before, rest) =>
      var tail := before + WriteMembers(rest, k);
      ScansString(m.name, m.afterName + ([COLON] + (m.beforeValue + Write(m.value, m.after + ([COMMA] + tail)))));
      ScansMemberValue(m, COMMA, tail);
      Uncons(COMMA, tail);
      ClashesStep(Decoded(m.name), Names(rest), keys);
      MembersStart(rest, k);
      SkipsSpace(before, WriteMembers(rest, k));
      ScansMembers(rest, k, keys + {Decoded(m.name)});
  }

  /**
   On every JSON text the scanner consumes the whole text, unless some object at some depth
   names a member twice; then, and only then, it reports a duplicate.
   */
  lemma ScannerIsExact(before: Text, v: Json, after: Text)
    requires Ok(v) && IsJsonSpace(before) && IsJsonSpace(after)
    ensures Verdict(ScanText(before + Write(v, after)), HasDuplicate(v), [])
  {
    WriteStarts(v, after);
    SkipsSpace(before, Write(v, after));
    ScansValue(v, after);
    assert after + [] == after;
    SkipsSpace(after, []);
  }
}
