/** JSON texts, as in sections 2 to 7 of RFC 8259, byte by byte, and why none of them is the beginning of an object. */
module Json {
  type Byte = b: int | 0 <= b < 256

  const QUOTE: Byte := 0x22
  const BACKSLASH: Byte := 0x5C
  const COMMA: Byte := 0x2C
  const COLON: Byte := 0x3A
  const BEGIN_ARRAY: Byte := 0x5B
  const END_ARRAY: Byte := 0x5D
  const BEGIN_OBJECT: Byte := 0x7B
  const END_OBJECT: Byte := 0x7D

  // ---------- the grammar ----------

  predicate IsSpace(b: Byte) {
    b == 0x20 || b == 0x09 || b == 0x0A || b == 0x0D
  }

  predicate IsDigit(b: Byte) {
    0x30 <= b <= 0x39
  }

  predicate IsHex(b: Byte) {
    IsDigit(b) || 0x41 <= b <= 0x46 || 0x61 <= b <= 0x66
  }

  // Whitespace; only the space bytes of the sequence are written.
  datatype Space = Space(bytes: seq<Byte>) {
    predicate Valid() {
      forall i | 0 <= i < |bytes| :: IsSpace(bytes[i])
    }
  }

  datatype Char =
    | Plain(b: Byte)
    | Short(b: Byte)
    | Unicode(digits: seq<Byte>)
  {
    predicate Valid() {
      match this
      case Plain(b) => b >= 0x20 && b != QUOTE && b != BACKSLASH
      case Short(b) => b in {QUOTE, BACKSLASH, 0x2F, 0x62, 0x66, 0x6E, 0x72, 0x74}
      case Unicode(digits) => |digits| == 4 && forall i | 0 <= i < 4 :: IsHex(digits[i])
    }

    function Text(): seq<Byte> {
      match this
      case Plain(b) => [b]
      case Short(b) => [BACKSLASH, b]
      case Unicode(digits) => [BACKSLASH, 0x75] + digits
    }
  }

  predicate IsInteger(s: seq<Byte>) {
    |s| > 0 && (forall i | 0 <= i < |s| :: IsDigit(s[i])) && (s[0] == 0x30 ==> |s| == 1)
  }

  predicate IsFraction(s: seq<Byte>) {
    s == [] || (|s| > 1 && s[0] == 0x2E && forall i | 1 <= i < |s| :: IsDigit(s[i]))
  }

  predicate IsExponent(s: seq<Byte>) {
    s == [] ||
    (&& |s| > 1 && (s[0] == 0x65 || s[0] == 0x45)
     && (IsDigit(s[1]) || (|s| > 2 && (s[1] == 0x2B || s[1] == 0x2D)))
     && forall i | 2 <= i < |s| :: IsDigit(s[i]))
  }

  const FALSE: seq<Byte> := [0x66, 0x61, 0x6C, 0x73, 0x65]
  const NULL: seq<Byte> := [0x6E, 0x75, 0x6C, 0x6C]
  const TRUE: seq<Byte> := [0x74, 0x72, 0x75, 0x65]

  datatype Value =
    | Literal(name: seq<Byte>)
    | Number(minus: bool, whole: seq<Byte>, fraction: seq<Byte>, exponent: seq<Byte>)
    | String(chars: seq<Char>)
    | Array(empty: Space, elements: Elements)
    | Object(empty: Space, members: Members)

  datatype Elements = NoElements | Element(before: Space, value: Value, after: Space, more: Elements)

  datatype Members = NoMembers
                   | Member(before: Space, key: seq<Char>, afterKey: Space, beforeValue: Space, value: Value, after: Space,
                            more: Members)

  predicate ValidChars(chars: seq<Char>) {
    forall i | 0 <= i < |chars| :: chars[i].Valid()
  }

  predicate ValidValue(v: Value) {
    match v
    case Literal(name) => name == FALSE || name == NULL || name == TRUE
    case Number(_, whole, fraction, exponent) => IsInteger(whole) && IsFraction(fraction) && IsExponent(exponent)
    case String(chars) => ValidChars(chars)
    case Array(empty, elements) => empty.Valid() && ValidElements(elements)
    case Object(empty, members) => empty.Valid() && ValidMembers(members)
  }

  predicate ValidElements(es: Elements) {
    es.Element? ==> es.before.Valid() && ValidValue(es.value) && es.after.Valid() && ValidElements(es.more)
  }

  predicate ValidMembers(ms: Members) {
    ms.Member? ==>
      && ms.before.Valid() && ValidChars(ms.key) && ms.afterKey.Valid() && ms.beforeValue.Valid()
      && ValidValue(ms.value) && ms.after.Valid() && ValidMembers(ms.more)
  }

  // ---------- texts ----------

  function CharsText(chars: seq<Char>): seq<Byte> {
    if chars == [] then [] else chars[0].Text() + CharsText(chars[1..])
  }

  function StringText(chars: seq<Char>): seq<Byte> {
    [QUOTE] + CharsText(chars) + [QUOTE]
  }

  function ValueText(v: Value): seq<Byte> {
    match v
    case Literal(name) => name
    case Number(minus, whole, fraction, exponent) => (if minus then [0x2D] else []) + whole + fraction + exponent
    case String(chars) => StringText(chars)
    case Array(empty, elements) =>
      [BEGIN_ARRAY] + (if elements.NoElements? then empty.bytes else ElementsText(elements)) + [END_ARRAY]
    case Object(empty, members) =>
      [BEGIN_OBJECT] + (if members.NoMembers? then empty.bytes else MembersText(members)) + [END_OBJECT]
  }

  function ElementsText(es: Elements): seq<Byte> {
    if es.NoElements? then []
    else es.before.bytes + ValueText(es.value) + es.after.bytes
         + (if es.more.NoElements? then [] else [COMMA] + ElementsText(es.more))
  }

  function MembersText(ms: Members): seq<Byte> {
    if ms.NoMembers? then []
    else ms.before.bytes + StringText(ms.key) + ms.afterKey.bytes + [COLON]
         + ms.beforeValue.bytes + ValueText(ms.value) + ms.after.bytes
         + (if ms.more.NoMembers? then [] else [COMMA] + MembersText(ms.more))
  }

  // A JSON text is one value with whitespace around it.
  ghost predicate IsJsonText(text: seq<Byte>) {
    exists before: Space, v, after: Space ::
      before.Valid() && ValidValue(v) && after.Valid() && text == before.bytes + ValueText(v) + after.bytes
  }

  // ---------- scanning ----------

  // How deep in brackets a scan is, and whether it is inside a string, right behind a backslash.
  datatype Scan = Scan(depth: int, inString: bool, escaped: bool)

  function Next(s: Scan, b: Byte): Scan {
    if s.inString then
      if s.escaped then s.(escaped := false)
      else if b == BACKSLASH then s.(escaped := true)
      else if b == QUOTE then s.(inString := false)
      else s
    else if b == QUOTE then s.(inString := true)
    else if b == BEGIN_ARRAY || b == BEGIN_OBJECT then s.(depth := s.depth + 1)
    else if b == END_ARRAY || b == END_OBJECT then s.(depth := s.depth - 1)
    else s
  }

  function Run(s: Scan, text: seq<Byte>): Scan
    decreases |text|
  {
    if text == [] then s else Run(Next(s, text[0]), text[1..])
  }

  lemma {:induction false} RunAppend(s: Scan, a: seq<Byte>, b: seq<Byte>)
    ensures Run(s, a + b) == Run(Run(s, a), b)
    decreases |a|
  {
    if a == [] {
      assert a + b == b;
    } else {
      assert (a + b)[1..] == a[1..] + b;
      RunAppend(Next(s, a[0]), a[1..], b);
    }
  }

  function Outside(depth: int): Scan {
    Scan(depth, false, false)
  }

  function Inside(depth: int): Scan {
    Scan(depth, true, false)
  }

  // Scanning the text from `s` leads back to `s` and never to a smaller depth on the way.
  ghost predicate Level(text: seq<Byte>, s: Scan) {
    && Run(s, text) == s
    && forall k | 0 <= k <= |text| :: Run(s, text[..k]).depth >= s.depth
  }

  lemma LevelAppend(a: seq<Byte>, b: seq<Byte>, s: Scan)
    requires Level(a, s) && Level(b, s)
    ensures Level(a + b, s)
  {
    RunAppend(s, a, b);
    forall k | 0 <= k <= |a + b|
      ensures Run(s, (a + b)[..k]).depth >= s.depth
    {
      if k <= |a| {
        assert (a + b)[..k] == a[..k];
      } else {
        assert (a + b)[..k] == a + b[..k - |a|];
        RunAppend(s, a, b[..k - |a|]);
      }
    }
  }

  // A text between two delimiters: strictly inside, the scan is at least as deep as just behind the first of them.
  lemma LevelBetween(open: Byte, inner: seq<Byte>, close: Byte, s: Scan)
    requires Level(inner, Next(s, open)) && Next(Next(s, open), close) == s && Next(s, open).depth >= s.depth
    ensures Level([open] + inner + [close], s)
    ensures forall k | 0 < k < |inner| + 2 :: Run(s, ([open] + inner + [close])[..k]).depth >= Next(s, open).depth
  {
    var text := [open] + inner + [close];
    assert text[1..] == inner + [close];
    RunAppend(Next(s, open), inner, [close]);
    forall k | 0 < k < |text|
      ensures Run(s, text[..k]).depth >= Next(s, open).depth
    {
      assert text[..k][1..] == inner[..k - 1];
    }
    assert text[..0] == [] && text[..|text|] == text;
  }

  predicate IsPlainByte(b: Byte) {
    b != QUOTE && b != BEGIN_ARRAY && b != END_ARRAY && b != BEGIN_OBJECT && b != END_OBJECT
  }

  // Bytes that mean nothing to the scan: outside of strings all but quotes and brackets, in a string all but
  // quotes and backslashes.
  predicate IsStill(b: Byte, s: Scan) {
    if s.inString then b != QUOTE && b != BACKSLASH else IsPlainByte(b)
  }

  lemma {:induction false} StillRuns(text: seq<Byte>, s: Scan)
    requires !s.escaped && forall i | 0 <= i < |text| :: IsStill(text[i], s)
    ensures Run(s, text) == s
    decreases |text|
  {
    if text == [] {
    } else {
      StillRuns(text[1..], s);
    }
  }

  lemma StillIsLevel(text: seq<Byte>, s: Scan)
    requires !s.escaped && forall i | 0 <= i < |text| :: IsStill(text[i], s)
    ensures Level(text, s)
  {
    forall k | 0 <= k <= |text|
      ensures Run(s, text[..k]) == s
    {
      StillRuns(text[..k], s);
    }
    assert text[..|text|] == text;
  }

  // ---------- strings ----------

  lemma EscapeIsLevel(b: Byte, d: int)
    ensures Level([BACKSLASH, b], Inside(d))
  {
    var text := [BACKSLASH, b];
    assert text[1..] == [b] && text[..0] == [] && text[..1] == [BACKSLASH] && text[..2] == text;
    assert Run(Inside(d), text[..1]) == Scan(d, true, true);
    assert Run(Inside(d), text) == Run(Scan(d, true, true), [b]) == Run(Inside(d), []);
  }

  lemma CharIsLevel(c: Char, d: int)
    requires c.Valid()
    ensures Level(c.Text(), Inside(d))
  {
    match c
    case Plain(b) => StillIsLevel([b], Inside(d));
    case Short(b) => EscapeIsLevel(b, d);
    case Unicode(digits) =>
      EscapeIsLevel(0x75, d);
      StillIsLevel(digits, Inside(d));
      LevelAppend([BACKSLASH, 0x75], digits, Inside(d));
  }

  lemma {:induction false} CharsAreLevel(chars: seq<Char>, d: int)
    requires ValidChars(chars)
    ensures Level(CharsText(chars), Inside(d))
    decreases |chars|
  {
    if chars == [] {
      StillIsLevel([], Inside(d));
    } else {
      CharIsLevel(chars[0], d);
      CharsAreLevel(chars[1..], d);
      LevelAppend(chars[0].Text(), CharsText(chars[1..]), Inside(d));
    }
  }

  lemma StringIsLevel(chars: seq<Char>, d: int)
    requires ValidChars(chars)
    ensures Level(StringText(chars), Outside(d))
  {
    CharsAreLevel(chars, d);
    LevelBetween(QUOTE, CharsText(chars), QUOTE, Outside(d));
  }

  // ---------- values ----------

  lemma SpaceIsLevel(sp: Space, d: int)
    requires sp.Valid()
    ensures Level(sp.bytes, Outside(d))
  {
    StillIsLevel(sp.bytes, Outside(d));
  }

  lemma NumberIsLevel(v: Value, d: int)
    requires v.Number? && ValidValue(v)
    ensures Level(ValueText(v), Outside(d)) && ValueText(v) != []
  {
    var text := ValueText(v);
    assert forall i | 0 <= i < |v.fraction| :: IsPlainByte(v.fraction[i]);
    assert forall i | 0 <= i < |v.exponent| :: IsPlainByte(v.exponent[i]);
    StillIsLevel(text, Outside(d));
  }

  // Everything a value, or a list of them, is written with stays level with its surroundings.
  lemma {:induction false} ValueIsLevel(v: Value, d: int)
    requires ValidValue(v)
    ensures Level(ValueText(v), Outside(d)) && ValueText(v) != []
    decreases v, 0
  {
    match v
    case Literal(name) => StillIsLevel(name, Outside(d));
    case Number(_, _, _, _) => NumberIsLevel(v, d);
    case String(chars) => StringIsLevel(chars, d);
    case Array(empty, elements) =>
      if elements.NoElements? { SpaceIsLevel(empty, d + 1); } else { ElementsAreLevel(elements, d + 1); }
      LevelBetween(BEGIN_ARRAY, if elements.NoElements? then empty.bytes else ElementsText(elements), END_ARRAY, Outside(d));
    case Object(empty, members) =>
      InnerIsLevel(empty, members, d + 1);
      LevelBetween(BEGIN_OBJECT, InnerText(empty, members), END_OBJECT, Outside(d));
  }

  function InnerText(empty: Space, members: Members): seq<Byte> {
    if members.NoMembers? then empty.bytes else MembersText(members)
  }

  lemma {:induction false} InnerIsLevel(empty: Space, members: Members, d: int)
    requires empty.Valid() && ValidMembers(members)
    ensures Level(InnerText(empty, members), Outside(d))
    decreases members, 1
  {
    if members.NoMembers? { SpaceIsLevel(empty, d); } else { MembersAreLevel(members, d); }
  }

  lemma {:induction false} ElementsAreLevel(es: Elements, d: int)
    requires ValidElements(es)
    ensures Level(ElementsText(es), Outside(d))
    decreases es, 0
  {
    if es.NoElements? {
      StillIsLevel([], Outside(d));
    } else {
      SpaceIsLevel(es.before, d);
      ValueIsLevel(es.value, d);
      LevelAppend(es.before.bytes, ValueText(es.value), Outside(d));
      SpaceIsLevel(es.after, d);
      LevelAppend(es.before.bytes + ValueText(es.value), es.after.bytes, Outside(d));
      ElementsAreLevel(es.more, d);
      MoreIsLevel(ElementsText(es.more), d);
      LevelAppend(es.before.bytes + ValueText(es.value) + es.after.bytes,
                  if es.more.NoElements? then [] else [COMMA] + ElementsText(es.more), Outside(d));
    }
  }

  lemma MoreIsLevel(more: seq<Byte>, d: int)
    requires Level(more, Outside(d))
    ensures Level([COMMA] + more, Outside(d)) && Level([], Outside(d))
  {
    StillIsLevel([COMMA], Outside(d));
    StillIsLevel([], Outside(d));
    LevelAppend([COMMA], more, Outside(d));
  }

  lemma KeyIsLevel(ms: Members, d: int)
    requires ms.Member? && ValidMembers(ms)
    ensures Level(ms.before.bytes + StringText(ms.key) + ms.afterKey.bytes + [COLON] + ms.beforeValue.bytes, Outside(d))
  {
    SpaceIsLevel(ms.before, d);
    StringIsLevel(ms.key, d);
    LevelAppend(ms.before.bytes, StringText(ms.key), Outside(d));
    SpaceIsLevel(ms.afterKey, d);
    LevelAppend(ms.before.bytes + StringText(ms.key), ms.afterKey.bytes, Outside(d));
    StillIsLevel([COLON], Outside(d));
    LevelAppend(ms.before.bytes + StringText(ms.key) + ms.afterKey.bytes, [COLON], Outside(d));
    SpaceIsLevel(ms.beforeValue, d);
    LevelAppend(ms.before.bytes + StringText(ms.key) + ms.afterKey.bytes + [COLON], ms.beforeValue.bytes, Outside(d));
  }

  lemma {:induction false} MembersAreLevel(ms: Members, d: int)
    requires ValidMembers(ms)
    ensures Level(MembersText(ms), Outside(d))
    decreases ms, 0
  {
    if ms.NoMembers? {
      StillIsLevel([], Outside(d));
    } else {
      KeyIsLevel(ms, d);
      var head := ms.before.bytes + StringText(ms.key) + ms.afterKey.bytes + [COLON] + ms.beforeValue.bytes;
      ValueIsLevel(ms.value, d);
      LevelAppend(head, ValueText(ms.value), Outside(d));
      SpaceIsLevel(ms.after, d);
      LevelAppend(head + ValueText(ms.value), ms.after.bytes, Outside(d));
      MembersAreLevel(ms.more, d);
      MoreIsLevel(MembersText(ms.more), d);
      LevelAppend(head + ValueText(ms.value) + ms.after.bytes,
                  if ms.more.NoMembers? then [] else [COMMA] + MembersText(ms.more), Outside(d));
    }
  }

  // ---------- prefixes ----------

  // A complete JSON text ends a scan where it began.
  lemma JsonTextIsLevel(text: seq<Byte>)
    requires IsJsonText(text)
    ensures Run(Outside(0), text) == Outside(0) && text != []
  {
    var before: Space, v, after: Space :|
      before.Valid() && ValidValue(v) && after.Valid() && text == before.bytes + ValueText(v) + after.bytes;
    SpaceIsLevel(before, 0);
    ValueIsLevel(v, 0);
    SpaceIsLevel(after, 0);
    LevelAppend(before.bytes, ValueText(v), Outside(0));
    LevelAppend(before.bytes + ValueText(v), after.bytes, Outside(0));
  }

  lemma ObjectStaysOpen(v: Value, n: nat)
    requires v.Object? && ValidValue(v) && 0 < n < |ValueText(v)|
    ensures Run(Outside(0), ValueText(v)[..n]).depth >= 1
  {
    InnerIsLevel(v.empty, v.members, 1);
    LevelBetween(BEGIN_OBJECT, InnerText(v.empty, v.members), END_OBJECT, Outside(0));
  }

  // No proper prefix of the text of an object is a JSON text: up to its last byte the object's bracket is open.
  lemma NoPrefixOfAnObject(v: Value, n: nat)
    requires v.Object? && ValidValue(v) && n < |ValueText(v)|
    ensures !IsJsonText(ValueText(v)[..n])
  {
    if n > 0 { ObjectStaysOpen(v, n); }
    if IsJsonText(ValueText(v)[..n]) { JsonTextIsLevel(ValueText(v)[..n]); }
  }

  // Not every value is like that: a number may begin another.
  lemma ANumberMayBeginAnother()
    ensures ValidValue(Number(false, [0x31, 0x32], [], [])) && IsJsonText(ValueText(Number(false, [0x31, 0x32], [], []))[..1])
  {
    var one := Number(false, [0x31], [], []);
    assert ValueText(Number(false, [0x31, 0x32], [], []))[..1] == Space([]).bytes + ValueText(one) + Space([]).bytes;
    assert ValidValue(one) && Space([]).Valid();
  }

  // There are objects among them: {"a":[]} is a JSON text.
  lemma AnObjectIsAText()
    ensures IsJsonText([0x7B, 0x22, 0x61, 0x22, 0x3A, 0x5B, 0x5D, 0x7D])
  {
    var none := Space([]);
    var list, key := Array(none, NoElements), [Plain(0x61)];
    var ms := Member(none, key, none, none, list, none, NoMembers);
    var v := Object(none, ms);
    assert StringText(key) == [0x22, 0x61, 0x22] by { assert CharsText(key[1..]) == []; }
    assert MembersText(ms) == [0x22, 0x61, 0x22, 0x3A, 0x5B, 0x5D];
    assert ValidMembers(ms) && ValidMembers(NoMembers) && ValidElements(NoElements);
    assert none.bytes + ValueText(v) + none.bytes == [0x7B, 0x22, 0x61, 0x22, 0x3A, 0x5B, 0x5D, 0x7D];
    assert none.Valid() && ValidValue(v);
  }
}
