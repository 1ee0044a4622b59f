/** Canonical JSON (hashing.ts): the serializer behind fingerprints,
    structural equality, argument binding and the audit chain, and a parser
    that recovers from its output exactly what the value denotes. */
module Json {
  import opened Wrappers
  import opened Text

  const QUOTE: Unit := 34
  const COMMA: Unit := 44
  const COLON: Unit := 58
  const LBRACKET: Unit := 91
  const BACKSLASH: Unit := 92
  const RBRACKET: Unit := 93
  const LBRACE: Unit := 123
  const RBRACE: Unit := 125
  const LOWER_U: Unit := 117

  const NULL_TEXT: Text := [110, 117, 108, 108]
  const TRUE_TEXT: Text := [116, 114, 117, 101]
  const FALSE_TEXT: Text := [102, 97, 108, 115, 101]
  /** "__nonfinite:" */
  const NONFINITE_TEXT: Text := [95, 95, 110, 111, 110, 102, 105, 110, 105, 116, 101, 58]

  // ---- Values -----------------------------------------------------------

  /** Digits, '+', '-', '.', 'E' and 'e'. */
  predicate IsNumberUnit(u: Unit) {
    IsDigit(u) || u == 43 || u == 45 || u == 46 || u == 69 || u == 101
  }

  predicate IsNumberText(t: Text) {
    t != [] && (IsDigit(t[0]) || t[0] == 45) && forall i :: 0 <= i < |t| ==> IsNumberUnit(t[i])
  }

  /** A finite number, identified by the text the runtime prints for it. */
  type NumberText = t: Text | IsNumberText(t) witness [48]

  /** What the program passes to the serializer. An object is the finite map
      of its own properties: nothing modelled here observes their order. */
  datatype Value =
    | Undefined
    | Null
    | Bool(b: bool)
    | Num(text: NumberText)
    | NonFinite(name: Text)
    | Str(s: Text)
    | Date(iso: Text)
    | Arr(items: seq<Value>)
    | Obj(members: map<Text, Value>)

  /** A JSON value: objects are unordered. */
  datatype Json =
    | JNull
    | JBool(b: bool)
    | JNum(text: NumberText)
    | JStr(s: Text)
    | JArr(items: seq<Json>)
    | JObj(members: map<Text, Json>)

  /** The JSON value a runtime value stands for. */
  function Denote(v: Value): Json {
    match v
    case Undefined => JNull
    case Null => JNull
    case Bool(b) => JBool(b)
    case Num(t) => JNum(t)
    case NonFinite(name) => JStr(NONFINITE_TEXT + name)
    case Str(s) => JStr(s)
    case Date(iso) => JStr(iso)
    case Arr(xs) => JArr(seq(|xs|, i requires 0 <= i < |xs| => Denote(xs[i])))
    case Obj(m) => JObj(map k | k in m && m[k] != Undefined :: Denote(m[k]))
  }

  // ---- Serializer --------------------------------------------------------

  function HexDigit(n: nat): Unit
    requires n < 16
  {
    if n < 10 then ZERO + n else 87 + n
  }

  function UnicodeEscape(u: Unit): Text {
    [BACKSLASH, LOWER_U, HexDigit(u / 4096), HexDigit(u / 256 % 16), HexDigit(u / 16 % 16), HexDigit(u % 16)]
  }

  predicate IsHighSurrogate(u: Unit) { 0xD800 <= u < 0xDC00 }
  predicate IsLowSurrogate(u: Unit) { 0xDC00 <= u < 0xE000 }

  /** One code unit outside a surrogate pair. */
  function EscapeUnit(u: Unit): Text {
    if u == QUOTE || u == BACKSLASH then [BACKSLASH, u]
    else if u == 8 then [BACKSLASH, 98]
    else if u == 9 then [BACKSLASH, 116]
    else if u == 10 then [BACKSLASH, 110]
    else if u == 12 then [BACKSLASH, 102]
    else if u == 13 then [BACKSLASH, 114]
    else if u < 32 || IsHighSurrogate(u) || IsLowSurrogate(u) then UnicodeEscape(u)
    else [u]
  }

  function Escape(s: Text): Text {
    if s == [] then []
    else if |s| >= 2 && IsHighSurrogate(s[0]) && IsLowSurrogate(s[1]) then [s[0], s[1]] + Escape(s[2..])
    else EscapeUnit(s[0]) + Escape(s[1..])
  }

  function Quoted(s: Text): Text {
    [QUOTE] + Escape(s) + [QUOTE]
  }

  function CanonicalJson(v: Value): Text
    decreases v, 1, 0
  {
    match v
    case Undefined => NULL_TEXT
    case Null => NULL_TEXT
    case Bool(b) => if b then TRUE_TEXT else FALSE_TEXT
    case Num(t) => t
    case NonFinite(name) => Quoted(NONFINITE_TEXT + name)
    case Str(s) => Quoted(s)
    case Date(iso) => Quoted(iso)
    case Arr(xs) => [LBRACKET] + ItemsJson(v, 0) + [RBRACKET]
    case Obj(m) => [LBRACE] + MembersJson(v, SortedKeys(DefinedKeys(m))) + [RBRACE]
  }

  function DefinedKeys(m: map<Text, Value>): set<Text> {
    set k | k in m && m[k] != Undefined
  }

  /** The items from index `i` on, separated by commas. */
  function ItemsJson(v: Value, i: nat): Text
    requires v.Arr? && i <= |v.items|
    decreases v, 0, |v.items| - i
  {
    if i == |v.items| then []
    else CanonicalJson(v.items[i]) + (if i + 1 < |v.items| then [COMMA] + ItemsJson(v, i + 1) else [])
  }

  /** The members named by `keys`, separated by commas. */
  function MembersJson(v: Value, keys: seq<Text>): Text
    requires v.Obj? && forall k :: k in keys ==> k in v.members
    decreases v, 0, |keys|
  {
    if keys == [] then []
    else
      Quoted(keys[0]) + [COLON] + CanonicalJson(v.members[keys[0]]) +
      (if |keys| > 1 then [COMMA] + MembersJson(v, keys[1..]) else [])
  }

  // ---- Parser (RFC 8259, sections 4, 5 and 7) ----------------------------

  datatype Parsed<+T> = Fail | Got(value: T, rest: Text)

  function UnHex(u: Unit): Option<nat> {
    if IsDigit(u) then Some(u - ZERO)
    else if 97 <= u <= 102 then Some(u - 87)
    else if 65 <= u <= 70 then Some(u - 55)
    else None
  }

  function UnescapeShort(u: Unit): Option<Unit> {
    if u == QUOTE || u == BACKSLASH || u == 47 then Some(u)
    else if u == 98 then Some(8)
    else if u == 116 then Some(9)
    else if u == 110 then Some(10)
    else if u == 102 then Some(12)
    else if u == 114 then Some(13)
    else None
  }

  /** One character of a string body, escapes undone. */
  function ParseUnit(t: Text): (r: Parsed<Unit>)
    requires t != []
    ensures r.Got? ==> |r.rest| < |t|
  {
    if t[0] != BACKSLASH then
      if t[0] < 32 then Fail else Got(t[0], t[1..])
    else if |t| < 2 then Fail
    else if t[1] != LOWER_U then
      var u := UnescapeShort(t[1]);
      if u.Some? then Got(u.value, t[2..]) else Fail
    else if |t| < 6 then Fail
    else
      var a, b, c, d := UnHex(t[2]), UnHex(t[3]), UnHex(t[4]), UnHex(t[5]);
      if a.Some? && b.Some? && c.Some? && d.Some? then
        Got(4096 * a.value + 256 * b.value + 16 * c.value + d.value, t[6..])
      else Fail
  }

  /** The rest of a string after its opening quotation mark. */
  function ParseChars(t: Text): (r: Parsed<Text>)
    ensures r.Got? ==> |r.rest| < |t|
    decreases |t|
  {
    if t == [] then Fail
    else if t[0] == QUOTE then Got([], t[1..])
    else
      var u := ParseUnit(t);
      if u.Fail? then Fail
      else
        var more := ParseChars(u.rest);
        if more.Fail? then Fail else Got([u.value] + more.value, more.rest)
  }

  /** Length of the longest prefix made of number units. */
  function NumberPrefix(t: Text): (n: nat)
    ensures n <= |t|
    ensures forall i :: 0 <= i < n ==> IsNumberUnit(t[i])
    ensures n < |t| ==> !IsNumberUnit(t[n])
  {
    if t == [] || !IsNumberUnit(t[0]) then 0
    else
      var n := NumberPrefix(t[1..]);
      assert n < |t[1..]| ==> t[1..][n] == t[n + 1];
      n + 1
  }

  function ParseJson(t: Text): (r: Parsed<Json>)
    ensures r.Got? ==> |r.rest| < |t|
    decreases |t|, 1
  {
    if t == [] then Fail
    else if t[0] == QUOTE then
      var s := ParseChars(t[1..]);
      if s.Fail? then Fail else Got(JStr(s.value), s.rest)
    else if t[0] == LBRACKET then
      if |t| > 1 && t[1] == RBRACKET then Got(JArr([]), t[2..])
      else
        var xs := ParseItems(t[1..]);
        if xs.Fail? then Fail else Got(JArr(xs.value), xs.rest)
    else if t[0] == LBRACE then
      if |t| > 1 && t[1] == RBRACE then Got(JObj(map[]), t[2..])
      else
        var m := ParseMembers(t[1..]);
        if m.Fail? then Fail else Got(JObj(m.value), m.rest)
    else if NULL_TEXT <= t then Got(JNull, t[4..])
    else if TRUE_TEXT <= t then Got(JBool(true), t[4..])
    else if FALSE_TEXT <= t then Got(JBool(false), t[5..])
    else
      var n := NumberPrefix(t);
      if IsNumberText(t[..n]) then Got(JNum(t[..n]), t[n..]) else Fail
  }

  /** One or more items and the closing bracket. */
  function ParseItems(t: Text): (r: Parsed<seq<Json>>)
    ensures r.Got? ==> |r.rest| < |t|
    decreases |t|, 2
  {
    var x := ParseJson(t);
    if x.Fail? || x.rest == [] then Fail
    else if x.rest[0] == RBRACKET then Got([x.value], x.rest[1..])
    else if x.rest[0] == COMMA then
      var more := ParseItems(x.rest[1..]);
      if more.Fail? then Fail else Got([x.value] + more.value, more.rest)
    else Fail
  }

  /** One or more members and the closing brace. A repeated name is refused. */
  function ParseMembers(t: Text): (r: Parsed<map<Text, Json>>)
    ensures r.Got? ==> |r.rest| < |t|
    decreases |t|, 2
  {
    if t == [] || t[0] != QUOTE then Fail
    else
      var k := ParseChars(t[1..]);
      if k.Fail? || k.rest == [] || k.rest[0] != COLON then Fail
      else
        var x := ParseJson(k.rest[1..]);
        if x.Fail? || x.rest == [] then Fail
        else if x.rest[0] == RBRACE then Got(map[k.value := x.value], x.rest[1..])
        else if x.rest[0] == COMMA then
          var more := ParseMembers(x.rest[1..]);
          if more.Fail? || k.value in more.value then Fail
          else Got(more.value[k.value := x.value], more.rest)
        else Fail
  }

  // ---- Round trip --------------------------------------------------------

  lemma UnHexOfHexDigit(n: nat)
    requires n < 16
    ensures UnHex(HexDigit(n)) == Some(n)
  {
  }

  lemma HexDigitsOf(u: Unit)
    ensures u / 4096 < 16 && 4096 * (u / 4096) + 256 * (u / 256 % 16) + 16 * (u / 16 % 16) + u % 16 == u
  {
    var x, y := u / 16, u / 256;
    assert y == x / 16 && u / 4096 == y / 16;
  }

  lemma ParseUnitOfHex(a: nat, b: nat, c: nat, d: nat, u: Unit, rest: Text)
    requires a < 16 && b < 16 && c < 16 && d < 16 && 4096 * a + 256 * b + 16 * c + d == u
    ensures ParseUnit([BACKSLASH, LOWER_U, HexDigit(a), HexDigit(b), HexDigit(c), HexDigit(d)] + rest) == Got(u, rest)
  {
    var t := [BACKSLASH, LOWER_U, HexDigit(a), HexDigit(b), HexDigit(c), HexDigit(d)] + rest;
    UnHexOfHexDigit(a);
    UnHexOfHexDigit(b);
    UnHexOfHexDigit(c);
    UnHexOfHexDigit(d);
    assert t[6..] == rest;
  }

  lemma ParseUnitOfUnicodeEscape(u: Unit, rest: Text)
    ensures ParseUnit(UnicodeEscape(u) + rest) == Got(u, rest)
  {
    HexDigitsOf(u);
    ParseUnitOfHex(u / 4096, u / 256 % 16, u / 16 % 16, u % 16, u, rest);
  }

  lemma ParseUnitOfEscape(u: Unit, rest: Text)
    ensures EscapeUnit(u) != [] && EscapeUnit(u)[0] != QUOTE
    ensures ParseUnit(EscapeUnit(u) + rest) == Got(u, rest)
  {
    if EscapeUnit(u) == UnicodeEscape(u) {
      ParseUnitOfUnicodeEscape(u, rest);
    } else if |EscapeUnit(u)| == 1 {
      assert ([u] + rest)[1..] == rest;
    } else {
      assert (EscapeUnit(u) + rest)[2..] == rest;
    }
  }

  lemma ParseCharsMore(e: Text, u: Unit, tail: Text, s: Text, rest: Text)
    requires e != [] && e[0] != QUOTE && ParseUnit(e + tail) == Got(u, tail)
    requires ParseChars(tail) == Got(s, rest)
    ensures ParseChars(e + tail) == Got([u] + s, rest)
  {
  }

  lemma BeforeQuote(e: Text, inner: Text, rest: Text)
    ensures e + inner + [QUOTE] + rest == e + (inner + [QUOTE] + rest)
  {
  }

  lemma {:induction false} ParseCharsOfEscape(s: Text, rest: Text)
    ensures ParseChars(Escape(s) + [QUOTE] + rest) == Got(s, rest)
  {
    if s == [] {
      assert [] + [QUOTE] + rest == [QUOTE] + rest;
      assert ([QUOTE] + rest)[1..] == rest;
    } else if |s| >= 2 && IsHighSurrogate(s[0]) && IsLowSurrogate(s[1]) {
      var inner := Escape(s[2..]);
      ParseCharsOfEscape(s[2..], rest);
      BeforeQuote([s[0], s[1]], inner, rest);
      ParseCharsOfPair(s[0], s[1], inner + [QUOTE] + rest, s[2..], rest);
      assert s == [s[0], s[1]] + s[2..];
    } else {
      var inner := Escape(s[1..]);
      ParseCharsOfEscape(s[1..], rest);
      BeforeQuote(EscapeUnit(s[0]), inner, rest);
      ParseUnitOfEscape(s[0], inner + [QUOTE] + rest);
      ParseCharsMore(EscapeUnit(s[0]), s[0], inner + [QUOTE] + rest, s[1..], rest);
      assert s == [s[0]] + s[1..];
    }
  }

  lemma ParseCharsOfPair(high: Unit, low: Unit, tail: Text, s: Text, rest: Text)
    requires IsHighSurrogate(high) && IsLowSurrogate(low)
    requires ParseChars(tail) == Got(s, rest)
    ensures ParseChars([high, low] + tail) == Got([high, low] + s, rest)
  {
    assert [high, low] + tail == [high] + ([low] + tail) && [high, low] + s == [high] + ([low] + s);
    assert ([low] + tail)[1..] == tail;
    ParseCharsMore([low], low, tail, s, rest);
    assert ([high] + ([low] + tail))[1..] == [low] + tail;
    ParseCharsMore([high], high, [low] + tail, [low] + s, rest);
  }

  lemma ParseOfQuoted(s: Text, rest: Text)
    ensures ParseJson(Quoted(s) + rest) == Got(JStr(s), rest)
  {
    var t := Quoted(s) + rest;
    assert t[1..] == Escape(s) + [QUOTE] + rest;
    ParseCharsOfEscape(s, rest);
  }

  /** What may follow a value in canonical text: nothing a number could swallow. */
  predicate Ends(rest: Text) {
    rest == [] || !IsNumberUnit(rest[0])
  }

  lemma ParseOfNumber(n: NumberText, rest: Text)
    requires Ends(rest)
    ensures ParseJson(n + rest) == Got(JNum(n), rest)
  {
    var t := n + rest;
    NumberPrefixOfAppend(n, rest);
    assert t[..|n|] == n && t[|n|..] == rest;
    assert t[0] == n[0];
  }

  lemma {:induction false} NumberPrefixOfAppend(n: Text, rest: Text)
    requires forall i :: 0 <= i < |n| ==> IsNumberUnit(n[i])
    requires Ends(rest)
    ensures NumberPrefix(n + rest) == |n|
  {
    if n == [] {
      assert n + rest == rest;
    } else {
      NumberPrefixOfAppend(n[1..], rest);
      assert (n + rest)[1..] == n[1..] + rest;
    }
  }

  lemma AfterLast(text: Text, closing: Unit, rest: Text)
    ensures text + [closing] + rest == text + ([closing] + rest)
    ensures ([closing] + rest)[1..] == rest
  {
  }

  lemma AfterComma(text: Text, tail: Text, closing: Unit, rest: Text)
    ensures text + ([COMMA] + tail) + [closing] + rest == text + ([COMMA] + (tail + [closing] + rest))
    ensures ([COMMA] + (tail + [closing] + rest))[1..] == tail + [closing] + rest
  {
  }

  lemma ParseArrayText(body: Text, items: seq<Json>, rest: Text)
    requires body != [] && body[0] != RBRACKET && ParseItems(body + [RBRACKET] + rest) == Got(items, rest)
    ensures ParseJson([LBRACKET] + body + [RBRACKET] + rest) == Got(JArr(items), rest)
  {
    var inner := body + [RBRACKET] + rest;
    assert [LBRACKET] + body + [RBRACKET] + rest == [LBRACKET] + inner;
    assert ([LBRACKET] + inner)[1..] == inner;
  }

  lemma ParseObjectText(body: Text, members: map<Text, Json>, rest: Text)
    requires body != [] && body[0] == QUOTE && ParseMembers(body + [RBRACE] + rest) == Got(members, rest)
    ensures ParseJson([LBRACE] + body + [RBRACE] + rest) == Got(JObj(members), rest)
  {
    var inner := body + [RBRACE] + rest;
    assert [LBRACE] + body + [RBRACE] + rest == [LBRACE] + inner;
    assert ([LBRACE] + inner)[1..] == inner;
  }

  lemma ParseEmptyText(rest: Text)
    ensures ParseJson([LBRACKET] + [] + [RBRACKET] + rest) == Got(JArr([]), rest)
    ensures ParseJson([LBRACE] + [] + [RBRACE] + rest) == Got(JObj(map[]), rest)
  {
    var a, o := [LBRACKET, RBRACKET] + rest, [LBRACE, RBRACE] + rest;
    assert [LBRACKET] + [] + [RBRACKET] + rest == a && a[2..] == rest;
    assert [LBRACE] + [] + [RBRACE] + rest == o && o[2..] == rest;
  }

  /** The parser undoes the serializer on every value. */
  lemma {:induction false} ParseOfCanonical(v: Value, rest: Text)
    requires Ends(rest)
    ensures ParseJson(CanonicalJson(v) + rest) == Got(Denote(v), rest)
    decreases v, 1, 0
  {
    match v
    case Undefined => assert (NULL_TEXT + rest)[4..] == rest;
    case Null => assert (NULL_TEXT + rest)[4..] == rest;
    case Bool(b) =>
      assert (TRUE_TEXT + rest)[4..] == rest;
      assert (FALSE_TEXT + rest)[5..] == rest;
    case Num(n) => ParseOfNumber(n, rest);
    case NonFinite(name) => ParseOfQuoted(NONFINITE_TEXT + name, rest);
    case Str(s) => ParseOfQuoted(s, rest);
    case Date(iso) => ParseOfQuoted(iso, rest);
    case Arr(xs) => ParseOfArray(v, rest);
    case Obj(m) => ParseOfObject(v, rest);
  }

  lemma {:induction false} ParseOfArray(v: Value, rest: Text)
    requires v.Arr?
    ensures ParseJson(CanonicalJson(v) + rest) == Got(Denote(v), rest)
    decreases v, 0, |v.items| + 1
  {
    var items := Denote(v).items;
    if v.items != [] {
      ParseOfItems(v, 0, rest);
      CanonicalStart(v.items[0]);
      assert items[0..] == items;
      ParseArrayText(ItemsJson(v, 0), items, rest);
    } else {
      assert items == [];
      ParseEmptyText(rest);
    }
  }

  lemma {:induction false} ParseOfObject(v: Value, rest: Text)
    requires v.Obj?
    ensures ParseJson(CanonicalJson(v) + rest) == Got(Denote(v), rest)
    decreases v, 0, |v.members| + 1
  {
    var keys := SortedKeys(DefinedKeys(v.members));
    assert Denote(v).members == DenoteMembers(v, keys);
    DefinedKeysFewer(v.members);
    if keys != [] {
      ParseOfMembers(v, keys, rest);
      assert MembersJson(v, keys)[0] == QUOTE;
      ParseObjectText(MembersJson(v, keys), Denote(v).members, rest);
    } else {
      assert Denote(v).members == map[];
      ParseEmptyText(rest);
    }
  }

  lemma DefinedKeysFewer(m: map<Text, Value>)
    ensures |DefinedKeys(m)| <= |m|
  {
    CountSubset(DefinedKeys(m), m.Keys);
  }

  lemma {:induction false} CountSubset<T>(a: set<T>, b: set<T>)
    requires a <= b
    ensures |a| <= |b|
  {
    if a != {} {
      var x :| x in a;
      CountSubset(a - {x}, b - {x});
    }
  }

  lemma CanonicalStart(v: Value)
    ensures CanonicalJson(v) != []
    ensures CanonicalJson(v)[0] != RBRACKET
  {
  }

  lemma ParseItemsLast(text: Text, x: Json, rest: Text)
    requires ParseJson(text + ([RBRACKET] + rest)) == Got(x, [RBRACKET] + rest)
    ensures ParseItems(text + [RBRACKET] + rest) == Got([x], rest)
  {
    AfterLast(text, RBRACKET, rest);
  }

  lemma ParseItemsMore(text: Text, x: Json, tail: Text, xs: seq<Json>, rest: Text)
    requires var after := [COMMA] + (tail + [RBRACKET] + rest); ParseJson(text + after) == Got(x, after)
    requires ParseItems(tail + [RBRACKET] + rest) == Got(xs, rest)
    ensures ParseItems(text + ([COMMA] + tail) + [RBRACKET] + rest) == Got([x] + xs, rest)
  {
    AfterComma(text, tail, RBRACKET, rest);
  }

  lemma {:induction false} ParseOfItems(v: Value, i: nat, rest: Text)
    requires v.Arr? && i < |v.items|
    ensures ParseItems(ItemsJson(v, i) + [RBRACKET] + rest) == Got(Denote(v).items[i..], rest)
    decreases v, 0, |v.items| - i
  {
    var text, x := CanonicalJson(v.items[i]), Denote(v.items[i]);
    var items := Denote(v).items;
    assert items[i] == x;
    if i + 1 == |v.items| {
      ParseOfCanonical(v.items[i], [RBRACKET] + rest);
      ParseItemsLast(text, x, rest);
      assert text + [] == text;
      assert items[i..] == [x];
    } else {
      var tail := ItemsJson(v, i + 1);
      ParseOfCanonical(v.items[i], [COMMA] + (tail + [RBRACKET] + rest));
      ParseOfItems(v, i + 1, rest);
      ParseItemsMore(text, x, tail, items[i + 1..], rest);
      assert items[i..] == [x] + items[i + 1..];
    }
  }

  /** How a member's text is read: its name, the colon, its value. */
  lemma ParseMemberStart(k: Text, text: Text, after: Text)
    ensures var t := Quoted(k) + [COLON] + text + after;
      && t != [] && t[0] == QUOTE
      && ParseChars(t[1..]) == Got(k, [COLON] + (text + after))
      && ([COLON] + (text + after))[1..] == text + after
  {
    var t := Quoted(k) + [COLON] + text + after;
    assert t[1..] == Escape(k) + [QUOTE] + ([COLON] + (text + after));
    ParseCharsOfEscape(k, [COLON] + (text + after));
  }

  lemma ParseMembersLast(k: Text, text: Text, x: Json, rest: Text)
    requires ParseJson(text + ([RBRACE] + rest)) == Got(x, [RBRACE] + rest)
    ensures ParseMembers(Quoted(k) + [COLON] + text + [RBRACE] + rest) == Got(map[k := x], rest)
  {
    AfterLast(Quoted(k) + [COLON] + text, RBRACE, rest);
    ParseMemberStart(k, text, [RBRACE] + rest);
  }

  lemma ParseMembersMore(k: Text, text: Text, x: Json, tail: Text, m: map<Text, Json>, rest: Text)
    requires var after := [COMMA] + (tail + [RBRACE] + rest); ParseJson(text + after) == Got(x, after)
    requires ParseMembers(tail + [RBRACE] + rest) == Got(m, rest) && k !in m
    ensures ParseMembers(Quoted(k) + [COLON] + text + ([COMMA] + tail) + [RBRACE] + rest) == Got(m[k := x], rest)
  {
    AfterComma(Quoted(k) + [COLON] + text, tail, RBRACE, rest);
    ParseMemberStart(k, text, [COMMA] + (tail + [RBRACE] + rest));
  }

  function DenoteMembers(v: Value, keys: seq<Text>): map<Text, Json>
    requires v.Obj? && forall k :: k in keys ==> k in v.members
  {
    map k | k in keys :: Denote(v.members[k])
  }

  lemma DenoteMembersStep(v: Value, keys: seq<Text>)
    requires v.Obj? && keys != [] && forall k :: k in keys ==> k in v.members
    requires forall i, j :: 0 <= i < j < |keys| ==> keys[i] != keys[j]
    ensures keys[0] !in DenoteMembers(v, keys[1..])
    ensures DenoteMembers(v, keys) == DenoteMembers(v, keys[1..])[keys[0] := Denote(v.members[keys[0]])]
  {
    assert keys == [keys[0]] + keys[1..];
  }

  lemma {:induction false} ParseOfMembers(v: Value, keys: seq<Text>, rest: Text)
    requires v.Obj? && keys != []
    requires forall k :: k in keys ==> k in v.members
    requires forall i, j :: 0 <= i < j < |keys| ==> keys[i] != keys[j]
    ensures ParseMembers(MembersJson(v, keys) + [RBRACE] + rest) == Got(DenoteMembers(v, keys), rest)
    decreases v, 0, |keys|
  {
    var k, tail := keys[0], MembersJson(v, keys[1..]);
    var text, x := CanonicalJson(v.members[k]), Denote(v.members[k]);
    DenoteMembersStep(v, keys);
    if |keys| == 1 {
      ParseOfCanonical(v.members[k], [RBRACE] + rest);
      ParseMembersLast(k, text, x, rest);
      assert MembersJson(v, keys) == Quoted(k) + [COLON] + text;
      assert DenoteMembers(v, keys[1..]) == map[];
    } else {
      ParseOfCanonical(v.members[k], [COMMA] + (tail + [RBRACE] + rest));
      ParseOfMembers(v, keys[1..], rest);
      ParseMembersMore(k, text, x, tail, DenoteMembers(v, keys[1..]), rest);
    }
  }

  // ---- Canonical: equal denotations have equal text ----------------------

  /** The canonical text of a JSON value, to compare serializations against. */
  function JsonText(j: Json): Text
    decreases j, 1, 0
  {
    match j
    case JNull => NULL_TEXT
    case JBool(b) => if b then TRUE_TEXT else FALSE_TEXT
    case JNum(t) => t
    case JStr(s) => Quoted(s)
    case JArr(xs) => [LBRACKET] + JsonItemsText(j, 0) + [RBRACKET]
    case JObj(m) => [LBRACE] + JsonMembersText(j, SortedKeys(m.Keys)) + [RBRACE]
  }

  function JsonItemsText(j: Json, i: nat): Text
    requires j.JArr? && i <= |j.items|
    decreases j, 0, |j.items| - i
  {
    if i == |j.items| then []
    else JsonText(j.items[i]) + (if i + 1 < |j.items| then [COMMA] + JsonItemsText(j, i + 1) else [])
  }

  function JsonMembersText(j: Json, keys: seq<Text>): Text
    requires j.JObj? && forall k :: k in keys ==> k in j.members
    decreases j, 0, |keys|
  {
    if keys == [] then []
    else
      Quoted(keys[0]) + [COLON] + JsonText(j.members[keys[0]]) +
      (if |keys| > 1 then [COMMA] + JsonMembersText(j, keys[1..]) else [])
  }

  lemma {:induction false} CanonicalTextOfDenotation(v: Value)
    ensures CanonicalJson(v) == JsonText(Denote(v))
    decreases v, 1, 0
  {
    if v.Arr? {
      ItemsTextOfDenotation(v, 0);
    } else if v.Obj? {
      ObjectTextOfDenotation(v);
    }
  }

  lemma {:induction false} ObjectTextOfDenotation(v: Value)
    requires v.Obj?
    ensures CanonicalJson(v) == JsonText(Denote(v))
    decreases v, 0, |v.members| + 1
  {
    DenoteKeys(v);
    DefinedKeysFewer(v.members);
    MembersTextOfDenotation(v, SortedKeys(DefinedKeys(v.members)));
  }

  lemma DenoteKeys(v: Value)
    requires v.Obj?
    ensures Denote(v).members.Keys == DefinedKeys(v.members)
  {
  }

  lemma {:induction false} ItemsTextOfDenotation(v: Value, i: nat)
    requires v.Arr? && i <= |v.items|
    ensures ItemsJson(v, i) == JsonItemsText(Denote(v), i)
    decreases v, 0, |v.items| - i
  {
    if i < |v.items| {
      CanonicalTextOfDenotation(v.items[i]);
      ItemsTextOfDenotation(v, i + 1);
    }
  }

  lemma {:induction false} MembersTextOfDenotation(v: Value, keys: seq<Text>)
    requires v.Obj? && forall k :: k in keys ==> k in v.members && k in Denote(v).members
    ensures MembersJson(v, keys) == JsonMembersText(Denote(v), keys)
    decreases v, 0, |keys|
  {
    if keys != [] {
      CanonicalTextOfDenotation(v.members[keys[0]]);
      MembersTextOfDenotation(v, keys[1..]);
    }
  }

  /** Canonical text identifies exactly the JSON value denoted. */
  lemma CanonicalJsonInjective(a: Value, b: Value)
    ensures CanonicalJson(a) == CanonicalJson(b) <==> Denote(a) == Denote(b)
  {
    if CanonicalJson(a) == CanonicalJson(b) {
      ParseOfCanonical(a, []);
      ParseOfCanonical(b, []);
      assert CanonicalJson(a) + [] == CanonicalJson(b) + [];
    } else {
      CanonicalTextOfDenotation(a);
      CanonicalTextOfDenotation(b);
    }
  }

  /** Values `JSON.parse` can produce: finite numbers, no undefined, no dates. */
  predicate Plain(v: Value) {
    match v
    case Undefined => false
    case NonFinite(_) => false
    case Date(_) => false
    case Arr(xs) => forall i :: 0 <= i < |xs| ==> Plain(xs[i])
    case Obj(m) => forall k :: k in m ==> Plain(m[k])
    case _ => true
  }

  lemma {:induction false} DenoteInjectiveOnPlain(a: Value, b: Value)
    requires Plain(a) && Plain(b) && Denote(a) == Denote(b)
    ensures a == b
  {
    match a
    case Arr(xs) =>
      forall i | 0 <= i < |xs| ensures xs[i] == b.items[i] {
        assert Denote(a).items[i] == Denote(b).items[i];
        DenoteInjectiveOnPlain(xs[i], b.items[i]);
      }
    case Obj(m) =>
      assert Denote(a).members.Keys == m.Keys && Denote(b).members.Keys == b.members.Keys;
      forall k | k in m ensures m[k] == b.members[k] {
        assert Denote(a).members[k] == Denote(b).members[k];
        DenoteInjectiveOnPlain(m[k], b.members[k]);
      }
    case _ =>
  }

  /** On plain values the serializer is injective outright. */
  lemma StructuralEquality(a: Value, b: Value)
    requires Plain(a) && Plain(b)
    ensures CanonicalJson(a) == CanonicalJson(b) <==> a == b
  {
    CanonicalJsonInjective(a, b);
    if Denote(a) == Denote(b) { DenoteInjectiveOnPlain(a, b); }
  }

  /** Off the plain values it is not: each pair below serializes alike. */
  lemma AliasedValues()
    ensures CanonicalJson(Undefined) == CanonicalJson(Null)
    ensures CanonicalJson(Arr([Undefined])) == CanonicalJson(Arr([Null]))
    ensures forall k: Text :: CanonicalJson(Obj(map[k := Undefined])) == CanonicalJson(Obj(map[]))
    ensures forall n: Text :: CanonicalJson(NonFinite(n)) == CanonicalJson(Str(NONFINITE_TEXT + n))
    ensures forall t: Text :: CanonicalJson(Date(t)) == CanonicalJson(Str(t))
  {
    forall k: Text ensures CanonicalJson(Obj(map[k := Undefined])) == CanonicalJson(Obj(map[])) {
      CanonicalJsonInjective(Obj(map[k := Undefined]), Obj(map[]));
    }
    CanonicalJsonInjective(Arr([Undefined]), Arr([Null]));
  }

  // ---- The text itself -----------------------------------------------------

  /** Parts with commas between them. */
  function Joined(parts: seq<Text>): Text {
    if parts == [] then []
    else if |parts| == 1 then parts[0]
    else parts[0] + Units(",") + Joined(parts[1..])
  }

  lemma LiteralsPrint(name: Text)
    ensures CanonicalJson(Null) == Units("null") && CanonicalJson(Undefined) == Units("null")
    ensures CanonicalJson(Bool(true)) == Units("true") && CanonicalJson(Bool(false)) == Units("false")
    ensures CanonicalJson(NonFinite(name)) == CanonicalJson(Str(Units("__nonfinite:") + name))
  {
    assert Units("null") == NULL_TEXT && Units("true") == TRUE_TEXT && Units("false") == FALSE_TEXT;
    assert Units("__nonfinite:") == NONFINITE_TEXT;
  }

  /** Text prints as itself between quotation marks, but for the quotation mark, the
      backslash, control units and surrogates. */
  lemma PlainTextPrints(s: Text)
    requires forall i :: 0 <= i < |s| ==> 32 <= s[i] && s[i] != 34 && s[i] != 92 && !(0xD800 <= s[i] < 0xE000)
    ensures CanonicalJson(Str(s)) == [34] + s + [34]
  {
    EscapeKeeps(s);
  }

  lemma {:induction false} EscapeKeeps(s: Text)
    requires forall i :: 0 <= i < |s| ==> 32 <= s[i] && s[i] != 34 && s[i] != 92 && !(0xD800 <= s[i] < 0xE000)
    ensures Escape(s) == s
  {
    if s != [] {
      EscapeKeeps(s[1..]);
      assert s == [s[0]] + s[1..];
    }
  }

  lemma EscapeOne(u: Unit)
    ensures Escape([u]) == EscapeUnit(u)
  {
    assert [u][1..] == [];
  }

  /** A surrogate pair prints as itself; the common control units, the quotation mark
      and the backslash print as a letter after a backslash. */
  lemma EscapesPrint(high: Unit, low: Unit)
    requires 0xD800 <= high < 0xDC00 && 0xDC00 <= low < 0xE000
    ensures Escape([high, low]) == [high, low]
    ensures Escape([34]) == [92, 34] && Escape([92]) == [92, 92]
    ensures Escape([8]) == [92] + Units("b") && Escape([9]) == [92] + Units("t") && Escape([10]) == [92] + Units("n")
    ensures Escape([12]) == [92] + Units("f") && Escape([13]) == [92] + Units("r")
  {
    assert [high, low][2..] == [];
    EscapeOne(34);
    EscapeOne(92);
    EscapeOne(8);
    EscapeOne(9);
    EscapeOne(10);
    EscapeOne(12);
    EscapeOne(13);
    hide Escape;
    assert Units("b") == [98] && Units("t") == [116] && Units("n") == [110];
    assert Units("f") == [102] && Units("r") == [114];
  }

  /** What is left of control units, and a lone surrogate, prints as four lower-case
      hexadecimal digits. */
  lemma HexEscapePrints(u: Unit)
    requires (u < 32 && u !in {8, 9, 10, 12, 13}) || 0xD800 <= u < 0xE000
    ensures var digits := Units("0123456789abcdef");
      && u / 4096 < 16
      && Escape([u]) == [92] + Units("u") +
        [digits[u / 4096], digits[u / 256 % 16], digits[u / 16 % 16], digits[u % 16]]
  {
    EscapeOne(u);
    HexDigitsOf(u);
    assert EscapeUnit(u) == UnicodeEscape(u);
    assert Units("u") == [LOWER_U];
    DigitsAre(u / 4096);
    DigitsAre(u / 256 % 16);
    DigitsAre(u / 16 % 16);
    DigitsAre(u % 16);
    hide HexDigit, Escape, EscapeUnit, Units;
  }

  lemma DigitsAre(d: nat)
    requires d < 16
    ensures |Units("0123456789abcdef")| == 16 && Units("0123456789abcdef")[d] == HexDigit(d)
  {
  }

  /** An array prints its items in order. */
  lemma ArrayPrints(xs: seq<Value>)
    ensures CanonicalJson(Arr(xs)) ==
      Units("[") + Joined(seq(|xs|, i requires 0 <= i < |xs| => CanonicalJson(xs[i]))) + Units("]")
  {
    ItemsPrint(xs, 0);
    var parts := seq(|xs|, i requires 0 <= i < |xs| => CanonicalJson(xs[i]));
    assert parts[0..] == parts && Units("[") == [LBRACKET] && Units("]") == [RBRACKET];
  }

  lemma {:induction false} ItemsPrint(xs: seq<Value>, i: nat)
    requires i <= |xs|
    ensures ItemsJson(Arr(xs), i) == Joined(seq(|xs|, k requires 0 <= k < |xs| => CanonicalJson(xs[k]))[i..])
    decreases |xs| - i
  {
    var parts := seq(|xs|, k requires 0 <= k < |xs| => CanonicalJson(xs[k]));
    if i < |xs| {
      ItemsPrint(xs, i + 1);
      assert parts[i..][1..] == parts[i + 1..] && parts[i..][0] == CanonicalJson(xs[i]);
      assert Units(",") == [COMMA];
    }
  }

  /** `a` comes before `b`: it is a proper prefix, or has the smaller unit where the
      two first differ. */
  ghost predicate Before(a: Text, b: Text) {
    || a < b
    || exists k :: 0 <= k < |a| && k < |b| && a[..k] == b[..k] && a[k] < b[k]
  }

  /** An object prints the members that are not undefined, by increasing name. */
  lemma ObjectPrints(m: map<Text, Value>, names: seq<Text>)
    requires forall k :: k in names <==> k in m && m[k] != Undefined
    requires forall i, j :: 0 <= i < j < |names| ==> Before(names[i], names[j])
    ensures CanonicalJson(Obj(m)) ==
      Units("{") +
      Joined(seq(|names|, i requires 0 <= i < |names| => assert names[i] in names;
        CanonicalJson(Str(names[i])) + Units(":") + CanonicalJson(m[names[i]]))) +
      Units("}")
  {
    NamesSorted(names, DefinedKeys(m));
    MembersPrint(m, names);
    assert Units("{") == [LBRACE] && Units("}") == [RBRACE];
  }

  lemma NamesSorted(names: seq<Text>, keys: set<Text>)
    requires forall k :: k in names <==> k in keys
    requires forall i, j :: 0 <= i < j < |names| ==> Before(names[i], names[j])
    ensures SortedKeys(keys) == names
  {
    forall i, j | 0 <= i < j < |names| ensures Le(names[i], names[j]) && names[i] != names[j] {
      assert Before(names[i], names[j]);
      LeExactly(names[i], names[j]);
    }
    SortedKeysSorted(keys);
    SameKeysOnce(SortedKeys(keys), names);
    SortedIsUnique(SortedKeys(keys), names);
  }

  lemma {:induction false} MembersPrint(m: map<Text, Value>, names: seq<Text>)
    requires forall k :: k in names ==> k in m
    ensures MembersJson(Obj(m), names) ==
      Joined(seq(|names|, i requires 0 <= i < |names| => assert names[i] in names;
        CanonicalJson(Str(names[i])) + Units(":") + CanonicalJson(m[names[i]])))
  {
    if names != [] {
      var parts := seq(|names|, i requires 0 <= i < |names| => assert names[i] in names;
        CanonicalJson(Str(names[i])) + Units(":") + CanonicalJson(m[names[i]]));
      var rest := names[1..];
      MembersPrint(m, rest);
      assert parts[1..] == seq(|rest|, i requires 0 <= i < |rest| => assert rest[i] in rest;
        CanonicalJson(Str(rest[i])) + Units(":") + CanonicalJson(m[rest[i]]));
      assert Units(",") == [COMMA] && Units(":") == [COLON];
      assert parts[0] == Quoted(names[0]) + [COLON] + CanonicalJson(m[names[0]]);
    }
  }
}
