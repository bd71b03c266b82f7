/**
 * The text that Python's `json.dumps` gives a value, and a decoder that inverts it.
 *
 * Strings are escaped to ASCII as the printer does by default: the short escapes of
 * section 7 of RFC 8259, `\u` with four lower-case digits for everything else outside
 * the printable ASCII range, and a surrogate pair above the basic plane.
 */
module Json {
  import opened Wrappers

  // ----- Strings -----

  function HexDigit(n: nat): char
    requires n < 16
  {
    if n < 10 then ('0' as int + n) as char else ('a' as int + (n - 10)) as char
  }

  function Hex4(n: nat): string
    requires n < 0x1_0000
  {
    var m := n / 16;
    var l := m / 16;
    [HexDigit(l / 16), HexDigit(l % 16), HexDigit(m % 16), HexDigit(n % 16)]
  }

  function ShortEscape(c: char): Option<char> {
    if c == '"' then Some('"')
    else if c == '\\' then Some('\\')
    else if c == '\n' then Some('n')
    else if c == '\r' then Some('r')
    else if c == '\t' then Some('t')
    else if c as int == 0x0c then Some('f')
    else if c as int == 0x08 then Some('b')
    else None
  }

  function EscapeChar(c: char): string {
    var n := c as int;
    match ShortEscape(c)
    case Some(e) => ['\\', e]
    case None =>
      if 0x20 <= n <= 0x7e then [c]
      else if n < 0x1_0000 then "\\u" + Hex4(n)
      else "\\u" + Hex4(0xd800 + (n - 0x1_0000) / 0x400) + "\\u" + Hex4(0xdc00 + (n - 0x1_0000) % 0x400)
  }

  function Escape(s: string): string {
    if s == "" then "" else EscapeChar(s[0]) + Escape(s[1..])
  }

  function Quote(s: string): string {
    "\"" + Escape(s) + "\""
  }

  function HexValue(c: char): Option<nat> {
    var n := c as int;
    if '0' <= c <= '9' then Some(n - '0' as int)
    else if 'a' <= c <= 'f' then Some(n - 'a' as int + 10)
    else None
  }

  /** One `\uXXXX` unit and what follows it. */
  function ReadUnit(input: string): (r: Option<(nat, string)>)
    ensures r.Some? ==> |r.value.1| < |input| && r.value.0 < 0x1_0000
  {
    if |input| < 6 || input[0] != '\\' || input[1] != 'u' then None else
    var a :- HexValue(input[2]);
    var b :- HexValue(input[3]);
    var c :- HexValue(input[4]);
    var d :- HexValue(input[5]);
    Some((((a * 16 + b) * 16 + c) * 16 + d, input[6..]))
  }

  function ShortUnescape(e: char): Option<char> {
    if e == '"' then Some('"')
    else if e == '\\' then Some('\\')
    else if e == 'n' then Some('\n')
    else if e == 'r' then Some('\r')
    else if e == 't' then Some('\t')
    else if e == 'f' then Some(0x0c as char)
    else if e == 'b' then Some(0x08 as char)
    else None
  }

  /** One character of a string body and what follows it. */
  function ReadChar(input: string): (r: Option<(char, string)>)
    ensures r.Some? ==> |r.value.1| < |input|
  {
    if input == "" || input[0] == '"' then None
    else if input[0] != '\\' then Some((input[0], input[1..]))
    else if |input| < 2 then None
    else if input[1] != 'u' then
      var c :- ShortUnescape(input[1]);
      Some((c, input[2..]))
    else
      var (high, rest) :- ReadUnit(input);
      if high < 0xd800 || 0xe000 <= high then Some((high as char, rest))
      else if 0xdc00 <= high then None
      else
        var (low, rest') :- ReadUnit(rest);
        if low < 0xdc00 || 0xe000 <= low then None
        else Some(((0x1_0000 + (high - 0xd800) * 0x400 + (low - 0xdc00)) as char, rest'))
  }

  /** A string body up to its closing quote, and what follows the quote. */
  function ReadBody(input: string): (r: Option<(string, string)>)
    ensures r.Some? ==> |r.value.1| < |input|
    decreases |input|
  {
    if input == "" then None
    else if input[0] == '"' then Some(("", input[1..]))
    else
      var (c, rest) :- ReadChar(input);
      var (s, rest') :- ReadBody(rest);
      Some(([c] + s, rest'))
  }

  lemma HexInverts(n: nat)
    requires n < 16
    ensures HexValue(HexDigit(n)) == Some(n)
  {
  }

  lemma UnitInverts(n: nat, tail: string)
    requires n < 0x1_0000
    ensures ReadUnit("\\u" + Hex4(n) + tail) == Some((n, tail))
  {
    var m := n / 16;
    var l := m / 16;
    HexInverts(l / 16);
    HexInverts(l % 16);
    HexInverts(m % 16);
    HexInverts(n % 16);
    var input := "\\u" + Hex4(n) + tail;
    assert input[0] == '\\' && input[1] == 'u';
    assert input[2] == HexDigit(l / 16) && input[3] == HexDigit(l % 16);
    assert input[4] == HexDigit(m % 16) && input[5] == HexDigit(n % 16);
    assert input[6..] == tail;
  }

  lemma ShortInverts(c: char, tail: string)
    requires ShortEscape(c).Some?
    ensures ReadChar(EscapeChar(c) + tail) == Some((c, tail))
  {
    var input := EscapeChar(c) + tail;
    assert input[0] == '\\' && input[1] == ShortEscape(c).value && input[2..] == tail;
    assert ShortUnescape(input[1]) == Some(c) && input[1] != 'u';
  }

  lemma ReadPair(high: nat, low: nat, tail: string)
    requires 0xd800 <= high < 0xdc00 <= low < 0xe000
    ensures ReadChar("\\u" + Hex4(high) + ("\\u" + Hex4(low) + tail))
            == Some(((0x1_0000 + (high - 0xd800) * 0x400 + (low - 0xdc00)) as char, tail))
  {
    var second := "\\u" + Hex4(low) + tail;
    var input := "\\u" + Hex4(high) + second;
    UnitInverts(high, second);
    UnitInverts(low, tail);
    assert input[0] == '\\' && input[1] == 'u';
  }

  lemma PairInverts(c: char, tail: string)
    requires 0x1_0000 <= c as int
    ensures ReadChar(EscapeChar(c) + tail) == Some((c, tail))
  {
    var n := c as int - 0x1_0000;
    var high, low := 0xd800 + n / 0x400, 0xdc00 + n % 0x400;
    var second := "\\u" + Hex4(low) + tail;
    assert EscapeChar(c) + tail == "\\u" + Hex4(high) + second;
    ReadPair(high, low, tail);
  }

  lemma BasicInverts(c: char, tail: string)
    requires c as int < 0x1_0000 && ShortEscape(c).None? && !(0x20 <= c as int <= 0x7e)
    ensures ReadChar(EscapeChar(c) + tail) == Some((c, tail))
  {
    var input := "\\u" + Hex4(c as int) + tail;
    assert EscapeChar(c) + tail == input;
    UnitInverts(c as int, tail);
    assert input[0] == '\\' && input[1] == 'u';
  }

  lemma CharInverts(c: char, tail: string)
    ensures EscapeChar(c) != "" && EscapeChar(c)[0] != '"'
    ensures ReadChar(EscapeChar(c) + tail) == Some((c, tail))
  {
    if ShortEscape(c).Some? {
      ShortInverts(c, tail);
    } else if 0x20 <= c as int <= 0x7e {
      assert ([c] + tail)[1..] == tail;
    } else if c as int < 0x1_0000 {
      BasicInverts(c, tail);
    } else {
      PairInverts(c, tail);
    }
  }

  lemma {:induction false} BodyInverts(s: string, tail: string)
    ensures ReadBody(Escape(s) + "\"" + tail) == Some((s, tail))
  {
    var input := Escape(s) + "\"" + tail;
    if s == "" {
      assert input[1..] == tail;
    } else {
      var rest := Escape(s[1..]) + "\"" + tail;
      assert input == EscapeChar(s[0]) + rest;
      CharInverts(s[0], rest);
      assert input[0] == EscapeChar(s[0])[0];
      BodyInverts(s[1..], tail);
      assert [s[0]] + s[1..] == s;
    }
  }

  predicate Printable(s: string) {
    forall c | c in s :: 0x20 <= c as int <= 0x7e
  }

  lemma UnitPrintable(n: nat)
    requires n < 0x1_0000
    ensures Printable("\\u" + Hex4(n))
  {
    var h := Hex4(n);
    assert forall i | 0 <= i < 4 :: 0x20 <= h[i] as int <= 0x7e;
  }

  lemma EscapeCharPrintable(c: char)
    ensures Printable(EscapeChar(c))
  {
    var n := c as int;
    if ShortEscape(c).None? && n < 0x1_0000 {
      UnitPrintable(n);
    } else if 0x1_0000 <= n {
      var high, low := 0xd800 + (n - 0x1_0000) / 0x400, 0xdc00 + (n - 0x1_0000) % 0x400;
      UnitPrintable(high);
      UnitPrintable(low);
      assert EscapeChar(c) == ("\\u" + Hex4(high)) + ("\\u" + Hex4(low));
    }
  }

  /** The escaped text is printable ASCII, so it has no line break of its own. */
  lemma {:induction false} EscapePrintable(s: string)
    ensures Printable(Escape(s))
  {
    if s != "" {
      EscapeCharPrintable(s[0]);
      EscapePrintable(s[1..]);
    }
  }

  // ----- Integers -----

  predicate IsDigit(c: char) {
    '0' <= c <= '9'
  }

  predicate Digits(s: string) {
    forall c | c in s :: IsDigit(c)
  }

  function DigitValue(c: char): nat {
    if IsDigit(c) then c as int - '0' as int else 0
  }

  function NatText(n: nat): string {
    if n < 10 then [HexDigit(n)] else NatText(n / 10) + [HexDigit(n % 10)]
  }

  function IntText(i: int): string {
    if i < 0 then "-" + NatText(-i) else NatText(i)
  }

  function ReadDigits(input: string, sum: nat): nat {
    if input == "" then sum else ReadDigits(input[1..], sum * 10 + DigitValue(input[0]))
  }

  lemma {:induction false} ReadDigitsAppend(input: string, c: char, sum: nat)
    ensures ReadDigits(input + [c], sum) == ReadDigits(input, sum) * 10 + DigitValue(c)
  {
    if input == "" {
      assert ([c])[1..] == "";
    } else {
      assert (input + [c])[1..] == input[1..] + [c];
      ReadDigitsAppend(input[1..], c, sum * 10 + DigitValue(input[0]));
    }
  }

  lemma {:induction false} NatTextInverts(n: nat)
    ensures NatText(n) != "" && Digits(NatText(n))
    ensures ReadDigits(NatText(n), 0) == n
  {
    if n < 10 {
      assert NatText(n)[1..] == "";
    } else {
      NatTextInverts(n / 10);
      ReadDigitsAppend(NatText(n / 10), HexDigit(n % 10), 0);
    }
  }

  lemma IntTextInjective(i: int, j: int)
    requires IntText(i) == IntText(j)
    ensures i == j
  {
    var m, n := if i < 0 then -i else i, if j < 0 then -j else j;
    NatTextInverts(m);
    NatTextInverts(n);
    assert NatText(m)[0] in NatText(m) && NatText(n)[0] in NatText(n);
    assert IntText(i)[0] == IntText(j)[0];
    if i < 0 {
      assert IntText(i)[1..] == NatText(m) && IntText(j)[1..] == NatText(n);
    }
  }

  // ----- Values -----

  predicate IsNumberChar(c: char) {
    IsDigit(c) || c == '-' || c == '+' || c == '.' || c == 'e' || c == 'E'
  }

  /** The rendering of a number; a float is such a token, whatever its digits. */
  type Token = s: string | s != "" && forall c | c in s :: IsNumberChar(c) witness "0"

  datatype Value =
    | Null
    | Bool(b: bool)
    | Number(token: Token)
    | Text(text: string)
    | Array(items: Items)
    | Object(members: Members)

  datatype Items = EndItems | Item(first: Value, others: Items)

  datatype Members = EndMembers | Member(name: string, value: Value, more: Members)

  function Int(i: int): Value {
    NatTextInverts(if i < 0 then -i else i);
    Number(IntText(i))
  }

  /** The two separators of `json.dumps`. */
  datatype Style = Style(item: string, key: string)

  const COMPACT := Style(",", ":")
  const SPACED := Style(", ", ": ")

  function Dumps(style: Style, v: Value): string {
    match v
    case Null => "null"
    case Bool(b) => if b then "true" else "false"
    case Number(token) => token
    case Text(text) => Quote(text)
    case Array(items) => "[" + DumpsItems(style, items, true)
    case Object(members) => "{" + DumpsMembers(style, members, true)
  }

  function DumpsItems(style: Style, items: Items, first: bool): string {
    match items
    case EndItems => "]"
    case Item(v, others) => (if first then "" else style.item) + (Dumps(style, v) + DumpsItems(style, others, false))
  }

  function DumpsMembers(style: Style, members: Members, first: bool): string {
    match members
    case EndMembers => "}"
    case Member(name, v, more) =>
      (if first then "" else style.item)
      + (Quote(name) + (style.key + (Dumps(style, v) + DumpsMembers(style, more, false))))
  }

  // ----- The decoder -----

  function Expect(input: string, literal: string): (r: Option<string>)
    ensures r.Some? ==> |input| == |literal| + |r.value|
  {
    if literal <= input then Some(input[|literal|..]) else None
  }

  function ReadToken(input: string): (r: (string, string))
    ensures |r.0| + |r.1| == |input|
    ensures forall c | c in r.0 :: IsNumberChar(c)
  {
    if input != "" && IsNumberChar(input[0]) then
      var (token, rest) := ReadToken(input[1..]);
      ([input[0]] + token, rest)
    else ("", input)
  }

  function ReadQuoted(input: string): (r: Option<(string, string)>)
    ensures r.Some? ==> |r.value.1| < |input|
  {
    var body :- Expect(input, "\"");
    ReadBody(body)
  }

  function Read(style: Style, input: string): (r: Option<(Value, string)>)
    ensures r.Some? ==> |r.value.1| < |input|
    decreases |input|, 0
  {
    if input == "" then None
    else if input[0] == 'n' then
      var rest :- Expect(input, "null");
      Some((Null, rest))
    else if input[0] == 't' then
      var rest :- Expect(input, "true");
      Some((Bool(true), rest))
    else if input[0] == 'f' then
      var rest :- Expect(input, "false");
      Some((Bool(false), rest))
    else if input[0] == '"' then
      var (text, rest) :- ReadQuoted(input);
      Some((Text(text), rest))
    else if input[0] == '[' then
      var (items, rest) :- ReadItems(style, input[1..], true);
      Some((Array(items), rest))
    else if input[0] == '{' then
      var (members, rest) :- ReadMembers(style, input[1..], true);
      Some((Object(members), rest))
    else
      var (token, rest) := ReadToken(input);
      if token == "" then None else Some((Number(token), rest))
  }

  function ReadItems(style: Style, input: string, first: bool): (r: Option<(Items, string)>)
    ensures r.Some? ==> |r.value.1| < |input|
    decreases |input|, 1
  {
    if input == "" then None
    else if input[0] == ']' then Some((EndItems, input[1..]))
    else
      var start :- if first then Some(input) else Expect(input, style.item);
      var (v, rest) :- Read(style, start);
      var (others, rest') :- ReadItems(style, rest, false);
      Some((Item(v, others), rest'))
  }

  function ReadMembers(style: Style, input: string, first: bool): (r: Option<(Members, string)>)
    ensures r.Some? ==> |r.value.1| < |input|
    decreases |input|, 1
  {
    if input == "" then None
    else if input[0] == '}' then Some((EndMembers, input[1..]))
    else
      var start :- if first then Some(input) else Expect(input, style.item);
      var (name, rest) :- ReadQuoted(start);
      var value :- Expect(rest, style.key);
      var (v, rest') :- Read(style, value);
      var (more, rest'') :- ReadMembers(style, rest', false);
      Some((Member(name, v, more), rest''))
  }

  // ----- The decoder inverts the printer -----

  predicate EndsToken(tail: string) {
    tail == "" || !IsNumberChar(tail[0])
  }

  predicate Separates(style: Style) {
    style.item != "" && style.item[0] == ','
  }

  lemma ExpectInverts(literal: string, tail: string)
    ensures Expect(literal + tail, literal) == Some(tail)
  {
    assert (literal + tail)[|literal|..] == tail;
    assert literal <= literal + tail;
  }

  lemma QuotedInverts(s: string, tail: string)
    ensures ReadQuoted(Quote(s) + tail) == Some((s, tail))
  {
    var body := Escape(s) + "\"" + tail;
    assert Quote(s) + tail == "\"" + body;
    ExpectInverts("\"", body);
    BodyInverts(s, tail);
  }

  lemma {:induction false} TokenInverts(token: string, tail: string)
    requires (forall c | c in token :: IsNumberChar(c)) && EndsToken(tail)
    ensures ReadToken(token + tail) == (token, tail)
  {
    if token == "" {
      assert token + tail == tail;
    } else {
      assert token[0] in token;
      assert (token + tail)[1..] == token[1..] + tail;
      TokenInverts(token[1..], tail);
      assert [token[0]] + token[1..] == token;
    }
  }

  /** What is printed never starts like the end of a list. */
  lemma FirstChar(style: Style, v: Value)
    ensures Dumps(style, v) != "" && Dumps(style, v)[0] != ']' && Dumps(style, v)[0] != '}'
  {
    if v.Number? {
      assert v.token[0] in v.token;
    }
  }

  lemma ReadLiteral(style: Style, v: Value, tail: string)
    requires v.Null? || v.Bool?
    ensures Read(style, Dumps(style, v) + tail) == Some((v, tail))
  {
    var literal := Dumps(style, v);
    ExpectInverts(literal, tail);
    assert (literal + tail)[0] == literal[0];
  }

  lemma ReadNumber(style: Style, token: Token, tail: string)
    requires EndsToken(tail)
    ensures Read(style, Dumps(style, Number(token)) + tail) == Some((Number(token), tail))
  {
    assert token[0] in token;
    assert (token + tail)[0] == token[0];
    TokenInverts(token, tail);
  }

  lemma ReadText(style: Style, text: string, tail: string)
    ensures Read(style, Dumps(style, Text(text)) + tail) == Some((Text(text), tail))
  {
    assert (Quote(text) + tail)[0] == '"';
    QuotedInverts(text, tail);
  }

  lemma ReadArray(style: Style, items: Items, tail: string)
    requires ReadItems(style, DumpsItems(style, items, true) + tail, true) == Some((items, tail))
    ensures Read(style, Dumps(style, Array(items)) + tail) == Some((Array(items), tail))
  {
    var body := DumpsItems(style, items, true) + tail;
    assert Dumps(style, Array(items)) + tail == "[" + body;
    assert ("[" + body)[1..] == body;
  }

  lemma ReadObject(style: Style, members: Members, tail: string)
    requires ReadMembers(style, DumpsMembers(style, members, true) + tail, true) == Some((members, tail))
    ensures Read(style, Dumps(style, Object(members)) + tail) == Some((Object(members), tail))
  {
    var body := DumpsMembers(style, members, true) + tail;
    assert Dumps(style, Object(members)) + tail == "{" + body;
    assert ("{" + body)[1..] == body;
  }

  lemma ReadItem(style: Style, start: string, first: bool, v: Value, rest: string, others: Items, tail: string)
    requires Separates(style) && start != "" && start[0] != ']'
    requires Read(style, start) == Some((v, rest)) && ReadItems(style, rest, false) == Some((others, tail))
    ensures ReadItems(style, (if first then "" else style.item) + start, first) == Some((Item(v, others), tail))
  {
    if first {
      assert "" + start == start;
    } else {
      ExpectInverts(style.item, start);
      assert (style.item + start)[0] == ',';
    }
  }

  lemma ReadMember(style: Style, name: string, value: string, first: bool, v: Value, rest: string, more: Members,
                   tail: string)
    requires Separates(style)
    requires Read(style, value) == Some((v, rest)) && ReadMembers(style, rest, false) == Some((more, tail))
    ensures ReadMembers(style, (if first then "" else style.item) + (Quote(name) + (style.key + value)), first)
            == Some((Member(name, v, more), tail))
  {
    var start := Quote(name) + (style.key + value);
    QuotedInverts(name, style.key + value);
    ExpectInverts(style.key, value);
    assert start[0] == '"';
    if first {
      assert "" + start == start;
    } else {
      ExpectInverts(style.item, start);
      assert (style.item + start)[0] == ',';
    }
  }

  /** Whatever follows it, a printed value is read back, and what follows is left over. */
  lemma {:induction false} DumpsInverts(style: Style, v: Value, tail: string)
    requires Separates(style) && EndsToken(tail)
    ensures Read(style, Dumps(style, v) + tail) == Some((v, tail))
    decreases v, 0
  {
    match v
    case Null => ReadLiteral(style, v, tail);
    case Bool(_) => ReadLiteral(style, v, tail);
    case Number(token) => ReadNumber(style, token, tail);
    case Text(text) => ReadText(style, text, tail);
    case Array(items) =>
      ItemsInvert(style, items, true, tail);
      ReadArray(style, items, tail);
    case Object(members) =>
      MembersInvert(style, members, true, tail);
      ReadObject(style, members, tail);
  }

  lemma {:induction false} ItemsInvert(style: Style, items: Items, first: bool, tail: string)
    requires Separates(style)
    ensures ReadItems(style, DumpsItems(style, items, first) + tail, first) == Some((items, tail))
    ensures !first ==> EndsToken(DumpsItems(style, items, first) + tail)
    decreases items, 1
  {
    var input := DumpsItems(style, items, first) + tail;
    match items
    case EndItems =>
      assert input[1..] == tail;
    case Item(v, others) =>
      var rest := DumpsItems(style, others, false) + tail;
      var start := Dumps(style, v) + rest;
      assert input == (if first then "" else style.item) + start;
      FirstChar(style, v);
      ItemsInvert(style, others, false, tail);
      DumpsInverts(style, v, rest);
      ReadItem(style, start, first, v, rest, others, tail);
  }

  lemma {:induction false} MembersInvert(style: Style, members: Members, first: bool, tail: string)
    requires Separates(style)
    ensures ReadMembers(style, DumpsMembers(style, members, first) + tail, first) == Some((members, tail))
    ensures !first ==> EndsToken(DumpsMembers(style, members, first) + tail)
    decreases members, 1
  {
    var input := DumpsMembers(style, members, first) + tail;
    match members
    case EndMembers =>
      assert input[1..] == tail;
    case Member(name, v, more) =>
      var rest := DumpsMembers(style, more, false) + tail;
      var value := Dumps(style, v) + rest;
      assert input == (if first then "" else style.item) + (Quote(name) + (style.key + value));
      MembersInvert(style, more, false, tail);
      DumpsInverts(style, v, rest);
      ReadMember(style, name, value, first, v, rest, more, tail);
  }

  /** Different values have different texts. */
  lemma DumpsInjective(style: Style, v: Value, w: Value)
    requires Separates(style) && Dumps(style, v) == Dumps(style, w)
    ensures v == w
  {
    DumpsInverts(style, v, "");
    DumpsInverts(style, w, "");
    assert Dumps(style, v) + "" == Dumps(style, v) && Dumps(style, w) + "" == Dumps(style, w);
  }
}
