/**
 JSON texts of the values a call's arguments are made of: strings, whole numbers, booleans, null and arrays. Strings are
 quoted as in section 7 of RFC 8259. A BigInt has no JSON form of its own and is written as a quoted decimal; a typed
 array of bytes is written as an object with its indices for names, which no argument is read from.
 */
module Json {
  import opened Words
  import opened Numerals

  const MAX_SAFE: int := 9007199254740991

  /** A whole number a double holds exactly. */
  type SafeInt = n: int | -MAX_SAFE <= n <= MAX_SAFE

  datatype Js = JStr(s: string) | JNum(n: SafeInt) | JBig(big: int) | JBool(b: bool) | JNull | JArr(items: seq<Js>)
    | JRaw(raw: seq<Byte>)

  datatype Read<T> = Bad | Good(value: T, rest: string)

  // ------------------------------------------------------------------ printing

  function Escape(c: char): (s: string)
    ensures s != ""
  {
    var n := c as int;
    if c == '"' then "\\\""
    else if c == '\\' then "\\\\"
    else if n == 8 then "\\b"
    else if n == 12 then "\\f"
    else if n == 10 then "\\n"
    else if n == 13 then "\\r"
    else if n == 9 then "\\t"
    else if n < 32 then ['\\', 'u', '0', '0', HexChar(n / 16), HexChar(n % 16)]
    else [c]
  }

  function Escaped(s: string): string {
    if s == "" then "" else Escape(s[0]) + Escaped(s[1..])
  }

  function Quote(s: string): string { "\"" + Escaped(s) + "\"" }

  function Stringify(j: Js): string
    decreases j, 1
  {
    match j
    case JStr(s) => Quote(s)
    case JNum(n) => IntText(n)
    case JBig(n) => Quote(IntText(n))
    case JBool(b) => if b then "true" else "false"
    case JNull => "null"
    case JArr(items) => if items == [] then "[]" else "[" + StringifyItems(items)
    case JRaw(raw) => "{" + RawFields(raw, |raw|) + "}"
  }

  /** The first `n` bytes as fields. */
  function RawFields(raw: seq<Byte>, n: nat): string
    requires n <= |raw|
  {
    if n == 0 then ""
    else RawFields(raw, n - 1) + (if n == 1 then "" else ",") + Quote(NatText(n - 1)) + ":" + NatText(raw[n - 1])
  }

  /** There is no typed array inside. */
  predicate NoRaw(j: Js)
    decreases j, 1
  {
    match j
    case JRaw(_) => false
    case JArr(items) => AllNoRaw(items)
    case _ => true
  }

  predicate AllNoRaw(items: seq<Js>)
    decreases items, 0
  {
    items == [] || (NoRaw(items[0]) && AllNoRaw(items[1..]))
  }

  /** The items and the closing bracket. */
  function StringifyItems(items: seq<Js>): string
    requires items != []
    decreases items, 0
  {
    Stringify(items[0]) + (if |items| == 1 then "]" else "," + StringifyItems(items[1..]))
  }

  /** What is left of a value once it went through JSON: BigInts have become strings. */
  function Plain(j: Js): Js {
    match j
    case JBig(n) => JStr(IntText(n))
    case JArr(items) => JArr(PlainAll(items))
    case _ => j
  }

  function PlainAll(items: seq<Js>): (ps: seq<Js>)
    ensures |ps| == |items|
  {
    if items == [] then [] else [Plain(items[0])] + PlainAll(items[1..])
  }

  // ------------------------------------------------------------------ reading

  predicate Blank(c: char) { c == ' ' || c == '\t' || c == '\n' || c == '\r' }

  function Skip(s: string): (t: string)
    ensures |t| <= |s| && (t != "" ==> !Blank(t[0]))
  {
    if s != "" && Blank(s[0]) then Skip(s[1..]) else s
  }

  function ReadHex4(s: string): (r: Read<char>)
    ensures r.Good? ==> |r.rest| < |s|
  {
    if |s| < 4 || !AllHex(s[..4]) then Bad
    else
      var n := HexValue(s[0]).value * 4096 + HexValue(s[1]).value * 256 + HexValue(s[2]).value * 16
        + HexValue(s[3]).value;
      if 0xD800 <= n < 0xE000 then Bad else Good(n as char, s[4..])
  }

  /** What stands after a backslash. */
  function ReadEscape(s: string): (r: Read<char>)
    ensures r.Good? ==> |r.rest| < |s|
  {
    if s == "" then Bad
    else if s[0] == '"' || s[0] == '\\' || s[0] == '/' then Good(s[0], s[1..])
    else if s[0] == 'b' then Good(8 as char, s[1..])
    else if s[0] == 'f' then Good(12 as char, s[1..])
    else if s[0] == 'n' then Good(10 as char, s[1..])
    else if s[0] == 'r' then Good(13 as char, s[1..])
    else if s[0] == 't' then Good(9 as char, s[1..])
    else if s[0] == 'u' then ReadHex4(s[1..])
    else Bad
  }

  /** One character of a string, escaped or not. */
  function ReadChar(s: string): (r: Read<char>)
    ensures r.Good? ==> |r.rest| < |s|
  {
    if s == "" || s[0] == '"' || s[0] as int < 32 then Bad
    else if s[0] == '\\' then ReadEscape(s[1..])
    else Good(s[0], s[1..])
  }

  /** The rest of a string, behind its opening quote. */
  function ReadString(s: string): (r: Read<string>)
    ensures r.Good? ==> |r.rest| < |s|
    decreases |s|
  {
    if s != "" && s[0] == '"' then Good("", s[1..])
    else
      match ReadChar(s)
      case Bad => Bad
      case Good(c, rest) =>
        match ReadString(rest)
        case Bad => Bad
        case Good(more, end) => Good([c] + more, end)
  }

  function ReadDigits(s: string): (r: Read<nat>)
    ensures r.Good? ==> |r.rest| < |s|
  {
    var k := DigitSpan(s);
    if k == 0 || (s[0] == '0' && 1 < k) then Bad
    else if k < |s| && (s[k] == '.' || s[k] == 'e' || s[k] == 'E') then Bad
    else Good(NatOf(s[..k]), s[k..])
  }

  function Signed(negative: bool, r: Read<nat>): Read<Js> {
    if r.Bad? || MAX_SAFE < r.value then Bad
    else
      var n: int := r.value;
      Good(JNum(if negative then -n else n), r.rest)
  }

  function ReadNumber(s: string): (r: Read<Js>)
    ensures r.Good? ==> |r.rest| < |s|
  {
    if s != "" && s[0] == '-' then Signed(true, ReadDigits(s[1..])) else Signed(false, ReadDigits(s))
  }

  function ReadValue(text: string): (r: Read<Js>)
    ensures r.Good? ==> |r.rest| < |text|
    decreases |text|, 0
  {
    var s := Skip(text);
    if s == "" then Bad
    else if s[0] == '"' then
      (match ReadString(s[1..])
       case Bad => Bad
       case Good(v, rest) => Good(JStr(v), rest))
    else if s[0] == '[' then ReadArray(s[1..])
    else if s[0] == '-' || IsDigit(s[0]) then ReadNumber(s)
    else ReadKeyword(s)
  }

  function ReadKeyword(s: string): (r: Read<Js>)
    ensures r.Good? ==> |r.rest| < |s|
  {
    if "true" <= s then Good(JBool(true), s[4..])
    else if "false" <= s then Good(JBool(false), s[5..])
    else if "null" <= s then Good(JNull, s[4..])
    else Bad
  }

  function ReadArray(s: string): (r: Read<Js>)
    ensures r.Good? ==> |r.rest| < |s|
    decreases |s|, 2
  {
    var t := Skip(s);
    if t != "" && t[0] == ']' then Good(JArr([]), t[1..])
    else
      match ReadItems(s)
      case Bad => Bad
      case Good(items, rest) => Good(JArr(items), rest)
  }

  function ReadItems(s: string): (r: Read<seq<Js>>)
    ensures r.Good? ==> |r.rest| < |s|
    decreases |s|, 1
  {
    match ReadValue(s)
    case Bad => Bad
    case Good(first, rest) =>
      var t := Skip(rest);
      if t == "" then Bad
      else if t[0] == ']' then Good([first], t[1..])
      else if t[0] != ',' then Bad
      else
        match ReadItems(t[1..])
        case Bad => Bad
        case Good(more, end) => Good([first] + more, end)
  }

  function Parse(text: string): Read<Js> {
    var r := ReadValue(text);
    if r.Good? && Skip(r.rest) == "" then r else Bad
  }

  // ------------------------------------------------------------------ reading what was printed

  lemma EscapeReads(c: char, rest: string)
    ensures ReadChar(Escape(c) + rest) == Good(c, rest)
    ensures Escape(c)[0] != '"'
  {
    var n := c as int;
    var s := Escape(c) + rest;
    assert s[|Escape(c)|..] == rest;
    if s[0] == '\\' {
      assert s[1..][1..] == s[2..];
      if s[1] == 'u' {
        assert s[1..][1..][4..] == s[6..];
        assert s[2..][..4] == ['0', '0', HexChar(n / 16), HexChar(n % 16)];
      }
    }
  }

  lemma {:induction false} StringReads(s: string, rest: string)
    ensures ReadString(Escaped(s) + "\"" + rest) == Good(s, rest)
  {
    var text := Escaped(s) + "\"" + rest;
    if s == "" {
      assert text == "\"" + rest;
    } else {
      var tail := Escaped(s[1..]) + "\"" + rest;
      assert text == Escape(s[0]) + tail;
      EscapeReads(s[0], tail);
      StringReads(s[1..], rest);
      assert [s[0]] + s[1..] == s;
    }
  }

  /** What may stand behind a value inside a printed text. */
  predicate Ends(rest: string) { rest == "" || rest[0] in ",]}\n" }

  lemma QuoteReads(s: string, rest: string)
    ensures ReadValue(Quote(s) + rest) == Good(JStr(s), rest)
  {
    var text := Quote(s) + rest;
    assert text[1..] == Escaped(s) + "\"" + rest;
    StringReads(s, rest);
  }

  lemma DigitsRead(n: nat, rest: string)
    requires Ends(rest)
    ensures ReadDigits(NatText(n) + rest) == Good(n, rest)
  {
    NatTextReads(n);
    SpanIs(NatText(n), rest);
    var t := NatText(n) + rest;
    assert t[..|NatText(n)|] == NatText(n) && t[|NatText(n)|..] == rest;
  }

  lemma NumberReads(n: SafeInt, rest: string)
    requires Ends(rest)
    ensures ReadValue(IntText(n) + rest) == Good(JNum(n), rest)
  {
    var m: nat := if n < 0 then -n else n;
    DigitsRead(m, rest);
    if n < 0 {
      var text := "-" + NatText(m) + rest;
      assert text[1..] == NatText(m) + rest;
      NumberValue(text);
    } else {
      var text := NatText(m) + rest;
      assert IsDigit(text[0]);
      NumberValue(text);
    }
  }

  lemma NumberValue(text: string)
    requires text != "" && (text[0] == '-' || IsDigit(text[0]))
    ensures ReadValue(text) == ReadNumber(text)
  {
    assert Skip(text) == text;
  }

  /** Every printed value without typed arrays reads back, whatever follows it, with its BigInts turned into strings. */
  lemma {:induction false} ValueReads(j: Js, rest: string)
    requires Ends(rest) && NoRaw(j)
    ensures ReadValue(Stringify(j) + rest) == Good(Plain(j), rest)
    decreases j, 1
  {
    match j
    case JStr(s) => QuoteReads(s, rest);
    case JNum(n) => NumberReads(n, rest);
    case JBig(n) => QuoteReads(IntText(n), rest);
    case JBool(b) => KeywordReads(j, rest);
    case JNull => KeywordReads(j, rest);
    case JArr(items) =>
      if items == [] {
        EmptyArrayReads(rest);
      } else {
        ItemsRead(items, rest);
        ArrayReads(items, rest);
      }
  }

  lemma KeywordReads(j: Js, rest: string)
    requires j.JBool? || j.JNull?
    ensures ReadValue(Stringify(j) + rest) == Good(j, rest)
  {
    var text := Stringify(j) + rest;
    assert Skip(text) == text && text[|Stringify(j)|..] == rest;
  }

  lemma ArrayReads(items: seq<Js>, rest: string)
    requires items != [] && ReadItems(StringifyItems(items) + rest) == Good(PlainAll(items), rest)
    ensures ReadValue(Stringify(JArr(items)) + rest) == Good(JArr(PlainAll(items)), rest)
  {
    var body := StringifyItems(items) + rest;
    ItemsStart(items);
    assert Stringify(JArr(items)) + rest == "[" + body;
    BracketReads("[" + body, body);
  }

  lemma EmptyArrayReads(rest: string)
    ensures ReadValue("[]" + rest) == Good(JArr([]), rest)
  {
    BracketReads("[]" + rest, "]" + rest);
  }

  lemma BracketReads(text: string, body: string)
    requires text == "[" + body
    ensures ReadValue(text) == ReadArray(body)
  {
    assert text[1..] == body;
  }

  lemma ItemsStart(items: seq<Js>)
    requires items != []
    ensures var text := StringifyItems(items); text != "" && text[0] != ']' && !Blank(text[0])
  {
    var first := Stringify(items[0]);
    assert first != "" && first[0] != ']' && !Blank(first[0]);
    assert StringifyItems(items)[0] == first[0];
  }

  lemma {:induction false} ItemsRead(items: seq<Js>, rest: string)
    requires items != [] && AllNoRaw(items)
    ensures ReadItems(StringifyItems(items) + rest) == Good(PlainAll(items), rest)
    decreases items, 0
  {
    var first := Stringify(items[0]);
    if |items| == 1 {
      assert StringifyItems(items) + rest == first + ("]" + rest);
      ValueReads(items[0], "]" + rest);
      LastItem(StringifyItems(items) + rest, Plain(items[0]), rest);
      assert PlainAll(items) == [Plain(items[0])];
    } else {
      var tail := StringifyItems(items[1..]) + rest;
      assert StringifyItems(items) + rest == first + ("," + tail);
      ValueReads(items[0], "," + tail);
      ItemsRead(items[1..], rest);
      NextItem(StringifyItems(items) + rest, Plain(items[0]), tail, PlainAll(items[1..]), rest);
    }
  }

  lemma LastItem(s: string, v: Js, rest: string)
    requires ReadValue(s) == Good(v, "]" + rest)
    ensures ReadItems(s) == Good([v], rest)
  {
    assert ("]" + rest)[1..] == rest;
  }

  lemma NextItem(s: string, v: Js, tail: string, more: seq<Js>, rest: string)
    requires ReadValue(s) == Good(v, "," + tail)
    requires ReadItems(tail) == Good(more, rest)
    ensures ReadItems(s) == Good([v] + more, rest)
  {
    assert ("," + tail)[1..] == tail;
  }

  // ------------------------------------------------------------------ what does not read back

  lemma BraceUnreadable(text: string)
    requires text != "" && text[0] == '{'
    ensures ReadValue(text).Bad?
  {
    assert Skip(text) == text;
  }

  /** A value with a typed array inside is not read back, whatever follows it. */
  lemma {:induction false} RawUnreadable(j: Js, rest: string)
    requires !NoRaw(j)
    ensures ReadValue(Stringify(j) + rest).Bad?
    decreases j, 1
  {
    match j
    case JRaw(_) => BraceUnreadable(Stringify(j) + rest);
    case JArr(items) =>
      ItemsUnreadable(items, rest);
      ArrayUnreadable(items, rest);
  }

  lemma ArrayUnreadable(items: seq<Js>, rest: string)
    requires items != [] && ReadItems(StringifyItems(items) + rest).Bad?
    ensures ReadValue(Stringify(JArr(items)) + rest).Bad?
  {
    var body := StringifyItems(items) + rest;
    ItemsStart(items);
    assert Stringify(JArr(items)) + rest == "[" + body;
    BracketReads("[" + body, body);
    assert Skip(body) == body;
  }

  lemma {:induction false} ItemsUnreadable(items: seq<Js>, rest: string)
    requires !AllNoRaw(items)
    ensures ReadItems(StringifyItems(items) + rest).Bad?
    decreases items, 0
  {
    var first := Stringify(items[0]);
    var more := if |items| == 1 then "]" + rest else "," + (StringifyItems(items[1..]) + rest);
    assert StringifyItems(items) + rest == first + more;
    if !NoRaw(items[0]) {
      RawUnreadable(items[0], more);
    } else {
      var tail := StringifyItems(items[1..]) + rest;
      ValueReads(items[0], more);
      ItemsUnreadable(items[1..], rest);
      LaterUnreadable(first + more, Plain(items[0]), tail);
    }
  }

  lemma LaterUnreadable(s: string, v: Js, tail: string)
    requires ReadValue(s) == Good(v, "," + tail) && ReadItems(tail).Bad?
    ensures ReadItems(s).Bad?
  {
    assert ("," + tail)[1..] == tail;
  }

  lemma ParseStringify(j: Js)
    ensures Parse(Stringify(j)) == if NoRaw(j) then Good(Plain(j), "") else Bad
  {
    assert Stringify(j) + "" == Stringify(j);
    if NoRaw(j) {
      ValueReads(j, "");
    } else {
      RawUnreadable(j, "");
    }
  }
}
