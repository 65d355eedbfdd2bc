/** JSON documents with objects, printed over several lines, indented by two as JSON.stringify does, and read back. */
module Documents {
  import opened Common
  import opened Json

  type Scalar = j: Js | j.JStr? || j.JNum? || j.JBool? || j.JNull? witness JNull

  datatype Doc = Leaf(value: Scalar) | Items(items: seq<Doc>) | Fields(fields: seq<Field>)

  datatype Field = Field(key: string, value: Doc)

  function Spaces(n: nat): string { if n == 0 then "" else " " + Spaces(n - 1) }

  function Line(pad: nat): string { "\n" + Spaces(pad) }

  function Print(d: Doc, pad: nat): string
    decreases d, 1
  {
    match d
    case Leaf(j) => Stringify(j)
    case Items(items) => if items == [] then "[]" else "[" + (PrintItems(items, pad + 2) + (Line(pad) + "]"))
    case Fields(fields) => if fields == [] then "{}" else "{" + (PrintFields(fields, pad + 2) + (Line(pad) + "}"))
  }

  function PrintItems(items: seq<Doc>, pad: nat): string
    requires items != []
    decreases items, 0
  {
    Line(pad) + (Print(items[0], pad) + if |items| == 1 then "" else "," + PrintItems(items[1..], pad))
  }

  function PrintFields(fields: seq<Field>, pad: nat): string
    requires fields != []
    decreases fields, 0
  {
    Line(pad) + (Quote(fields[0].key) + (": " + (Print(fields[0].value, pad) +
      if |fields| == 1 then "" else "," + PrintFields(fields[1..], pad))))
  }

  // ------------------------------------------------------------------ reading

  function ReadLeaf(s: string): (r: Read<Doc>)
    ensures r.Good? ==> |r.rest| < |s|
  {
    match ReadValue(s)
    case Bad => Bad
    case Good(j, rest) => if j.JArr? || j.JBig? || j.JRaw? then Bad else Good(Leaf(j), rest)
  }

  function ReadDoc(text: string): (r: Read<Doc>)
    ensures r.Good? ==> |r.rest| < |text|
    decreases |text|, 0
  {
    var s := Skip(text);
    if s == "" then Bad
    else if s[0] == '[' then
      (var t := Skip(s[1..]);
       if t != "" && t[0] == ']' then Good(Items([]), t[1..])
       else
         match ReadElements(s[1..])
         case Bad => Bad
         case Good(items, rest) => Good(Items(items), rest))
    else if s[0] == '{' then
      (var t := Skip(s[1..]);
       if t != "" && t[0] == '}' then Good(Fields([]), t[1..])
       else
         match ReadMembers(s[1..])
         case Bad => Bad
         case Good(fields, rest) => Good(Fields(fields), rest))
    else ReadLeaf(s)
  }

  function ReadElements(s: string): (r: Read<seq<Doc>>)
    ensures r.Good? ==> |r.rest| < |s|
    decreases |s|, 1
  {
    match ReadDoc(s)
    case Bad => Bad
    case Good(first, rest) =>
      var t := Skip(rest);
      if t == "" then Bad
      else if t[0] == ']' then Good([first], t[1..])
      else if t[0] != ',' then Bad
      else
        match ReadElements(t[1..])
        case Bad => Bad
        case Good(more, end) => Good([first] + more, end)
  }

  /** A name and the colon behind it. */
  function ReadKey(text: string): (r: Read<string>)
    ensures r.Good? ==> |r.rest| < |text|
  {
    var s := Skip(text);
    if s == "" || s[0] != '"' then Bad
    else
      match ReadString(s[1..])
      case Bad => Bad
      case Good(key, rest) =>
        var t := Skip(rest);
        if t == "" || t[0] != ':' then Bad else Good(key, t[1..])
  }

  function ReadMember(text: string): (r: Read<Field>)
    ensures r.Good? ==> |r.rest| < |text|
    decreases |text|, 1
  {
    match ReadKey(text)
    case Bad => Bad
    case Good(key, rest) =>
      match ReadDoc(rest)
      case Bad => Bad
      case Good(value, end) => Good(Field(key, value), end)
  }

  function ReadMembers(s: string): (r: Read<seq<Field>>)
    ensures r.Good? ==> |r.rest| < |s|
    decreases |s|, 2
  {
    match ReadMember(s)
    case Bad => Bad
    case Good(first, rest) =>
      var t := Skip(rest);
      if t == "" then Bad
      else if t[0] == '}' then Good([first], t[1..])
      else if t[0] != ',' then Bad
      else
        match ReadMembers(t[1..])
        case Bad => Bad
        case Good(more, end) => Good([first] + more, end)
  }

  function ParseDoc(text: string): Option<Doc> {
    match ReadDoc(text)
    case Bad => None
    case Good(d, rest) => if Skip(rest) == "" then Some(d) else None
  }

  // ------------------------------------------------------------------ reading what was printed

  lemma {:induction false} SpacesSkipped(n: nat, s: string)
    ensures Skip(Spaces(n) + s) == Skip(s)
  {
    if n == 0 {
      assert Spaces(n) + s == s;
    } else {
      SpacesSkipped(n - 1, s);
      assert (Spaces(n) + s)[1..] == Spaces(n - 1) + s;
    }
  }

  lemma LineSkipped(pad: nat, s: string)
    ensures Skip(Line(pad) + s) == Skip(s)
  {
    SpacesSkipped(pad, s);
    assert (Line(pad) + s)[1..] == Spaces(pad) + s;
  }

  /** How a printed document starts. */
  lemma Starts(d: Doc, pad: nat, rest: string)
    ensures var s := Print(d, pad) + rest; s != "" && !Blank(s[0]) && s[0] != ']' && s[0] != '}' && Skip(s) == s
    ensures d.Leaf? ==> var s := Print(d, pad) + rest; s[0] != '[' && s[0] != '{'
  {
  }

  lemma LeafReads(j: Scalar, pad: nat, rest: string)
    requires Ends(rest)
    ensures ReadDoc(Print(Leaf(j), pad) + rest) == Good(Leaf(j), rest)
  {
    Starts(Leaf(j), pad, rest);
    ValueReads(j, rest);
  }

  /** Every printed document reads back, whatever follows it. */
  lemma {:induction false} DocReads(d: Doc, pad: nat, rest: string)
    requires Ends(rest)
    ensures ReadDoc(Print(d, pad) + rest) == Good(d, rest)
    decreases d, 1
  {
    match d
    case Leaf(j) => LeafReads(j, pad, rest);
    case Items(items) =>
      if items == [] {
        EmptyReads(rest);
      } else {
        ElementsRead(items, pad + 2, pad, rest);
        ItemsOpen(items, pad, rest);
      }
    case Fields(fields) =>
      if fields == [] {
        EmptyReads(rest);
      } else {
        MembersRead(fields, pad + 2, pad, rest);
        FieldsOpen(fields, pad, rest);
      }
  }

  lemma EmptyReads(rest: string)
    ensures ReadDoc("[]" + rest) == Good(Items([]), rest)
    ensures ReadDoc("{}" + rest) == Good(Fields([]), rest)
  {
    assert ("[]" + rest)[1..] == "]" + rest && ("]" + rest)[1..] == rest;
    assert ("{}" + rest)[1..] == "}" + rest && ("}" + rest)[1..] == rest;
  }

  lemma Regroup(a: string, b: string, c: string)
    ensures (a + b) + c == a + (b + c)
  {
  }

  lemma RegroupThree(a: string, b: string, c: string, d: string)
    ensures (a + (b + c)) + d == a + (b + (c + d))
  {
    Regroup(a, b + c, d);
    Regroup(b, c, d);
  }

  lemma RegroupFour(a: string, b: string, c: string, d: string, e: string)
    ensures (a + (b + (c + d))) + e == a + (b + (c + (d + e)))
  {
    Regroup(a, b + (c + d), e);
    RegroupThree(b, c, d, e);
  }

  lemma RegroupFive(a: string, b: string, c: string, d: string, e: string, f: string)
    ensures (a + (b + (c + (d + e)))) + f == a + (b + (c + (d + (e + f))))
  {
    RegroupThree(a, b, c + (d + e), f);
    RegroupThree(c, d, e, f);
  }

  /** What stands behind the first item. */
  function AfterItem(items: seq<Doc>, pad: nat, close: string): string
    requires items != []
  {
    if |items| == 1 then close else "," + (PrintItems(items[1..], pad) + close)
  }

  lemma ItemsText(items: seq<Doc>, pad: nat, close: string)
    requires items != []
    ensures PrintItems(items, pad) + close == Line(pad) + (Print(items[0], pad) + AfterItem(items, pad, close))
  {
    var more := if |items| == 1 then "" else "," + PrintItems(items[1..], pad);
    RegroupThree(Line(pad), Print(items[0], pad), more, close);
    MoreItems(items, pad, close);
  }

  lemma MoreItems(items: seq<Doc>, pad: nat, close: string)
    requires items != []
    ensures (if |items| == 1 then "" else "," + PrintItems(items[1..], pad)) + close == AfterItem(items, pad, close)
  {
    if |items| == 1 {
      assert "" + close == close;
    } else {
      Regroup(",", PrintItems(items[1..], pad), close);
    }
  }

  /** What stands behind the first field's name, and behind its value. */
  function AfterField(fields: seq<Field>, pad: nat, close: string): string
    requires fields != []
  {
    if |fields| == 1 then close else "," + (PrintFields(fields[1..], pad) + close)
  }

  function AfterKey(fields: seq<Field>, pad: nat, close: string): string
    requires fields != []
  {
    ": " + (Print(fields[0].value, pad) + AfterField(fields, pad, close))
  }

  lemma FieldsText(fields: seq<Field>, pad: nat, close: string)
    requires fields != []
    ensures PrintFields(fields, pad) + close == Line(pad) + (Quote(fields[0].key) + AfterKey(fields, pad, close))
  {
    var more := if |fields| == 1 then "" else "," + PrintFields(fields[1..], pad);
    RegroupFive(Line(pad), Quote(fields[0].key), ": ", Print(fields[0].value, pad), more, close);
    MoreFields(fields, pad, close);
  }

  lemma MoreFields(fields: seq<Field>, pad: nat, close: string)
    requires fields != []
    ensures (if |fields| == 1 then "" else "," + PrintFields(fields[1..], pad)) + close
            == AfterField(fields, pad, close)
  {
    if |fields| == 1 {
      assert "" + close == close;
    } else {
      Regroup(",", PrintFields(fields[1..], pad), close);
    }
  }

  lemma ItemsOpen(items: seq<Doc>, pad: nat, rest: string)
    requires items != []
    requires ReadElements(PrintItems(items, pad + 2) + (Line(pad) + ("]" + rest))) == Good(items, rest)
    ensures ReadDoc(Print(Items(items), pad) + rest) == Good(Items(items), rest)
  {
    var close := Line(pad) + ("]" + rest);
    RegroupFour("[", PrintItems(items, pad + 2), Line(pad), "]", rest);
    ItemsStart(items, pad + 2, close);
    Bracket(Print(Items(items), pad) + rest, PrintItems(items, pad + 2) + close);
  }

  lemma ItemsStart(items: seq<Doc>, pad: nat, close: string)
    requires items != []
    ensures var s := Skip(PrintItems(items, pad) + close); s != "" && s[0] != ']'
  {
    ItemsText(items, pad, close);
    LineSkipped(pad, Print(items[0], pad) + AfterItem(items, pad, close));
    Starts(items[0], pad, AfterItem(items, pad, close));
  }

  lemma Bracket(s: string, body: string)
    requires s == "[" + body && Skip(body) != "" && Skip(body)[0] != ']' && ReadElements(body).Good?
    ensures ReadDoc(s) == Good(Items(ReadElements(body).value), ReadElements(body).rest)
  {
    assert s[1..] == body;
  }

  lemma FieldsOpen(fields: seq<Field>, pad: nat, rest: string)
    requires fields != []
    requires ReadMembers(PrintFields(fields, pad + 2) + (Line(pad) + ("}" + rest))) == Good(fields, rest)
    ensures ReadDoc(Print(Fields(fields), pad) + rest) == Good(Fields(fields), rest)
  {
    var close := Line(pad) + ("}" + rest);
    RegroupFour("{", PrintFields(fields, pad + 2), Line(pad), "}", rest);
    FieldsText(fields, pad + 2, close);
    LineSkipped(pad + 2, Quote(fields[0].key) + AfterKey(fields, pad + 2, close));
    Brace(Print(Fields(fields), pad) + rest, PrintFields(fields, pad + 2) + close);
  }

  lemma Brace(s: string, body: string)
    requires s == "{" + body && Skip(body) != "" && Skip(body)[0] != '}' && ReadMembers(body).Good?
    ensures ReadDoc(s) == Good(Fields(ReadMembers(body).value), ReadMembers(body).rest)
  {
    assert s[1..] == body;
  }

  lemma {:induction false} ElementsRead(items: seq<Doc>, pad: nat, out: nat, rest: string)
    requires items != []
    ensures ReadElements(PrintItems(items, pad) + (Line(out) + ("]" + rest))) == Good(items, rest)
    decreases items, 0
  {
    var close := Line(out) + ("]" + rest);
    var more := AfterItem(items, pad, close);
    ItemsText(items, pad, close);
    DocReads(items[0], pad, more);
    LineSkipped(pad, Print(items[0], pad) + more);
    SameDoc(PrintItems(items, pad) + close, Print(items[0], pad) + more);
    if |items| == 1 {
      LineSkipped(out, "]" + rest);
      assert ("]" + rest)[1..] == rest && [items[0]] == items;
    } else {
      ElementsRead(items[1..], pad, out, rest);
      assert more[1..] == PrintItems(items[1..], pad) + close;
      assert [items[0]] + items[1..] == items;
    }
  }

  /** What is read does not depend on the blanks before it. */
  lemma SameDoc(s: string, t: string)
    requires Skip(s) == Skip(t) && ReadDoc(t).Good?
    ensures ReadDoc(s) == ReadDoc(t)
  {
  }

  lemma QuoteText(key: string, after: string)
    ensures (Quote(key) + after)[0] == '"' && (Quote(key) + after)[1..] == Escaped(key) + "\"" + after
  {
    Regroup("\"" + Escaped(key), "\"", after);
    Regroup("\"", Escaped(key), "\"" + after);
    Regroup(Escaped(key), "\"", after);
  }

  lemma ColonReads(text: string, key: string, after: string)
    requires Skip(text) != "" && Skip(text)[0] == '"' && ReadString(Skip(text)[1..]) == Good(key, ":" + after)
    ensures ReadKey(text) == Good(key, after)
  {
    assert (":" + after)[1..] == after;
  }

  lemma KeyReads(key: string, pad: nat, value: string)
    ensures ReadKey(Line(pad) + (Quote(key) + (": " + value))) == Good(key, " " + value)
  {
    LineSkipped(pad, Quote(key) + (": " + value));
    QuoteText(key, ": " + value);
    StringReads(key, ": " + value);
    Regroup(":", " ", value);
    ColonReads(Line(pad) + (Quote(key) + (": " + value)), key, " " + value);
  }

  lemma MemberReads(f: Field, pad: nat, more: string)
    requires ReadDoc(Print(f.value, pad) + more) == Good(f.value, more)
    ensures ReadMember(Line(pad) + (Quote(f.key) + (": " + (Print(f.value, pad) + more)))) == Good(f, more)
  {
    var value := Print(f.value, pad) + more;
    KeyReads(f.key, pad, value);
    assert (" " + value)[1..] == value;
    SameDoc(" " + value, value);
  }

  lemma FirstMember(fields: seq<Field>, pad: nat, close: string)
    requires fields != []
    requires var more := AfterField(fields, pad, close);
             ReadDoc(Print(fields[0].value, pad) + more) == Good(fields[0].value, more)
    ensures ReadMember(PrintFields(fields, pad) + close) == Good(fields[0], AfterField(fields, pad, close))
  {
    FieldsText(fields, pad, close);
    MemberReads(fields[0], pad, AfterField(fields, pad, close));
  }

  lemma {:induction false} MembersRead(fields: seq<Field>, pad: nat, out: nat, rest: string)
    requires fields != []
    ensures ReadMembers(PrintFields(fields, pad) + (Line(out) + ("}" + rest))) == Good(fields, rest)
    decreases fields, 0
  {
    var close := Line(out) + ("}" + rest);
    DocReads(fields[0].value, pad, AfterField(fields, pad, close));
    if |fields| == 1 {
      LastMember(fields, pad, out, rest);
    } else {
      MembersRead(fields[1..], pad, out, rest);
      NextMember(fields, pad, close, rest);
    }
  }

  lemma LastMember(fields: seq<Field>, pad: nat, out: nat, rest: string)
    requires |fields| == 1
    requires var close := Line(out) + ("}" + rest);
             ReadDoc(Print(fields[0].value, pad) + close) == Good(fields[0].value, close)
    ensures ReadMembers(PrintFields(fields, pad) + (Line(out) + ("}" + rest))) == Good(fields, rest)
  {
    FirstMember(fields, pad, Line(out) + ("}" + rest));
    LineSkipped(out, "}" + rest);
    assert ("}" + rest)[1..] == rest && [fields[0]] == fields;
  }

  lemma NextMember(fields: seq<Field>, pad: nat, close: string, rest: string)
    requires 1 < |fields| && ReadMembers(PrintFields(fields[1..], pad) + close) == Good(fields[1..], rest)
    requires var more := AfterField(fields, pad, close);
             ReadDoc(Print(fields[0].value, pad) + more) == Good(fields[0].value, more)
    ensures ReadMembers(PrintFields(fields, pad) + close) == Good(fields, rest)
  {
    FirstMember(fields, pad, close);
    MembersGoOn(PrintFields(fields, pad) + close, fields, PrintFields(fields[1..], pad) + close, rest);
  }

  lemma MembersGoOn(s: string, fields: seq<Field>, tail: string, rest: string)
    requires 1 < |fields| && ReadMember(s) == Good(fields[0], "," + tail)
    requires ReadMembers(tail) == Good(fields[1..], rest)
    ensures ReadMembers(s) == Good(fields, rest)
  {
    assert ("," + tail)[1..] == tail;
    assert [fields[0]] + fields[1..] == fields;
  }

  /** A printed file, with the line end behind it, is read as the document it was printed from. */
  lemma FileReads(d: Doc)
    ensures ParseDoc(Print(d, 0) + "\n") == Some(d)
  {
    DocReads(d, 0, "\n");
    assert Skip("\n") == Skip("\n"[1..]);
  }

  // ------------------------------------------------------------------ fields by name

  /** The value under a name; when the name stands twice the last one counts. */
  function Last(fields: seq<Field>, key: string): (r: Option<Doc>)
    ensures r.Some? ==> exists i :: 0 <= i < |fields| && fields[i] == Field(key, r.value)
  {
    if fields == [] then None
    else
      var n := |fields| - 1;
      if fields[n].key == key then Some(fields[n].value) else Last(fields[..n], key)
  }

  lemma {:induction false} LastConcat(a: seq<Field>, b: seq<Field>, key: string)
    ensures Last(a + b, key) == if Last(b, key).Some? then Last(b, key) else Last(a, key)
  {
    if b == [] {
      assert a + b == a;
    } else {
      var n := |b| - 1;
      assert (a + b)[..|a + b| - 1] == a + b[..n];
      LastConcat(a, b[..n], key);
    }
  }

  lemma LastOne(f: Field, key: string)
    ensures Last([f], key) == if f.key == key then Some(f.value) else None
  {
  }

  lemma {:induction false} LastAt(fields: seq<Field>, i: nat)
    requires i < |fields| && forall j :: i < j < |fields| ==> fields[j].key != fields[i].key
    ensures Last(fields, fields[i].key) == Some(fields[i].value)
  {
    if i < |fields| - 1 {
      LastAt(fields[..|fields| - 1], i);
    }
  }

  lemma {:induction false} LastMissing(fields: seq<Field>, key: string)
    requires forall i :: 0 <= i < |fields| ==> fields[i].key != key
    ensures Last(fields, key).None?
  {
    if fields != [] {
      LastMissing(fields[..|fields| - 1], key);
    }
  }

  function Get(d: Doc, key: string): (r: Option<Doc>)
    ensures r.Some? ==> r.value < d
  {
    if d.Fields? then Last(d.fields, key) else None
  }

  function TextAt(d: Doc, key: string): Option<string> {
    match Get(d, key)
    case Some(Leaf(JStr(s))) => Some(s)
    case _ => None
  }

  // ------------------------------------------------------------------ records

  function Record(keys: seq<string>, values: seq<Doc>): Doc
    requires |keys| == |values|
  {
    Fields(seq(|keys|, i requires 0 <= i < |keys| => Field(keys[i], values[i])))
  }

  predicate DistinctKeys(keys: seq<string>) { forall i, j :: 0 <= i < j < |keys| ==> keys[i] != keys[j] }

  lemma RecordGet(keys: seq<string>, values: seq<Doc>, i: nat)
    requires i < |keys| == |values| && DistinctKeys(keys)
    ensures Get(Record(keys, values), keys[i]) == Some(values[i])
  {
    LastAt(Record(keys, values).fields, i);
  }
}
