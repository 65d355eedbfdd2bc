/**
 Type texts: as a JSON ABI names a parameter's type, and as a function signature spells it out; and reading the latter.
 */
module Signatures {
  import opened Common
  import opened Numerals
  import opened Json
  import opened Abi
  import opened Words

  predicate ValidType(ty: Ty) {
    match ty
    case UInt(n) => 1 <= n <= WORD
    case SInt(n) => 1 <= n <= WORD
    case FixedBytes(n) => 1 <= n <= WORD
    case List(e) => ValidType(e)
    case FixedList(e, _) => ValidType(e)
    case Tuple(fields) => forall i :: 0 <= i < |fields| ==> ValidType(fields[i])
    case _ => true
  }

  function ScalarText(ty: Ty): string {
    match ty
    case UInt(n) => "uint" + NatText(8 * n)
    case SInt(n) => "int" + NatText(8 * n)
    case FixedBytes(n) => "bytes" + NatText(n)
    case Bool => "bool"
    case Address => "address"
    case DynBytes => "bytes"
    case _ => "string"
  }

  /** The `type` field of a JSON ABI parameter; the fields of a tuple stand elsewhere. */
  function TypeText(ty: Ty): string {
    match ty
    case List(e) => TypeText(e) + "[]"
    case FixedList(e, k) => TypeText(e) + "[" + NatText(k) + "]"
    case Tuple(_) => "tuple"
    case _ => ScalarText(ty)
  }

  /** How the script tells tuples and arrays from scalars: by the type's text. */
  predicate IsComposite(ty: Ty) {
    var t := TypeText(ty);
    "tuple" <= t || (t != "" && t[|t| - 1] == ']')
  }

  lemma CompositeByText(ty: Ty)
    ensures IsComposite(ty) <==> Composite(ty)
  {
    var t := TypeText(ty);
    match ty
    case List(e) => assert t[|t| - 1] == ']';
    case FixedList(e, k) => assert t[|t| - 1] == ']';
    case Tuple(_) =>
    case UInt(n) => ScalarPlain("uint", n * 8);
    case SInt(n) => ScalarPlain("int", n * 8);
    case FixedBytes(n) => ScalarPlain("bytes", n);
    case _ => assert t == "bool" || t == "address" || t == "bytes" || t == "string"; assert t[0] != 't';
  }

  lemma ScalarPlain(name: string, n: nat)
    requires name == "uint" || name == "int" || name == "bytes"
    ensures var t := name + NatText(n); !("tuple" <= t) && t[|t| - 1] != ']'
  {
    var t := name + NatText(n);
    assert t[|t| - 1] == NatText(n)[|NatText(n)| - 1];
    assert t[0] != 't';
  }

  // ------------------------------------------------------------------ signatures

  /** The type with its tuples spelled out. */
  function Sighash(ty: Ty): string {
    match ty
    case List(e) => Sighash(e) + "[]"
    case FixedList(e, k) => Sighash(e) + "[" + NatText(k) + "]"
    case Tuple(fields) => "(" + FieldTexts(fields) + ")"
    case _ => ScalarText(ty)
  }

  function FieldTexts(tys: seq<Ty>): string {
    if tys == [] then ""
    else if |tys| == 1 then Sighash(tys[0])
    else Sighash(tys[0]) + "," + FieldTexts(tys[1..])
  }

  function FunctionSignature(name: string, tys: seq<Ty>): string {
    name + "(" + FieldTexts(tys) + ")"
  }

  predicate NameChar(c: char) { 'a' <= c <= 'z' || IsDigit(c) }

  function NameSpan(s: string): (k: nat)
    ensures k <= |s|
  {
    if s == "" || !NameChar(s[0]) then 0 else 1 + NameSpan(s[1..])
  }

  /** The size written behind a type's name. */
  function SizeOf(digits: string): Option<nat> {
    if digits != "" && AllDigits(digits) then Some(NatOf(digits)) else None
  }

  function SizedInt(signed: bool, bits: Option<nat>): Option<Ty> {
    if bits.None? || bits.value % 8 != 0 || bits.value == 0 || 8 * WORD < bits.value then None
    else Some(if signed then SInt(bits.value / 8) else UInt(bits.value / 8))
  }

  function SizedBytes(size: Option<nat>): Option<Ty> {
    if size.None? || size.value == 0 || WORD < size.value then None else Some(FixedBytes(size.value))
  }

  /** The size behind a type's plain name, if the name is that one. */
  function Behind(name: string, plain: string): Option<nat> {
    if plain <= name then SizeOf(name[|plain|..]) else None
  }

  function BytesNamed(name: string): Option<Ty> {
    if name == "bool" then Some(Bool)
    else if name == "bytes" then Some(DynBytes)
    else SizedBytes(Behind(name, "bytes"))
  }

  function ScalarNamed(name: string): Option<Ty> {
    if name == "" then None
    else if name[0] == 'u' then SizedInt(false, Behind(name, "uint"))
    else if name[0] == 'i' then SizedInt(true, Behind(name, "int"))
    else if name[0] == 'b' then BytesNamed(name)
    else if name[0] == 'a' then (if name == "address" then Some(Address) else None)
    else if name == "string" then Some(Text)
    else None
  }

  /** The `[]` and `[k]` behind a type. */
  function ReadSuffixes(ty: Ty, s: string): (r: Read<Ty>)
    ensures r.Good? ==> |r.rest| <= |s|
    decreases |s|
  {
    if s == "" || s[0] != '[' then Good(ty, s)
    else
      var k := DigitSpan(s[1..]);
      if |s| <= 1 + k || s[1 + k] != ']' then Bad
      else ReadSuffixes(if k == 0 then List(ty) else FixedList(ty, NatOf(s[1..][..k])), s[2 + k..])
  }

  function ReadType(s: string): (r: Read<Ty>)
    ensures r.Good? ==> |r.rest| < |s|
    decreases |s|, 0
  {
    if s != "" && s[0] == '(' then
      (match ReadFields(s[1..])
       case Bad => Bad
       case Good(fields, rest) => ReadSuffixes(Tuple(fields), rest))
    else
      var k := NameSpan(s);
      match ScalarNamed(s[..k])
      case None => Bad
      case Some(ty) => if k == 0 then Bad else ReadSuffixes(ty, s[k..])
  }

  /** The fields of a tuple, behind its opening parenthesis. */
  function ReadFields(s: string): (r: Read<seq<Ty>>)
    ensures r.Good? ==> |r.rest| < |s|
    decreases |s|, 2
  {
    if s != "" && s[0] == ')' then Good([], s[1..]) else ReadMore(s)
  }

  function ReadMore(s: string): (r: Read<seq<Ty>>)
    ensures r.Good? ==> |r.rest| < |s|
    decreases |s|, 1
  {
    match ReadType(s)
    case Bad => Bad
    case Good(ty, rest) =>
      if rest == "" then Bad
      else if rest[0] == ')' then Good([ty], rest[1..])
      else if rest[0] != ',' then Bad
      else
        match ReadMore(rest[1..])
        case Bad => Bad
        case Good(more, end) => Good([ty] + more, end)
  }

  // ------------------------------------------------------------------ reading what was spelled out

  lemma {:induction false} NameSpanIs(name: string, rest: string)
    requires forall i :: 0 <= i < |name| ==> NameChar(name[i])
    requires rest == "" || !NameChar(rest[0])
    ensures NameSpan(name + rest) == |name|
  {
    if name == "" {
      assert name + rest == rest;
    } else {
      assert (name + rest)[1..] == name[1..] + rest;
      NameSpanIs(name[1..], rest);
    }
  }

  lemma ScalarReads(ty: Ty)
    requires !Composite(ty) && ValidType(ty)
    ensures ScalarNamed(ScalarText(ty)) == Some(ty)
  {
    match ty
    case UInt(n) => IntReads("uint", false, n);
    case SInt(n) => IntReads("int", true, n);
    case FixedBytes(n) => FixedBytesRead(n);
    case _ =>
  }

  lemma IntReads(plain: string, signed: bool, n: nat)
    requires 1 <= n <= WORD && plain == if signed then "int" else "uint"
    ensures ScalarNamed(plain + NatText(8 * n)) == Some(if signed then SInt(n) else UInt(n))
  {
    SizeReads(plain, 8 * n);
  }

  lemma FixedBytesRead(n: nat)
    requires 1 <= n <= WORD
    ensures ScalarNamed("bytes" + NatText(n)) == Some(FixedBytes(n))
  {
    SizeReads("bytes", n);
  }

  lemma SizeReads(plain: string, n: nat)
    ensures Behind(plain + NatText(n), plain) == Some(n)
    ensures plain != "" ==> (plain + NatText(n))[0] == plain[0]
    ensures |plain + NatText(n)| > |plain|
    ensures plain == "bytes" ==> plain + NatText(n) != "bool"
  {
    NatTextReads(n);
    assert (plain + NatText(n))[|plain|..] == NatText(n);
    if plain == "bytes" {
      assert (plain + NatText(n))[1] == 'y';
    }
  }

  lemma ScalarChars(ty: Ty)
    requires !Composite(ty)
    ensures var name := ScalarText(ty);
            name != "" && name[0] != '(' && name[0] != ')' && forall i :: 0 <= i < |name| ==> NameChar(name[i])
  {
    match ty
    case UInt(n) => assert AllDigits(NatText(8 * n));
    case SInt(n) => assert AllDigits(NatText(8 * n));
    case FixedBytes(n) => assert AllDigits(NatText(n));
    case _ =>
  }

  /** Reading a spelled-out type stops exactly where it ends, apart from suffixes that follow it. */
  lemma {:induction false} TypeReads(ty: Ty, rest: string)
    requires ValidType(ty) && (rest == "" || !NameChar(rest[0]))
    ensures ReadType(Sighash(ty) + rest) == ReadSuffixes(ty, rest)
    decreases ty, 2
  {
    match ty
    case List(e) => ListReads(e, rest);
    case FixedList(e, k) => FixedListReads(e, k, rest);
    case Tuple(fields) => TupleReads(fields, rest);
    case _ => ScalarTypeReads(ty, rest);
  }

  lemma {:induction false} ListReads(e: Ty, rest: string)
    requires ValidType(e)
    ensures ReadType(Sighash(e) + "[]" + rest) == ReadSuffixes(List(e), rest)
    decreases e, 3
  {
    assert Sighash(e) + "[]" + rest == Sighash(e) + ("[]" + rest);
    TypeReads(e, "[]" + rest);
    ListSuffix(e, rest);
  }

  lemma {:induction false} FixedListReads(e: Ty, k: nat, rest: string)
    requires ValidType(e)
    ensures ReadType(Sighash(e) + "[" + NatText(k) + "]" + rest) == ReadSuffixes(FixedList(e, k), rest)
    decreases e, 3
  {
    var suffix := "[" + NatText(k) + "]" + rest;
    assert Sighash(e) + "[" + NatText(k) + "]" + rest == Sighash(e) + suffix;
    TypeReads(e, suffix);
    FixedSuffix(e, k, rest);
  }

  lemma {:induction false} TupleReads(fields: seq<Ty>, rest: string)
    requires forall i :: 0 <= i < |fields| ==> ValidType(fields[i])
    ensures ReadType("(" + FieldTexts(fields) + ")" + rest) == ReadSuffixes(Tuple(fields), rest)
    decreases fields, 3
  {
    FieldsRead(fields, rest);
    Opens("(" + FieldTexts(fields) + ")" + rest, FieldTexts(fields) + ")" + rest);
  }

  lemma Opens(s: string, body: string)
    requires s == "(" + body
    ensures ReadFields(body).Good? ==> ReadType(s) == ReadSuffixes(Tuple(ReadFields(body).value), ReadFields(body).rest)
  {
    assert s[1..] == body;
  }

  lemma ScalarTypeReads(ty: Ty, rest: string)
    requires !Composite(ty) && ValidType(ty) && (rest == "" || !NameChar(rest[0]))
    ensures ReadType(ScalarText(ty) + rest) == ReadSuffixes(ty, rest)
  {
    var name := ScalarText(ty);
    ScalarReads(ty);
    ScalarChars(ty);
    NameSpanIs(name, rest);
    assert (name + rest)[..|name|] == name && (name + rest)[|name|..] == rest;
  }

  lemma ListSuffix(e: Ty, rest: string)
    ensures ReadSuffixes(e, "[]" + rest) == ReadSuffixes(List(e), rest)
  {
    var s := "[]" + rest;
    assert s[1..] == "]" + rest && s[2..] == rest;
  }

  lemma FixedSuffix(e: Ty, k: nat, rest: string)
    ensures ReadSuffixes(e, "[" + NatText(k) + "]" + rest) == ReadSuffixes(FixedList(e, k), rest)
  {
    var s := "[" + NatText(k) + "]" + rest;
    var digits := NatText(k);
    assert s[1..] == digits + ("]" + rest);
    SpanIs(digits, "]" + rest);
    NatTextReads(k);
    assert s[1..][..|digits|] == digits;
    assert s[1 + |digits|] == ']' && s[2 + |digits|..] == rest;
  }

  lemma {:induction false} FieldsRead(tys: seq<Ty>, rest: string)
    requires forall i :: 0 <= i < |tys| ==> ValidType(tys[i])
    ensures ReadFields(FieldTexts(tys) + ")" + rest) == Good(tys, rest)
    decreases tys, 2
  {
    var s := FieldTexts(tys) + ")" + rest;
    if tys == [] {
      NoFields(s, rest);
    } else {
      MoreRead(tys, rest);
      StartsFields(s, tys, rest);
      NotEmpty(s);
    }
  }

  lemma StartsFields(s: string, tys: seq<Ty>, rest: string)
    requires tys != [] && ValidType(tys[0]) && s == FieldTexts(tys) + ")" + rest
    ensures s != "" && s[0] != ')'
  {
    StartsField(tys, ")" + rest);
    assert s == FieldTexts(tys) + (")" + rest);
  }

  lemma NoFields(s: string, rest: string)
    requires s == ")" + rest
    ensures ReadFields(s) == Good([], rest)
  {
    assert s[1..] == rest;
  }

  lemma NotEmpty(s: string)
    requires s != "" && s[0] != ')'
    ensures ReadFields(s) == ReadMore(s)
  {
  }

  lemma StartsField(tys: seq<Ty>, rest: string)
    requires tys != [] && ValidType(tys[0])
    ensures var s := FieldTexts(tys) + rest; s != "" && s[0] != ')'
  {
    StartsType(tys[0]);
  }

  lemma {:induction false} StartsType(ty: Ty)
    requires ValidType(ty)
    ensures Sighash(ty) != "" && Sighash(ty)[0] != ')'
  {
    match ty
    case List(e) => StartsType(e);
    case FixedList(e, _) => StartsType(e);
    case Tuple(_) =>
    case _ => ScalarChars(ty);
  }

  lemma {:induction false} MoreRead(tys: seq<Ty>, rest: string)
    requires tys != [] && forall i :: 0 <= i < |tys| ==> ValidType(tys[i])
    ensures ReadMore(FieldTexts(tys) + ")" + rest) == Good(tys, rest)
    decreases tys, 1
  {
    var s := FieldTexts(tys) + ")" + rest;
    if |tys| == 1 {
      assert s == Sighash(tys[0]) + (")" + rest);
      TypeReads(tys[0], ")" + rest);
      LastField(s, tys[0], rest);
      assert [tys[0]] == tys;
    } else {
      var tail := FieldTexts(tys[1..]) + ")" + rest;
      assert s == Sighash(tys[0]) + ("," + tail);
      FieldThenMore(s, tys, tail, rest);
    }
  }

  lemma {:induction false} FieldThenMore(s: string, tys: seq<Ty>, tail: string, rest: string)
    requires 2 <= |tys| && forall i :: 0 <= i < |tys| ==> ValidType(tys[i])
    requires s == Sighash(tys[0]) + ("," + tail) && tail == FieldTexts(tys[1..]) + ")" + rest
    ensures ReadMore(s) == Good(tys, rest)
    decreases tys, 0
  {
    TypeReads(tys[0], "," + tail);
    MoreRead(tys[1..], rest);
    NextField(s, tys[0], tail, tys[1..], rest);
    assert [tys[0]] + tys[1..] == tys;
  }

  lemma LastField(s: string, ty: Ty, rest: string)
    requires ReadType(s) == Good(ty, ")" + rest)
    ensures ReadMore(s) == Good([ty], rest)
  {
    assert (")" + rest)[1..] == rest;
  }

  lemma NextField(s: string, ty: Ty, tail: string, more: seq<Ty>, rest: string)
    requires ReadType(s) == Good(ty, "," + tail)
    requires ReadMore(tail) == Good(more, rest)
    ensures ReadMore(s) == Good([ty] + more, rest)
  {
    assert ("," + tail)[1..] == tail;
  }

  /** Two functions with one signature text take the same types. */
  lemma SignatureInjective(name: string, tys: seq<Ty>, other: seq<Ty>)
    requires forall i :: 0 <= i < |tys| ==> ValidType(tys[i])
    requires forall i :: 0 <= i < |other| ==> ValidType(other[i])
    requires FunctionSignature(name, tys) == FunctionSignature(name, other)
    ensures tys == other
  {
    var s, t := FieldTexts(tys) + ")" + "", FieldTexts(other) + ")" + "";
    assert FunctionSignature(name, tys)[|name| + 1..] == s;
    assert FunctionSignature(name, other)[|name| + 1..] == t;
    FieldsRead(tys, "");
    FieldsRead(other, "");
  }
}
