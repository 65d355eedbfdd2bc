/**
 The Safe batch file itself: the text that is written, with each parameter's `type` and `components` as a JSON ABI names
 them, and what a reader of that text gets back.
 */
module BatchFile {
  import opened Common
  import opened Words
  import opened Numerals
  import opened Json
  import opened Documents
  import opened Abi
  import opened Coders
  import opened Signatures
  import opened SafeBatch

  // ------------------------------------------------------------------ parameters

  datatype Suffix = NoSuffix | Unsized(stem: string) | Sized(stem: string, count: nat)

  /** How many digits the text ends with. */
  function DigitTail(s: string): (k: nat)
    ensures k <= |s| && (forall i :: |s| - k <= i < |s| ==> IsDigit(s[i])) && (k < |s| ==> !IsDigit(s[|s| - k - 1]))
  {
    if s == "" || !IsDigit(s[|s| - 1]) then 0 else 1 + DigitTail(s[..|s| - 1])
  }

  /** The last `[]` or `[k]` of a type's name. */
  function SuffixOf(t: string): (r: Suffix)
    ensures !r.NoSuffix? ==> |r.stem| < |t|
  {
    if t == "" || t[|t| - 1] != ']' then NoSuffix
    else
      var s := t[..|t| - 1];
      var k := DigitTail(s);
      if |s| <= k || s[|s| - k - 1] != '[' then NoSuffix
      else if k == 0 then Unsized(s[..|s| - 1]) else Sized(s[..|s| - k - 1], NatOf(s[|s| - k..]))
  }

  /** The type a parameter's `type` and `components` describe. */
  function TypeOf(d: Doc): Option<Ty>
    decreases d, 2, 0
  {
    match TextAt(d, "type")
    case None => None
    case Some(t) => TypeNamed(t, d)
  }

  function TypeNamed(t: string, d: Doc): Option<Ty>
    decreases d, 1, |t|
  {
    match SuffixOf(t)
    case Unsized(stem) =>
      (match TypeNamed(stem, d)
       case None => None
       case Some(e) => Some(List(e)))
    case Sized(stem, k) =>
      (match TypeNamed(stem, d)
       case None => None
       case Some(e) => Some(FixedList(e, k)))
    case NoSuffix => if t == "tuple" then TupleOf(d) else ScalarNamed(t)
  }

  function TupleOf(d: Doc): Option<Ty>
    decreases d, 0, 0
  {
    match Get(d, "components")
    case Some(Items(cs)) =>
      (match TypesOf(cs)
       case None => None
       case Some(tys) => Some(Tuple(tys)))
    case _ => None
  }

  function TypesOf(ds: seq<Doc>): Option<seq<Ty>>
    decreases ds, 0, 0
  {
    if ds == [] then Some([])
    else
      var first := TypeOf(ds[0]);
      var rest := TypesOf(ds[1..]);
      if first.Some? && rest.Some? then Some([first.value] + rest.value) else None
  }

  function InputOf(d: Doc): Option<Input> {
    var name := TextAt(d, "name");
    var ty := TypeOf(d);
    if name.Some? && ty.Some? then Some(Input(name.value, ty.value)) else None
  }

  function InputsOf(ds: seq<Doc>): Option<seq<Input>> {
    if ds == [] then Some([])
    else
      var first := InputOf(ds[0]);
      var rest := InputsOf(ds[1..]);
      if first.Some? && rest.Some? then Some([first.value] + rest.value) else None
  }

  function Kept(d: Doc, key: string): (fields: seq<Field>)
    ensures forall other :: Last(fields, other) == if other == key then Get(d, key) else None
  {
    if Get(d, key).Some? then
      var f := Field(key, Get(d, key).value);
      assert forall other :: Last([f], other) == if other == key then Some(f.value) else None by {
        forall other { LastOne(f, other); }
      }
      [f]
    else []
  }

  /** What the printer keeps of an artifact's parameter. */
  function BuilderInput(d: Doc): Doc
    decreases d, 2
  {
    Fields(OwnFields(d) + PrintedComponents(d))
  }

  function OwnFields(d: Doc): seq<Field> { Kept(d, "internalType") + Kept(d, "name") + Kept(d, "type") }

  function PrintedComponents(d: Doc): seq<Field>
    decreases d, 1
  {
    match Get(d, "components")
    case Some(Items(cs)) => [Field("components", Items(BuilderInputs(cs)))]
    case _ => []
  }

  function BuilderInputs(ds: seq<Doc>): (r: seq<Doc>)
    ensures |r| == |ds|
    decreases ds, 0
  {
    if ds == [] then [] else [BuilderInput(ds[0])] + BuilderInputs(ds[1..])
  }

  lemma OwnFieldsKept(d: Doc, key: string)
    ensures Last(OwnFields(d), key)
            == if key == "internalType" || key == "name" || key == "type" then Get(d, key) else None
  {
    LastConcat(Kept(d, "internalType"), Kept(d, "name"), key);
    LastConcat(Kept(d, "internalType") + Kept(d, "name"), Kept(d, "type"), key);
  }

  lemma ComponentsPrinted(d: Doc, key: string)
    ensures key != "components" ==> Last(PrintedComponents(d), key).None?
    ensures match Get(d, "components")
            case Some(Items(cs)) => Last(PrintedComponents(d), "components") == Some(Items(BuilderInputs(cs)))
            case _ => Last(PrintedComponents(d), "components").None?
  {
    match Get(d, "components")
    case Some(Items(cs)) =>
      LastOne(Field("components", Items(BuilderInputs(cs))), key);
      LastOne(Field("components", Items(BuilderInputs(cs))), "components");
    case _ =>
  }

  lemma BuilderField(d: Doc, key: string)
    requires key == "name" || key == "type"
    ensures Get(BuilderInput(d), key) == Get(d, key)
  {
    LastConcat(OwnFields(d), PrintedComponents(d), key);
    OwnFieldsKept(d, key);
    ComponentsPrinted(d, key);
  }

  lemma BuilderComponents(d: Doc)
    ensures Get(BuilderInput(d), "components") == Last(PrintedComponents(d), "components")
  {
    LastConcat(OwnFields(d), PrintedComponents(d), "components");
    OwnFieldsKept(d, "components");
  }

  /** Dropping an artifact's other fields loses nothing: the printed parameter describes the same type. */
  lemma {:induction false} BuilderKeepsType(d: Doc)
    ensures TypeOf(BuilderInput(d)) == TypeOf(d)
    decreases d, 2, 0
  {
    BuilderField(d, "type");
    match TextAt(d, "type")
    case None =>
    case Some(t) => BuilderKeepsNamed(t, d);
  }

  lemma {:induction false} BuilderKeepsNamed(t: string, d: Doc)
    ensures TypeNamed(t, BuilderInput(d)) == TypeNamed(t, d)
    decreases d, 1, |t|
  {
    match SuffixOf(t)
    case Unsized(stem) => BuilderKeepsNamed(stem, d);
    case Sized(stem, _) => BuilderKeepsNamed(stem, d);
    case NoSuffix => BuilderKeepsTuple(d);
  }

  lemma {:induction false} BuilderKeepsTuple(d: Doc)
    ensures TupleOf(BuilderInput(d)) == TupleOf(d)
    decreases d, 0, 0
  {
    BuilderComponents(d);
    ComponentsPrinted(d, "components");
    match Get(d, "components")
    case Some(Items(cs)) => BuilderKeepsTypes(cs);
    case _ =>
  }

  lemma {:induction false} BuilderKeepsTypes(ds: seq<Doc>)
    ensures TypesOf(BuilderInputs(ds)) == TypesOf(ds)
    decreases ds, 0, 0
  {
    if ds != [] {
      BuilderKeepsType(ds[0]);
      BuilderKeepsTypes(ds[1..]);
    }
  }

  lemma BuilderKeepsInput(d: Doc)
    ensures InputOf(BuilderInput(d)) == InputOf(d)
  {
    BuilderField(d, "name");
    BuilderKeepsType(d);
  }

  lemma {:induction false} BuilderKeepsInputs(ds: seq<Doc>)
    ensures InputsOf(BuilderInputs(ds)) == InputsOf(ds)
  {
    if ds != [] {
      BuilderKeepsInput(ds[0]);
      BuilderKeepsInputs(ds[1..]);
      assert BuilderInputs(ds)[0] == BuilderInput(ds[0]) && BuilderInputs(ds)[1..] == BuilderInputs(ds[1..]);
    }
  }

  /** The script tells tuples and arrays by the type's text; that text says what the described type says. */
  lemma TextTells(t: string, d: Doc)
    requires TypeNamed(t, d).Some?
    ensures "tuple" <= t || (t != "" && t[|t| - 1] == ']') <==> IsComposite(TypeNamed(t, d).value)
  {
    CompositeByText(TypeNamed(t, d).value);
    if SuffixOf(t).NoSuffix? && t != "tuple" {
      NamedScalar(t);
    }
  }

  lemma NamedScalar(t: string)
    requires ScalarNamed(t).Some?
    ensures t != "" && t[0] != 't' && t[|t| - 1] != ']' && !Composite(ScalarNamed(t).value)
  {
    if t[0] == 'u' {
      SizedEnd(t, "uint");
    } else if t[0] == 'i' {
      SizedEnd(t, "int");
    } else if t[0] == 'b' && t != "bool" && t != "bytes" {
      SizedEnd(t, "bytes");
    }
  }

  lemma SizedEnd(t: string, plain: string)
    requires Behind(t, plain).Some?
    ensures t != "" && t[|t| - 1] != ']'
  {
    var digits := t[|plain|..];
    assert digits[|digits| - 1] == t[|t| - 1];
  }

  // ------------------------------------------------------------------ every type has such a parameter

  /** The fields of the tuple a type is made of, if any. */
  function Components(ty: Ty): Option<seq<Ty>> {
    match ty
    case List(e) => Components(e)
    case FixedList(e, _) => Components(e)
    case Tuple(fields) => Some(fields)
    case _ => None
  }

  /** A parameter as an artifact names it. */
  function ParamOf(name: string, ty: Ty): Doc
    decreases ty, 1
  {
    var own := [Field("name", Leaf(JStr(name)))] + [Field("type", Leaf(JStr(TypeText(ty))))];
    Fields(own + ComponentField(ty))
  }

  function ComponentField(ty: Ty): seq<Field>
    decreases ty, 0
  {
    match ty
    case List(e) => ComponentField(e)
    case FixedList(e, _) => ComponentField(e)
    case Tuple(fields) => [Field("components", Items(ParamsOf(fields)))]
    case _ => []
  }

  function ParamsOf(tys: seq<Ty>): seq<Doc>
    decreases tys, 0
  {
    if tys == [] then [] else [ParamOf("", tys[0])] + ParamsOf(tys[1..])
  }

  lemma {:induction false} ComponentsFound(ty: Ty)
    ensures Last(ComponentField(ty), "components")
            == (match Components(ty) case Some(fields) => Some(Items(ParamsOf(fields))) case None => None)
    ensures Last(ComponentField(ty), "name").None? && Last(ComponentField(ty), "type").None?
  {
    match ty
    case List(e) => ComponentsFound(e);
    case FixedList(e, _) => ComponentsFound(e);
    case Tuple(fields) =>
      LastOne(Field("components", Items(ParamsOf(fields))), "components");
      LastOne(Field("components", Items(ParamsOf(fields))), "name");
      LastOne(Field("components", Items(ParamsOf(fields))), "type");
    case _ =>
  }

  lemma ParamFields(name: string, ty: Ty, key: string)
    requires key == "name" || key == "type" || key == "components"
    ensures Get(ParamOf(name, ty), key)
            == if key == "name" then Some(Leaf(JStr(name)))
               else if key == "type" then Some(Leaf(JStr(TypeText(ty))))
               else Last(ComponentField(ty), "components")
  {
    var a, b := Field("name", Leaf(JStr(name))), Field("type", Leaf(JStr(TypeText(ty))));
    ComponentsFound(ty);
    LastOne(a, key);
    LastOne(b, key);
    LastConcat([a], [b], key);
    LastConcat([a] + [b], ComponentField(ty), key);
  }

  lemma {:induction false} DigitTailIs(stem: string, digits: string)
    requires AllDigits(digits) && (stem == "" || !IsDigit(stem[|stem| - 1]))
    ensures DigitTail(stem + digits) == |digits|
  {
    if digits == "" {
      assert stem + digits == stem;
    } else {
      var n := |digits| - 1;
      assert (stem + digits)[..|stem + digits| - 1] == stem + digits[..n];
      DigitTailIs(stem, digits[..n]);
    }
  }

  lemma UnsizedSuffix(stem: string)
    ensures SuffixOf(stem + "[]") == Unsized(stem)
  {
    var s := stem + "[";
    assert (stem + "[]")[..|s|] == s;
    assert s[|s| - 1] == '[' && DigitTail(s) == 0;
    assert s[..|stem|] == stem;
  }

  lemma UnsizedReads(stem: string, d: Doc)
    ensures TypeNamed(stem + "[]", d) == if TypeNamed(stem, d).Some? then Some(List(TypeNamed(stem, d).value)) else None
  {
    UnsizedSuffix(stem);
  }

  lemma SizedSuffix(stem: string, digits: string)
    requires digits != "" && AllDigits(digits)
    ensures SuffixOf(stem + "[" + digits + "]") == Sized(stem, NatOf(digits))
  {
    var s := stem + "[" + digits;
    assert (s + "]")[..|s|] == s;
    DigitTailIs(stem + "[", digits);
    assert s[|stem| + 1..] == digits && s[..|stem|] == stem;
  }

  lemma SizedReads(stem: string, k: nat, d: Doc)
    ensures TypeNamed(stem + "[" + NatText(k) + "]", d)
            == if TypeNamed(stem, d).Some? then Some(FixedList(TypeNamed(stem, d).value, k)) else None
  {
    SizedSuffix(stem, NatText(k));
    NatTextReads(k);
  }

  lemma {:induction false} NamedReads(ty: Ty, d: Doc)
    requires ValidType(ty)
    requires match Components(ty)
             case Some(fields) => Get(d, "components") == Some(Items(ParamsOf(fields)))
             case None => true
    ensures TypeNamed(TypeText(ty), d) == Some(ty)
    decreases ty, 1
  {
    match ty
    case List(e) =>
      UnsizedReads(TypeText(e), d);
      NamedReads(e, d);
    case FixedList(e, k) =>
      SizedReads(TypeText(e), k, d);
      NamedReads(e, d);
    case Tuple(fields) => ParamsDescribe(fields);
    case _ => ScalarNameReads(ty, d);
  }

  lemma ScalarNameReads(ty: Ty, d: Doc)
    requires ValidType(ty) && !Composite(ty)
    ensures TypeNamed(TypeText(ty), d) == Some(ty)
  {
    ScalarReads(ty);
    NamedScalar(ScalarText(ty));
    assert "tuple"[0] == 't';
  }

  lemma {:induction false} ParamsDescribe(tys: seq<Ty>)
    requires forall i :: 0 <= i < |tys| ==> ValidType(tys[i])
    ensures TypesOf(ParamsOf(tys)) == Some(tys)
    decreases tys, 0
  {
    if tys != [] {
      ParamTypeReads("", tys[0]);
      ParamsDescribe(tys[1..]);
      assert [tys[0]] + tys[1..] == tys;
    }
  }

  lemma {:induction false} ParamTypeReads(name: string, ty: Ty)
    requires ValidType(ty)
    ensures TypeOf(ParamOf(name, ty)) == Some(ty)
    decreases ty, 2
  {
    ParamFields(name, ty, "type");
    ParamFields(name, ty, "components");
    ComponentsFound(ty);
    NamedReads(ty, ParamOf(name, ty));
  }

  /** Every valid type, nested however, can be described by `type` and `components`, and is read back from them. */
  lemma ParamDescribes(name: string, ty: Ty)
    requires ValidType(ty)
    ensures InputOf(ParamOf(name, ty)) == Some(Input(name, ty))
  {
    ParamFields(name, ty, "name");
    ParamTypeReads(name, ty);
  }

  // ------------------------------------------------------------------ a transaction in the file

  function HexText(bs: seq<Byte>): string {
    if bs == [] then "" else [HexChar(bs[0] / 16), HexChar(bs[0] % 16)] + HexText(bs[1..])
  }

  lemma {:induction false} HexReads(bs: seq<Byte>)
    ensures AllHex(HexText(bs)) && |HexText(bs)| % 2 == 0 && HexPairs(HexText(bs)) == bs
  {
    if bs != [] {
      HexReads(bs[1..]);
      assert HexText(bs)[2..] == HexText(bs[1..]);
      assert [bs[0]] + bs[1..] == bs;
    }
  }

  function DataText(bs: seq<Byte>): string { "0x" + HexText(bs) }

  lemma DataReads(bs: seq<Byte>)
    ensures BytesOf(JStr(DataText(bs))) == Some(bs)
  {
    HexReads(bs);
    assert DataText(bs)[2..] == HexText(bs);
  }

  /** What is printed beside a transaction: its target's text, the artifact's parameters and the order of the values. */
  datatype Sheet = Sheet(to: string, params: seq<Doc>, names: seq<string>)

  predicate Prints(sheet: Sheet, tx: Tx) {
    AddressOf(sheet.to) == Some(tx.to) && InputsOf(sheet.params) == Some(tx.inputs)
    && (forall name :: name in sheet.names ==> name in tx.shown)
    && forall name :: name in tx.shown ==> name in sheet.names && tx.shown[name].JStr?
  }

  function ValueFields(shown: map<string, Js>, names: seq<string>): seq<Field>
    requires forall name :: name in names ==> name in shown && shown[name].JStr?
  {
    if names == [] then []
    else
      var n := |names| - 1;
      ValueFields(shown, names[..n]) + [Field(names[n], Leaf(shown[names[n]]))]
  }

  function ShownOf(fields: seq<Field>): Option<map<string, Js>> {
    if fields == [] then Some(map[])
    else
      var f := fields[|fields| - 1];
      match ShownOf(fields[..|fields| - 1])
      case None => None
      case Some(before) => if f.value.Leaf? then Some(before[f.key := f.value.value]) else None
  }

  lemma {:induction false} ShownReads(shown: map<string, Js>, names: seq<string>)
    requires forall name :: name in names ==> name in shown && shown[name].JStr?
    ensures ShownOf(ValueFields(shown, names)).Some?
    ensures var read := ShownOf(ValueFields(shown, names)).value;
            forall name :: (name in read <==> name in names) && (name in read ==> read[name] == shown[name])
  {
    if names != [] {
      var n := |names| - 1;
      ShownReads(shown, names[..n]);
      var fields := ValueFields(shown, names);
      assert fields[..|fields| - 1] == ValueFields(shown, names[..n]);
      assert names == names[..n] + [names[n]];
    }
  }

  const METHOD_KEYS: seq<string> := ["inputs", "name", "payable"]

  const TX_KEYS: seq<string> := ["to", "value", "data", "contractMethod", "contractInputsValues"]

  function MethodDoc(tx: Tx, sheet: Sheet): Doc {
    Record(METHOD_KEYS, [Items(BuilderInputs(sheet.params)), Leaf(JStr(tx.fn)), Leaf(JBool(tx.payable))])
  }

  function TxDoc(tx: Tx, sheet: Sheet): Doc
    requires Prints(sheet, tx)
  {
    Record(TX_KEYS, [ Leaf(JStr(sheet.to)), Leaf(JStr(tx.value)), Leaf(JStr(DataText(tx.data))),
                      MethodDoc(tx, sheet), Fields(ValueFields(tx.shown, sheet.names)) ])
  }

  datatype Method = Method(fn: string, inputs: seq<Input>, payable: bool)

  /** JavaScript's truth of a field. */
  predicate Truth(d: Doc, key: string) {
    match Get(d, key)
    case None => false
    case Some(Leaf(j)) => Truthy(j)
    case _ => true
  }

  function MethodOf(d: Doc): Option<Method> {
    var name, inputs := TextAt(d, "name"), Get(d, "inputs");
    if name.None? || inputs.None? || !inputs.value.Items? then None
    else
      match InputsOf(inputs.value.items)
      case None => None
      case Some(ins) => Some(Method(name.value, ins, Truth(d, "payable")))
  }

  lemma MethodGets(inputs: Doc, name: Doc, payable: Doc)
    ensures var d := Record(METHOD_KEYS, [inputs, name, payable]);
            Get(d, "inputs") == Some(inputs) && Get(d, "name") == Some(name) && Get(d, "payable") == Some(payable)
  {
    RecordGet(METHOD_KEYS, [inputs, name, payable], 0);
    RecordGet(METHOD_KEYS, [inputs, name, payable], 1);
    RecordGet(METHOD_KEYS, [inputs, name, payable], 2);
  }

  lemma MethodReads(tx: Tx, sheet: Sheet)
    requires InputsOf(sheet.params) == Some(tx.inputs)
    ensures MethodOf(MethodDoc(tx, sheet)) == Some(Method(tx.fn, tx.inputs, tx.payable))
  {
    var params := BuilderInputs(sheet.params);
    MethodGets(Items(params), Leaf(JStr(tx.fn)), Leaf(JBool(tx.payable)));
    BuilderKeepsInputs(sheet.params);
    MethodAssembled(MethodDoc(tx, sheet), params, tx.fn, tx.inputs, tx.payable);
  }

  lemma MethodAssembled(d: Doc, params: seq<Doc>, fn: string, inputs: seq<Input>, payable: bool)
    requires Get(d, "inputs") == Some(Items(params)) && InputsOf(params) == Some(inputs)
    requires Get(d, "name") == Some(Leaf(JStr(fn))) && Get(d, "payable") == Some(Leaf(JBool(payable)))
    ensures MethodOf(d) == Some(Method(fn, inputs, payable))
  {
  }

  function ValuesOf(d: Doc): Option<map<string, Js>> { if d.Fields? then ShownOf(d.fields) else None }

  function TxOf(d: Doc): Option<Tx> {
    var to, value, data := TextAt(d, "to"), TextAt(d, "value"), TextAt(d, "data");
    var inside, values := Get(d, "contractMethod"), Get(d, "contractInputsValues");
    if to.None? || value.None? || data.None? || inside.None? || values.None? then None
    else
      var target, bytes := AddressOf(to.value), BytesOf(JStr(data.value));
      var m, shown := MethodOf(inside.value), ValuesOf(values.value);
      if target.None? || bytes.None? || m.None? || shown.None? then None
      else
        Some(Tx(target.value, value.value, bytes.value, m.value.fn, m.value.inputs, m.value.payable, shown.value))
  }

  lemma TxGets(to: Doc, value: Doc, data: Doc, inside: Doc, values: Doc)
    ensures var d := Record(TX_KEYS, [to, value, data, inside, values]);
            Get(d, "to") == Some(to) && Get(d, "value") == Some(value) && Get(d, "data") == Some(data)
            && Get(d, "contractMethod") == Some(inside) && Get(d, "contractInputsValues") == Some(values)
  {
    var docs := [to, value, data, inside, values];
    RecordGet(TX_KEYS, docs, 0);
    RecordGet(TX_KEYS, docs, 1);
    RecordGet(TX_KEYS, docs, 2);
    RecordGet(TX_KEYS, docs, 3);
    RecordGet(TX_KEYS, docs, 4);
  }

  lemma TxAssembled(d: Doc, tx: Tx, to: string, inside: Doc, values: Doc)
    requires TextAt(d, "to") == Some(to) && AddressOf(to) == Some(tx.to) && TextAt(d, "value") == Some(tx.value)
    requires TextAt(d, "data") == Some(DataText(tx.data))
    requires Get(d, "contractMethod") == Some(inside) && Get(d, "contractInputsValues") == Some(values)
    requires MethodOf(inside) == Some(Method(tx.fn, tx.inputs, tx.payable)) && ValuesOf(values) == Some(tx.shown)
    ensures TxOf(d) == Some(tx)
  {
    DataReads(tx.data);
  }

  lemma TxReads(tx: Tx, sheet: Sheet)
    requires Prints(sheet, tx)
    ensures TxOf(TxDoc(tx, sheet)) == Some(tx)
  {
    var inside, values := MethodDoc(tx, sheet), Fields(ValueFields(tx.shown, sheet.names));
    TxGets(Leaf(JStr(sheet.to)), Leaf(JStr(tx.value)), Leaf(JStr(DataText(tx.data))), inside, values);
    MethodReads(tx, sheet);
    ValuesRead(tx, sheet);
    TxAssembled(TxDoc(tx, sheet), tx, sheet.to, inside, values);
  }

  lemma SameMap(a: map<string, Js>, b: map<string, Js>)
    requires forall name :: (name in a <==> name in b) && (name in a ==> a[name] == b[name])
    ensures a == b
  {
  }

  lemma ValuesRead(tx: Tx, sheet: Sheet)
    requires Prints(sheet, tx)
    ensures ValuesOf(Fields(ValueFields(tx.shown, sheet.names))) == Some(tx.shown)
  {
    ShownReads(tx.shown, sheet.names);
    SameMap(ShownOf(ValueFields(tx.shown, sheet.names)).value, tx.shown);
  }

  // ------------------------------------------------------------------ the file

  datatype Head = Head(name: string, description: string, createdAt: SafeInt)

  predicate AllPrint(sheets: seq<Sheet>, txs: seq<Tx>) {
    |sheets| == |txs| && forall i :: 0 <= i < |txs| ==> Prints(sheets[i], txs[i])
  }

  function TxDocs(txs: seq<Tx>, sheets: seq<Sheet>): seq<Doc>
    requires AllPrint(sheets, txs)
  {
    if txs == [] then [] else [TxDoc(txs[0], sheets[0])] + TxDocs(txs[1..], sheets[1..])
  }

  function TxsOf(ds: seq<Doc>): Option<seq<Tx>> {
    if ds == [] then Some([])
    else
      var first := TxOf(ds[0]);
      var rest := TxsOf(ds[1..]);
      if first.Some? && rest.Some? then Some([first.value] + rest.value) else None
  }

  lemma {:induction false} TxsRead(txs: seq<Tx>, sheets: seq<Sheet>)
    requires AllPrint(sheets, txs)
    ensures TxsOf(TxDocs(txs, sheets)) == Some(txs)
  {
    if txs != [] {
      TxReads(txs[0], sheets[0]);
      TxsRead(txs[1..], sheets[1..]);
      NextTx(TxDoc(txs[0], sheets[0]), TxDocs(txs[1..], sheets[1..]), txs);
    }
  }

  lemma NextTx(d: Doc, ds: seq<Doc>, txs: seq<Tx>)
    requires txs != [] && TxOf(d) == Some(txs[0]) && TxsOf(ds) == Some(txs[1..])
    ensures TxsOf([d] + ds) == Some(txs)
  {
    assert [txs[0]] + txs[1..] == txs && ([d] + ds)[1..] == ds;
  }

  const META_KEYS: seq<string> := ["name", "description", "txBuilderVersion"]

  const FILE_KEYS: seq<string> := ["version", "chainId", "createdAt", "meta", "transactions"]

  function MetaDoc(head: Head): Doc {
    Record(META_KEYS, [Leaf(JStr(head.name)), Leaf(JStr(head.description)), Leaf(JStr("1.16.5"))])
  }

  function FileDoc(head: Head, chainId: string, txs: seq<Tx>, sheets: seq<Sheet>): Doc
    requires AllPrint(sheets, txs)
  {
    Record(FILE_KEYS, [ Leaf(JStr("1.0")), Leaf(JStr(chainId)), Leaf(JNum(head.createdAt)), MetaDoc(head),
                        Items(TxDocs(txs, sheets)) ])
  }

  /** The text the script writes. */
  function FileText(head: Head, chainId: string, txs: seq<Tx>, sheets: seq<Sheet>): string
    requires AllPrint(sheets, txs)
  {
    Print(FileDoc(head, chainId, txs, sheets), 0) + "\n"
  }

  function BatchOf(d: Doc): Option<Batch> {
    var chainId, txs := TextAt(d, "chainId"), Get(d, "transactions");
    var meta := Get(d, "meta");
    if chainId.None? || txs.None? || !txs.value.Items? then None
    else
      match TxsOf(txs.value.items)
      case None => None
      case Some(ts) => Some(Batch(chainId.value, meta.Some? && Truth(meta.value, "checksum"), ts))
  }

  function ReadBatch(text: string): Option<Batch> {
    match ParseDoc(text)
    case None => None
    case Some(d) => BatchOf(d)
  }

  lemma FileGets(version: Doc, chainId: Doc, createdAt: Doc, meta: Doc, txs: Doc)
    ensures var d := Record(FILE_KEYS, [version, chainId, createdAt, meta, txs]);
            Get(d, "chainId") == Some(chainId) && Get(d, "meta") == Some(meta) && Get(d, "transactions") == Some(txs)
  {
    var docs := [version, chainId, createdAt, meta, txs];
    RecordGet(FILE_KEYS, docs, 1);
    RecordGet(FILE_KEYS, docs, 3);
    RecordGet(FILE_KEYS, docs, 4);
  }

  lemma NoChecksum(head: Head)
    ensures !Truth(MetaDoc(head), "checksum")
  {
    LastMissing(MetaDoc(head).fields, "checksum");
  }

  /** The written text, objects and all, is read back as the batch that was built: types, names, values and data. */
  lemma FileReadsBack(head: Head, chainId: string, txs: seq<Tx>, sheets: seq<Sheet>)
    requires AllPrint(sheets, txs)
    ensures ReadBatch(FileText(head, chainId, txs, sheets)) == Some(Batch(chainId, false, txs))
  {
    FileReads(FileDoc(head, chainId, txs, sheets));
    BatchReads(head, chainId, txs, sheets);
  }

  lemma BatchReads(head: Head, chainId: string, txs: seq<Tx>, sheets: seq<Sheet>)
    requires AllPrint(sheets, txs)
    ensures BatchOf(FileDoc(head, chainId, txs, sheets)) == Some(Batch(chainId, false, txs))
  {
    FileGets(Leaf(JStr("1.0")), Leaf(JStr(chainId)), Leaf(JNum(head.createdAt)), MetaDoc(head),
             Items(TxDocs(txs, sheets)));
    TxsRead(txs, sheets);
    NoChecksum(head);
  }

  // ------------------------------------------------------------------ checking a file

  /** What it takes for a file to pass the check. */
  predicate FilePasses(selector: Selector, text: string, chainId: nat, expectedTo: Option<nat>, allowValue: bool) {
    match ReadBatch(text)
    case None => false
    case Some(batch) =>
      batch.chainId == NatText(chainId) && !batch.checksum
      && NoComplaint(selector, batch.txs, expectedTo, allowValue)
  }

  predicate NoComplaint(selector: Selector, txs: seq<Tx>, expectedTo: Option<nat>, allowValue: bool) {
    forall i :: 0 <= i < |txs| ==> TxComplaint(selector, txs[i], expectedTo, allowValue).None?
  }

  method VerifyBatchFile(selector: Selector, text: string, chainId: nat, expectedTo: Option<nat>, allowValue: bool)
    returns (r: Option<Complaint>)
    ensures r.None? <==> FilePasses(selector, text, chainId, expectedTo, allowValue)
  {
    var batch := ReadBatch(text);
    if batch.None? {
      return Some(Unreadable);
    }
    r := VerifyBatch(selector, batch.value, chainId, expectedTo, allowValue);
  }

  /** The values of a built transaction are all texts. */
  lemma {:induction false} ShownTexts(inputs: seq<Input>, texts: seq<string>, n: nat)
    requires n <= |inputs| == |texts|
    ensures forall name :: name in Shown(inputs, texts, n) ==> Shown(inputs, texts, n)[name].JStr?
  {
    if 0 < n {
      ShownTexts(inputs, texts, n - 1);
    }
  }

  /**
   The file written for a built batch passes its own check exactly when every transaction goes to an allowed target with
   an allowed value and every argument it shows reads back as what was encoded.
   */
  lemma WrittenFilePasses(abis: map<string, seq<Fragment>>, selector: Selector, chainId: nat, calls: seq<Call>,
                          txs: seq<Tx>, head: Head, sheets: seq<Sheet>, expectedTo: Option<nat>, allowValue: bool)
    requires BuildAll(Builder(abis, selector), calls, |calls|) == Made(txs) && AllPrint(sheets, txs)
    requires forall i :: 0 <= i < |txs| ==> ValidInputs(txs[i].inputs) && Fits(|txs[i].data|, WORD)
    ensures |txs| == |calls| && forall i :: 0 <= i < |txs| ==> |txs[i].inputs| == |calls[i].args|
    ensures FilePasses(selector, FileText(head, NatText(chainId), txs, sheets), chainId, expectedTo, allowValue)
            <==> forall i :: 0 <= i < |txs| ==>
                   (expectedTo.None? || expectedTo.value == txs[i].to) && (calls[i].value == 0 || allowValue) &&
                   AllKept(txs[i].inputs, calls[i].args)
  {
    BuildAllMeans(Builder(abis, selector), calls, |calls|);
    WrittenPasses(selector, chainId, txs, head, sheets, expectedTo, allowValue);
    forall i | 0 <= i < |txs|
      ensures |txs[i].inputs| == |calls[i].args|
      ensures TxComplaint(selector, txs[i], expectedTo, allowValue).None?
              <==> (expectedTo.None? || expectedTo.value == txs[i].to) && (calls[i].value == 0 || allowValue) &&
                   AllKept(txs[i].inputs, calls[i].args)
    {
      assert Builder(abis, selector)(calls[i]) == Made(txs[i]);
      BuiltAccepted(abis, selector, calls[i], txs[i], expectedTo, allowValue);
    }
  }

  lemma WrittenPasses(selector: Selector, chainId: nat, txs: seq<Tx>, head: Head, sheets: seq<Sheet>,
                      expectedTo: Option<nat>, allowValue: bool)
    requires AllPrint(sheets, txs)
    ensures FilePasses(selector, FileText(head, NatText(chainId), txs, sheets), chainId, expectedTo, allowValue)
            <==> NoComplaint(selector, txs, expectedTo, allowValue)
  {
    FileReadsBack(head, NatText(chainId), txs, sheets);
  }

  /** Calls without value, with distinct parameter names and bools given as bools, make a file that passes. */
  lemma PlainFilePasses(abis: map<string, seq<Fragment>>, selector: Selector, chainId: nat, calls: seq<Call>,
                        txs: seq<Tx>, head: Head, sheets: seq<Sheet>)
    requires BuildAll(Builder(abis, selector), calls, |calls|) == Made(txs) && AllPrint(sheets, txs)
    requires |txs| == |calls| && forall i :: 0 <= i < |calls| ==> PlainCall(calls[i], txs[i])
    ensures FilePasses(selector, FileText(head, NatText(chainId), txs, sheets), chainId, None, false)
  {
    WrittenPasses(selector, chainId, txs, head, sheets, None, false);
    PlainBatchPasses(abis, selector, calls, txs);
  }
}
