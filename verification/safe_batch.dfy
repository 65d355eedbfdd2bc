/**
 Safe transaction batches: `BuildBatch` encodes each call and prints its arguments for the signers, `VerifyBatch` reads
 the printed arguments back, encodes them again and compares. `Selector` stands for the hash the four-byte selector is
 cut from.
 */
module SafeBatch {
  import opened Common
  import opened Words
  import opened Numerals
  import opened Json
  import opened Abi
  import opened Coders
  import opened Signatures

  type FourBytes = s: seq<Byte> | |s| == 4 witness [0, 0, 0, 0]

  type Selector = string -> FourBytes

  datatype Input = Input(name: string, ty: Ty)

  datatype Fragment = Fragment(isFunction: bool, name: string, inputs: seq<Input>, payable: bool)

  datatype Call = Call(contract: string, target: string, fn: string, args: seq<Js>, value: int)

  datatype Tx = Tx(to: nat, value: string, data: seq<Byte>, fn: string, inputs: seq<Input>, payable: bool,
                   shown: map<string, Js>)

  datatype Batch = Batch(chainId: string, checksum: bool, txs: seq<Tx>)

  datatype Why = NoArtifact | NoFunction | WrongCount | BadArguments | NegativeValue | NotPayable | BadAddress

  datatype Made<T> = Made(value: T) | Refused(why: Why)

  datatype Complaint = WrongChain | HasChecksum | WrongTarget | CarriesValue | Unreadable | DataMismatch

  function Types(inputs: seq<Input>): (tys: seq<Ty>)
    ensures |tys| == |inputs|
  {
    if inputs == [] then [] else [inputs[0].ty] + Types(inputs[1..])
  }

  lemma {:induction false} TypesAt(inputs: seq<Input>, i: nat)
    requires i < |inputs|
    ensures Types(inputs)[i] == inputs[i].ty
  {
    if 0 < i {
      TypesAt(inputs[1..], i - 1);
    }
  }

  /** The types as the human-readable signature gives them. */
  function SignatureTypes(inputs: seq<Input>): Option<seq<Ty>> {
    if inputs == [] then Some([])
    else
      var first := ReadType(Sighash(inputs[0].ty));
      var rest := SignatureTypes(inputs[1..]);
      if first.Good? && first.rest == "" && rest.Some? then Some([first.value] + rest.value) else None
  }

  predicate ValidInputs(inputs: seq<Input>) { forall i :: 0 <= i < |inputs| ==> ValidType(inputs[i].ty) }

  lemma {:induction false} SignatureKeepsTypes(inputs: seq<Input>)
    requires ValidInputs(inputs)
    ensures SignatureTypes(inputs) == Some(Types(inputs))
  {
    if inputs != [] {
      var ty := inputs[0].ty;
      TypeReads(ty, "");
      assert Sighash(ty) + "" == Sighash(ty);
      SignatureKeepsTypes(inputs[1..]);
      assert Types(inputs) == [ty] + Types(inputs[1..]);
    }
  }

  function Data(selector: Selector, fn: string, tys: seq<Ty>, vs: seq<Val>): seq<Byte>
    requires AllWellTyped(tys, vs)
  {
    selector(FunctionSignature(fn, tys)) + EncAll(tys, vs)
  }

  function Encode(selector: Selector, fn: string, tys: seq<Ty>, args: seq<Js>): Option<seq<Byte>> {
    match CoerceAll(tys, args)
    case None => None
    case Some(vs) => Some(Data(selector, fn, tys, vs))
  }

  /** Encoding once more, by the signature with its tuples spelled out, never disagrees. */
  lemma ReencodingAgrees(selector: Selector, fn: string, inputs: seq<Input>, args: seq<Js>)
    requires ValidInputs(inputs)
    ensures SignatureTypes(inputs).Some?
    ensures Encode(selector, fn, SignatureTypes(inputs).value, args) == Encode(selector, fn, Types(inputs), args)
  {
    SignatureKeepsTypes(inputs);
  }

  // ------------------------------------------------------------------ printing

  function FindFunction(abi: seq<Fragment>, fn: string): Option<Fragment> {
    if abi == [] then None
    else if abi[0].isFunction && abi[0].name == fn then Some(abi[0])
    else FindFunction(abi[1..], fn)
  }

  function BuilderValue(ty: Ty, arg: Js): string {
    if !IsComposite(ty) then StringOf(arg) else Stringify(arg)
  }

  function Printed(inputs: seq<Input>, args: seq<Js>): (texts: seq<string>)
    requires |inputs| == |args|
    ensures |texts| == |args|
  {
    if args == [] then [] else [BuilderValue(inputs[0].ty, args[0])] + Printed(inputs[1..], args[1..])
  }

  lemma {:induction false} PrintedAt(inputs: seq<Input>, args: seq<Js>, i: nat)
    requires i < |inputs| == |args|
    ensures Printed(inputs, args)[i] == BuilderValue(inputs[i].ty, args[i])
  {
    if 0 < i {
      PrintedAt(inputs[1..], args[1..], i - 1);
    }
  }

  /** What is shown after the first `n` parameters; a later parameter of the same name overwrites an earlier one. */
  function Shown(inputs: seq<Input>, texts: seq<string>, n: nat): map<string, Js>
    requires n <= |inputs| == |texts|
  {
    if n == 0 then map[] else Shown(inputs, texts, n - 1)[inputs[n - 1].name := JStr(texts[n - 1])]
  }

  function AllShown(inputs: seq<Input>, args: seq<Js>): map<string, Js>
    requires |inputs| == |args|
  {
    Shown(inputs, Printed(inputs, args), |args|)
  }

  function BuildFrom(selector: Selector, f: Fragment, call: Call): Made<Tx> {
    if |f.inputs| != |call.args| then Refused(WrongCount)
    else
      var data := Encode(selector, call.fn, Types(f.inputs), call.args);
      if data.None? then Refused(BadArguments)
      else if call.value < 0 then Refused(NegativeValue)
      else if 0 < call.value && !f.payable then Refused(NotPayable)
      else
        match AddressOf(call.target)
        case None => Refused(BadAddress)
        case Some(to) =>
          Made(Tx(to, NatText(call.value), data.value, call.fn, f.inputs, f.payable, AllShown(f.inputs, call.args)))
  }

  function BuildTx(abis: map<string, seq<Fragment>>, selector: Selector, call: Call): Made<Tx> {
    if call.contract !in abis then Refused(NoArtifact)
    else
      match FindFunction(abis[call.contract], call.fn)
      case None => Refused(NoFunction)
      case Some(f) => BuildFrom(selector, f, call)
  }

  method FillValues(inputs: seq<Input>, args: seq<Js>) returns (shown: map<string, Js>)
    requires |inputs| == |args|
    ensures shown == AllShown(inputs, args)
  {
    shown := map[];
    for i := 0 to |inputs|
      invariant shown == Shown(inputs, Printed(inputs, args), i)
    {
      PrintedAt(inputs, args, i);
      shown := shown[inputs[i].name := JStr(BuilderValue(inputs[i].ty, args[i]))];
    }
  }

  method BuildOne(selector: Selector, f: Fragment, call: Call) returns (r: Made<Tx>)
    ensures r == BuildFrom(selector, f, call)
  {
    if |f.inputs| != |call.args| {
      return Refused(WrongCount);
    }
    var data := Encode(selector, call.fn, Types(f.inputs), call.args);
    if data.None? {
      return Refused(BadArguments);
    }
    if call.value < 0 {
      return Refused(NegativeValue);
    }
    if 0 < call.value && !f.payable {
      return Refused(NotPayable);
    }
    var shown := FillValues(f.inputs, call.args);
    var to := AddressOf(call.target);
    if to.None? {
      return Refused(BadAddress);
    }
    return Made(Tx(to.value, NatText(call.value), data.value, call.fn, f.inputs, f.payable, shown));
  }

  method BuildCall(abis: map<string, seq<Fragment>>, selector: Selector, call: Call) returns (r: Made<Tx>)
    ensures r == Builder(abis, selector)(call)
  {
    if call.contract !in abis {
      return Refused(NoArtifact);
    }
    var f := FindFunction(abis[call.contract], call.fn);
    if f.None? {
      return Refused(NoFunction);
    }
    r := BuildOne(selector, f.value, call);
  }

  function Builder(abis: map<string, seq<Fragment>>, selector: Selector): Call -> Made<Tx> {
    call => BuildTx(abis, selector, call)
  }

  /** The first `n` calls' transactions in order, or the refusal of the first call that cannot be built. */
  function BuildAll(build: Call -> Made<Tx>, calls: seq<Call>, n: nat): Made<seq<Tx>>
    requires n <= |calls|
  {
    if n == 0 then Made([])
    else
      var before := BuildAll(build, calls, n - 1);
      if before.Refused? then before else Append(before.value, build(calls[n - 1]))
  }

  function Append(txs: seq<Tx>, next: Made<Tx>): Made<seq<Tx>> {
    match next
    case Made(tx) => Made(txs + [tx])
    case Refused(why) => Refused(why)
  }

  lemma {:induction false} RefusalStays(build: Call -> Made<Tx>, calls: seq<Call>, n: nat, m: nat)
    requires n <= m <= |calls| && BuildAll(build, calls, n).Refused?
    ensures BuildAll(build, calls, m) == BuildAll(build, calls, n)
  {
    if n < m {
      RefusalStays(build, calls, n, m - 1);
    }
  }

  lemma BuildNext(build: Call -> Made<Tx>, calls: seq<Call>, i: nat, txs: seq<Tx>, tx: Made<Tx>)
    requires i < |calls| && BuildAll(build, calls, i) == Made(txs) && build(calls[i]) == tx
    ensures BuildAll(build, calls, i + 1) == Append(txs, tx)
  {
  }

  /**
   A batch that is built holds every call's transaction, in order; one that is not is refused for its first bad call.
   */
  lemma {:induction false} BuildAllMeans(build: Call -> Made<Tx>, calls: seq<Call>, n: nat)
    requires n <= |calls|
    ensures match BuildAll(build, calls, n)
            case Made(txs) => |txs| == n && forall i :: 0 <= i < n ==> build(calls[i]) == Made(txs[i])
            case Refused(why) => exists i :: 0 <= i < n && build(calls[i]) == Refused(why) &&
                                   forall j :: 0 <= j < i ==> build(calls[j]).Made?
  {
    if 0 < n {
      BuildAllMeans(build, calls, n - 1);
    }
  }

  method BuildBatch(abis: map<string, seq<Fragment>>, selector: Selector, chainId: nat, calls: seq<Call>)
    returns (r: Made<Batch>)
    ensures match BuildAll(Builder(abis, selector), calls, |calls|)
            case Made(txs) => r == Made(Batch(NatText(chainId), false, txs))
            case Refused(why) => r == Refused(why)
  {
    var txs: seq<Tx> := [];
    ghost var build := Builder(abis, selector);
    for i := 0 to |calls|
      invariant BuildAll(build, calls, i) == Made(txs)
    {
      var tx := BuildCall(abis, selector, calls[i]);
      BuildNext(build, calls, i, txs, tx);
      if tx.Refused? {
        RefusalStays(build, calls, i + 1, |calls|);
        return Refused(tx.why);
      }
      txs := txs + [tx.value];
    }
    return Made(Batch(NatText(chainId), false, txs));
  }

  // ------------------------------------------------------------------ checking

  /** A shown value as an argument again; an absent one is JavaScript's undefined. */
  function ReadBack(ty: Ty, shown: Option<Js>): Option<Js> {
    if IsComposite(ty) then
      if shown.None? then None
      else
        match Parse(StringOf(shown.value))
        case Bad => None
        case Good(j, _) => Some(j)
    else if ty.Bool? then Some(JBool(shown == Some(JBool(true))
                                     || (shown.Some? && Lower(StringOf(shown.value)) == "true")))
    else shown
  }

  function At(shown: map<string, Js>, name: string): Option<Js> {
    if name in shown then Some(shown[name]) else None
  }

  function ReadBackAll(inputs: seq<Input>, shown: map<string, Js>): (args: Option<seq<Js>>)
    ensures args.Some? ==> |args.value| == |inputs|
                           && forall i :: 0 <= i < |inputs| ==>
                                ReadBack(inputs[i].ty, At(shown, inputs[i].name)) == Some(args.value[i])
  {
    if inputs == [] then Some([])
    else
      var first := ReadBack(inputs[0].ty, At(shown, inputs[0].name));
      var rest := ReadBackAll(inputs[1..], shown);
      if first.Some? && rest.Some? then Some([first.value] + rest.value) else None
  }

  /** If reading back fails, it is because of one of the values. */
  lemma {:induction false} ReadBackFails(inputs: seq<Input>, shown: map<string, Js>) returns (i: nat)
    requires ReadBackAll(inputs, shown).None?
    ensures i < |inputs| && ReadBack(inputs[i].ty, At(shown, inputs[i].name)).None?
  {
    i := 0;
    if ReadBack(inputs[0].ty, At(shown, inputs[0].name)).Some? {
      var j := ReadBackFails(inputs[1..], shown);
      i := j + 1;
    }
  }

  /** The data the shown values stand for. */
  function DisplayedData(selector: Selector, tx: Tx): Option<seq<Byte>> {
    var args := ReadBackAll(tx.inputs, tx.shown);
    if ValidInputs(tx.inputs) && args.Some? then Encode(selector, tx.fn, Types(tx.inputs), args.value) else None
  }

  function TxComplaint(selector: Selector, tx: Tx, expectedTo: Option<nat>, allowValue: bool): Option<Complaint> {
    if expectedTo.Some? && tx.to != expectedTo.value then Some(WrongTarget)
    else if tx.value != "0" && !(allowValue && tx.payable) then Some(CarriesValue)
    else
      match DisplayedData(selector, tx)
      case None => Some(Unreadable)
      case Some(data) => if data == tx.data then None else Some(DataMismatch)
  }

  method CheckTx(selector: Selector, tx: Tx, expectedTo: Option<nat>, allowValue: bool) returns (r: Option<Complaint>)
    ensures r == TxComplaint(selector, tx, expectedTo, allowValue)
  {
    if expectedTo.Some? && tx.to != expectedTo.value {
      return Some(WrongTarget);
    }
    if tx.value != "0" && !(allowValue && tx.payable) {
      return Some(CarriesValue);
    }
    var data := DisplayedData(selector, tx);
    if data.None? {
      return Some(Unreadable);
    }
    r := if data.value == tx.data then None else Some(DataMismatch);
  }

  /** Accepts a file exactly when every transaction in it is beyond complaint; else it names the first complaint. */
  method VerifyBatch(selector: Selector, batch: Batch, chainId: nat, expectedTo: Option<nat>, allowValue: bool)
    returns (r: Option<Complaint>)
    ensures r.None? <==> batch.chainId == NatText(chainId) && !batch.checksum
                         && forall i :: 0 <= i < |batch.txs| ==>
                              TxComplaint(selector, batch.txs[i], expectedTo, allowValue).None?
    ensures r.Some? && batch.chainId == NatText(chainId) && !batch.checksum
            ==> exists i :: 0 <= i < |batch.txs| && TxComplaint(selector, batch.txs[i], expectedTo, allowValue) == r
                            && forall j :: 0 <= j < i ==>
                                 TxComplaint(selector, batch.txs[j], expectedTo, allowValue).None?
  {
    if batch.chainId != NatText(chainId) {
      return Some(WrongChain);
    }
    if batch.checksum {
      return Some(HasChecksum);
    }
    for i := 0 to |batch.txs|
      invariant forall j :: 0 <= j < i ==> TxComplaint(selector, batch.txs[j], expectedTo, allowValue).None?
    {
      r := CheckTx(selector, batch.txs[i], expectedTo, allowValue);
      if r.Some? {
        return;
      }
    }
    return None;
  }

  // ------------------------------------------------------------------ what the signer sees is what is signed

  /** The values a signer reads in the file. */
  function SeenValues(tx: Tx): Option<seq<Val>> {
    match ReadBackAll(tx.inputs, tx.shown)
    case None => None
    case Some(args) => CoerceAll(Types(tx.inputs), args)
  }

  /** An accepted transaction carries the shown values and no others: any decoder gets exactly them back. */
  lemma SeenIsSigned(selector: Selector, tx: Tx, expectedTo: Option<nat>, allowValue: bool)
    requires TxComplaint(selector, tx, expectedTo, allowValue).None? && Fits(|tx.data|, WORD)
    ensures SeenValues(tx).Some? && AllWellTyped(Types(tx.inputs), SeenValues(tx).value)
    ensures tx.data == Data(selector, tx.fn, Types(tx.inputs), SeenValues(tx).value)
    ensures DecAll(Types(tx.inputs), tx.data[4..], 0, 0) == SeenValues(tx)
    ensures forall ws :: AllWellTyped(Types(tx.inputs), ws) && tx.data == Data(selector, tx.fn, Types(tx.inputs), ws)
                         ==> ws == SeenValues(tx).value
  {
    var tys := Types(tx.inputs);
    var vs := SeenValues(tx).value;
    var tail := EncAll(tys, vs);
    assert tx.data[4..] == tail;
    FitsLess(|tail|, |tx.data|, WORD, WORD);
    AllOfIt(tail);
    DecodeAll(tys, vs, tail, 0);
    forall ws | AllWellTyped(tys, ws) && tx.data == Data(selector, tx.fn, tys, ws)
      ensures ws == vs
    {
      assert EncAll(tys, ws) == tx.data[4..];
      EncodingInjective(tys, vs, ws);
    }
  }

  // ------------------------------------------------------------------ printed files pass their own check

  /** The parameter whose value is shown under the name of parameter `i`: the last one so named. */
  function LastNamed(inputs: seq<Input>, name: string, n: nat): (j: nat)
    requires n <= |inputs| && exists i :: 0 <= i < n && inputs[i].name == name
    ensures j < n && inputs[j].name == name && forall k :: j < k < n ==> inputs[k].name != name
  {
    if inputs[n - 1].name == name then n - 1 else LastNamed(inputs, name, n - 1)
  }

  lemma {:induction false} ShownAt(inputs: seq<Input>, texts: seq<string>, n: nat, j: nat)
    requires j < n <= |inputs| == |texts|
    requires forall k :: j < k < n ==> inputs[k].name != inputs[j].name
    ensures At(Shown(inputs, texts, n), inputs[j].name) == Some(JStr(texts[j]))
  {
    if j < n - 1 {
      ShownAt(inputs, texts, n - 1, j);
    }
  }

  /** What is shown for parameter `i` reads back to the value that was encoded for it. */
  predicate KeptAt(inputs: seq<Input>, args: seq<Js>, i: nat)
    requires i < |inputs| == |args|
  {
    var j := LastNamed(inputs, inputs[i].name, |inputs|);
    var back := ReadBack(inputs[i].ty, Some(JStr(BuilderValue(inputs[j].ty, args[j]))));
    back.Some? && Coerce(inputs[i].ty, back.value) == Coerce(inputs[i].ty, args[i])
  }

  /** The argument survives being printed and read back. */
  predicate ArgKept(ty: Ty, arg: Js) {
    if ty.Bool? then BoolShown(arg) else NoRaw(arg) && NoBigZeroBool(ty, arg)
  }

  lemma PrintedReadsBack(ty: Ty, arg: Js)
    requires Coerce(ty, arg).Some?
    ensures var back := ReadBack(ty, Some(JStr(BuilderValue(ty, arg))));
            (back.Some? && Coerce(ty, back.value) == Coerce(ty, arg)) <==> ArgKept(ty, arg)
  {
    CompositeByText(ty);
    if Composite(ty) {
      ParseStringify(arg);
      if NoRaw(arg) {
        PlainKept(ty, arg);
      }
    } else if ty.Bool? {
      BoolKept(arg);
    } else {
      ScalarKept(ty, arg);
    }
  }

  predicate DistinctNames(inputs: seq<Input>) {
    forall i, j :: 0 <= i < j < |inputs| ==> inputs[i].name != inputs[j].name
  }

  lemma KeptAtDistinct(inputs: seq<Input>, args: seq<Js>, i: nat)
    requires i < |inputs| == |args| && DistinctNames(inputs) && Coerce(inputs[i].ty, args[i]).Some?
    ensures KeptAt(inputs, args, i) <==> ArgKept(inputs[i].ty, args[i])
  {
    PrintedReadsBack(inputs[i].ty, args[i]);
    assert LastNamed(inputs, inputs[i].name, |inputs|) == i;
  }

  lemma KeptMeans(inputs: seq<Input>, args: seq<Js>, i: nat)
    requires i < |inputs| == |args|
    ensures var back := ReadBack(inputs[i].ty, At(AllShown(inputs, args), inputs[i].name));
            KeptAt(inputs, args, i) <==> back.Some? && Coerce(inputs[i].ty, back.value) == Coerce(inputs[i].ty, args[i])
  {
    var j := LastNamed(inputs, inputs[i].name, |inputs|);
    ShownAt(inputs, Printed(inputs, args), |args|, j);
    PrintedAt(inputs, args, j);
  }

  lemma ReadsBackEach(inputs: seq<Input>, args: seq<Js>)
    requires |inputs| == |args| && CoerceAll(Types(inputs), args).Some?
    ensures var read := ReadBackAll(inputs, AllShown(inputs, args));
            read.Some? && CoerceAll(Types(inputs), read.value) == CoerceAll(Types(inputs), args)
            <==> forall i :: 0 <= i < |inputs| ==> KeptAt(inputs, args, i)
  {
    var read := ReadBackAll(inputs, AllShown(inputs, args));
    if read.Some? {
      SameCoerced(inputs, args, read.value);
    } else {
      var i := ReadBackFails(inputs, AllShown(inputs, args));
      KeptMeans(inputs, args, i);
    }
    forall i | 0 <= i < |inputs|
      ensures KeptAt(inputs, args, i) ==> ReadBack(inputs[i].ty, At(AllShown(inputs, args), inputs[i].name)).Some?
      ensures read.Some? ==> (KeptAt(inputs, args, i)
                              <==> Coerce(inputs[i].ty, read.value[i]) == Coerce(inputs[i].ty, args[i]))
    {
      KeptMeans(inputs, args, i);
    }
  }

  lemma SameCoerced(inputs: seq<Input>, args: seq<Js>, read: seq<Js>)
    requires |inputs| == |args| == |read| && CoerceAll(Types(inputs), args).Some?
    ensures CoerceAll(Types(inputs), read) == CoerceAll(Types(inputs), args)
            <==> forall i :: 0 <= i < |inputs| ==> Coerce(inputs[i].ty, read[i]) == Coerce(inputs[i].ty, args[i])
  {
    var vs := CoerceAll(Types(inputs), args).value;
    CoerceAllEach(Types(inputs), args, vs);
    CoerceAllEach(Types(inputs), read, vs);
    forall i | 0 <= i < |inputs|
      ensures Types(inputs)[i] == inputs[i].ty
    {
      TypesAt(inputs, i);
    }
  }

  lemma SameData(selector: Selector, fn: string, tys: seq<Ty>, a: seq<Js>, b: seq<Js>, data: seq<Byte>)
    requires Encode(selector, fn, tys, b) == Some(data) && Fits(|data|, WORD)
    ensures Encode(selector, fn, tys, a) == Some(data) <==> CoerceAll(tys, a) == CoerceAll(tys, b)
  {
    var w := CoerceAll(tys, b).value;
    if Encode(selector, fn, tys, a) == Some(data) {
      var v := CoerceAll(tys, a).value;
      assert EncAll(tys, v) == data[4..] && EncAll(tys, w) == data[4..];
      FitsLess(|data[4..]|, |data|, WORD, WORD);
      EncodingInjective(tys, v, w);
    }
  }

  lemma DisplayedAsEncoded(selector: Selector, tx: Tx, args: seq<Js>)
    requires |tx.inputs| == |args| && tx.shown == AllShown(tx.inputs, args) && ValidInputs(tx.inputs)
    requires Encode(selector, tx.fn, Types(tx.inputs), args) == Some(tx.data) && Fits(|tx.data|, WORD)
    ensures DisplayedData(selector, tx) == Some(tx.data) <==> AllKept(tx.inputs, args)
  {
    ReadsBackEach(tx.inputs, args);
    var read := ReadBackAll(tx.inputs, tx.shown);
    if read.Some? {
      SameData(selector, tx.fn, Types(tx.inputs), read.value, args, tx.data);
    }
  }

  /** What the fields of a transaction built from `args` say about them. */
  predicate BuiltFrom(selector: Selector, tx: Tx, args: seq<Js>, value: nat) {
    |tx.inputs| == |args| && tx.value == NatText(value) && (0 < value ==> tx.payable)
    && tx.shown == AllShown(tx.inputs, args)
    && Encode(selector, tx.fn, Types(tx.inputs), args) == Some(tx.data)
  }

  predicate AllKept(inputs: seq<Input>, args: seq<Js>)
    requires |inputs| == |args|
  {
    forall i :: 0 <= i < |inputs| ==> KeptAt(inputs, args, i)
  }

  lemma AcceptedWhenKept(selector: Selector, tx: Tx, args: seq<Js>, value: nat, expectedTo: Option<nat>,
                         allowValue: bool)
    requires BuiltFrom(selector, tx, args, value) && ValidInputs(tx.inputs) && Fits(|tx.data|, WORD)
    ensures TxComplaint(selector, tx, expectedTo, allowValue).None?
            <==> (expectedTo.None? || expectedTo.value == tx.to) && (value == 0 || allowValue) &&
                 AllKept(tx.inputs, args)
  {
    NatTextReads(value);
    assert tx.value == "0" <==> value == 0;
    DisplayedAsEncoded(selector, tx, args);
  }

  lemma BuiltFacts(abis: map<string, seq<Fragment>>, selector: Selector, call: Call, tx: Tx)
    requires BuildTx(abis, selector, call) == Made(tx)
    ensures 0 <= call.value && BuiltFrom(selector, tx, call.args, call.value)
  {
  }

  /** A built transaction passes the check exactly when its value is allowed and each shown argument reads back. */
  lemma BuiltAccepted(abis: map<string, seq<Fragment>>, selector: Selector, call: Call, tx: Tx,
                      expectedTo: Option<nat>, allowValue: bool)
    requires BuildTx(abis, selector, call) == Made(tx) && ValidInputs(tx.inputs) && Fits(|tx.data|, WORD)
    ensures |tx.inputs| == |call.args|
    ensures TxComplaint(selector, tx, expectedTo, allowValue).None?
            <==> (expectedTo.None? || expectedTo.value == tx.to) && (call.value == 0 || allowValue) &&
                 AllKept(tx.inputs, call.args)
  {
    BuiltFacts(abis, selector, call, tx);
    AcceptedWhenKept(selector, tx, call.args, call.value, expectedTo, allowValue);
  }

  /**
   With distinct parameter names and no value: accepted exactly when no bool was given in a form its text does not keep,
   and no bytes as a typed array.
   */
  lemma BuiltAcceptedDistinct(abis: map<string, seq<Fragment>>, selector: Selector, call: Call, tx: Tx)
    requires BuildTx(abis, selector, call) == Made(tx) && ValidInputs(tx.inputs) && Fits(|tx.data|, WORD)
    requires DistinctNames(tx.inputs) && call.value == 0
    ensures |tx.inputs| == |call.args|
    ensures TxComplaint(selector, tx, None, false).None?
            <==> forall i :: 0 <= i < |tx.inputs| ==> ArgKept(tx.inputs[i].ty, call.args[i])
  {
    BuiltFacts(abis, selector, call, tx);
    BuiltAccepted(abis, selector, call, tx, None, false);
    CoerceAllEach(Types(tx.inputs), call.args, CoerceAll(Types(tx.inputs), call.args).value);
    forall i | 0 <= i < |tx.inputs|
      ensures KeptAt(tx.inputs, call.args, i) <==> ArgKept(tx.inputs[i].ty, call.args[i])
    {
      TypesAt(tx.inputs, i);
      KeptAtDistinct(tx.inputs, call.args, i);
    }
  }

  /** Bools written as bools are always kept, at any depth. */
  predicate PlainBools(ty: Ty, j: Js)
    decreases j, 1
  {
    if ty.Bool? then j.JBool?
    else Composite(ty) && j.JArr? ==> AllPlainBools(Parts(ty, |j.items|), j.items)
  }

  predicate AllPlainBools(tys: seq<Ty>, js: seq<Js>)
    decreases js, 0
  {
    tys == [] || js == [] || (PlainBools(tys[0], js[0]) && AllPlainBools(tys[1..], js[1..]))
  }

  lemma PlainBoolsKept(ty: Ty, j: Js)
    requires PlainBools(ty, j) && NoRaw(j)
    ensures ArgKept(ty, j)
  {
    NoBigZeroIfPlain(ty, j);
    if ty.Bool? && Truthy(j) {
      assert Lower("true") == "true";
    }
  }

  lemma {:induction false} NoBigZeroIfPlain(ty: Ty, j: Js)
    requires PlainBools(ty, j)
    ensures NoBigZeroBool(ty, j)
    decreases j, 1
  {
    if Composite(ty) && j.JArr? {
      AllNoBigZeroIfPlain(Parts(ty, |j.items|), j.items);
    }
  }

  lemma {:induction false} AllNoBigZeroIfPlain(tys: seq<Ty>, js: seq<Js>)
    requires AllPlainBools(tys, js)
    ensures AllNoBigZeroBool(tys, js)
    decreases js, 0
  {
    if tys != [] && js != [] {
      NoBigZeroIfPlain(tys[0], js[0]);
      AllNoBigZeroIfPlain(tys[1..], js[1..]);
    }
  }

  /** A call without value, with distinct parameter names, bools as bools and no typed arrays, always passes. */
  lemma PlainCallPasses(abis: map<string, seq<Fragment>>, selector: Selector, call: Call, tx: Tx)
    requires BuildTx(abis, selector, call) == Made(tx) && ValidInputs(tx.inputs) && Fits(|tx.data|, WORD)
    requires DistinctNames(tx.inputs) && call.value == 0 && |tx.inputs| == |call.args|
    requires forall i :: 0 <= i < |tx.inputs| ==> PlainBools(tx.inputs[i].ty, call.args[i]) && NoRaw(call.args[i])
    ensures TxComplaint(selector, tx, None, false).None?
  {
    BuiltAcceptedDistinct(abis, selector, call, tx);
    forall i | 0 <= i < |tx.inputs|
      ensures ArgKept(tx.inputs[i].ty, call.args[i])
    {
      PlainBoolsKept(tx.inputs[i].ty, call.args[i]);
    }
  }

  /** The call has no value, bools as bools and no typed arrays, for the parameters of the transaction. */
  predicate PlainCall(call: Call, tx: Tx) {
    ValidInputs(tx.inputs) && Fits(|tx.data|, WORD) && DistinctNames(tx.inputs) && call.value == 0
      && |tx.inputs| == |call.args|
    && forall i :: 0 <= i < |tx.inputs| ==> PlainBools(tx.inputs[i].ty, call.args[i]) && NoRaw(call.args[i])
  }

  /** A batch built from such calls has no transaction to complain about: the file passes. */
  lemma PlainBatchPasses(abis: map<string, seq<Fragment>>, selector: Selector, calls: seq<Call>, txs: seq<Tx>)
    requires BuildAll(Builder(abis, selector), calls, |calls|) == Made(txs)
    requires |txs| == |calls| && forall i :: 0 <= i < |calls| ==> PlainCall(calls[i], txs[i])
    ensures forall i :: 0 <= i < |txs| ==> TxComplaint(selector, txs[i], None, false).None?
  {
    BuildAllMeans(Builder(abis, selector), calls, |calls|);
    forall i | 0 <= i < |txs|
      ensures TxComplaint(selector, txs[i], None, false).None?
    {
      assert Builder(abis, selector)(calls[i]) == Made(txs[i]);
      PlainCallPasses(abis, selector, calls[i], txs[i]);
    }
  }

  // ------------------------------------------------------------------ where the check refuses its own printer

  /**
   Parameters that share a name, unnamed ones among them: only the last one's value is shown, so an earlier one of the
   same type is kept exactly when it was given the same value.
   */
  lemma SameNamesRefused(inputs: seq<Input>, args: seq<Js>, i: nat, j: nat)
    requires i < j < |inputs| == |args| && j == LastNamed(inputs, inputs[i].name, |inputs|)
             && inputs[i].ty == inputs[j].ty
    requires Coerce(inputs[j].ty, args[j]).Some? && ArgKept(inputs[j].ty, args[j])
    ensures KeptAt(inputs, args, i) <==> Coerce(inputs[i].ty, args[j]) == Coerce(inputs[i].ty, args[i])
  {
    PrintedReadsBack(inputs[j].ty, args[j]);
  }

  /** For instance two unnamed uint256 parameters given as 1 and 2. */
  lemma UnnamedPairRefused()
    ensures !KeptAt([Input("", UInt(32)), Input("", UInt(32))], [JNum(1), JNum(2)], 0)
  {
    var inputs := [Input("", UInt(32)), Input("", UInt(32))];
    assert inputs[1].name == "";
    assert LastNamed(inputs, "", 2) == 1;
    SmallFits(1);
    SmallFits(2);
    SameNamesRefused(inputs, [JNum(1), JNum(2)], 0, 1);
  }

  lemma SmallFits(n: nat)
    requires n < 256
    ensures Coerce(UInt(32), JNum(n)) == Some(IntVal(n))
  {
    FitsLess(0, 0, 0, 31);
    assert Fits(n / 256, 31);
  }

  /** A true bool given as the number one is shown as "1" and refused; a BigInt zero inside a tuple comes back true. */
  lemma LooseBoolsRefused()
    ensures !ArgKept(Bool, JNum(1)) && ArgKept(Bool, JBig(0))
    ensures !ArgKept(Tuple([Bool]), JArr([JBig(0)]))
    ensures ArgKept(Tuple([Bool]), JArr([JNum(1)]))
  {
    assert IntText(1) == "1" && Lower("1")[0] == '1';
    assert AllNoBigZeroBool([Bool], [JBig(0)]) <==> NoBigZeroBool(Bool, JBig(0));
    assert [Bool][1..] == [] && [JNum(1)][1..] == [];
    assert AllNoBigZeroBool([Bool], [JNum(1)]);
  }
}
