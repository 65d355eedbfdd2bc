/**
 The argument encoding of the Solidity Contract ABI Specification, section "Formal Specification of the Encoding": heads
 and tails, offsets for dynamic parts; and a decoder, from which the encoding's injectivity follows.
 */
module Abi {
  import opened Common
  import opened Words

  /** `UInt(20)` is uint160: sizes are in bytes. */
  datatype Ty =
    | UInt(size: nat) | SInt(size: nat) | Bool | Address | FixedBytes(size: nat) | DynBytes | Text
    | List(elem: Ty) | FixedList(elem: Ty, count: nat) | Tuple(fields: seq<Ty>)

  /** Strings are their UTF-8 bytes; lists, fixed lists and tuples are lists of parts. */
  datatype Val = IntVal(n: int) | BoolVal(b: bool) | AddrVal(account: nat) | BytesVal(bytes: seq<Byte>)
    | ListVal(parts: seq<Val>)

  const ADDRESS: nat := 20

  predicate Composite(ty: Ty) { ty.List? || ty.FixedList? || ty.Tuple? }

  function Repeat(ty: Ty, n: nat): (tys: seq<Ty>)
    ensures |tys| == n && forall i :: 0 <= i < n ==> tys[i] == ty
  {
    if n == 0 then [] else [ty] + Repeat(ty, n - 1)
  }

  /** The types of the parts of a composite value with `n` parts. */
  function Parts(ty: Ty, n: nat): seq<Ty>
    requires Composite(ty)
  {
    match ty
    case List(e) => Repeat(e, n)
    case FixedList(e, k) => Repeat(e, k)
    case Tuple(fields) => fields
  }

  function Depth(ty: Ty): nat {
    match ty
    case List(e) => 1 + Depth(e)
    case FixedList(e, _) => 1 + Depth(e)
    case Tuple(fields) => 1 + MaxDepth(fields)
    case _ => 0
  }

  function MaxDepth(tys: seq<Ty>): nat {
    if tys == [] then 0 else Max(Depth(tys[0]), MaxDepth(tys[1..]))
  }

  lemma RepeatDepth(ty: Ty, n: nat)
    ensures MaxDepth(Repeat(ty, n)) <= Depth(ty)
  {
    if n > 0 {
      assert Repeat(ty, n)[1..] == Repeat(ty, n - 1);
      RepeatDepth(ty, n - 1);
    }
  }

  lemma PartsDepth(ty: Ty, n: nat)
    requires Composite(ty)
    ensures MaxDepth(Parts(ty, n)) < Depth(ty)
  {
    match ty
    case List(e) => RepeatDepth(e, n);
    case FixedList(e, k) => RepeatDepth(e, k);
    case Tuple(_) =>
  }

  predicate Dynamic(ty: Ty) {
    match ty
    case DynBytes => true
    case Text => true
    case List(_) => true
    case FixedList(e, _) => Dynamic(e)
    case Tuple(fields) => exists i :: 0 <= i < |fields| && Dynamic(fields[i])
    case _ => false
  }

  /** Bytes a part of this type takes among the heads. */
  function HeadSize(ty: Ty): nat
    decreases Depth(ty), 0
  {
    if Dynamic(ty) || !Composite(ty) then WORD
    else
      PartsDepth(ty, 0);
      HeadSizes(Parts(ty, 0))
  }

  function HeadSizes(tys: seq<Ty>): nat
    decreases MaxDepth(tys), 1 + |tys|
  {
    if tys == [] then 0 else HeadSize(tys[0]) + HeadSizes(tys[1..])
  }

  predicate WellTyped(ty: Ty, v: Val)
    decreases v, 1
  {
    match v
    case IntVal(n) =>
      (ty.UInt? && 1 <= ty.size <= WORD && 0 <= n && Fits(n, ty.size))
      || (ty.SInt? && 1 <= ty.size <= WORD && FitsSigned(n, ty.size))
    case BoolVal(_) => ty.Bool?
    case AddrVal(a) => ty.Address? && Fits(a, ADDRESS)
    case BytesVal(bs) => (ty.FixedBytes? && |bs| == ty.size <= WORD) || ((ty.DynBytes? || ty.Text?) && Fits(|bs|, WORD))
    case ListVal(vs) => Composite(ty) && Fits(|vs|, WORD) && AllWellTyped(Parts(ty, |vs|), vs)
  }

  predicate AllWellTyped(tys: seq<Ty>, vs: seq<Val>)
    decreases vs, 0
  {
    |tys| == |vs| && (vs == [] || (WellTyped(tys[0], vs[0]) && AllWellTyped(tys[1..], vs[1..])))
  }

  // ------------------------------------------------------------------ encoder

  /** The zeros that fill up the last word. */
  function Padding(n: nat): nat {
    if n == 0 then 0 else if n <= WORD then WORD - n else Padding(n - WORD)
  }

  lemma {:induction false} PaddingFills(n: nat)
    ensures Padding(n) < WORD && (n + Padding(n)) % WORD == 0
  {
    if WORD < n {
      PaddingFills(n - WORD);
    }
  }

  function Enc(ty: Ty, v: Val): seq<Byte>
    requires WellTyped(ty, v)
    decreases v, 1
  {
    match v
    case IntVal(n) => SignedDigits(n, WORD)
    case BoolVal(b) => Digits(if b then 1 else 0, WORD)
    case AddrVal(a) => Digits(a, WORD)
    case BytesVal(bs) =>
      if ty.FixedBytes? then bs + Zeros(WORD - |bs|)
      else Digits(|bs|, WORD) + bs + Zeros(Padding(|bs|))
    case ListVal(vs) => (if ty.List? then Digits(|vs|, WORD) else []) + EncAll(Parts(ty, |vs|), vs)
  }

  /** The heads of all parts, then the tails of the dynamic ones. */
  function EncAll(tys: seq<Ty>, vs: seq<Val>): seq<Byte>
    requires AllWellTyped(tys, vs)
    decreases vs, 1
  {
    var es := EncEach(tys, vs);
    Heads(tys, es, HeadSizes(tys)) + Tails(tys, es)
  }

  function EncEach(tys: seq<Ty>, vs: seq<Val>): (es: seq<seq<Byte>>)
    requires AllWellTyped(tys, vs)
    ensures |es| == |tys|
    decreases vs, 0
  {
    if vs == [] then [] else [Enc(tys[0], vs[0])] + EncEach(tys[1..], vs[1..])
  }

  /**
   The parts themselves, or where their tails start: `offset` is the first tail's start, counted from the first head.
   */
  function Heads(tys: seq<Ty>, es: seq<seq<Byte>>, offset: nat): seq<Byte>
    requires |tys| == |es|
  {
    if es == [] then []
    else if Dynamic(tys[0]) then Digits(offset, WORD) + Heads(tys[1..], es[1..], offset + |es[0]|)
    else es[0] + Heads(tys[1..], es[1..], offset)
  }

  function Tails(tys: seq<Ty>, es: seq<seq<Byte>>): seq<Byte>
    requires |tys| == |es|
  {
    if es == [] then [] else (if Dynamic(tys[0]) then es[0] else []) + Tails(tys[1..], es[1..])
  }

  // ------------------------------------------------------------------ sizes

  /** Static parts take exactly their head size. */
  predicate Sized(tys: seq<Ty>, es: seq<seq<Byte>>) {
    |tys| == |es| && forall i :: 0 <= i < |tys| && !Dynamic(tys[i]) ==> |es[i]| == HeadSize(tys[i])
  }

  lemma {:induction false} HeadsSize(tys: seq<Ty>, es: seq<seq<Byte>>, offset: nat)
    requires Sized(tys, es)
    ensures |Heads(tys, es, offset)| == HeadSizes(tys)
  {
    if es != [] {
      HeadsSize(tys[1..], es[1..], if Dynamic(tys[0]) then offset + |es[0]| else offset);
    }
  }

  lemma {:induction false} NoTails(tys: seq<Ty>, es: seq<seq<Byte>>)
    requires |tys| == |es| && forall i :: 0 <= i < |tys| ==> !Dynamic(tys[i])
    ensures Tails(tys, es) == []
  {
    if es != [] {
      NoTails(tys[1..], es[1..]);
    }
  }

  lemma {:induction false} StaticSize(ty: Ty, v: Val)
    requires WellTyped(ty, v) && !Dynamic(ty)
    ensures |Enc(ty, v)| == HeadSize(ty)
    decreases v, 1
  {
    if v.ListVal? {
      var tys := Parts(ty, |v.parts|);
      EachSized(tys, v.parts);
      StaticSizes(tys, v.parts);
    }
  }

  lemma StaticSizes(tys: seq<Ty>, vs: seq<Val>)
    requires AllWellTyped(tys, vs) && Sized(tys, EncEach(tys, vs)) && forall i :: 0 <= i < |tys| ==> !Dynamic(tys[i])
    ensures |EncAll(tys, vs)| == HeadSizes(tys)
  {
    HeadsSize(tys, EncEach(tys, vs), HeadSizes(tys));
    NoTails(tys, EncEach(tys, vs));
  }

  lemma {:induction false} EachSized(tys: seq<Ty>, vs: seq<Val>)
    requires AllWellTyped(tys, vs)
    ensures Sized(tys, EncEach(tys, vs))
    decreases vs, 0
  {
    if vs != [] {
      if !Dynamic(tys[0]) {
        StaticSize(tys[0], vs[0]);
      }
      EachSized(tys[1..], vs[1..]);
      SizedPrepend(tys, Enc(tys[0], vs[0]), EncEach(tys[1..], vs[1..]));
    }
  }

  lemma SizedPrepend(tys: seq<Ty>, e: seq<Byte>, es: seq<seq<Byte>>)
    requires tys != [] && Sized(tys[1..], es) && (!Dynamic(tys[0]) ==> |e| == HeadSize(tys[0]))
    ensures Sized(tys, [e] + es)
  {
    assert forall i :: 1 <= i < |tys| ==> tys[i] == tys[1..][i - 1];
  }

  predicate Whole(s: seq<Byte>) { |s| % WORD == 0 }

  lemma WholeJoin(a: seq<Byte>, b: seq<Byte>)
    requires Whole(a) && Whole(b)
    ensures Whole(a + b)
  {
  }

  lemma {:induction false} PartsWhole(tys: seq<Ty>, es: seq<seq<Byte>>, offset: nat)
    requires |tys| == |es| && forall e :: e in es ==> Whole(e)
    ensures Whole(Heads(tys, es, offset)) && Whole(Tails(tys, es))
  {
    if es != [] {
      var next := if Dynamic(tys[0]) then offset + |es[0]| else offset;
      assert es[0] in es;
      PartsWhole(tys[1..], es[1..], next);
      WholeJoin(if Dynamic(tys[0]) then Digits(offset, WORD) else es[0], Heads(tys[1..], es[1..], next));
      WholeJoin(if Dynamic(tys[0]) then es[0] else [], Tails(tys[1..], es[1..]));
    }
  }

  /** Every encoding is a whole number of words. */
  lemma {:induction false} EncodingWhole(ty: Ty, v: Val)
    requires WellTyped(ty, v)
    ensures Whole(Enc(ty, v))
    decreases v, 1
  {
    match v
    case IntVal(_) =>
    case BoolVal(_) =>
    case AddrVal(_) =>
    case BytesVal(bs) => BytesWhole(ty, bs);
    case ListVal(vs) =>
      EachWhole(Parts(ty, |vs|), vs);
      AllWhole(Parts(ty, |vs|), vs);
      WholeJoin(if ty.List? then Digits(|vs|, WORD) else [], EncAll(Parts(ty, |vs|), vs));
  }

  lemma BytesWhole(ty: Ty, bs: seq<Byte>)
    requires WellTyped(ty, BytesVal(bs))
    ensures Whole(Enc(ty, BytesVal(bs)))
  {
    if ty.FixedBytes? {
      assert |bs + Zeros(WORD - |bs|)| == WORD;
    } else {
      PaddingFills(|bs|);
      WholeJoin(Digits(|bs|, WORD), bs + Zeros(Padding(|bs|)));
      assert Digits(|bs|, WORD) + bs + Zeros(Padding(|bs|)) == Digits(|bs|, WORD) + (bs + Zeros(Padding(|bs|)));
    }
  }

  lemma AllWhole(tys: seq<Ty>, vs: seq<Val>)
    requires AllWellTyped(tys, vs) && forall e :: e in EncEach(tys, vs) ==> Whole(e)
    ensures Whole(EncAll(tys, vs))
  {
    var es := EncEach(tys, vs);
    PartsWhole(tys, es, HeadSizes(tys));
    WholeJoin(Heads(tys, es, HeadSizes(tys)), Tails(tys, es));
  }

  lemma {:induction false} EachWhole(tys: seq<Ty>, vs: seq<Val>)
    requires AllWellTyped(tys, vs)
    ensures forall e :: e in EncEach(tys, vs) ==> Whole(e)
    decreases vs, 0
  {
    if vs != [] {
      EncodingWhole(tys[0], vs[0]);
      EachWhole(tys[1..], vs[1..]);
    }
  }

  // ------------------------------------------------------------------ decoder

  function WordAt(data: seq<Byte>, p: nat): Option<nat> {
    if p + WORD <= |data| then Some(Number(data[p..p + WORD])) else None
  }

  function DecUInt(size: nat, w: Option<nat>): Option<Val> {
    if w.Some? && Fits(w.value, size) then Some(IntVal(w.value)) else None
  }

  function DecSInt(size: nat, data: seq<Byte>, p: nat): Option<Val> {
    if p + WORD <= |data| && FitsSigned(SignedNumber(data[p..p + WORD]), size)
    then Some(IntVal(SignedNumber(data[p..p + WORD])))
    else None
  }

  /** Reads a value of the type encoded at position `p`. */
  function Dec(ty: Ty, data: seq<Byte>, p: nat): Option<Val>
    decreases Depth(ty), 0
  {
    match ty
    case DynBytes => DecBytes(data, p)
    case Text => DecBytes(data, p)
    case FixedBytes(size) =>
      if size <= WORD && p + WORD <= |data| then Some(BytesVal(data[p..p + size])) else None
    case List(_) =>
      (match WordAt(data, p)
       case None => None
       case Some(count) => PartsDepth(ty, count); DecList(Parts(ty, count), data, p + WORD))
    case FixedList(_, count) => PartsDepth(ty, count); DecList(Parts(ty, count), data, p)
    case Tuple(_) => PartsDepth(ty, 0); DecList(Parts(ty, 0), data, p)
    case UInt(size) => DecUInt(size, WordAt(data, p))
    case SInt(size) => DecSInt(size, data, p)
    case Bool => DecBool(WordAt(data, p))
    case Address => DecAddress(WordAt(data, p))
  }

  function DecBool(w: Option<nat>): Option<Val> {
    if w.Some? && w.value <= 1 then Some(BoolVal(w.value == 1)) else None
  }

  function DecAddress(w: Option<nat>): Option<Val> {
    if w.Some? && Fits(w.value, ADDRESS) then Some(AddrVal(w.value)) else None
  }

  function DecBytes(data: seq<Byte>, p: nat): Option<Val> {
    match WordAt(data, p)
    case None => None
    case Some(length) =>
      if p + WORD + length <= |data| then Some(BytesVal(data[p + WORD..p + WORD + length])) else None
  }

  function DecList(tys: seq<Ty>, data: seq<Byte>, base: nat): Option<Val>
    decreases MaxDepth(tys), 2 + |tys|
  {
    match DecAll(tys, data, base, base)
    case None => None
    case Some(vs) => Some(ListVal(vs))
  }

  /** Reads the parts whose heads start at `p`; offsets count from `base`. */
  function DecAll(tys: seq<Ty>, data: seq<Byte>, base: nat, p: nat): Option<seq<Val>>
    decreases MaxDepth(tys), 1 + |tys|
  {
    if tys == [] then Some([])
    else
      var first :=
        if !Dynamic(tys[0]) then Dec(tys[0], data, p)
        else
          match WordAt(data, p)
          case None => None
          case Some(offset) => Dec(tys[0], data, base + offset);
      var rest := DecAll(tys[1..], data, base, p + HeadSize(tys[0]));
      if first.Some? && rest.Some? then Some([first.value] + rest.value) else None
  }

  // ------------------------------------------------------------------ decode after encode

  predicate StandsAt(data: seq<Byte>, p: nat, part: seq<Byte>) {
    p + |part| <= |data| && data[p..p + |part|] == part
  }

  lemma StandsSplit(data: seq<Byte>, p: nat, xs: seq<Byte>, ys: seq<Byte>)
    requires StandsAt(data, p, xs + ys)
    ensures StandsAt(data, p, xs) && StandsAt(data, p + |xs|, ys)
  {
    var whole := data[p..p + |xs + ys|];
    assert data[p..p + |xs|] == whole[..|xs|];
    assert data[p + |xs|..p + |xs| + |ys|] == whole[|xs|..];
  }

  lemma AllOfIt(data: seq<Byte>)
    ensures StandsAt(data, 0, data)
  {
    assert data[0..|data|] == data;
  }

  lemma WordStands(data: seq<Byte>, p: nat, n: nat)
    requires Fits(n, WORD) && StandsAt(data, p, Digits(n, WORD))
    ensures WordAt(data, p) == Some(n)
  {
    NumberOfDigits(n, WORD);
  }

  lemma UIntStands(size: nat, n: nat, data: seq<Byte>, p: nat)
    requires size <= WORD && Fits(n, size) && StandsAt(data, p, SignedDigits(n, WORD))
    ensures Dec(UInt(size), data, p) == Some(IntVal(n))
  {
    FitsLess(n, n, size, WORD);
    WordStands(data, p, n);
  }

  lemma SIntStands(size: nat, n: int, data: seq<Byte>, p: nat)
    requires 1 <= size <= WORD && FitsSigned(n, size) && StandsAt(data, p, SignedDigits(n, WORD))
    ensures Dec(SInt(size), data, p) == Some(IntVal(n))
  {
    var m := if 0 <= n then 2 * n else 2 * (-1 - n);
    FitsLess(m, m, size, WORD);
    SignedNumberOfDigits(n, WORD);
  }

  lemma IntStands(ty: Ty, n: int, data: seq<Byte>, p: nat)
    requires WellTyped(ty, IntVal(n)) && StandsAt(data, p, Enc(ty, IntVal(n)))
    ensures Dec(ty, data, p) == Some(IntVal(n))
  {
    if ty.UInt? {
      UIntStands(ty.size, n, data, p);
    } else {
      SIntStands(ty.size, n, data, p);
    }
  }

  lemma BoolStands(b: bool, data: seq<Byte>, p: nat)
    requires StandsAt(data, p, Enc(Bool, BoolVal(b)))
    ensures Dec(Bool, data, p) == Some(BoolVal(b))
  {
    var n := if b then 1 else 0;
    assert Fits(n / 256, WORD - 1) by {
      FitsLess(0, 0, 0, WORD - 1);
    }
    WordStands(data, p, n);
  }

  lemma AddressStands(a: nat, data: seq<Byte>, p: nat)
    requires Fits(a, ADDRESS) && StandsAt(data, p, Digits(a, WORD))
    ensures Dec(Address, data, p) == Some(AddrVal(a))
  {
    FitsLess(a, a, ADDRESS, WORD);
    WordStands(data, p, a);
  }

  lemma BytesStand(ty: Ty, bs: seq<Byte>, data: seq<Byte>, p: nat)
    requires WellTyped(ty, BytesVal(bs)) && StandsAt(data, p, Enc(ty, BytesVal(bs)))
    ensures Dec(ty, data, p) == Some(BytesVal(bs))
  {
    if ty.FixedBytes? {
      StandsSplit(data, p, bs, Zeros(WORD - |bs|));
    } else {
      StandsSplit(data, p, Digits(|bs|, WORD) + bs, Zeros(Padding(|bs|)));
      StandsSplit(data, p, Digits(|bs|, WORD), bs);
      WordStands(data, p, |bs|);
    }
  }

  /** The decoder gets the value back from its encoding, wherever that stands. */
  ghost predicate Decodes(ty: Ty, v: Val, e: seq<Byte>) {
    forall data: seq<Byte>, p: nat :: Fits(|data|, WORD) && StandsAt(data, p, e) ==> Dec(ty, data, p) == Some(v)
  }

  ghost predicate EachDecodes(tys: seq<Ty>, vs: seq<Val>, es: seq<seq<Byte>>) {
    |tys| == |vs| == |es| && forall i :: 0 <= i < |tys| ==> Decodes(tys[i], vs[i], es[i])
  }

  lemma StaticPartStands(tys: seq<Ty>, es: seq<seq<Byte>>, data: seq<Byte>, base: nat, p: nat, offset: nat)
    requires Sized(tys, es) && es != [] && !Dynamic(tys[0])
    requires StandsAt(data, p, Heads(tys, es, offset)) && StandsAt(data, base + offset, Tails(tys, es))
    ensures StandsAt(data, p, es[0]) && StandsAt(data, p + HeadSize(tys[0]), Heads(tys[1..], es[1..], offset))
    ensures StandsAt(data, base + offset, Tails(tys[1..], es[1..]))
  {
    StandsSplit(data, p, es[0], Heads(tys[1..], es[1..], offset));
    assert Tails(tys, es) == Tails(tys[1..], es[1..]);
  }

  lemma DynamicPartStands(tys: seq<Ty>, es: seq<seq<Byte>>, data: seq<Byte>, base: nat, p: nat, offset: nat)
    requires |tys| == |es| && es != [] && Dynamic(tys[0]) && Fits(|data|, WORD)
    requires StandsAt(data, p, Heads(tys, es, offset)) && StandsAt(data, base + offset, Tails(tys, es))
    ensures WordAt(data, p) == Some(offset) && StandsAt(data, base + offset, es[0])
    ensures StandsAt(data, p + WORD, Heads(tys[1..], es[1..], offset + |es[0]|))
    ensures StandsAt(data, base + (offset + |es[0]|), Tails(tys[1..], es[1..]))
  {
    HeadStands(data, p, offset, Heads(tys[1..], es[1..], offset + |es[0]|));
    StandsSplit(data, base + offset, es[0], Tails(tys[1..], es[1..]));
  }

  lemma HeadStands(data: seq<Byte>, p: nat, offset: nat, more: seq<Byte>)
    requires StandsAt(data, p, Digits(offset, WORD) + more) && offset <= |data| && Fits(|data|, WORD)
    ensures WordAt(data, p) == Some(offset) && StandsAt(data, p + WORD, more)
  {
    StandsSplit(data, p, Digits(offset, WORD), more);
    FitsLess(offset, |data|, WORD, WORD);
    WordStands(data, p, offset);
  }

  /** Parts that decode are read one after the other from heads and tails. */
  lemma {:induction false} PartsRead(tys: seq<Ty>, vs: seq<Val>, es: seq<seq<Byte>>, data: seq<Byte>, base: nat,
                                     p: nat, offset: nat)
    requires EachDecodes(tys, vs, es) && Sized(tys, es) && Fits(|data|, WORD)
    requires StandsAt(data, p, Heads(tys, es, offset)) && StandsAt(data, base + offset, Tails(tys, es))
    ensures DecAll(tys, data, base, p) == Some(vs)
    decreases |tys|, 1
  {
    if es == [] {
      NothingToRead(tys, vs, data, base, p);
    } else {
      RestReady(tys, vs, es);
      if Dynamic(tys[0]) {
        DynamicPartStands(tys, es, data, base, p, offset);
        DynamicRead(tys, vs, es[0], es[1..], data, base, p, offset, offset + |es[0]|);
      } else {
        StaticPartStands(tys, es, data, base, p, offset);
        StaticRead(tys, vs, es[0], es[1..], data, base, p, offset);
      }
    }
  }

  lemma NothingToRead(tys: seq<Ty>, vs: seq<Val>, data: seq<Byte>, base: nat, p: nat)
    requires tys == [] && vs == []
    ensures DecAll(tys, data, base, p) == Some(vs)
  {
  }

  /** A dynamic part, given where its tail and all that follows it stand. */
  lemma {:induction false} DynamicRead(tys: seq<Ty>, vs: seq<Val>, e: seq<Byte>, es: seq<seq<Byte>>, data: seq<Byte>,
                                       base: nat, p: nat, offset: nat, next: nat)
    requires tys != [] && vs != [] && Dynamic(tys[0]) && Decodes(tys[0], vs[0], e) && Fits(|data|, WORD)
    requires EachDecodes(tys[1..], vs[1..], es) && Sized(tys[1..], es)
    requires WordAt(data, p) == Some(offset) && StandsAt(data, base + offset, e)
    requires StandsAt(data, p + WORD, Heads(tys[1..], es, next)) && StandsAt(data, base + next, Tails(tys[1..], es))
    ensures DecAll(tys, data, base, p) == Some(vs)
    decreases |tys|, 0
  {
    PartsRead(tys[1..], vs[1..], es, data, base, p + WORD, next);
    DynamicFirst(tys, vs, e, data, base, p, offset);
  }

  lemma {:induction false} StaticRead(tys: seq<Ty>, vs: seq<Val>, e: seq<Byte>, es: seq<seq<Byte>>, data: seq<Byte>,
                                      base: nat, p: nat, offset: nat)
    requires tys != [] && vs != [] && !Dynamic(tys[0]) && Decodes(tys[0], vs[0], e) && Fits(|data|, WORD)
    requires EachDecodes(tys[1..], vs[1..], es) && Sized(tys[1..], es) && StandsAt(data, p, e)
    requires StandsAt(data, p + HeadSize(tys[0]), Heads(tys[1..], es, offset))
    requires StandsAt(data, base + offset, Tails(tys[1..], es))
    ensures DecAll(tys, data, base, p) == Some(vs)
    decreases |tys|, 0
  {
    PartsRead(tys[1..], vs[1..], es, data, base, p + HeadSize(tys[0]), offset);
    StaticFirst(tys, vs, e, data, base, p);
  }

  lemma RestReady(tys: seq<Ty>, vs: seq<Val>, es: seq<seq<Byte>>)
    requires EachDecodes(tys, vs, es) && Sized(tys, es) && es != []
    ensures Decodes(tys[0], vs[0], es[0])
    ensures EachDecodes(tys[1..], vs[1..], es[1..]) && Sized(tys[1..], es[1..])
  {
  }

  lemma DynamicFirst(tys: seq<Ty>, vs: seq<Val>, e: seq<Byte>, data: seq<Byte>, base: nat, p: nat, offset: nat)
    requires tys != [] && vs != [] && Dynamic(tys[0]) && Decodes(tys[0], vs[0], e) && Fits(|data|, WORD)
    requires WordAt(data, p) == Some(offset) && StandsAt(data, base + offset, e)
    requires DecAll(tys[1..], data, base, p + WORD) == Some(vs[1..])
    ensures DecAll(tys, data, base, p) == Some(vs)
  {
    assert [vs[0]] + vs[1..] == vs;
  }

  lemma StaticFirst(tys: seq<Ty>, vs: seq<Val>, e: seq<Byte>, data: seq<Byte>, base: nat, p: nat)
    requires tys != [] && vs != [] && !Dynamic(tys[0]) && Decodes(tys[0], vs[0], e) && Fits(|data|, WORD)
    requires StandsAt(data, p, e) && DecAll(tys[1..], data, base, p + HeadSize(tys[0])) == Some(vs[1..])
    ensures DecAll(tys, data, base, p) == Some(vs)
  {
    assert [vs[0]] + vs[1..] == vs;
  }

  lemma AllRead(tys: seq<Ty>, vs: seq<Val>, data: seq<Byte>, base: nat)
    requires AllWellTyped(tys, vs) && EachDecodes(tys, vs, EncEach(tys, vs)) && Fits(|data|, WORD)
    requires StandsAt(data, base, EncAll(tys, vs))
    ensures DecAll(tys, data, base, base) == Some(vs)
  {
    var es := EncEach(tys, vs);
    EachSized(tys, vs);
    HeadsSize(tys, es, HeadSizes(tys));
    StandsSplit(data, base, Heads(tys, es, HeadSizes(tys)), Tails(tys, es));
    PartsRead(tys, vs, es, data, base, base, HeadSizes(tys));
  }

  lemma ListStands(ty: Ty, vs: seq<Val>, data: seq<Byte>, p: nat)
    requires WellTyped(ty, ListVal(vs)) && StandsAt(data, p, Enc(ty, ListVal(vs)))
    ensures StandsAt(data, if ty.List? then p + WORD else p, EncAll(Parts(ty, |vs|), vs))
    ensures ty.List? ==> WordAt(data, p) == Some(|vs|)
  {
    var parts := EncAll(Parts(ty, |vs|), vs);
    if ty.List? {
      StandsSplit(data, p, Digits(|vs|, WORD), parts);
      WordStands(data, p, |vs|);
    } else {
      assert [] + parts == parts;
    }
  }

  lemma ListDecodes(ty: Ty, vs: seq<Val>, data: seq<Byte>, p: nat)
    requires Composite(ty) && |Parts(ty, |vs|)| == |vs|
    requires ty.List? ==> WordAt(data, p) == Some(|vs|)
    requires var start := if ty.List? then p + WORD else p;
             DecAll(Parts(ty, |vs|), data, start, start) == Some(vs)
    ensures Dec(ty, data, p) == Some(ListVal(vs))
  {
    match ty
    case List(_) =>
    case FixedList(_, _) =>
    case Tuple(_) =>
  }

  lemma ListReads(ty: Ty, vs: seq<Val>, data: seq<Byte>, p: nat)
    requires WellTyped(ty, ListVal(vs)) && StandsAt(data, p, Enc(ty, ListVal(vs))) && Fits(|data|, WORD)
    requires EachDecodes(Parts(ty, |vs|), vs, EncEach(Parts(ty, |vs|), vs))
    ensures Dec(ty, data, p) == Some(ListVal(vs))
  {
    ListStands(ty, vs, data, p);
    AllRead(Parts(ty, |vs|), vs, data, if ty.List? then p + WORD else p);
    ListDecodes(ty, vs, data, p);
  }

  /** Decoding what was encoded gives the value back, for every nesting of tuples, lists and byte strings. */
  lemma {:induction false} DecodeEncoded(ty: Ty, v: Val)
    requires WellTyped(ty, v)
    ensures Decodes(ty, v, Enc(ty, v))
    decreases v, 1
  {
    if v.ListVal? {
      EachDecoded(Parts(ty, |v.parts|), v.parts);
    }
    forall data: seq<Byte>, p: nat | Fits(|data|, WORD) && StandsAt(data, p, Enc(ty, v))
      ensures Dec(ty, data, p) == Some(v)
    {
      match v
      case IntVal(n) => IntStands(ty, n, data, p);
      case BoolVal(b) => BoolStands(b, data, p);
      case AddrVal(a) => AddressStands(a, data, p);
      case BytesVal(bs) => BytesStand(ty, bs, data, p);
      case ListVal(vs) => ListReads(ty, vs, data, p);
    }
  }

  lemma {:induction false} EachDecoded(tys: seq<Ty>, vs: seq<Val>)
    requires AllWellTyped(tys, vs)
    ensures EachDecodes(tys, vs, EncEach(tys, vs))
    decreases vs, 0
  {
    if vs != [] {
      DecodeEncoded(tys[0], vs[0]);
      EachDecoded(tys[1..], vs[1..]);
      DecodesPrepend(tys, vs, Enc(tys[0], vs[0]), EncEach(tys[1..], vs[1..]));
    }
  }

  lemma DecodesPrepend(tys: seq<Ty>, vs: seq<Val>, e: seq<Byte>, es: seq<seq<Byte>>)
    requires tys != [] && vs != [] && Decodes(tys[0], vs[0], e) && EachDecodes(tys[1..], vs[1..], es)
    ensures EachDecodes(tys, vs, [e] + es)
  {
    assert forall i :: 1 <= i < |tys| ==> tys[i] == tys[1..][i - 1] && vs[i] == vs[1..][i - 1];
  }

  /** A whole argument list is read back from its heads and tails. */
  lemma DecodeAll(tys: seq<Ty>, vs: seq<Val>, data: seq<Byte>, base: nat)
    requires AllWellTyped(tys, vs) && StandsAt(data, base, EncAll(tys, vs)) && Fits(|data|, WORD)
    ensures DecAll(tys, data, base, base) == Some(vs)
  {
    EachDecoded(tys, vs);
    AllRead(tys, vs, data, base);
  }

  /** One encoding, one list of values: for every nesting of tuples, lists and byte strings. */
  lemma EncodingInjective(tys: seq<Ty>, vs: seq<Val>, ws: seq<Val>)
    requires AllWellTyped(tys, vs) && AllWellTyped(tys, ws)
    requires EncAll(tys, vs) == EncAll(tys, ws) && Fits(|EncAll(tys, vs)|, WORD)
    ensures vs == ws
  {
    var data := EncAll(tys, vs);
    AllOfIt(data);
    DecodeAll(tys, vs, data, 0);
    DecodeAll(tys, ws, data, 0);
  }
}
