/** How an argument given as a JavaScript value becomes a typed value, type by type, or is refused. */
module Coders {
  import opened Common
  import opened Words
  import opened Numerals
  import opened Json
  import opened Abi

  /** What `String(...)` gives. */
  function StringOf(j: Js): string {
    match j
    case JStr(s) => s
    case JNum(n) => IntText(n)
    case JBig(n) => IntText(n)
    case JBool(b) => if b then "true" else "false"
    case JNull => "null"
    case JArr(items) => Joined(items)
    case JRaw(raw) => JoinedBytes(raw)
  }

  function JoinedBytes(raw: seq<Byte>): string {
    if raw == [] then "" else if |raw| == 1 then NatText(raw[0]) else NatText(raw[0]) + "," + JoinedBytes(raw[1..])
  }

  function Joined(items: seq<Js>): string {
    if items == [] then ""
    else
      var first := if items[0].JNull? then "" else StringOf(items[0]);
      if |items| == 1 then first else first + "," + Joined(items[1..])
  }

  predicate Truthy(j: Js) {
    match j
    case JStr(s) => s != ""
    case JNum(n) => n != 0
    case JBig(n) => n != 0
    case JBool(b) => b
    case JNull => false
    case JArr(_) | JRaw(_) => true
  }

  function LowerChar(c: char): char {
    if 'A' <= c <= 'Z' then (c as int + 32) as char else c
  }

  function Lower(s: string): string {
    if s == "" then "" else [LowerChar(s[0])] + Lower(s[1..])
  }

  // ------------------------------------------------------------------ scalars

  function Utf8Char(c: char): seq<Byte> {
    var n := c as int;
    if n < 0x80 then [n]
    else if n < 0x800 then [0xC0 + n / 64, 0x80 + n % 64]
    else if n < 0x1_0000 then [0xE0 + n / 4096, 0x80 + n / 64 % 64, 0x80 + n % 64]
    else [0xF0 + n / 262144, 0x80 + n / 4096 % 64, 0x80 + n / 64 % 64, 0x80 + n % 64]
  }

  function Utf8(s: string): seq<Byte> {
    if s == "" then [] else Utf8Char(s[0]) + Utf8(s[1..])
  }

  predicate HexPrefixed(s: string) { 2 <= |s| && s[0] == '0' && (s[1] == 'x' || s[1] == 'X') }

  function ReadNat(s: string): Option<int> {
    if s == "" then None
    else if AllDigits(s) then Some(NatOf(s))
    else if HexPrefixed(s) && 2 < |s| && AllHex(s[2..]) then Some(HexOf(s[2..]))
    else None
  }

  function ReadInt(s: string): Option<int> {
    if 2 <= |s| && s[0] == '-' && s[1] != '-' then
      (match ReadNat(s[1..])
       case None => None
       case Some(n) => Some(-n))
    else ReadNat(s)
  }

  function IntOf(j: Js): Option<int> {
    match j
    case JNum(n) => Some(n)
    case JBig(n) => Some(n)
    case JStr(s) => ReadInt(s)
    case _ => None
  }

  function AddressOf(s: string): (r: Option<nat>) {
    var digits := if 2 <= |s| && s[0] == '0' && s[1] == 'x' then s[2..] else s;
    if |digits| == 40 && AllHex(digits) then Some(HexOf(digits)) else None
  }

  function HexPairs(s: string): seq<Byte>
    requires AllHex(s) && |s| % 2 == 0
  {
    if s == "" then [] else [16 * HexValue(s[0]).value + HexValue(s[1]).value] + HexPairs(s[2..])
  }

  function BytesOf(j: Js): Option<seq<Byte>> {
    if j.JRaw? then Some(j.raw)
    else if j.JStr? && HexPrefixed(j.s) && |j.s| % 2 == 0 && AllHex(j.s[2..]) then Some(HexPairs(j.s[2..])) else None
  }

  // ------------------------------------------------------------------ every type

  function Checked(ty: Ty, v: Val): (r: Option<Val>)
    ensures r.Some? ==> WellTyped(ty, r.value)
  {
    if WellTyped(ty, v) then Some(v) else None
  }

  function CoerceScalar(ty: Ty, j: Js): (r: Option<Val>)
    requires !Composite(ty)
    ensures r.Some? ==> WellTyped(ty, r.value)
  {
    if ty.UInt? || ty.SInt? then
      (match IntOf(j)
       case None => None
       case Some(n) => Checked(ty, IntVal(n)))
    else if ty.Bool? then Some(BoolVal(Truthy(j)))
    else if ty.Address? then
      (match if j.JStr? then AddressOf(j.s) else None
       case None => None
       case Some(a) => Checked(ty, AddrVal(a)))
    else if ty.Text? then (if j.JStr? then Checked(ty, BytesVal(Utf8(j.s))) else None)
    else
      match BytesOf(j)
      case None => None
      case Some(bs) => Checked(ty, BytesVal(bs))
  }

  function Coerce(ty: Ty, j: Js): (r: Option<Val>)
    ensures r.Some? ==> WellTyped(ty, r.value)
    decreases j, 1
  {
    if !Composite(ty) then CoerceScalar(ty, j)
    else if !j.JArr? || !Fits(|j.items|, WORD) then None
    else
      match CoerceAll(Parts(ty, |j.items|), j.items)
      case None => None
      case Some(vs) => Some(ListVal(vs))
  }

  function CoerceAll(tys: seq<Ty>, js: seq<Js>): (r: Option<seq<Val>>)
    ensures r.Some? ==> |tys| == |js| && AllWellTyped(tys, r.value)
    decreases js, 0
  {
    if |tys| != |js| then None
    else if js == [] then Some([])
    else
      var first := Coerce(tys[0], js[0]);
      var rest := CoerceAll(tys[1..], js[1..]);
      if first.Some? && rest.Some? then Some([first.value] + rest.value) else None
  }

  lemma {:induction false} CoerceAllEach(tys: seq<Ty>, js: seq<Js>, vs: seq<Val>)
    ensures CoerceAll(tys, js) == Some(vs)
            <==> |tys| == |js| == |vs| && forall i :: 0 <= i < |js| ==> Coerce(tys[i], js[i]) == Some(vs[i])
  {
    if |tys| == |js| == |vs| && js != [] {
      CoerceAllEach(tys[1..], js[1..], vs[1..]);
      PairEqual(Coerce(tys[0], js[0]), CoerceAll(tys[1..], js[1..]), Some(vs[0]), Some(vs[1..]));
      assert [vs[0]] + vs[1..] == vs;
      EachShifted(tys, js, vs);
    }
  }

  lemma EachShifted(tys: seq<Ty>, js: seq<Js>, vs: seq<Val>)
    requires |tys| == |js| == |vs| && js != []
    ensures (forall i :: 0 <= i < |js| ==> Coerce(tys[i], js[i]) == Some(vs[i]))
            <==> Coerce(tys[0], js[0]) == Some(vs[0])
                 && forall i :: 0 <= i < |js[1..]| ==> Coerce(tys[1..][i], js[1..][i]) == Some(vs[1..][i])
  {
    if forall i :: 0 <= i < |js[1..]| ==> Coerce(tys[1..][i], js[1..][i]) == Some(vs[1..][i]) {
      forall i | 1 <= i < |js|
        ensures Coerce(tys[i], js[i]) == Some(vs[i])
      {
        assert tys[i] == tys[1..][i - 1] && js[i] == js[1..][i - 1] && vs[i] == vs[1..][i - 1];
      }
    }
  }

  // ------------------------------------------------------------------ reading a printed argument back

  lemma IntTextReads(n: int)
    ensures ReadInt(IntText(n)) == Some(n)
  {
    var m: nat := if n < 0 then -n else n;
    NatTextReads(m);
    if n < 0 {
      assert IntText(n)[1..] == NatText(m);
    } else {
      assert IsDigit(NatText(m)[0]);
    }
  }

  /** A scalar other than a bool keeps its value when it is turned into its text, unless it is a typed array. */
  lemma ScalarKept(ty: Ty, j: Js)
    requires !Composite(ty) && !ty.Bool? && Coerce(ty, j).Some?
    ensures Coerce(ty, JStr(StringOf(j))) == Coerce(ty, j) <==> !j.JRaw?
  {
    match j
    case JNum(n) => IntTextReads(n);
    case JBig(n) => IntTextReads(n);
    case JRaw(raw) => JoinedIsNoHex(raw);
    case _ =>
  }

  /** The text of a typed array is no hex string. */
  lemma JoinedIsNoHex(raw: seq<Byte>)
    ensures !HexPrefixed(JoinedBytes(raw))
  {
    JoinedChars(raw);
  }

  lemma {:induction false} JoinedChars(raw: seq<Byte>)
    ensures forall i :: 0 <= i < |JoinedBytes(raw)| ==> IsDigit(JoinedBytes(raw)[i]) || JoinedBytes(raw)[i] == ','
  {
    if 1 < |raw| {
      JoinedChars(raw[1..]);
    }
  }

  /** A bool is shown by its text and read back as true exactly when that text says so. */
  predicate BoolShown(j: Js) { Truthy(j) ==> Lower(StringOf(j)) == "true" }

  lemma BoolKept(j: Js)
    ensures (Lower(StringOf(j)) == "true") == Truthy(j) <==> BoolShown(j)
  {
    if !Truthy(j) {
      match j
      case JNum(n) => assert IntText(n) == "0"; assert Lower("0")[0] == '0';
      case JBig(n) => assert IntText(n) == "0"; assert Lower("0")[0] == '0';
      case JBool(_) => assert Lower("false")[0] == 'f';
      case JNull => assert Lower("null")[0] == 'n';
      case JStr(_) =>
    }
  }

  /** No bool inside is given as the BigInt zero, which JSON turns into the true string "0". */
  predicate NoBigZeroBool(ty: Ty, j: Js)
    decreases j, 1
  {
    if ty.Bool? then j != JBig(0)
    else Composite(ty) && j.JArr? ==> AllNoBigZeroBool(Parts(ty, |j.items|), j.items)
  }

  predicate AllNoBigZeroBool(tys: seq<Ty>, js: seq<Js>)
    decreases js, 0
  {
    tys == [] || js == [] || (NoBigZeroBool(tys[0], js[0]) && AllNoBigZeroBool(tys[1..], js[1..]))
  }

  lemma PlainScalar(ty: Ty, j: Js)
    requires !Composite(ty) && Coerce(ty, j).Some? && NoRaw(j)
    ensures Coerce(ty, Plain(j)) == Coerce(ty, j) <==> NoBigZeroBool(ty, j)
  {
    match j
    case JBig(n) =>
      IntTextReads(n);
      assert Truthy(Plain(j));
    case _ =>
  }

  /** Going through JSON keeps a value exactly when no bool in it is the BigInt zero. */
  lemma {:induction false} PlainKept(ty: Ty, j: Js)
    requires Coerce(ty, j).Some? && NoRaw(j)
    ensures Coerce(ty, Plain(j)) == Coerce(ty, j) <==> NoBigZeroBool(ty, j)
    decreases j, 1
  {
    if Composite(ty) {
      AllPlainKept(Parts(ty, |j.items|), j.items);
    } else {
      PlainScalar(ty, j);
    }
  }

  lemma {:induction false} AllPlainKept(tys: seq<Ty>, js: seq<Js>)
    requires CoerceAll(tys, js).Some? && AllNoRaw(js)
    ensures CoerceAll(tys, PlainAll(js)) == CoerceAll(tys, js) <==> AllNoBigZeroBool(tys, js)
    decreases js, 0
  {
    if js != [] {
      PlainKept(tys[0], js[0]);
      AllPlainKept(tys[1..], js[1..]);
      var ps := PlainAll(js);
      assert ps[0] == Plain(js[0]) && ps[1..] == PlainAll(js[1..]);
      PairEqual(Coerce(tys[0], ps[0]), CoerceAll(tys[1..], ps[1..]), Coerce(tys[0], js[0]),
                CoerceAll(tys[1..], js[1..]));
    }
  }

  function Pair(first: Option<Val>, rest: Option<seq<Val>>): Option<seq<Val>> {
    if first.Some? && rest.Some? then Some([first.value] + rest.value) else None
  }

  lemma PairEqual(a: Option<Val>, r: Option<seq<Val>>, b: Option<Val>, s: Option<seq<Val>>)
    requires b.Some? && s.Some?
    ensures Pair(a, r) == Pair(b, s) <==> a == b && r == s
  {
    if a.Some? && r.Some? {
      assert ([a.value] + r.value)[1..] == r.value;
      assert ([b.value] + s.value)[1..] == s.value;
      assert ([a.value] + r.value)[0] == a.value;
      assert ([b.value] + s.value)[0] == b.value;
    }
  }
}
