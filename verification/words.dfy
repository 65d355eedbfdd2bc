/** Big-endian byte strings of a fixed length, as the Contract ABI pads its words, and two's complement. */
module Words {

  type Byte = b: nat | b < 256

  const WORD: nat := 32

  /** `v` has at most `n` base-256 digits. */
  predicate Fits(v: nat, n: nat) {
    if n == 0 then v == 0 else Fits(v / 256, n - 1)
  }

  /** The last `n` base-256 digits of `v`. */
  function Digits(v: nat, n: nat): (s: seq<Byte>)
    ensures |s| == n
  {
    if n == 0 then [] else Digits(v / 256, n - 1) + [v % 256]
  }

  function Number(s: seq<Byte>): nat {
    if s == [] then 0 else Number(s[..|s| - 1]) * 256 + s[|s| - 1]
  }

  function Complement(s: seq<Byte>): (t: seq<Byte>)
    ensures |t| == |s| && forall i :: 0 <= i < |s| ==> t[i] == 255 - s[i]
  {
    if s == [] then [] else [255 - s[0]] + Complement(s[1..])
  }

  function Zeros(n: nat): (s: seq<Byte>)
    ensures |s| == n && forall i :: 0 <= i < n ==> s[i] == 0
  {
    if n == 0 then [] else Zeros(n - 1) + [0]
  }

  lemma {:induction false} NumberOfDigits(v: nat, n: nat)
    requires Fits(v, n)
    ensures Number(Digits(v, n)) == v
  {
    if n > 0 {
      var s := Digits(v, n);
      assert s[..|s| - 1] == Digits(v / 256, n - 1);
      NumberOfDigits(v / 256, n - 1);
    }
  }

  lemma {:induction false} FitsLess(a: nat, b: nat, n: nat, m: nat)
    requires a <= b && n <= m && Fits(b, n)
    ensures Fits(a, m)
  {
    if n > 0 {
      FitsLess(a / 256, b / 256, n - 1, m - 1);
    } else if m > 0 {
      FitsLess(0, 0, 0, m - 1);
    }
  }

  lemma ComplementTwice(s: seq<Byte>)
    ensures Complement(Complement(s)) == s
  {
  }

  /** Below half the range the leading digit is small, which is how a reader tells the sign. */
  lemma {:induction false} LeadingDigit(a: nat, n: nat)
    requires 0 < n && Fits(2 * a, n)
    ensures Digits(a, n)[0] < 128
  {
    if n == 1 {
      assert Fits(2 * a / 256, 0);
    } else {
      FitsLess(2 * (a / 256), 2 * a / 256, n - 1, n - 1);
      LeadingDigit(a / 256, n - 1);
    }
  }

  /** The two's complement of `n` in `size` bytes. */
  predicate FitsSigned(n: int, size: nat) {
    Fits(if 0 <= n then 2 * n else 2 * (-1 - n), size)
  }

  function SignedDigits(n: int, size: nat): (s: seq<Byte>)
    ensures |s| == size
  {
    if 0 <= n then Digits(n, size) else Complement(Digits(-1 - n, size))
  }

  function SignedNumber(s: seq<Byte>): int {
    if s == [] || s[0] < 128 then Number(s) else -1 - Number(Complement(s))
  }

  lemma SignedNumberOfDigits(n: int, size: nat)
    requires 0 < size && FitsSigned(n, size)
    ensures SignedNumber(SignedDigits(n, size)) == n
  {
    var m := if 0 <= n then n else -1 - n;
    LeadingDigit(m, size);
    FitsLess(m, 2 * m, size, size);
    NumberOfDigits(m, size);
    ComplementTwice(Digits(m, size));
  }
}
