/** Decimal and hexadecimal numerals, as a JavaScript program prints and reads them. */
module Numerals {

  predicate IsDigit(c: char) { '0' <= c <= '9' }

  function DigitChar(d: nat): (c: char)
    requires d < 10
    ensures IsDigit(c) && DigitValue(c) == d
  {
    '0' + d as char
  }

  function DigitValue(c: char): (d: nat)
    requires IsDigit(c)
    ensures d < 10
  {
    c as int - '0' as int
  }

  predicate AllDigits(s: string) { forall i :: 0 <= i < |s| ==> IsDigit(s[i]) }

  function NatText(n: nat): (s: string)
    ensures s != "" && AllDigits(s)
  {
    if n < 10 then [DigitChar(n)] else NatText(n / 10) + [DigitChar(n % 10)]
  }

  function IntText(n: int): string {
    if 0 <= n then NatText(n) else "-" + NatText(-n)
  }

  function NatOf(s: string): nat
    requires AllDigits(s)
  {
    if s == "" then 0 else NatOf(s[..|s| - 1]) * 10 + DigitValue(s[|s| - 1])
  }

  lemma {:induction false} NatTextReads(n: nat)
    ensures NatOf(NatText(n)) == n
    ensures NatText(n)[0] == '0' ==> n == 0
  {
    if 10 <= n {
      var s := NatText(n);
      assert s[..|s| - 1] == NatText(n / 10);
      assert s[0] == NatText(n / 10)[0];
      NatTextReads(n / 10);
    }
  }

  /** How many digits the text starts with. */
  function DigitSpan(s: string): (k: nat)
    ensures k <= |s| && AllDigits(s[..k]) && (k < |s| ==> !IsDigit(s[k]))
  {
    if s == "" || !IsDigit(s[0]) then 0 else 1 + DigitSpan(s[1..])
  }

  lemma {:induction false} SpanIs(digits: string, rest: string)
    requires AllDigits(digits) && (rest == "" || !IsDigit(rest[0]))
    ensures DigitSpan(digits + rest) == |digits|
  {
    if digits == "" {
      assert digits + rest == rest;
    } else {
      assert (digits + rest)[1..] == digits[1..] + rest;
      SpanIs(digits[1..], rest);
    }
  }

  // ------------------------------------------------------------------ hexadecimal

  datatype Digit = NotHex | Hex(value: nat)

  function HexValue(c: char): (d: Digit)
    ensures d.Hex? ==> d.value < 16
  {
    if '0' <= c <= '9' then Hex(c as int - '0' as int)
    else if 'a' <= c <= 'f' then Hex(10 + c as int - 'a' as int)
    else if 'A' <= c <= 'F' then Hex(10 + c as int - 'A' as int)
    else NotHex
  }

  function HexChar(d: nat): (c: char)
    requires d < 16
    ensures HexValue(c) == Hex(d)
  {
    if d < 10 then '0' + d as char else 'a' + (d - 10) as char
  }

  predicate AllHex(s: string) { forall i :: 0 <= i < |s| ==> HexValue(s[i]).Hex? }

  function HexOf(s: string): nat
    requires AllHex(s)
  {
    if s == "" then 0 else HexOf(s[..|s| - 1]) * 16 + HexValue(s[|s| - 1]).value
  }
}
