/** Octets as the numbers they are; bit operations on them go through their binary digits. */
module Bytes {
  type Byte = n: nat | n < 256

  /** The low binary digits of a number, lowest first. */
  function Digits(n: nat, k: nat): (bits: seq<bool>)
    ensures |bits| == k
    decreases k
  {
    if k == 0 then [] else [n % 2 == 1] + Digits(n / 2, k - 1)
  }

  /** Exclusive or of the low binary digits. */
  function XorDigits(a: nat, b: nat, k: nat): nat
    decreases k
  {
    if k == 0 then 0 else 2 * XorDigits(a / 2, b / 2, k - 1) + (a % 2 + b % 2) % 2
  }

  function Pow2(k: nat): nat
    decreases k
  {
    if k == 0 then 1 else 2 * Pow2(k - 1)
  }

  lemma {:induction false} XorDigitsFits(a: nat, b: nat, k: nat)
    ensures XorDigits(a, b, k) < Pow2(k)
    decreases k
  {
    if k > 0 { XorDigitsFits(a / 2, b / 2, k - 1); }
  }

  lemma {:induction false} XorDigitsInjective(a: nat, b: nat, c: nat, k: nat)
    requires a < Pow2(k) && b < Pow2(k)
    ensures XorDigits(a, c, k) == XorDigits(b, c, k) ==> a == b
    ensures XorDigits(c, a, k) == XorDigits(c, b, k) ==> a == b
    decreases k
  {
    if k > 0 { XorDigitsInjective(a / 2, b / 2, c / 2, k - 1); }
  }

  function XorByte(a: Byte, b: Byte): (r: Byte) {
    XorDigitsFits(a, b, 8);
    XorDigits(a, b, 8)
  }

  lemma XorByteInjective(a: Byte, b: Byte, c: Byte)
    ensures XorByte(a, c) == XorByte(b, c) ==> a == b
    ensures XorByte(c, a) == XorByte(c, b) ==> a == b
  {
    XorDigitsInjective(a, b, c, 8);
  }
}
