/** The published check values of the two checksums. */
module Vectors {
  import opened Model
  import opened Bytes
  import opened Hash
  import opened Digests

  lemma FirstThree()
    ensures Step(0xFFFFFFFF, 49) == 0x6F0A661C && Step(0x6F0A661C, 50) == 0x8CAA3B9F && Step(0x8CAA3B9F, 51) == 0xEF84D04D
  {
  }

  lemma NextThree()
    ensures Step(0xEF84D04D, 52) == 0x09C50B11 && Step(0x09C50B11, 53) == 0xE72EDCCA && Step(0xE72EDCCA, 54) == 0xBECA8E79
  {
  }

  lemma LastThree()
    ensures Step(0xBECA8E79, 55) == 0xEDBD6815 && Step(0xEDBD6815, 56) == 0x9F787F65 && Step(0x9F787F65, 57) == 0x1CF96D7C
  {
  }

  lemma Absorbed(c: bv32, b: Byte, rest: seq<Byte>, d: bv32)
    requires Step(c, b) == d
    ensures Absorb(c, [b] + rest) == Absorb(d, rest)
  {
    hide Step;
    assert ([b] + rest)[1..] == rest;
  }

  /** The nine digits give the check value of CRC-32C. */
  lemma CrcCheckValue()
    ensures Crc([49, 50, 51, 52, 53, 54, 55, 56, 57], 0) == 0xE3069283
  {
    hide Step, Absorb;
    FirstThree();
    NextThree();
    LastThree();
    var d: seq<Byte> := [49, 50, 51, 52, 53, 54, 55, 56, 57];
    assert d == [49] + d[1..] && d[1..] == [50] + d[2..] && d[2..] == [51] + d[3..] && d[3..] == [52] + d[4..];
    assert d[4..] == [53] + d[5..] && d[5..] == [54] + d[6..] && d[6..] == [55] + d[7..] && d[7..] == [56] + d[8..];
    assert d[8..] == [57] + [];
    Absorbed(0xFFFFFFFF, 49, d[1..], 0x6F0A661C);
    Absorbed(0x6F0A661C, 50, d[2..], 0x8CAA3B9F);
    Absorbed(0x8CAA3B9F, 51, d[3..], 0xEF84D04D);
    Absorbed(0xEF84D04D, 52, d[4..], 0x09C50B11);
    Absorbed(0x09C50B11, 53, d[5..], 0xE72EDCCA);
    Absorbed(0xE72EDCCA, 54, d[6..], 0xBECA8E79);
    Absorbed(0xBECA8E79, 55, d[7..], 0xEDBD6815);
    Absorbed(0xEDBD6815, 56, d[8..], 0x9F787F65);
    Absorbed(0x9F787F65, 57, [], 0x1CF96D7C);
    AbsorbedAll(0x1CF96D7C);
  }

  lemma AbsorbedAll(c: bv32)
    ensures Absorb(c, []) == c && Complement(0) == 0xFFFFFFFF && Complement(0x1CF96D7C) == 0xE3069283
  {
  }

  /** The letter a gives its published FNV-1a value. */
  lemma FnvCheckValue()
    ensures Fnv([97], FNV_SEED) == 0xAF63DC4C8601EC8C
  {
    hide XorByte;
    assert LowByte(FNV_SEED) == 0x25;
    assert XorByte(0x25, 97) == 0x44 by { LetterMixed(); }
    assert Mixed(FNV_SEED, 97) == 0xCBF29CE484222344;
    assert [97][1..] == [];
  }

  lemma NextDigit(a: nat, b: nat, k: nat, x: nat)
    requires XorDigits(a / 2, b / 2, k) == x
    ensures XorDigits(a, b, k + 1) == 2 * x + (a % 2 + b % 2) % 2
  {
  }

  lemma NoDigits(a: Byte, b: Byte)
    ensures XorDigits(0, 0, 0) == 0 && XorByte(a, b) == XorDigits(a, b, 8)
  {
  }

  lemma LetterMixed()
    ensures XorByte(0x25, 97) == 0x44
  {
    hide XorDigits, XorByte;
    NoDigits(0x25, 97);
    NextDigit(0, 0, 0, 0);
    NextDigit(0, 1, 1, 0);
    NextDigit(1, 3, 2, 1);
    NextDigit(2, 6, 3, 2);
    NextDigit(4, 12, 4, 4);
    NextDigit(9, 24, 5, 8);
    NextDigit(18, 48, 6, 17);
    NextDigit(37, 97, 7, 34);
  }
}
