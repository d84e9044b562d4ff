/** CRC-32C and FNV-1a over byte streams: the table-driven loop against bitwise
division, chaining over chunks, and the errors the CRC cannot miss. */
module Hash {
  import opened Bytes

  /** The Castagnoli polynomial, reflected. */
  const POLYNOMIAL: bv32 := 0x82F63B78

  // ------------------------------------------------------------ the register

  /** One bit of division by the polynomial. */
  function Shift(c: bv32): bv32 {
    if c & 1 != 0 then (c >> 1) ^ POLYNOMIAL else c >> 1
  }

  function Shifts(c: bv32, n: nat): bv32
    decreases n
  {
    if n == 0 then c else Shift(Shifts(c, n - 1))
  }

  // Exclusive or, parity and halving, under names that proofs can keep folded.

  function Xor(a: bv32, b: bv32): bv32 { a ^ b }

  predicate IsOdd(c: bv32) { c & 1 != 0 }

  function Half(c: bv32): bv32 { c >> 1 }

  lemma ShiftFolds(c: bv32)
    ensures Shift(c) == if IsOdd(c) then Xor(Half(c), POLYNOMIAL) else Half(c)
  {
  }

  lemma Even(c: bv32)
    requires !IsOdd(c)
    ensures Shift(c) == Half(c)
  {
  }

  lemma OddXor(a: bv32, b: bv32)
    ensures IsOdd(Xor(a, b)) <==> IsOdd(a) != IsOdd(b)
  {
  }

  lemma HalfXor(a: bv32, b: bv32)
    ensures Half(Xor(a, b)) == Xor(Half(a), Half(b))
  {
  }

  lemma XorAssociates(a: bv32, b: bv32, c: bv32)
    ensures Xor(Xor(a, b), c) == Xor(a, Xor(b, c))
  {
  }

  lemma XorCommutes(a: bv32, b: bv32)
    ensures Xor(a, b) == Xor(b, a)
  {
  }

  lemma XorCancels(a: bv32, p: bv32)
    ensures Xor(Xor(a, p), p) == a
  {
  }

  lemma Regroup(a: bv32, b: bv32, p: bv32)
    ensures Xor(Xor(a, p), Xor(b, p)) == Xor(a, b)
    ensures Xor(Xor(a, p), b) == Xor(Xor(a, b), p)
    ensures Xor(a, Xor(b, p)) == Xor(Xor(a, b), p)
  {
    hide Xor;
    XorAssociates(a, b, p);
    XorAssociates(a, p, b);
    XorCommutes(p, b);
    XorAssociates(Xor(a, p), b, p);
    XorCancels(Xor(a, b), p);
  }

  /** Division is linear. */
  lemma ShiftLinear(a: bv32, b: bv32)
    ensures Shift(Xor(a, b)) == Xor(Shift(a), Shift(b))
  {
    hide Shift, Xor, IsOdd, Half;
    ShiftFolds(a);
    ShiftFolds(b);
    ShiftFolds(Xor(a, b));
    OddXor(a, b);
    HalfXor(a, b);
    Regroup(Half(a), Half(b), POLYNOMIAL);
  }

  lemma {:induction false} ShiftsLinear(a: bv32, b: bv32, n: nat)
    ensures Shifts(Xor(a, b), n) == Xor(Shifts(a, n), Shifts(b, n))
    decreases n
  {
    hide Shift, Xor;
    if n > 0 {
      ShiftsLinear(a, b, n - 1);
      ShiftLinear(Shifts(a, n - 1), Shifts(b, n - 1));
    }
  }

  lemma ShiftInjective(a: bv32, b: bv32)
    requires Shift(a) == Shift(b)
    ensures a == b
  {
  }

  lemma {:induction false} ShiftsInjective(a: bv32, b: bv32, n: nat)
    requires Shifts(a, n) == Shifts(b, n)
    ensures a == b
    decreases n
  {
    hide Shift;
    if n > 0 {
      ShiftInjective(Shifts(a, n - 1), Shifts(b, n - 1));
      ShiftsInjective(a, b, n - 1);
    }
  }

  lemma {:induction false} ShiftsCompose(c: bv32, m: nat, n: nat)
    ensures Shifts(Shifts(c, m), n) == Shifts(c, m + n)
    decreases n
  {
    hide Shift;
    if n > 0 { ShiftsCompose(c, m, n - 1); }
  }

  // ------------------------------------------------------------- one byte

  /** The bits a word has not fed into the register yet only move down. */
  lemma Feed(s: bv32, w: bv32)
    ensures Shift(Xor(s, w)) == Xor(Shift(Xor(s, w & 1)), w >> 1)
  {
    hide Shift, Xor;
    Tail(s, w);
    ShiftLinear(Xor(s, w & 1), w & 0xFFFFFFFE);
    Even(w & 0xFFFFFFFE);
  }

  lemma Tail(s: bv32, w: bv32)
    ensures Xor(s, w) == Xor(Xor(s, w & 1), w & 0xFFFFFFFE)
    ensures (w & 0xFFFFFFFE) & 1 == 0 && (w & 0xFFFFFFFE) >> 1 == w >> 1
  {
  }

  function Bit(b: bool): bv32 { if b then 1 else 0 }

  /** Bitwise division: the register after the message bits, taken one at a time. */
  function Divide(c: bv32, bits: seq<bool>): bv32
    decreases |bits|
  {
    if bits == [] then c else Divide(Shift(Xor(c, Bit(bits[0]))), bits[1..])
  }

  lemma {:induction false} DivideConcat(c: bv32, a: seq<bool>, b: seq<bool>)
    ensures Divide(c, a + b) == Divide(Divide(c, a), b)
    decreases |a|
  {
    hide Shift, Xor;
    if a == [] {
      assert a + b == b;
    } else {
      assert (a + b)[1..] == a[1..] + b;
      DivideConcat(Shift(Xor(c, Bit(a[0]))), a[1..], b);
    }
  }

  /** The bits of a word from the lowest one up. */
  function LowBits(w: bv32, n: nat): (bits: seq<bool>)
    ensures |bits| == n
    decreases n
  {
    if n == 0 then [] else [w & 1 != 0] + LowBits(w >> 1, n - 1)
  }

  /** A number's low binary digits as a word. */
  function Packed(n: nat, k: nat): bv32
    decreases k
  {
    if k == 0 then 0 else PushBit(Packed(n / 2, k - 1), n % 2 == 1)
  }

  function PushBit(x: bv32, b: bool): bv32 { (x << 1) | Bit(b) }

  function Wide(b: Byte): bv32 { Packed(b, 8) }

  function Top(k: nat): bv32
    decreases k
  {
    if k == 0 then 0 else PushBit(Top(k - 1), true)
  }

  lemma PushBitFits(x: bv32, m: bv32, b: bool)
    requires x <= m <= 0xFF
    ensures PushBit(x, b) <= PushBit(m, true)
    ensures (PushBit(x, b) & 1 != 0) == b && PushBit(x, b) >> 1 == x
  {
  }

  lemma TopValues()
    ensures Top(1) == 0x1 && Top(2) == 0x3 && Top(3) == 0x7 && Top(4) == 0xF
    ensures Top(5) == 0x1F && Top(6) == 0x3F && Top(7) == 0x7F && Top(8) == 0xFF
  {
  }

  lemma TopFits(k: nat)
    requires k <= 8
    ensures Top(k) <= 0xFF
  {
    TopValues();
  }

  lemma {:induction false} PackedFits(n: nat, k: nat)
    requires k <= 8
    ensures Packed(n, k) <= Top(k)
    decreases k
  {
    hide PushBit;
    if k > 0 {
      PackedFits(n / 2, k - 1);
      TopFits(k - 1);
      PushBitFits(Packed(n / 2, k - 1), Top(k - 1), n % 2 == 1);
    }
  }

  lemma WideFits(b: Byte)
    ensures Wide(b) <= 0xFF
  {
    hide Packed, PushBit;
    PackedFits(b, 8);
    TopValues();
  }

  lemma LowBitsPush(x: bv32, b: bool, k: nat)
    requires x <= 0xFF && k > 0
    ensures LowBits(PushBit(x, b), k) == [b] + LowBits(x, k - 1)
  {
    hide PushBit;
    PushBitFits(x, 0xFF, b);
  }

  /** The word's bits are the number's binary digits. */
  lemma {:induction false} PackedBits(n: nat, k: nat)
    requires k <= 8
    ensures LowBits(Packed(n, k), k) == Digits(n, k)
    decreases k
  {
    hide PushBit, LowBits;
    if k == 0 {
      NoBits(0);
    } else {
      PackedFits(n / 2, k - 1);
      TopFits(k - 1);
      LowBitsPush(Packed(n / 2, k - 1), n % 2 == 1, k);
      PackedBits(n / 2, k - 1);
    }
  }

  lemma NoBits(w: bv32)
    ensures LowBits(w, 0) == []
  {
  }

  function BitsOf(b: Byte): (bits: seq<bool>)
    ensures |bits| == 8
  {
    Digits(b, 8)
  }

  function Down(w: bv32, n: nat): bv32
    decreases n
  {
    if n == 0 then w else Down(w >> 1, n - 1)
  }

  /** Feeding a word bit by bit leaves what feeding it at once leaves, apart from the bits still to come. */
  lemma {:induction false} FeedBits(s: bv32, w: bv32, n: nat)
    ensures Shifts(Xor(s, w), n) == Xor(Divide(s, LowBits(w, n)), Down(w, n))
    decreases n
  {
    hide Shift, Xor;
    if n > 0 {
      var t := Shift(Xor(s, w & 1));
      Feed(s, w);
      LowBit(w);
      assert LowBits(w, n)[1..] == LowBits(w >> 1, n - 1);
      FeedBits(t, w >> 1, n - 1);
      ShiftsCompose(Xor(s, w), 1, n - 1);
      assert Shifts(Xor(s, w), 1) == Shift(Xor(s, w));
    }
  }

  lemma LowBit(w: bv32)
    ensures Bit(w & 1 != 0) == w & 1
  {
  }

  lemma ByteExhausted(b: Byte)
    ensures Down(Wide(b), 8) == 0
  {
    hide Wide;
    WideFits(b);
    var w := Wide(b);
    assert w >> 1 >> 1 >> 1 >> 1 >> 1 >> 1 >> 1 >> 1 == 0;
  }

  lemma XorZero(a: bv32)
    ensures Xor(a, 0) == a && Xor(0, a) == a
  {
  }

  function Low(x: bv32): bv32 { x & 0xFF }

  function High(x: bv32): bv32 { x & 0xFFFFFF00 }

  function Drop(x: bv32): bv32 { x >> 8 }

  /** The table-driven step for one byte. */
  function Step(c: bv32, b: Byte): bv32 {
    Xor(Shifts(Low(Xor(c, Wide(b))), 8), Drop(c))
  }

  predicate LowZero(h: bv32, n: nat)
    decreases n
  {
    n == 0 || (h & 1 == 0 && LowZero(h >> 1, n - 1))
  }

  /** Bits above the divided ones only move down. */
  lemma {:induction false} HighShifts(h: bv32, n: nat)
    requires LowZero(h, n)
    ensures Shifts(h, n) == Down(h, n)
    decreases n
  {
    hide Shift;
    if n > 0 {
      Even(h);
      HighShifts(h >> 1, n - 1);
      ShiftsCompose(h, 1, n - 1);
      assert Shifts(h, 1) == Shift(h);
    }
  }

  lemma HighByte(h: bv32)
    requires Low(h) == 0
    ensures LowZero(h, 8) && Down(h, 8) == Drop(h)
  {
    assert h & 1 == 0 && (h >> 1) & 1 == 0 && (h >> 1 >> 1) & 1 == 0 && (h >> 1 >> 1 >> 1) & 1 == 0;
    assert h >> 1 >> 1 >> 1 >> 1 == h >> 4;
    var g := h >> 4;
    assert g & 1 == 0 && (g >> 1) & 1 == 0 && (g >> 1 >> 1) & 1 == 0 && (g >> 1 >> 1 >> 1) & 1 == 0;
    assert g >> 1 >> 1 >> 1 >> 1 == h >> 8;
  }

  lemma WordSplit(x: bv32)
    ensures x == Xor(Low(x), High(x)) && Low(High(x)) == 0
  {
    assert x == (x & 0xFF) ^ (x & 0xFFFFFF00);
  }

  lemma ByteIsLow(c: bv32, w: bv32)
    requires w <= 0xFF
    ensures Drop(High(Xor(c, w))) == Drop(c)
  {
    assert ((c ^ w) & 0xFFFFFF00) >> 8 == c >> 8;
  }

  /** The table-driven step is eight bits of division. */
  lemma StepIsShifts(c: bv32, b: Byte)
    ensures Step(c, b) == Shifts(Xor(c, Wide(b)), 8)
  {
    hide Shifts, Xor, Wide, Low, High, Drop, LowZero, Down;
    var x := Xor(c, Wide(b));
    WordSplit(x);
    WideFits(b);
    ByteIsLow(c, Wide(b));
    ShiftsLinear(Low(x), High(x), 8);
    HighByte(High(x));
    HighShifts(High(x), 8);
  }

  lemma StepDivides(c: bv32, b: Byte)
    ensures Step(c, b) == Divide(c, BitsOf(b))
  {
    hide Shifts, Xor, Divide, LowBits, Step, Down, Packed;
    StepIsShifts(c, b);
    PackedBits(b, 8);
    FeedBits(c, Wide(b), 8);
    ByteExhausted(b);
    XorZero(Divide(c, BitsOf(b)));
  }

  lemma XorInjective(a: bv32, b: bv32, c: bv32)
    ensures Xor(a, c) == Xor(b, c) ==> a == b
    ensures Xor(c, a) == Xor(c, b) ==> a == b
  {
  }

  /** One step never merges two registers, nor two bytes. */
  lemma StepInjective(c: bv32, d: bv32, x: Byte, y: Byte)
    ensures Step(c, x) == Step(d, x) ==> c == d
    ensures Step(c, x) == Step(c, y) ==> x == y
  {
    hide Shifts, Xor, Step, Wide;
    StepIsShifts(c, x);
    StepIsShifts(d, x);
    StepIsShifts(c, y);
    XorInjective(c, d, Wide(x));
    XorInjective(Wide(x), Wide(y), c);
    WideInjective(x, y);
    if Step(c, x) == Step(d, x) { ShiftsInjective(Xor(c, Wide(x)), Xor(d, Wide(x)), 8); }
    if Step(c, x) == Step(c, y) { ShiftsInjective(Xor(c, Wide(x)), Xor(c, Wide(y)), 8); }
  }

  lemma {:induction false} DigitsInjective(m: nat, n: nat, k: nat)
    requires m < Pow2(k) && n < Pow2(k) && Digits(m, k) == Digits(n, k)
    ensures m == n
    decreases k
  {
    if k > 0 {
      assert Digits(m, k)[0] == Digits(n, k)[0] && Digits(m, k)[1..] == Digits(n, k)[1..];
      DigitsInjective(m / 2, n / 2, k - 1);
    }
  }

  lemma WideInjective(x: Byte, y: Byte)
    ensures Wide(x) == Wide(y) ==> x == y
  {
    hide Packed, LowBits, Digits;
    PackedBits(x, 8);
    PackedBits(y, 8);
    if Wide(x) == Wide(y) { DigitsInjective(x, y, 8); }
  }

  // --------------------------------------------------------------- streams

  function Absorb(c: bv32, data: seq<Byte>): bv32
    decreases |data|
  {
    if data == [] then c else Absorb(Step(c, data[0]), data[1..])
  }

  lemma {:induction false} AbsorbConcat(c: bv32, a: seq<Byte>, b: seq<Byte>)
    ensures Absorb(c, a + b) == Absorb(Absorb(c, a), b)
    decreases |a|
  {
    hide Step;
    if a == [] {
      assert a + b == b;
    } else {
      assert (a + b)[1..] == a[1..] + b;
      AbsorbConcat(Step(c, a[0]), a[1..], b);
    }
  }

  function Complement(c: bv32): bv32 { c ^ 0xFFFFFFFF }

  lemma ComplementTwice(c: bv32)
    ensures Complement(Complement(c)) == c
  {
  }

  /** CRC-32C of a stream, continued from an earlier value. */
  function Crc(data: seq<Byte>, seed: bv32): bv32 {
    Complement(Absorb(Complement(seed), data))
  }

  function MessageBits(data: seq<Byte>): seq<bool>
    decreases |data|
  {
    if data == [] then [] else BitsOf(data[0]) + MessageBits(data[1..])
  }

  lemma {:induction false} AbsorbDivides(c: bv32, data: seq<Byte>)
    ensures Absorb(c, data) == Divide(c, MessageBits(data))
    decreases |data|
  {
    hide Step, BitsOf;
    if data != [] {
      StepDivides(c, data[0]);
      DivideConcat(c, BitsOf(data[0]), MessageBits(data[1..]));
      AbsorbDivides(Step(c, data[0]), data[1..]);
    }
  }

  /** The table-driven CRC is bitwise division of the message by the polynomial. */
  lemma CrcIsDivision(data: seq<Byte>, seed: bv32)
    ensures Crc(data, seed) == Complement(Divide(Complement(seed), MessageBits(data)))
  {
    hide Absorb, Divide, MessageBits;
    AbsorbDivides(Complement(seed), data);
  }

  /** The CRC of a concatenation is the CRC of the second part continued from that of the first. */
  lemma CrcChains(a: seq<Byte>, b: seq<Byte>, seed: bv32)
    ensures Crc(a + b, seed) == Crc(b, Crc(a, seed))
  {
    hide Absorb, Complement;
    AbsorbConcat(Complement(seed), a, b);
    ComplementTwice(Absorb(Complement(seed), a));
  }

  // -------------------------------------------------------- error detection

  lemma {:induction false} AbsorbInjective(c: bv32, d: bv32, data: seq<Byte>)
    requires Absorb(c, data) == Absorb(d, data)
    ensures c == d
    decreases |data|
  {
    hide Step;
    if data != [] {
      AbsorbInjective(Step(c, data[0]), Step(d, data[0]), data[1..]);
      StepInjective(c, d, data[0], data[0]);
    }
  }

  /** Up to four bytes as one word, first byte lowest. */
  function Word(w: seq<Byte>): bv32
    decreases |w|
  {
    if w == [] then 0 else Xor(Wide(w[0]), Up(Word(w[1..])))
  }

  function Up(x: bv32): bv32 { x << 8 }

  /** Fits in the given number of bytes. */
  predicate Narrow(x: bv32, n: nat) {
    (n == 0 ==> x == 0) && (n == 1 ==> x <= 0xFF) && (n == 2 ==> x <= 0xFFFF) && (n == 3 ==> x <= 0xFFFFFF)
  }

  lemma OneByte(w: bv32)
    requires w <= 0xFF
    ensures w ^ (0 << 8) <= 0xFF
  {
  }

  lemma TwoBytes(w: bv32, x: bv32)
    requires w <= 0xFF && x <= 0xFF
    ensures w ^ (x << 8) <= 0xFFFF
  {
  }

  lemma ThreeBytes(w: bv32, x: bv32)
    requires w <= 0xFF && x <= 0xFFFF
    ensures w ^ (x << 8) <= 0xFFFFFF
  {
  }

  lemma UpDown(x: bv32)
    requires x <= 0xFFFFFF
    ensures (x << 8) & 0xFF == 0 && (x << 8) >> 8 == x
  {
  }

  lemma NarrowUp(b: Byte, x: bv32, n: nat)
    requires Narrow(x, n) && n < 4
    ensures Narrow(Xor(Wide(b), Up(x)), n + 1)
    ensures Low(Up(x)) == 0 && Drop(Up(x)) == x
  {
    hide Wide;
    var w := Wide(b);
    WideFits(b);
    assert x <= 0xFFFFFF;
    UpDown(x);
    if n == 0 { OneByte(w); } else if n == 1 { TwoBytes(w, x); } else if n == 2 { ThreeBytes(w, x); }
  }

  lemma {:induction false} WordNarrow(w: seq<Byte>)
    requires |w| <= 4
    ensures Narrow(Word(w), |w|)
    decreases |w|
  {
    hide Narrow, Xor, Wide, Up;
    if w == [] {
      NarrowZero();
    } else {
      WordNarrow(w[1..]);
      NarrowUp(w[0], Word(w[1..]), |w| - 1);
    }
  }

  lemma NarrowZero()
    ensures Narrow(0, 0)
  {
  }

  /** Four bytes or fewer enter the register as one word. */
  lemma {:induction false} AbsorbWord(c: bv32, w: seq<Byte>)
    requires |w| <= 4
    ensures Absorb(c, w) == Shifts(Xor(c, Word(w)), 8 * |w|)
    decreases |w|
  {
    hide Xor, Wide, Up, Low, Drop, Narrow, Step, LowZero, Down;
    if w == [] {
      XorZero(c);
      assert Shifts(c, 0) == c;
    } else {
      var rest := Word(w[1..]);
      var first := Xor(c, Wide(w[0]));
      WordNarrow(w[1..]);
      NarrowUp(w[0], rest, |w| - 1);
      StepIsShifts(c, w[0]);
      AbsorbWord(Step(c, w[0]), w[1..]);
      HighByte(Up(rest));
      HighShifts(Up(rest), 8);
      ShiftsLinear(first, Up(rest), 8);
      XorAssociates(c, Wide(w[0]), Up(rest));
      ShiftsCompose(Xor(c, Word(w)), 8, 8 * (|w| - 1));
    }
  }

  lemma LowestByte(w: bv32, a: bv32)
    requires w <= 0xFF
    ensures (w ^ (a << 8)) & 0xFF == w && (w ^ (a << 8)) >> 8 == (a << 8) >> 8
  {
  }

  lemma WordSeparates(x: Byte, y: Byte, a: bv32, b: bv32, n: nat)
    requires Narrow(a, n) && Narrow(b, n) && n < 4 && Xor(Wide(x), Up(a)) == Xor(Wide(y), Up(b))
    ensures x == y && a == b
  {
    hide Wide, Narrow;
    WideFits(x);
    WideFits(y);
    LowestByte(Wide(x), a);
    LowestByte(Wide(y), b);
    WideInjective(x, y);
    NarrowUp(x, a, n);
    NarrowUp(y, b, n);
  }

  lemma {:induction false} WordInjective(v: seq<Byte>, w: seq<Byte>)
    requires |v| == |w| <= 4 && Word(v) == Word(w)
    ensures v == w
    decreases |v|
  {
    hide Xor, Wide, Up, Narrow;
    if v != [] {
      WordNarrow(v[1..]);
      WordNarrow(w[1..]);
      WordSeparates(v[0], w[0], Word(v[1..]), Word(w[1..]), |v| - 1);
      WordInjective(v[1..], w[1..]);
      assert v == [v[0]] + v[1..] && w == [w[0]] + w[1..];
    }
  }

  /** Any damage confined to four consecutive bytes changes the CRC. */
  lemma BurstDetected(before: seq<Byte>, v: seq<Byte>, w: seq<Byte>, after: seq<Byte>, seed: bv32)
    requires |v| == |w| <= 4 && v != w
    ensures Crc(before + v + after, seed) != Crc(before + w + after, seed)
  {
    hide Absorb, Complement, Word, Xor, Shifts;
    var c := Absorb(Complement(seed), before);
    var x, y := Absorb(c, v), Absorb(c, w);
    Continued(seed, before, v, after);
    Continued(seed, before, w, after);
    ComplementTwice(Absorb(x, after));
    ComplementTwice(Absorb(y, after));
    AbsorbWord(c, v);
    AbsorbWord(c, w);
    if Crc(before + v + after, seed) == Crc(before + w + after, seed) {
      AbsorbInjective(x, y, after);
      ShiftsInjective(Xor(c, Word(v)), Xor(c, Word(w)), 8 * |v|);
      XorInjective(Word(v), Word(w), c);
      WordInjective(v, w);
    }
  }

  lemma Continued(seed: bv32, before: seq<Byte>, v: seq<Byte>, after: seq<Byte>)
    ensures Crc(before + v + after, seed) == Complement(Absorb(Absorb(Absorb(Complement(seed), before), v), after))
  {
    hide Absorb, Complement;
    AbsorbConcat(Complement(seed), before + v, after);
    AbsorbConcat(Complement(seed), before, v);
  }

  // ------------------------------------------------------------- the loops

  /** The table: entry i is eight bits of division of i. */
  method MakeTable() returns (table: seq<bv32>)
    ensures |table| == 256
    ensures forall i :: 0 <= i < 256 ==> table[i] == Shifts(i as bv32, 8)
  {
    hide Shift;
    table := seq(256, _ => 0);
    for i := 0 to 256
      invariant |table| == 256
      invariant forall k :: 0 <= k < i ==> table[k] == Shifts(k as bv32, 8)
    {
      var crc := i as bv32;
      for bit := 0 to 8
        invariant crc == Shifts(i as bv32, bit)
      {
        ShiftBody(crc);
        crc := if crc & 1 != 0 then (crc >> 1) ^ POLYNOMIAL else crc >> 1;
      }
      table := table[i := crc];
    }
  }

  lemma ShiftBody(c: bv32)
    ensures Shift(c) == if c & 1 != 0 then (c >> 1) ^ POLYNOMIAL else c >> 1
  {
  }

  method Crc32c(table: seq<bv32>, data: seq<Byte>, seed: bv32) returns (value: bv32)
    requires |table| == 256 && forall i :: 0 <= i < 256 ==> table[i] == Shifts(i as bv32, 8)
    ensures value == Crc(data, seed)
  {
    hide Step, Shifts;
    var crc := Complement(seed);
    for i := 0 to |data|
      invariant Absorb(crc, data[i..]) == Absorb(Complement(seed), data)
    {
      LookUp(table, crc, data[i]);
      assert data[i..][1..] == data[i + 1..];
      crc := Xor(table[Low(Xor(crc, Wide(data[i]))) as nat], Drop(crc));
    }
    return Complement(crc);
  }

  lemma LookUp(table: seq<bv32>, c: bv32, b: Byte)
    requires |table| == 256 && forall i :: 0 <= i < 256 ==> table[i] == Shifts(i as bv32, 8)
    ensures var k := Low(Xor(c, Wide(b))) as nat; k < 256 && Xor(table[k], Drop(c)) == Step(c, b)
  {
    hide Shifts, Xor;
    var x := Low(Xor(c, Wide(b)));
    LowFits(Xor(c, Wide(b)));
    assert table[x as nat] == Shifts(x as nat as bv32, 8);
  }

  lemma LowFits(x: bv32)
    ensures Low(x) as nat < 256 && Low(x) as nat as bv32 == Low(x)
  {
  }
}
