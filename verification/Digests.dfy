/** Streamed digests and the generated checkpoint content: however a shard is cut
into chunks, its bytes and its digest are the same. */
module Digests {
  import opened Bytes
  import opened Hash
  import opened Model

  // ------------------------------------------------------------------ FNV-1a

  const FNV_PRIME: nat := 0x100000001B3

  /** A byte meets only the low eight bits of the hash. */
  function Mixed(h: nat, b: Byte): nat { Joined(h / 256, XorByte(LowByte(h), b)) }

  function Joined(high: nat, low: Byte): nat { 256 * high + low }

  function LowByte(h: nat): Byte { h % 256 }

  /** One byte; the product wraps at 64 bits. */
  function FnvStep(h: nat, b: Byte): (r: nat)
    ensures r < U64
  {
    Mixed(h, b) * FNV_PRIME % U64
  }

  function Fnv(data: seq<Byte>, seed: nat): nat
    decreases |data|
  {
    if data == [] then seed else Fnv(data[1..], FnvStep(seed, data[0]))
  }

  lemma {:induction false} FnvChains(a: seq<Byte>, b: seq<Byte>, seed: nat)
    ensures Fnv(a + b, seed) == Fnv(b, Fnv(a, seed))
    decreases |a|
  {
    hide FnvStep;
    if a == [] {
      assert a + b == b;
    } else {
      assert (a + b)[1..] == a[1..] + b;
      FnvChains(a[1..], b, FnvStep(seed, a[0]));
    }
  }

  /** The multiplier has an inverse modulo the word size, so a product can be undone. */
  lemma ProductUndone(x: nat)
    requires x < U64
    ensures (x * FNV_PRIME % U64) * 0xCE965057AFF6957B % U64 == x
  {
    var y := x * 0x100000001B3;
    var q, r := y / U64, y % U64;
    assert 0x100000001B3 * 0xCE965057AFF6957B == 887285111055 * U64 + 1;
    var k := x * 887285111055 - q * 0xCE965057AFF6957B;
    assert r == y - q * U64;
    assert y * 0xCE965057AFF6957B == x * (887285111055 * U64 + 1);
    assert r * 0xCE965057AFF6957B == k * U64 + x;
    Remainder(k, x);
  }

  lemma Remainder(k: int, x: nat)
    requires x < U64 && k * U64 + x >= 0
    ensures (k * U64 + x) % U64 == x
  {
  }

  lemma MixedFits(h: nat, b: Byte)
    ensures Mixed(h, b) / 256 == h / 256 && Mixed(h, b) % 256 == XorByte(LowByte(h), b)
    ensures h < U64 ==> Mixed(h, b) < U64
  {
    hide XorByte;
  }

  lemma FnvStepInjective(g: nat, h: nat, x: Byte, y: Byte)
    requires g < U64 && h < U64
    ensures FnvStep(g, x) == FnvStep(h, x) ==> g == h
    ensures FnvStep(g, x) == FnvStep(g, y) ==> x == y
  {
    hide Mixed, FnvStep, XorByte;
    MixedFits(g, x);
    MixedFits(h, x);
    MixedFits(g, y);
    StepUndone(g, x);
    StepUndone(h, x);
    StepUndone(g, y);
    XorByteInjective(LowByte(g), LowByte(h), x);
    XorByteInjective(x, y, LowByte(g));
  }

  lemma StepUndone(h: nat, b: Byte)
    requires Mixed(h, b) < U64
    ensures FnvStep(h, b) * 0xCE965057AFF6957B % U64 == Mixed(h, b)
  {
    hide Mixed;
    ProductUndone(Mixed(h, b));
  }

  method Fnv1a(data: seq<Byte>, seed: nat) returns (hash: nat)
    ensures hash == Fnv(data, seed)
  {
    hide Mixed;
    hash := seed;
    for i := 0 to |data|
      invariant Fnv(data[i..], hash) == Fnv(data, seed)
    {
      assert data[i..][1..] == data[i + 1..];
      hash := Mixed(hash, data[i]);
      hash := hash * FNV_PRIME % U64;
    }
  }

  // ------------------------------------------------------------------ digests

  datatype Digest = Digest(crc: bv32, fnv: nat)

  function DigestOf(data: seq<Byte>): Digest { Digest(Crc(data, 0), Fnv(data, FNV_SEED)) }

  /** Both checksums tell two streams apart that differ in one byte. */
  lemma DigestSeparates(before: seq<Byte>, x: Byte, y: Byte, after: seq<Byte>)
    requires x != y
    ensures var d, e := DigestOf(before + [x] + after), DigestOf(before + [y] + after); d.crc != e.crc && d.fnv != e.fnv
  {
    hide Crc, Fnv, FnvStep;
    BurstDetected(before, [x], [y], after, 0);
    FnvOneByte(before, x, after, FNV_SEED);
    FnvOneByte(before, y, after, FNV_SEED);
    var h := Fnv(before, FNV_SEED);
    FnvFits(before, FNV_SEED);
    FnvStepInjective(h, h, x, y);
    if Fnv(before + [x] + after, FNV_SEED) == Fnv(before + [y] + after, FNV_SEED) {
      FnvInjective(FnvStep(h, x), FnvStep(h, y), after);
    }
  }

  lemma {:induction false} FnvFits(data: seq<Byte>, seed: nat)
    requires seed < U64
    ensures Fnv(data, seed) < U64
    decreases |data|
  {
    hide FnvStep;
    if data != [] { FnvFits(data[1..], FnvStep(seed, data[0])); }
  }

  lemma FnvOneByte(before: seq<Byte>, x: Byte, after: seq<Byte>, seed: nat)
    ensures Fnv(before + [x] + after, seed) == Fnv(after, FnvStep(Fnv(before, seed), x))
  {
    hide FnvStep;
    FnvChains(before + [x], after, seed);
    FnvChains(before, [x], seed);
  }

  lemma {:induction false} FnvInjective(g: nat, h: nat, data: seq<Byte>)
    requires g < U64 && h < U64 && Fnv(data, g) == Fnv(data, h)
    ensures g == h
    decreases |data|
  {
    hide FnvStep;
    if data != [] {
      FnvInjective(FnvStep(g, data[0]), FnvStep(h, data[0]), data[1..]);
      FnvStepInjective(g, h, data[0], data[0]);
    }
  }

  /** Digest of a stream that arrives in pieces. */
  class DigestBuilder {
    const table: seq<bv32>
    var crc: bv32
    var fnv: nat
    ghost var seen: seq<Byte>

    ghost predicate Valid()
      reads this
    {
      && |table| == 256 && (forall i :: 0 <= i < 256 ==> table[i] == Shifts(i as bv32, 8))
      && Digest(crc, fnv) == DigestOf(seen)
    }

    constructor (entries: seq<bv32>)
      requires |entries| == 256 && forall i :: 0 <= i < 256 ==> entries[i] == Shifts(i as bv32, 8)
      ensures Valid() && seen == []
    {
      table, crc, fnv, seen := entries, 0, FNV_SEED, [];
      new;
      NothingSeen();
    }

    method Update(data: seq<Byte>)
      requires Valid()
      modifies this
      ensures Valid() && seen == old(seen) + data
    {
      hide Crc, Fnv, Shifts;
      CrcChains(seen, data, 0);
      FnvChains(seen, data, FNV_SEED);
      crc := Crc32c(table, data, crc);
      fnv := Fnv1a(data, fnv);
      seen := seen + data;
    }

    method Finish() returns (d: Digest)
      requires Valid()
      ensures d == DigestOf(seen)
    {
      return Digest(crc, fnv);
    }

    method Reset()
      requires Valid()
      modifies this
      ensures Valid() && seen == []
    {
      hide Shifts;
      crc, fnv, seen := 0, FNV_SEED, [];
      NothingSeen();
    }
  }

  lemma NothingSeen()
    ensures DigestOf([]) == Digest(0, FNV_SEED)
  {
    ComplementTwice(0);
  }

  // ------------------------------------------------------- generated content

  const WORDS: nat := 0x2000_0000_0000_0000
  const BLOCK: nat := 65536

  function SplitMix(seed: bv64): bv64 {
    var z := seed + 0x9E3779B97F4A7C15;
    var y := (z ^ (z >> 30)) * 0xBF58476D1CE4E5B9;
    var x := (y ^ (y >> 27)) * 0x94D049BB133111EB;
    x ^ (x >> 31)
  }

  function WordAt(base: bv64, k: nat): bv64
    requires k < WORDS
  {
    SplitMix(base ^ ((k as bv64) * 0xD1B54A32D192ED03))
  }

  function ByteOf(word: bv64, j: nat): Byte
    requires j < 8
  {
    ((word >> (8 * j)) & 0xFF) as nat
  }

  /** The byte at a position of the stream; positions wrap at 64 bits. */
  function ContentByte(base: bv64, n: nat): Byte {
    ByteOf(WordAt(base, (n / 8) % WORDS), n % 8)
  }

  function Content(base: bv64, offset: nat, n: nat): (bytes: seq<Byte>)
    ensures |bytes| == n
    ensures forall i :: 0 <= i < n ==> bytes[i] == ContentByte(base, offset + i)
  {
    seq<Byte>(n, i requires 0 <= i < n => ContentByte(base, offset + i))
  }

  lemma WrappedWord(n: nat)
    ensures (n % U64) / 8 == (n / 8) % WORDS && (n % U64) % 8 == n % 8
  {
    var q, r := n / U64, n % U64;
    assert n == q * U64 + r;
    assert n / 8 == q * WORDS + r / 8;
    assert (q * WORDS + r / 8) % WORDS == (r / 8) % WORDS;
  }

  lemma SameWord(n: nat, k: nat)
    requires n % 8 + k < 8
    ensures (n + k) / 8 == n / 8 && (n + k) % 8 == n % 8 + k
  {
  }

  /** Writes the content from an offset on, a word at a time. */
  method Fill(base: bv64, offset: nat, out: array<Byte>, count: nat)
    requires count <= out.Length
    modifies out
    ensures out[..count] == Content(base, offset, count)
  {
    hide WordAt, ByteOf;
    var index := 0;
    while index < count
      invariant 0 <= index <= count
      invariant forall i :: 0 <= i < index ==> out[i] == ContentByte(base, offset + i)
    {
      var absolute := (offset + index) % U64;
      WrappedWord(offset + index);
      ghost var first := index;
      var word := WordAt(base, absolute / 8);
      var j := absolute % 8;
      while j < 8 && index < count
        invariant 0 <= j <= 8 && first <= index <= count
        invariant (offset + first) % 8 + (index - first) == j
        invariant forall i :: 0 <= i < index ==> out[i] == ContentByte(base, offset + i)
        invariant index > first || j < 8
        decreases 8 - j
      {
        SameWord(offset + first, index - first);
        assert offset + first + (index - first) == offset + index;
        out[index] := ByteOf(word, j);
        j, index := j + 1, index + 1;
      }
    }
  }

  /** Digest of the first bytes of the content, block by block. */
  method ContentDigest(base: bv64, bytes: nat) returns (d: Digest)
    ensures d == DigestOf(Content(base, 0, bytes))
  {
    hide Crc, Fnv, Shifts, ContentByte;
    var table := MakeTable();
    var builder := new DigestBuilder(table);
    var size := if bytes < BLOCK then bytes else BLOCK;
    var buffer := new Byte[size];
    if size == 0 {
      assert Content(base, 0, bytes) == [];
      d := builder.Finish();
      return;
    }
    var offset := 0;
    assert Content(base, 0, 0) == [];
    while offset < bytes
      invariant 0 <= offset <= bytes && size > 0
      invariant builder.Valid() && fresh(builder) && fresh(buffer) && buffer.Length == size
      invariant builder.seen == Content(base, 0, offset)
      decreases bytes - offset
    {
      var chunk := if bytes - offset < size then bytes - offset else size;
      Fill(base, offset, buffer, chunk);
      ContentJoins(base, 0, offset, chunk);
      builder.Update(buffer[..chunk]);
      offset := offset + chunk;
    }
    d := builder.Finish();
  }

  lemma ContentJoins(base: bv64, offset: nat, m: nat, n: nat)
    ensures Content(base, offset, m) + Content(base, offset + m, n) == Content(base, offset, m + n)
  {
    hide ContentByte;
    var joined, whole := Content(base, offset, m) + Content(base, offset + m, n), Content(base, offset, m + n);
    forall k | 0 <= k < m + n ensures joined[k] == whole[k] {
      if m <= k { assert offset + m + (k - m) == offset + k; }
    }
  }

  // ------------------------------------------------------ chunked transfers

  function Sum(sizes: seq<nat>): nat
    decreases |sizes|
  {
    if sizes == [] then 0 else sizes[0] + Sum(sizes[1..])
  }

  /** A transfer in chunks of the given sizes, starting at an offset. */
  function Chunks(base: bv64, offset: nat, sizes: seq<nat>): seq<seq<Byte>>
    decreases |sizes|
  {
    if sizes == [] then [] else [Content(base, offset, sizes[0])] + Chunks(base, offset + sizes[0], sizes[1..])
  }

  function Streamed(d: Digest, chunks: seq<seq<Byte>>): Digest
    decreases |chunks|
  {
    if chunks == [] then d else Streamed(Digest(Crc(chunks[0], d.crc), Fnv(chunks[0], d.fnv)), chunks[1..])
  }

  lemma {:induction false} StreamedFrom(base: bv64, d: Digest, offset: nat, sizes: seq<nat>)
    ensures var whole := Content(base, offset, Sum(sizes));
            Streamed(d, Chunks(base, offset, sizes)) == Digest(Crc(whole, d.crc), Fnv(whole, d.fnv))
    decreases |sizes|
  {
    hide ContentByte, Crc, Fnv;
    if sizes == [] {
      assert Content(base, offset, 0) == [];
      EmptyUpdate(d);
    } else {
      var first := Content(base, offset, sizes[0]);
      var rest := Content(base, offset + sizes[0], Sum(sizes[1..]));
      var e := Digest(Crc(first, d.crc), Fnv(first, d.fnv));
      assert Chunks(base, offset, sizes)[1..] == Chunks(base, offset + sizes[0], sizes[1..]);
      StreamedFrom(base, e, offset + sizes[0], sizes[1..]);
      ContentJoins(base, offset, sizes[0], Sum(sizes[1..]));
      CrcChains(first, rest, d.crc);
      FnvChains(first, rest, d.fnv);
    }
  }

  lemma EmptyUpdate(d: Digest)
    ensures Crc([], d.crc) == d.crc && Fnv([], d.fnv) == d.fnv
  {
    ComplementTwice(d.crc);
  }

  /** However a shard is cut into chunks, the receiver's running digest ends at the sender's declared digest. */
  lemma ChunkingIrrelevant(base: bv64, sizes: seq<nat>)
    ensures Streamed(Digest(0, FNV_SEED), Chunks(base, 0, sizes)) == DigestOf(Content(base, 0, Sum(sizes)))
  {
    hide Crc, Fnv, Content;
    StreamedFrom(base, Digest(0, FNV_SEED), 0, sizes);
  }
}
