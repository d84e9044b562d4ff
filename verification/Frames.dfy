/** Frames on the wire: a checksummed header and payload, refused unless every
byte of them is the one that was sent. */
module Frames {
  import opened Bytes
  import opened Hash
  import opened Model
  import opened Wire
  import opened Codec

  const FRAME_MAGIC: nat := 0x31465443
  const PROTOCOL_VERSION: nat := 1
  const MAX_PAYLOAD: nat := 0x10_0000
  const WORD: nat := 0x1_0000_0000

  // A register as a number and back, under names that proofs can keep folded.

  function WordValue(x: bv32): (n: nat)
    ensures n < WORD
  {
    x as nat
  }

  function ValueWord(n: nat): bv32
    requires n < WORD
  {
    n as bv32
  }

  lemma WordReturns(x: bv32)
    ensures ValueWord(WordValue(x)) == x
  {
  }

  function CrcOf(data: seq<Byte>): (n: nat)
    ensures n < WORD
  {
    WordValue(Crc(data, 0))
  }

  lemma CrcOfSeparates(a: seq<Byte>, b: seq<Byte>)
    requires Crc(a, 0) != Crc(b, 0)
    ensures CrcOf(a) != CrcOf(b)
  {
    hide Crc, WordValue, ValueWord;
    WordReturns(Crc(a, 0));
    WordReturns(Crc(b, 0));
  }

  /** A different byte in one place changes the checksum. */
  lemma CrcNoticesByte(data: seq<Byte>, i: nat, y: Byte)
    requires i < |data| && data[i] != y
    ensures CrcOf(data[i := y]) != CrcOf(data)
  {
    hide Crc, CrcOf;
    var before, after := data[..i], data[i + 1..];
    assert data == before + [data[i]] + after && data[i := y] == before + [y] + after;
    BurstDetected(before, [data[i]], [y], after, 0);
    CrcOfSeparates(data, data[i := y]);
  }

  // ----------------------------------------------------------------- fields

  /** A number at a fixed place of a buffer. */
  function Field(data: seq<Byte>, at: nat, width: nat): nat
    requires at + width <= |data|
  {
    Number(data[at..at + width])
  }

  lemma FieldBytes(data: seq<Byte>, at: nat, width: nat)
    requires at + width <= |data|
    ensures data[at..at + width] == BigEndian(Field(data, at, width), width)
    ensures Field(data, at, width) < Pow256(width)
  {
    hide BigEndian, Number;
    BigEndianOfNumber(data[at..at + width]);
  }

  /** A field of the buffer determines its bytes. */
  lemma FieldInjective(a: seq<Byte>, b: seq<Byte>, at: nat, width: nat)
    requires at + width <= |a| == |b| && Field(a, at, width) == Field(b, at, width)
    ensures a[at..at + width] == b[at..at + width]
  {
    hide BigEndian, Number;
    FieldBytes(a, at, width);
    FieldBytes(b, at, width);
  }

  // ----------------------------------------------------------------- frames

  datatype Header = Header(version: nat, kind: nat, flags: nat, sequence: nat)

  predicate HeaderOk(h: Header) { h.version < 65536 && h.kind < 65536 && h.flags < WORD && h.sequence < U64 }

  datatype WireFault =
    | TruncatedInput | InvalidSyntax | VersionIncompatible | IntegrityFailure | PayloadTooLarge | TrailingGarbage
    | NonCanonicalEncoding | StringTooLong

  datatype Framed = Frame(header: Header, payload: seq<Byte>) | BadFrame(fault: WireFault)

  /** The checksummed part of the header. */
  function Head(h: Header, length: nat): (head: seq<Byte>)
    ensures |head| == 24
  {
    BigEndian(FRAME_MAGIC, 4) + BigEndian(h.version, 2) + BigEndian(h.kind, 2) + BigEndian(h.flags, 4)
    + BigEndian(h.sequence, 8) + BigEndian(length, 4)
  }

  function FrameBytes(h: Header, payload: seq<Byte>): (frame: seq<Byte>)
    ensures |frame| == 32 + |payload|
  {
    Head(h, |payload|) + BigEndian(CrcOf(Head(h, |payload|)), 4) + BigEndian(CrcOf(payload), 4) + payload
  }

  function DecodeFrame(data: seq<Byte>): Framed {
    if |data| < 32 then BadFrame(TruncatedInput)
    else if Field(data, 0, 4) != FRAME_MAGIC then BadFrame(InvalidSyntax)
    else if Field(data, 4, 2) != PROTOCOL_VERSION then BadFrame(VersionIncompatible)
    else if Field(data, 24, 4) != CrcOf(data[..24]) then BadFrame(IntegrityFailure)
    else if Field(data, 20, 4) > MAX_PAYLOAD then BadFrame(PayloadTooLarge)
    else if |data| != 32 + Field(data, 20, 4) then
      BadFrame(if |data| < 32 + Field(data, 20, 4) then TruncatedInput else TrailingGarbage)
    else if Field(data, 28, 4) != CrcOf(data[32..]) then BadFrame(IntegrityFailure)
    else Frame(Header(Field(data, 4, 2), Field(data, 6, 2), Field(data, 8, 4), Field(data, 12, 8)), data[32..])
  }

  lemma HeadFields(h: Header, length: nat, rest: seq<Byte>)
    requires HeaderOk(h) && length < WORD
    ensures var d := Head(h, length) + rest;
            && Field(d, 0, 4) == FRAME_MAGIC && Field(d, 4, 2) == h.version && Field(d, 6, 2) == h.kind
            && Field(d, 8, 4) == h.flags && Field(d, 12, 8) == h.sequence && Field(d, 20, 4) == length
            && d[..24] == Head(h, length)
  {
    hide BigEndian, Number, Pow256;
    SmallPowers();
    var d := Head(h, length) + rest;
    assert d[0..4] == BigEndian(FRAME_MAGIC, 4);
    assert d[4..6] == BigEndian(h.version, 2);
    assert d[6..8] == BigEndian(h.kind, 2);
    assert d[8..12] == BigEndian(h.flags, 4);
    assert d[12..20] == BigEndian(h.sequence, 8);
    assert d[20..24] == BigEndian(length, 4);
    NumberOfBigEndian(FRAME_MAGIC, 4);
    NumberOfBigEndian(h.version, 2);
    NumberOfBigEndian(h.kind, 2);
    NumberOfBigEndian(h.flags, 4);
    NumberOfBigEndian(h.sequence, 8);
    NumberOfBigEndian(length, 4);
  }

  lemma TailFields(head: seq<Byte>, a: nat, b: nat, payload: seq<Byte>)
    requires |head| == 24 && a < WORD && b < WORD
    ensures var d := head + BigEndian(a, 4) + BigEndian(b, 4) + payload;
            Field(d, 24, 4) == a && Field(d, 28, 4) == b && d[32..] == payload
  {
    hide BigEndian, Number, Pow256;
    SmallPowers();
    var d := head + BigEndian(a, 4) + BigEndian(b, 4) + payload;
    assert d[24..28] == BigEndian(a, 4) && d[28..32] == BigEndian(b, 4);
    NumberOfBigEndian(a, 4);
    NumberOfBigEndian(b, 4);
  }

  /** A frame of the supported version decodes to what was framed; any other is refused as incompatible. */
  lemma FrameRoundTrip(h: Header, payload: seq<Byte>)
    requires HeaderOk(h) && |payload| <= MAX_PAYLOAD
    ensures DecodeFrame(FrameBytes(h, payload)) ==
            if h.version == PROTOCOL_VERSION then Frame(h, payload) else BadFrame(VersionIncompatible)
  {
    hide BigEndian, Number, Field, CrcOf, Head;
    var head := Head(h, |payload|);
    var d := FrameBytes(h, payload);
    var rest := BigEndian(CrcOf(head), 4) + BigEndian(CrcOf(payload), 4) + payload;
    assert d == head + rest;
    HeadFields(h, |payload|, rest);
    TailFields(head, CrcOf(head), CrcOf(payload), payload);
  }

  lemma HeadOf(data: seq<Byte>)
    requires |data| >= 24 && Field(data, 0, 4) == FRAME_MAGIC
    ensures var h := Header(Field(data, 4, 2), Field(data, 6, 2), Field(data, 8, 4), Field(data, 12, 8));
            HeaderOk(h) && data[..24] == Head(h, Field(data, 20, 4))
  {
    hide BigEndian, Number, Pow256, Field;
    SmallPowers();
    FieldBytes(data, 0, 4);
    FieldBytes(data, 4, 2);
    FieldBytes(data, 6, 2);
    FieldBytes(data, 8, 4);
    FieldBytes(data, 12, 8);
    FieldBytes(data, 20, 4);
    assert data[..24] == data[0..4] + data[4..6] + data[6..8] + data[8..12] + data[12..20] + data[20..24];
  }

  /** A frame that is accepted is byte for byte the one its contents frame to. */
  lemma FrameCanonical(data: seq<Byte>)
    requires DecodeFrame(data).Frame?
    ensures var f := DecodeFrame(data); HeaderOk(f.header) && |f.payload| <= MAX_PAYLOAD && data == FrameBytes(f.header, f.payload)
  {
    hide BigEndian, Number, Field, CrcOf, Head, HeaderOk;
    HeadOf(data);
    FieldBytes(data, 24, 4);
    FieldBytes(data, 28, 4);
    assert data == data[..24] + data[24..28] + data[28..32] + data[32..];
  }

  /** Neither a strict prefix of a valid frame nor a frame with bytes behind it is accepted. */
  lemma FrameExtentRefused(data: seq<Byte>, other: seq<Byte>)
    requires DecodeFrame(data).Frame? && (other < data || data < other)
    ensures DecodeFrame(other).BadFrame?
  {
    hide CrcOf, Number;
    if |other| >= 32 { assert other[20..24] == data[20..24]; }
  }

  /** Changing any one byte of a valid frame, header, checksums or payload, makes the decoder refuse it. */
  lemma OneByteRefused(data: seq<Byte>, i: nat, y: Byte)
    requires DecodeFrame(data).Frame? && i < |data| && data[i] != y
    ensures DecodeFrame(data[i := y]).BadFrame?
  {
    hide CrcOf, Field;
    var bad := data[i := y];
    if i < 24 {
      CrcNoticesByte(data[..24], i, y);
      assert bad[..24] == data[..24][i := y];
      SameField(data, bad, 24, 4);
    } else if i < 28 {
      assert bad[..24] == data[..24];
      ChangedField(data, i, y, 24, 4);
    } else if i < 32 {
      assert bad[32..] == data[32..];
      ChangedField(data, i, y, 28, 4);
    } else {
      CrcNoticesByte(data[32..], i - 32, y);
      assert bad[32..] == data[32..][i - 32 := y];
      SameField(data, bad, 28, 4);
    }
  }

  lemma SameField(a: seq<Byte>, b: seq<Byte>, at: nat, width: nat)
    requires at + width <= |a| == |b| && forall k :: at <= k < at + width ==> a[k] == b[k]
    ensures Field(a, at, width) == Field(b, at, width)
  {
    assert a[at..at + width] == b[at..at + width];
  }

  lemma ChangedField(data: seq<Byte>, i: nat, y: Byte, at: nat, width: nat)
    requires at <= i < at + width <= |data| && data[i] != y
    ensures Field(data[i := y], at, width) != Field(data, at, width)
  {
    hide Field;
    var bad := data[i := y];
    assert bad[at..at + width][i - at] == y && data[at..at + width][i - at] == data[i];
    if Field(bad, at, width) == Field(data, at, width) { FieldInjective(bad, data, at, width); }
  }

  // ------------------------------------------------------------- the loops

  /** Writes a number into a buffer in place. */
  method PutNumber(out: array<Byte>, at: nat, value: nat, width: nat)
    requires at + width <= out.Length
    modifies out
    ensures out[..] == old(out[..at]) + BigEndian(value, width) + old(out[at + width..])
  {
    hide BigEndian;
    for i := 0 to width
      invariant forall k :: 0 <= k < i ==> out[at + k] == BigEndian(value, width)[k]
      invariant forall k :: 0 <= k < out.Length && !(at <= k < at + i) ==> out[k] == old(out[k])
    {
      ByteAt(value, width, i);
      out[at + i] := value / Pow256(width - 1 - i) % 256;
    }
    assert out[at..at + width] == BigEndian(value, width);
    assert out[..] == out[..at] + out[at..at + width] + out[at + width..];
  }

  method GetNumber(data: seq<Byte>, at: nat, width: nat) returns (n: nat)
    requires at + width <= |data|
    ensures n == Field(data, at, width)
  {
    n := 0;
    var raw := data[at..at + width];
    for i := 0 to width
      invariant n == Number(raw[..i])
    {
      assert raw[..i + 1][..i] == raw[..i];
      n := 256 * n + raw[i];
    }
    assert raw[..width] == raw;
  }

  /** Fails rather than emitting a frame that the peer would have to reject for its size. */
  method EncodeFrame(table: seq<bv32>, h: Header, payload: seq<Byte>) returns (frame: Option<seq<Byte>>)
    requires |table| == 256 && forall i :: 0 <= i < 256 ==> table[i] == Shifts(i as bv32, 8)
    ensures frame == if |payload| > MAX_PAYLOAD then None else Some(FrameBytes(h, payload))
  {
    hide BigEndian, Crc, Shifts;
    if |payload| > MAX_PAYLOAD { return None; }
    var raw := new Byte[32](_ => 0);
    PutNumber(raw, 0, FRAME_MAGIC, 4);
    PutNumber(raw, 4, h.version, 2);
    PutNumber(raw, 6, h.kind, 2);
    PutNumber(raw, 8, h.flags, 4);
    PutNumber(raw, 12, h.sequence, 8);
    PutNumber(raw, 20, |payload|, 4);
    assert raw[..24] == Head(h, |payload|);
    var head := Crc32c(table, raw[..24], 0);
    PutNumber(raw, 24, head as nat, 4);
    assert raw[..28] == Head(h, |payload|) + BigEndian(head as nat, 4);
    var body := Crc32c(table, payload, 0);
    PutNumber(raw, 28, body as nat, 4);
    assert raw[..] == Head(h, |payload|) + BigEndian(head as nat, 4) + BigEndian(body as nat, 4);
    return Some(raw[..] + payload);
  }

  method ReadFrame(table: seq<bv32>, data: seq<Byte>) returns (f: Framed)
    requires |table| == 256 && forall i :: 0 <= i < 256 ==> table[i] == Shifts(i as bv32, 8)
    ensures f == DecodeFrame(data)
  {
    hide Field, Crc, Shifts;
    if |data| < 32 { return BadFrame(TruncatedInput); }
    var magic := GetNumber(data, 0, 4);
    if magic != FRAME_MAGIC { return BadFrame(InvalidSyntax); }
    var version := GetNumber(data, 4, 2);
    if version != PROTOCOL_VERSION { return BadFrame(VersionIncompatible); }
    var declared := GetNumber(data, 24, 4);
    var computed := Crc32c(table, data[..24], 0);
    if declared != computed as nat { return BadFrame(IntegrityFailure); }
    var length := GetNumber(data, 20, 4);
    if length > MAX_PAYLOAD { return BadFrame(PayloadTooLarge); }
    if |data| != 32 + length { return BadFrame(if |data| < 32 + length then TruncatedInput else TrailingGarbage); }
    var stored := GetNumber(data, 28, 4);
    var body := Crc32c(table, data[32..], 0);
    if stored != body as nat { return BadFrame(IntegrityFailure); }
    var kind := GetNumber(data, 6, 2);
    var flags := GetNumber(data, 8, 4);
    var sequence := GetNumber(data, 12, 8);
    return Frame(Header(version, kind, flags, sequence), data[32..]);
  }
}
