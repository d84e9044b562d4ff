/** Journal records: one state version each, checksummed over header, label and payload. */
module Records {
  import opened Bytes
  import opened Hash
  import opened Model
  import opened Wire
  import opened Codec
  import opened Frames

  const JOURNAL_MAGIC: nat := 0x4A465443
  const FORMAT_VERSION: nat := 1
  const MAX_LABEL: nat := 64

  datatype Record = Record(sequence: nat, tag: seq<Byte>, payload: seq<Byte>)

  datatype Recorded = Entry(record: Record, consumed: nat) | Unusable(fault: WireFault)

  predicate RecordOk(r: Record) { r.sequence < U64 && |r.tag| <= MAX_LABEL && |r.payload| <= MAX_PAYLOAD }

  /** The header up to its checksum. */
  function RecordHead(r: Record): (head: seq<Byte>)
    ensures |head| == 24
  {
    BigEndian(JOURNAL_MAGIC, 4) + BigEndian(FORMAT_VERSION, 2) + BigEndian(0, 2) + BigEndian(r.sequence, 8)
    + BigEndian(|r.payload|, 4) + BigEndian(|r.tag|, 2) + BigEndian(0, 2)
  }

  function RecordCrc(r: Record): (n: nat)
    ensures n < WORD
  {
    CrcOf(RecordHead(r) + r.tag + r.payload)
  }

  function RecordBytes(r: Record): (bytes: seq<Byte>)
    ensures |bytes| == 28 + |r.tag| + |r.payload|
  {
    RecordHead(r) + BigEndian(RecordCrc(r), 4) + r.tag + r.payload
  }

  /** One record from the front of a buffer. */
  function DecodeRecord(data: seq<Byte>): Recorded {
    if |data| < 28 then Unusable(TruncatedInput)
    else if Field(data, 0, 4) != JOURNAL_MAGIC then Unusable(InvalidSyntax)
    else if Field(data, 4, 2) != FORMAT_VERSION then Unusable(VersionIncompatible)
    else if Field(data, 6, 2) != 0 || Field(data, 22, 2) != 0 then Unusable(NonCanonicalEncoding)
    else
      var payload, tag := Field(data, 16, 4), Field(data, 20, 2);
      var total := 28 + tag + payload;
      if tag > MAX_LABEL then Unusable(StringTooLong)
      else if payload > MAX_PAYLOAD then Unusable(PayloadTooLarge)
      else if total > |data| then Unusable(TruncatedInput)
      else if Field(data, 24, 4) != CrcOf(data[..24] + data[28..28 + tag] + data[28 + tag..total]) then Unusable(IntegrityFailure)
      else Entry(Record(Field(data, 8, 8), data[28..28 + tag], data[28 + tag..total]), total)
  }

  lemma HeadFieldsOf(r: Record, rest: seq<Byte>)
    requires RecordOk(r)
    ensures var d := RecordHead(r) + rest;
            && Field(d, 0, 4) == JOURNAL_MAGIC && Field(d, 4, 2) == FORMAT_VERSION && Field(d, 6, 2) == 0
            && Field(d, 8, 8) == r.sequence && Field(d, 16, 4) == |r.payload| && Field(d, 20, 2) == |r.tag|
            && Field(d, 22, 2) == 0 && d[..24] == RecordHead(r)
  {
    hide BigEndian, Number, Pow256;
    SmallPowers();
    var d := RecordHead(r) + rest;
    assert d[0..4] == BigEndian(JOURNAL_MAGIC, 4);
    assert d[4..6] == BigEndian(FORMAT_VERSION, 2);
    assert d[6..8] == BigEndian(0, 2);
    assert d[8..16] == BigEndian(r.sequence, 8);
    assert d[16..20] == BigEndian(|r.payload|, 4);
    assert d[20..22] == BigEndian(|r.tag|, 2);
    assert d[22..24] == BigEndian(0, 2);
    NumberOfBigEndian(JOURNAL_MAGIC, 4);
    NumberOfBigEndian(FORMAT_VERSION, 2);
    NumberOfBigEndian(0, 2);
    NumberOfBigEndian(r.sequence, 8);
    NumberOfBigEndian(|r.payload|, 4);
    NumberOfBigEndian(|r.tag|, 2);
  }

  lemma BodyFieldsOf(r: Record, tail: seq<Byte>)
    ensures var d := RecordBytes(r) + tail;
            && Field(d, 24, 4) == RecordCrc(r) && d[28..28 + |r.tag|] == r.tag
            && d[28 + |r.tag|..28 + |r.tag| + |r.payload|] == r.payload
  {
    hide BigEndian, Number, Pow256, RecordHead, RecordCrc;
    SmallPowers();
    var d := RecordBytes(r) + tail;
    assert d[24..28] == BigEndian(RecordCrc(r), 4);
    NumberOfBigEndian(RecordCrc(r), 4);
  }

  /** A record followed by anything decodes to itself and consumes exactly its own length. */
  lemma RecordRoundTrip(r: Record, tail: seq<Byte>)
    requires RecordOk(r)
    ensures DecodeRecord(RecordBytes(r) + tail) == Entry(r, |RecordBytes(r)|)
  {
    hide BigEndian, Number, Field, CrcOf, RecordHead;
    var d := RecordBytes(r) + tail;
    var rest := BigEndian(RecordCrc(r), 4) + r.tag + r.payload + tail;
    assert d == RecordHead(r) + rest;
    HeadFieldsOf(r, rest);
    BodyFieldsOf(r, tail);
  }

  lemma RecordHeadOf(data: seq<Byte>)
    requires |data| >= 28 && DecodeRecord(data).Entry?
    ensures var r := DecodeRecord(data).record; r.sequence < U64 && data[..24] == RecordHead(r)
  {
    hide BigEndian, Number, Pow256, Field, CrcOf;
    SmallPowers();
    FieldBytes(data, 0, 4);
    FieldBytes(data, 4, 2);
    FieldBytes(data, 6, 2);
    FieldBytes(data, 8, 8);
    FieldBytes(data, 16, 4);
    FieldBytes(data, 20, 2);
    FieldBytes(data, 22, 2);
    assert data[..24] == data[0..4] + data[4..6] + data[6..8] + data[8..16] + data[16..20] + data[20..22] + data[22..24];
  }

  /** What is accepted as a record is byte for byte the record it was decoded to. */
  lemma RecordCanonical(data: seq<Byte>)
    requires DecodeRecord(data).Entry?
    ensures var e := DecodeRecord(data);
            RecordOk(e.record) && e.consumed <= |data| && data[..e.consumed] == RecordBytes(e.record)
  {
    hide BigEndian, Number, Field, CrcOf, RecordHead;
    RecordHeadOf(data);
    FieldBytes(data, 24, 4);
    var e := DecodeRecord(data);
    var split := 28 + |e.record.tag|;
    assert data[..e.consumed] == data[..24] + data[24..28] + data[28..split] + data[split..e.consumed];
  }

  /** No strict prefix of a record is accepted as a record. */
  lemma RecordPrefixRefused(r: Record, k: nat)
    requires RecordOk(r) && k < |RecordBytes(r)|
    ensures DecodeRecord(RecordBytes(r)[..k]).Unusable?
  {
    hide BigEndian, Number, CrcOf, RecordHead;
    var d := RecordBytes(r);
    var front := d[..k];
    if k >= 28 {
      RecordRoundTrip(r, []);
      assert d + [] == d;
      assert front[16..20] == d[16..20] && front[20..22] == d[20..22];
    }
  }

  // -------------------------------------------------------------- the loops

  method PutHead(header: array<Byte>, r: Record)
    requires header.Length == 28
    modifies header
    ensures header[..24] == RecordHead(r)
  {
    hide BigEndian;
    PutNumber(header, 0, JOURNAL_MAGIC, 4);
    PutNumber(header, 4, FORMAT_VERSION, 2);
    assert header[..6] == BigEndian(JOURNAL_MAGIC, 4) + BigEndian(FORMAT_VERSION, 2);
    PutNumber(header, 6, 0, 2);
    PutNumber(header, 8, r.sequence, 8);
    assert header[..16] == BigEndian(JOURNAL_MAGIC, 4) + BigEndian(FORMAT_VERSION, 2) + BigEndian(0, 2) + BigEndian(r.sequence, 8);
    PutNumber(header, 16, |r.payload|, 4);
    PutNumber(header, 20, |r.tag|, 2);
    PutNumber(header, 22, 0, 2);
    assert header[..24] == header[..16] + BigEndian(|r.payload|, 4) + BigEndian(|r.tag|, 2) + BigEndian(0, 2);
  }

  /** Nothing is written for a record that is over a bound. */
  method EncodeRecord(table: seq<bv32>, r: Record) returns (bytes: seq<Byte>)
    requires |table| == 256 && forall i :: 0 <= i < 256 ==> table[i] == Shifts(i as bv32, 8)
    ensures bytes == if |r.tag| > MAX_LABEL || |r.payload| > MAX_PAYLOAD then [] else RecordBytes(r)
  {
    hide BigEndian, Crc, Shifts;
    if |r.tag| > MAX_LABEL || |r.payload| > MAX_PAYLOAD { return []; }
    var header := new Byte[28](_ => 0);
    PutHead(header, r);
    var crc := Crc32c(table, header[..24], 0);
    crc := Crc32c(table, r.tag, crc);
    crc := Crc32c(table, r.payload, crc);
    CrcChains(RecordHead(r), r.tag, 0);
    CrcChains(RecordHead(r) + r.tag, r.payload, 0);
    PutNumber(header, 24, crc as nat, 4);
    assert header[..] == RecordHead(r) + BigEndian(crc as nat, 4);
    return header[..] + r.tag + r.payload;
  }

  method ReadRecord(table: seq<bv32>, data: seq<Byte>) returns (e: Recorded)
    requires |table| == 256 && forall i :: 0 <= i < 256 ==> table[i] == Shifts(i as bv32, 8)
    ensures e == DecodeRecord(data)
  {
    hide Field, Crc, Shifts;
    if |data| < 28 { return Unusable(TruncatedInput); }
    var magic := GetNumber(data, 0, 4);
    if magic != JOURNAL_MAGIC { return Unusable(InvalidSyntax); }
    var version := GetNumber(data, 4, 2);
    if version != FORMAT_VERSION { return Unusable(VersionIncompatible); }
    var flags := GetNumber(data, 6, 2);
    var reserved := GetNumber(data, 22, 2);
    if flags != 0 || reserved != 0 { return Unusable(NonCanonicalEncoding); }
    var sequence := GetNumber(data, 8, 8);
    var payload := GetNumber(data, 16, 4);
    var tag := GetNumber(data, 20, 2);
    if tag > MAX_LABEL { return Unusable(StringTooLong); }
    if payload > MAX_PAYLOAD { return Unusable(PayloadTooLarge); }
    var total := 28 + tag + payload;
    if total > |data| { return Unusable(TruncatedInput); }
    var declared := GetNumber(data, 24, 4);
    var crc := Crc32c(table, data[..24], 0);
    crc := Crc32c(table, data[28..28 + tag], crc);
    crc := Crc32c(table, data[28 + tag..total], crc);
    CrcChains(data[..24], data[28..28 + tag], 0);
    CrcChains(data[..24] + data[28..28 + tag], data[28 + tag..total], 0);
    if crc as nat != declared { return Unusable(IntegrityFailure); }
    return Entry(Record(sequence, data[28..28 + tag], data[28 + tag..total]), total);
  }
}
