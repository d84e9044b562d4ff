/** The formats against definitions of their own: texts are exactly the UTF-8 encodings of Unicode scalar
values, and frames and records start and end where the format says. */
module Formats {
  import opened Bytes
  import opened Model
  import opened Wire
  import opened Frames
  import opened Records
  import opened Journal
  import opened Storage

  // ------------------------------------------------------------------ UTF-8

  predicate IsScalar(c: nat) { c < 0xD800 || 0xE000 <= c < 0x110000 }

  /** The low six bits of a number, and those above them. */
  function Six(c: nat): nat { c % 64 }

  function Up(c: nat): nat { c / 64 }

  /** The encoding of one scalar value, as section 3 of RFC 3629 defines it. */
  function EncodeScalar(c: nat): (bytes: seq<Byte>)
    requires IsScalar(c)
    ensures 0 < |bytes| <= 4
  {
    if c < 0x80 then [c]
    else if c < 0x800 then [0xC0 + Up(c), 0x80 + Six(c)]
    else if c < 0x10000 then [0xE0 + Up(Up(c)), 0x80 + Six(Up(c)), 0x80 + Six(c)]
    else [0xF0 + Up(Up(Up(c))), 0x80 + Six(Up(Up(c))), 0x80 + Six(Up(c)), 0x80 + Six(c)]
  }

  predicate AllScalar(text: seq<nat>) { forall i :: 0 <= i < |text| ==> IsScalar(text[i]) }

  function EncodeText(text: seq<nat>): seq<Byte>
    requires AllScalar(text)
    decreases |text|
  {
    if text == [] then [] else EncodeScalar(text[0]) + EncodeText(text[1..])
  }

  lemma Splits(c: nat)
    ensures c == 64 * Up(c) + Six(c) && Six(c) < 64
  {
  }

  lemma Joins(high: nat, low: nat)
    requires low < 64
    ensures Up(64 * high + low) == high && Six(64 * high + low) == low
  {
  }

  lemma Lows(x: nat, y: nat)
    requires x < 16 && y < 64
    ensures Low(0xE0 + x, 16) == x && Low(0x80 + y, 64) == y && (x < 8 ==> Low(0xF0 + x, 8) == x)
  {
  }

  /** The decoder recognises every encoded scalar value, whatever follows it. */
  lemma ScalarRecognised(c: nat, rest: seq<Byte>)
    requires IsScalar(c)
    ensures CodePoint(EncodeScalar(c) + rest) == |EncodeScalar(c)|
  {
    hide Up, Six, Low;
    Splits(c);
    Splits(Up(c));
    Splits(Up(Up(c)));
    if 0x800 <= c < 0x10000 {
      Lows(Up(Up(c)), Six(Up(c)));
      Lows(0, Six(c));
    } else if 0x10000 <= c {
      Lows(Up(Up(Up(c))), Six(Up(Up(c))));
      Lows(0, Six(Up(c)));
      Lows(0, Six(c));
    }
  }

  /** And nothing else: what it recognises is the encoding of a scalar value. */
  lemma ScalarRead(text: seq<Byte>) returns (c: nat)
    requires text != [] && CodePoint(text) > 0
    ensures IsScalar(c) && text[..CodePoint(text)] == EncodeScalar(c)
  {
    hide Up, Six, Low;
    var n := CodePoint(text);
    if n == 1 {
      c := text[0];
    } else if n == 2 {
      var i: nat, j: nat := text[0] - 0xC0, text[1] - 0x80;
      c := 64 * i + j;
      Joins(i, j);
    } else if n == 3 {
      var i: nat, j: nat, k: nat := text[0] - 0xE0, text[1] - 0x80, text[2] - 0x80;
      c := 64 * (64 * i + j) + k;
      Joins(64 * i + j, k);
      Joins(i, j);
      Lows(i, j);
      Lows(i, k);
    } else {
      c := FourRead(text[0], text[1], text[2], text[3]);
    }
  }

  lemma FourRead(x: Byte, y: Byte, z: Byte, w: Byte) returns (c: nat)
    requires 0xF0 <= x <= 0xF4 && Continues(y) && Continues(z) && Continues(w)
    ensures c == 262144 * Low(x, 8) + 4096 * Low(y, 64) + 64 * Low(z, 64) + Low(w, 64)
    ensures x == 0xF0 + Up(Up(Up(c))) && y == 0x80 + Six(Up(Up(c))) && z == 0x80 + Six(Up(c)) && w == 0x80 + Six(c)
  {
    hide Up, Six, Low;
    var i: nat, j: nat, k: nat, l: nat := x - 0xF0, y - 0x80, z - 0x80, w - 0x80;
    c := 64 * (64 * (64 * i + j) + k) + l;
    Joins(64 * (64 * i + j) + k, l);
    Joins(64 * i + j, k);
    Joins(i, j);
    Lows(i, j);
    Lows(i, k);
    Lows(i, l);
  }

  lemma {:induction false} EncodedTextValid(cs: seq<nat>)
    requires AllScalar(cs)
    ensures ValidUtf8(EncodeText(cs))
    decreases |cs|
  {
    hide EncodeScalar, CodePoint;
    if cs != [] {
      EncodedTextValid(cs[1..]);
      var first, rest := EncodeScalar(cs[0]), EncodeText(cs[1..]);
      ScalarRecognised(cs[0], rest);
      assert (first + rest)[|first|..] == rest;
    }
  }

  lemma {:induction false} ValidTextEncoded(text: seq<Byte>) returns (cs: seq<nat>)
    requires ValidUtf8(text)
    ensures AllScalar(cs) && EncodeText(cs) == text
    decreases |text|
  {
    hide EncodeScalar, CodePoint;
    if text == [] {
      cs := [];
    } else {
      var n := CodePoint(text);
      var c := ScalarRead(text);
      var rest := ValidTextEncoded(text[n..]);
      cs := [c] + rest;
      assert cs[1..] == rest && text == text[..n] + text[n..];
    }
  }

  /** A text is accepted exactly when it encodes some sequence of scalar values. */
  lemma ValidTextExact(text: seq<Byte>)
    ensures ValidUtf8(text) <==> exists cs :: AllScalar(cs) && EncodeText(cs) == text
  {
    hide ValidUtf8, EncodeText;
    if ValidUtf8(text) {
      var cs := ValidTextEncoded(text);
    }
    forall cs | AllScalar(cs) && EncodeText(cs) == text ensures ValidUtf8(text) { EncodedTextValid(cs); }
  }

  // ----------------------------------------------------------------- layout

  lemma Starts()
    ensures BigEndian(FRAME_MAGIC, 4) == [0x31, 0x46, 0x54, 0x43] && BigEndian(PROTOCOL_VERSION, 2) == [0, 1]
    ensures BigEndian(JOURNAL_MAGIC, 4) == [0x4A, 0x46, 0x54, 0x43] && BigEndian(FORMAT_VERSION, 2) == [0, 1]
    ensures BigEndian(0, 2) == [0, 0]
  {
  }

  /** Every accepted frame has these bytes at its start, a header of 32 bytes and a payload of at most one mebibyte. */
  lemma FrameLayout(data: seq<Byte>)
    requires DecodeFrame(data).Frame?
    ensures 32 <= |data| <= 32 + 1048576 && data[..6] == [0x31, 0x46, 0x54, 0x43, 0, 1]
    ensures DecodeFrame(data).payload == data[32..] && data[20..24] == BigEndian(|data| - 32, 4)
  {
    hide BigEndian, Number, Pow256, CrcOf;
    FieldBytes(data, 0, 4);
    FieldBytes(data, 4, 2);
    FieldBytes(data, 20, 4);
    Starts();
    assert data[..6] == data[0..4] + data[4..6];
  }

  /** Every accepted record has these bytes at its start, a header of 28 bytes, a label of at most 64 and a payload of at
  most one mebibyte. */
  lemma RecordLayout(data: seq<Byte>)
    requires DecodeRecord(data).Entry?
    ensures var e := DecodeRecord(data);
            && 28 <= e.consumed <= |data| && e.consumed == 28 + |e.record.tag| + |e.record.payload|
            && |e.record.tag| <= 64 && |e.record.payload| <= 1048576
            && data[..8] == [0x4A, 0x46, 0x54, 0x43, 0, 1, 0, 0] && data[8..16] == BigEndian(e.record.sequence, 8)
            && data[28..e.consumed] == e.record.tag + e.record.payload
  {
    hide BigEndian, Number, Pow256, CrcOf;
    FieldBytes(data, 0, 4);
    FieldBytes(data, 4, 2);
    FieldBytes(data, 6, 2);
    FieldBytes(data, 8, 8);
    Starts();
    assert data[..8] == data[0..4] + data[4..6] + data[6..8];
  }

  /** A text fits the format exactly up to 512 bytes of UTF-8, a collection up to its own bound and 1048576 elements. */
  lemma FieldBounds(text: seq<Byte>, bound: nat, e: Schema, items: seq<Value>)
    ensures Fits(Text, Str(text)) <==> |text| <= 512 && exists cs :: AllScalar(cs) && EncodeText(cs) == text
    ensures Fits(List(bound, e), Items(items)) <==>
            |items| <= bound && |items| <= 1048576 && forall i :: 0 <= i < |items| ==> Fits(e, items[i])
  {
    hide ValidUtf8, EncodeText;
    ValidTextExact(text);
  }

  /** Behind a usable snapshot a journal is read exactly up to 1052672 bytes, whatever it holds. */
  lemma JournalCap(s: Schema, disk: Disk, blank: Value)
    requires disk.journal.Some? && !ReadBase(s, disk.snapshot).BadBase?
    ensures Load(s, disk, blank).NotLoadable? <==> |disk.journal.value| > 1052672
    ensures disk.snapshot.Some? && |disk.snapshot.value| > 1052672 ==> Load(s, disk, blank).NotLoadable?
  {
    hide Replay, DecodeRecord, DecodeAll;
  }

  // ----------------------------------------------------------------- growth

  /** The counters describe the journal: its size, and within the bounds unless it was just rotated. */
  predicate Counted(g: Growth, f: Files) {
    && f.disk.journal.Some? && f.bytes == |f.disk.journal.value|
    && (f.records == 1 || (f.bytes <= g.maxBytes && f.records <= g.maxRecords))
  }

  lemma PersistCounts(s: Schema, g: Growth, f: Files, w: Value)
    requires Fits(s, w) && |Encode(s, w)| <= MAX_PAYLOAD
    ensures Shaped(s, w) && Persist(s, f, w).1 && Persist(s, f, w).0.records == 1 && Counted(g, Persist(s, f, w).0)
  {
    hide Fits, Shaped, Encode, Written, RecordBytes;
    FitsWritten(s, w);
  }

  lemma PerformCounts(s: Schema, g: Growth, f: Files, op: Operation)
    requires Recordable(s, f, op) && (op.AppendOp? ==> f.disk.journal.Some? && f.bytes == |f.disk.journal.value|)
    ensures Shaped(s, op.value) && Counted(g, Perform(s, g, f, op))
    ensures var h := Perform(s, g, f, op);
            op.AppendOp? && h.records != 1 ==> h.records == f.records + 1 && f.disk.journal.value <= h.disk.journal.value
  {
    hide Fits, Shaped, Encode, Written, RecordBytes, Persist;
    FitsWritten(s, op.value);
    PersistCounts(s, g, f, op.value);
    if op.AppendOp? { PersistCounts(s, g, Extended(s, f, op.tag, op.value), op.value); }
  }

  /** After every history the journal is as large as its counter says, and within both bounds unless the last
  operation has just rotated it. */
  lemma {:induction false} HistoryCounted(s: Schema, g: Growth, ops: seq<Operation>)
    requires Orderly(s, g, ops) && ops != []
    ensures Counted(g, After(s, g, ops))
    decreases |ops|
  {
    hide Recordable, Perform, Counted;
    var earlier, op := ops[..|ops| - 1], ops[|ops| - 1];
    if earlier != [] { HistoryCounted(s, g, earlier); CountedJournal(g, After(s, g, earlier)); }
    PerformCounts(s, g, After(s, g, earlier), op);
  }

  lemma CountedJournal(g: Growth, f: Files)
    requires Counted(g, f)
    ensures f.disk.journal.Some? && f.bytes == |f.disk.journal.value|
  {
  }
}
