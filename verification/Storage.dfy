/** The persistent store: its counters, its operations over whole histories, and
what a crash inside any operation leaves to be loaded. */
module Storage {
  import opened Bytes
  import opened Hash
  import opened Model
  import opened Wire
  import opened Codec
  import opened Frames
  import opened Records
  import opened Journal

  datatype Files = Files(disk: Disk, sequence: nat, records: nat, bytes: nat)

  /** Crossing either bound compacts the journal. */
  datatype Growth = Growth(maxBytes: nat, maxRecords: nat)

  datatype Operation = PersistOp(value: Value) | AppendOp(tag: seq<Byte>, value: Value)

  function Payload(s: Schema, w: Value): seq<Byte>
    requires Shaped(s, w)
  {
    Written(s, w)
  }

  /** Replaces the snapshot, then rotates the journal to the same state under the next number. */
  function Persist(s: Schema, f: Files, w: Value): (Files, bool)
    requires Shaped(s, w)
  {
    var payload := Payload(s, w);
    if |payload| > MAX_PAYLOAD then (f.(sequence := f.sequence + 1), false)
    else
      var rotated := RecordBytes(Record(f.sequence + 2, SNAPSHOT_TAG, payload));
      (Files(Disk(Some(RecordBytes(Record(f.sequence + 1, SNAPSHOT_TAG, payload))), Some(rotated)), f.sequence + 2, 1, |rotated|), true)
  }

  function Append(s: Schema, g: Growth, f: Files, tag: seq<Byte>, w: Value): (Files, bool)
    requires Shaped(s, w)
  {
    var payload := Payload(s, w);
    if |tag| > MAX_LABEL || |payload| > MAX_PAYLOAD then (f, false)
    else
      var h := Extended(s, f, tag, w);
      if Outgrown(g, h) then Persist(s, h, w) else (h, true)
  }

  function Extended(s: Schema, f: Files, tag: seq<Byte>, w: Value): Files
    requires Shaped(s, w)
  {
    var encoded := RecordBytes(Record(f.sequence + 1, tag, Payload(s, w)));
    Files(Appended(f.disk, encoded), f.sequence + 1, f.records + 1, f.bytes + |encoded|)
  }

  predicate Outgrown(g: Growth, f: Files) { f.bytes > g.maxBytes || f.records > g.maxRecords }

  function Perform(s: Schema, g: Growth, f: Files, op: Operation): Files
    requires Shaped(s, op.value)
  {
    match op
    case PersistOp(w) => Persist(s, f, w).0
    case AppendOp(tag, w) => Append(s, g, f, tag, w).0
  }

  // ---------------------------------------------------------------- histories

  /** An operation whose state the format can carry, with sequence numbers left. */
  predicate Recordable(s: Schema, f: Files, op: Operation) {
    && Fits(s, op.value) && |Encode(s, op.value)| <= MAX_PAYLOAD && f.sequence + 3 < U64
    && (op.AppendOp? ==> |op.tag| <= MAX_LABEL)
  }

  ghost predicate Sound(s: Schema, f: Files, base: Version, chain: seq<Version>) {
    Holds(s, f.disk, base, chain) && LastSequence(chain, base.sequence) <= f.sequence
  }

  lemma RecordedVersion(s: Schema, q: nat, tag: seq<Byte>, w: Value)
    requires Fits(s, w) && |Encode(s, w)| <= MAX_PAYLOAD && q < U64 && |tag| <= MAX_LABEL
    ensures VersionOk(s, Version(q, tag, w)) && Shaped(s, w)
    ensures VersionBytes(s, Version(q, tag, w)) == RecordBytes(Record(q, tag, Payload(s, w)))
  {
    hide Fits, Shaped, Encode, Written, RecordBytes;
    FitsWritten(s, w);
  }

  lemma PersistSound(s: Schema, f: Files, w: Value)
    requires Fits(s, w) && |Encode(s, w)| <= MAX_PAYLOAD && f.sequence + 2 < U64
    ensures Shaped(s, w)
    ensures var x, y := Version(f.sequence + 1, SNAPSHOT_TAG, w), Version(f.sequence + 2, SNAPSHOT_TAG, w);
            Persist(s, f, w).1 && Sound(s, Persist(s, f, w).0, x, [y])
  {
    hide Fits, Shaped, Encode, Written, RecordBytes, VersionBytes, VersionOk;
    RecordedVersion(s, f.sequence + 1, SNAPSHOT_TAG, w);
    RecordedVersion(s, f.sequence + 2, SNAPSHOT_TAG, w);
    FitsWritten(s, w);
    var y := Version(f.sequence + 2, SNAPSHOT_TAG, w);
    assert Joined(s, [y]) == VersionBytes(s, y) + [] == VersionBytes(s, y) by { assert [y][1..] == []; }
    assert Rising([y], f.sequence + 1) by { assert [y][1..] == []; }
  }

  lemma ExtendSound(s: Schema, f: Files, base: Version, chain: seq<Version>, tag: seq<Byte>, w: Value)
    requires Sound(s, f, base, chain) && Recordable(s, f, AppendOp(tag, w))
    ensures Shaped(s, w) && VersionOk(s, Version(f.sequence + 1, tag, w))
    ensures Extended(s, f, tag, w).disk == Appended(f.disk, VersionBytes(s, Version(f.sequence + 1, tag, w)))
    ensures Sound(s, Extended(s, f, tag, w), base, chain + [Version(f.sequence + 1, tag, w)])
  {
    hide Fits, Shaped, Encode, Written, RecordBytes, VersionBytes, VersionOk, Holds;
    RecordedVersion(s, f.sequence + 1, tag, w);
    AppendHolds(s, f.disk, base, chain, Version(f.sequence + 1, tag, w));
  }

  /** A completed operation on a sound store leaves a sound store whose newest state is the one just saved. */
  lemma PerformSound(s: Schema, g: Growth, f: Files, base: Version, chain: seq<Version>, op: Operation) returns (b: Version, c: seq<Version>)
    requires Recordable(s, f, op) && (op.AppendOp? ==> Sound(s, f, base, chain))
    ensures Shaped(s, op.value) && Sound(s, Perform(s, g, f, op), b, c) && LastValue(c, b.value) == op.value
  {
    hide Fits, Shaped, Encode, Written, RecordBytes, VersionBytes, VersionOk, Holds;
    var w := op.value;
    if op.PersistOp? {
      PersistSound(s, f, w);
      b, c := Version(f.sequence + 1, SNAPSHOT_TAG, w), [Version(f.sequence + 2, SNAPSHOT_TAG, w)];
    } else {
      ExtendSound(s, f, base, chain, op.tag, w);
      FitsWritten(s, w);
      var h := Extended(s, f, op.tag, w);
      if Outgrown(g, h) {
        PersistSound(s, h, w);
        b, c := Version(h.sequence + 1, SNAPSHOT_TAG, w), [Version(h.sequence + 2, SNAPSHOT_TAG, w)];
      } else {
        b, c := base, chain + [Version(f.sequence + 1, op.tag, w)];
      }
    }
  }

  const EMPTY: Files := Files(Disk(None, None), 0, 0, 0)

  /** A history of completed operations in a directory that started out empty: the first one is a
  snapshot, and every state could be recorded. */
  predicate Orderly(s: Schema, g: Growth, ops: seq<Operation>)
    decreases |ops|, 0
  {
    ops == []
    || (&& Orderly(s, g, ops[..|ops| - 1])
        && Recordable(s, After(s, g, ops[..|ops| - 1]), ops[|ops| - 1])
        && (|ops| == 1 ==> ops[0].PersistOp?))
  }

  function After(s: Schema, g: Growth, ops: seq<Operation>): Files
    requires Orderly(s, g, ops)
    decreases |ops|, 1
  {
    if ops == [] then EMPTY
    else
      var op := ops[|ops| - 1];
      FitsWritten(s, op.value);
      Perform(s, g, After(s, g, ops[..|ops| - 1]), op)
  }

  lemma {:induction false} HistorySound(s: Schema, g: Growth, ops: seq<Operation>) returns (b: Version, c: seq<Version>)
    requires Orderly(s, g, ops) && ops != []
    ensures Sound(s, After(s, g, ops), b, c) && LastValue(c, b.value) == ops[|ops| - 1].value
    decreases |ops|
  {
    hide Recordable, Perform, Sound;
    var earlier, op := ops[..|ops| - 1], ops[|ops| - 1];
    b, c := Version(0, [], op.value), [];
    if earlier != [] { b, c := HistorySound(s, g, earlier); }
    b, c := PerformSound(s, g, After(s, g, earlier), b, c, op);
  }

  // ------------------------------------------------------------------ crashes

  /** Any disk that a crash inside an operation can leave. */
  ghost predicate CrashImage(s: Schema, g: Growth, f: Files, op: Operation, image: Disk)
    requires Recordable(s, f, op)
  {
    match op
    case PersistOp(w) => PersistCut(s, f, w, image)
    case AppendOp(tag, w) => AppendCut(s, g, f, tag, w, image)
  }

  ghost predicate PersistCut(s: Schema, f: Files, w: Value, image: Disk)
    requires Fits(s, w) && |Encode(s, w)| <= MAX_PAYLOAD && f.sequence + 2 < U64
  {
    RecordedVersion(s, f.sequence + 1, SNAPSHOT_TAG, w);
    RecordedVersion(s, f.sequence + 2, SNAPSHOT_TAG, w);
    PersistImage(s, f.disk, f.sequence, w, image)
  }

  ghost predicate AppendCut(s: Schema, g: Growth, f: Files, tag: seq<Byte>, w: Value, image: Disk)
    requires Recordable(s, f, AppendOp(tag, w))
  {
    RecordedVersion(s, f.sequence + 1, tag, w);
    var encoded := VersionBytes(s, Version(f.sequence + 1, tag, w));
    || image == f.disk
    || (exists k :: 0 <= k <= |encoded| && image == Appended(f.disk, encoded[..k]))
    || (Outgrown(g, Extended(s, f, tag, w)) && PersistCut(s, Extended(s, f, tag, w), w, image))
  }

  predicate Readable(f: Files, added: nat) { f.disk.journal.Some? ==> |f.disk.journal.value| + added <= READ_CAP }

  lemma PersistCutSafe(s: Schema, f: Files, base: Version, chain: seq<Version>, w: Value, image: Disk, blank: Value)
    requires WellFormed(s) && Sound(s, f, base, chain) && Recordable(s, f, PersistOp(w)) && PersistCut(s, f, w, image) && Readable(f, 0)
    ensures var l := Load(s, image, blank); l.State? && (l.value == w || l.value == LastValue(chain, base.value))
  {
    hide WellFormed, Fits, Encode, VersionBytes, VersionOk, Load, Joined, PersistImage, PersistCut, Sound, Holds, Readable;
    CutIsImage(s, f, w, image);
    JournalReadable(s, f, base, chain);
    PersistCrashSafe(s, f.disk, base, chain, f.sequence, w, image, blank);
  }

  lemma CutIsImage(s: Schema, f: Files, w: Value, image: Disk)
    requires Fits(s, w) && |Encode(s, w)| <= MAX_PAYLOAD && f.sequence + 2 < U64 && PersistCut(s, f, w, image)
    ensures VersionOk(s, Version(f.sequence + 1, SNAPSHOT_TAG, w)) && VersionOk(s, Version(f.sequence + 2, SNAPSHOT_TAG, w))
    ensures PersistImage(s, f.disk, f.sequence, w, image)
  {
    hide Fits, Shaped, Encode, Written, Payload, RecordBytes, VersionBytes, VersionOk, PersistImage;
    RecordedVersion(s, f.sequence + 1, SNAPSHOT_TAG, w);
    RecordedVersion(s, f.sequence + 2, SNAPSHOT_TAG, w);
  }

  lemma JournalReadable(s: Schema, f: Files, base: Version, chain: seq<Version>)
    requires Sound(s, f, base, chain) && Readable(f, 0)
    ensures Holds(s, f.disk, base, chain) && |Joined(s, chain)| <= READ_CAP
  {
    hide VersionOk, VersionBytes, Joined, Rising;
  }

  lemma AppendCutSafe(s: Schema, g: Growth, f: Files, base: Version, chain: seq<Version>, tag: seq<Byte>, w: Value, image: Disk, blank: Value)
    requires WellFormed(s) && Sound(s, f, base, chain) && Recordable(s, f, AppendOp(tag, w)) && AppendCut(s, g, f, tag, w, image)
    requires VersionOk(s, Version(f.sequence + 1, tag, w)) && Readable(f, |VersionBytes(s, Version(f.sequence + 1, tag, w))|)
    ensures var l := Load(s, image, blank); l.State? && (l.value == w || l.value == LastValue(chain, base.value))
  {
    hide WellFormed, Fits, Shaped, Encode, Written, RecordBytes, VersionBytes, VersionOk, Load, Joined;
    var x := Version(f.sequence + 1, tag, w);
    var encoded := VersionBytes(s, x);
    ExtendSound(s, f, base, chain, tag, w);
    if image == f.disk {
      LoadsNewest(s, f.disk, base, chain, blank);
    } else if exists k :: 0 <= k <= |encoded| && image == Appended(f.disk, encoded[..k]) {
      var k :| 0 <= k <= |encoded| && image == Appended(f.disk, encoded[..k]);
      AppendLoads(s, f.disk, base, chain, x, k, blank);
    } else {
      var h := Extended(s, f, tag, w);
      RecordedVersion(s, h.sequence + 1, SNAPSHOT_TAG, w);
      RecordedVersion(s, h.sequence + 2, SNAPSHOT_TAG, w);
      JoinedAppend(s, chain, x);
      PersistCrashSafe(s, h.disk, base, chain + [x], h.sequence, w, image, blank);
    }
  }

  /** For every history of completed operations and every crash inside the next one, loading returns
  the state of the last completed operation or of the interrupted one, as long as the journal stays
  within what loading reads. */
  lemma CrashSafe(s: Schema, g: Growth, ops: seq<Operation>, op: Operation, image: Disk, blank: Value)
    requires WellFormed(s) && Orderly(s, g, ops) && ops != []
    requires Recordable(s, After(s, g, ops), op) && CrashImage(s, g, After(s, g, ops), op, image)
    requires var f := After(s, g, ops);
             match op
             case PersistOp(_) => Readable(f, 0)
             case AppendOp(tag, w) => VersionOk(s, Version(f.sequence + 1, tag, w)) && Readable(f, |VersionBytes(s, Version(f.sequence + 1, tag, w))|)
    ensures var l := Load(s, image, blank); l.State? && (l.value == op.value || l.value == ops[|ops| - 1].value)
  {
    hide WellFormed, Fits, Encode, VersionBytes, VersionOk, Load, Orderly, After, AppendCut, PersistCut, Sound, Readable;
    var b, c := HistorySound(s, g, ops);
    var f := After(s, g, ops);
    match op
    case PersistOp(w) => PersistCutSafe(s, f, b, c, w, image, blank);
    case AppendOp(tag, w) => AppendCutSafe(s, g, f, b, c, tag, w, image, blank);
  }

  /** After the last completed operation loading returns exactly the state it saved. */
  lemma CompletedLoads(s: Schema, g: Growth, ops: seq<Operation>, blank: Value)
    requires WellFormed(s) && Orderly(s, g, ops) && ops != [] && Readable(After(s, g, ops), 0)
    ensures var l := Load(s, After(s, g, ops).disk, blank); l.State? && l.value == ops[|ops| - 1].value
  {
    hide WellFormed, Orderly, After, Load, Joined;
    var b, c := HistorySound(s, g, ops);
    LoadsNewest(s, After(s, g, ops).disk, b, c, blank);
  }

  // --------------------------------------------------------------- reopening

  /** Opening a directory keeps its files and starts the counters again. */
  function Reopened(f: Files): Files { Files(f.disk, 0, 0, 0) }

  /** An append as the first operation after reopening is never seen by a later load, whatever is appended behind it:
  replaying stops in front of it. Only when it outgrows the journal's bounds at once, the snapshot it triggers is seen. */
  lemma ReopenedAppendLost(s: Schema, g: Growth, f: Files, base: Version, chain: seq<Version>, tag: seq<Byte>, w: Value,
                           tail: seq<Byte>, blank: Value)
    requires WellFormed(s) && Sound(s, f, base, chain) && base.sequence > 0 && Recordable(s, f, AppendOp(tag, w))
    requires VersionOk(s, Version(1, tag, w)) && Readable(f, |VersionBytes(s, Version(1, tag, w))| + |tail|)
    ensures Shaped(s, w)
    ensures var h := Perform(s, g, Reopened(f), AppendOp(tag, w));
            if Outgrown(g, Extended(s, Reopened(f), tag, w)) then
              Load(s, h.disk, blank).State? && Load(s, h.disk, blank).value == w
            else
              var l := Load(s, Appended(h.disk, tail), blank);
              l.State? && l.value == LastValue(chain, base.value)
  {
    hide WellFormed, Fits, Shaped, Encode, Written, RecordBytes, VersionBytes, VersionOk, Load, Joined, Rising, Persist;
    RecordedVersion(s, 1, tag, w);
    FitsWritten(s, w);
    var h := Extended(s, Reopened(f), tag, w);
    if Outgrown(g, h) {
      PersistedLoads(s, h, w, blank);
    } else {
      BuriedAppend(s, f.disk, base, chain, Version(1, tag, w), tail, blank);
    }
  }

  /** A record that is not above the journal hides itself and everything behind it. */
  lemma BuriedAppend(s: Schema, disk: Disk, base: Version, chain: seq<Version>, x: Version, tail: seq<Byte>, blank: Value)
    requires WellFormed(s) && Holds(s, disk, base, chain) && VersionOk(s, x) && x.sequence <= base.sequence
    requires |Joined(s, chain)| + |VersionBytes(s, x)| + |tail| <= READ_CAP
    ensures var l := Load(s, Appended(Appended(disk, VersionBytes(s, x)), tail), blank); l.State? && l.value == LastValue(chain, base.value)
  {
    hide WellFormed, VersionOk, VersionBytes, Replay, ReadBase, Joined, Rising;
    var top, newest := LastSequence(chain, base.sequence), LastValue(chain, base.value);
    FloorHolds(chain, base.sequence);
    BaseReads(s, base);
    assert Joined(s, chain) + VersionBytes(s, x) + tail == Joined(s, chain) + (VersionBytes(s, x) + tail);
    ReplayChain(s, chain, VersionBytes(s, x) + tail, base.sequence, base.value);
    ReplayVersion(s, x, tail, top, newest);
  }

  /** A snapshot that was saved is what the next load returns. */
  lemma PersistedLoads(s: Schema, f: Files, w: Value, blank: Value)
    requires WellFormed(s) && Fits(s, w) && |Encode(s, w)| <= MAX_PAYLOAD && f.sequence + 2 < U64
    ensures Shaped(s, w)
    ensures var h := Persist(s, f, w).0; Load(s, h.disk, blank).State? && Load(s, h.disk, blank).value == w
  {
    hide WellFormed, Fits, Shaped, Encode, Written, RecordBytes, VersionBytes, VersionOk, Load, Persist;
    PersistSound(s, f, w);
    var x, y := Version(f.sequence + 1, SNAPSHOT_TAG, w), Version(f.sequence + 2, SNAPSHOT_TAG, w);
    assert Joined(s, [y]) == VersionBytes(s, y) by { assert [y][1..] == [] && VersionBytes(s, y) + [] == VersionBytes(s, y); }
    VersionDecodes(s, y, []);
    LoadsNewest(s, Persist(s, f, w).0.disk, x, [y], blank);
  }

  lemma {:induction false} FloorHolds(chain: seq<Version>, floor: nat)
    requires Rising(chain, floor)
    ensures LastSequence(chain, floor) >= floor
    decreases |chain|
  {
    if chain != [] { FloorHolds(chain[1..], chain[0].sequence); }
  }

  /** A snapshot as the first operation after reopening puts the store right again. */
  lemma ReopenedPersistRepairs(s: Schema, g: Growth, f: Files, w: Value, blank: Value)
    requires WellFormed(s) && Recordable(s, f, PersistOp(w))
    ensures Shaped(s, w)
    ensures var h := Perform(s, g, Reopened(f), PersistOp(w));
            Load(s, h.disk, blank).State? && Load(s, h.disk, blank).value == w
    ensures exists b, c :: Sound(s, Perform(s, g, Reopened(f), PersistOp(w)), b, c)
  {
    hide WellFormed, Fits, Shaped, Encode, Written, RecordBytes, VersionBytes, VersionOk, Load, Persist;
    PersistSound(s, Reopened(f), w);
    PersistedLoads(s, Reopened(f), w, blank);
    assert Sound(s, Perform(s, g, Reopened(f), PersistOp(w)), Version(1, SNAPSHOT_TAG, w), [Version(2, SNAPSHOT_TAG, w)]);
  }

  /** Two crashes in a row, each between replacing the snapshot and rotating the journal, with a restart in between:
  the second one brings back the state before both. */
  lemma TwoCrashesLoseState(s: Schema, first: Value, second: Value, third: Value, blank: Value) returns (once: Disk, twice: Disk)
    requires WellFormed(s)
    requires Recordable(s, EMPTY, PersistOp(first)) && Recordable(s, EMPTY, PersistOp(second)) && Recordable(s, EMPTY, PersistOp(third))
    ensures Shaped(s, first)
    ensures var f := Persist(s, EMPTY, first).0;
            && Recordable(s, f, PersistOp(second)) && PersistCut(s, f, second, once)
            && PersistCut(s, Reopened(f.(disk := once)), third, twice)
    ensures Load(s, once, blank).State? && Load(s, once, blank).value == second
    ensures Load(s, twice, blank).State? && Load(s, twice, blank).value == first
  {
    hide WellFormed, Fits, Shaped, Encode, Written, RecordBytes, VersionBytes, VersionOk, Load, Persist, PersistCut, Joined;
    PersistSound(s, EMPTY, first);
    PersistCounts(s, EMPTY, first);
    var f := Persist(s, EMPTY, first).0;
    var y := Version(2, SNAPSHOT_TAG, first);
    RecordedVersion(s, 2, SNAPSHOT_TAG, first);
    var journal := VersionBytes(s, y);
    JoinedOne(s, y);
    var x, z := Version(3, SNAPSHOT_TAG, second), Version(1, SNAPSHOT_TAG, third);
    RecordedVersion(s, 3, SNAPSHOT_TAG, second);
    RecordedVersion(s, 1, SNAPSHOT_TAG, third);
    once := Disk(Some(VersionBytes(s, x)), Some(journal));
    twice := Disk(Some(VersionBytes(s, z)), Some(journal));
    ReplacedIsCut(s, f, second);
    ReplacedIsCut(s, Reopened(f.(disk := once)), third);
    SupersededJournal(s, x, y, third, blank);
  }

  /** A journal that the snapshot had superseded comes back under a snapshot with a smaller number. */
  lemma SupersededJournal(s: Schema, x: Version, y: Version, w: Value, blank: Value)
    requires WellFormed(s) && VersionOk(s, x) && VersionOk(s, y) && VersionOk(s, Version(1, SNAPSHOT_TAG, w)) && 1 < y.sequence <= x.sequence
    ensures var once, twice := Load(s, Disk(Some(VersionBytes(s, x)), Some(VersionBytes(s, y))), blank),
                               Load(s, Disk(Some(VersionBytes(s, Version(1, SNAPSHOT_TAG, w))), Some(VersionBytes(s, y))), blank);
            once.State? && once.value == x.value && twice.State? && twice.value == y.value
  {
    hide WellFormed, VersionOk, VersionBytes, Load, FirstSequence, JournalEnd, Encode, DecodeRecord, DecodeAll, Replay;
    assert |VersionBytes(s, y)| <= READ_CAP by { VersionDecodes(s, y, []); }
    OneRecord(s, y, w);
    UnrotatedExact(s, x, VersionBytes(s, y), 0, w, blank);
  }

  lemma JoinedOne(s: Schema, y: Version)
    requires VersionOk(s, y)
    ensures Joined(s, [y]) == VersionBytes(s, y)
  {
    hide VersionOk, VersionBytes;
    assert [y][1..] == [] && VersionBytes(s, y) + [] == VersionBytes(s, y);
  }

  lemma PersistCounts(s: Schema, f: Files, w: Value)
    requires Shaped(s, w) && Persist(s, f, w).1
    ensures Persist(s, f, w).0.sequence == f.sequence + 2
  {
    hide Shaped, Written, RecordBytes;
  }

  lemma ReplacedIsCut(s: Schema, f: Files, w: Value)
    requires Fits(s, w) && |Encode(s, w)| <= MAX_PAYLOAD && f.sequence + 2 < U64
    ensures VersionOk(s, Version(f.sequence + 1, SNAPSHOT_TAG, w))
    ensures PersistCut(s, f, w, f.disk.(snapshot := Some(VersionBytes(s, Version(f.sequence + 1, SNAPSHOT_TAG, w)))))
  {
    hide Fits, Shaped, Encode, Written, Payload, RecordBytes, VersionBytes, VersionOk;
    RecordedVersion(s, f.sequence + 1, SNAPSHOT_TAG, w);
    RecordedVersion(s, f.sequence + 2, SNAPSHOT_TAG, w);
  }

  lemma OneRecord(s: Schema, y: Version, w: Value)
    requires WellFormed(s) && VersionOk(s, y) && y.sequence > 0
    ensures FirstSequence(s, VersionBytes(s, y)) == Some(y.sequence) && JournalEnd(s, VersionBytes(s, y), w) == y.value
  {
    hide WellFormed, VersionOk, VersionBytes, DecodeRecord, DecodeAll, Encode, Replay;
    VersionDecodes(s, y, []);
    ReplayVersion(s, y, [], 0, w);
    ReplayNothing(s, y.sequence, y.value);
    assert VersionBytes(s, y) + [] == VersionBytes(s, y);
  }

  /** A snapshot is saved with success whether or not the format can carry the state; loading returns it exactly when it can. */
  lemma PersistedExact(s: Schema, f: Files, w: Value, blank: Value)
    requires WellFormed(s) && Shaped(s, w) && |Written(s, w)| <= MAX_PAYLOAD && f.sequence + 2 < U64
    ensures Persist(s, f, w).1
    ensures var l := Load(s, Persist(s, f, w).0.disk, blank); (l.State? && l.value == w) <==> Fits(s, w)
  {
    hide WellFormed, Fits, Shaped, Written, RecordBytes, DecodeRecord, DecodeAll, Load;
    RoundTripExact(s, w);
    var x, y := Record(f.sequence + 1, SNAPSHOT_TAG, Written(s, w)), Record(f.sequence + 2, SNAPSHOT_TAG, Written(s, w));
    RecordRoundTrip(x, []);
    RecordRoundTrip(y, []);
    RawLoads(s, x, y, blank);
  }

  /** What loading makes of a snapshot and a journal with the same payload. */
  lemma RawLoads(s: Schema, x: Record, y: Record, blank: Value)
    requires RecordOk(x) && RecordOk(y) && x.payload == y.payload && x.sequence < y.sequence
    ensures var l, d := Load(s, Disk(Some(RecordBytes(x)), Some(RecordBytes(y))), blank), DecodeAll(s, x.payload);
            if d.Some? then l.State? && l.value == d.value else l.NotLoadable?
  {
    hide RecordBytes, DecodeRecord, DecodeAll;
    RecordRoundTrip(x, []);
    RecordRoundTrip(y, []);
    RecordFits(x);
    RecordFits(y);
    assert RecordBytes(x) + [] == RecordBytes(x) && RecordBytes(y) + [] == RecordBytes(y);
    assert RecordBytes(y)[|RecordBytes(y)|..] == [];
    var d := DecodeAll(s, x.payload);
    if d.Some? {
      ReplayNothing(s, y.sequence, d.value);
      assert Replay(s, RecordBytes(y), x.sequence, d.value).value == d.value;
    }
  }

  lemma RecordFits(r: Record)
    requires RecordOk(r)
    ensures 0 < |RecordBytes(r)| <= READ_CAP
  {
  }

  // ---------------------------------------------------------------- the object

  class PersistentStore {
    const schema: Schema
    const growth: Growth
    const table: seq<bv32>
    var snapshot: Option<seq<Byte>>
    var journal: Option<seq<Byte>>
    var sequence: nat
    var records: nat
    var bytes: nat

    ghost predicate Valid()
      reads this
    {
      |table| == 256 && forall i :: 0 <= i < 256 ==> table[i] == Shifts(i as bv32, 8)
    }

    ghost function State(): Files
      reads this
    {
      Files(Disk(snapshot, journal), sequence, records, bytes)
    }

    /** Opens a directory: the files stay, the counters start again. */
    constructor (s: Schema, g: Growth, disk: Disk, entries: seq<bv32>)
      requires |entries| == 256 && forall i :: 0 <= i < 256 ==> entries[i] == Shifts(i as bv32, 8)
      ensures Valid() && State() == Files(disk, 0, 0, 0) && schema == s && growth == g
    {
      schema, growth, table := s, g, entries;
      snapshot, journal := disk.snapshot, disk.journal;
      sequence, records, bytes := 0, 0, 0;
    }

    method SaveSnapshot(w: Value) returns (ok: bool)
      requires Valid() && Shaped(schema, w)
      modifies this
      ensures (State(), ok) == Persist(schema, old(State()), w) && Valid()
    {
      hide RecordBytes, Shifts, Written, Shaped, Accepted;
      sequence := sequence + 1;
      var payload, accepted := EncodeMessage(schema, w);
      var encoded := EncodeRecord(table, Record(sequence, SNAPSHOT_TAG, payload));
      if encoded == [] { return false; }
      snapshot := Some(encoded);
      sequence := sequence + 1;
      var rotated := EncodeRecord(table, Record(sequence, SNAPSHOT_TAG, payload));
      journal := Some(rotated);
      records, bytes := 1, |rotated|;
      return true;
    }

    method AppendRecord(tag: seq<Byte>, w: Value) returns (ok: bool)
      requires Valid() && Shaped(schema, w)
      modifies this
      ensures (State(), ok) == Append(schema, growth, old(State()), tag, w) && Valid()
    {
      hide RecordBytes, Shifts, Written, Shaped, Accepted, Persist;
      var payload, accepted := EncodeMessage(schema, w);
      sequence := sequence + 1;
      var encoded := EncodeRecord(table, Record(sequence, tag, payload));
      if encoded == [] {
        sequence := sequence - 1;
        return false;
      }
      journal := Some((if journal.Some? then journal.value else []) + encoded);
      records, bytes := records + 1, bytes + |encoded|;
      if bytes > growth.maxBytes || records > growth.maxRecords {
        ok := SaveSnapshot(w);
      } else {
        ok := true;
      }
    }

    /** Recovers the newest readable state: the snapshot, then the longest usable prefix of the journal. */
    method LoadState(blank: Value) returns (l: Loaded)
      requires Valid()
      ensures l == Load(schema, Disk(snapshot, journal), blank)
    {
      hide DecodeRecord, DecodeAll, Replay, Shifts;
      var value, last := blank, 0;
      if snapshot.Some? {
        var raw := snapshot.value;
        if |raw| > READ_CAP { return NotLoadable; }
        var e := ReadRecord(table, raw);
        if e.Unusable? || e.consumed != |raw| { return NotLoadable; }
        var decoded := DecodeMessage(schema, e.record.payload);
        if decoded.None? { return NotLoadable; }
        value, last := decoded.value, e.record.sequence;
      }
      if journal.None? { return if snapshot.None? then NoState else Loaded.State(value, 0, 0); }
      var raw := journal.value;
      if |raw| > READ_CAP { return NotLoadable; }
      l := ReplayJournal(raw, last, value);
    }

    method ReplayJournal(raw: seq<Byte>, from: nat, start: Value) returns (l: Loaded)
      requires Valid()
      ensures var r := Replay(schema, raw, from, start); l == Loaded.State(r.value, r.applied, r.discarded)
    {
      hide DecodeRecord, DecodeAll, Shifts;
      var value, last := start, from;
      var offset, applied, discarded := 0, 0, 0;
      ghost var whole := Replay(schema, raw, from, start);
      while offset < |raw|
        invariant 0 <= offset <= |raw| && discarded == 0
        invariant var rest := Replay(schema, raw[offset..], last, value); whole == rest.(applied := rest.applied + applied)
        decreases |raw| - offset
      {
        var e := ReadRecord(table, raw[offset..]);
        if e.Unusable? || e.record.sequence <= last { return Loaded.State(value, applied, |raw| - offset); }
        RecordConsumes(raw[offset..]);
        var decoded := DecodeMessage(schema, e.record.payload);
        if decoded.None? { return Loaded.State(value, applied, |raw| - offset); }
        assert raw[offset..][e.consumed..] == raw[offset + e.consumed..];
        value, last := decoded.value, e.record.sequence;
        applied, offset := applied + 1, offset + e.consumed;
      }
      return Loaded.State(value, applied, 0);
    }
  }

  lemma RecordConsumes(data: seq<Byte>)
    requires DecodeRecord(data).Entry?
    ensures 0 < DecodeRecord(data).consumed <= |data|
  {
    hide CrcOf, Field;
  }
}
