/** Two files, a snapshot and an append-only journal of whole state versions:
what loading makes of them, and of every image a crash can leave behind. */
module Journal {
  import opened Bytes
  import opened Model
  import opened Wire
  import opened Frames
  import opened Records

  /** A file that does not exist is None. */
  datatype Disk = Disk(snapshot: Option<seq<Byte>>, journal: Option<seq<Byte>>)

  /** Largest file that loading reads. */
  const READ_CAP: nat := MAX_PAYLOAD + 4096

  /** What replaying a journal ended with, and how much of it was applied and discarded. */
  datatype Replayed = Replayed(value: Value, sequence: nat, applied: nat, discarded: nat)

  datatype Loaded = State(value: Value, applied: nat, discarded: nat) | NoState | NotLoadable

  /** Applies records while they are intact, later than what came before, and readable. */
  function Replay(s: Schema, data: seq<Byte>, last: nat, value: Value): (r: Replayed)
    decreases |data|
  {
    if data == [] then Replayed(value, last, 0, 0)
    else
      var e := DecodeRecord(data);
      if e.Unusable? || e.record.sequence <= last || DecodeAll(s, e.record.payload).None?
      then Replayed(value, last, 0, |data|)
      else
        var rest := Replay(s, data[e.consumed..], e.record.sequence, DecodeAll(s, e.record.payload).value);
        rest.(applied := rest.applied + 1)
  }

  datatype Base = Base(value: Value, sequence: nat) | NoBase | BadBase

  /** The snapshot file must be one record and nothing else. */
  function ReadBase(s: Schema, file: Option<seq<Byte>>): Base {
    if file.None? then NoBase
    else if |file.value| > READ_CAP then BadBase
    else
      var e := DecodeRecord(file.value);
      if e.Unusable? || e.consumed != |file.value| || DecodeAll(s, e.record.payload).None? then BadBase
      else Base(DecodeAll(s, e.record.payload).value, e.record.sequence)
  }

  /** Without a snapshot the journal is replayed on a blank state. */
  function Load(s: Schema, disk: Disk, blank: Value): Loaded {
    match ReadBase(s, disk.snapshot)
    case BadBase => NotLoadable
    case NoBase =>
      if disk.journal.None? then NoState else LoadJournal(s, disk.journal.value, 0, blank)
    case Base(value, sequence) =>
      if disk.journal.None? then State(value, 0, 0) else LoadJournal(s, disk.journal.value, sequence, value)
  }

  function LoadJournal(s: Schema, journal: seq<Byte>, last: nat, value: Value): Loaded {
    if |journal| > READ_CAP then NotLoadable
    else
      var r := Replay(s, journal, last, value);
      State(r.value, r.applied, r.discarded)
  }

  // ------------------------------------------------------------- versions

  /** One state version as it is recorded. */
  datatype Version = Version(sequence: nat, tag: seq<Byte>, value: Value)

  predicate VersionOk(s: Schema, x: Version) {
    Fits(s, x.value) && RecordOk(Record(x.sequence, x.tag, Encode(s, x.value)))
  }

  function VersionBytes(s: Schema, x: Version): seq<Byte>
    requires VersionOk(s, x)
  {
    RecordBytes(Record(x.sequence, x.tag, Encode(s, x.value)))
  }

  predicate VersionsOk(s: Schema, chain: seq<Version>) {
    forall i :: 0 <= i < |chain| ==> VersionOk(s, chain[i])
  }

  function Joined(s: Schema, chain: seq<Version>): seq<Byte>
    requires VersionsOk(s, chain)
    decreases |chain|
  {
    if chain == [] then [] else VersionBytes(s, chain[0]) + Joined(s, chain[1..])
  }

  /** Strictly rising sequence numbers above a floor. */
  predicate Rising(chain: seq<Version>, floor: nat)
    decreases |chain|
  {
    chain == [] || (chain[0].sequence > floor && Rising(chain[1..], chain[0].sequence))
  }

  function LastValue(chain: seq<Version>, value: Value): Value {
    if chain == [] then value else chain[|chain| - 1].value
  }

  function LastSequence(chain: seq<Version>, floor: nat): nat {
    if chain == [] then floor else chain[|chain| - 1].sequence
  }

  lemma VersionDecodes(s: Schema, x: Version, tail: seq<Byte>)
    requires WellFormed(s) && VersionOk(s, x)
    ensures DecodeRecord(VersionBytes(s, x) + tail) == Entry(Record(x.sequence, x.tag, Encode(s, x.value)), |VersionBytes(s, x)|)
    ensures DecodeAll(s, Encode(s, x.value)) == Some(x.value)
    ensures 0 < |VersionBytes(s, x)| <= READ_CAP
  {
    hide WellFormed, Fits, Encode, Decode, DecodeRecord;
    RecordRoundTrip(Record(x.sequence, x.tag, Encode(s, x.value)), tail);
    RoundTrip(s, x.value, []);
    assert Encode(s, x.value) + [] == Encode(s, x.value);
  }

  /** One intact version at the front of what is replayed. */
  lemma ReplayVersion(s: Schema, x: Version, tail: seq<Byte>, last: nat, value: Value)
    requires WellFormed(s) && VersionOk(s, x)
    ensures var data := VersionBytes(s, x) + tail;
            Replay(s, data, last, value) ==
            if x.sequence > last then
              var rest := Replay(s, tail, x.sequence, x.value);
              rest.(applied := rest.applied + 1)
            else Replayed(value, last, 0, |data|)
  {
    hide WellFormed, VersionOk, DecodeRecord, DecodeAll, VersionBytes, Encode;
    VersionDecodes(s, x, tail);
    var data := VersionBytes(s, x) + tail;
    assert data[|VersionBytes(s, x)|..] == tail;
  }

  /** A rising run of versions is replayed to its end. */
  lemma {:induction false} ReplayChain(s: Schema, chain: seq<Version>, tail: seq<Byte>, last: nat, value: Value)
    requires WellFormed(s) && VersionsOk(s, chain) && Rising(chain, last)
    ensures var rest := Replay(s, tail, LastSequence(chain, last), LastValue(chain, value));
            Replay(s, Joined(s, chain) + tail, last, value) == rest.(applied := rest.applied + |chain|)
    decreases |chain|
  {
    hide WellFormed, VersionOk, VersionBytes, Replay;
    if chain == [] {
      assert Joined(s, chain) + tail == tail;
    } else {
      var front, back := VersionBytes(s, chain[0]), Joined(s, chain[1..]);
      assert front + back + tail == front + (back + tail);
      ReplayVersion(s, chain[0], back + tail, last, value);
      ReplayChain(s, chain[1..], tail, chain[0].sequence, chain[0].value);
    }
  }

  /** A torn version changes nothing. */
  lemma ReplayTorn(s: Schema, x: Version, k: nat, last: nat, value: Value)
    requires VersionOk(s, x) && k < |VersionBytes(s, x)|
    ensures var r := Replay(s, VersionBytes(s, x)[..k], last, value); r.value == value && r.applied == 0 && r.discarded == k
  {
    hide Fits, Encode, DecodeRecord, DecodeAll, RecordBytes;
    RecordPrefixRefused(Record(x.sequence, x.tag, Encode(s, x.value)), k);
  }

  lemma ReplayNothing(s: Schema, last: nat, value: Value)
    ensures Replay(s, [], last, value) == Replayed(value, last, 0, 0)
  {
  }

  // ------------------------------------------------------- a disk that holds

  /** A snapshot and a rising journal on top of it. */
  ghost predicate Holds(s: Schema, disk: Disk, base: Version, chain: seq<Version>) {
    && VersionOk(s, base) && VersionsOk(s, chain)
    && disk == Disk(Some(VersionBytes(s, base)), Some(Joined(s, chain)))
    && Rising(chain, base.sequence)
  }

  lemma BaseReads(s: Schema, x: Version)
    requires WellFormed(s) && VersionOk(s, x)
    ensures ReadBase(s, Some(VersionBytes(s, x))) == Base(x.value, x.sequence)
  {
    hide WellFormed, VersionOk, DecodeRecord, DecodeAll, VersionBytes, Encode;
    VersionDecodes(s, x, []);
    assert VersionBytes(s, x) + [] == VersionBytes(s, x);
  }

  /** Loading a sound disk gives its newest version, unless the journal outgrew what loading reads. */
  lemma LoadsNewest(s: Schema, disk: Disk, base: Version, chain: seq<Version>, blank: Value)
    requires WellFormed(s) && Holds(s, disk, base, chain)
    ensures Load(s, disk, blank) ==
            if |Joined(s, chain)| > READ_CAP then NotLoadable else State(LastValue(chain, base.value), |chain|, 0)
  {
    hide WellFormed, VersionOk, VersionBytes, Replay, ReadBase, Joined;
    BaseReads(s, base);
    ReplayChain(s, chain, [], base.sequence, base.value);
    assert Joined(s, chain) + [] == Joined(s, chain);
    ReplayNothing(s, LastSequence(chain, base.sequence), LastValue(chain, base.value));
  }

  // ------------------------------------------------------------ persisting

  const SNAPSHOT_TAG: seq<Byte> := [115, 110, 97, 112, 115, 104, 111, 116]

  /** Any disk that a crash during `persist` can leave: nothing replaced yet, the snapshot
  replaced, or the journal truncated and rewritten up to some byte. */
  ghost predicate PersistImage(s: Schema, before: Disk, counter: nat, w: Value, after: Disk)
    requires VersionOk(s, Version(counter + 1, SNAPSHOT_TAG, w)) && VersionOk(s, Version(counter + 2, SNAPSHOT_TAG, w))
  {
    var written := Some(VersionBytes(s, Version(counter + 1, SNAPSHOT_TAG, w)));
    var rotated := VersionBytes(s, Version(counter + 2, SNAPSHOT_TAG, w));
    || after == before
    || after == before.(snapshot := written)
    || (exists k :: 0 <= k <= |rotated| && after == Disk(written, Some(rotated[..k])))
  }

  lemma RotatingLoads(s: Schema, counter: nat, w: Value, k: nat, blank: Value)
    requires WellFormed(s)
    requires VersionOk(s, Version(counter + 1, SNAPSHOT_TAG, w)) && VersionOk(s, Version(counter + 2, SNAPSHOT_TAG, w))
    requires k <= |VersionBytes(s, Version(counter + 2, SNAPSHOT_TAG, w))|
    ensures var l := Load(s, Disk(Some(VersionBytes(s, Version(counter + 1, SNAPSHOT_TAG, w))),
                                  Some(VersionBytes(s, Version(counter + 2, SNAPSHOT_TAG, w))[..k])), blank);
            l.State? && l.value == w
  {
    hide WellFormed, VersionOk, VersionBytes, Replay, ReadBase;
    var x, y := Version(counter + 1, SNAPSHOT_TAG, w), Version(counter + 2, SNAPSHOT_TAG, w);
    BaseReads(s, x);
    VersionDecodes(s, y, []);
    ReplayCut(s, y, k, x.sequence, w);
  }

  /** A version cut at some byte: applied when it is all there and newer, discarded otherwise. */
  lemma ReplayCut(s: Schema, x: Version, k: nat, last: nat, value: Value)
    requires WellFormed(s) && VersionOk(s, x) && k <= |VersionBytes(s, x)|
    ensures Replay(s, VersionBytes(s, x)[..k], last, value).value ==
            if k == |VersionBytes(s, x)| && x.sequence > last then x.value else value
  {
    hide WellFormed, VersionOk, VersionBytes, Replay;
    if k < |VersionBytes(s, x)| {
      ReplayTorn(s, x, k, last, value);
    } else {
      assert VersionBytes(s, x)[..k] == VersionBytes(s, x) + [];
      ReplayVersion(s, x, [], last, value);
      ReplayNothing(s, x.sequence, x.value);
    }
  }

  /** Over a snapshot and a rising journal, whatever the sequence counter is, a crash anywhere inside `persist` leaves
  the old state or the new one. */
  lemma PersistCrashSafe(s: Schema, before: Disk, base: Version, chain: seq<Version>, counter: nat, w: Value, after: Disk, blank: Value)
    requires WellFormed(s) && Holds(s, before, base, chain) && |Joined(s, chain)| <= READ_CAP
    requires VersionOk(s, Version(counter + 1, SNAPSHOT_TAG, w)) && VersionOk(s, Version(counter + 2, SNAPSHOT_TAG, w))
    requires PersistImage(s, before, counter, w, after)
    ensures var l := Load(s, after, blank); l.State? && (l.value == w || l.value == LastValue(chain, base.value))
  {
    hide WellFormed, VersionOk, VersionBytes, Load, ReadBase;
    JournalHolds(s, base, chain);
    LoadsNewest(s, before, base, chain, blank);
    if PersistUnsafe(s, base, Joined(s, chain), counter, w) { assert false; }
    PersistLoads(s, base, Joined(s, chain), counter, w, after, blank);
  }

  lemma JournalHolds(s: Schema, base: Version, chain: seq<Version>)
    requires WellFormed(s) && VersionsOk(s, chain) && Rising(chain, base.sequence)
    ensures FirstSequence(s, Joined(s, chain)).Some? ==> FirstSequence(s, Joined(s, chain)).value > base.sequence
  {
    hide WellFormed, VersionOk, VersionBytes, DecodeRecord, DecodeAll, Encode;
    if chain != [] { VersionDecodes(s, chain[0], Joined(s, chain[1..])); }
  }

  // --------------------------------------------------- persisting over any journal

  /** The sequence number of the first record that a replay could apply. */
  function FirstSequence(s: Schema, journal: seq<Byte>): Option<nat> {
    var e := DecodeRecord(journal);
    if journal == [] || e.Unusable? || DecodeAll(s, e.record.payload).None? then None else Some(e.record.sequence)
  }

  /** A journal whose first record is too old is not applied at all; otherwise what is below it does not matter. */
  lemma ReplayStart(s: Schema, journal: seq<Byte>, last: nat, value: Value)
    ensures var q, r := FirstSequence(s, journal), Replay(s, journal, last, value);
            if q.Some? && q.value > last then r.value == Replay(s, journal, 0, value).value else r.value == value
  {
    hide DecodeRecord, DecodeAll;
  }

  lemma ReplayForgets(s: Schema, journal: seq<Byte>, value: Value, other: Value)
    requires var q := FirstSequence(s, journal); q.Some? && q.value > 0
    ensures Replay(s, journal, 0, value).value == Replay(s, journal, 0, other).value
  {
    hide DecodeRecord, DecodeAll;
  }

  /** The state at the end of a journal, wherever it starts from. */
  function JournalEnd(s: Schema, journal: seq<Byte>, blank: Value): Value { Replay(s, journal, 0, blank).value }

  /** The journal left on the disk was superseded by the snapshot there, but not by the one being written, and it ends
  in a state that is neither. */
  predicate PersistUnsafe(s: Schema, base: Version, journal: seq<Byte>, counter: nat, w: Value) {
    var q := FirstSequence(s, journal);
    && q.Some? && counter + 1 < q.value <= base.sequence
    && JournalEnd(s, journal, w) != w && JournalEnd(s, journal, w) != base.value
  }

  /** What the disk loads before, and with the new snapshot over the old journal. */
  lemma UnrotatedExact(s: Schema, base: Version, journal: seq<Byte>, counter: nat, w: Value, blank: Value)
    requires WellFormed(s) && VersionOk(s, base) && VersionOk(s, Version(counter + 1, SNAPSHOT_TAG, w)) && |journal| <= READ_CAP
    ensures var q := FirstSequence(s, journal);
            var was := Load(s, Disk(Some(VersionBytes(s, base)), Some(journal)), blank);
            var cut := Load(s, Disk(Some(VersionBytes(s, Version(counter + 1, SNAPSHOT_TAG, w))), Some(journal)), blank);
            && was.State? && cut.State?
            && was.value == (if q.Some? && q.value > base.sequence then JournalEnd(s, journal, w) else base.value)
            && cut.value == (if q.Some? && q.value > counter + 1 then JournalEnd(s, journal, w) else w)
  {
    hide WellFormed, VersionOk, VersionBytes, Replay, ReadBase, FirstSequence;
    var x := Version(counter + 1, SNAPSHOT_TAG, w);
    BaseReads(s, base);
    BaseReads(s, x);
    ReplayStart(s, journal, base.sequence, base.value);
    ReplayStart(s, journal, x.sequence, w);
    var q := FirstSequence(s, journal);
    if q.Some? && q.value > 0 { ReplayForgets(s, journal, w, base.value); }
  }

  /** Over any journal: a crash inside `persist` leaves the old state or the new one, unless the journal is unsafe. */
  lemma PersistLoads(s: Schema, base: Version, journal: seq<Byte>, counter: nat, w: Value, after: Disk, blank: Value)
    requires WellFormed(s) && VersionOk(s, base) && |journal| <= READ_CAP
    requires VersionOk(s, Version(counter + 1, SNAPSHOT_TAG, w)) && VersionOk(s, Version(counter + 2, SNAPSHOT_TAG, w))
    requires PersistImage(s, Disk(Some(VersionBytes(s, base)), Some(journal)), counter, w, after)
    requires !PersistUnsafe(s, base, journal, counter, w)
    ensures var was, l := Load(s, Disk(Some(VersionBytes(s, base)), Some(journal)), blank), Load(s, after, blank);
            was.State? && l.State? && (l.value == w || l.value == was.value)
  {
    hide WellFormed, VersionOk, VersionBytes, Load, FirstSequence, JournalEnd;
    var before := Disk(Some(VersionBytes(s, base)), Some(journal));
    var written := VersionBytes(s, Version(counter + 1, SNAPSHOT_TAG, w));
    var rotated := VersionBytes(s, Version(counter + 2, SNAPSHOT_TAG, w));
    UnrotatedExact(s, base, journal, counter, w, blank);
    if after != before && after != before.(snapshot := Some(written)) {
      var k :| 0 <= k <= |rotated| && after == Disk(Some(written), Some(rotated[..k]));
      RotatingLoads(s, counter, w, k, blank);
    }
  }

  /** A `persist` is safe at every byte exactly when the journal it finds is not unsafe. */
  lemma PersistExact(s: Schema, base: Version, journal: seq<Byte>, counter: nat, w: Value, blank: Value)
    requires WellFormed(s) && VersionOk(s, base) && |journal| <= READ_CAP
    requires VersionOk(s, Version(counter + 1, SNAPSHOT_TAG, w)) && VersionOk(s, Version(counter + 2, SNAPSHOT_TAG, w))
    ensures var before := Disk(Some(VersionBytes(s, base)), Some(journal));
            var was := Load(s, before, blank);
            && was.State?
            && ((forall after :: PersistImage(s, before, counter, w, after) ==>
                   var l := Load(s, after, blank); l.State? && (l.value == w || l.value == was.value))
                <==> !PersistUnsafe(s, base, journal, counter, w))
  {
    hide WellFormed, VersionOk, VersionBytes, Load, FirstSequence, JournalEnd;
    var before := Disk(Some(VersionBytes(s, base)), Some(journal));
    var cut := before.(snapshot := Some(VersionBytes(s, Version(counter + 1, SNAPSHOT_TAG, w))));
    UnrotatedExact(s, base, journal, counter, w, blank);
    assert PersistImage(s, before, counter, w, cut);
    if !PersistUnsafe(s, base, journal, counter, w) {
      forall after | PersistImage(s, before, counter, w, after)
        ensures var l := Load(s, after, blank); l.State? && (l.value == w || l.value == Load(s, before, blank).value)
      {
        PersistLoads(s, base, journal, counter, w, after, blank);
      }
    }
  }

  /** The very first `persist`: a crash leaves no state or the new one. */
  lemma FirstPersistCrashSafe(s: Schema, counter: nat, w: Value, after: Disk, blank: Value)
    requires WellFormed(s)
    requires VersionOk(s, Version(counter + 1, SNAPSHOT_TAG, w)) && VersionOk(s, Version(counter + 2, SNAPSHOT_TAG, w))
    requires PersistImage(s, Disk(None, None), counter, w, after)
    ensures var l := Load(s, after, blank); l.NoState? || (l.State? && l.value == w)
  {
    hide WellFormed, VersionOk, VersionBytes, Replay, ReadBase;
    var written := VersionBytes(s, Version(counter + 1, SNAPSHOT_TAG, w));
    var rotated := VersionBytes(s, Version(counter + 2, SNAPSHOT_TAG, w));
    if after == Disk(None, None) {
      NothingReads(s);
    } else if after == Disk(Some(written), None) {
      BaseReads(s, Version(counter + 1, SNAPSHOT_TAG, w));
    } else {
      var k :| 0 <= k <= |rotated| && after == Disk(Some(written), Some(rotated[..k]));
      RotatingLoads(s, counter, w, k, blank);
    }
  }

  lemma NothingReads(s: Schema)
    ensures ReadBase(s, None) == NoBase
  {
  }

  // ------------------------------------------------------------- appending

  function Appended(disk: Disk, bytes: seq<Byte>): Disk {
    disk.(journal := Some((if disk.journal.Some? then disk.journal.value else []) + bytes))
  }

  lemma {:induction false} JoinedAppend(s: Schema, chain: seq<Version>, x: Version)
    requires VersionsOk(s, chain) && VersionOk(s, x)
    ensures VersionsOk(s, chain + [x]) && Joined(s, chain + [x]) == Joined(s, chain) + VersionBytes(s, x)
    decreases |chain|
  {
    hide VersionOk, VersionBytes;
    if chain == [] {
      assert chain + [x] == [x] && [x][1..] == [];
      assert [] + VersionBytes(s, x) == VersionBytes(s, x) + [];
    } else {
      assert (chain + [x])[1..] == chain[1..] + [x];
      JoinedAppend(s, chain[1..], x);
      assert VersionBytes(s, chain[0]) + (Joined(s, chain[1..]) + VersionBytes(s, x)) == Joined(s, chain) + VersionBytes(s, x);
    }
  }

  lemma {:induction false} RisingAppend(chain: seq<Version>, floor: nat, x: Version)
    requires Rising(chain, floor)
    ensures Rising(chain + [x], floor) <==> x.sequence > LastSequence(chain, floor)
    decreases |chain|
  {
    if chain == [] {
      assert chain + [x] == [x];
    } else {
      assert (chain + [x])[1..] == chain[1..] + [x];
      RisingAppend(chain[1..], chain[0].sequence, x);
    }
  }

  /** A crash at any byte of an append: the old state until the last byte is down. A record whose
  sequence is not above the journal's is never seen at all. */
  lemma AppendLoads(s: Schema, before: Disk, base: Version, chain: seq<Version>, x: Version, k: nat, blank: Value)
    requires WellFormed(s) && Holds(s, before, base, chain) && VersionOk(s, x) && k <= |VersionBytes(s, x)|
    requires |Joined(s, chain)| + k <= READ_CAP
    ensures var l := Load(s, Appended(before, VersionBytes(s, x)[..k]), blank);
            l.State? && l.value == if k == |VersionBytes(s, x)| && x.sequence > LastSequence(chain, base.sequence) then x.value
                                   else LastValue(chain, base.value)
  {
    hide WellFormed, VersionOk, VersionBytes, Replay, ReadBase, Joined;
    var torn := VersionBytes(s, x)[..k];
    var top, newest := LastSequence(chain, base.sequence), LastValue(chain, base.value);
    BaseReads(s, base);
    ReplayChain(s, chain, torn, base.sequence, base.value);
    ReplayCut(s, x, k, top, newest);
  }

  /** A completed append is what the next load returns exactly when its sequence is above the journal's,
  as it is unless the counter was restarted over an old journal. */
  lemma AppendVisibleExactly(s: Schema, before: Disk, base: Version, chain: seq<Version>, x: Version, blank: Value)
    requires WellFormed(s) && Holds(s, before, base, chain) && VersionOk(s, x) && x.value != LastValue(chain, base.value)
    requires |Joined(s, chain)| + |VersionBytes(s, x)| <= READ_CAP
    ensures var l := Load(s, Appended(before, VersionBytes(s, x)), blank);
            l.State? && (l.value == x.value <==> x.sequence > LastSequence(chain, base.sequence))
  {
    hide WellFormed, VersionOk, VersionBytes, Load, Joined, Holds;
    AppendLoads(s, before, base, chain, x, |VersionBytes(s, x)|, blank);
    assert VersionBytes(s, x)[..|VersionBytes(s, x)|] == VersionBytes(s, x);
  }

  /** An append as the very first operation: until its last byte is down, loading returns the blank
  state as if it had been saved. */
  lemma FirstAppendLoads(s: Schema, x: Version, k: nat, blank: Value)
    requires WellFormed(s) && VersionOk(s, x) && x.sequence > 0 && k <= |VersionBytes(s, x)|
    ensures var l := Load(s, Appended(Disk(None, None), VersionBytes(s, x)[..k]), blank);
            l.State? && l.value == if k == |VersionBytes(s, x)| then x.value else blank
  {
    hide WellFormed, VersionOk, VersionBytes, Replay, ReadBase;
    NothingReads(s);
    VersionDecodes(s, x, []);
    var torn := VersionBytes(s, x)[..k];
    assert [] + torn == torn;
    ReplayCut(s, x, k, 0, blank);
  }

  /** An appended version extends the journal of a sound disk when its sequence is above it. */
  lemma AppendHolds(s: Schema, disk: Disk, base: Version, chain: seq<Version>, x: Version)
    requires Holds(s, disk, base, chain) && VersionOk(s, x) && x.sequence > LastSequence(chain, base.sequence)
    ensures Holds(s, Appended(disk, VersionBytes(s, x)), base, chain + [x])
  {
    hide VersionOk, VersionBytes, Joined;
    JoinedAppend(s, chain, x);
    RisingAppend(chain, base.sequence, x);
  }
}
