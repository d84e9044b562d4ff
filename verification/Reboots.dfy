/** Whole lives of a data directory: operations that complete, crashes inside operations, and a service that
reopens the directory and saves a snapshot at every boot. */
module Reboots {
  import opened Bytes
  import opened Model
  import opened Wire
  import opened Frames
  import opened Records
  import opened Journal
  import opened Storage
  import opened Snapshots

  /** An operation that completed, one that a crash cut short, or an orderly stop. */
  datatype Episode = Finished(op: Operation) | Broken(op: Operation, image: Disk) | Closed

  ghost function Following(s: Schema, g: Growth, f: Files, e: Episode): Files
    requires e.Closed? || Shaped(s, e.op.value)
  {
    match e
    case Finished(op) => Perform(s, g, f, op)
    case Broken(_, image) => Files(image, 0, 0, 0)
    case Closed => Reopened(f)
  }

  /** The first operation after opening the directory is a snapshot. */
  ghost predicate Lawful(s: Schema, g: Growth, f: Files, booting: bool, e: Episode) {
    e.Closed? ||
      (&& Recordable(s, f, e.op) && (booting ==> e.op.PersistOp?)
       && (e.Broken? ==> CrashImage(s, g, f, e.op, e.image) && AppendReadable(s, f, e.op)))
  }

  /** The journal stays within what loading reads, even with the record that was being appended. */
  ghost predicate AppendReadable(s: Schema, f: Files, op: Operation)
    requires Recordable(s, f, op)
  {
    op.AppendOp? ==> Readable(f, 28 + |op.tag| + |Encode(s, op.value)|)
  }

  predicate Booting(episodes: seq<Episode>, i: nat)
    requires i <= |episodes|
  {
    i == 0 || !episodes[i - 1].Finished?
  }

  ghost predicate Linked(s: Schema, g: Growth, f: Files, booting: bool, e: Episode, h: Files) {
    && Lawful(s, g, f, booting, e) && (e.Closed? || Shaped(s, e.op.value))
    && h == Following(s, g, f, e)
  }

  /** A life of a directory that started out empty. */
  ghost predicate Life(s: Schema, g: Growth, files: seq<Files>, episodes: seq<Episode>) {
    && |files| == |episodes| + 1 && files[0] == EMPTY
    && (forall i :: 0 <= i < |episodes| ==> Linked(s, g, files[i], Booting(episodes, i), episodes[i], files[i + 1]))
    && (forall i :: 0 <= i < |files| ==> Readable(files[i], 0))
  }

  // --------------------------------------------------------------- any disk at boot

  /** No file at all, or a snapshot file with one whole version over whatever is left of a journal. */
  ghost predicate Formed(s: Schema, disk: Disk) {
    disk == Disk(None, None) || exists base :: VersionOk(s, base) && disk.snapshot == Some(VersionBytes(s, base))
  }

  /** The exception of `PersistExact`, read off the disk. */
  predicate UnsafeDisk(s: Schema, disk: Disk, counter: nat, w: Value) {
    var b := ReadBase(s, disk.snapshot);
    b.Base? && disk.journal.Some? && PersistUnsafe(s, Version(b.sequence, [], b.value), disk.journal.value, counter, w)
  }

  predicate SameLoad(a: Loaded, b: Loaded) {
    (a.NoState? && b.NoState?) || (a.State? && b.State? && a.value == b.value)
  }

  lemma UnsafeRead(s: Schema, base: Version, journal: seq<Byte>, counter: nat, w: Value)
    requires WellFormed(s) && VersionOk(s, base)
    ensures UnsafeDisk(s, Disk(Some(VersionBytes(s, base)), Some(journal)), counter, w) <==> PersistUnsafe(s, base, journal, counter, w)
  {
    hide WellFormed, VersionOk, VersionBytes, ReadBase, FirstSequence, JournalEnd;
    BaseReads(s, base);
  }

  lemma LoadsBare(s: Schema, base: Version, blank: Value)
    requires WellFormed(s) && VersionOk(s, base)
    ensures Load(s, Disk(Some(VersionBytes(s, base)), None), blank) == State(base.value, 0, 0)
  {
    hide WellFormed, VersionOk, VersionBytes, ReadBase;
    BaseReads(s, base);
  }

  lemma CutForms(s: Schema, f: Files, w: Value, image: Disk)
    requires Recordable(s, f, PersistOp(w)) && PersistCut(s, f, w, image) && Formed(s, f.disk)
    ensures Formed(s, image)
  {
    hide Fits, Encode, VersionBytes, VersionOk, PersistCut;
    CutIsImage(s, f, w, image);
  }

  /** A crash inside a snapshot over any disk that is not unsafe: the new state is loaded, or what was loaded before. */
  lemma PersistAnywhere(s: Schema, f: Files, w: Value, image: Disk, blank: Value)
    requires WellFormed(s) && Recordable(s, f, PersistOp(w)) && PersistCut(s, f, w, image)
    requires Formed(s, f.disk) && Readable(f, 0) && !UnsafeDisk(s, f.disk, f.sequence, w)
    ensures var l := Load(s, image, blank); (l.State? && l.value == w) || SameLoad(Load(s, f.disk, blank), l)
  {
    hide WellFormed, Fits, Encode, VersionBytes, VersionOk, Load, PersistCut, PersistImage, UnsafeDisk, PersistUnsafe, ReadBase;
    CutIsImage(s, f, w, image);
    if f.disk == Disk(None, None) {
      FirstPersistCrashSafe(s, f.sequence, w, image, blank);
      NothingLoads(s, blank);
    } else {
      var base :| VersionOk(s, base) && f.disk.snapshot == Some(VersionBytes(s, base));
      if f.disk.journal.Some? {
        UnsafeRead(s, base, f.disk.journal.value, f.sequence, w);
        PersistLoads(s, base, f.disk.journal.value, f.sequence, w, image, blank);
      } else {
        BareCut(s, f, base, w, image, blank);
      }
    }
  }

  lemma NothingLoads(s: Schema, blank: Value)
    ensures Load(s, Disk(None, None), blank).NoState?
  {
  }

  lemma BareCut(s: Schema, f: Files, base: Version, w: Value, image: Disk, blank: Value)
    requires WellFormed(s) && VersionOk(s, base) && f.disk == Disk(Some(VersionBytes(s, base)), None)
    requires VersionOk(s, Version(f.sequence + 1, SNAPSHOT_TAG, w)) && VersionOk(s, Version(f.sequence + 2, SNAPSHOT_TAG, w))
    requires PersistImage(s, f.disk, f.sequence, w, image)
    ensures var l := Load(s, image, blank); (l.State? && l.value == w) || SameLoad(Load(s, f.disk, blank), l)
  {
    hide WellFormed, VersionOk, VersionBytes, Load;
    var x, y := Version(f.sequence + 1, SNAPSHOT_TAG, w), Version(f.sequence + 2, SNAPSHOT_TAG, w);
    LoadsBare(s, base, blank);
    LoadsBare(s, x, blank);
    if image != f.disk && image != f.disk.(snapshot := Some(VersionBytes(s, x))) {
      var k :| 0 <= k <= |VersionBytes(s, y)| && image == Disk(Some(VersionBytes(s, x)), Some(VersionBytes(s, y)[..k]));
      RotatingLoads(s, f.sequence, w, k, blank);
    }
  }

  /** Over a sound store a snapshot is never unsafe. */
  lemma SoundNeverUnsafe(s: Schema, f: Files, base: Version, chain: seq<Version>, w: Value)
    requires WellFormed(s) && Sound(s, f, base, chain)
    ensures Formed(s, f.disk) && f.disk.snapshot.Some? && !UnsafeDisk(s, f.disk, f.sequence, w)
  {
    hide WellFormed, VersionOk, VersionBytes, ReadBase, Joined, FirstSequence, JournalEnd, Rising;
    JournalHolds(s, base, chain);
    UnsafeRead(s, base, Joined(s, chain), f.sequence, w);
  }

  // -------------------------------------------------------------------- whole lives

  /** The state was saved, or was being saved, by some operation after which none completed. */
  predicate Recent(episodes: seq<Episode>, n: nat, v: Value)
    requires n <= |episodes|
  {
    exists k :: 0 <= k < n && !episodes[k].Closed? && episodes[k].op.value == v && NoneSince(episodes, k, n)
  }

  predicate NoneSince(episodes: seq<Episode>, k: nat, n: nat)
    requires n <= |episodes|
  {
    forall j :: k < j < n ==> !episodes[j].Finished?
  }

  predicate NoneFinished(episodes: seq<Episode>, n: nat)
    requires n <= |episodes|
  {
    forall j :: 0 <= j < n ==> !episodes[j].Finished?
  }

  ghost predicate Recovers(s: Schema, disk: Disk, episodes: seq<Episode>, n: nat, blank: Value)
    requires n <= |episodes|
  {
    var l := Load(s, disk, blank);
    (l.State? && Recent(episodes, n, l.value)) || (l.NoState? && NoneFinished(episodes, n))
  }

  /** What holds of the directory after some episodes of its life. */
  ghost predicate Standing(s: Schema, f: Files, episodes: seq<Episode>, n: nat, blank: Value)
    requires n <= |episodes|
  {
    && Formed(s, f.disk) && Recovers(s, f.disk, episodes, n, blank)
    && (!Booting(episodes, n) ==> exists b, c :: Sound(s, f, b, c) && LastValue(c, b.value) == episodes[n - 1].op.value)
  }

  /** No crash inside the snapshot of a boot finds an unsafe disk. */
  predicate SafeBoots(s: Schema, files: seq<Files>, episodes: seq<Episode>)
    requires |files| == |episodes| + 1
  {
    forall i :: 0 <= i < |episodes| ==> SafeBoot(s, files[i], Booting(episodes, i), episodes[i])
  }

  predicate SafeBoot(s: Schema, f: Files, booting: bool, e: Episode) {
    booting && e.Broken? && e.op.PersistOp? ==> !UnsafeDisk(s, f.disk, f.sequence, e.op.value)
  }

  lemma RecentNow(episodes: seq<Episode>, n: nat)
    requires n < |episodes| && !episodes[n].Closed?
    ensures Recent(episodes, n + 1, episodes[n].op.value)
  {
    assert NoneSince(episodes, n, n + 1);
  }

  lemma RecentStays(episodes: seq<Episode>, n: nat, v: Value)
    requires n < |episodes| && !episodes[n].Finished? && Recent(episodes, n, v)
    ensures Recent(episodes, n + 1, v)
  {
    var k :| 0 <= k < n && !episodes[k].Closed? && episodes[k].op.value == v && NoneSince(episodes, k, n);
    assert NoneSince(episodes, k, n + 1);
  }

  /** A crash that leaves the old state or the one being saved. */
  lemma BrokenRecovers(s: Schema, before: Disk, image: Disk, episodes: seq<Episode>, n: nat, blank: Value)
    requires n < |episodes| && episodes[n].Broken? && Recovers(s, before, episodes, n, blank)
    requires var l := Load(s, image, blank); (l.State? && l.value == episodes[n].op.value) || SameLoad(Load(s, before, blank), l)
    ensures Recovers(s, image, episodes, n + 1, blank)
  {
    hide Load, Recent;
    RecentNow(episodes, n);
    var l := Load(s, before, blank);
    if l.State? && Recent(episodes, n, l.value) { RecentStays(episodes, n, l.value); }
  }

  lemma FinishedStands(s: Schema, g: Growth, f: Files, episodes: seq<Episode>, n: nat, blank: Value)
    requires WellFormed(s) && n < |episodes| && episodes[n].Finished? && Standing(s, f, episodes, n, blank)
    requires Recordable(s, f, episodes[n].op) && (Booting(episodes, n) ==> episodes[n].op.PersistOp?)
    requires Shaped(s, episodes[n].op.value) && Readable(Perform(s, g, f, episodes[n].op), 0)
    ensures Standing(s, Perform(s, g, f, episodes[n].op), episodes, n + 1, blank)
  {
    hide WellFormed, Recordable, Perform, Load, Sound, Recent, Formed, Shaped, UnsafeDisk;
    var op, h := episodes[n].op, Perform(s, g, f, episodes[n].op);
    var b, c := Version(0, [], op.value), [];
    if !Booting(episodes, n) { b, c :| Sound(s, f, b, c) && LastValue(c, b.value) == episodes[n - 1].op.value; }
    b, c := PerformSound(s, g, f, b, c, op);
    SoundNeverUnsafe(s, h, b, c, op.value);
    SoundLoads(s, h, b, c, blank);
    RecentNow(episodes, n);
    assert Sound(s, h, b, c) && LastValue(c, b.value) == episodes[n + 1 - 1].op.value;
  }

  lemma SoundLoads(s: Schema, f: Files, base: Version, chain: seq<Version>, blank: Value)
    requires WellFormed(s) && Sound(s, f, base, chain) && Readable(f, 0)
    ensures var l := Load(s, f.disk, blank); l.State? && l.value == LastValue(chain, base.value)
  {
    hide WellFormed, Load, Holds;
    JournalReadable(s, f, base, chain);
    LoadsNewest(s, f.disk, base, chain, blank);
  }

  lemma AppendForms(s: Schema, g: Growth, f: Files, base: Version, chain: seq<Version>, tag: seq<Byte>, w: Value, image: Disk)
    requires WellFormed(s) && Sound(s, f, base, chain) && Recordable(s, f, AppendOp(tag, w)) && AppendCut(s, g, f, tag, w, image)
    ensures Formed(s, image)
  {
    hide WellFormed, Fits, Shaped, Encode, Written, RecordBytes, VersionBytes, VersionOk, PersistCut, Sound, UnsafeDisk;
    SoundNeverUnsafe(s, f, base, chain, w);
    ExtendSound(s, f, base, chain, tag, w);
    var h := Extended(s, f, tag, w);
    if Outgrown(g, h) && PersistCut(s, h, w, image) {
      SoundNeverUnsafe(s, h, base, chain + [Version(f.sequence + 1, tag, w)], w);
      ExtendedCut(s, h, w, image);
    }
  }

  lemma ExtendedCut(s: Schema, f: Files, w: Value, image: Disk)
    requires Fits(s, w) && |Encode(s, w)| <= MAX_PAYLOAD && f.sequence + 2 < U64 && PersistCut(s, f, w, image) && Formed(s, f.disk)
    ensures Formed(s, image)
  {
    hide Fits, Encode, VersionBytes, VersionOk, PersistCut;
    CutIsImage(s, f, w, image);
  }

  lemma BrokenStands(s: Schema, g: Growth, f: Files, episodes: seq<Episode>, n: nat, blank: Value)
    requires WellFormed(s) && n < |episodes| && episodes[n].Broken? && Standing(s, f, episodes, n, blank) && Readable(f, 0)
    requires Lawful(s, g, f, Booting(episodes, n), episodes[n]) && SafeBoot(s, f, Booting(episodes, n), episodes[n])
    ensures Standing(s, Files(episodes[n].image, 0, 0, 0), episodes, n + 1, blank)
  {
    hide WellFormed, Recordable, Load, Sound, Recent, Formed, UnsafeDisk, AppendCut, PersistCut, Readable, AppendReadable, Recovers;
    var op, image := episodes[n].op, episodes[n].image;
    match op
    case PersistOp(w) =>
      if !Booting(episodes, n) {
        var b, c :| Sound(s, f, b, c) && LastValue(c, b.value) == episodes[n - 1].op.value;
        SoundNeverUnsafe(s, f, b, c, w);
      }
      CutForms(s, f, w, image);
      PersistAnywhere(s, f, w, image, blank);
      BrokenRecovers(s, f.disk, image, episodes, n, blank);
    case AppendOp(tag, w) =>
      var b, c :| Sound(s, f, b, c) && LastValue(c, b.value) == episodes[n - 1].op.value;
      AppendForms(s, g, f, b, c, tag, w, image);
      AppendRecovers(s, g, f, b, c, tag, w, image, blank);
      BrokenRecovers(s, f.disk, image, episodes, n, blank);
  }

  lemma AppendRecovers(s: Schema, g: Growth, f: Files, base: Version, chain: seq<Version>, tag: seq<Byte>, w: Value, image: Disk, blank: Value)
    requires WellFormed(s) && Sound(s, f, base, chain) && Recordable(s, f, AppendOp(tag, w)) && AppendCut(s, g, f, tag, w, image)
    requires Readable(f, 0) && AppendReadable(s, f, AppendOp(tag, w))
    ensures var l := Load(s, image, blank); (l.State? && l.value == w) || SameLoad(Load(s, f.disk, blank), l)
  {
    hide WellFormed, Fits, Shaped, Encode, Written, RecordBytes, VersionOk, Load, Sound, AppendCut;
    RecordedVersion(s, f.sequence + 1, tag, w);
    AppendCutSafe(s, g, f, base, chain, tag, w, image, blank);
    SoundLoads(s, f, base, chain, blank);
  }

  lemma ClosedStands(s: Schema, f: Files, episodes: seq<Episode>, n: nat, blank: Value)
    requires n < |episodes| && episodes[n].Closed? && Standing(s, f, episodes, n, blank)
    ensures Standing(s, Reopened(f), episodes, n + 1, blank)
  {
    hide Load, Recent, Formed, Sound;
    var l := Load(s, f.disk, blank);
    if l.State? && Recent(episodes, n, l.value) { RecentStays(episodes, n, l.value); }
  }

  lemma {:induction false} LifeStands(s: Schema, g: Growth, files: seq<Files>, episodes: seq<Episode>, n: nat, blank: Value)
    requires WellFormed(s) && Life(s, g, files, episodes) && SafeBoots(s, files, episodes) && n <= |episodes|
    ensures Standing(s, files[n], episodes, n, blank)
    decreases n
  {
    hide WellFormed, Load, Standing, Lawful, Recordable, Perform, Readable, SafeBoot, Shaped;
    if n == 0 {
      EmptyStands(s, episodes, blank);
    } else {
      LifeStands(s, g, files, episodes, n - 1, blank);
      var f, e := files[n - 1], episodes[n - 1];
      assert Linked(s, g, f, Booting(episodes, n - 1), e, files[n]) && SafeBoot(s, f, Booting(episodes, n - 1), e);
      assert Readable(files[n], 0) && Readable(f, 0);
      match e
      case Finished(op) => LawfulFinished(s, g, f, Booting(episodes, n - 1), e); FinishedStands(s, g, f, episodes, n - 1, blank);
      case Broken(_, _) => BrokenStands(s, g, f, episodes, n - 1, blank);
      case Closed => ClosedStands(s, f, episodes, n - 1, blank);
    }
  }

  lemma LawfulFinished(s: Schema, g: Growth, f: Files, booting: bool, e: Episode)
    requires e.Finished? && Lawful(s, g, f, booting, e)
    ensures Recordable(s, f, e.op) && (booting ==> e.op.PersistOp?)
  {
  }

  lemma EmptyStands(s: Schema, episodes: seq<Episode>, blank: Value)
    ensures Standing(s, EMPTY, episodes, 0, blank)
  {
    NothingLoads(s, blank);
  }

  /** However often the service crashes and boots again, loading never returns a state older than the last one that was
  saved to the end, as long as no boot crashes over an unsafe disk. */
  lemma RebootsRecover(s: Schema, g: Growth, files: seq<Files>, episodes: seq<Episode>, blank: Value)
    requires WellFormed(s) && Life(s, g, files, episodes) && SafeBoots(s, files, episodes)
    ensures Recovers(s, files[|episodes|].disk, episodes, |episodes|, blank)
  {
    hide WellFormed, Life, SafeBoots, Recovers;
    LifeStands(s, g, files, episodes, |episodes|, blank);
  }

  /** The exception is exact: at a boot, a snapshot is safe at every byte if and only if the disk is not unsafe. */
  lemma BootExact(s: Schema, f: Files, w: Value, blank: Value)
    requires WellFormed(s) && Recordable(s, f, PersistOp(w)) && Formed(s, f.disk) && Readable(f, 0)
    ensures (forall image :: PersistCut(s, f, w, image) ==>
               var l := Load(s, image, blank); (l.State? && l.value == w) || SameLoad(Load(s, f.disk, blank), l))
            <==> !UnsafeDisk(s, f.disk, f.sequence, w)
  {
    hide WellFormed, Fits, Encode, VersionBytes, VersionOk, Load, PersistCut, UnsafeDisk, FirstSequence, JournalEnd, ReadBase, Readable;
    if !UnsafeDisk(s, f.disk, f.sequence, w) {
      forall image | PersistCut(s, f, w, image)
        ensures var l := Load(s, image, blank); (l.State? && l.value == w) || SameLoad(Load(s, f.disk, blank), l)
      {
        PersistAnywhere(s, f, w, image, blank);
      }
    } else {
      UnsafeBase(s, f.disk, f.sequence, w);
      var base :| VersionOk(s, base) && f.disk.snapshot == Some(VersionBytes(s, base));
      UnsafeRead(s, base, f.disk.journal.value, f.sequence, w);
      ReplacedIsCut(s, f, w);
      JournalFits(f);
      UnrotatedExact(s, base, f.disk.journal.value, f.sequence, w, blank);
    }
  }

  lemma UnsafeBase(s: Schema, disk: Disk, counter: nat, w: Value)
    requires UnsafeDisk(s, disk, counter, w)
    ensures disk.snapshot.Some? && disk.journal.Some?
  {
    hide FirstSequence, JournalEnd, DecodeRecord, DecodeAll;
  }

  lemma JournalFits(f: Files)
    requires Readable(f, 0) && f.disk.journal.Some?
    ensures |f.disk.journal.value| <= READ_CAP
  {
  }

  // -------------------------------------------------- journals that outgrow the reader

  /** The configured defaults. */
  const DEFAULT_GROWTH := Growth(4 * 0x10_0000, 2048)

  /** A snapshot, then the same state appended a number of times. */
  function Repeated(tag: seq<Byte>, w: Value, n: nat): seq<Operation> { [PersistOp(w)] + seq(n, _ => AppendOp(tag, w)) }

  lemma RepeatedStep(tag: seq<Byte>, w: Value, n: nat)
    ensures n > 0 ==> Repeated(tag, w, n)[..n] == Repeated(tag, w, n - 1) && Repeated(tag, w, n)[n] == AppendOp(tag, w)
    ensures |Repeated(tag, w, n)| == n + 1 && Repeated(tag, w, 0) == [PersistOp(w)]
  {
  }

  /** What such a history leaves in the journal: all of its records, as long as neither bound is crossed. */
  ghost predicate Swollen(f: Files, first: nat, each: nat, n: nat) {
    && f.sequence == n + 2 && f.records == n + 1 && f.bytes == first + n * each
    && f.disk.journal.Some? && |f.disk.journal.value| == f.bytes
  }

  lemma PersistSwells(s: Schema, w: Value)
    requires Recordable(s, EMPTY, PersistOp(w)) && Shaped(s, w)
    ensures Swollen(Persist(s, EMPTY, w).0, 36 + |Encode(s, w)|, 0, 0)
  {
    hide Fits, Encode, Shaped, Written, RecordBytes;
    FitsWritten(s, w);
  }

  lemma AppendSwells(s: Schema, f: Files, tag: seq<Byte>, w: Value, first: nat, n: nat)
    requires Recordable(s, f, AppendOp(tag, w)) && Shaped(s, w) && Swollen(f, first, 28 + |tag| + |Encode(s, w)|, n)
    requires first + (n + 1) * (28 + |tag| + |Encode(s, w)|) <= DEFAULT_GROWTH.maxBytes && n + 2 <= DEFAULT_GROWTH.maxRecords
    ensures Swollen(Append(s, DEFAULT_GROWTH, f, tag, w).0, first, 28 + |tag| + |Encode(s, w)|, n + 1)
  {
    hide Fits, Encode, Shaped, Written, RecordBytes, Persist;
    FitsWritten(s, w);
    var each := 28 + |tag| + |Encode(s, w)|;
    assert (n + 1) * each == n * each + each;
  }

  predicate Storable(s: Schema, tag: seq<Byte>, w: Value) {
    Fits(s, w) && |Encode(s, w)| <= MAX_PAYLOAD && |tag| <= MAX_LABEL
  }

  lemma {:induction false} RepeatedSwells(s: Schema, tag: seq<Byte>, w: Value, n: nat)
    requires Storable(s, tag, w) && n < 2048
    requires 36 + |Encode(s, w)| + n * (28 + |tag| + |Encode(s, w)|) <= DEFAULT_GROWTH.maxBytes
    ensures Orderly(s, DEFAULT_GROWTH, Repeated(tag, w, n))
    ensures Swollen(After(s, DEFAULT_GROWTH, Repeated(tag, w, n)), 36 + |Encode(s, w)|, 28 + |tag| + |Encode(s, w)|, n)
    decreases n
  {
    hide Fits, Encode, Shaped, Written, Persist, Append, Repeated;
    RepeatedStep(tag, w, n);
    FitsWritten(s, w);
    var g, ops := DEFAULT_GROWTH, Repeated(tag, w, n);
    if n == 0 {
      assert ops[..0] == [];
      PersistSwells(s, w);
      OneStep(s, g, ops, EMPTY);
    } else {
      var each := 28 + |tag| + |Encode(s, w)|;
      assert n * each == (n - 1) * each + each;
      RepeatedSwells(s, tag, w, n - 1);
      var f := After(s, g, Repeated(tag, w, n - 1));
      AppendSwells(s, f, tag, w, 36 + |Encode(s, w)|, n - 1);
      OneStep(s, g, ops, f);
    }
  }

  /** One more operation at the end of a history. */
  lemma OneStep(s: Schema, g: Growth, ops: seq<Operation>, f: Files)
    requires ops != [] && Orderly(s, g, ops[..|ops| - 1]) && f == After(s, g, ops[..|ops| - 1])
    requires Recordable(s, f, ops[|ops| - 1]) && (|ops| == 1 ==> ops[0].PersistOp?) && Shaped(s, ops[|ops| - 1].value)
    ensures Orderly(s, g, ops) && After(s, g, ops) == Perform(s, g, f, ops[|ops| - 1])
  {
    hide Recordable, Perform, Shaped;
  }

  /** How often a record of this size has to be appended before the journal is larger than what loading reads. */
  function Enough(each: nat): nat
    requires each > 0
  {
    READ_CAP / each + 1
  }

  lemma EnoughExceeds(each: nat)
    requires 540 <= each <= MAX_PAYLOAD + 92
    ensures READ_CAP < Enough(each) * each <= READ_CAP + each && Enough(each) < 2048
  {
    var q := READ_CAP / each;
    assert READ_CAP == q * each + READ_CAP % each;
    assert (q + 1) * each == q * each + each;
    if q >= 2047 {
      assert q * each >= 2047 * 540 by { Grow(2047, q, 540, each); }
    }
  }

  lemma Grow(a: nat, b: nat, c: nat, d: nat)
    requires a <= b && c <= d
    ensures a * c <= b * d
  {
  }

  /** Every state of 512 bytes or more: enough appends of it, all of them completed and within both default bounds, and the
  directory can no longer be loaded. */
  lemma JournalOutgrowsReader(s: Schema, tag: seq<Byte>, w: Value, blank: Value) returns (ops: seq<Operation>)
    requires WellFormed(s) && Storable(s, tag, w) && |Encode(s, w)| >= 512
    ensures Orderly(s, DEFAULT_GROWTH, ops) && ops != [] && ops[|ops| - 1].value == w
    ensures var f := After(s, DEFAULT_GROWTH, ops); !Outgrown(DEFAULT_GROWTH, f) && Load(s, f.disk, blank).NotLoadable?
  {
    hide WellFormed, Fits, Encode, Orderly, After, Load, Repeated, Enough, Sound;
    var each := 28 + |tag| + |Encode(s, w)|;
    EnoughExceeds(each);
    ops := Repeated(tag, w, Enough(each));
    RepeatedStep(tag, w, Enough(each));
    RepeatedValues(tag, w, Enough(each));
    RepeatedSwells(s, tag, w, Enough(each));
    var b, c := HistorySound(s, DEFAULT_GROWTH, ops);
    Unreadable(s, After(s, DEFAULT_GROWTH, ops), b, c, blank);
  }

  lemma RepeatedValues(tag: seq<Byte>, w: Value, n: nat)
    ensures forall i :: 0 <= i <= n ==> i < |Repeated(tag, w, n)| && Repeated(tag, w, n)[i].value == w
  {
  }

  lemma Unreadable(s: Schema, f: Files, base: Version, chain: seq<Version>, blank: Value)
    requires WellFormed(s) && Sound(s, f, base, chain) && f.disk.journal.Some? && |f.disk.journal.value| > READ_CAP
    ensures Load(s, f.disk, blank).NotLoadable?
  {
    hide WellFormed, Load, Joined, VersionOk, VersionBytes;
    LoadsNewest(s, f.disk, base, chain, blank);
  }

  // A snapshot of that size: no session, and the contract generations of some workloads.

  /** Values in a row. */
  function Row(values: seq<Value>): Value
    decreases |values|
  {
    if values == [] then Nothing else Both(values[0], Row(values[1..]))
  }

  lemma UnitEncodes()
    ensures Fits(Unit, Nothing) && |Encode(Unit, Nothing)| == 0
  {
  }

  lemma {:induction false} RowEncodes(fields: seq<Schema>, values: seq<Value>, most: nat)
    requires |fields| == |values|
    requires forall i :: 0 <= i < |fields| ==> Fits(fields[i], values[i]) && |Encode(fields[i], values[i])| <= most
    ensures Fits(Fields(fields), Row(values)) && |Encode(Fields(fields), Row(values))| <= |fields| * most
    ensures forall i :: 0 <= i < |fields| ==> |Encode(fields[i], values[i])| <= |Encode(Fields(fields), Row(values))|
    decreases |fields|
  {
    hide Fits, Encode;
    if fields == [] {
      UnitEncodes();
    } else {
      RowEncodes(fields[1..], values[1..], most);
      PairEncodes(fields[0], Fields(fields[1..]), values[0], Row(values[1..]));
      assert |fields| * most == most + (|fields| - 1) * most;
      forall i | 0 <= i < |fields| ensures |Encode(fields[i], values[i])| <= |Encode(Fields(fields), Row(values))| {
        if i > 0 { assert fields[i] == fields[1..][i - 1] && values[i] == values[1..][i - 1]; }
      }
    }
  }

  const ZERO: Value := Num(0)

  function Generation(): Value { Row([Str(seq(16, _ => 0)), ZERO]) }

  /** A snapshot without sessions that names forty workloads. */
  function Sparse(): Value {
    Row([ZERO, ZERO, ZERO, ZERO, Items(seq(40, _ => Generation())), Items([]), Row(seq(18, _ => ZERO)), ZERO])
  }

  lemma ZeroFits()
    ensures Fits(LONG, ZERO) && |Encode(LONG, ZERO)| == 8 && Fits(Uint(4), ZERO) && |Encode(Uint(4), ZERO)| == 4
    ensures Fits(ID, Str(seq(16, _ => 0))) && |Encode(ID, Str(seq(16, _ => 0)))| == 16
  {
    SmallPowers();
  }

  lemma GenerationFits()
    ensures Fits(Fields([ID, LONG]), Generation()) && 16 <= |Encode(Fields([ID, LONG]), Generation())| <= 32
  {
    hide Fields, Fits, Encode, Row;
    ZeroFits();
    var fields, values := [ID, LONG], [Str(seq(16, _ => 0)), ZERO];
    RowEncodes(fields, values, 16);
    assert |Encode(fields[0], values[0])| == 16;
  }

  lemma {:induction false} ItemsBounded(e: Schema, items: seq<Value>, least: nat, most: nat)
    requires forall i :: 0 <= i < |items| ==> Fits(e, items[i]) && least <= |Encode(e, items[i])| <= most
    ensures |items| * least <= |EncodeItems(e, items)| <= |items| * most
    decreases |items|
  {
    if items != [] {
      ItemsBounded(e, items[1..], least, most);
      assert |items| * least == least + (|items| - 1) * least && |items| * most == most + (|items| - 1) * most;
    }
  }

  lemma GenerationsFit(bound: nat)
    requires bound >= 40
    ensures var v := Items(seq(40, _ => Generation()));
            Fits(List(bound, Fields([ID, LONG])), v) && 512 <= |Encode(List(bound, Fields([ID, LONG])), v)| <= 2000
  {
    hide Fields, Generation;
    GenerationFits();
    ItemsBounded(Fields([ID, LONG]), seq(40, _ => Generation()), 16, 32);
  }

  lemma TotalsFit()
    ensures Fits(AccountingFields(), Row(seq(18, _ => ZERO))) && |Encode(AccountingFields(), Row(seq(18, _ => ZERO)))| <= 144
  {
    hide Fields, Fits, Encode, Row;
    ZeroFits();
    var fields := [LONG, LONG, LONG, LONG, LONG, LONG, LONG, LONG, LONG, LONG, LONG, LONG, LONG, LONG, LONG, LONG, Uint(4), Uint(4)];
    RowEncodes(fields, seq(18, _ => ZERO), 8);
  }

  lemma NoItems(bound: nat, e: Schema)
    ensures Fits(List(bound, e), Items([])) && |Encode(List(bound, e), Items([]))| == 4
  {
  }

  lemma SparseFits(b: Bounds)
    requires b.workloads >= 40
    ensures Fits(SnapshotFields(b), Sparse()) && 512 <= |Encode(SnapshotFields(b), Sparse())| <= MAX_PAYLOAD
  {
    hide Fields, Fits, Encode, Row, SessionFields, AccountingFields, Generation;
    ZeroFits();
    GenerationsFit(b.workloads);
    TotalsFit();
    NoItems(b.sessions, SessionFields(b));
    var fields := [LONG, LONG, LONG, LONG, List(b.workloads, Fields([ID, LONG])), List(b.sessions, SessionFields(b)), AccountingFields(), LONG];
    var values := [ZERO, ZERO, ZERO, ZERO, Items(seq(40, _ => Generation())), Items([]), Row(seq(18, _ => ZERO)), ZERO];
    RowEncodes(fields, values, 2000);
    assert |Encode(fields[4], values[4])| >= 512;
  }

  /** A snapshot of forty workloads and no session, saved and appended with success throughout: the directory cannot be loaded. */
  lemma SavedYetNotLoadable(b: Bounds, blank: Value) returns (ops: seq<Operation>)
    requires b.workloads >= 40
    ensures Orderly(SnapshotFields(b), DEFAULT_GROWTH, ops) && ops != []
    ensures var f := After(SnapshotFields(b), DEFAULT_GROWTH, ops);
            !Outgrown(DEFAULT_GROWTH, f) && Load(SnapshotFields(b), f.disk, blank).NotLoadable?
  {
    hide SnapshotFields, Sparse, WellFormed, Fits, Encode, Orderly, After, Load;
    SnapshotWellFormed(b);
    SparseFits(b);
    ops := JournalOutgrowsReader(SnapshotFields(b), SNAPSHOT_TAG, Sparse(), blank);
  }
}
