/** The engine's self-check: one pass over the session table, the aggregates and
the indexes, and what it means that the pass finds no fault. */
module Audit {
  import opened Sums
  import opened Model
  import opened Sessions
  import opened Spec
  import opened Invariants
  import opened Indexes

  predicate EveryShardVerified(shards: seq<Shard>) {
    forall i :: 0 <= i < |shards| ==> shards[i].state.ShardVerified?
  }

  predicate SameOrder(s: Session) {
    && |s.shards| == |s.request.manifest.shards|
    && forall i :: 0 <= i < |s.shards| ==> s.shards[i].index == s.request.manifest.shards[i].index
  }

  /** A session record that stands on its own. */
  predicate RecordAudited(s: Session, requireVerification: bool) {
    && SameOrder(s)
    && Conserves(s.ledger) && s.ledger.verified <= s.ledger.transferred
    && (IsTerminal(s.state) ==> s.ledger.outstanding == 0 && s.activeAttempts == 0)
    && (s.evidence.VerifiedAtDestinationEvidence? ==> EveryShardVerified(s.shards))
    && (s.state.TrafficSessionComplete? && requireVerification ==> EveryShardVerified(s.shards))
  }

  predicate Known(index: map<nat, seq<SessionId>>, sessions: map<SessionId, Session>) {
    forall k, id :: k in index && id in index[k] ==> id in sessions
  }

  /** Every record stands on its own, and every aggregate and index agrees with the records. */
  ghost predicate Audited(a: Accounting, sessions: map<SessionId, Session>, pruned: Ledger, byWorkload: map<nat, seq<SessionId>>,
                          byCheckpoint: map<nat, seq<SessionId>>, remembered: nat, bound: nat, requireVerification: bool)
  {
    && Conserves(a.bytes)
    && (forall id :: id in sessions ==> RecordAudited(sessions[id], requireVerification))
    && BooksAgree(a, sessions, pruned) && a.activeSessions == Total(sessions, ActiveOne)
    && Known(byWorkload, sessions) && Total(byWorkload, Entries) == |sessions|
    && Known(byCheckpoint, sessions)
    && remembered <= bound
  }

  method VerifiedThroughout(shards: seq<Shard>) returns (ok: bool)
    ensures ok <==> EveryShardVerified(shards)
  {
    for i := 0 to |shards|
      invariant forall k :: 0 <= k < i ==> shards[k].state.ShardVerified?
    {
      if !shards[i].state.ShardVerified? { return false; }
    }
    return true;
  }

  method InOrder(s: Session) returns (ok: bool)
    ensures ok <==> SameOrder(s)
  {
    if |s.shards| != |s.request.manifest.shards| { return false; }
    for i := 0 to |s.shards|
      invariant forall k :: 0 <= k < i ==> s.shards[k].index == s.request.manifest.shards[k].index
    {
      if s.shards[i].index != s.request.manifest.shards[i].index { return false; }
    }
    return true;
  }

  method CheckRecord(s: Session, requireVerification: bool) returns (fault: Option<ErrorCode>)
    ensures fault.None? <==> RecordAudited(s, requireVerification)
  {
    var l := s.ledger;
    var ordered := InOrder(s);
    if !ordered { return Some(CorruptState); }
    if l.transferred > l.admitted { return Some(AccountingImbalance); }
    if l.verified > l.transferred { return Some(AccountingImbalance); }
    if l.transferred + l.wasted + l.cancelled + l.unproven + l.outstanding != l.admitted { return Some(AccountingImbalance); }
    if l.outstanding > l.admitted { return Some(AccountingImbalance); }
    if IsTerminal(s.state) && (l.outstanding != 0 || s.activeAttempts != 0) { return Some(AccountingImbalance); }
    if s.evidence.VerifiedAtDestinationEvidence? {
      var ok := VerifiedThroughout(s.shards);
      if !ok { return Some(CorruptState); }
    }
    if s.state.TrafficSessionComplete? && requireVerification {
      var ok := VerifiedThroughout(s.shards);
      if !ok { return Some(CorruptState); }
    }
    return None;
  }

  function Added(p: Ledger, l: Ledger): Ledger {
    Ledger(p.admitted + l.admitted, p.transferred + l.transferred, p.verified + l.verified, p.cancelled + l.cancelled,
           p.wasted + l.wasted, p.unproven + l.unproven, p.outstanding + l.outstanding)
  }

  lemma BooksMove(rest: map<SessionId, Session>, sum: Ledger, id: SessionId)
    requires id in rest
    ensures Books(rest - {id}, Added(sum, rest[id].ledger)) == Books(rest, sum)
    ensures Total(rest - {id}, ActiveOne) + ActiveOne(rest[id]) == Total(rest, ActiveOne)
    ensures Total(rest - {id}, AttemptsOf) + AttemptsOf(rest[id]) == Total(rest, AttemptsOf)
  {
    TotalRemove(rest, id, AdmittedOf);
    TotalRemove(rest, id, TransferredOf);
    TotalRemove(rest, id, VerifiedOf);
    TotalRemove(rest, id, CancelledOf);
    TotalRemove(rest, id, WastedOf);
    TotalRemove(rest, id, UnprovenOf);
    TotalRemove(rest, id, OutstandingOf);
    TotalRemove(rest, id, ActiveOne);
    TotalRemove(rest, id, AttemptsOf);
  }

  /** Sums the table and checks each record on the way. */
  method SumRecords(sessions: map<SessionId, Session>, pruned: Ledger, requireVerification: bool)
    returns (fault: Option<ErrorCode>, sum: Ledger, active: nat, attempts: nat)
    ensures fault.None? <==> forall id :: id in sessions ==> RecordAudited(sessions[id], requireVerification)
    ensures fault.None? ==>
              sum == Books(sessions, pruned) && active == Total(sessions, ActiveOne) && attempts == Total(sessions, AttemptsOf)
  {
    hide Books, RecordAudited, Added;
    sum, active, attempts := pruned, 0, 0;
    var rest := sessions;
    while rest.Keys != {}
      invariant forall id :: id in rest ==> id in sessions && rest[id] == sessions[id]
      invariant forall id :: id in sessions && id !in rest ==> RecordAudited(sessions[id], requireVerification)
      invariant Books(rest, sum) == Books(sessions, pruned)
      invariant active + Total(rest, ActiveOne) == Total(sessions, ActiveOne)
      invariant attempts + Total(rest, AttemptsOf) == Total(sessions, AttemptsOf)
      decreases |rest|
    {
      var id :| id in rest.Keys;
      var s := rest[id];
      BooksMove(rest, sum, id);
      fault := CheckRecord(s, requireVerification);
      if fault.Some? { return; }
      sum, attempts := Added(sum, s.ledger), attempts + s.activeAttempts;
      if Active(s) { active := active + 1; }
      assert |rest - {id}| < |rest| by { assert rest.Keys == (rest - {id}).Keys + {id}; }
      rest := rest - {id};
    }
    fault := None;
    assert rest == map[];
    EmptyBooks(sum);
  }

  lemma EmptyBooks(sum: Ledger)
    ensures Books(map[], sum) == sum
  {
  }

  /** Every entry names a known session; counts the entries on the way. */
  method CountEntries(index: map<nat, seq<SessionId>>, sessions: map<SessionId, Session>) returns (known: bool, entries: nat)
    ensures known <==> Known(index, sessions)
    ensures known ==> entries == Total(index, Entries)
  {
    entries := 0;
    var rest := index;
    while rest.Keys != {}
      invariant forall k :: k in rest ==> k in index && rest[k] == index[k]
      invariant forall k, id :: k in index && k !in rest && id in index[k] ==> id in sessions
      invariant entries + Total(rest, Entries) == Total(index, Entries)
      decreases |rest|
    {
      var k :| k in rest.Keys;
      TotalRemove(rest, k, Entries);
      var ids := rest[k];
      for i := 0 to |ids|
        invariant forall j :: 0 <= j < i ==> ids[j] in sessions
      {
        if ids[i] !in sessions { return false, entries; }
      }
      entries := entries + |ids|;
      assert |rest - {k}| < |rest| by { assert rest.Keys == (rest - {k}).Keys + {k}; }
      rest := rest - {k};
    }
    assert rest == map[];
    known := true;
  }

  /** The self-check passes exactly when the state is audited. */
  method Check(a: Accounting, sessions: map<SessionId, Session>, pruned: Ledger, byWorkload: map<nat, seq<SessionId>>,
               byCheckpoint: map<nat, seq<SessionId>>, remembered: nat, bound: nat, requireVerification: bool)
    returns (fault: Option<ErrorCode>)
    ensures fault.None? <==> Audited(a, sessions, pruned, byWorkload, byCheckpoint, remembered, bound, requireVerification)
  {
    hide RecordAudited, Books, Known;
    if !Conserves(a.bytes) { return Some(AccountingImbalance); }
    var sum, active, attempts;
    fault, sum, active, attempts := SumRecords(sessions, pruned, requireVerification);
    if fault.Some? { return; }
    if sum != a.bytes { return Some(AccountingImbalance); }
    if active != a.activeSessions || attempts != a.activeAttempts { return Some(AccountingImbalance); }
    var known, indexed := CountEntries(byWorkload, sessions);
    if !known { return Some(CorruptState); }
    var others;
    known, others := CountEntries(byCheckpoint, sessions);
    if !known { return Some(CorruptState); }
    if indexed != |sessions| { return Some(CorruptState); }
    if remembered > bound { return Some(ResourceExhausted); }
    return None;
  }
}
