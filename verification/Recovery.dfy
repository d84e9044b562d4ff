/** Restart reconciliation: what advancing the epoch does to a running session,
and how it compares with restoring an exported snapshot. */
module Recovery {
  import opened Sums
  import opened Model
  import opened Sessions
  import opened Spec
  import opened Invariants
  import opened Commands
  import opened Theorems

  // ---------------------------------------------------------- epoch advance

  /** Exactly the undelivered bytes of outstanding attempts become unproven, as far
  as they are still outstanding; no attempt and no in-flight shard survives. */
  lemma RestartMovesExactly(s: Session)
    requires SessionOk(s) && Active(s)
    ensures var r := Restart(s);
            var moved := Min(SeqTotal(s.attempts, AtRiskOf), s.ledger.outstanding);
            && r.ledger == s.ledger.(unproven := s.ledger.unproven + moved, outstanding := s.ledger.outstanding - moved)
            && r.activeAttempts == 0
            && (forall i :: 0 <= i < |r.attempts| ==> !r.attempts[i].outstanding)
            && (forall p :: 0 <= p < |r.shards| ==> !r.shards[p].state.ShardGranted? && !r.shards[p].state.ShardInFlight?)
            && SessionOk(r)
  {
    hide SessionOk;
    RestartOk(s);
  }

  lemma {:induction false} NothingAtRisk(attempts: seq<Attempt>)
    requires forall i :: 0 <= i < |attempts| ==> !attempts[i].outstanding
    ensures SeqTotal(attempts, AtRiskOf) == 0
  {
    if attempts != [] { NothingAtRisk(attempts[1..]); }
  }

  /** A second restart moves no byte and changes nothing at all. */
  lemma RestartIdempotent(s: Session)
    ensures Restart(Restart(s)) == Restart(s)
  {
    var r := Restart(s);
    NothingAtRisk(r.attempts);
    assert RestartAttempts(r.attempts) == r.attempts;
    assert RestartShards(r.shards) == r.shards;
  }

  // ---------------------------------------------------------------- restore

  predicate Unsettled(o: AttemptOutcome) {
    o.OutcomeGranted? || o.OutcomeInFlight? || o.OutcomeDeliveredUnacked?
  }

  /** A snapshot records outcomes; whether an attempt was outstanding is inferred from them. */
  function RestoreAttempt(a: Attempt): Attempt {
    a.(outstanding := Unsettled(a.outcome), outcome := if Unsettled(a.outcome) then OutcomeAmbiguous else a.outcome)
  }

  function RestoreAttempts(attempts: seq<Attempt>): (r: seq<Attempt>)
    ensures |r| == |attempts|
    ensures forall i :: 0 <= i < |attempts| ==> r[i] == RestoreAttempt(attempts[i])
  {
    seq(|attempts|, i requires 0 <= i < |attempts| => RestoreAttempt(attempts[i]))
  }

  function Quieted(a: Attempt): Attempt { a.(outstanding := false) }

  function QuietAll(attempts: seq<Attempt>): (r: seq<Attempt>)
    ensures |r| == |attempts|
    ensures forall i :: 0 <= i < |attempts| ==> r[i] == Quieted(attempts[i])
  {
    seq(|attempts|, i requires 0 <= i < |attempts| => Quieted(attempts[i]))
  }

  /** The record as read back: reservations and the paused flag are not persisted. */
  function ReadBack(s: Session): Session {
    s.(attempts := RestoreAttempts(s.attempts), activeAttempts := 0, paused := false, pausedFrom := Admitted, reserved := None)
  }

  /** One session of a restored table. */
  function Restored(s: Session): Session {
    var r := ReadBack(s);
    if !Active(s) then r
    else
      var u := Unprove(r, SeqTotal(r.attempts, AtRiskOf));
      u.(attempts := QuietAll(r.attempts), shards := RestartShards(s.shards), state := RevalidationRequired)
  }

  /** An attempt whose last report was unacknowledged although it had been settled before. */
  predicate LateReport(a: Attempt) {
    Unsettled(a.outcome) && !a.outstanding && a.granted > a.delivered
  }

  lemma RestoredAtRisk(shards: seq<Shard>, attempts: seq<Attempt>)
    requires AttemptsSound(shards, attempts)
    ensures SeqTotal(attempts, AtRiskOf) <= SeqTotal(RestoreAttempts(attempts), AtRiskOf)
    ensures SeqTotal(attempts, AtRiskOf) == SeqTotal(RestoreAttempts(attempts), AtRiskOf) <==>
            forall i :: 0 <= i < |attempts| ==> !LateReport(attempts[i])
  {
    var r := RestoreAttempts(attempts);
    forall i | 0 <= i < |attempts| ensures AtRiskOf(attempts[i]) <= AtRiskOf(r[i])
                                           && (AtRiskOf(attempts[i]) == AtRiskOf(r[i]) <==> !LateReport(attempts[i])) {
      assert LiveAttemptSound(shards, attempts[i]);
    }
    SeqTotalBelow(attempts, r, AtRiskOf, AtRiskOf);
    if forall i :: 0 <= i < |attempts| ==> !LateReport(attempts[i]) {
      SeqTotalAlike(attempts, r, AtRiskOf, AtRiskOf);
    }
  }

  /** Restoring an exported running session gives the record that advancing the
  epoch gives (apart from what is not persisted), and the same byte buckets
  exactly when no unacknowledged report followed an acknowledged one, or all that
  is outstanding was at risk anyway. */
  lemma RestoreMatchesRestart(s: Session)
    requires SessionOk(s) && Active(s)
    ensures Restored(s) == Restart(s).(ledger := Restored(s).ledger, pausedFrom := Admitted, reserved := None)
    ensures Restored(s).ledger == Restart(s).ledger <==>
            (forall i :: 0 <= i < |s.attempts| ==> !LateReport(s.attempts[i]))
            || s.ledger.outstanding <= SeqTotal(s.attempts, AtRiskOf)
  {
    RestoredAtRisk(s.shards, s.attempts);
    assert QuietAll(RestoreAttempts(s.attempts)) == RestartAttempts(s.attempts);
  }

  lemma RestoredOk(s: Session)
    requires SessionOk(s) && Active(s)
    ensures SessionOk(Restored(s))
  {
    hide AttemptsSound, ShardsSound, Shaped, AllVerified, RunningLedger;
    var r := Restart(s);
    RestartOk(s);
    assert Restored(s) == r.(ledger := Restored(s).ledger, pausedFrom := Admitted, reserved := None) by {
      assert QuietAll(RestoreAttempts(s.attempts)) == RestartAttempts(s.attempts);
    }
    RestoredLedger(s);
  }

  lemma RestoredLedger(s: Session)
    requires CoreOk(s) && Active(s)
    ensures RunningLedger(Restored(s)) && Conserves(Restored(s).ledger)
    ensures Restored(s).ledger.verified <= Restored(s).ledger.transferred
  {
    var r := Restored(s);
    SeqTotalAlike(s.shards, r.shards, ShardBytes, ShardBytes);
    SeqTotalAlike(s.shards, r.shards, ShardVerifiedBytes, ShardVerifiedBytes);
  }

  /** A terminal session comes back sound exactly when none of its attempts kept an unsettled outcome. */
  lemma RestoredTerminalExact(s: Session)
    requires SessionOk(s) && !Active(s)
    ensures SessionOk(Restored(s)) <==> forall i :: 0 <= i < |s.attempts| ==> !Unsettled(s.attempts[i].outcome)
  {
    var r := Restored(s);
    if forall i :: 0 <= i < |s.attempts| ==> !Unsettled(s.attempts[i].outcome) {
      hide ShardsSound, Shaped, AllVerified, AllSettled;
      NoneLive(r.attempts);
      QuietUpdate(s.shards, s.attempts, r.shards, r.attempts);
    } else {
      var i :| 0 <= i < |s.attempts| && Unsettled(s.attempts[i].outcome);
      assert r.attempts[i].outstanding;
    }
  }

  // -------------------------------------------------------------- aggregate

  function RestoredTable(sessions: map<SessionId, Session>): map<SessionId, Session> {
    map id | id in sessions :: Restored(sessions[id])
  }

  function ReadBackTable(sessions: map<SessionId, Session>): map<SessionId, Session> {
    map id | id in sessions :: ReadBack(sessions[id])
  }

  function MovedOf(s: Session): nat {
    if Active(s) then Min(SeqTotal(RestoreAttempts(s.attempts), AtRiskOf), s.ledger.outstanding) else 0
  }

  /** The aggregate a restored engine holds: the saved totals, each session's moved
  bytes booked as unproven, and the outstanding total recomputed from the table. */
  ghost function RestoredAccounting(saved: Ledger, sessions: map<SessionId, Session>): Ledger {
    saved.(unproven := saved.unproven + Total(sessions, MovedOf),
           outstanding := Total(RestoredTable(sessions), OutstandingOf))
  }

  lemma RestoredMeasures(s: Session)
    ensures var r := Restored(s);
            && r.ledger == s.ledger.(unproven := s.ledger.unproven + MovedOf(s), outstanding := s.ledger.outstanding - MovedOf(s))
  {
  }

  /** Restoring moves bytes between two buckets of each session and nowhere else. */
  lemma RestoredTotals(sessions: map<SessionId, Session>)
    ensures var t := RestoredTable(sessions);
            && Total(t, AdmittedOf) == Total(sessions, AdmittedOf)
            && Total(t, TransferredOf) == Total(sessions, TransferredOf)
            && Total(t, VerifiedOf) == Total(sessions, VerifiedOf)
            && Total(t, CancelledOf) == Total(sessions, CancelledOf)
            && Total(t, WastedOf) == Total(sessions, WastedOf)
            && Total(t, UnprovenOf) == Total(sessions, UnprovenOf) + Total(sessions, MovedOf)
  {
    hide Restored, MovedOf;
    var t := RestoredTable(sessions);
    forall id | id in sessions
      ensures t[id].ledger == sessions[id].ledger.(unproven := sessions[id].ledger.unproven + MovedOf(sessions[id]),
                                                   outstanding := t[id].ledger.outstanding)
    {
      RestoredMeasures(sessions[id]);
    }
    TotalAlike(sessions, t, AdmittedOf, AdmittedOf);
    TotalAlike(sessions, t, TransferredOf, TransferredOf);
    TotalAlike(sessions, t, VerifiedOf, VerifiedOf);
    TotalAlike(sessions, t, CancelledOf, CancelledOf);
    TotalAlike(sessions, t, WastedOf, WastedOf);
    TotalSplit(t, sessions, UnprovenOf, UnprovenOf, MovedOf);
  }

  /** The restored aggregate agrees with a scan of the restored table, whose archive
  starts empty, exactly when nothing had been evicted before the export. */
  lemma RestoredBooksExact(sessions: map<SessionId, Session>, pruned: Ledger)
    requires pruned.outstanding == 0
    ensures RestoredAccounting(Books(sessions, pruned), sessions) == Books(RestoredTable(sessions), NOTHING) <==> pruned == NOTHING
  {
    hide RestoredTable, Total;
    RestoredTotals(sessions);
  }

  const NOTHING := Ledger(0, 0, 0, 0, 0, 0, 0)

  lemma {:induction false} EvictArchives(f: Fabric, target: nat)
    ensures Evict(f, target).pruned.admitted >= f.pruned.admitted
    decreases |f.terminalOrder|
  {
    if |f.sessions| > target && f.terminalOrder != [] { EvictArchives(EvictOldest(f), target); }
  }

  lemma AdmittedSomething(s: Session)
    requires SessionOk(s)
    ensures s.ledger.admitted > 0
  {
    hide AttemptsSound, ShardsSound, RunningLedger;
    assert s.request.manifest.shards[0].declared > 0;
  }

  /** Ending a session leaves the archive empty exactly when the table stays within its bound. From the first eviction on
  the totals of a restored snapshot disagree with its table. */
  lemma FirstEviction(f: Fabric, id: SessionId, t: Session)
    requires Good(f) && id in f.sessions && Active(f.sessions[id]) && f.pruned == NOTHING
    requires SessionOk(t) && !Active(t) && t.request == f.sessions[id].request
    ensures Store(f, id, t).pruned == NOTHING <==> |f.sessions| <= f.retentionBound
    ensures var g := Store(f, id, t);
            RestoredAccounting(Books(g.sessions, g.pruned), g.sessions) == Books(RestoredTable(g.sessions), NOTHING) <==> |f.sessions| <= f.retentionBound
  {
    hide Base, DeadlinesBut, RestoredTable, RestoredAccounting, Books, SessionOk;
    var h := f.(sessions := f.sessions[id := t], terminalOrder := f.terminalOrder + [id]);
    var g := Store(f, id, t);
    assert h.sessions.Keys == f.sessions.Keys;
    SameSize(f.sessions, h.sessions);
    EvictionStarts(f, id, t);
    StoreArchive(f, id, t);
    RestoredBooksExact(g.sessions, g.pruned);
  }

  lemma SameSize(m: map<SessionId, Session>, n: map<SessionId, Session>)
    requires m.Keys == n.Keys
    ensures |m| == |n|
  {
    assert |m| == |m.Keys| && |n| == |n.Keys|;
  }

  lemma EvictionStarts(f: Fabric, id: SessionId, t: Session)
    requires Good(f) && id in f.sessions && Active(f.sessions[id]) && SessionOk(t) && !Active(t)
    ensures var h := f.(sessions := f.sessions[id := t], terminalOrder := f.terminalOrder + [id]);
            |h.sessions| > h.retentionBound ==> Evict(h, h.retentionBound * 3 / 4).pruned.admitted > 0
  {
    hide SessionOk, Contracted, OneActive, ReplayOk, ArchiveOk, DeadlinesBut, CompletionOk, Provisioned;
    var h := f.(sessions := f.sessions[id := t], terminalOrder := f.terminalOrder + [id]);
    if |h.sessions| > h.retentionBound {
      var first := h.terminalOrder[0];
      assert first in h.terminalOrder;
      assert first in f.terminalOrder || first == id;
      AdmittedSomething(h.sessions[first]);
      EvictArchives(EvictOldest(h), h.retentionBound * 3 / 4);
    }
  }

  lemma {:induction false} EvictKeepsOutstanding(f: Fabric, target: nat)
    ensures Evict(f, target).pruned.outstanding == f.pruned.outstanding
    decreases |f.terminalOrder|
  {
    if |f.sessions| > target && f.terminalOrder != [] { EvictKeepsOutstanding(EvictOldest(f), target); }
  }

  lemma StoreArchive(f: Fabric, id: SessionId, t: Session)
    requires id in f.sessions && Active(f.sessions[id]) && !Active(t)
    ensures var h := f.(sessions := f.sessions[id := t], terminalOrder := f.terminalOrder + [id]);
            && Store(f, id, t).pruned.outstanding == f.pruned.outstanding
            && Store(f, id, t).pruned == if |h.sessions| <= h.retentionBound then f.pruned else Evict(h, h.retentionBound * 3 / 4).pruned
  {
    hide Evict;
    EvictKeepsOutstanding(f.(sessions := f.sessions[id := t], terminalOrder := f.terminalOrder + [id]), f.retentionBound * 3 / 4);
  }

  // ------------------------------------------------------------ the restored fabric

  /** An active session's target. */
  predicate IsTarget(sessions: map<SessionId, Session>, d: Nanos, id: SessionId) {
    id in sessions && Active(sessions[id]) && sessions[id].envelope.deadline == d > 0
  }

  predicate IsListed(deadlines: map<Nanos, seq<SessionId>>, d: Nanos, id: SessionId) { d in deadlines && id in deadlines[d] }

  /** Lists exactly the active sessions that have a target, each under its own. */
  ghost predicate TargetsIndexed(deadlines: map<Nanos, seq<SessionId>>, sessions: map<SessionId, Session>) {
    forall d, id :: IsListed(deadlines, d, id) <==> IsTarget(sessions, d, id)
  }

  /** What a freshly configured fabric becomes when it restores what another one exported: the history, the deadline
  index and the table are rebuilt, the replay memory starts empty. */
  ghost predicate RestoresTo(exported: Fabric, blank: Fabric, g: Fabric) {
    && g == blank.(epoch := exported.epoch, sessions := RestoredTable(exported.sessions), deadlines := g.deadlines,
                    terminalOrder := g.terminalOrder, commands := map[], commandOrder := [])
    && HistoryOk(g.sessions, g.terminalOrder) && TargetsIndexed(g.deadlines, g.sessions)
  }

  /** No terminal session kept an attempt whose outcome was never settled. */
  predicate NoneUnsettled(sessions: map<SessionId, Session>) {
    forall id :: id in sessions && !Active(sessions[id]) ==>
      forall i :: 0 <= i < |sessions[id].attempts| ==> !Unsettled(sessions[id].attempts[i].outcome)
  }

  lemma RestoredStanding(s: Session)
    ensures Active(Restored(s)) <==> Active(s)
    ensures Restored(s).request == s.request
    ensures Active(s) ==> Suspended(Restored(s))
    ensures !Active(s) ==> Restored(s).state == s.state && Restored(s).shards == s.shards
  {
  }

  lemma RestoredSessionsOk(sessions: map<SessionId, Session>)
    requires SessionsOk(sessions)
    ensures SessionsOk(RestoredTable(sessions)) <==> NoneUnsettled(sessions)
  {
    hide SessionOk, Restored, Unsettled;
    var t := RestoredTable(sessions);
    forall id | id in sessions
      ensures SessionOk(t[id]) <==> (!Active(sessions[id]) ==>
                forall i :: 0 <= i < |sessions[id].attempts| ==> !Unsettled(sessions[id].attempts[i].outcome))
    {
      if Active(sessions[id]) { RestoredOk(sessions[id]); } else { RestoredTerminalExact(sessions[id]); }
    }
  }

  lemma RestoredTableStanding(sessions: map<SessionId, Session>)
    requires OneActive(sessions)
    ensures var t := RestoredTable(sessions);
            && OneActive(t)
            && (forall id :: id in t && Active(t[id]) ==> Suspended(t[id]))
            && (forall contracts :: Contracted(t, contracts) <==> Contracted(sessions, contracts))
            && (forall required :: CompletionOk(required, t) <==> CompletionOk(required, sessions))
  {
    hide Restored, Suspended, AllVerified;
    var t := RestoredTable(sessions);
    forall id | id in sessions
      ensures && (Active(t[id]) <==> Active(sessions[id])) && t[id].request == sessions[id].request
              && (Active(sessions[id]) ==> Suspended(t[id]))
              && (!Active(sessions[id]) ==> t[id].state == sessions[id].state && t[id].shards == sessions[id].shards)
    {
      RestoredStanding(sessions[id]);
    }
  }

  /** The restored fabric is sound exactly when no terminal session kept an unsettled attempt, every session's
  workload has a contract again, and no completed session lacks a verification that the policy now demands. */
  lemma RestoredGood(exported: Fabric, blank: Fabric, start: Nanos, g: Fabric)
    requires Good(exported) && Initial(blank, start) && RestoresTo(exported, blank, g)
    ensures Good(g) <==>
            && NoneUnsettled(exported.sessions) && Contracted(exported.sessions, blank.contracts)
            && CompletionOk(blank.policy.requireVerification, exported.sessions)
  {
    hide SessionsOk, OneActive, HistoryOk, CompletionOk, Contracted, RestoredTable, NoneUnsettled, Provisioned, ReplayOk, ArchiveOk,
      DeadlinesBut, RestoresTo, Initial;
    RestoredFrame(exported, blank, start, g);
    RestoredSessionsOk(exported.sessions);
    RestoredTableStanding(exported.sessions);
    NothingDemanded(g);
  }

  lemma RestoredFrame(exported: Fabric, blank: Fabric, start: Nanos, g: Fabric)
    requires Initial(blank, start) && RestoresTo(exported, blank, g)
    ensures Provisioned(g.limits, g.policy, g.topology, g.contracts, g.credit) && ReplayOk(g.commands, g.commandOrder, g.commandBound)
    ensures HistoryOk(g.sessions, g.terminalOrder) && ArchiveOk(g.pruned)
    ensures g.sessions == RestoredTable(exported.sessions) && g.contracts == blank.contracts && g.policy == blank.policy
  {
    hide HistoryOk, RestoredTable, TargetsIndexed;
  }

  lemma NothingDemanded(g: Fabric)
    requires forall id :: id in g.sessions && Active(g.sessions[id]) ==> Suspended(g.sessions[id])
    ensures DeadlinesBut(g, [], 0)
  {
    hide Suspended, Active;
  }
}
