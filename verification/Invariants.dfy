/** What holds of the fabric between commands, and that eviction, deadline
enforcement and storing a sound session keep it. */
module Invariants {
  import opened Sums
  import opened Model
  import opened Sessions
  import opened Shaper
  import opened Spec

  /** A session without current authority: nothing demands that its deadline be indexed. */
  predicate Suspended(s: Session) {
    if s.paused then s.pausedFrom.Deferred? else s.state.RevalidationRequired? || s.state.Deferred?
  }

  predicate Indexed(f: Fabric, id: SessionId)
    requires id in f.sessions
  {
    var d := f.sessions[id].envelope.deadline;
    d in f.deadlines && id in f.deadlines[d]
  }

  predicate Provisioned(limits: Limits, policy: Policy, topology: Topology, contracts: map<WorkloadId, Contract>, credit: Credit) {
    && PolicyValid(policy) && TopologyValid(topology, limits) && ContractsValid(contracts)
    && CreditOk(credit)
    && credit.classes.Keys == policy.envelopes.Keys
    && contracts.Keys <= credit.workloads.Keys
  }

  predicate SessionsOk(sessions: map<SessionId, Session>) {
    forall id :: id in sessions ==> SessionOk(sessions[id])
  }

  predicate Contracted(sessions: map<SessionId, Session>, contracts: map<WorkloadId, Contract>) {
    forall id :: id in sessions ==> sessions[id].request.workload in contracts
  }

  /** At most one active session per checkpoint, and no retained session of that
  checkpoint is of a newer generation. */
  predicate OneActive(sessions: map<SessionId, Session>) {
    forall a, b :: a in sessions && b in sessions && a != b && Active(sessions[a])
                   && sessions[a].request.checkpoint == sessions[b].request.checkpoint ==>
                   !Active(sessions[b])
                   && sessions[b].request.checkpointGeneration <= sessions[a].request.checkpointGeneration
  }

  /** The replay memory: map and queue hold the same commands, once each, within the bound. */
  ghost predicate ReplayOk(commands: map<CommandId, CommandRecord>, order: seq<CommandId>, bound: nat) {
    && NoDuplicates(order)
    && (forall c :: c in commands <==> c in order)
    && |order| <= bound
  }

  /** The history lists exactly the terminal sessions, once each. */
  ghost predicate HistoryOk(sessions: map<SessionId, Session>, terminalOrder: seq<SessionId>) {
    && NoDuplicates(terminalOrder)
    && forall id :: id in terminalOrder <==> id in sessions && !Active(sessions[id])
  }

  predicate ArchiveOk(pruned: Ledger) {
    Conserves(pruned) && pruned.outstanding == 0 && pruned.verified <= pruned.transferred
  }

  predicate CompletionOk(requireVerification: bool, sessions: map<SessionId, Session>) {
    requireVerification ==>
      forall id :: id in sessions && sessions[id].state.TrafficSessionComplete? ==> AllVerified(sessions[id].shards)
  }

  ghost predicate Base(f: Fabric) {
    && Provisioned(f.limits, f.policy, f.topology, f.contracts, f.credit)
    && SessionsOk(f.sessions) && Contracted(f.sessions, f.contracts)
    && OneActive(f.sessions)
    && ReplayOk(f.commands, f.commandOrder, f.commandBound)
    && HistoryOk(f.sessions, f.terminalOrder) && ArchiveOk(f.pruned)
    && CompletionOk(f.policy.requireVerification, f.sessions)
  }

  /** Every session that still has authority is in the deadline index under its
  own target; `due` lists entries just taken off the index at time `d`. */
  predicate DeadlinesBut(f: Fabric, due: seq<SessionId>, d: Nanos) {
    forall id :: id in f.sessions && Active(f.sessions[id]) && !Suspended(f.sessions[id]) ==>
      Indexed(f, id) || (f.sessions[id].envelope.deadline == d && id in due)
  }

  ghost predicate Good(f: Fabric) {
    Base(f) && DeadlinesBut(f, [], 0)
  }

  // --------------------------------------------------------------- eviction

  /** Only terminal sessions disappear, and their bytes move to the archive. */
  ghost predicate Evicted(f: Fabric, g: Fabric) {
    && g.sessions.Keys <= f.sessions.Keys
    && (forall id :: id in g.sessions ==> g.sessions[id] == f.sessions[id])
    && (forall id :: id in f.sessions && id !in g.sessions ==> !Active(f.sessions[id]))
    && Books(g.sessions, g.pruned) == Books(f.sessions, f.pruned)
  }

  lemma ArchiveBooks(sessions: map<SessionId, Session>, pruned: Ledger, id: SessionId)
    requires id in sessions && sessions[id].ledger.outstanding == 0
    ensures Books(sessions - {id}, Archive(pruned, sessions[id].ledger)) == Books(sessions, pruned)
  {
    TotalRemove(sessions, id, AdmittedOf);
    TotalRemove(sessions, id, TransferredOf);
    TotalRemove(sessions, id, VerifiedOf);
    TotalRemove(sessions, id, CancelledOf);
    TotalRemove(sessions, id, WastedOf);
    TotalRemove(sessions, id, UnprovenOf);
    TotalRemove(sessions, id, OutstandingOf);
  }

  lemma FinishedHoldsNothing(s: Session)
    requires SessionOk(s) && !Active(s)
    ensures Conserves(s.ledger) && s.ledger.outstanding == 0 && s.ledger.verified <= s.ledger.transferred
  {
  }

  /** The oldest history entry, with its session if that one is terminal, leaves the table. */
  function EvictOldest(f: Fabric): Fabric
    requires f.terminalOrder != []
  {
    var id := f.terminalOrder[0];
    var g := f.(terminalOrder := f.terminalOrder[1..]);
    if id !in g.sessions || Active(g.sessions[id]) then g
    else g.(sessions := g.sessions - {id}, pruned := Archive(g.pruned, g.sessions[id].ledger))
  }

  lemma EvictOldestOk(f: Fabric)
    requires Base(f) && f.terminalOrder != []
    ensures Base(EvictOldest(f)) && Evicted(f, EvictOldest(f))
  {
    hide SessionOk, AllVerified, Provisioned, ReplayOk, Books, OneActive, ArchiveOk;
    var id := f.terminalOrder[0];
    if id in f.sessions && !Active(f.sessions[id]) {
      assert SessionOk(f.sessions[id]);
      FinishedHoldsNothing(f.sessions[id]);
      ArchiveBooks(f.sessions, f.pruned, id);
      ArchiveKept(f.pruned, f.sessions[id].ledger);
      OneActiveWithout(f.sessions, id);
    }
  }

  lemma ArchiveKept(pruned: Ledger, l: Ledger)
    requires ArchiveOk(pruned) && Conserves(l) && l.outstanding == 0 && l.verified <= l.transferred
    ensures ArchiveOk(Archive(pruned, l))
  {
  }

  lemma OneActiveWithout(sessions: map<SessionId, Session>, id: SessionId)
    requires OneActive(sessions)
    ensures OneActive(sessions - {id})
  {
    hide Active;
  }

  lemma {:induction false} EvictOk(f: Fabric, target: nat)
    requires Base(f)
    ensures Base(Evict(f, target)) && Evicted(f, Evict(f, target))
    decreases |f.terminalOrder|
  {
    hide Base, Books;
    if |f.sessions| > target && f.terminalOrder != [] {
      EvictOldestOk(f);
      EvictOk(EvictOldest(f), target);
    }
  }

  lemma PruneOk(f: Fabric)
    requires Base(f)
    ensures Base(Prune(f)) && Evicted(f, Prune(f))
  {
    if |f.sessions| > f.retentionBound { EvictOk(f, f.retentionBound * 3 / 4); }
  }

  // ---------------------------------------------------------------- storing

  /** A record that may replace a session's record without upsetting the table. */
  predicate MayReplace(f: Fabric, id: SessionId, s: Session)
    requires id in f.sessions
  {
    var was := f.sessions[id];
    && s.request == was.request
    && SessionOk(s)
    && (Active(s) ==> Active(was))
    && (f.policy.requireVerification && s.state.TrafficSessionComplete? && Active(was) ==> AllVerified(s.shards))
    && (!Active(was) ==> s == was)
  }

  lemma NeverRevived(f: Fabric, id: SessionId, s: Session)
    requires id in f.sessions && MayReplace(f, id, s)
    ensures Active(s) ==> Active(f.sessions[id])
  {
  }

  lemma ReplaceBase(f: Fabric, id: SessionId, s: Session, order: seq<SessionId>)
    requires Base(f) && id in f.sessions && MayReplace(f, id, s)
    requires order == if Active(f.sessions[id]) && !Active(s) then f.terminalOrder + [id] else f.terminalOrder
    ensures Base(f.(sessions := f.sessions[id := s], terminalOrder := order))
  {
    hide SessionOk, AllVerified, Provisioned, ReplayOk;
    var g := f.(sessions := f.sessions[id := s], terminalOrder := order);
    assert OneActive(g.sessions);
    assert HistoryOk(g.sessions, g.terminalOrder);
  }

  lemma StoreBase(f: Fabric, id: SessionId, s: Session)
    requires Base(f) && id in f.sessions && MayReplace(f, id, s)
    ensures Base(Store(f, id, s))
    ensures Evicted(f.(sessions := f.sessions[id := s]), Store(f, id, s))
  {
    hide Base, Books, MayReplace, Evict;
    var order := if Active(f.sessions[id]) && !Active(s) then f.terminalOrder + [id] else f.terminalOrder;
    var g := f.(sessions := f.sessions[id := s], terminalOrder := order);
    ReplaceBase(f, id, s, order);
    PruneOk(g);
    assert Store(f, id, s) == if Active(f.sessions[id]) && !Active(s) then Prune(g) else g;
  }

  lemma StoreGood(f: Fabric, id: SessionId, s: Session, due: seq<SessionId>, d: Nanos)
    requires Base(f) && DeadlinesBut(f, due, d) && id in f.sessions && MayReplace(f, id, s)
    requires Active(s) ==> s.envelope.deadline == f.sessions[id].envelope.deadline
                           && (Suspended(f.sessions[id]) ==> Suspended(s))
    ensures Base(Store(f, id, s)) && DeadlinesBut(Store(f, id, s), due, d)
    ensures Evicted(f.(sessions := f.sessions[id := s]), Store(f, id, s))
  {
    hide Base, Books, MayReplace, Store;
    StoreBase(f, id, s);
    NeverRevived(f, id, s);
    var g := Store(f, id, s);
    forall k | k in g.sessions && Active(g.sessions[k]) && !Suspended(g.sessions[k])
      ensures Indexed(g, k) || (g.sessions[k].envelope.deadline == d && k in due)
    {
      assert g.sessions[k] == f.sessions[id := s][k];
      assert Indexed(f, k) || (f.sessions[k].envelope.deadline == d && k in due);
    }
  }

  // -------------------------------------------------------------- deadlines

  lemma ExpiredOk(s: Session)
    requires SessionOk(s) && Active(s)
    ensures SessionOk(Expired(s)) && !Active(Expired(s))
  {
    UnproveOk(s, s.ledger.outstanding);
    SettleOk(Unprove(s, s.ledger.outstanding), Failed);
  }

  lemma ExpiredReplaces(f: Fabric, id: SessionId)
    requires Base(f) && id in f.sessions && Active(f.sessions[id])
    ensures MayReplace(f, id, Expired(f.sessions[id])) && !Active(Expired(f.sessions[id]))
  {
    ExpiredOk(f.sessions[id]);
  }

  /** The sessions that a list of index entries for time `d` fails. */
  predicate Hit(f: Fabric, id: SessionId, due: seq<SessionId>, d: Nanos)
    requires id in f.sessions
  {
    Active(f.sessions[id]) && f.sessions[id].envelope.deadline == d && id in due
  }

  ghost predicate FailedExactly(f: Fabric, g: Fabric, due: seq<SessionId>, d: Nanos) {
    && g.sessions.Keys <= f.sessions.Keys
    && (forall id :: id in g.sessions ==>
          g.sessions[id] == if Hit(f, id, due, d) then Expired(f.sessions[id]) else f.sessions[id])
    && (forall id :: id in f.sessions && id !in g.sessions ==> !Active(f.sessions[id]) || Hit(f, id, due, d))
  }

  lemma ExpireOneOk(f: Fabric, due: seq<SessionId>, d: Nanos)
    requires due != [] && Base(f) && DeadlinesBut(f, due, d)
    ensures var g := ExpireOne(f, due[0], d); Base(g) && DeadlinesBut(g, due[1..], d) && FailedExactly(f, g, [due[0]], d)
  {
    hide Base, Books, Store, Expired, SessionOk;
    var id := due[0];
    var g := ExpireOne(f, id, d);
    assert forall k :: k in due ==> k == id || k in due[1..];
    if id in f.sessions && Active(f.sessions[id]) && f.sessions[id].envelope.deadline == d {
      ExpiredReplaces(f, id);
      StoreGood(f, id, Expired(f.sessions[id]), due, d);
    }
    assert DeadlinesBut(g, due[1..], d);
    assert FailedExactly(f, g, [id], d);
  }

  lemma {:induction false} ExpireEachOk(f: Fabric, due: seq<SessionId>, d: Nanos)
    requires Base(f) && DeadlinesBut(f, due, d)
    ensures var g := ExpireEach(f, due, d); Base(g) && DeadlinesBut(g, [], 0) && FailedExactly(f, g, due, d)
    decreases |due|
  {
    hide Base, ExpireOne, Expired;
    if due != [] {
      var h := ExpireOne(f, due[0], d);
      ExpireOneOk(f, due, d);
      ExpireEachOk(h, due[1..], d);
      var g := ExpireEach(h, due[1..], d);
      assert g == ExpireEach(f, due, d);
      forall id | id in f.sessions ensures Hit(f, id, due, d) <==> Hit(f, id, [due[0]], d) || Hit(f, id, due[1..], d) {
        assert id in due <==> id == due[0] || id in due[1..];
      }
      forall id | id in g.sessions
        ensures g.sessions[id] == if Hit(f, id, due, d) then Expired(f.sessions[id]) else f.sessions[id]
      {
        assert h.sessions[id] == if Hit(f, id, [due[0]], d) then Expired(f.sessions[id]) else f.sessions[id];
      }
    }
  }

  /** A session that a scan of the whole table would fail at time `at`. */
  predicate Due(f: Fabric, id: SessionId, at: Nanos)
    requires id in f.sessions
  {
    Active(f.sessions[id]) && f.sessions[id].envelope.deadline <= at && Indexed(f, id)
  }

  /** The table after deadlines were enforced, as a scan describes it. */
  ghost predicate Aged(f: Fabric, g: Fabric, at: Nanos) {
    && g.sessions.Keys <= f.sessions.Keys
    && (forall id :: id in g.sessions ==>
          g.sessions[id] == if Due(f, id, at) then Expired(f.sessions[id]) else f.sessions[id])
    && (forall id :: id in f.sessions && id !in g.sessions ==> !Active(f.sessions[id]) || Due(f, id, at))
    && (forall d :: d in g.deadlines <==> d in f.deadlines && d > at)
    && (forall d :: d in g.deadlines ==> g.deadlines[d] == f.deadlines[d])
  }

  lemma AgedCompose(f: Fabric, h: Fabric, g: Fabric, due: seq<SessionId>, d: Nanos, at: Nanos)
    requires d in f.deadlines && due == f.deadlines[d] && d <= at
    requires FailedExactly(f, h, due, d) && h.deadlines == f.deadlines - {d} && Aged(h, g, at)
    ensures Aged(f, g, at)
  {
    hide Expired;
    forall id | id in h.sessions ensures Due(f, id, at) <==> Hit(f, id, due, d) || Due(h, id, at) {
      if Hit(f, id, due, d) { assert !Active(h.sessions[id]); }
    }
  }

  /** Serving the index entry for one time. */
  lemma ExpireRound(f: Fabric, d: Nanos)
    requires Good(f) && d in f.deadlines
    ensures var h := ExpireEach(f.(deadlines := f.deadlines - {d}), f.deadlines[d], d);
            Good(h) && FailedExactly(f, h, f.deadlines[d], d) && h.deadlines == f.deadlines - {d}
  {
    hide Expired, ExpireEach, Suspended, SessionsOk, Provisioned, ReplayOk, OneActive, HistoryOk, CompletionOk, ArchiveOk, Contracted;
    var due := f.deadlines[d];
    var rest := f.(deadlines := f.deadlines - {d});
    forall id | id in rest.sessions && Active(rest.sessions[id]) && !Suspended(rest.sessions[id])
      ensures Indexed(rest, id) || (rest.sessions[id].envelope.deadline == d && id in due)
    {
      assert Indexed(f, id);
    }
    ExpireEachOk(rest, due, d);
    assert forall id :: id in f.sessions ==> (Hit(f, id, due, d) <==> Hit(rest, id, due, d));
  }

  /** Enforcing deadlines through the ordered index does exactly what scanning the table would. */
  lemma {:induction false} ExpireIsScan(f: Fabric, at: Nanos)
    requires Good(f)
    ensures Good(Expire(f, at)) && Aged(f, Expire(f, at), at)
    decreases |f.deadlines|
  {
    hide Good, ExpireEach, Expired;
    if f.deadlines == map[] || LeastKey(f.deadlines) > at {
    } else {
      var d := LeastKey(f.deadlines);
      var h := ExpireEach(f.(deadlines := f.deadlines - {d}), f.deadlines[d], d);
      ExpireRound(f, d);
      ExpireIsScan(h, at);
      AgedCompose(f, h, Expire(h, at), f.deadlines[d], d, at);
    }
  }

  /** After any command that enforces deadlines, every session with current
  authority has its target still ahead. */
  lemma TargetsAhead(f: Fabric, at: Nanos, id: SessionId)
    requires Good(f)
    ensures var g := Expire(f, at);
            id in g.sessions && Active(g.sessions[id]) && !Suspended(g.sessions[id]) ==> g.sessions[id].envelope.deadline > at
  {
    ExpireIsScan(f, at);
    var g := Expire(f, at);
    if id in g.sessions && Active(g.sessions[id]) && !Suspended(g.sessions[id]) {
      assert Indexed(g, id);
    }
  }
}
