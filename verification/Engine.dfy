/** The engine object: the session table with the counters and indexes it keeps
beside it, updated in place. Each method is proved to do to the abstract fabric
what the specification says, and to keep every counter and index equal to the
scan it stands for. */
module Engine {
  import opened Sums
  import opened Model
  import opened Sessions
  import opened Shaper
  import opened Rates
  import opened Spec
  import opened Invariants
  import opened Commands
  import opened Indexes
  import opened Theorems
  import opened Recovery
  import opened Audit

  /** Everything but the byte totals and attempt count survives a change that moves neither footing nor reservation. */
  lemma FootingKept(count: nat, perClass: map<IsolationClass, nat>, perWorkload: map<WorkloadId, nat>, reservations: map<PathId, nat>,
                    byCheckpoint: map<nat, seq<SessionId>>, byWorkload: map<nat, seq<SessionId>>,
                    sessions: map<SessionId, Session>, id: SessionId, t: Session)
    requires id in sessions && t.request == sessions[id].request
    requires IndexAgrees(byCheckpoint, sessions, CheckpointOf) && IndexAgrees(byWorkload, sessions, WorkloadOf)
    ensures SameFooting(sessions[id], t) && ActiveAgree(count, perClass, perWorkload, sessions) ==>
              ActiveAgree(count, perClass, perWorkload, sessions[id := t])
    ensures t.reserved == sessions[id].reserved && ReservationsAgree(reservations, sessions) ==>
              ReservationsAgree(reservations, sessions[id := t])
    ensures IndexAgrees(byCheckpoint, sessions[id := t], CheckpointOf) && IndexAgrees(byWorkload, sessions[id := t], WorkloadOf)
  {
    hide ActiveAgree, ReservationsAgree, IndexAgrees;
    if SameFooting(sessions[id], t) && ActiveAgree(count, perClass, perWorkload, sessions) {
      ActiveKept(count, perClass, perWorkload, sessions, id, t);
    }
    if t.reserved == sessions[id].reserved && ReservationsAgree(reservations, sessions) {
      ReservationsKept(reservations, sessions, id, t);
    }
    IndexKept(byCheckpoint, sessions, CheckpointOf, id, t);
    IndexKept(byWorkload, sessions, WorkloadOf, id, t);
  }

  lemma ReservationsKept(reservations: map<PathId, nat>, sessions: map<SessionId, Session>, id: SessionId, t: Session)
    requires id in sessions && t.reserved == sessions[id].reserved && ReservationsAgree(reservations, sessions)
    ensures ReservationsAgree(reservations, sessions[id := t])
  {
    ReservationsReplace(reservations, sessions, id, t);
  }

  /** Terminal sessions hold no authority, no attempt and no reservation. */
  predicate Settled(sessions: map<SessionId, Session>) {
    forall id :: id in sessions && !Active(sessions[id]) ==>
      sessions[id].ledger.outstanding == 0 && sessions[id].activeAttempts == 0 && sessions[id].reserved.None?
  }

  predicate ConfigurationValid(policy: Policy, topology: Topology, contracts: map<WorkloadId, Contract>, epoch: Epoch, limits: Limits) {
    && PolicyValid(policy) && TopologyValid(topology, limits) && contracts != map[] && ContractsValid(contracts)
    && epoch.incarnation != 0 && epoch.term != 0
  }

  lemma CeilingsFit(contracts: map<WorkloadId, Contract>)
    requires ContractsValid(contracts)
    ensures forall w :: w in contracts ==> contracts[w].ceiling < U64
  {
  }

  class FabricEngine {
    const limits: Limits
    const retentionBound: nat
    const fingerprint: Request -> nat
    const shaper: RateShaper

    var epoch: Epoch
    var policy: Policy
    var topology: Topology
    var contracts: map<WorkloadId, Contract>
    var sessions: map<SessionId, Session>
    var deadlines: map<Nanos, seq<SessionId>>
    var terminalOrder: seq<SessionId>
    var pruned: Ledger
    var commands: map<CommandId, CommandRecord>
    var commandOrder: seq<CommandId>
    var commandBound: nat
    var shuttingDown: bool

    var accounting: Accounting
    var classActive: map<IsolationClass, nat>
    var workloadActive: map<WorkloadId, nat>
    var byWorkload: map<WorkloadId, seq<SessionId>>
    var byCheckpoint: map<CheckpointId, seq<SessionId>>

    ghost function Abs(): Fabric
      reads this, shaper
    {
      Fabric(limits, epoch, policy, topology, contracts, shaper.Held(), sessions, deadlines, terminalOrder, pruned, retentionBound,
             commands, commandOrder, commandBound, shuttingDown)
    }

    /** Byte totals, reservations and both indexes equal the scans they stand for. */
    ghost predicate Balanced()
      reads this, shaper
    {
      && BooksAgree(accounting, sessions, pruned)
      && ReservationsAgree(shaper.reservations, sessions)
      && IndexAgrees(byCheckpoint, sessions, CheckpointOf)
      && IndexAgrees(byWorkload, sessions, WorkloadOf)
    }

    ghost predicate Counted()
      reads this
    {
      ActiveAgree(accounting.activeSessions, classActive, workloadActive, sessions)
    }

    /** The three counters of active sessions. */
    ghost function Counters(): (nat, map<IsolationClass, nat>, map<WorkloadId, nat>)
      reads this`accounting, this`classActive, this`workloadActive
    {
      (accounting.activeSessions, classActive, workloadActive)
    }

    /** Every counter and index equals the scan it stands for. */
    ghost predicate Consistent()
      reads this, shaper
    {
      Balanced() && Counted()
    }

    ghost predicate Valid()
      reads this, shaper
    {
      Good(Abs()) && Consistent()
    }

    // -------------------------------------------------------- construction

    /** A configuration that does not validate leaves an engine that is shutting down. */
    constructor (config: Policy, paths: Topology, agreed: map<WorkloadId, Contract>, first: Epoch, bounds: Limits,
                 digest: Request -> nat, at: Nanos)
      requires forall w :: w in agreed ==> agreed[w].workload == w
      ensures fresh(shaper)
      ensures shuttingDown <==> !ConfigurationValid(config, paths, agreed, first, bounds)
      ensures !shuttingDown ==> Initial(Abs(), at) && Valid()
      ensures limits == bounds && policy == config && topology == paths && contracts == agreed && epoch == first
    {
      hide Good, Valid, ConfigurationValid, Initial;
      limits, policy, topology, contracts, epoch := bounds, config, paths, agreed, first;
      fingerprint := digest;
      retentionBound := Max(64, Min(bounds.maxSessions, config.retainedHistory * 8));
      commandBound := Max(64, Min(Max(config.retainedHistory, 1) * 4, 4096));
      sessions, deadlines, terminalOrder, commands, commandOrder := map[], map[], [], map[], [];
      pruned := Ledger(0, 0, 0, 0, 0, 0, 0);
      accounting := Accounting(Ledger(0, 0, 0, 0, 0, 0, 0), 0, 0);
      classActive := map[TrainingCritical := 0, ServingLatency := 0, TrainingBulk := 0, BestEffort := 0];
      workloadActive, byWorkload, byCheckpoint := map[], map[], map[];
      shaper := new RateShaper();
      shuttingDown := !ConfigurationValid(config, paths, agreed, first, bounds);
      new;
      if !shuttingDown { Start(at); }
    }

    /** The rest of construction, once the configuration was found valid. */
    method Start(at: Nanos)
      requires ConfigurationValid(policy, topology, contracts, epoch, limits) && !shuttingDown
      requires sessions == map[] && pruned == Ledger(0, 0, 0, 0, 0, 0, 0) && accounting == Accounting(pruned, 0, 0)
      requires deadlines == map[] && terminalOrder == [] && commands == map[] && commandOrder == []
      requires classActive == map[TrainingCritical := 0, ServingLatency := 0, TrainingBulk := 0, BestEffort := 0]
      requires workloadActive == map[] && byWorkload == map[] && byCheckpoint == map[]
      requires shaper.reservations == map[] && shaper.classes == map[] && shaper.workloads == map[]
      modifies shaper
      ensures Initial(Abs(), at) && Valid()
    {
      hide Good, Consistent, PolicyValid, TopologyValid, ContractsValid, ClassCredit, WorkloadCredit;
      CeilingsFit(contracts);
      ConfigureShaper(at);
      assert map[] + ClassCredit(policy, at) == ClassCredit(policy, at);
      assert map[] + WorkloadCredit(contracts, at) == WorkloadCredit(contracts, at);
      InitialGood(Abs(), at);
      EmptyConsistent();
    }

    lemma EmptyConsistent()
      requires sessions == map[] && pruned == Ledger(0, 0, 0, 0, 0, 0, 0) && accounting == Accounting(pruned, 0, 0)
      requires classActive == map[TrainingCritical := 0, ServingLatency := 0, TrainingBulk := 0, BestEffort := 0]
      requires workloadActive == map[] && byWorkload == map[] && byCheckpoint == map[] && shaper.reservations == map[]
      ensures Consistent()
    {
      forall c: IsolationClass ensures c in classActive && classActive[c] == Total(sessions, ActiveInClass(c)) {
        match c case TrainingCritical => case ServingLatency => case TrainingBulk => case BestEffort =>
      }
    }

    method ConfigureShaper(at: Nanos)
      requires PolicyValid(policy) && ContractsValid(contracts)
      requires forall w :: w in contracts ==> contracts[w].ceiling < U64
      modifies shaper
      ensures shaper.Held() == Credit(old(shaper.classes) + ClassCredit(policy, at), old(shaper.workloads) + WorkloadCredit(contracts, at))
      ensures shaper.reservations == old(shaper.reservations)
    {
      hide ClassCredit, WorkloadCredit;
      ConfigureClasses(at);
      ConfigureWorkloads(at);
    }

    method ConfigureClasses(at: Nanos)
      requires PolicyValid(policy)
      modifies shaper
      ensures shaper.classes == old(shaper.classes) + ClassCredit(policy, at)
      ensures shaper.workloads == old(shaper.workloads) && shaper.reservations == old(shaper.reservations)
    {
      hide Configured;
      var todo := policy.envelopes.Keys;
      ghost var credit := ClassCredit(policy, at);
      while todo != {}
        invariant todo <= policy.envelopes.Keys
        invariant shaper.workloads == old(shaper.workloads) && shaper.reservations == old(shaper.reservations)
        invariant shaper.classes == old(shaper.classes) + (credit - todo)
      {
        var c :| c in todo;
        shaper.ConfigureClass(c, policy.envelopes[c].ceiling, policy.envelopes[c].burstWindow, at);
        todo := todo - {c};
      }
      assert credit - {} == credit;
    }

    method ConfigureWorkloads(at: Nanos)
      requires forall w :: w in contracts ==> contracts[w].ceiling < U64
      modifies shaper
      ensures shaper.workloads == old(shaper.workloads) + WorkloadCredit(contracts, at)
      ensures shaper.classes == old(shaper.classes) && shaper.reservations == old(shaper.reservations)
    {
      hide Configured;
      var todo := contracts.Keys;
      ghost var credit := WorkloadCredit(contracts, at);
      while todo != {}
        invariant todo <= contracts.Keys
        invariant shaper.classes == old(shaper.classes) && shaper.reservations == old(shaper.reservations)
        invariant shaper.workloads == old(shaper.workloads) + (credit - todo)
      {
        var w :| w in todo;
        shaper.ConfigureWorkload(w, contracts[w].ceiling, WORKLOAD_WINDOW, at);
        todo := todo - {w};
      }
      assert credit - {} == credit;
    }

    // ------------------------------------------------------ byte movements

    /** A record with the same footing and reservation replaces the old one while the totals shift to match. */
    lemma Replaced(a: Accounting, id: SessionId, t: Session)
      requires id in sessions && Balanced() && t.request == sessions[id].request && t.reserved == sessions[id].reserved
      requires Shifted(accounting.bytes, a.bytes, sessions[id].ledger, t.ledger)
      requires a.activeAttempts + sessions[id].activeAttempts == accounting.activeAttempts + t.activeAttempts
      requires a.activeSessions == accounting.activeSessions
      ensures BooksAgree(a, sessions[id := t], pruned) && ReservationsAgree(shaper.reservations, sessions[id := t])
      ensures IndexAgrees(byCheckpoint, sessions[id := t], CheckpointOf) && IndexAgrees(byWorkload, sessions[id := t], WorkloadOf)
      ensures Counted() && SameFooting(sessions[id], t) ==> ActiveAgree(a.activeSessions, classActive, workloadActive, sessions[id := t])
    {
      hide BooksAgree, IndexAgrees, ActiveAgree, ReservationsAgree, Shifted, SameFooting;
      BooksAgreeReplace(accounting, a, sessions, pruned, id, t);
      FootingKept(accounting.activeSessions, classActive, workloadActive, shaper.reservations, byCheckpoint, byWorkload, sessions, id, t);
    }

    /** No ledger subtraction for a session can underflow the aggregate. */
    lemma Covered(id: SessionId)
      requires id in sessions && Balanced()
      ensures Covers(accounting.bytes, sessions[id].ledger) && sessions[id].activeAttempts <= accounting.activeAttempts
    {
      hide IndexAgrees, ReservationsAgree, Books;
      BooksReplace(sessions, pruned, id, sessions[id]);
    }

    method MarkUnproven(id: SessionId, bytes: nat)
      requires id in sessions && Balanced()
      modifies this`sessions, this`accounting
      ensures sessions == old(sessions)[id := Unprove(old(sessions)[id], bytes)]
      ensures Balanced() && (old(Counted()) ==> Counted())
      ensures accounting.activeSessions == old(accounting.activeSessions)
    {
      hide BooksAgree, IndexAgrees, ActiveAgree, ReservationsAgree;
      Covered(id);
      var s := sessions[id];
      var bounded := Min(bytes, s.ledger.outstanding);
      var a := accounting;
      a := a.(bytes := a.bytes.(outstanding := a.bytes.outstanding - bounded));
      a := a.(bytes := a.bytes.(unproven := a.bytes.unproven + bounded));
      Replaced(a, id, Unprove(s, bytes));
      s := s.(ledger := s.ledger.(outstanding := s.ledger.outstanding - bounded));
      s := s.(ledger := s.ledger.(unproven := s.ledger.unproven + bounded));
      sessions, accounting := sessions[id := s], a;
    }

    method SettleOutstandingAsCancelled(id: SessionId)
      requires id in sessions && Balanced()
      modifies this`sessions, this`accounting
      ensures sessions == old(sessions)[id := CancelOutstanding(old(sessions)[id])]
      ensures Balanced() && (old(Counted()) ==> Counted())
    {
      hide BooksAgree, IndexAgrees, ActiveAgree, ReservationsAgree;
      Covered(id);
      var s := sessions[id];
      var remaining := s.ledger.outstanding;
      var a := accounting;
      a := a.(bytes := a.bytes.(outstanding := a.bytes.outstanding - remaining));
      a := a.(bytes := a.bytes.(cancelled := a.bytes.cancelled + remaining));
      Replaced(a, id, CancelOutstanding(s));
      s := s.(ledger := s.ledger.(outstanding := 0));
      s := s.(ledger := s.ledger.(cancelled := s.ledger.cancelled + remaining));
      sessions, accounting := sessions[id := s], a;
    }

    method ReleaseActiveAttempts(id: SessionId, outcome: AttemptOutcome)
      requires id in sessions && Balanced()
      modifies this`sessions, this`accounting
      ensures sessions == old(sessions)[id := old(sessions)[id].(attempts := ReleaseAll(old(sessions)[id].attempts, outcome), activeAttempts := 0)]
      ensures Balanced() && (old(Counted()) ==> Counted())
      ensures accounting.activeSessions == old(accounting.activeSessions)
    {
      hide BooksAgree, IndexAgrees, ActiveAgree, ReservationsAgree;
      Covered(id);
      var s := sessions[id];
      var attempts := s.attempts;
      for i := 0 to |s.attempts|
        invariant |attempts| == |s.attempts|
        invariant forall k :: 0 <= k < i ==> attempts[k] == Released(s.attempts[k], outcome)
        invariant forall k :: i <= k < |attempts| ==> attempts[k] == s.attempts[k]
      {
        if attempts[i].outstanding {
          attempts := attempts[i := attempts[i].(outstanding := false, outcome := outcome)];
        }
      }
      assert attempts == ReleaseAll(s.attempts, outcome);
      var a := accounting.(activeAttempts := accounting.activeAttempts - s.activeAttempts);
      Replaced(a, id, s.(attempts := attempts, activeAttempts := 0));
      sessions, accounting := sessions[id := s.(attempts := attempts, activeAttempts := 0)], a;
    }

    // ------------------------------------------------------------- history

    method RebuildIndexes()
      modifies this`byWorkload, this`byCheckpoint
      ensures IndexAgrees(byCheckpoint, sessions, CheckpointOf) && IndexAgrees(byWorkload, sessions, WorkloadOf)
    {
      hide IndexAgrees;
      byWorkload, byCheckpoint := map[], map[];
      var todo := sessions.Keys;
      ghost var done: map<SessionId, Session> := map[];
      EmptyIndex(CheckpointOf);
      EmptyIndex(WorkloadOf);
      while todo != {}
        invariant todo <= sessions.Keys
        invariant done.Keys == sessions.Keys - todo && forall id :: id in done ==> done[id] == sessions[id]
        invariant IndexAgrees(byCheckpoint, done, CheckpointOf) && IndexAgrees(byWorkload, done, WorkloadOf)
      {
        var id :| id in todo;
        var s := sessions[id];
        IndexInsert(byCheckpoint, done, CheckpointOf, id, s);
        IndexInsert(byWorkload, done, WorkloadOf, id, s);
        byWorkload := byWorkload[s.request.workload := ListAt(byWorkload, s.request.workload) + [id]];
        byCheckpoint := byCheckpoint[s.request.checkpoint := ListAt(byCheckpoint, s.request.checkpoint) + [id]];
        done := done[id := s];
        todo := todo - {id};
      }
      assert done == sessions;
    }

    /** Takes the oldest entry off the history, and its session with it when that one is terminal. */
    method EvictNext() returns (erased: bool)
      requires terminalOrder != []
      modifies this`sessions, this`terminalOrder, this`pruned
      ensures Abs() == EvictOldest(old(Abs()))
      ensures !erased ==> sessions == old(sessions) && pruned == old(pruned)
      ensures old(Settled(sessions)) ==> Settled(sessions)
      ensures old(Settled(sessions)) && old(BooksAgree(accounting, sessions, pruned)) ==> BooksAgree(accounting, sessions, pruned)
      ensures old(Settled(sessions)) && old(ReservationsAgree(shaper.reservations, sessions)) ==> ReservationsAgree(shaper.reservations, sessions)
      ensures old(Settled(sessions)) && old(Counted()) ==> Counted()
    {
      hide BooksAgree, ActiveAgree, ReservationsAgree, IsTerminal;
      var id := terminalOrder[0];
      terminalOrder := terminalOrder[1..];
      if id !in sessions || Active(sessions[id]) { return false; }
      var s := sessions[id];
      if Settled(sessions) { RemovedSettled(id); }
      var p := pruned;
      p := p.(admitted := p.admitted + s.ledger.admitted);
      p := p.(transferred := p.transferred + s.ledger.transferred);
      p := p.(verified := p.verified + s.ledger.verified);
      p := p.(cancelled := p.cancelled + s.ledger.cancelled);
      p := p.(wasted := p.wasted + s.ledger.wasted);
      p := p.(unproven := p.unproven + s.ledger.unproven);
      pruned := p;
      sessions := sessions - {id};
      return true;
    }

    /** Evicts the oldest terminal sessions once the table outgrew its bound. */
    method PruneHistory()
      modifies this`sessions, this`terminalOrder, this`pruned, this`byWorkload, this`byCheckpoint
      ensures Abs() == Prune(old(Abs()))
      ensures old(Balanced()) && old(Settled(sessions)) ==> Balanced()
      ensures old(Counted()) && old(Settled(sessions)) ==> Counted()
    {
      hide BooksAgree, IndexAgrees, ActiveAgree, ReservationsAgree, Evict, EvictOldest, Settled;
      if |sessions| <= retentionBound { return; }
      var target := retentionBound * 3 / 4;
      var erasedAny := false;
      ghost var f := Abs();
      while |sessions| > target && terminalOrder != []
        invariant Evict(Abs(), target) == Evict(f, target)
        invariant !erasedAny ==> sessions == old(sessions) && pruned == old(pruned)
        invariant byWorkload == old(byWorkload) && byCheckpoint == old(byCheckpoint)
        invariant old(Settled(sessions)) ==> Settled(sessions)
        invariant old(BooksAgree(accounting, sessions, pruned)) && old(Settled(sessions)) ==> BooksAgree(accounting, sessions, pruned)
        invariant old(ReservationsAgree(shaper.reservations, sessions)) && old(Settled(sessions)) ==> ReservationsAgree(shaper.reservations, sessions)
        invariant old(Counted()) && old(Settled(sessions)) ==> Counted()
        decreases |terminalOrder|
      {
        EvictStep(Abs(), target);
        EvictShrinks(Abs());
        var erased := EvictNext();
        erasedAny := erasedAny || erased;
      }
      EvictDone(Abs(), target);
      if erasedAny { RebuildIndexes(); }
    }

    lemma RemovedSettled(id: SessionId)
      requires id in sessions && !Active(sessions[id]) && Settled(sessions)
      ensures BooksAgree(accounting, sessions, pruned) ==> BooksAgree(accounting, sessions - {id}, Archive(pruned, sessions[id].ledger))
      ensures ReservationsAgree(shaper.reservations, sessions) ==> ReservationsAgree(shaper.reservations, sessions - {id})
      ensures Counted() ==> ActiveAgree(accounting.activeSessions, classActive, workloadActive, sessions - {id})
    {
      ArchiveBooks(sessions, pruned, id);
      RemovalKept(sessions, id);
      hide Total, Books;
    }

    // ---------------------------------------------------------- settlement

    method ReleasePathReservation(id: SessionId)
      requires id in sessions && Balanced()
      modifies this`sessions, shaper`reservations
      ensures sessions == old(sessions)[id := old(sessions)[id].(reserved := None)]
      ensures Balanced() && (old(Counted()) ==> Counted())
      ensures Eased(old(shaper.reservations), shaper.reservations)
    {
      hide BooksAgree, IndexAgrees, ActiveAgree;
      var s := sessions[id];
      var t := s.(reserved := None);
      BooksAgreeReplace(accounting, accounting, sessions, pruned, id, t);
      FootingKept(accounting.activeSessions, classActive, workloadActive, shaper.reservations, byCheckpoint, byWorkload, sessions, id, t);
      ReservationsReplace(shaper.reservations, sessions, id, t);
      if s.reserved.Some? {
        shaper.ReleasePathRate(s.reserved.value.path, s.reserved.value.rate);
      }
      sessions := sessions[id := t];
    }

    /** One active session less; no counter goes below zero. */
    method AdjustDown(s: Session)
      modifies this`accounting, this`classActive, this`workloadActive
      ensures accounting == old(accounting).(activeSessions := Monus(old(accounting.activeSessions), 1))
      ensures classActive == var k := s.envelope.isolation;
                             if CountAt(old(classActive), k) > 0 then old(classActive)[k := old(classActive)[k] - 1] else old(classActive)
      ensures workloadActive == Drop(old(workloadActive), s.request.workload)
    {
      if accounting.activeSessions > 0 {
        accounting := accounting.(activeSessions := accounting.activeSessions - 1);
      }
      var k := s.envelope.isolation;
      if k in classActive && classActive[k] > 0 {
        classActive := classActive[k := classActive[k] - 1];
      }
      var w := s.request.workload;
      if w in workloadActive {
        if workloadActive[w] > 0 {
          workloadActive := workloadActive[w := workloadActive[w] - 1];
        }
        if workloadActive[w] == 0 {
          workloadActive := workloadActive - {w};
        }
      }
    }

    method AdjustUp(s: Session)
      modifies this`accounting, this`classActive, this`workloadActive
      ensures accounting == old(accounting).(activeSessions := old(accounting.activeSessions) + 1)
      ensures classActive == Bump(old(classActive), s.envelope.isolation)
      ensures workloadActive == Bump(old(workloadActive), s.request.workload)
    {
      accounting := accounting.(activeSessions := accounting.activeSessions + 1);
      classActive := Bump(classActive, s.envelope.isolation);
      workloadActive := Bump(workloadActive, s.request.workload);
    }

    /** Stores the record of a session that just ended and moves it to the history. */
    method NoteTerminal(id: SessionId, t: Session)
      requires id in sessions && Active(sessions[id]) && !Active(t)
      requires t.request == sessions[id].request && t.reserved == sessions[id].reserved
      requires t.activeAttempts == sessions[id].activeAttempts && t.ledger == sessions[id].ledger && Balanced()
      modifies this`sessions, this`terminalOrder, this`accounting, this`classActive, this`workloadActive
      ensures sessions == old(sessions)[id := t] && terminalOrder == old(terminalOrder) + [id]
      ensures Balanced() && (old(Counted()) ==> Counted())
    {
      hide BooksAgree, IndexAgrees, ActiveAgree, ReservationsAgree;
      Replaced(accounting, id, t);
      if Counted() {
        ActiveEnded(accounting.activeSessions, classActive, workloadActive, sessions, id, t);
      }
      BooksIgnoreCount(accounting, Monus(accounting.activeSessions, 1), sessions[id := t], pruned);
      AdjustDown(sessions[id]);
      terminalOrder := terminalOrder + [id];
      sessions := sessions[id := t];
    }

    method WasteUnverifiedBytes(id: SessionId)
      requires id in sessions && Balanced()
      modifies this`sessions, this`accounting
      ensures sessions == old(sessions)[id := old(sessions)[id].(ledger := WasteUnverified(old(sessions)[id].ledger))]
      ensures Balanced() && (old(Counted()) ==> Counted())
      ensures accounting.activeSessions == old(accounting.activeSessions)
    {
      hide BooksAgree, IndexAgrees, ActiveAgree, ReservationsAgree;
      Covered(id);
      var s := sessions[id];
      var unverified := if s.ledger.transferred > s.ledger.verified then s.ledger.transferred - s.ledger.verified else 0;
      var a := accounting;
      a := a.(bytes := a.bytes.(transferred := a.bytes.transferred - unverified));
      a := a.(bytes := a.bytes.(wasted := a.bytes.wasted + unverified));
      var t := s.(ledger := s.ledger.(transferred := s.ledger.transferred - unverified, wasted := s.ledger.wasted + unverified));
      Replaced(a, id, t);
      sessions, accounting := sessions[id := t], a;
    }

    /** Only a session that was still running is counted down and joins the history. */
    method EndRecord(id: SessionId, state: SessionState)
      requires id in sessions && Balanced() && IsTerminal(state)
      modifies this`sessions, this`terminalOrder, this`accounting, this`classActive, this`workloadActive
      ensures sessions == old(sessions)[id := old(sessions)[id].(state := state, paused := false)]
      ensures terminalOrder == if Active(old(sessions)[id]) then old(terminalOrder) + [id] else old(terminalOrder)
      ensures Balanced()
      ensures Active(old(sessions)[id]) && old(Counted()) ==> Counted()
      ensures !Active(old(sessions)[id]) ==> Counters() == old(Counters())
    {
      hide Balanced, Counted;
      if Active(sessions[id]) {
        NoteTerminal(id, sessions[id].(state := state, paused := false));
      } else {
        Restate(id, sessions[id].(state := state, paused := false));
      }
    }

    method SettleRecord(id: SessionId, state: SessionState)
      requires id in sessions && Balanced()
      requires state.Superseded? || state.Cancelled? || state.Failed?
      modifies this`sessions, this`terminalOrder, this`accounting, this`classActive, this`workloadActive, shaper`reservations
      ensures sessions == old(sessions)[id := Settle(old(sessions)[id], state)]
      ensures terminalOrder == if Active(old(sessions)[id]) then old(terminalOrder) + [id] else old(terminalOrder)
      ensures Balanced()
      ensures Eased(old(shaper.reservations), shaper.reservations)
      ensures Active(old(sessions)[id]) && old(Counted()) ==> Counted()
      ensures !Active(old(sessions)[id]) ==> Counters() == old(Counters())
    {
      hide Balanced, Counted, WasteUnverified, ReleaseAll, Eased;
      ReleaseActiveAttempts(id, if state.Superseded? then OutcomeSuperseded else OutcomeReleased);
      WasteUnverifiedBytes(id);
      EndRecord(id, state);
      ReleasePathReservation(id);
    }

    method SettleTerminal(id: SessionId, state: SessionState)
      requires id in sessions && Balanced()
      requires state.Superseded? || state.Cancelled? || state.Failed?
      modifies this`sessions, this`terminalOrder, this`accounting, this`classActive, this`workloadActive, this`pruned, this`byWorkload,
               this`byCheckpoint, shaper`reservations
      ensures Abs() == if Active(old(sessions)[id]) then Store(old(Abs()), id, Settle(old(sessions)[id], state))
                       else DenyRevalidation(old(Abs()), id, Settle(old(sessions)[id], state))
      ensures Settled(old(sessions)[id := Settle(old(sessions)[id], state)]) ==> Balanced()
      ensures Settled(old(sessions)[id := Settle(old(sessions)[id], state)]) && Active(old(sessions)[id]) && old(Counted()) ==> Counted()
      ensures Eased(old(shaper.reservations), shaper.reservations)
      ensures !Active(old(sessions)[id]) ==> Counters() == old(Counters())
    {
      hide Balanced, Counted, Counters, Settled, Prune, Settle, Active, Eased;
      SettleEnds(sessions[id], state);
      SettleRecord(id, state);
      PruneHistory();
    }

    // ------------------------------------------------------------ progress

    method Complete(id: SessionId)
      requires id in sessions && Active(sessions[id]) && Balanced()
      modifies this`sessions, this`terminalOrder, this`accounting, this`classActive, this`workloadActive, shaper`reservations
      ensures sessions == old(sessions)[id := old(sessions)[id].(state := TrafficSessionComplete, reserved := None,
                                                                 ledger := old(sessions)[id].ledger.(outstanding := 0))]
      ensures terminalOrder == old(terminalOrder) + [id]
      ensures old(sessions)[id].ledger.outstanding == 0 ==> Balanced() && (old(Counted()) ==> Counted())
    {
      hide BooksAgree, IndexAgrees, ActiveAgree, ReservationsAgree;
      ReleasePathReservation(id);
      NoteTerminal(id, sessions[id].(state := TrafficSessionComplete));
      ghost var table := sessions;
      sessions := sessions[id := sessions[id].(ledger := sessions[id].ledger.(outstanding := 0))];
      assert old(sessions)[id].ledger.outstanding == 0 ==> sessions == table;
    }

    /** Derives evidence and state from the shards. The aggregate is not adjusted when completion drops outstanding bytes. */
    method RecomputeProgress(id: SessionId)
      requires id in sessions && Active(sessions[id]) && Balanced()
      modifies this`sessions, this`terminalOrder, this`accounting, this`classActive, this`workloadActive, this`pruned, this`byWorkload,
               this`byCheckpoint, shaper`reservations
      ensures Abs() == Store(old(Abs()), id, Progress(old(sessions)[id], policy.requireVerification))
      ensures var t := Progress(old(sessions)[id], policy.requireVerification);
              Settled(old(sessions)[id := t]) && t.ledger == old(sessions)[id].ledger ==> Balanced() && (old(Counted()) ==> Counted())
    {
      hide Balanced, Counted, Settled, Prune, EvidenceOf, ProgressState, TargetReached, Progress, Store;
      var s := sessions[id];
      var evidence, state, reached := Assess(s, policy.requireVerification);
      ProgressCases(Abs(), id, s, policy.requireVerification);
      Restate(id, s.(evidence := evidence, state := state));
      if reached {
        Complete(id);
        PruneHistory();
      }
    }

    /** A change of state or evidence that moves no bytes and ends nothing. */
    method Restate(id: SessionId, t: Session)
      requires id in sessions && Balanced() && t.request == sessions[id].request && t.reserved == sessions[id].reserved
      requires t.ledger == sessions[id].ledger && t.activeAttempts == sessions[id].activeAttempts
      modifies this`sessions
      ensures sessions == old(sessions)[id := t] && Balanced()
      ensures SameFooting(old(sessions)[id], t) && old(Counted()) ==> Counted()
    {
      hide BooksAgree, IndexAgrees, ActiveAgree, ReservationsAgree, SameFooting;
      Replaced(accounting, id, t);
      sessions := sessions[id := t];
    }

    // ----------------------------------------------------------- deadlines

    /** One entry of the index; an entry whose session ended or was re-fenced is skipped. */
    method ServeEntry(id: SessionId, d: Nanos)
      requires Base(Abs()) && Consistent()
      modifies this`sessions, this`terminalOrder, this`accounting, this`classActive, this`workloadActive, this`pruned, this`byWorkload,
               this`byCheckpoint, shaper`reservations
      ensures Abs() == ExpireOne(old(Abs()), id, d) && Consistent()
    {
      hide Balanced, Counted, Base, Settled, Store, Settle, Unprove, SessionOk;
      if id !in sessions { return; }
      if !Active(sessions[id]) || sessions[id].envelope.deadline != d { return; }
      ExpiredSettled(Abs(), id);
      UnproveKeeps(sessions[id], sessions[id].ledger.outstanding);
      ghost var table := sessions;
      MarkUnproven(id, sessions[id].ledger.outstanding);
      assert sessions[id := Expired(table[id])] == table[id := Expired(table[id])];
      StoreTwice(old(Abs()), id, sessions[id], Expired(table[id]));
      SettleTerminal(id, Failed);
    }

    /** Serves every entry filed under one time. */
    method ServeDeadline(d: Nanos)
      requires Valid() && d in deadlines
      modifies this`sessions, this`terminalOrder, this`accounting, this`classActive, this`workloadActive, this`pruned, this`byWorkload,
               this`byCheckpoint, this`deadlines, shaper`reservations
      ensures Abs() == ExpireEach(old(Abs()).(deadlines := old(deadlines) - {d}), old(deadlines)[d], d) && Valid()
    {
      hide BooksAgree, IndexAgrees, ActiveAgree, ReservationsAgree, Base, DeadlinesBut, ExpireOne;
      var due := deadlines[d];
      ghost var rest := Abs().(deadlines := deadlines - {d});
      EntryTaken(Abs(), d);
      deadlines := deadlines - {d};
      for i := 0 to |due|
        invariant Consistent() && Base(Abs()) && DeadlinesBut(Abs(), due[i..], d)
        invariant ExpireEach(Abs(), due[i..], d) == ExpireEach(rest, due, d)
      {
        ExpireOneOk(Abs(), due[i..], d);
        assert due[i..][0] == due[i] && due[i..][1..] == due[i + 1..];
        ServeEntry(due[i], d);
      }
      NoneDue(Abs(), d);
    }

    /** Fails every session whose target has passed, front of the ordered index first. */
    method EnforceDeadlines(at: Nanos)
      requires Valid()
      modifies this`sessions, this`terminalOrder, this`accounting, this`classActive, this`workloadActive, this`pruned, this`byWorkload,
               this`byCheckpoint, this`deadlines, shaper`reservations
      ensures Abs() == Expire(old(Abs()), at) && Valid()
      ensures Expire(Abs(), at) == Abs()
    {
      hide Valid, ExpireEach;
      while deadlines != map[]
        invariant Valid() && Expire(Abs(), at) == Expire(old(Abs()), at)
        decreases |deadlines|
      {
        LeastKeyExists(deadlines);
        var d :| d in deadlines && IsLeastKey(deadlines, d);
        assert d == LeastKey(deadlines);
        if d > at { return; }
        ServeDeadline(d);
      }
    }

    // ----------------------------------------------------------- lifecycle

    method CheckSession(id: SessionId, fence: Fence) returns (refusal: Option<ErrorCode>)
      ensures refusal == Gate(Abs(), id, fence)
    {
      if id !in sessions { return Some(NotFound); }
      refusal := CheckFence(fence, Authority(epoch, policy.generation, topology.generation, fence.contract));
      if refusal.Some? { return; }
      var w := sessions[id].request.workload;
      if w !in contracts { return Some(StaleContractGeneration); }
      if fence.contract != contracts[w].generation {
        return Some(if fence.contract < contracts[w].generation then StaleContractGeneration else NotAuthorized);
      }
    }

    method PauseSession(id: SessionId, fence: Fence, at: Nanos) returns (out: Outcome)
      requires Valid()
      modifies this, shaper
      ensures (Abs(), out) == Pause(old(Abs()), id, fence, at) && Valid()
    {
      hide Balanced, Counted, Good, Expire, Gate;
      PauseGood(Abs(), id, fence, at);
      EnforceDeadlines(at);
      var refusal := CheckSession(id, fence);
      if refusal.Some? { return Refused(refusal.value); }
      var s := sessions[id];
      if IsTerminal(s.state) { return Refused(InvalidStateTransition); }
      if s.state.RevalidationRequired? { return Refused(NeedsRevalidation); }
      if s.paused { return Refused(AlreadyExists); }
      Restate(id, s.(paused := true, pausedFrom := s.state, state := Paused));
      return Done;
    }

    method ResumeSession(id: SessionId, fence: Fence, at: Nanos) returns (out: Outcome)
      requires Valid()
      modifies this, shaper
      ensures (Abs(), out) == Resume(old(Abs()), id, fence, at)
      ensures old(Disciplined(Abs(), ResumeCmd(id, fence), at)) ==> Valid()
    {
      hide Balanced, Counted, Good, Expire, Gate;
      if Disciplined(Abs(), ResumeCmd(id, fence), at) { ResumeGood(Abs(), id, fence, at); }
      EnforceDeadlines(at);
      var refusal := CheckSession(id, fence);
      if refusal.Some? { return Refused(refusal.value); }
      var s := sessions[id];
      if !s.paused { return Refused(InvalidStateTransition); }
      PausedFromRunning(Abs(), id);
      Restate(id, s.(paused := false, state := s.pausedFrom));
      return Done;
    }

    method CancelSession(id: SessionId, fence: Fence, at: Nanos) returns (out: Outcome)
      requires Valid()
      modifies this, shaper
      ensures (Abs(), out) == Cancel(old(Abs()), id, fence, at) && Valid()
    {
      hide Balanced, Counted, Good, Expire, Gate, Settle, Store, Settled, CancelOutstanding;
      CancelGood(Abs(), id, fence, at);
      EnforceDeadlines(at);
      if id !in sessions { return Refused(NotFound); }
      var refusal := CheckFence(fence, Authority(epoch, policy.generation, topology.generation, fence.contract));
      if refusal.Some? { return Refused(refusal.value); }
      if IsTerminal(sessions[id].state) { return Refused(InvalidStateTransition); }
      CancelledSettled(Abs(), id);
      ghost var g, t := Abs(), Settle(CancelOutstanding(sessions[id]), Cancelled);
      SettleOutstandingAsCancelled(id);
      assert sessions[id := t] == g.sessions[id := t];
      StoreTwice(g, id, sessions[id], t);
      SettleTerminal(id, Cancelled);
      return Done;
    }

    method PollDeadlines(at: Nanos)
      requires Valid()
      modifies this, shaper
      ensures Abs() == Expire(old(Abs()), at) && Valid()
    {
      hide Valid, Expire;
      EnforceDeadlines(at);
    }

    method BeginShutdown() returns (out: Outcome)
      requires Valid()
      modifies this`shuttingDown
      ensures (Abs(), out) == Spec.BeginShutdown(old(Abs())) && Valid()
    {
      hide BooksAgree, IndexAgrees, ActiveAgree, ReservationsAgree, Good;
      ShutdownGood(Abs());
      if shuttingDown { return Refused(ShuttingDown); }
      shuttingDown := true;
      return Done;
    }

    // ------------------------------------------------------------ evidence

    /** Stores what evidence made of a session, with the totals shifted to match, and derives its progress. */
    method Record(id: SessionId, t: Session, a: Accounting)
      requires id in sessions && Active(sessions[id]) && Balanced()
      requires t.request == sessions[id].request && t.reserved == sessions[id].reserved
      requires t.state == sessions[id].state && t.envelope == sessions[id].envelope
      requires Shifted(accounting.bytes, a.bytes, sessions[id].ledger, t.ledger)
      requires a.activeAttempts + sessions[id].activeAttempts == accounting.activeAttempts + t.activeAttempts
      requires a.activeSessions == accounting.activeSessions
      modifies this`sessions, this`terminalOrder, this`accounting, this`classActive, this`workloadActive, this`pruned, this`byWorkload,
               this`byCheckpoint, shaper`reservations
      ensures Abs() == Store(old(Abs()), id, Progress(t, policy.requireVerification))
      ensures SessionsOk(old(sessions)) && CoreOk(t) ==> Balanced() && (old(Counted()) ==> Counted())
    {
      hide BooksAgree, IndexAgrees, ActiveAgree, ReservationsAgree, Settled, Store, Progress, CoreOk, SessionsOk, Shifted;
      Replaced(a, id, t);
      StoreTwice(Abs(), id, t, Progress(t, policy.requireVerification));
      RecordedSettled(sessions, id, t, policy.requireVerification);
      sessions, accounting := sessions[id := t], a;
      RecomputeProgress(id);
    }

    method ReportSourceComplete(id: SessionId, shard: nat, bytes: nat, fence: Fence, at: Nanos) returns (out: Outcome)
      requires Valid()
      modifies this, shaper
      ensures (Abs(), out) == Spec.ReportSourceComplete(old(Abs()), id, shard, bytes, fence, at) && Valid()
    {
      hide Balanced, Counted, Good, Expire, Gate, Store, Progress, CoreOk, SessionOk, SessionsOk, NoteSource;
      SourceGood(Abs(), id, shard, bytes, fence, at);
      EnforceDeadlines(at);
      var refusal := CheckSession(id, fence);
      if refusal.Some? { return Refused(refusal.value); }
      var s := sessions[id];
      if IsTerminal(s.state) { return Refused(InvalidStateTransition); }
      TableOk(Abs(), id);
      ShardsAscend(s);
      var p := ShardPosition(s.shards, shard);
      if p == |s.shards| { return Refused(NotFound); }
      var h := s.shards[p];
      if bytes > h.declared { return Refused(ImpossibleState); }
      if h.sourceComplete && h.sourceBytes != bytes { return Refused(ImpossibleState); }
      NoteSourceOk(s, p, bytes);
      var t := WithSource(s, p, bytes);
      Record(id, t, accounting);
      return Done;
    }

    /** Evidence must name a known shard and its current attempt under the right sequence. */
    method CheckEvidence(id: SessionId, fence: Fence, shard: nat, attempt: AttemptId, sequence: nat)
      returns (refusal: Option<ErrorCode>, p: nat, a: nat)
      requires Good(Abs())
      ensures refusal == EvidenceGate(Abs(), id, fence, shard, attempt, sequence)
      ensures refusal.None? ==> p == Position(sessions[id].shards, shard) && a == AttemptPosition(sessions[id].attempts, attempt)
    {
      hide Good, Gate, CoreOk, SessionOk, SessionsOk;
      p, a := 0, 0;
      refusal := CheckSession(id, fence);
      if refusal.Some? { return; }
      var s := sessions[id];
      if IsTerminal(s.state) { return Some(InvalidStateTransition), p, a; }
      TableOk(Abs(), id);
      ShardsAscend(s);
      p := ShardPosition(s.shards, shard);
      if p == |s.shards| { return Some(NotFound), p, a; }
      if s.shards[p].attempt != Some(attempt) { return Some(StaleAttempt), p, a; }
      a := FindAttempt(s.attempts, attempt);
      if a == |s.attempts| { return Some(NotFound), p, a; }
      if s.attempts[a].sequence != sequence { return Some(StaleAttempt), p, a; }
    }

    method ReportTransfer(id: SessionId, shard: nat, attempt: AttemptId, sequence: nat, arrived: nat, acknowledged: bool,
                          fence: Fence, at: Nanos) returns (out: Outcome)
      requires Valid()
      modifies this, shaper
      ensures (Abs(), out) == Spec.ReportTransfer(old(Abs()), id, shard, attempt, sequence, arrived, acknowledged, fence, at) && Valid()
    {
      hide Balanced, Counted, Good, Expire, EvidenceGate, Store, Progress, CoreOk, SessionOk, SessionsOk, Observe, Acknowledge, Unacknowledged;
      TransferGood(Abs(), id, shard, attempt, sequence, arrived, acknowledged, fence, at);
      EnforceDeadlines(at);
      var refusal, p, a := CheckEvidence(id, fence, shard, attempt, sequence);
      if refusal.Some? { return Refused(refusal.value); }
      var s := sessions[id];
      var t := s.attempts[a];
      refusal := SettledOutcome(t.outcome);
      if refusal.Some? { return Refused(refusal.value); }
      if arrived > t.granted || t.delivered > arrived { return Refused(ImpossibleState); }
      var newly := arrived - t.delivered;
      var seen := Observe(s, a, arrived);
      TableOk(Abs(), id);
      ObserveOk(s, p, a, arrived);
      ObserveKeeps(s, a, arrived);
      if !acknowledged {
        UnacknowledgedOk(seen, a);
        UnacknowledgedKeeps(seen, a);
        Record(id, Unacknowledged(seen, a), accounting);
      } else if newly > s.ledger.outstanding {
        Restate(id, seen);
        return Refused(ImpossibleState);
      } else {
        AcknowledgeOk(s, p, a, arrived);
        var totals := Acknowledged(id, newly);
        AcknowledgeKeeps(seen, p, a, newly);
        Record(id, Acknowledge(seen, p, a, newly), totals);
      }
      return Done;
    }

    /** The aggregate once a sink acknowledged bytes of a session. */
    method Acknowledged(id: SessionId, newly: nat) returns (a: Accounting)
      requires id in sessions && Balanced() && newly <= sessions[id].ledger.outstanding
      ensures Shifted(accounting.bytes, a.bytes, sessions[id].ledger,
                      sessions[id].ledger.(outstanding := sessions[id].ledger.outstanding - newly,
                                           transferred := sessions[id].ledger.transferred + newly))
      ensures a.activeAttempts + sessions[id].activeAttempts == accounting.activeAttempts + Monus(sessions[id].activeAttempts, 1)
      ensures a.activeSessions == accounting.activeSessions
    {
      hide Balanced;
      Covered(id);
      a := accounting;
      a := a.(bytes := a.bytes.(outstanding := a.bytes.outstanding - Min(newly, a.bytes.outstanding)));
      a := a.(bytes := a.bytes.(transferred := a.bytes.transferred + newly));
      if sessions[id].activeAttempts > 0 { a := a.(activeAttempts := a.activeAttempts - 1); }
    }

    /** A verdict on a shard's current attempt. */
    method JudgeVerdict(id: SessionId, p: nat, a: nat, outcome: VerificationOutcome, bytes: nat, digest: ContentDigest)
      returns (out: Outcome)
      requires Valid() && id in sessions && Active(sessions[id]) && IsCurrent(sessions[id], p, a)
      modifies this`sessions, this`terminalOrder, this`accounting, this`classActive, this`workloadActive, this`pruned, this`byWorkload,
               this`byCheckpoint, shaper`reservations
      ensures (Abs(), out) == Judged(old(Abs()), id, p, a, outcome, bytes, digest)
      ensures (Heard(old(sessions)[id], a, outcome) ==>
                 VerifyDiscipline(old(sessions)[id], old(sessions)[id].shards[p].index, outcome, bytes, digest)) ==> Consistent()
    {
      hide Balanced, Counted, Good, Store, Progress, CoreOk, SessionOk, SessionsOk, Verify, Truncate, Doubt, Mismatched, VerifyDiscipline;
      var s := sessions[id];
      TableOk(Abs(), id);
      PositionSound(s, p);
      if !IsAcked(s.attempts[a]) && outcome.Verified? { return Refused(StaleEvidence); }
      if Mismatched(s.shards[p], outcome, bytes, digest) {
        RejectShard(id, p, a);
        DisciplinedMismatch(s, p, outcome, bytes, digest);
        return if outcome.Verified? then Refused(VerificationMismatchError) else Done;
      }
      match outcome {
        case Verified =>
          DisciplinedVerified(s, p, a, bytes, digest);
          VerifyKeeps(s, p, a);
          var totals := accounting.(bytes := accounting.bytes.(verified := accounting.bytes.verified + Monus(s.shards[p].declared, s.shards[p].verified)));
          Record(id, Verify(s, p, a), totals);
        case Truncated =>
          DisciplinedTruncated(s, p, a, bytes, digest);
          TruncateKeeps(s, p, a);
          var totals := Rearmed(id, p, a);
          Record(id, Truncate(s, p, a), totals);
        case _ =>
          DoubtOk(s, p, a);
          DoubtKeeps(s, p, a);
          var totals := Doubted(id, Monus(s.attempts[a].granted, s.attempts[a].delivered), true);
          Record(id, Doubt(s, p, a), totals);
      }
      return Done;
    }

    /** The destination contradicts what the shard declared: the shard, the attempt and the session fail. */
    method RejectShard(id: SessionId, p: nat, a: nat)
      requires Valid() && id in sessions && Active(sessions[id]) && IsCurrent(sessions[id], p, a)
      modifies this`sessions, this`terminalOrder, this`accounting, this`classActive, this`workloadActive, this`pruned, this`byWorkload,
               this`byCheckpoint, shaper`reservations
      ensures Abs() == Store(old(Abs()), id, Settle(Reject(old(sessions)[id], p, a), Failed))
      ensures old(sessions)[id].ledger.outstanding == 0 ==> Consistent()
    {
      hide Balanced, Counted, Good, Store, Settle, Settled, CoreOk, SessionOk, SessionsOk;
      var s := sessions[id];
      var t := Reject(s, p, a);
      TableOk(Abs(), id);
      StoreTwice(Abs(), id, t, Settle(t, Failed));
      if s.ledger.outstanding == 0 {
        RejectOk(s, p, a);
        SettledReplace(sessions, id, Settle(t, Failed));
      }
      assert sessions[id := t][id := Settle(t, Failed)] == sessions[id := Settle(t, Failed)];
      Restate(id, t);
      SettleTerminal(id, Failed);
    }

    /** The aggregate once a truncated shard is authorised again. */
    method Rearmed(id: SessionId, p: nat, a: nat) returns (totals: Accounting)
      requires id in sessions && p < |sessions[id].shards| && a < |sessions[id].attempts| && Balanced()
      requires Active(sessions[id]) && CoreOk(sessions[id])
      ensures Shifted(accounting.bytes, totals.bytes, sessions[id].ledger, Truncate(sessions[id], p, a).ledger)
      ensures totals.activeAttempts + sessions[id].activeAttempts == accounting.activeAttempts + Truncate(sessions[id], p, a).activeAttempts
      ensures totals.activeSessions == accounting.activeSessions
    {
      hide Balanced, CoreOk;
      Covered(id);
      ShardWithin(sessions[id], p);
      var s := sessions[id];
      var already := s.shards[p].transferred;
      totals := accounting;
      if s.attempts[a].outstanding && s.activeAttempts > 0 { totals := totals.(activeAttempts := totals.activeAttempts - 1); }
      var b := totals.bytes;
      b := b.(transferred := b.transferred - Min(already, b.transferred), wasted := b.wasted + already);
      b := b.(outstanding := b.outstanding + already, admitted := b.admitted + already);
      totals := totals.(bytes := b);
    }

    /** The aggregate once the fate of an attempt became unknown. */
    method Doubted(id: SessionId, bytes: nat, released: bool) returns (totals: Accounting)
      requires id in sessions && Balanced()
      ensures Shifted(accounting.bytes, totals.bytes, sessions[id].ledger, Unprove(sessions[id], bytes).ledger)
      ensures totals.activeAttempts + sessions[id].activeAttempts ==
              accounting.activeAttempts + if released then Monus(sessions[id].activeAttempts, 1) else sessions[id].activeAttempts
      ensures totals.activeSessions == accounting.activeSessions
    {
      hide Balanced;
      Covered(id);
      totals := accounting;
      if released && sessions[id].activeAttempts > 0 { totals := totals.(activeAttempts := totals.activeAttempts - 1); }
      var bounded := Min(bytes, sessions[id].ledger.outstanding);
      totals := totals.(bytes := totals.bytes.(outstanding := totals.bytes.outstanding - bounded, unproven := totals.bytes.unproven + bounded));
    }

    method ReportVerification(id: SessionId, shard: nat, attempt: AttemptId, sequence: nat, outcome: VerificationOutcome, bytes: nat,
                              digest: ContentDigest, fence: Fence, at: Nanos) returns (out: Outcome)
      requires Valid()
      modifies this, shaper
      ensures (Abs(), out) == Spec.ReportVerification(old(Abs()), id, shard, attempt, sequence, outcome, bytes, digest, fence, at)
      ensures old(Disciplined(Abs(), VerifyCmd(id, shard, attempt, sequence, outcome, bytes, digest, fence), at)) ==> Valid()
    {
      hide Consistent, Good, Expire, EvidenceGate, Judged, VerifyDiscipline, CoreOk, SessionOk, SessionsOk;
      if Disciplined(Abs(), VerifyCmd(id, shard, attempt, sequence, outcome, bytes, digest, fence), at) {
        VerificationGood(Abs(), id, shard, attempt, sequence, outcome, bytes, digest, fence, at);
      }
      EnforceDeadlines(at);
      var refusal, p, a := CheckEvidence(id, fence, shard, attempt, sequence);
      if refusal.Some? {
        var code := refusal.value;
        if code.NotFound? && id in sessions {
          TableOk(Abs(), id);
          ShardsAscend(sessions[id]);
          p := ShardPosition(sessions[id].shards, shard);
          if p < |sessions[id].shards| { code := StaleAttempt; }
        }
        return Refused(code);
      }
      out := JudgeVerdict(id, p, a, outcome, bytes, digest);
    }

    method ReportAmbiguous(id: SessionId, attempt: AttemptId, sequence: nat, fence: Fence, at: Nanos) returns (out: Outcome)
      requires Valid()
      modifies this, shaper
      ensures (Abs(), out) == Spec.ReportAmbiguous(old(Abs()), id, attempt, sequence, fence, at) && Valid()
    {
      hide Balanced, Counted, Good, Expire, Store, Progress, CoreOk, SessionOk, SessionsOk, Disown;
      AmbiguousGood(Abs(), id, attempt, sequence, fence, at);
      EnforceDeadlines(at);
      if id !in sessions { return Refused(NotFound); }
      var refusal := CheckFence(fence, Authority(epoch, policy.generation, topology.generation, fence.contract));
      if refusal.Some? { return Refused(refusal.value); }
      var s := sessions[id];
      if IsTerminal(s.state) { return Refused(InvalidStateTransition); }
      var a := FindAttempt(s.attempts, attempt);
      if a == |s.attempts| { return Refused(NotFound); }
      if s.attempts[a].sequence != sequence { return Refused(StaleAttempt); }
      TableOk(Abs(), id);
      DisownOk(s, a);
      DisownKeeps(s, a);
      var totals := Doubted(id, Monus(s.attempts[a].granted, s.attempts[a].delivered), s.attempts[a].outstanding);
      Record(id, Disown(s, a), totals);
      return Done;
    }

    // --------------------------------------------------------- wave credit

    /** Everything that is checked before credit is looked at. */
    method CheckWave(id: SessionId, shard: nat, fence: Fence, at: Nanos) returns (refusal: Option<Outcome>, p: nat)
      requires Valid()
      ensures refusal == WaveGate(Abs(), id, shard, fence, at)
      ensures refusal.None? ==> p == Position(sessions[id].shards, shard)
    {
      hide Good, Gate, CoreOk, SessionOk, SessionsOk, ReservationsAgree, IndexAgrees, ActiveAgree, Books;
      p := 0;
      var gate := CheckSession(id, fence);
      if gate.Some? { return Some(Refused(gate.value)), p; }
      var s := sessions[id];
      if CheckpointFence(s, fence).Some? { return Some(Refused(StaleCheckpointGeneration)), p; }
      if s.state.RevalidationRequired? || s.state.Deferred? { return Some(Refused(NeedsRevalidation)), p; }
      if s.paused || s.state.Paused? { return Some(Refused(DeferredError)), p; }
      if IsTerminal(s.state) {
        return Some(Refused(if s.supersededBy.Some? then SupersededError else InvalidStateTransition)), p;
      }
      if at >= s.envelope.deadline { return Some(Refused(DeadlineElapsed)), p; }
      if accounting.activeAttempts >= policy.maxAttempts { return Some(WaveDeferred(ResourceLimit)), p; }
      TableOk(Abs(), id);
      ShardsAscend(s);
      p := ShardPosition(s.shards, shard);
      if p == |s.shards| { return Some(Refused(NotFound)), p; }
      var h := s.shards[p];
      if IsSettled(h) { return Some(Refused(InvalidStateTransition)), p; }
      if h.state.ShardAmbiguous? { return Some(Refused(AmbiguousOutcomeError)), p; }
      if fence.attemptSequence.Some? && h.attempt.Some? && fence.attemptSequence.value != h.sequence {
        return Some(Refused(StaleAttempt)), p;
      }
      if h.attempt.Some? {
        var previous := FindAttempt(s.attempts, h.attempt.value);
        if previous < |s.attempts| && s.attempts[previous].outstanding { return Some(Refused(AmbiguousOutcomeError)), p; }
      }
      if h.declared <= h.transferred { return Some(Refused(InvalidStateTransition)), p; }
      refusal := None;
    }

    method GrantWave(id: SessionId, p: nat, attempt: AttemptId, at: Nanos) returns (out: Outcome)
      requires Consistent() && CreditOk(shaper.Held()) && id in sessions && Active(sessions[id]) && p < |sessions[id].shards|
      modifies this`sessions, this`accounting, shaper`classes, shaper`workloads
      ensures (Abs(), out) == Wave(old(Abs()), id, p, attempt, at) && Consistent()
    {
      hide BooksAgree, IndexAgrees, ActiveAgree, ReservationsAgree, Consume, ObserveClass, ClassTokens, Grant, CreditOk;
      var s := sessions[id];
      var remaining := Remaining(s.shards[p]);
      var useful := Min(remaining, MIN_CHUNK);
      var available := shaper.ClassTokensAt(s.envelope.isolation, at);
      if available < useful { return WaveDeferred(ClassCeilingSaturated); }
      var chunk := Min(Min(remaining, MAX_CHUNK), available);
      var verdict := shaper.TryConsume(s.envelope.isolation, s.request.workload, chunk, at);
      if verdict.NotGranted? { return WaveDeferred(verdict.reason); }
      var t := Grant(s, p, attempt, chunk, TimelineBound(policy));
      GrantKeeps(s, p, attempt, chunk, TimelineBound(policy));
      var totals := accounting.(activeAttempts := accounting.activeAttempts + 1);
      Replaced(totals, id, t);
      sessions, accounting := sessions[id := t], totals;
      return WaveGranted(attempt, chunk);
    }

    method RequestWave(id: SessionId, shard: nat, fence: Fence, attempt: AttemptId, at: Nanos) returns (out: Outcome)
      requires Valid()
      modifies this, shaper
      ensures CreditOk(old(Abs()).credit) && (Abs(), out) == Spec.RequestWave(old(Abs()), id, shard, fence, attempt, at) && Consistent()
      ensures old(Disciplined(Abs(), WaveCmd(id, shard, fence, attempt), at)) ==> Valid()
    {
      hide Consistent, Good, Expire, WaveGate, Wave, WaveDiscipline, CreditOk;
      ProvisionedCredit(Abs());
      if Disciplined(Abs(), WaveCmd(id, shard, fence, attempt), at) { WaveGood(Abs(), id, shard, fence, attempt, at); }
      EnforceDeadlines(at);
      var refusal, p := CheckWave(id, shard, fence, at);
      if refusal.Some? { return refusal.value; }
      out := GrantWave(id, p, attempt, at);
    }

    // ----------------------------------------------------------- authority

    /** Sends the running sessions among these back to revalidation. */
    method DemandEach(ids: set<SessionId>)
      requires ids <= sessions.Keys && Consistent()
      modifies this`sessions
      ensures sessions == map id | id in old(sessions) :: if id in ids then Demand(old(sessions)[id]) else old(sessions)[id]
      ensures Consistent()
    {
      hide Balanced, Counted;
      var todo := ids;
      while todo != {}
        invariant todo <= ids && sessions.Keys == old(sessions).Keys && Consistent()
        invariant forall id :: id in sessions ==>
                    sessions[id] == if id in ids && id !in todo then Demand(old(sessions)[id]) else old(sessions)[id]
      {
        var id :| id in todo;
        if Active(sessions[id]) && !sessions[id].state.RevalidationRequired? {
          Restate(id, sessions[id].(state := RevalidationRequired));
        }
        todo := todo - {id};
      }
    }

    method DemandAll()
      requires Consistent()
      modifies this`sessions
      ensures sessions == Demanded(old(sessions)) && Consistent()
    {
      hide Consistent, Demand;
      DemandEach(sessions.Keys);
      assert sessions == Demanded(old(sessions));
    }

    /** Only the sessions of one workload, found through the index. */
    method DemandWorkload(w: WorkloadId)
      requires Consistent()
      modifies this`sessions
      ensures sessions == DemandedOf(old(sessions), w) && Consistent()
    {
      hide BooksAgree, IndexAgrees, ActiveAgree, ReservationsAgree, Demand;
      ListedAre(byWorkload, sessions, WorkloadOf, w);
      var listed := ListAt(byWorkload, w);
      DemandEach(set id | id in listed);
      assert sessions == DemandedOf(old(sessions), w);
    }

    method InstallPolicy(p: Policy, at: Nanos)
      requires Consistent() && PolicyValid(p) && ContractsValid(contracts)
      requires forall w :: w in contracts ==> contracts[w].ceiling < U64
      modifies this`policy, this`sessions, shaper
      ensures Abs() == old(Abs()).(policy := p, sessions := Demanded(old(sessions)),
                                   credit := Credit(old(shaper.classes) + ClassCredit(p, at), old(shaper.workloads) + WorkloadCredit(contracts, at)))
      ensures Consistent()
    {
      hide BooksAgree, IndexAgrees, ActiveAgree, ReservationsAgree, PolicyValid, ContractsValid, ClassCredit, WorkloadCredit, Demanded;
      policy := p;
      ConfigureShaper(at);
      DemandAll();
    }

    method ApplyPolicy(p: Policy, at: Nanos) returns (out: Outcome)
      requires Valid()
      modifies this, shaper
      ensures ContractsValid(old(contracts)) && (Abs(), out) == Spec.ApplyPolicy(old(Abs()), p, at) && Consistent()
      ensures old(Disciplined(Abs(), PolicyCmd(p), at)) ==> Valid()
    {
      hide Consistent, Good, PolicyValid, ContractsValid, ClassCredit, WorkloadCredit, PolicyDiscipline, Demanded;
      ProvisionedContracts(Abs());
      if Disciplined(Abs(), PolicyCmd(p), at) { PolicyGood(Abs(), p, at); }
      if p.generation <= policy.generation { return Refused(StalePolicyGeneration); }
      if !PolicyValid(p) { return Refused(InvalidConfiguration); }
      InstallPolicy(p, at);
      return Done;
    }

    method ApplyTopology(t: Topology) returns (out: Outcome)
      requires Valid()
      modifies this
      ensures (Abs(), out) == Spec.ApplyTopology(old(Abs()), t) && Valid()
    {
      hide BooksAgree, IndexAgrees, ActiveAgree, ReservationsAgree, Good, TopologyValid, Demanded;
      TopologyGood(Abs(), t);
      if t.generation <= topology.generation { return Refused(StaleTopologyGeneration); }
      if !TopologyValid(t, limits) { return Refused(InvalidConfiguration); }
      topology := t;
      DemandAll();
      return Done;
    }

    method UpsertContract(c: Contract, at: Nanos) returns (out: Outcome)
      requires Valid()
      modifies this, shaper
      ensures (Abs(), out) == Spec.UpsertContract(old(Abs()), c, at) && Valid()
    {
      hide BooksAgree, IndexAgrees, ActiveAgree, ReservationsAgree, Good, ContractValid, Configured, DemandedOf;
      ContractGood(Abs(), c, at);
      if c.workload in contracts && c.generation <= contracts[c.workload].generation { return Refused(StaleContractGeneration); }
      if !ContractValid(c) { return Refused(InvalidConfiguration); }
      if |contracts| >= limits.maxWorkloads && c.workload !in contracts { return Refused(ResourceExhausted); }
      ContractFits(c);
      shaper.ConfigureWorkload(c.workload, c.ceiling, WORKLOAD_WINDOW, at);
      contracts := contracts[c.workload := c];
      DemandWorkload(c.workload);
      return Done;
    }

    /** One running session across a coordinator restart. */
    method RestartSession(id: SessionId)
      requires id in sessions && Active(sessions[id]) && Consistent()
      modifies this`sessions, this`accounting
      ensures sessions == old(sessions)[id := Restart(old(sessions)[id])] && Consistent()
    {
      hide BooksAgree, IndexAgrees, ActiveAgree, ReservationsAgree, SeqTotal;
      ghost var s0 := sessions[id];
      var risk := AtRisk(sessions[id].attempts);
      MarkUnproven(id, risk);
      Covered(id);
      var s := sessions[id];
      var attempts := Doubtful(s.attempts);
      var shards := Reopened(s.shards);
      var t := s.(attempts := attempts, activeAttempts := 0, shards := shards, state := RevalidationRequired, paused := false);
      var totals := accounting.(activeAttempts := accounting.activeAttempts - s.activeAttempts);
      assert t == Restart(s0);
      Replaced(totals, id, t);
      sessions, accounting := sessions[id := t], totals;
    }

    method RestartAll()
      requires Consistent()
      modifies this`sessions, this`accounting
      ensures sessions == AllRestarted(old(sessions)) && Consistent()
    {
      hide Consistent, Restart;
      var todo := sessions.Keys;
      while todo != {}
        invariant todo <= sessions.Keys == old(sessions).Keys && Consistent()
        invariant forall id :: id in sessions ==>
                    sessions[id] == if id in todo then old(sessions)[id] else Restarted(old(sessions)[id])
      {
        var id :| id in todo;
        if Active(sessions[id]) { RestartSession(id); }
        todo := todo - {id};
      }
      assert sessions == AllRestarted(old(sessions));
    }

    method AdvanceEpoch(e: Epoch) returns (out: Outcome)
      requires Valid()
      modifies this
      ensures (Abs(), out) == Spec.AdvanceEpoch(old(Abs()), e) && Valid()
    {
      hide BooksAgree, IndexAgrees, ActiveAgree, ReservationsAgree, Good, AllRestarted;
      EpochGood(Abs(), e);
      if !EpochBefore(epoch, e) { return Refused(StaleEpoch); }
      epoch := e;
      deadlines := map[];
      RestartAll();
      return Done;
    }

    // ----------------------------------------------------------- admission

    method RememberCommand(command: CommandId, record: CommandRecord)
      modifies this`commands, this`commandOrder, this`commandBound
      ensures Abs() == Remember(old(Abs()), command, record)
    {
      hide Forget;
      commandBound := Max(64, Min(policy.retainedHistory * 4, 4096));
      if command !in commands {
        commandOrder := commandOrder + [command];
        ghost var f := Abs();
        while |commandOrder| > commandBound
          invariant Forget(Abs()) == Forget(f)
          invariant policy == old(policy) && commandBound == f.commandBound
          decreases |commandOrder|
        {
          ForgetStep(Abs());
          commands := commands - {commandOrder[0]};
          commandOrder := commandOrder[1..];
        }
        ForgetStep(Abs());
      }
      commands := commands[command := record];
    }

    method PathsPermitted(r: Request) returns (ok: bool)
      ensures ok <==> ShardPathsPermitted(topology, r)
    {
      for i := 0 to |r.manifest.shards|
        invariant forall k :: 0 <= k < i && r.manifest.shards[k].path != 0 ==>
                    var p := PathOf(topology, r.manifest.shards[k].path); p.Some? && p.value.destination == r.destination
      {
        if r.manifest.shards[i].path != 0 {
          var path := FindPath(topology, r.manifest.shards[i].path);
          if path.None? || path.value.destination != r.destination { return false; }
        }
      }
      return true;
    }

    /** Existing sessions of the checkpoint, through the index: a newer generation, a duplicate, or a session to supersede. */
    method ScanCheckpoint(r: Request) returns (found: Option<Judgement>, targets: seq<SessionId>)
      requires OneActive(sessions) && IndexAgrees(byCheckpoint, sessions, CheckpointOf)
      ensures TableScan(sessions, r, found, targets)
    {
      hide IndexAgrees, ManifestsEquivalent, Active;
      var c := r.checkpoint;
      ListedAre(byCheckpoint, sessions, CheckpointOf, c);
      ListedOnce(byCheckpoint, sessions, CheckpointOf, c);
      var ids := ListAt(byCheckpoint, c);
      targets := [];
      for i := 0 to |ids|
        invariant forall k :: 0 <= k < i ==> sessions[ids[k]].request.checkpointGeneration <= r.checkpointGeneration
        invariant targets == [] ==> forall k :: 0 <= k < i ==> !Active(sessions[ids[k]])
        invariant targets != [] ==>
                    exists k :: 0 <= k < i && targets == [ids[k]] && Active(sessions[ids[k]])
                                && sessions[ids[k]].request.checkpointGeneration != r.checkpointGeneration
      {
        var existing := sessions[ids[i]];
        if r.checkpointGeneration < existing.request.checkpointGeneration {
          assert NewerRetained(sessions, c, r.checkpointGeneration);
          return Some(DenyIt(CheckpointGenerationStale)), targets;
        }
        if Active(existing) {
          OnlyRival(sessions, c, ids[i]);
          if existing.request.checkpointGeneration == r.checkpointGeneration {
            if ManifestsEquivalent(existing.request.manifest, r.manifest) { return Some(SameAs(ids[i])), targets; }
            return Some(DenyIt(ManifestMismatch)), targets;
          }
          assert targets == [];
          targets := targets + [ids[i]];
        }
      }
      found := None;
      if targets != [] { OnlyRival(sessions, c, targets[0]); }
    }

    method CheckCapacity(r: Request, c: Contract, k: IsolationClass, path: PathClass) returns (j: Judgement)
      requires k in policy.envelopes && Consistent()
      ensures j == JudgeCapacity(Abs(), r, c, k, path)
    {
      hide BooksAgree, IndexAgrees, PlanRate;
      if accounting.activeSessions >= policy.maxSessions { return DeferIt(FabricSessionLimit); }
      if CountAt(workloadActive, r.workload) >= c.maxSessions { return DeferIt(SessionLimitPerWorkload); }
      if classActive[k] >= policy.envelopes[k].maxSessions { return DeferIt(ClassCeilingSaturated); }
      assert CountAt(shaper.reservations, path.id) == shaper.ReservedOn(path.id);
      match PlanRate(r, c, policy.envelopes[k], path, shaper.ReservedOn(path.id)) {
        case Rate(bps) => return Accept(k, path.id, bps);
        case NoRate(reason) =>
          return if reason.RequestedRateUnsupported? || reason.DeadlineUnreachable? then DenyIt(reason) else DeferIt(reason);
      }
    }

    method JudgeRequest(r: Request) returns (j: Judgement, targets: seq<SessionId>)
      requires OneActive(sessions) && Consistent()
      ensures j == Judge(Abs(), r)
      ensures j.Accept? ==> targets == match Rival(sessions, r.checkpoint) case Some(id) => [id] case None => []
    {
      hide Balanced, Counted, ManifestValid, ShardPathsPermitted, IsDefaultPath, JudgeCapacity, ManifestsEquivalent, NewerRetained;
      targets := [];
      if shuttingDown { return DenyIt(FabricShuttingDown), targets; }
      if r.workload !in contracts { return DenyIt(UnknownWorkload), targets; }
      var c := contracts[r.workload];
      if r.contractGeneration != c.generation { return DenyIt(ContractGenerationStale), targets; }
      var m := r.manifest;
      var valid := ValidateManifest(m, limits);
      if !valid { return DenyIt(ManifestInvalid), targets; }
      if m.checkpoint != r.checkpoint || m.generation != r.checkpointGeneration || m.workload != r.workload
         || m.contractGeneration != r.contractGeneration { return DenyIt(ManifestMismatch), targets; }
      var k := Isolate(r, c);
      if k !in policy.envelopes { return DenyIt(NoEnvelope), targets; }
      var best := DefaultPathFor(topology, r.destination);
      DefaultPathUnique(topology, r.destination, best, DefaultPath(topology, r.destination));
      if best.None? { return DenyIt(DestinationNotPermitted), targets; }
      var permitted := PathsPermitted(r);
      if !permitted { return DenyIt(DestinationNotPermitted), targets; }
      var path := FindPath(topology, best.value);
      if path.None? { return DenyIt(DestinationNotPermitted), targets; }
      j, targets := CheckTable(r, c, k, path.value);
    }

    method CheckTable(r: Request, c: Contract, k: IsolationClass, path: PathClass) returns (j: Judgement, targets: seq<SessionId>)
      requires k in policy.envelopes && OneActive(sessions) && Consistent()
      ensures j == JudgeAgainstTable(Abs(), r, c, k, path)
      ensures j.Accept? ==> targets == match Rival(sessions, r.checkpoint) case Some(id) => [id] case None => []
    {
      hide Counted, BooksAgree, ReservationsAgree, IndexAgrees, JudgeCapacity, ManifestsEquivalent, NewerRetained, OneActive;
      var found;
      found, targets := ScanCheckpoint(r);
      if found.Some? { return found.value, targets; }
      if targets != [] && !c.allowSupersession { return DenyIt(SupersessionDeniedByPolicy), targets; }
      if |targets| > limits.maxSupersessionChain { return DenyIt(ResourceLimit), targets; }
      if r.manifest.total > policy.maxSessionBytes { return DenyIt(CheckpointTooLarge), targets; }
      j := CheckCapacity(r, c, k, path);
    }

    /** Retires the rival of a new generation. Its successor is recorded before the history is pruned. */
    method ApplySupersession(target: SessionId, newer: SessionId)
      requires Valid() && target in sessions && Active(sessions[target])
      modifies this`sessions, this`terminalOrder, this`accounting, this`classActive, this`workloadActive, this`pruned, this`byWorkload,
               this`byCheckpoint, shaper`reservations
      ensures Abs() == Store(old(Abs()), target, SupersededSession(old(sessions)[target], newer)) && Consistent()
      ensures Eased(old(shaper.reservations), shaper.reservations)
    {
      hide Balanced, Counted, Good, Store, Settled, SessionOk, SessionsOk, CoreOk, Eased;
      var s := sessions[target];
      ghost var done := SupersededSession(s, newer);
      TableOk(Abs(), target);
      SupersededOk(s, newer);
      SettledReplace(sessions, target, done);
      MarkUnproven(target, s.ledger.outstanding);
      Restate(target, sessions[target].(supersededBy := Some(newer)));
      assert done == Settle(sessions[target], Superseded);
      assert sessions[target := done] == old(sessions)[target := done];
      StoreTwice(old(Abs()), target, sessions[target], done);
      assert Abs() == old(Abs()).(sessions := old(sessions)[target := sessions[target]]);
      SettleTerminal(target, Superseded);
    }

    method IndexSession(id: SessionId, t: Session)
      modifies this`byWorkload, this`byCheckpoint, this`deadlines
      ensures byWorkload == old(byWorkload)[t.request.workload := ListAt(old(byWorkload), t.request.workload) + [id]]
      ensures byCheckpoint == old(byCheckpoint)[t.request.checkpoint := ListAt(old(byCheckpoint), t.request.checkpoint) + [id]]
      ensures deadlines == IndexDeadline(old(deadlines), id, t.envelope.deadline)
    {
      byWorkload := byWorkload[t.request.workload := ListAt(byWorkload, t.request.workload) + [id]];
      byCheckpoint := byCheckpoint[t.request.checkpoint := ListAt(byCheckpoint, t.request.checkpoint) + [id]];
      deadlines := IndexDeadline(deadlines, id, t.envelope.deadline);
    }

    lemma Inserted(a: Accounting, id: SessionId, t: Session)
      requires id !in sessions && Consistent() && Active(t) && t.reserved.Some? && t.activeAttempts == 0
      requires t.ledger == Ledger(t.request.manifest.total, 0, 0, 0, 0, 0, t.request.manifest.total)
      requires a == accounting.(bytes := accounting.bytes.(admitted := accounting.bytes.admitted + t.request.manifest.total,
                                                           outstanding := accounting.bytes.outstanding + t.request.manifest.total))
      ensures BooksAgree(a.(activeSessions := a.activeSessions + 1), sessions[id := t], pruned)
      ensures ReservationsAgree(shaper.reservations[t.reserved.value.path := shaper.ReservedOn(t.reserved.value.path) + t.reserved.value.rate],
                                sessions[id := t])
      ensures ActiveAgree(a.activeSessions + 1, Bump(classActive, t.envelope.isolation), Bump(workloadActive, t.request.workload), sessions[id := t])
      ensures IndexAgrees(byCheckpoint[t.request.checkpoint := ListAt(byCheckpoint, t.request.checkpoint) + [id]], sessions[id := t], CheckpointOf)
      ensures IndexAgrees(byWorkload[t.request.workload := ListAt(byWorkload, t.request.workload) + [id]], sessions[id := t], WorkloadOf)
    {
      hide BooksAgree, IndexAgrees, ActiveAgree, ReservationsAgree, Active, ListAt, Bump;
      BooksInsert(accounting, a, sessions, pruned, id, t);
      BooksIgnoreCount(a, a.activeSessions + 1, sessions[id := t], pruned);
      assert CountAt(shaper.reservations, t.reserved.value.path) == shaper.ReservedOn(t.reserved.value.path);
      ReservationsInsert(shaper.reservations, sessions, id, t);
      ActiveStarted(accounting.activeSessions, classActive, workloadActive, sessions, id, t);
      IndexInsert(byCheckpoint, sessions, CheckpointOf, id, t);
      IndexInsert(byWorkload, sessions, WorkloadOf, id, t);
    }

    /** Books a new session: totals, counters, both indexes, the deadline index and the path reservation. */
    method InsertSession(id: SessionId, t: Session)
      requires id !in sessions && Consistent() && Active(t) && t.reserved.Some? && t.activeAttempts == 0
      requires t.ledger == Ledger(t.request.manifest.total, 0, 0, 0, 0, 0, t.request.manifest.total)
      requires t.reserved.value.rate + shaper.ReservedOn(t.reserved.value.path) < U64
      modifies this`sessions, this`accounting, this`classActive, this`workloadActive, this`byWorkload, this`byCheckpoint, this`deadlines,
               shaper`reservations
      ensures sessions == old(sessions)[id := t] && deadlines == IndexDeadline(old(deadlines), id, t.envelope.deadline)
      ensures Consistent()
    {
      hide BooksAgree, IndexAgrees, ActiveAgree, ReservationsAgree, Active, ListAt, Bump, IndexDeadline;
      var total := t.request.manifest.total;
      var a := accounting;
      a := a.(bytes := a.bytes.(admitted := a.bytes.admitted + total, outstanding := a.bytes.outstanding + total));
      Inserted(a, id, t);
      var ok := shaper.ReservePathRate(t.reserved.value.path, t.reserved.value.rate);
      assert ok;  // the planned rate left headroom on the path, so the sum cannot overflow
      accounting := a;
      AdjustUp(t);
      IndexSession(id, t);
      sessions := sessions[id := t];
    }

    method SupersedeRival(c: CheckpointId, newer: SessionId, targets: seq<SessionId>)
      requires Valid() && targets == match Rival(sessions, c) case Some(target) => [target] case None => []
      modifies this`sessions, this`terminalOrder, this`accounting, this`classActive, this`workloadActive, this`pruned, this`byWorkload,
               this`byCheckpoint, shaper`reservations
      ensures Abs() == Supersede(old(Abs()), c, newer) && Consistent()
      ensures Eased(old(shaper.reservations), shaper.reservations)
    {
      hide Consistent, Good, Store, SupersededSession;
      for i := 0 to |targets|
        invariant i == 0 ==> Abs() == old(Abs()) && shaper.reservations == old(shaper.reservations)
        invariant i == |targets| ==> Abs() == Supersede(old(Abs()), c, newer)
        invariant Consistent() && Eased(old(shaper.reservations), shaper.reservations)
      {
        ApplySupersession(targets[i], newer);
      }
    }

    /** Admits a session in place of its rival. The rate fits on the path with the rival's reservation still counted. */
    method AdmitSession(r: Request, id: SessionId, k: IsolationClass, path: PathId, rate: nat, deadline: Nanos, targets: seq<SessionId>)
      requires Valid() && id !in sessions && rate + shaper.ReservedOn(path) < U64
      requires targets == match Rival(sessions, r.checkpoint) case Some(target) => [target] case None => []
      modifies this`sessions, this`terminalOrder, this`accounting, this`classActive, this`workloadActive, this`pruned, this`byWorkload,
               this`byCheckpoint, this`deadlines, shaper`reservations
      ensures Abs() == AdmitNew(old(Abs()), r, id, k, path, rate, deadline) && Consistent()
    {
      hide Consistent, Good, Supersede, NewShards, IndexDeadline, Rival, IsRival, NewSession;
      NewSessionBooks(r, k, path, rate, deadline);
      SupersedeKeys(Abs(), r.checkpoint, id);
      SupersedeRival(r.checkpoint, id, targets);
      assert CountAt(shaper.reservations, path) == shaper.ReservedOn(path);
      InsertSession(id, NewSession(r, k, path, rate, deadline));
    }

    method AdmitRequest(r: Request, id: SessionId, j: Judgement, targets: seq<SessionId>, at: Nanos)
      requires Valid() && id !in sessions && j.Accept? && j == Judge(Abs(), r) && r.workload in contracts
      requires targets == match Rival(sessions, r.checkpoint) case Some(target) => [target] case None => []
      modifies this`sessions, this`terminalOrder, this`accounting, this`classActive, this`workloadActive, this`pruned, this`byWorkload,
               this`byCheckpoint, this`deadlines, shaper`reservations
      ensures Abs() == AdmitNew(old(Abs()), r, id, j.isolation, j.path, j.rate, at + Horizon(r, old(contracts)[r.workload])) && Consistent()
    {
      hide BooksAgree, IndexAgrees, ActiveAgree, ReservationsAgree, Good, Judge, AdmitNew;
      AcceptFits(Abs(), r);
      AgreedReservation(shaper.reservations, sessions, j.path);
      AdmitSession(r, id, j.isolation, j.path, j.rate, at + Horizon(r, contracts[r.workload]), targets);
    }

    method DecideRequest(r: Request, id: SessionId, at: Nanos) returns (out: Outcome)
      requires Valid() && id !in sessions
      modifies this, shaper
      ensures (Abs(), out) == Decide(old(Abs()), r, fingerprint(r), id, at) && Consistent()
    {
      hide BooksAgree, IndexAgrees, ActiveAgree, ReservationsAgree, Good, Judge, Remember, AdmitNew, OneActive;
      var digest := fingerprint(r);
      RivalsUnique(Abs());
      var j, targets := JudgeRequest(r);
      match j {
        case DenyIt(reason) =>
          RememberCommand(r.command, CommandRecord(Deny, None, digest));
          return Decided(Deny, Some(reason), None);
        case DeferIt(reason) =>
          RememberCommand(r.command, CommandRecord(Defer, None, digest));
          return Decided(Defer, Some(reason), None);
        case SameAs(existing) =>
          RememberCommand(r.command, CommandRecord(Admit, Some(existing), digest));
          return Decided(Admit, None, Some(existing));
        case Accept(k, path, rate) =>
          AcceptMeans(Abs(), r);
          AdmitRequest(r, id, j, targets, at);
          RememberCommand(r.command, CommandRecord(Admit, Some(id), digest));
          return Decided(Admit, None, Some(id));
      }
    }

    /** Identities are drawn fresh. */
    method SubmitSession(r: Request, fence: Fence, id: SessionId, at: Nanos) returns (out: Outcome)
      requires Valid() && at >= 0 && id !in sessions
      modifies this, shaper
      ensures (Abs(), out) == Submit(old(Abs()), r, fence, fingerprint(r), id, at) && Valid()
    {
      hide Consistent, Good, Expire, Aged, Decide;
      SubmitGood(Abs(), r, fence, fingerprint(r), id, at);
      ExpireKeys(Abs(), at);
      EnforceDeadlines(at);
      var refusal := CheckFence(fence, Authority(epoch, policy.generation, topology.generation, fence.contract));
      if refusal.Some? { return Refused(refusal.value); }
      if r.policyGeneration != fence.policy { return Refused(StalePolicyGeneration); }
      if r.topologyGeneration != fence.topology { return Refused(StaleTopologyGeneration); }
      if r.contractGeneration != fence.contract { return Refused(StaleContractGeneration); }
      if r.command in commands {
        var record := commands[r.command];
        if record.fingerprint != fingerprint(r) { return Refused(ReplayDetected); }
        return Replayed(record.kind, record.session);
      }
      out := DecideRequest(r, id, at);
    }

    // -------------------------------------------------------- revalidation

    /** Denial marks the session failed before settling it, so settling neither counts it down nor files it. */
    method DenyAuthority(id: SessionId, unproven: nat)
      requires id in sessions && Balanced()
      modifies this`sessions, this`terminalOrder, this`accounting, this`classActive, this`workloadActive, this`pruned, this`byWorkload,
               this`byCheckpoint, shaper`reservations
      ensures Abs() == DenyRevalidation(old(Abs()), id, Settle(Unprove(old(sessions)[id], unproven), Failed))
      ensures Counters() == old(Counters())
      ensures Active(old(sessions)[id]) && old(Counted()) ==> accounting.activeSessions == Total(sessions, ActiveOne) + 1 && !Counted()
    {
      hide Balanced, Settled, Prune, ReleaseAll, WasteUnverified, ActiveInClass, ActiveForWorkload, Total;
      var s := sessions[id];
      ghost var done := Settle(Unprove(s, unproven), Failed);
      Restate(id, s.(state := Failed));
      MarkUnproven(id, unproven);
      assert Settle(sessions[id], Failed) == done;
      assert sessions[id := done] == old(sessions)[id := done];
      SettleTerminal(id, Failed);
      TotalReplace(old(sessions), id, done, ActiveOne);
      PruneKeepsActive(old(Abs()).(sessions := old(sessions)[id := done]));
    }

    /** A new envelope under a larger sequence, with a new reservation and target. */
    method IssueEnvelope(id: SessionId, rate: nat, deadline: Nanos)
      requires id in sessions && Active(sessions[id]) && Consistent()
      requires rate + shaper.ReservedOn(sessions[id].envelope.path) < U64
      modifies this`sessions, this`deadlines, shaper`reservations
      ensures sessions == old(sessions)[id := Revalidated(old(sessions)[id], old(sessions)[id].envelope.path, rate, deadline)]
      ensures deadlines == IndexDeadline(old(deadlines), id, deadline) && Consistent()
    {
      hide BooksAgree, IndexAgrees, ActiveAgree, ReservationsAgree, IndexDeadline;
      var path := sessions[id].envelope.path;
      ReleasePathReservation(id);
      assert CountAt(shaper.reservations, path) == shaper.ReservedOn(path);
      var s := sessions[id];
      var t := s.(envelopeSequence := s.envelopeSequence + 1, envelope := s.envelope.(rate := rate, path := path, deadline := deadline),
                  reserved := Some(Reservation(path, rate)), state := Admitted, paused := false);
      Reserved(id, t);
      var ok := shaper.ReservePathRate(path, rate);
      assert ok;  // the rate was planned with the old reservation still counted
      deadlines := IndexDeadline(deadlines, id, deadline);
      sessions := sessions[id := t];
    }

    lemma Reserved(id: SessionId, t: Session)
      requires id in sessions && Consistent() && sessions[id].reserved.None? && t.reserved.Some?
      requires t.ledger == sessions[id].ledger && t.activeAttempts == sessions[id].activeAttempts && SameFooting(sessions[id], t)
      ensures var r := t.reserved.value;
              ReservationsAgree(shaper.reservations[r.path := shaper.ReservedOn(r.path) + r.rate], sessions[id := t])
      ensures BooksAgree(accounting, sessions[id := t], pruned)
      ensures IndexAgrees(byCheckpoint, sessions[id := t], CheckpointOf) && IndexAgrees(byWorkload, sessions[id := t], WorkloadOf)
      ensures ActiveAgree(accounting.activeSessions, classActive, workloadActive, sessions[id := t])
    {
      hide BooksAgree, IndexAgrees, ActiveAgree;
      BooksAgreeReplace(accounting, accounting, sessions, pruned, id, t);
      FootingKept(accounting.activeSessions, classActive, workloadActive, shaper.reservations, byCheckpoint, byWorkload, sessions, id, t);
      ReservationsReplace(shaper.reservations, sessions, id, t);
    }

    method RevalidateSession(id: SessionId, fence: Fence, at: Nanos) returns (out: Outcome)
      requires Valid() && at >= 0
      modifies this, shaper
      ensures (Abs(), out) == Revalidate(old(Abs()), id, fence, at)
      ensures old(Disciplined(Abs(), RevalidateCmd(id, fence), at)) <==> !(out.Decided? && out.kind.Deny?)
      ensures !(out.Decided? && out.kind.Deny?) ==> Valid()
    {
      hide Consistent, Good, Expire, Replan, CheckFence, Renewing, Renewable;
      DenialBreaksDiscipline(Abs(), id, fence, at);
      if Disciplined(Abs(), RevalidateCmd(id, fence), at) { RevalidateGood(Abs(), id, fence, at); }
      EnforceDeadlines(at);
      if id !in sessions { return Refused(NotFound); }
      var s := sessions[id];
      var known := s.request.workload in contracts;
      var generation := if known then contracts[s.request.workload].generation else 0;
      var refusal := CheckFence(fence, Authority(epoch, policy.generation, topology.generation, generation));
      if refusal.Some? { return Refused(refusal.value); }
      if CheckpointFence(s, fence).Some? { return Refused(StaleCheckpointGeneration); }
      if !s.state.RevalidationRequired? && !s.state.Deferred? { return Refused(InvalidStateTransition); }
      if shuttingDown { return Refused(ShuttingDown); }
      out := PlanAuthority(id, at);
    }

    /** The decision for a session that asks for authority again. */
    method PlanAuthority(id: SessionId, at: Nanos) returns (out: Outcome)
      requires Valid() && id in sessions && (sessions[id].state.RevalidationRequired? || sessions[id].state.Deferred?)
      modifies this`sessions, this`deadlines, this`terminalOrder, this`accounting, this`classActive, this`workloadActive, this`pruned,
               this`byWorkload, this`byCheckpoint, shaper`reservations
      ensures (Abs(), out) == Replan(old(Abs()), id, at)
      ensures !(out.Decided? && out.kind.Deny?) ==> Consistent()
    {
      hide Balanced, Counted, Good, DenyRevalidation, Revalidated, IndexDeadline, Settle, Horizon, PlanAgain, Unprove;
      var s := sessions[id];
      if s.request.workload !in contracts {
        UnproveNothing(s);
        DenyAuthority(id, 0);
        return Decided(Deny, Some(UnknownWorkload), Some(id));
      }
      var path := FindPath(topology, s.envelope.path);
      if s.envelope.isolation !in policy.envelopes || path.None? {
        return Decided(Defer, Some(DestinationNotPermitted), Some(id));
      }
      var plan := PlanFor(id, path.value);
      match plan {
        case Rate(bps) =>
          IssueEnvelope(id, bps, at + Horizon(s.request, contracts[s.request.workload]));
          return Decided(Admit, None, Some(id));
        case NoRate(reason) =>
          if reason.RequestedRateUnsupported? || reason.DeadlineUnreachable? {
            DenyAuthority(id, s.ledger.outstanding);
            return Decided(Deny, Some(reason), Some(id));
          }
          Restate(id, s.(state := Deferred));
          return Decided(Defer, Some(reason), Some(id));
      }
    }

    /** The rate planned against everything reserved on the path, this session's old reservation included. */
    method PlanFor(id: SessionId, path: PathClass) returns (plan: RatePlan)
      requires Valid() && id in sessions && PathOf(topology, sessions[id].envelope.path) == Some(path)
      requires sessions[id].request.workload in contracts && sessions[id].envelope.isolation in policy.envelopes
      ensures plan == PlanAgain(Abs(), sessions[id])
      ensures plan.Rate? ==> plan.bps + shaper.ReservedOn(sessions[id].envelope.path) < U64
    {
      hide Consistent, Good, PlanRate;
      var s := sessions[id];
      ReservedAgrees(path.id);
      plan := PlanRate(s.request, contracts[s.request.workload], policy.envelopes[s.envelope.isolation], path, shaper.ReservedOn(path.id));
      if plan.Rate? { ReplanFits(Abs(), id); }
    }

    lemma ReservedAgrees(path: PathId)
      requires Consistent()
      ensures shaper.ReservedOn(path) == Total(sessions, RateOn(path))
    {
      hide BooksAgree, IndexAgrees, ActiveAgree;
      AgreedReservation(shaper.reservations, sessions, path);
    }

    // ------------------------------------------------------------- restoring

    method CheckExport(exported: map<SessionId, Session>) returns (ok: bool)
      ensures ok <==> forall id :: id in exported ==> RecordReadable(id, exported[id], limits)
    {
      hide ManifestValid;
      var todo := exported.Keys;
      while todo != {}
        invariant todo <= exported.Keys
        invariant forall id :: id in exported && id !in todo ==> RecordReadable(id, exported[id], limits)
      {
        var id :| id in todo;
        var s := exported[id];
        var valid := ValidateManifest(s.request.manifest, limits);
        if id == 0 || !valid || |s.shards| != |s.request.manifest.shards| { return false; }
        if IsTerminal(s.state) && s.ledger.outstanding != 0 { return false; }
        if !Aligned(s) { return false; }
        todo := todo - {id};
      }
      return true;
    }

    /** Books what was at risk as unproven and sends a running session to revalidation. */
    method ReviveOne(id: SessionId, original: Session)
      requires id in sessions && sessions[id] == ReadBack(original)
      modifies this`sessions, this`accounting
      ensures sessions == old(sessions)[id := Restored(original)]
      ensures accounting == Unproved(old(accounting), MovedOf(original), accounting.bytes.outstanding)
    {
      hide Restored, ReadBack, MovedOf;
      RevivedOne(original);
      var s := sessions[id];
      if IsTerminal(s.state) { return; }
      var risk := AtRisk(s.attempts);
      var moved := Min(risk, s.ledger.outstanding);
      var b := accounting.bytes;
      accounting := accounting.(bytes := b.(outstanding := Monus(b.outstanding, moved), unproven := b.unproven + moved));
      s := s.(ledger := s.ledger.(outstanding := s.ledger.outstanding - moved, unproven := s.ledger.unproven + moved));
      s := s.(attempts := QuietAll(s.attempts), activeAttempts := 0, shards := RestartShards(s.shards),
              state := RevalidationRequired, paused := false);
      sessions := sessions[id := s];
    }

    method ReviveSessions(exported: map<SessionId, Session>)
      requires sessions == ReadBackTable(exported)
      modifies this`sessions, this`accounting
      ensures sessions == RestoredTable(exported)
      ensures accounting == Unproved(old(accounting), Total(exported, MovedOf), accounting.bytes.outstanding)
    {
      hide Restored, ReadBack, MovedOf, Total;
      var todo := exported.Keys;
      ghost var done: map<SessionId, Session> := map[];
      TotalNone(done, MovedOf);
      while todo != {}
        invariant todo <= exported.Keys && sessions.Keys == exported.Keys
        invariant done.Keys == exported.Keys - todo && forall id :: id in done ==> done[id] == exported[id]
        invariant forall id :: id in sessions ==> sessions[id] == if id in todo then ReadBack(exported[id]) else Restored(exported[id])
        invariant accounting == Unproved(old(accounting), Total(done, MovedOf), accounting.bytes.outstanding)
      {
        var id :| id in todo;
        TotalInsert(done, id, exported[id], MovedOf);
        ReviveOne(id, exported[id]);
        done := done[id := exported[id]];
        todo := todo - {id};
      }
      assert done == exported;
      assert sessions == RestoredTable(exported);
    }

    /** Counters, history and outstanding total are derived from the table, never taken from the snapshot. */
    method Recount()
      modifies this`accounting, this`classActive, this`workloadActive, this`terminalOrder
      ensures Counted() && HistoryOk(sessions, terminalOrder)
      ensures accounting == old(accounting).(activeSessions := accounting.activeSessions,
                                             bytes := old(accounting.bytes).(outstanding := Total(sessions, OutstandingOf)))
    {
      hide ActiveAgree, Bump, Total, Active;
      classActive := map[TrainingCritical := 0, ServingLatency := 0, TrainingBulk := 0, BestEffort := 0];
      workloadActive, terminalOrder := map[], [];
      accounting := accounting.(activeSessions := 0, bytes := accounting.bytes.(outstanding := 0));
      var todo := sessions.Keys;
      ghost var done: map<SessionId, Session> := map[];
      NoneCounted();
      TotalNone(done, OutstandingOf);
      while todo != {}
        invariant todo <= sessions.Keys
        invariant done.Keys == sessions.Keys - todo && forall id :: id in done ==> done[id] == sessions[id]
        invariant ActiveAgree(accounting.activeSessions, classActive, workloadActive, done) && HistoryOk(done, terminalOrder)
        invariant accounting == old(accounting).(activeSessions := accounting.activeSessions,
                                                 bytes := old(accounting.bytes).(outstanding := Total(done, OutstandingOf)))
      {
        var id :| id in todo;
        var s := sessions[id];
        TotalInsert(done, id, s, OutstandingOf);
        HistoryGrows(done, terminalOrder, id, s);
        accounting := accounting.(bytes := accounting.bytes.(outstanding := accounting.bytes.outstanding + s.ledger.outstanding));
        if Active(s) {
          ActiveStarted(accounting.activeSessions, classActive, workloadActive, done, id, s);
          AdjustUp(s);
        } else {
          ActiveIgnored(accounting.activeSessions, classActive, workloadActive, done, id, s);
          terminalOrder := terminalOrder + [id];
        }
        done := done[id := s];
        todo := todo - {id};
      }
      assert done == sessions;
    }

    method RebuildDeadlines()
      modifies this`deadlines
      ensures TargetsIndexed(deadlines, sessions)
    {
      hide TargetsIndexed, IndexDeadline, Active;
      deadlines := map[];
      var todo := sessions.Keys;
      ghost var done: map<SessionId, Session> := map[];
      NoneIndexed();
      while todo != {}
        invariant todo <= sessions.Keys
        invariant done.Keys == sessions.Keys - todo && forall id :: id in done ==> done[id] == sessions[id]
        invariant TargetsIndexed(deadlines, done)
      {
        var id :| id in todo;
        TargetsGrow(deadlines, done, id, sessions[id]);
        if Active(sessions[id]) { deadlines := IndexDeadline(deadlines, id, sessions[id].envelope.deadline); }
        done := done[id := sessions[id]];
        todo := todo - {id};
      }
      assert done == sessions;
    }

    /** The table, and every counter and index derived from it. */
    method InstallTable(exported: map<SessionId, Session>, saved: Ledger, era: Epoch)
      modifies this
      ensures Abs() == old(Abs()).(epoch := era, sessions := RestoredTable(exported), deadlines := deadlines,
                                   terminalOrder := terminalOrder, commands := map[], commandOrder := [])
      ensures HistoryOk(sessions, terminalOrder) && TargetsIndexed(deadlines, sessions) && Counted()
      ensures IndexAgrees(byCheckpoint, sessions, CheckpointOf) && IndexAgrees(byWorkload, sessions, WorkloadOf)
      ensures accounting.bytes == RestoredAccounting(saved, exported) && accounting.activeAttempts == 0
    {
      hide Counted, IndexAgrees, HistoryOk, TargetsIndexed, RestoredTable, Total;
      ReadTable(exported, saved, era);
      RebuildAll();
    }

    method ReadTable(exported: map<SessionId, Session>, saved: Ledger, era: Epoch)
      modifies this`sessions, this`accounting, this`epoch, this`commands, this`commandOrder
      ensures sessions == RestoredTable(exported) && epoch == era && commands == map[] && commandOrder == []
      ensures accounting == Unproved(Accounting(saved, 0, 0), Total(exported, MovedOf), accounting.bytes.outstanding)
    {
      hide RestoredTable, ReadBackTable, Total;
      sessions := ReadBackTable(exported);
      accounting := Accounting(saved, 0, 0);
      epoch, commands, commandOrder := era, map[], [];
      ReviveSessions(exported);
    }

    method RebuildAll()
      modifies this`byWorkload, this`byCheckpoint, this`accounting, this`classActive, this`workloadActive, this`terminalOrder, this`deadlines
      ensures HistoryOk(sessions, terminalOrder) && TargetsIndexed(deadlines, sessions) && Counted()
      ensures IndexAgrees(byCheckpoint, sessions, CheckpointOf) && IndexAgrees(byWorkload, sessions, WorkloadOf)
      ensures accounting == old(accounting).(activeSessions := accounting.activeSessions,
                                             bytes := old(accounting.bytes).(outstanding := Total(sessions, OutstandingOf)))
    {
      hide ActiveAgree, IndexAgrees, HistoryOk, TargetsIndexed, Total;
      RebuildIndexes();
      Recount();
      RebuildDeadlines();
    }

    /** Replaces the table by an exported one, unless the snapshot is malformed or newer than the configuration. */
    method RestoreSnapshot(exported: map<SessionId, Session>, saved: Ledger, era: Epoch, policyGeneration: nat, topologyGeneration: nat)
      returns (refusal: Option<ErrorCode>)
      modifies this
      ensures refusal == RestoreRefusal(old(Abs()), exported, saved, policyGeneration, topologyGeneration)
      ensures refusal.Some? ==> Abs() == old(Abs()) && (old(Consistent()) ==> Consistent())
      ensures refusal.None? ==>
                && Abs() == old(Abs()).(epoch := era, sessions := RestoredTable(exported), deadlines := deadlines,
                                        terminalOrder := terminalOrder, commands := map[], commandOrder := [])
                && HistoryOk(sessions, terminalOrder) && TargetsIndexed(deadlines, sessions) && Counted()
                && IndexAgrees(byCheckpoint, sessions, CheckpointOf) && IndexAgrees(byWorkload, sessions, WorkloadOf)
                && accounting.bytes == RestoredAccounting(saved, exported) && accounting.activeAttempts == 0
      ensures refusal.None? ==>
                (Consistent() <==> RestoredAccounting(saved, exported) == Books(RestoredTable(exported), pruned) && NothingReserved(shaper.reservations))
    {
      hide Counted, IndexAgrees, ReservationsAgree, HistoryOk, TargetsIndexed, RestoredTable, RecordReadable, RestoredAccounting, Books, Total;
      if !Conserves(saved) { return Some(CorruptState); }
      if policyGeneration > policy.generation { return Some(StalePolicyGeneration); }
      if topologyGeneration > topology.generation { return Some(StaleTopologyGeneration); }
      if |exported| > limits.maxSessions { return Some(ResourceExhausted); }
      var ok := CheckExport(exported);
      if !ok { return Some(CorruptState); }
      InstallTable(exported, saved, era);
      RestoredHoldsNothing(exported, shaper.reservations);
      return None;
    }

    // ---------------------------------------------------------- self-check

    /** The self-check finds no fault in any state the commands can reach. */
    method CheckInvariants() returns (fault: Option<ErrorCode>)
      ensures fault.None? <==> Audited(accounting, sessions, pruned, byWorkload, byCheckpoint, |commands|, commandBound, policy.requireVerification)
      ensures Valid() ==> fault.None?
    {
      hide Valid, Audited;
      if Valid() { AuditPasses(); }
      fault := Check(accounting, sessions, pruned, byWorkload, byCheckpoint, |commands|, commandBound, policy.requireVerification);
    }

    lemma AuditPasses()
      requires Valid()
      ensures Audited(accounting, sessions, pruned, byWorkload, byCheckpoint, |commands|, commandBound, policy.requireVerification)
    {
      hide Good, Total, RecordAudited, ReservationsAgree, IndexAgrees, Known, Books;
      IndexKnown(byWorkload, sessions, WorkloadOf);
      IndexKnown(byCheckpoint, sessions, CheckpointOf);
      BooksBalance(Abs());
      RecordsPass(Abs());
      MemoryBounded(Abs());
    }
  }

  /** The shard table names the manifest's shards in order. */
  predicate Aligned(s: Session)
    requires |s.shards| == |s.request.manifest.shards|
  {
    forall i :: 0 <= i < |s.shards| ==> s.shards[i].index == s.request.manifest.shards[i].index
  }

  /** A persisted session that restoring accepts. */
  predicate RecordReadable(id: SessionId, s: Session, limits: Limits) {
    && id != 0 && ManifestValid(s.request.manifest, limits) && |s.shards| == |s.request.manifest.shards|
    && (IsTerminal(s.state) ==> s.ledger.outstanding == 0) && Aligned(s)
  }

  function RestoreRefusal(f: Fabric, exported: map<SessionId, Session>, saved: Ledger, policyGeneration: nat, topologyGeneration: nat): Option<ErrorCode> {
    if !Conserves(saved) then Some(CorruptState)
    else if policyGeneration > f.policy.generation then Some(StalePolicyGeneration)
    else if topologyGeneration > f.topology.generation then Some(StaleTopologyGeneration)
    else if |exported| > f.limits.maxSessions then Some(ResourceExhausted)
    else if exists id :: id in exported && !RecordReadable(id, exported[id], f.limits) then Some(CorruptState)
    else None
  }

  /** The aggregate with more bytes unproven; what it holds as outstanding is recomputed later. */
  function Unproved(a: Accounting, moved: nat, outstanding: nat): Accounting {
    a.(bytes := a.bytes.(unproven := a.bytes.unproven + moved, outstanding := outstanding))
  }

  lemma TotalNone(m: map<SessionId, Session>, f: Session -> nat)
    requires m == map[]
    ensures Total(m, f) == 0
  {
  }

  lemma NoneCounted()
    ensures ActiveAgree(0, map[TrainingCritical := 0, ServingLatency := 0, TrainingBulk := 0, BestEffort := 0], map[], map[])
    ensures HistoryOk(map[], [])
  {
    var zero: map<IsolationClass, nat> := map[TrainingCritical := 0, ServingLatency := 0, TrainingBulk := 0, BestEffort := 0];
    forall c: IsolationClass ensures c in zero && zero[c] == 0 {
      match c case TrainingCritical => case ServingLatency => case TrainingBulk => case BestEffort =>
    }
  }

  lemma NoneIndexed()
    ensures TargetsIndexed(map[], map[])
  {
  }

  lemma RevivedOne(s: Session)
    ensures var r := ReadBack(s);
            && r.state == s.state && r.ledger == s.ledger
            && (!Active(s) ==> Restored(s) == r && MovedOf(s) == 0)
            && var moved := Min(SeqTotal(r.attempts, AtRiskOf), r.ledger.outstanding);
               Active(s) ==>
                 && MovedOf(s) == moved
                 && Restored(s) == r.(ledger := r.ledger.(outstanding := r.ledger.outstanding - moved, unproven := r.ledger.unproven + moved),
                                      attempts := QuietAll(r.attempts), activeAttempts := 0, shards := RestartShards(r.shards),
                                      state := RevalidationRequired, paused := false)
  {
  }

  /** No path class carries a reservation. */
  ghost predicate NothingReserved(reservations: map<PathId, nat>) { forall p :: CountAt(reservations, p) == 0 }

  /** Restored sessions hold neither attempts nor reservations. */
  lemma RestoredHoldsNothing(exported: map<SessionId, Session>, reservations: map<PathId, nat>)
    ensures Total(RestoredTable(exported), AttemptsOf) == 0
    ensures ReservationsAgree(reservations, RestoredTable(exported)) <==> NothingReserved(reservations)
  {
    var t := RestoredTable(exported);
    TotalZero(t, AttemptsOf);
    forall p ensures Total(t, RateOn(p)) == 0 {
      TotalZero(t, RateOn(p));
    }
  }

  lemma HistoryGrows(done: map<SessionId, Session>, order: seq<SessionId>, id: SessionId, s: Session)
    requires HistoryOk(done, order) && id !in done
    ensures HistoryOk(done[id := s], if Active(s) then order else order + [id])
  {
    hide Active;
  }

  lemma TargetsGrow(deadlines: map<Nanos, seq<SessionId>>, done: map<SessionId, Session>, id: SessionId, s: Session)
    requires TargetsIndexed(deadlines, done) && id !in done
    ensures TargetsIndexed(if Active(s) then IndexDeadline(deadlines, id, s.envelope.deadline) else deadlines, done[id := s])
  {
    hide Active;
    var n, t := done[id := s], s.envelope.deadline;
    var m := if Active(s) then IndexDeadline(deadlines, id, t) else deadlines;
    forall d, k ensures IsListed(m, d, k) <==> IsTarget(n, d, k) {
      assert IsListed(deadlines, d, k) <==> IsTarget(done, d, k);
      if Active(s) && t > 0 { assert m[t][|m[t]| - 1] == id; }
    }
  }

  /** One pass over the shard table. */
  method Tally(shards: seq<Shard>) returns (allVerified: bool, allSettled: bool, unresolved: bool)
    ensures allVerified <==> AllVerified(shards)
    ensures allSettled <==> AllSettled(shards)
    ensures unresolved <==> SomeUnresolved(shards)
  {
    var verified, settled, ambiguous, inFlight := 0, 0, 0, 0;
    for i := 0 to |shards|
      invariant 0 <= verified <= i && 0 <= settled <= i && 0 <= ambiguous && 0 <= inFlight
      invariant verified == i <==> forall k :: 0 <= k < i ==> shards[k].state.ShardVerified?
      invariant settled == i <==> forall k :: 0 <= k < i ==> IsSettled(shards[k])
      invariant ambiguous > 0 || inFlight > 0 <==> exists k :: 0 <= k < i && Unresolved(shards[k])
    {
      match shards[i].state {
        case ShardVerified => verified, settled := verified + 1, settled + 1;
        case ShardTransferred => settled := settled + 1;
        case ShardInFlight => inFlight := inFlight + 1;
        case ShardGranted => inFlight := inFlight + 1;
        case ShardAmbiguous => ambiguous := ambiguous + 1;
        case _ =>
      }
      assert Unresolved(shards[i]) <==> shards[i].state in {ShardInFlight, ShardGranted, ShardAmbiguous};
    }
    var total := |shards|;
    return verified == total && total > 0, settled == total && total > 0, ambiguous > 0 || inFlight > 0;
  }

  method Assess(s: Session, requireVerification: bool) returns (evidence: Evidence, state: SessionState, reached: bool)
    requires Active(s)
    ensures evidence == EvidenceOf(s) && state == ProgressState(s) && !IsTerminal(state)
    ensures reached <==> TargetReached(s, requireVerification)
  {
    hide AllVerified, AllSettled, SomeUnresolved;
    var allVerified, allSettled, unresolved := Tally(s.shards);
    evidence := if allVerified then VerifiedAtDestinationEvidence else if allSettled then TransferredEvidence
                else if s.sourceComplete then SourceCompleteEvidence else NoEvidence;
    state := s.state;
    if !state.RevalidationRequired? && !state.Paused? && !state.Deferred? {
      state := if allVerified then VerifiedAtDestination else if allSettled then Transferred else if unresolved then Transferring
               else if s.sourceComplete then SourceComplete else Admitted;
    }
    reached := if requireVerification then allVerified else allSettled;
  }

  lemma ProgressCases(f: Fabric, id: SessionId, s: Session, require: bool)
    requires id in f.sessions && Active(f.sessions[id]) && Active(s) && !IsTerminal(ProgressState(s))
    ensures var t := s.(evidence := EvidenceOf(s), state := ProgressState(s));
            var p := Progress(s, require);
            if TargetReached(s, require) then
              && p == t.(state := TrafficSessionComplete, reserved := None, ledger := s.ledger.(outstanding := 0))
              && Store(f, id, p) == Prune(f.(sessions := f.sessions[id := t][id := p], terminalOrder := f.terminalOrder + [id]))
              && f.sessions[id := t][id := p] == f.sessions[id := p]
            else p == t && Store(f, id, p) == f.(sessions := f.sessions[id := p])
  {
    hide EvidenceOf, ProgressState, TargetReached, Prune;
    var t := s.(evidence := EvidenceOf(s), state := ProgressState(s));
    assert f.sessions[id := t][id := Progress(s, require)] == f.sessions[id := Progress(s, require)];
  }

  lemma SettleEnds(s: Session, state: SessionState)
    requires state.Superseded? || state.Cancelled? || state.Failed?
    ensures !Active(Settle(s, state))
  {
  }

  lemma BooksIgnoreCount(a: Accounting, n: nat, sessions: map<SessionId, Session>, pruned: Ledger)
    requires BooksAgree(a, sessions, pruned)
    ensures BooksAgree(a.(activeSessions := n), sessions, pruned)
  {
  }

  lemma GoodSettled(sessions: map<SessionId, Session>)
    requires SessionsOk(sessions)
    ensures Settled(sessions)
  {
    forall id | id in sessions && !Active(sessions[id])
      ensures sessions[id].ledger.outstanding == 0 && sessions[id].activeAttempts == 0 && sessions[id].reserved.None?
    {
      assert SessionOk(sessions[id]);
    }
  }

  lemma SettledReplace(sessions: map<SessionId, Session>, id: SessionId, t: Session)
    requires SessionsOk(sessions) && SessionOk(t)
    ensures Settled(sessions[id := t])
  {
    hide SessionOk;
    GoodSettled(sessions[id := t]);
  }

  lemma ExpiredSettled(f: Fabric, id: SessionId)
    requires Base(f) && id in f.sessions && Active(f.sessions[id])
    ensures Settled(f.sessions[id := Expired(f.sessions[id])])
  {
    hide SessionOk, Expired, Settled;
    assert SessionOk(f.sessions[id]);
    ExpiredOk(f.sessions[id]);
    SettledReplace(f.sessions, id, Expired(f.sessions[id]));
  }

  lemma UnproveKeeps(s: Session, bytes: nat)
    ensures Active(Unprove(s, bytes)) <==> Active(s)
  {
  }

  /** Storing over a running record forgets that record. */
  lemma StoreTwice(f: Fabric, id: SessionId, t: Session, u: Session)
    requires id in f.sessions && (Active(f.sessions[id]) <==> Active(t))
    ensures Store(f.(sessions := f.sessions[id := t]), id, u) == Store(f, id, u)
  {
    hide Prune;
    assert f.sessions[id := t][id := u] == f.sessions[id := u];
  }

  lemma EntryTaken(f: Fabric, d: Nanos)
    requires Good(f) && d in f.deadlines
    ensures var g := f.(deadlines := f.deadlines - {d}); Base(g) && DeadlinesBut(g, f.deadlines[d], d)
  {
    hide SessionsOk, OneActive, ReplayOk, HistoryOk, CompletionOk, ArchiveOk, Contracted, Provisioned, Suspended;
    var g := f.(deadlines := f.deadlines - {d});
    forall id | id in g.sessions && Active(g.sessions[id]) && !Suspended(g.sessions[id])
      ensures Indexed(g, id) || (g.sessions[id].envelope.deadline == d && id in f.deadlines[d])
    {
      assert Indexed(f, id);
    }
  }

  lemma NoneDue(f: Fabric, d: Nanos)
    requires DeadlinesBut(f, [], d)
    ensures DeadlinesBut(f, [], 0)
  {
  }

  lemma PausedFromRunning(f: Fabric, id: SessionId)
    requires Good(f) && id in f.sessions
    ensures !IsTerminal(f.sessions[id].pausedFrom)
  {
    assert SessionOk(f.sessions[id]);
  }

  lemma CancelledSettled(f: Fabric, id: SessionId)
    requires Good(f) && id in f.sessions && Active(f.sessions[id])
    ensures Settled(f.sessions[id := Settle(CancelOutstanding(f.sessions[id]), Cancelled)])
    ensures Active(CancelOutstanding(f.sessions[id]))
  {
    hide SessionOk, Settle, Settled;
    assert SessionOk(f.sessions[id]);
    CancelledOk(f.sessions[id]);
    SettledReplace(f.sessions, id, Settle(CancelOutstanding(f.sessions[id]), Cancelled));
  }

  /** Binary search over a table whose indexes ascend. */
  method ShardPosition(shards: seq<Shard>, index: nat) returns (p: nat)
    requires Ascending(shards)
    ensures p == Position(shards, index)
  {
    var low, high := 0, |shards|;
    while low < high
      invariant 0 <= low <= high <= |shards|
      invariant forall i :: 0 <= i < low ==> shards[i].index < index
      invariant forall i :: high <= i < |shards| ==> index <= shards[i].index
    {
      var mid := low + (high - low) / 2;
      if shards[mid].index < index { low := mid + 1; } else { high := mid; }
    }
    if low < |shards| && shards[low].index == index { return low; }
    return |shards|;
  }

  predicate Ascending(shards: seq<Shard>) {
    forall i, j :: 0 <= i < j < |shards| ==> shards[i].index < shards[j].index
  }

  lemma TableOk(f: Fabric, id: SessionId)
    requires Good(f) && id in f.sessions
    ensures SessionsOk(f.sessions) && SessionOk(f.sessions[id]) && CoreOk(f.sessions[id])
  {
    hide SessionOk, CoreOk, DeadlinesBut;
    SessionGood(f, id);
    SoundCore(f.sessions[id]);
  }

  lemma ShardsAscend(s: Session)
    requires CoreOk(s)
    ensures Ascending(s.shards)
  {
    hide ShardsSound, AttemptsSound, RunningLedger;
  }

  method FindAttempt(attempts: seq<Attempt>, id: AttemptId) returns (p: nat)
    ensures p == AttemptPosition(attempts, id)
  {
    for i := 0 to |attempts|
      invariant forall k :: 0 <= k < i ==> attempts[k].id != id
    {
      if attempts[i].id == id { return i; }
    }
    return |attempts|;
  }

  /** Source evidence for one shard; the session's own flag is set once no shard lacks it. */
  method WithSource(s: Session, p: nat, bytes: nat) returns (t: Session)
    requires p < |s.shards|
    ensures t == NoteSource(s, p, bytes)
    ensures t == s.(shards := t.shards, sourceComplete := t.sourceComplete)
  {
    var h := s.shards[p].(sourceComplete := true, sourceBytes := bytes);
    if h.state.ShardPending? || h.state.ShardGranted? { h := h.(state := ShardInFlight); }
    var shards := s.shards[p := h];
    var i := 0;
    while i < |shards| && shards[i].sourceComplete
      invariant 0 <= i <= |shards|
      invariant forall k :: 0 <= k < i ==> shards[k].sourceComplete
    {
      i := i + 1;
    }
    assert i == |shards| <==> AllSourced(shards);
    return s.(shards := shards, sourceComplete := i == |shards|);
  }

  lemma RecordedSettled(sessions: map<SessionId, Session>, id: SessionId, t: Session, require: bool)
    ensures SessionsOk(sessions) && CoreOk(t) && Active(t) ==>
              Settled(sessions[id := t][id := Progress(t, require)]) && Progress(t, require).ledger == t.ledger
  {
    hide SessionOk, CoreOk, Progress, Settled, SessionsOk;
    if SessionsOk(sessions) && CoreOk(t) && Active(t) {
      ProgressOk(t, require);
      SettledReplace(sessions, id, Progress(t, require));
      assert sessions[id := t][id := Progress(t, require)] == sessions[id := Progress(t, require)];
    }
  }

  lemma ObserveKeeps(s: Session, a: nat, arrived: nat)
    requires a < |s.attempts|
    ensures var t := Observe(s, a, arrived); t == s.(attempts := t.attempts) && |t.attempts| == |s.attempts|
  {
  }

  lemma UnacknowledgedKeeps(s: Session, a: nat)
    requires a < |s.attempts|
    ensures var t := Unacknowledged(s, a); t == s.(attempts := t.attempts)
  {
  }

  lemma AcknowledgeKeeps(s: Session, p: nat, a: nat, newly: nat)
    requires p < |s.shards| && a < |s.attempts| && newly <= s.ledger.outstanding
    ensures var t := Acknowledge(s, p, a, newly);
            t == s.(attempts := t.attempts, shards := t.shards, activeAttempts := Monus(s.activeAttempts, 1),
                    ledger := s.ledger.(outstanding := s.ledger.outstanding - newly, transferred := s.ledger.transferred + newly))
  {
  }

  /** What a verdict leaves alone in the record. */
  lemma VerifyKeeps(s: Session, p: nat, a: nat)
    requires p < |s.shards| && a < |s.attempts|
    ensures var t := Verify(s, p, a);
            t == s.(shards := t.shards, attempts := t.attempts,
                    ledger := s.ledger.(verified := s.ledger.verified + Monus(s.shards[p].declared, s.shards[p].verified)))
  {
  }

  lemma TruncateKeeps(s: Session, p: nat, a: nat)
    requires p < |s.shards| && a < |s.attempts|
    ensures var t := Truncate(s, p, a);
            t == s.(shards := t.shards, attempts := t.attempts, ledger := t.ledger, activeAttempts := t.activeAttempts)
  {
  }

  lemma DoubtKeeps(s: Session, p: nat, a: nat)
    requires p < |s.shards| && a < |s.attempts|
    ensures var t := Doubt(s, p, a);
            t == s.(shards := t.shards, attempts := t.attempts, activeAttempts := Monus(s.activeAttempts, 1),
                    ledger := Unprove(s, Monus(s.attempts[a].granted, s.attempts[a].delivered)).ledger)
  {
  }

  lemma DisownKeeps(s: Session, a: nat)
    requires a < |s.attempts|
    ensures var t := Disown(s, a);
            t == s.(shards := t.shards, attempts := t.attempts,
                    activeAttempts := if s.attempts[a].outstanding then Monus(s.activeAttempts, 1) else s.activeAttempts,
                    ledger := Unprove(s, Monus(s.attempts[a].granted, s.attempts[a].delivered)).ledger)
  {
  }

  lemma ShardWithin(s: Session, p: nat)
    requires CoreOk(s) && Active(s) && p < |s.shards|
    ensures s.shards[p].transferred <= s.ledger.transferred
  {
    hide ShardsSound, AttemptsSound, Shaped;
    SeqTotalReplace(s.shards, p, s.shards[p].(transferred := 0), ShardBytes);
  }

  lemma DisciplinedMismatch(s: Session, p: nat, outcome: VerificationOutcome, bytes: nat, digest: ContentDigest)
    requires p < |s.shards| && Position(s.shards, s.shards[p].index) == p && Mismatched(s.shards[p], outcome, bytes, digest)
    ensures VerifyDiscipline(s, s.shards[p].index, outcome, bytes, digest) ==> s.ledger.outstanding == 0
  {
    hide Mismatched;
  }

  lemma DisciplinedVerified(s: Session, p: nat, a: nat, bytes: nat, digest: ContentDigest)
    requires CoreOk(s) && Active(s) && IsCurrent(s, p, a) && IsAcked(s.attempts[a])
    requires Position(s.shards, s.shards[p].index) == p && !Mismatched(s.shards[p], Verified, bytes, digest)
    ensures VerifyDiscipline(s, s.shards[p].index, Verified, bytes, digest) ==> CoreOk(Verify(s, p, a))
  {
    hide CoreOk, Verify, Mismatched, Position;
    if s.shards[p].transferred == s.shards[p].declared { VerifyOk(s, p, a); }
  }

  lemma DisciplinedTruncated(s: Session, p: nat, a: nat, bytes: nat, digest: ContentDigest)
    requires CoreOk(s) && Active(s) && IsCurrent(s, p, a)
    requires Position(s.shards, s.shards[p].index) == p && !Mismatched(s.shards[p], Truncated, bytes, digest)
    ensures VerifyDiscipline(s, s.shards[p].index, Truncated, bytes, digest) ==> CoreOk(Truncate(s, p, a))
  {
    hide CoreOk, Truncate, Mismatched, Position;
    if s.shards[p].verified == 0 { TruncateOk(s, p, a); }
  }

  lemma GrantKeeps(s: Session, p: nat, id: AttemptId, chunk: nat, bound: nat)
    requires p < |s.shards| && Active(s)
    ensures var t := Grant(s, p, id, chunk, bound);
            t == s.(attemptCounter := t.attemptCounter, attempts := t.attempts, shards := t.shards,
                    activeAttempts := s.activeAttempts + 1, state := t.state) && Active(t)
  {
  }

  lemma ContractFits(c: Contract)
    requires ContractValid(c)
    ensures c.ceiling < U64
  {
  }

  lemma ListedAre(index: map<nat, seq<SessionId>>, sessions: map<SessionId, Session>, key: Session -> nat, k: nat)
    requires IndexAgrees(index, sessions, key)
    ensures forall id :: id in ListAt(index, k) <==> id in sessions && key(sessions[id]) == k
  {
  }

  /** Bytes granted to attempts whose fate is unknown. */
  method AtRisk(attempts: seq<Attempt>) returns (risk: nat)
    ensures risk == SeqTotal(attempts, AtRiskOf)
  {
    risk := 0;
    for i := 0 to |attempts|
      invariant risk + SeqTotal(attempts[i..], AtRiskOf) == SeqTotal(attempts, AtRiskOf)
    {
      assert attempts[i..][1..] == attempts[i + 1..];
      if attempts[i].outstanding {
        risk := risk + if attempts[i].granted > attempts[i].delivered then attempts[i].granted - attempts[i].delivered else 0;
      }
    }
  }

  /** Attempts that were under way become ambiguous, and none stays outstanding. */
  method Doubtful(attempts: seq<Attempt>) returns (r: seq<Attempt>)
    ensures r == RestartAttempts(attempts)
  {
    r := attempts;
    for i := 0 to |attempts|
      invariant |r| == |attempts|
      invariant forall k :: 0 <= k < i ==> r[k] == RestartAttempt(attempts[k])
      invariant forall k :: i <= k < |attempts| ==> r[k] == attempts[k]
    {
      if r[i].outcome.OutcomeGranted? || r[i].outcome.OutcomeInFlight? || r[i].outcome.OutcomeDeliveredUnacked? {
        r := r[i := r[i].(outcome := OutcomeAmbiguous)];
      }
      r := r[i := r[i].(outstanding := false)];
    }
  }

  /** Shards that were under way are transferable again. */
  method Reopened(shards: seq<Shard>) returns (r: seq<Shard>)
    ensures r == RestartShards(shards)
  {
    r := shards;
    for i := 0 to |shards|
      invariant |r| == |shards|
      invariant forall k :: 0 <= k < i ==> r[k] == RestartShard(shards[k])
      invariant forall k :: i <= k < |shards| ==> r[k] == shards[k]
    {
      if r[i].state.ShardGranted? || r[i].state.ShardInFlight? {
        r := r[i := r[i].(state := ShardPending, sequence := 0, attempt := None, granted := 0)];
      }
    }
  }

  lemma ForgetStep(f: Fabric)
    ensures |f.commandOrder| <= f.commandBound ==> Forget(f) == f
    ensures |f.commandOrder| > f.commandBound ==>
              Forget(f) == Forget(f.(commands := f.commands - {f.commandOrder[0]}, commandOrder := f.commandOrder[1..]))
  {
  }

  lemma ListedOnce(index: map<nat, seq<SessionId>>, sessions: map<SessionId, Session>, key: Session -> nat, k: nat)
    requires IndexAgrees(index, sessions, key)
    ensures NoDuplicates(ListAt(index, k))
  {
  }

  /** The active session of a checkpoint is unique, and no retained one is newer. */
  lemma OnlyRival(sessions: map<SessionId, Session>, c: CheckpointId, id: SessionId)
    requires OneActive(sessions) && IsRival(sessions, c, id)
    ensures Rival(sessions, c) == Some(id)
    ensures !NewerRetained(sessions, c, sessions[id].request.checkpointGeneration)
  {
    var other := Rival(sessions, c);
    assert other.Some?;
    assert other.value == id;
  }

  /** What a pass over the sessions of a checkpoint finds. */
  ghost predicate TableScan(sessions: map<SessionId, Session>, r: Request, found: Option<Judgement>, targets: seq<SessionId>) {
    var rival := Rival(sessions, r.checkpoint);
    var newer := NewerRetained(sessions, r.checkpoint, r.checkpointGeneration);
    var same := rival.Some? && sessions[rival.value].request.checkpointGeneration == r.checkpointGeneration;
    match found
    case Some(j) =>
      && (newer || same)
      && j == (if newer then DenyIt(CheckpointGenerationStale)
               else if same && ManifestsEquivalent(sessions[rival.value].request.manifest, r.manifest) then SameAs(rival.value)
               else DenyIt(ManifestMismatch))
    case None => !newer && !same && targets == match rival case Some(id) => [id] case None => []
  }

  /** No path carries more than before. */
  predicate Eased(before: map<PathId, nat>, after: map<PathId, nat>) {
    forall p :: p in after ==> after[p] <= CountAt(before, p)
  }

  lemma SupersedeKeys(f: Fabric, c: CheckpointId, newer: SessionId)
    requires Good(f)
    ensures Supersede(f, c, newer).sessions.Keys <= f.sessions.Keys
  {
    hide Good, Supersede;
    SupersedeGood(f, c, newer);
  }

  lemma NewSessionBooks(r: Request, k: IsolationClass, path: PathId, rate: nat, deadline: Nanos)
    ensures var t := NewSession(r, k, path, rate, deadline);
            && Active(t) && t.request == r && t.reserved == Some(Reservation(path, rate)) && t.activeAttempts == 0
            && t.ledger == Ledger(r.manifest.total, 0, 0, 0, 0, 0, r.manifest.total) && t.envelope.deadline == deadline
  {
  }

  lemma UnproveNothing(s: Session)
    ensures Unprove(s, 0) == s
  {
  }

  lemma ReplanFits(f: Fabric, id: SessionId)
    requires Good(f) && id in f.sessions
    requires var s := f.sessions[id]; s.request.workload in f.contracts && s.envelope.isolation in f.policy.envelopes
    requires PathOf(f.topology, f.sessions[id].envelope.path).Some?
    requires PlanAgain(f, f.sessions[id]).Rate?
    ensures PlanAgain(f, f.sessions[id]).bps + Total(f.sessions, RateOn(f.sessions[id].envelope.path)) < U64
  {
    hide CeilRate, SessionsOk, OneActive, ReplayOk, HistoryOk, CompletionOk, ArchiveOk, Contracted, DeadlinesBut;
  }

  lemma IndexKnown(index: map<nat, seq<SessionId>>, sessions: map<SessionId, Session>, key: Session -> nat)
    requires IndexAgrees(index, sessions, key)
    ensures Known(index, sessions) && Total(index, Entries) == |sessions|
  {
  }

  lemma RecordPasses(s: Session, require: bool)
    requires SessionOk(s) && (require && s.state.TrafficSessionComplete? ==> AllVerified(s.shards))
    ensures RecordAudited(s, require)
  {
    hide ShardsSound, AttemptsSound, RunningLedger;
  }

  lemma RecordsPass(f: Fabric)
    requires Good(f)
    ensures forall id :: id in f.sessions ==> RecordAudited(f.sessions[id], f.policy.requireVerification)
  {
    hide SessionOk, RecordAudited, AllVerified;
    forall id | id in f.sessions ensures RecordAudited(f.sessions[id], f.policy.requireVerification) {
      assert SessionOk(f.sessions[id]);
      RecordPasses(f.sessions[id], f.policy.requireVerification);
    }
  }

  lemma {:induction false} KeysFit<T>(keys: set<T>, order: seq<T>)
    requires forall k :: k in keys ==> k in order
    ensures |keys| <= |order|
    decreases order
  {
    if order == [] {
      assert keys == {};
    } else {
      KeysFit(keys - {order[0]}, order[1..]);
      assert keys <= keys - {order[0]} + {order[0]};
    }
  }

  lemma MemoryBounded(f: Fabric)
    requires Good(f)
    ensures |f.commands| <= f.commandBound
  {
    hide SessionsOk, OneActive, HistoryOk, CompletionOk, ArchiveOk, Contracted, Provisioned, DeadlinesBut;
    KeysFit(f.commands.Keys, f.commandOrder);
  }

  lemma RivalsUnique(f: Fabric)
    requires Good(f)
    ensures OneActive(f.sessions)
  {
  }

  lemma ExpireKeys(f: Fabric, at: Nanos)
    requires Good(f)
    ensures Expire(f, at).sessions.Keys <= f.sessions.Keys
  {
    hide Good, Expire;
    ExpireIsScan(f, at);
  }

  lemma AgreedReservation(reservations: map<PathId, nat>, sessions: map<SessionId, Session>, path: PathId)
    requires ReservationsAgree(reservations, sessions)
    ensures Total(sessions, RateOn(path)) == if path in reservations then reservations[path] else 0
  {
    assert CountAt(reservations, path) == Total(sessions, RateOn(path));
  }

  lemma EmptyIndex(key: Session -> nat)
    ensures IndexAgrees(map[], map[], key)
  {
  }

  lemma EvictStep(f: Fabric, target: nat)
    requires |f.sessions| > target && f.terminalOrder != []
    ensures Evict(f, target) == Evict(EvictOldest(f), target)
  {
  }

  lemma EvictShrinks(f: Fabric)
    requires f.terminalOrder != []
    ensures EvictOldest(f).terminalOrder == f.terminalOrder[1..]
  {
  }

  /** Evicting terminal sessions changes no count of active ones. */
  lemma {:induction false} EvictKeepsActive(f: Fabric, target: nat)
    ensures Total(Evict(f, target).sessions, ActiveOne) == Total(f.sessions, ActiveOne)
    decreases |f.terminalOrder|
  {
    if |f.sessions| > target && f.terminalOrder != [] {
      var id := f.terminalOrder[0];
      if id in f.sessions { TotalRemove(f.sessions, id, ActiveOne); }
      EvictKeepsActive(EvictOldest(f), target);
    }
  }

  lemma PruneKeepsActive(f: Fabric)
    ensures Total(Prune(f).sessions, ActiveOne) == Total(f.sessions, ActiveOne)
  {
    EvictKeepsActive(f, f.retentionBound * 3 / 4);
  }

  lemma EvictDone(f: Fabric, target: nat)
    requires |f.sessions| <= target || f.terminalOrder == []
    ensures Evict(f, target) == f
  {
  }
}
