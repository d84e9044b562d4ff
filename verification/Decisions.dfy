/** Which submissions are admitted, deferred and denied, in terms of what is in force and what is retained. */
module Decisions {
  import opened Sums
  import opened Model
  import opened Sessions
  import opened Shaper
  import opened Rates
  import opened Spec
  import opened Invariants
  import opened Commands
  import opened Runs
  import opened Theorems
  import opened Departures
  import opened Steps

  // ------------------------------------------------------------ eligibility

  /** The stricter of two classes, in the order from training-critical to best-effort. */
  predicate Stricter(k: IsolationClass, a: IsolationClass, b: IsolationClass) {
    k == if a.TrainingCritical? || b.TrainingCritical? then TrainingCritical
         else if a.ServingLatency? || b.ServingLatency? then ServingLatency
         else if a.TrainingBulk? || b.TrainingBulk? then TrainingBulk
         else BestEffort
  }

  /** The path class of least identity among those that reach the destination. */
  predicate LeadsTo(t: Topology, destination: Destination, path: PathClass) {
    && path in t.paths && path.destination == destination
    && forall q :: q in t.paths && q.destination == destination ==> path.id <= q.id
  }

  /** Each path class that a shard asks for reaches the destination. */
  predicate PathsServe(t: Topology, r: Request) {
    forall i :: 0 <= i < |r.manifest.shards| && r.manifest.shards[i].path != 0 ==>
      exists q :: q in t.paths && q.id == r.manifest.shards[i].path && q.destination == r.destination
  }

  /** What the request is checked for before the session table is looked at. */
  predicate WellPlaced(f: Fabric, r: Request, k: IsolationClass, path: PathClass) {
    && !f.shuttingDown && r.workload in f.contracts
    && var c, m := f.contracts[r.workload], r.manifest;
       && r.contractGeneration == c.generation
       && ManifestValid(m, f.limits)
       && m.checkpoint == r.checkpoint && m.generation == r.checkpointGeneration
       && m.workload == r.workload && m.contractGeneration == r.contractGeneration
       && Stricter(k, r.isolation, c.isolation) && k in f.policy.envelopes
       && LeadsTo(f.topology, r.destination, path) && PathsServe(f.topology, r)
  }

  /** No session of the checkpoint is of this generation or a later one, and a running one may be superseded. */
  predicate Supersedes(f: Fabric, r: Request)
    requires r.workload in f.contracts
  {
    forall id :: id in f.sessions && f.sessions[id].request.checkpoint == r.checkpoint ==>
      && f.sessions[id].request.checkpointGeneration <= r.checkpointGeneration
      && (!IsTerminal(f.sessions[id].state) ==>
            && f.sessions[id].request.checkpointGeneration < r.checkpointGeneration
            && f.contracts[r.workload].allowSupersession && f.limits.maxSupersessionChain >= 1)
  }

  /** The request may be admitted once there is room. */
  predicate Eligible(f: Fabric, r: Request, k: IsolationClass, path: PathClass) {
    WellPlaced(f, r, k, path) && Supersedes(f, r) && r.manifest.total <= f.policy.maxSessionBytes
  }

  /** The same content of the same generation is already on its way. */
  predicate Duplicate(f: Fabric, r: Request, k: IsolationClass, path: PathClass, id: SessionId) {
    && WellPlaced(f, r, k, path)
    && id in f.sessions && !IsTerminal(f.sessions[id].state)
    && f.sessions[id].request.checkpoint == r.checkpoint
    && f.sessions[id].request.checkpointGeneration == r.checkpointGeneration
    && var m := f.sessions[id].request.manifest;
       && m.checkpoint == r.manifest.checkpoint && m.generation == r.manifest.generation && m.workload == r.manifest.workload
       && m.contractGeneration == r.manifest.contractGeneration && m.total == r.manifest.total && m.shards == r.manifest.shards
  }

  /** The fabric, the workload and the class each have a seat left. */
  ghost predicate Seated(f: Fabric, r: Request, k: IsolationClass)
    requires r.workload in f.contracts && k in f.policy.envelopes
  {
    && Total(f.sessions, ActiveOne) < f.policy.maxSessions
    && Total(f.sessions, ActiveForWorkload(r.workload)) < f.contracts[r.workload].maxSessions
    && Total(f.sessions, ActiveInClass(k)) < f.policy.envelopes[k].maxSessions
  }

  // ------------------------------------------------------------ the decision

  lemma IsolateExact(r: Request, c: Contract, k: IsolationClass)
    ensures Stricter(k, r.isolation, c.isolation) <==> k == Isolate(r, c)
  {
  }

  lemma PathOfExact(t: Topology, limits: Limits, path: PathClass)
    requires TopologyValid(t, limits) && path in t.paths
    ensures PathOf(t, path.id) == Some(path)
  {
  }

  lemma DefaultExact(t: Topology, limits: Limits, destination: Destination, path: PathClass)
    requires TopologyValid(t, limits)
    ensures var best := DefaultPath(t, destination);
            LeadsTo(t, destination, path) <==> best.Some? && PathOf(t, best.value) == Some(path)
  {
    hide TopologyValid;
    var best := DefaultPath(t, destination);
    if LeadsTo(t, destination, path) {
      assert IsDefaultPath(t, destination, Some(path.id)) by { LeadsDefault(t, destination, path); }
      DefaultPathUnique(t, destination, best, Some(path.id));
      PathOfExact(t, limits, path);
    } else if best.Some? {
      var i :| 0 <= i < |t.paths| && t.paths[i].id == best.value && t.paths[i].destination == destination;
      PathOfExact(t, limits, t.paths[i]);
      assert LeadsTo(t, destination, t.paths[i]);
    }
  }

  lemma LeadsDefault(t: Topology, destination: Destination, path: PathClass)
    requires LeadsTo(t, destination, path)
    ensures IsDefaultPath(t, destination, Some(path.id))
  {
    var i :| 0 <= i < |t.paths| && t.paths[i] == path;
    assert Serves(t, path.id, destination);
  }

  lemma PathsExact(t: Topology, limits: Limits, r: Request)
    requires TopologyValid(t, limits)
    ensures ShardPathsPermitted(t, r) <==> PathsServe(t, r)
  {
    hide TopologyValid;
    forall q | q in t.paths ensures PathOf(t, q.id) == Some(q) { PathOfExact(t, limits, q); }
  }

  /** The checks that do not look at the session table single out one class and one path, or end in a denial. */
  lemma PlacedExact(f: Fabric, r: Request)
    requires TopologyValid(f.topology, f.limits)
    ensures forall k, path :: WellPlaced(f, r, k, path) ==>
              r.workload in f.contracts && k in f.policy.envelopes && Judge(f, r) == JudgeAgainstTable(f, r, f.contracts[r.workload], k, path)
    ensures (forall k, path :: !WellPlaced(f, r, k, path)) ==> Judge(f, r).DenyIt?
  {
    hide TopologyValid, ManifestValid, JudgeAgainstTable, DefaultPath, LeadsTo, Stricter, Isolate, PathsServe, ShardPathsPermitted;
    forall path ensures var best := DefaultPath(f.topology, r.destination);
                        LeadsTo(f.topology, r.destination, path) <==> best.Some? && PathOf(f.topology, best.value) == Some(path)
    {
      DefaultExact(f.topology, f.limits, r.destination, path);
    }
    PathsExact(f.topology, f.limits, r);
    if r.workload in f.contracts {
      var c := f.contracts[r.workload];
      forall k ensures Stricter(k, r.isolation, c.isolation) <==> k == Isolate(r, c) { IsolateExact(r, c, k); }
      if !Judge(f, r).DenyIt? {
        var best := DefaultPath(f.topology, r.destination);
        assert best.Some? ==> PathOf(f.topology, best.value).Some? ==> WellPlaced(f, r, Isolate(r, c), PathOf(f.topology, best.value).value);
      }
    }
  }

  lemma TableExact(f: Fabric, r: Request, k: IsolationClass, path: PathClass)
    requires OneActive(f.sessions) && r.workload in f.contracts && k in f.policy.envelopes
    ensures var c, j := f.contracts[r.workload], JudgeAgainstTable(f, r, f.contracts[r.workload], k, path);
            && (Supersedes(f, r) && r.manifest.total <= f.policy.maxSessionBytes ==> j == JudgeCapacity(f, r, c, k, path))
            && (!Supersedes(f, r) || r.manifest.total > f.policy.maxSessionBytes ==> j.DenyIt? || j.SameAs?)
            && (j.SameAs? ==>
                  && j.existing in f.sessions && !IsTerminal(f.sessions[j.existing].state)
                  && f.sessions[j.existing].request.checkpoint == r.checkpoint
                  && f.sessions[j.existing].request.checkpointGeneration == r.checkpointGeneration
                  && ManifestsEquivalent(f.sessions[j.existing].request.manifest, r.manifest))
  {
    hide JudgeCapacity, ManifestsEquivalent, Seated, PlanRate;
    CapacityExact(f, r, k, path);
    var rival := Rival(f.sessions, r.checkpoint);
    if rival.Some? { assert IsRival(f.sessions, r.checkpoint, rival.value); }
    forall id | id in f.sessions && f.sessions[id].request.checkpoint == r.checkpoint && Active(f.sessions[id]) ensures rival == Some(id) {
      assert IsRival(f.sessions, r.checkpoint, id);
    }
    if !NewerRetained(f.sessions, r.checkpoint, r.checkpointGeneration) {
      forall id | id in f.sessions && f.sessions[id].request.checkpoint == r.checkpoint
        ensures f.sessions[id].request.checkpointGeneration <= r.checkpointGeneration
      {
        assert ForCheckpoint(f.sessions[id], r.checkpoint);
      }
    }
  }

  lemma TwinExact(f: Fabric, r: Request, k: IsolationClass, path: PathClass, id: SessionId)
    requires OneActive(f.sessions) && r.workload in f.contracts && k in f.policy.envelopes
    requires Duplicate(f, r, k, path, id)
    ensures JudgeAgainstTable(f, r, f.contracts[r.workload], k, path) == SameAs(id)
  {
    hide JudgeCapacity, ManifestValid, LeadsTo, PathsServe, Stricter;
    var rival := Rival(f.sessions, r.checkpoint);
    assert IsRival(f.sessions, r.checkpoint, id);
    assert IsRival(f.sessions, r.checkpoint, rival.value);
    assert rival == Some(id);
  }

  /** Exactly which requests are admitted, recognised, deferred and denied. */
  lemma JudgeExact(f: Fabric, r: Request, k: IsolationClass, path: PathClass, id: SessionId)
    requires Good(f)
    ensures Eligible(f, r, k, path) ==>
              var c, e := f.contracts[r.workload], f.policy.envelopes[k];
              var plan := PlanRate(r, c, e, path, Total(f.sessions, RateOn(path.id)));
              if !Seated(f, r, k) then Judge(f, r).DeferIt?
              else match plan
                   case Rate(bps) => Judge(f, r) == Accept(k, path.id, bps)
                   case NoRate(RequestedRateUnsupported) => Judge(f, r) == DenyIt(plan.reason)
                   case NoRate(DeadlineUnreachable) => Judge(f, r) == DenyIt(plan.reason)
                   case NoRate(_) => Judge(f, r) == DeferIt(plan.reason)
    ensures Duplicate(f, r, k, path, id) ==> Judge(f, r) == SameAs(id)
    ensures (forall q, p :: !Eligible(f, r, q, p)) && (forall q, p, t :: !Duplicate(f, r, q, p, t)) ==> Judge(f, r).DenyIt?
  {
    hide Good, Judge, JudgeAgainstTable, JudgeCapacity, WellPlaced, Supersedes, Seated, PlanRate, OneActive;
    GoodTable(f);
    PlacedExact(f, r);
    if WellPlaced(f, r, k, path) {
      TableExact(f, r, k, path);
      if Duplicate(f, r, k, path, id) { TwinExact(f, r, k, path, id); }
      CapacityExact(f, r, k, path);
    }
    if (forall q, p :: !Eligible(f, r, q, p)) && (forall q, p, t :: !Duplicate(f, r, q, p, t)) {
      if q, p :| WellPlaced(f, r, q, p) {
        TableExact(f, r, q, p);
        var j := JudgeAgainstTable(f, r, f.contracts[r.workload], q, p);
        assert !Eligible(f, r, q, p);
        assert j.SameAs? ==> Duplicate(f, r, q, p, j.existing);
      }
    }
  }

  lemma GoodTable(f: Fabric)
    requires Good(f)
    ensures OneActive(f.sessions) && TopologyValid(f.topology, f.limits)
  {
    hide SessionsOk, ReplayOk, HistoryOk, CompletionOk, ArchiveOk, Contracted, DeadlinesBut;
  }

  lemma CapacityExact(f: Fabric, r: Request, k: IsolationClass, path: PathClass)
    requires r.workload in f.contracts && k in f.policy.envelopes
    ensures var c, e := f.contracts[r.workload], f.policy.envelopes[k];
            var plan := PlanRate(r, c, e, path, Total(f.sessions, RateOn(path.id)));
            var j := JudgeCapacity(f, r, c, k, path);
            if !Seated(f, r, k) then j.DeferIt?
            else match plan
                 case Rate(bps) => j == Accept(k, path.id, bps)
                 case NoRate(RequestedRateUnsupported) => j == DenyIt(plan.reason)
                 case NoRate(DeadlineUnreachable) => j == DenyIt(plan.reason)
                 case NoRate(_) => j == DeferIt(plan.reason)
  {
    hide PlanRate, Total, RateOn, ActiveOne, ActiveForWorkload, ActiveInClass;
  }

  // ------------------------------------------------------------ the command

  /** The fence names the fabric in force, and the request was made under the same generations. */
  predicate Presented(f: Fabric, r: Request, fence: Fence) {
    && fence.epoch == f.epoch && fence.policy == f.policy.generation && fence.topology == f.topology.generation
    && r.policyGeneration == fence.policy && r.topologyGeneration == fence.topology && r.contractGeneration == fence.contract
  }

  /** A session as admission creates it: everything is authorised, nothing is sent. */
  predicate Fresh(t: Session, r: Request, k: IsolationClass, path: PathId, rate: nat, deadline: Nanos) {
    && t.request == r && t.state.Admitted? && t.evidence.NoEvidence?
    && t.envelope == Envelope(k, rate, path, deadline) && t.envelopeSequence == 1 && t.attemptCounter == 0
    && t.reserved == Some(Reservation(path, rate)) && t.supersededBy.None? && !t.paused && !t.sourceComplete
    && t.attempts == [] && t.activeAttempts == 0
    && t.ledger == Ledger(r.manifest.total, 0, 0, 0, 0, 0, r.manifest.total)
    && |t.shards| == |r.manifest.shards|
    && forall i :: 0 <= i < |t.shards| ==>
         var d := r.manifest.shards[i];
         t.shards[i] == Shard(d.index, d.declared, d.digest, ShardPending, 0, None, 0, 0, 0, false, 0)
  }

  /** A session as a newer one leaves it: unverified bytes are wasted, outstanding ones will never be proven. */
  predicate Displaced(s: Session, newer: SessionId, t: Session) {
    && t.state.Superseded? && t.supersededBy == Some(newer) && t.reserved.None? && t.activeAttempts == 0 && !t.paused
    && t.request == s.request && t.shards == s.shards && t.evidence == s.evidence && t.envelope == s.envelope
    && |t.attempts| == |s.attempts|
    && (forall a :: 0 <= a < |t.attempts| ==>
          t.attempts[a] == if s.attempts[a].outstanding then s.attempts[a].(outstanding := false, outcome := OutcomeSuperseded) else s.attempts[a])
    && s.ledger.verified <= s.ledger.transferred
    && t.ledger == Ledger(s.ledger.admitted, s.ledger.verified, s.ledger.verified, s.ledger.cancelled,
                          s.ledger.wasted + (s.ledger.transferred - s.ledger.verified), s.ledger.unproven + s.ledger.outstanding, 0)
  }

  /** The table after an admission: the new session, the one it displaced, and the others as they were. */
  predicate Opened(f: Fabric, r: Request, id: SessionId, k: IsolationClass, path: PathId, rate: nat, deadline: Nanos, table: map<SessionId, Session>) {
    && id in table && Fresh(table[id], r, k, path, rate, deadline)
    && forall x :: x in table && x != id ==>
         && x in f.sessions
         && if f.sessions[x].request.checkpoint == r.checkpoint && !IsTerminal(f.sessions[x].state)
            then Displaced(f.sessions[x], id, table[x]) else table[x] == f.sessions[x]
  }

  lemma FreshSession(r: Request, k: IsolationClass, path: PathId, rate: nat, deadline: Nanos)
    ensures Fresh(NewSession(r, k, path, rate, deadline), r, k, path, rate, deadline)
  {
  }

  lemma DisplacedSession(s: Session, newer: SessionId)
    requires CoreOk(s)
    ensures Displaced(s, newer, SupersededSession(s, newer))
  {
    hide Shaped, ShardsSound, AttemptsSound, RunningLedger;
  }

  lemma AdmitOpens(f: Fabric, r: Request, id: SessionId, k: IsolationClass, path: PathId, rate: nat, deadline: Nanos)
    requires Good(f) && id !in f.sessions
    ensures Opened(f, r, id, k, path, rate, deadline, AdmitNew(f, r, id, k, path, rate, deadline).sessions)
  {
    hide Good, Store, Fresh, Displaced, NewSession, SupersededSession, IndexDeadline, SessionOk, CoreOk;
    FreshSession(r, k, path, rate, deadline);
    var rival := Rival(f.sessions, r.checkpoint);
    var g := AdmitNew(f, r, id, k, path, rate, deadline);
    if rival.Some? {
      assert IsRival(f.sessions, r.checkpoint, rival.value);
      SessionSound(f, rival.value);
      DisplacedSession(f.sessions[rival.value], id);
    }
    forall x | x in g.sessions && x != id
      ensures x in f.sessions
      ensures if f.sessions[x].request.checkpoint == r.checkpoint && !IsTerminal(f.sessions[x].state)
              then Displaced(f.sessions[x], id, g.sessions[x]) else g.sessions[x] == f.sessions[x]
    {
      if rival.Some? { StoredOther(f, rival.value, SupersededSession(f.sessions[rival.value], id), x); OnlyRival(f, r.checkpoint, x); }
      else { assert x in f.sessions ==> !IsRival(f.sessions, r.checkpoint, x); }
    }
  }

  lemma OnlyRival(f: Fabric, c: CheckpointId, x: SessionId)
    requires Good(f)
    ensures IsRival(f.sessions, c, x) ==> Rival(f.sessions, c) == Some(x)
  {
    hide TopologyValid;
    GoodTable(f);
    var rival := Rival(f.sessions, c);
    if IsRival(f.sessions, c, x) { assert IsRival(f.sessions, c, rival.value); }
  }

  /** Everything a submission can come to. An admission opens a session in the stricter of the two classes, on the
  least path to the destination, at the planned rate and with the deadline counted from now, and displaces the
  running session of an older generation; nothing else moves a session. */
  lemma SubmissionDecides(f: Fabric, c: Command, at: Nanos, k: IsolationClass, path: PathClass, twin: SessionId)
    requires Good(f) && c.SubmitCmd? && c.id !in f.sessions
    ensures var h, r, o := Expire(f, at), c.request, Step(f, c, at);
            if !Presented(h, r, c.fence) then o.0 == h && o.1.Refused?
            else if r.command in h.commands then
              var record := h.commands[r.command];
              o == (h, if record.fingerprint == c.fingerprint then Replayed(record.kind, record.session) else Refused(ReplayDetected))
            else
              && o.1.Decided?
              && (Duplicate(h, r, k, path, twin) ==> o.1 == Decided(Admit, None, Some(twin)) && o.0.sessions == h.sessions)
              && (Eligible(h, r, k, path) ==>
                    var plan := PlanRate(r, h.contracts[r.workload], h.policy.envelopes[k], path, Total(h.sessions, RateOn(path.id)));
                    if Seated(h, r, k) && plan.Rate? then
                      && o.1 == Decided(Admit, None, Some(c.id))
                      && Opened(h, r, c.id, k, path.id, plan.bps,
                                at + (if r.horizon > 0 then r.horizon else h.contracts[r.workload].deadlineBudget), o.0.sessions)
                    else
                      && o.0.sessions == h.sessions
                      && o.1.kind == (if Seated(h, r, k) && (plan.reason.RequestedRateUnsupported? || plan.reason.DeadlineUnreachable?)
                                      then Deny else Defer))
              && ((forall q, p :: !Eligible(h, r, q, p)) && (forall q, p, t :: !Duplicate(h, r, q, p, t)) ==>
                    o.1.kind == Deny && o.0.sessions == h.sessions)
  {
    hide Good, Expire, Aged, Judge, Eligible, Duplicate, Seated, PlanRate, Opened, AdmitNew, Remember, FabricFence, Total, RateOn, TableFollows;
    ExpireIsScan(f, at);
    ExpireFollows(f, at);
    var h, r := Expire(f, at), c.request;
    assert FabricFence(h, c.fence).None? <==>
           c.fence.epoch == h.epoch && c.fence.policy == h.policy.generation && c.fence.topology == h.topology.generation by {
      FabricFenceNames(h, c.fence);
    }
    JudgeExact(h, r, k, path, twin);
    if Eligible(h, r, k, path) {
      EligibleKnown(h, r, k, path);
      var plan := PlanRate(r, h.contracts[r.workload], h.policy.envelopes[k], path, Total(h.sessions, RateOn(path.id)));
      if plan.Rate? { AdmitOpens(h, r, c.id, k, path.id, plan.bps, at + Horizon(r, h.contracts[r.workload])); }
    }
  }

  lemma FabricFenceNames(f: Fabric, fence: Fence)
    ensures FabricFence(f, fence).None? <==>
            fence.epoch == f.epoch && fence.policy == f.policy.generation && fence.topology == f.topology.generation
  {
    FenceAcceptsExactly(fence, AuthorityOf(f, fence.contract));
  }

  lemma EligibleKnown(f: Fabric, r: Request, k: IsolationClass, path: PathClass)
    requires Eligible(f, r, k, path)
    ensures r.workload in f.contracts && k in f.policy.envelopes
  {
  }

  // ------------------------------------------------------------------- runs

  /** A submission that displaces a session is eligible, and its contract allows that. */
  lemma SupersessionPermitted(f: Fabric, c: Command, at: Nanos, id: SessionId)
    requires Good(f) && c.SubmitCmd? && c.id !in f.sessions
    requires id in Expire(f, at).sessions && id in Step(f, c, at).0.sessions && Step(f, c, at).0.sessions[id] != Expire(f, at).sessions[id]
    ensures Permits(Expire(f, at), c.request, Expire(f, at).sessions[id])
    ensures Step(f, c, at).1 == Decided(Admit, None, Some(c.id))
  {
    hide Good, Expire, Step, TableFollows, Duplicate, Seated, PlanRate, Presented, Total, RateOn, WellPlaced, Fresh, Displaced;
    ExpireFollows(f, at);
    var h, r := Expire(f, at), c.request;
    if q, path :| Eligible(h, r, q, path) {
      EligibleKnown(h, r, q, path);
      SubmissionDecides(f, c, at, q, path, 0);
    } else if q, path, twin :| Duplicate(h, r, q, path, twin) {
      SubmissionDecides(f, c, at, q, path, twin);
    } else {
      SubmissionDecides(f, c, at, TrainingCritical, PathClass(0, SyntheticLab, 0), 0);
    }
  }

  /** The request is a newer generation of the session's checkpoint, under a contract that allows supersession. */
  predicate Permits(f: Fabric, r: Request, s: Session) {
    && r.workload in f.contracts && f.contracts[r.workload].allowSupersession && f.limits.maxSupersessionChain >= 1
    && r.checkpoint == s.request.checkpoint && s.request.checkpointGeneration < r.checkpointGeneration
  }

  lemma NotDisplaced(s: Session)
    ensures !Settle(s, Failed).state.Superseded? && !Expired(s).state.Superseded?
    ensures !Settle(CancelOutstanding(s), Model.Cancelled).state.Superseded?
    ensures !s.state.Superseded? ==> !Demand(s).state.Superseded? && !Restarted(s).state.Superseded?
  {
  }

  lemma ProgressNotDisplaced(s: Session, required: bool)
    requires !s.state.Superseded?
    ensures !Progress(s, required).state.Superseded?
  {
  }

  lemma TransferNotDisplaced(s: Session, c: Command, required: bool, t: Session)
    requires c.TransferCmd? && Transfers(s, c, required, t)
    ensures !t.state.Superseded?
  {
    hide Progress, Position, AttemptPosition;
    var p, a := Position(s.shards, c.shard), AttemptPosition(s.attempts, c.attempt);
    ProgressNotDisplaced(Unacknowledged(Observe(s, a, c.bytes), a), required);
    if c.bytes - s.attempts[a].delivered <= s.ledger.outstanding {
      ProgressNotDisplaced(Acknowledge(Observe(s, a, c.bytes), p, a, c.bytes - s.attempts[a].delivered), required);
    }
  }

  lemma VerdictNotDisplaced(s: Session, c: Command, o: Outcome, required: bool, t: Session)
    requires c.VerifyCmd? && Judges(s, c, o, required, t)
    ensures !t.state.Superseded?
  {
    hide Progress, Position, AttemptPosition, NamesContent;
    var p, a := Position(s.shards, c.shard), AttemptPosition(s.attempts, c.attempt);
    ProgressNotDisplaced(Verify(s, p, a), required);
    ProgressNotDisplaced(Truncate(s, p, a), required);
    ProgressNotDisplaced(Doubt(s, p, a), required);
  }

  /** Only a submission displaces a session. */
  lemma BecomesDisplaced(h: Fabric, c: Command, o: Outcome, id: SessionId, s: Session, t: Session)
    requires Becomes(h, c, o, id, s, t) && !s.state.Superseded? && !s.pausedFrom.Superseded? && t.state.Superseded?
    ensures c.SubmitCmd?
  {
    hide Progress, Settle, Position, AttemptPosition, TimelineBound, Transfers, Judges, SupersededSession, Expired, CancelOutstanding,
      Restarted, Demand;
    NotDisplaced(s);
    match c
    case TransferCmd(_, _, _, _, _, _, _) => TransferNotDisplaced(s, c, h.policy.requireVerification, t);
    case VerifyCmd(_, _, _, _, _, _, _, _) => VerdictNotDisplaced(s, c, o, h.policy.requireVerification, t);
    case AmbiguousCmd(_, attempt, _, _) => ProgressNotDisplaced(Disown(s, AttemptPosition(s.attempts, attempt)), h.policy.requireVerification);
    case SourceCmd(_, shard, bytes, _) =>
      ProgressNotDisplaced(NoteSource(s, Position(s.shards, shard), bytes), h.policy.requireVerification);
    case _ =>
  }

  /** In every run a session is superseded only by the submission of a newer generation of its checkpoint whose contract
  allows it. */
  lemma SupersededByPermission(states: seq<Fabric>, events: seq<Event>, start: Nanos, k: nat, id: SessionId)
    requires Run(states, events, start) && k < |events| && id in states[k].sessions && id in states[k + 1].sessions
    requires !states[k].sessions[id].state.Superseded? && states[k + 1].sessions[id].state.Superseded?
    ensures events[k].command.SubmitCmd? && Permits(states[k], events[k].command.request, states[k].sessions[id])
  {
    hide Good, Initial, Step, Becomes, Expired, Expire, WaveGate, Gate, EvidenceGate, CoreOk, SessionOk, Advances, Aged;
    RunStaysGood(states, events, start, k);
    assert Linked(states[k], events[k], states[k + 1]);
    LinkBecomes(states, events, start, k, id);
    var s, t, c := states[k].sessions[id], states[k + 1].sessions[id], events[k].command;
    NotDisplaced(s);
    SessionSound(states[k], id);
    assert !s.pausedFrom.Superseded? by { PausedFromRunning(s); }
    BecomesDisplaced(Before(states, events, k), c, Answer(states, events, k), id, s, t);
    SupersessionPermitted(states[k], c, events[k].at, id);
  }

  lemma PausedFromRunning(s: Session)
    requires CoreOk(s)
    ensures !s.pausedFrom.Superseded?
  {
    hide Shaped, ShardsSound, AttemptsSound, RunningLedger;
  }

  lemma SubmissionClass(f: Fabric, c: Command, at: Nanos)
    requires Good(f) && c.SubmitCmd? && c.id !in f.sessions && c.id in Step(f, c, at).0.sessions
    ensures c.request.workload in f.contracts
    ensures Stricter(Step(f, c, at).0.sessions[c.id].envelope.isolation, c.request.isolation, f.contracts[c.request.workload].isolation)
  {
    hide Good, Expire, Step, TableFollows, Duplicate, Seated, PlanRate, Presented, Total, RateOn, Supersedes, Displaced, Stricter;
    ExpireFollows(f, at);
    var h, r := Expire(f, at), c.request;
    if q, path :| Eligible(h, r, q, path) {
      EligibleKnown(h, r, q, path);
      SubmissionDecides(f, c, at, q, path, 0);
    } else if q, path, twin :| Duplicate(h, r, q, path, twin) {
      SubmissionDecides(f, c, at, q, path, twin);
    } else {
      SubmissionDecides(f, c, at, TrainingCritical, PathClass(0, SyntheticLab, 0), 0);
    }
  }

  /** In every run a session runs, from its admission on, in the stricter of the class it asked for and the class of the
  contract it was admitted under. */
  lemma ClassNeverLaxer(states: seq<Fabric>, events: seq<Event>, start: Nanos, k: nat, j: nat, id: SessionId)
    requires Run(states, events, start) && k < j < |states| && id !in states[k].sessions && Retained(states, k + 1, j, id)
    ensures k < |events| && events[k].command.SubmitCmd? && events[k].command.request.workload in states[k].contracts
    ensures var r := events[k].command.request;
            Stricter(states[j].sessions[id].envelope.isolation, r.isolation, states[k].contracts[r.workload].isolation)
  {
    hide Good, Initial, Step, Expire, WaveGate, Gate, EvidenceGate, Stricter, Observed;
    RunStaysGood(states, events, start, k);
    assert Linked(states[k], events[k], states[k + 1]);
    assert id in states[k + 1].sessions;
    StepKeys(states[k], events[k].command, events[k].at);
    SubmissionClass(states[k], events[k].command, events[k].at);
    RunAdvances(states, events, start, k + 1, j, id);
  }
}
