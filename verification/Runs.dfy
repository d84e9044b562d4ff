/** Properties of whole runs: what no sequence of commands can undo. */
module Runs {
  import opened Sums
  import opened Model
  import opened Sessions
  import opened Shaper
  import opened Rates
  import opened Spec
  import opened Invariants
  import opened Commands

  // --------------------------------------------------- one session over time

  /** A session that can be granted no credit before it is revalidated (or ever). */
  predicate Held(s: Session) {
    || IsTerminal(s.state) || s.state.RevalidationRequired? || s.state.Deferred?
    || (s.state.Paused? && s.pausedFrom.Deferred?)
  }

  /** What never goes backwards in a session's record. */
  predicate Advances(s: Session, t: Session) {
    && t.request == s.request && t.envelope.isolation == s.envelope.isolation
    && s.ledger.admitted <= t.ledger.admitted
    && s.ledger.unproven <= t.ledger.unproven
    && s.ledger.wasted <= t.ledger.wasted
    && s.ledger.cancelled <= t.ledger.cancelled
    && s.envelopeSequence <= t.envelopeSequence
    && s.attemptCounter <= t.attemptCounter
    && (IsTerminal(s.state) ==> t == s)
  }

  predicate Follows(s: Session, t: Session) {
    && Advances(s, t)
    && (Held(s) ==> Held(t) && t.attemptCounter == s.attemptCounter)
    && (t.reserved == s.reserved || t.reserved.None?)
  }

  /** Every retained session follows from its earlier record. */
  predicate TableFollows(m: map<SessionId, Session>, n: map<SessionId, Session>) {
    forall id :: id in m && id in n ==> Follows(m[id], n[id])
  }

  lemma ProgressFollows(s: Session, t: Session, requireVerification: bool)
    requires Active(s) && SameStanding(s, t)
    requires s.ledger.admitted <= t.ledger.admitted && s.ledger.unproven <= t.ledger.unproven
    requires s.ledger.wasted <= t.ledger.wasted && s.ledger.cancelled <= t.ledger.cancelled
    requires t.envelopeSequence == s.envelopeSequence && t.attemptCounter == s.attemptCounter
    ensures Follows(s, Progress(t, requireVerification))
  {
    hide AllSettled, AllVerified, SomeUnresolved;
  }

  lemma StoreFollows(f: Fabric, id: SessionId, t: Session)
    requires id in f.sessions && Follows(f.sessions[id], t)
    requires Evicted(f.(sessions := f.sessions[id := t]), Store(f, id, t))
    ensures TableFollows(f.sessions, Store(f, id, t).sessions)
    ensures Store(f, id, t).sessions.Keys <= f.sessions.Keys
  {
    hide Store, Books;
    var g := Store(f, id, t);
    forall k | k in f.sessions && k in g.sessions ensures Follows(f.sessions[k], g.sessions[k]) {
      assert g.sessions[k] == f.sessions[id := t][k];
    }
  }

  lemma EvidenceFollows(f: Fabric, id: SessionId, t: Session)
    requires Good(f) && id in f.sessions && Active(f.sessions[id])
    requires CoreOk(t) && SameStanding(f.sessions[id], t)
    requires var s := f.sessions[id];
             && s.ledger.admitted <= t.ledger.admitted && s.ledger.unproven <= t.ledger.unproven
             && s.ledger.wasted <= t.ledger.wasted && s.ledger.cancelled <= t.ledger.cancelled
             && t.envelopeSequence == s.envelopeSequence && t.attemptCounter == s.attemptCounter
    ensures var g := Store(f, id, Progress(t, f.policy.requireVerification));
            TableFollows(f.sessions, g.sessions) && g.sessions.Keys <= f.sessions.Keys
  {
    hide Base, MayReplace, Store, CoreOk, Progress, SameStanding, Books, TableFollows, Follows;
    ProgressReplaces(f, id, t);
    ProgressFollows(f.sessions[id], t, f.policy.requireVerification);
    StoreGood(f, id, Progress(t, f.policy.requireVerification), [], 0);
    StoreFollows(f, id, Progress(t, f.policy.requireVerification));
  }

  lemma EndFollows(f: Fabric, id: SessionId, t: Session)
    requires Good(f) && id in f.sessions && Active(f.sessions[id])
    requires SessionOk(t) && !Active(t) && !t.state.TrafficSessionComplete? && Follows(f.sessions[id], t)
    ensures TableFollows(f.sessions, Store(f, id, t).sessions)
    ensures Store(f, id, t).sessions.Keys <= f.sessions.Keys
  {
    hide Good, Store, SessionOk, Books, TableFollows;
    StoreEvicts(f, id, t);
    StoreFollows(f, id, t);
  }

  lemma ExpireFollows(f: Fabric, at: Nanos)
    requires Good(f)
    ensures TableFollows(f.sessions, Expire(f, at).sessions)
    ensures Expire(f, at).sessions.Keys <= f.sessions.Keys
  {
    hide Good, Expire;
    ExpireIsScan(f, at);
  }

  lemma ReplaceFollows(f: Fabric, id: SessionId, t: Session)
    requires id in f.sessions && Follows(f.sessions[id], t)
    ensures TableFollows(f.sessions, f.sessions[id := t])
  {
  }

  // ------------------------------------------------------- one command

  /** A session that is held is resumed only into a held state, as one is whose state is Paused. */
  ghost predicate ResumesInPlace(f: Fabric, c: Command, at: Nanos)
    requires Good(f)
  {
    c.ResumeCmd? && c.id in Expire(f, at).sessions ==>
      var s := Expire(f, at).sessions[c.id];
      s.paused && Held(s) ==> s.pausedFrom.RevalidationRequired? || s.pausedFrom.Deferred?
  }

  lemma TransferFollows(f: Fabric, id: SessionId, shard: nat, attempt: AttemptId, sequence: nat, arrived: nat,
                        acknowledged: bool, fence: Fence, at: Nanos)
    requires Good(f)
    ensures var h, g := Expire(f, at), ReportTransfer(f, id, shard, attempt, sequence, arrived, acknowledged, fence, at).0;
            TableFollows(h.sessions, g.sessions) && g.sessions.Keys <= h.sessions.Keys
  {
    hide Good, Store, Progress, CoreOk, EvidenceGate, Expire, Aged;
    ExpireIsScan(f, at);
    var g := Expire(f, at);
    if EvidenceGate(g, id, fence, shard, attempt, sequence).None? {
      var s := g.sessions[id];
      var p, a := Position(s.shards, shard), AttemptPosition(s.attempts, attempt);
      var delivered := s.attempts[a].delivered;
      SessionSound(g, id);
      if delivered <= arrived <= s.attempts[a].granted {
        ObserveOk(s, p, a, arrived);
        var seen := Observe(s, a, arrived);
        if !acknowledged {
          UnacknowledgedOk(seen, a);
          EvidenceFollows(g, id, Unacknowledged(seen, a));
        } else if arrived - delivered <= s.ledger.outstanding {
          AcknowledgeOk(s, p, a, arrived);
          EvidenceFollows(g, id, Acknowledge(seen, p, a, arrived - delivered));
        } else {
          ReplaceFollows(g, id, seen);
        }
      }
    }
  }

  lemma SessionSound(f: Fabric, id: SessionId)
    requires Good(f) && id in f.sessions
    ensures CoreOk(f.sessions[id]) && SessionOk(f.sessions[id])
  {
    hide DeadlinesBut, CoreOk;
    SessionGood(f, id);
  }

  lemma JudgedFollows(g: Fabric, id: SessionId, p: nat, a: nat, outcome: VerificationOutcome, bytes: nat, digest: ContentDigest)
    requires Good(g) && id in g.sessions && Active(g.sessions[id]) && IsCurrent(g.sessions[id], p, a)
    requires Heard(g.sessions[id], a, outcome) ==> VerifyDiscipline(g.sessions[id], g.sessions[id].shards[p].index, outcome, bytes, digest)
    ensures var h := Judged(g, id, p, a, outcome, bytes, digest).0;
            TableFollows(g.sessions, h.sessions) && h.sessions.Keys <= g.sessions.Keys
  {
    hide Good, Store, Progress, CoreOk, SessionOk, TableFollows;
    var s := g.sessions[id];
    SessionSound(g, id);
    PositionSound(s, p);
    Unmoved(g.sessions);
    if outcome.Verified? && !IsAcked(s.attempts[a]) {
    } else if Mismatched(s.shards[p], outcome, bytes, digest) {
      RejectOk(s, p, a);
      EndFollows(g, id, Settle(Reject(s, p, a), Failed));
    } else if outcome.Verified? {
      VerifyOk(s, p, a);
      EvidenceFollows(g, id, Verify(s, p, a));
    } else if outcome.Truncated? {
      TruncateOk(s, p, a);
      EvidenceFollows(g, id, Truncate(s, p, a));
    } else {
      DoubtOk(s, p, a);
      EvidenceFollows(g, id, Doubt(s, p, a));
    }
  }

  lemma VerificationFollows(f: Fabric, id: SessionId, shard: nat, attempt: AttemptId, sequence: nat,
                            outcome: VerificationOutcome, bytes: nat, digest: ContentDigest, fence: Fence, at: Nanos)
    requires Good(f)
    requires Disciplined(f, VerifyCmd(id, shard, attempt, sequence, outcome, bytes, digest, fence), at)
    ensures var h, g := Expire(f, at), ReportVerification(f, id, shard, attempt, sequence, outcome, bytes, digest, fence, at).0;
            TableFollows(h.sessions, g.sessions) && g.sessions.Keys <= h.sessions.Keys
  {
    hide Good, EvidenceGate, Expire, Aged, Judged, VerifyDiscipline, TableFollows;
    ExpireIsScan(f, at);
    var g := Expire(f, at);
    Unmoved(g.sessions);
    if EvidenceGate(g, id, fence, shard, attempt, sequence).None? {
      var s := g.sessions[id];
      JudgedFollows(g, id, Position(s.shards, shard), AttemptPosition(s.attempts, attempt), outcome, bytes, digest);
    }
  }

  lemma Unmoved(m: map<SessionId, Session>)
    ensures TableFollows(m, m)
  {
  }

  lemma SourceFollows(f: Fabric, id: SessionId, shard: nat, bytes: nat, fence: Fence, at: Nanos)
    requires Good(f)
    ensures var h, g := Expire(f, at), ReportSourceComplete(f, id, shard, bytes, fence, at).0;
            TableFollows(h.sessions, g.sessions) && g.sessions.Keys <= h.sessions.Keys
  {
    hide Good, Store, Progress, CoreOk, Gate, Expire, Aged, SessionOk, TableFollows;
    ExpireIsScan(f, at);
    var g := Expire(f, at);
    Unmoved(g.sessions);
    if id in g.sessions && Active(g.sessions[id]) {
      var s := g.sessions[id];
      SessionSound(g, id);
      var p := Position(s.shards, shard);
      if p < |s.shards| {
        NoteSourceOk(s, p, bytes);
        EvidenceFollows(g, id, NoteSource(s, p, bytes));
      }
    }
  }

  lemma AmbiguousFollows(f: Fabric, id: SessionId, attempt: AttemptId, sequence: nat, fence: Fence, at: Nanos)
    requires Good(f)
    ensures var h, g := Expire(f, at), ReportAmbiguous(f, id, attempt, sequence, fence, at).0;
            TableFollows(h.sessions, g.sessions) && g.sessions.Keys <= h.sessions.Keys
  {
    hide Good, Store, Progress, CoreOk, FabricFence, Expire, Aged, SessionOk, TableFollows;
    ExpireIsScan(f, at);
    var g := Expire(f, at);
    Unmoved(g.sessions);
    if id in g.sessions && Active(g.sessions[id]) {
      var s := g.sessions[id];
      SessionSound(g, id);
      var a := AttemptPosition(s.attempts, attempt);
      if a < |s.attempts| {
        DisownOk(s, a);
        EvidenceFollows(g, id, Disown(s, a));
      }
    }
  }

  lemma CancelFollows(f: Fabric, id: SessionId, fence: Fence, at: Nanos)
    requires Good(f)
    ensures var h, g := Expire(f, at), Cancel(f, id, fence, at).0;
            TableFollows(h.sessions, g.sessions) && g.sessions.Keys <= h.sessions.Keys
  {
    hide Good, Store, CoreOk, FabricFence, Expire, Aged, SessionOk, TableFollows;
    ExpireIsScan(f, at);
    var g := Expire(f, at);
    Unmoved(g.sessions);
    if id in g.sessions && Active(g.sessions[id]) {
      var s := g.sessions[id];
      SessionSound(g, id);
      CancelledOk(s);
      EndFollows(g, id, Settle(CancelOutstanding(s), Model.Cancelled));
    }
  }

  lemma PauseFollows(f: Fabric, c: Command, at: Nanos)
    requires Good(f) && (c.PauseCmd? || c.ResumeCmd?) && Disciplined(f, c, at) && ResumesInPlace(f, c, at)
    ensures var h, g := Expire(f, at), Step(f, c, at).0;
            TableFollows(h.sessions, g.sessions) && g.sessions.Keys <= h.sessions.Keys
  {
    hide Good, Gate, Expire, Aged, TableFollows, AttemptsSound, ShardsSound, Shaped, RunningLedger;
    ExpireIsScan(f, at);
    var g := Expire(f, at);
    Unmoved(g.sessions);
    if Gate(g, c.id, c.fence).None? {
      var s := g.sessions[c.id];
      SessionSound(g, c.id);
      if c.PauseCmd? && Active(s) && !s.state.RevalidationRequired? && !s.paused {
        ReplaceFollows(g, c.id, s.(paused := true, pausedFrom := s.state, state := Model.Paused));
      } else if c.ResumeCmd? && s.paused {
        ReplaceFollows(g, c.id, s.(paused := false, state := s.pausedFrom));
      }
    }
  }

  lemma WaveCreditFollows(h: Fabric, id: SessionId, p: nat, attempt: AttemptId, at: Nanos)
    requires CreditOk(h.credit) && id in h.sessions && p < |h.sessions[id].shards|
    requires Active(h.sessions[id]) && !Held(h.sessions[id])
    ensures var g := Wave(h, id, p, attempt, at).0;
            TableFollows(h.sessions, g.sessions) && g.sessions.Keys == h.sessions.Keys
  {
    hide Consume, ObserveClass, Grant, TableFollows, Held;
    Unmoved(h.sessions);
    var s := h.sessions[id];
    var seen := ObserveClass(h.credit, s.envelope.isolation, at);
    var chunk := Min(Min(Remaining(s.shards[p]), MAX_CHUNK), ClassTokens(seen, s.envelope.isolation));
    GrantFollows(s, p, attempt, chunk, TimelineBound(h.policy));
    ReplaceFollows(h, id, Grant(s, p, attempt, chunk, TimelineBound(h.policy)));
  }

  /** A grant is only ever made to a session that is not held. */
  lemma WaveFollows(f: Fabric, id: SessionId, shard: nat, fence: Fence, attempt: AttemptId, at: Nanos)
    requires Good(f)
    ensures var h, g := Expire(f, at), Step(f, WaveCmd(id, shard, fence, attempt), at).0;
            TableFollows(h.sessions, g.sessions) && g.sessions.Keys == h.sessions.Keys
    ensures Step(f, WaveCmd(id, shard, fence, attempt), at).1.WaveGranted? ==>
              id in Expire(f, at).sessions && !Held(Expire(f, at).sessions[id])
  {
    hide Good, Expire, WaveGate, Wave, TableFollows;
    ProvisionedCredit(f);
    var h := Expire(f, at);
    Unmoved(h.sessions);
    WaveRefusals(h, id, shard, fence, at);
    if WaveGate(h, id, shard, fence, at).None? {
      WaveCreditFollows(h, id, Position(h.sessions[id].shards, shard), attempt, at);
    }
  }

  lemma WaveRefusals(h: Fabric, id: SessionId, shard: nat, fence: Fence, at: Nanos)
    ensures var refusal := WaveGate(h, id, shard, fence, at); refusal.Some? ==> !refusal.value.WaveGranted?
  {
    hide Gate, PreviousSettled, CheckpointFence, Total;
  }

  lemma GrantFollows(s: Session, p: nat, attempt: AttemptId, chunk: nat, bound: nat)
    requires p < |s.shards| && Active(s) && !Held(s)
    ensures Follows(s, Grant(s, p, attempt, chunk, bound))
  {
  }

  lemma SupersedeFollows(f: Fabric, c: CheckpointId, newer: SessionId)
    requires Good(f)
    ensures var g := Supersede(f, c, newer); TableFollows(f.sessions, g.sessions) && g.sessions.Keys <= f.sessions.Keys
  {
    hide Good, Store, SessionOk, TableFollows, Rival;
    var rival := Rival(f.sessions, c);
    Unmoved(f.sessions);
    if rival.Some? {
      var s := f.sessions[rival.value];
      assert IsRival(f.sessions, c, rival.value);
      SessionSound(f, rival.value);
      SupersededOk(s, newer);
      EndFollows(f, rival.value, SupersededSession(s, newer));
    }
  }

  lemma SubmitFollows(f: Fabric, c: Command, at: Nanos)
    requires Good(f) && c.SubmitCmd? && c.id !in f.sessions
    ensures var h, g := Expire(f, at), Step(f, c, at).0;
            TableFollows(h.sessions, g.sessions) && g.sessions.Keys <= h.sessions.Keys + {c.id}
  {
    hide Good, Expire, FabricFence, Judge, Supersede, NewSession, IndexDeadline, Remember, Aged, TableFollows;
    ExpireIsScan(f, at);
    assert c.id !in Expire(f, at).sessions by { ExpireFollows(f, at); }
    var h := Expire(f, at);
    Unmoved(h.sessions);
    SupersedeFollows(h, c.request.checkpoint, c.id);
    var g := Supersede(h, c.request.checkpoint, c.id);
    var j := Judge(h, c.request);
    if j.Accept? {
      var deadline := at + if c.request.workload in h.contracts then Horizon(c.request, h.contracts[c.request.workload]) else 0;
      AppendFollows(h.sessions, g.sessions, c.id, NewSession(c.request, j.isolation, j.path, j.rate, deadline));
    }
  }

  lemma AppendFollows(m: map<SessionId, Session>, n: map<SessionId, Session>, id: SessionId, s: Session)
    requires TableFollows(m, n) && id !in m
    ensures TableFollows(m, n[id := s])
  {
  }

  /** The command re-established the session's authority. */
  predicate Reauthorised(c: Command, o: Outcome, id: SessionId) {
    c.RevalidateCmd? && c.id == id && o.Decided? && o.kind.Admit?
  }

  lemma RevalidateFollows(f: Fabric, id: SessionId, fence: Fence, at: Nanos)
    requires Good(f) && Disciplined(f, RevalidateCmd(id, fence), at)
    ensures var h, o := Expire(f, at), Revalidate(f, id, fence, at);
            && o.0.sessions.Keys == h.sessions.Keys
            && (forall k :: k in h.sessions && k != id ==> o.0.sessions[k] == h.sessions[k])
            && (id in h.sessions ==>
                  if Reauthorised(RevalidateCmd(id, fence), o.1, id)
                  then Advances(h.sessions[id], o.0.sessions[id]) && o.0.sessions[id].envelopeSequence > h.sessions[id].envelopeSequence
                  else Follows(h.sessions[id], o.0.sessions[id]))
  {
    hide Good, Expire, Replan, Renewable, CheckFence, CheckpointFence, Follows, Advances;
    var h := Expire(f, at);
    if id in h.sessions {
      SelfFollows(h.sessions[id]);
      if Renewing(h, id, fence) { ReplanFollows(h, id, at); }
    }
  }

  lemma ReplanFollows(h: Fabric, id: SessionId, at: Nanos)
    requires id in h.sessions && Active(h.sessions[id]) && Renewable(h, h.sessions[id])
    ensures var o := Replan(h, id, at);
            && o.0.sessions.Keys == h.sessions.Keys
            && (forall k :: k in h.sessions && k != id ==> o.0.sessions[k] == h.sessions[k])
            && o.1.Decided?
            && (if o.1.kind.Admit? then Advances(h.sessions[id], o.0.sessions[id]) && o.0.sessions[id].envelopeSequence > h.sessions[id].envelopeSequence
                else Follows(h.sessions[id], o.0.sessions[id]))
  {
    hide PlanAgain, Horizon, IndexDeadline, DenyRevalidation, Revalidated, Follows, Advances, Settle, Expired, Renewable;
    var s := h.sessions[id];
    SelfFollows(s);
    DeferFollows(s);
    DeniedExactly(h, id, at);
    if s.request.workload in h.contracts && s.envelope.isolation in h.policy.envelopes && PathOf(h.topology, s.envelope.path).Some?
       && PlanAgain(h, s).Rate? {
      RevalidatedAdvances(s, s.envelope.path, PlanAgain(h, s).bps, at + Horizon(s.request, h.contracts[s.request.workload]));
    }
  }

  lemma SelfFollows(s: Session)
    ensures Follows(s, s)
  {
  }

  lemma DeferFollows(s: Session)
    requires Active(s)
    ensures Follows(s, s.(state := Deferred))
  {
  }

  lemma RevalidatedAdvances(s: Session, path: PathId, rate: nat, deadline: Nanos)
    requires Active(s)
    ensures Advances(s, Revalidated(s, path, rate, deadline))
    ensures Revalidated(s, path, rate, deadline).envelopeSequence > s.envelopeSequence
  {
  }

  lemma FencedFollows(m: map<SessionId, Session>, n: map<SessionId, Session>)
    requires Fenced(m, n)
    ensures TableFollows(m, n)
  {
    forall id | id in m && id in n ensures Follows(m[id], n[id]) {
      SelfFollows(m[id]);
    }
  }

  lemma PolicyFollows(f: Fabric, p: Policy, at: Nanos)
    requires Good(f)
    ensures var g := ApplyPolicy(f, p, at).0; TableFollows(f.sessions, g.sessions) && g.sessions.Keys == f.sessions.Keys
  {
    hide Good, TableFollows, ClassCredit, WorkloadCredit, PolicyValid, ContractsValid;
    ProvisionedContracts(f);
    var g := ApplyPolicy(f, p, at).0;
    assert Fenced(f.sessions, g.sessions);
    FencedFollows(f.sessions, g.sessions);
  }

  lemma TopologyFollows(f: Fabric, t: Topology)
    ensures var g := ApplyTopology(f, t).0; TableFollows(f.sessions, g.sessions) && g.sessions.Keys == f.sessions.Keys
  {
    hide TableFollows, TopologyValid;
    var g := ApplyTopology(f, t).0;
    assert Fenced(f.sessions, g.sessions);
    FencedFollows(f.sessions, g.sessions);
  }

  lemma ContractFollows(f: Fabric, c: Contract, at: Nanos)
    ensures var g := UpsertContract(f, c, at).0; TableFollows(f.sessions, g.sessions) && g.sessions.Keys == f.sessions.Keys
  {
    hide TableFollows, Configured;
    var g := UpsertContract(f, c, at).0;
    assert Fenced(f.sessions, g.sessions);
    FencedFollows(f.sessions, g.sessions);
  }

  lemma RestartedFollows(s: Session)
    ensures Follows(s, Restarted(s))
  {
  }

  lemma EpochFollows(f: Fabric, e: Epoch)
    ensures var g := AdvanceEpoch(f, e).0; TableFollows(f.sessions, g.sessions) && g.sessions.Keys == f.sessions.Keys
  {
    hide Restarted, Follows;
    forall id | id in f.sessions ensures Follows(f.sessions[id], Restarted(f.sessions[id])) && Follows(f.sessions[id], f.sessions[id]) {
      RestartedFollows(f.sessions[id]);
      SelfFollows(f.sessions[id]);
    }
  }

  /** The table a command works on: most commands enforce elapsed deadlines first. */
  ghost function Observed(f: Fabric, c: Command, at: Nanos): Fabric {
    if c.PolicyCmd? || c.TopologyCmd? || c.ContractCmd? || c.EpochCmd? || c.ShutdownCmd? then f else Expire(f, at)
  }

  lemma ObservedFollows(f: Fabric, c: Command, at: Nanos)
    requires Good(f)
    ensures var h := Observed(f, c, at); TableFollows(f.sessions, h.sessions) && h.sessions.Keys <= f.sessions.Keys
  {
    hide Good, Expire, TableFollows;
    Unmoved(f.sessions);
    ExpireFollows(f, at);
  }

  lemma StepFollowsObserved(f: Fabric, c: Command, at: Nanos)
    requires Good(f) && Disciplined(f, c, at) && ResumesInPlace(f, c, at) && !c.RevalidateCmd?
    ensures var h, g := Observed(f, c, at), Step(f, c, at).0;
            TableFollows(h.sessions, g.sessions) && g.sessions.Keys <= h.sessions.Keys + if c.SubmitCmd? then {c.id} else {}
  {
    hide Good, Expire, Submit, Revalidate, Pause, Resume, Cancel, RequestWave, ReportSourceComplete, ReportTransfer,
      ReportVerification, ReportAmbiguous, ApplyPolicy, ApplyTopology, UpsertContract, AdvanceEpoch, TableFollows;
    Unmoved(Observed(f, c, at).sessions);
    match c
    case SubmitCmd(_, _, _, _) => SubmitFollows(f, c, at);
    case PauseCmd(_, _) => PauseFollows(f, c, at);
    case ResumeCmd(_, _) => PauseFollows(f, c, at);
    case CancelCmd(k, fence) => CancelFollows(f, k, fence, at);
    case WaveCmd(k, shard, fence, attempt) => WaveFollows(f, k, shard, fence, attempt, at);
    case SourceCmd(k, shard, bytes, fence) => SourceFollows(f, k, shard, bytes, fence, at);
    case TransferCmd(k, shard, attempt, sequence, bytes, acknowledged, fence) =>
      TransferFollows(f, k, shard, attempt, sequence, bytes, acknowledged, fence, at);
    case VerifyCmd(k, shard, attempt, sequence, outcome, bytes, digest, fence) =>
      VerificationFollows(f, k, shard, attempt, sequence, outcome, bytes, digest, fence, at);
    case AmbiguousCmd(k, attempt, sequence, fence) => AmbiguousFollows(f, k, attempt, sequence, fence, at);
    case PolicyCmd(p) => PolicyFollows(f, p, at);
    case TopologyCmd(t) => TopologyFollows(f, t);
    case ContractCmd(contract) => ContractFollows(f, contract, at);
    case EpochCmd(e) => EpochFollows(f, e);
    case PollCmd =>
    case ShutdownCmd =>
  }

  /** One command, seen from any retained session: its record only moves forward,
  a terminal record never moves again, and a held session stays held and gets no
  grant unless this very command revalidated it under a larger sequence. */
  lemma StepFollows(f: Fabric, c: Command, at: Nanos, id: SessionId)
    requires Good(f) && Disciplined(f, c, at) && ResumesInPlace(f, c, at)
    requires id in f.sessions && id in Step(f, c, at).0.sessions
    ensures var s, t := f.sessions[id], Step(f, c, at).0.sessions[id];
            && Advances(s, t)
            && (if Reauthorised(c, Step(f, c, at).1, id) then t.envelopeSequence > s.envelopeSequence else Follows(s, t))
  {
    hide Good, Expire, Submit, Revalidate, Pause, Resume, Cancel, RequestWave, ReportSourceComplete, ReportTransfer,
      ReportVerification, ReportAmbiguous, ApplyPolicy, ApplyTopology, UpsertContract, AdvanceEpoch, Advances, Held, ResumesInPlace;
    ObservedFollows(f, c, at);
    var h, g := Observed(f, c, at), Step(f, c, at).0;
    if c.RevalidateCmd? {
      RevalidateFollows(f, c.id, c.fence, at);
      SelfFollows(h.sessions[id]);
    } else {
      StepFollowsObserved(f, c, at);
    }
    FollowsTransitive(f.sessions[id], h.sessions[id], g.sessions[id]);
  }

  lemma FollowsTransitive(s: Session, u: Session, t: Session)
    requires Follows(s, u) && Advances(u, t)
    ensures Advances(s, t) && s.envelopeSequence <= u.envelopeSequence
    ensures Follows(u, t) ==> Follows(s, t)
  {
  }

  /** Whatever a session is resumed into, its record only moves forward. */
  lemma StepAdvances(f: Fabric, c: Command, at: Nanos, id: SessionId)
    requires Good(f) && Disciplined(f, c, at)
    requires id in f.sessions && id in Step(f, c, at).0.sessions
    ensures Advances(f.sessions[id], Step(f, c, at).0.sessions[id])
  {
    hide Good, Expire, Submit, Revalidate, Pause, Cancel, RequestWave, ReportSourceComplete, ReportTransfer,
      ReportVerification, ReportAmbiguous, ApplyPolicy, ApplyTopology, UpsertContract, AdvanceEpoch, Gate, Held;
    if c.ResumeCmd? {
      ExpireFollows(f, at);
    } else {
      StepFollows(f, c, at, id);
    }
  }

  lemma ResumeKeys(f: Fabric, c: Command, at: Nanos)
    requires c.ResumeCmd? && Good(f)
    ensures var h, g := Expire(f, at), Step(f, c, at).0;
            && g.sessions.Keys == h.sessions.Keys
            && forall id :: id in h.sessions ==> g.sessions[id].reserved == h.sessions[id].reserved
  {
    hide Good, Expire, Gate;
  }
}
