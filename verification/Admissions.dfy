/** Admission over runs: reserved rates stay within capacity, a stale checkpoint
generation is never admitted, and a decided command replays its decision. */
module Admissions {
  import opened Sums
  import opened Model
  import opened Sessions
  import opened Shaper
  import opened Rates
  import opened Spec
  import opened Invariants
  import opened Commands
  import opened Runs
  import opened Theorems

  /** What a topology lets a path class carry; nothing on one it does not name. */
  function CapacityOf(t: Topology, p: PathId): nat {
    var path := PathOf(t, p);
    if path.Some? then path.value.capacity else 0
  }

  ghost function ReservedRate(f: Fabric, p: PathId): nat { Total(f.sessions, RateOn(p)) }

  lemma FollowsEases(m: map<SessionId, Session>, n: map<SessionId, Session>, p: PathId)
    requires TableFollows(m, n) && n.Keys <= m.Keys
    ensures Total(n, RateOn(p)) <= Total(m, RateOn(p))
  {
    hide Advances, Held;
    assert forall k :: k in n ==> RateOn(p)(n[k]) <= RateOn(p)(m[k]) by {
      assert forall k :: k in n ==> Follows(m[k], n[k]);
    }
    TotalSubmap(m, n, RateOn(p));
  }

  lemma ExpireEases(f: Fabric, at: Nanos, p: PathId)
    requires Good(f)
    ensures ReservedRate(Expire(f, at), p) <= ReservedRate(f, p)
  {
    hide Good, Expire, TableFollows;
    ExpireFollows(f, at);
    FollowsEases(f.sessions, Expire(f, at).sessions, p);
  }

  /** An admission raises only its own path, and that one to within capacity. */
  lemma AdmitReserves(h: Fabric, r: Request, id: SessionId, deadline: Nanos, p: PathId)
    requires Good(h) && id !in h.sessions && Judge(h, r).Accept?
    ensures var j := Judge(h, r);
            var g := AdmitNew(h, r, id, j.isolation, j.path, j.rate, deadline);
            && (ReservedRate(g, p) <= ReservedRate(h, p) || ReservedRate(g, p) <= CapacityOf(h.topology, p))
            && (p != j.path ==> ReservedRate(g, p) <= ReservedRate(h, p))
  {
    hide Good, Judge, Supersede, TableFollows, NewShards, IndexDeadline, RateOn;
    var j := Judge(h, r);
    AcceptFits(h, r);
    SupersedeFollows(h, r.checkpoint, id);
    var n := Supersede(h, r.checkpoint, id).sessions;
    FollowsEases(h.sessions, n, p);
    var t := NewSession(r, j.isolation, j.path, j.rate, deadline);
    TotalInsert(n, id, t, RateOn(p));
    NewSessionRate(r, j.isolation, j.path, j.rate, deadline, p);
  }

  lemma NewSessionRate(r: Request, k: IsolationClass, path: PathId, rate: nat, deadline: Nanos, p: PathId)
    ensures RateOn(p)(NewSession(r, k, path, rate, deadline)) == if p == path then rate else 0
  {
  }

  lemma SubmitReserves(f: Fabric, c: Command, at: Nanos, p: PathId)
    requires Good(f) && c.SubmitCmd? && c.id !in f.sessions
    ensures var g := Step(f, c, at).0;
            ReservedRate(g, p) <= ReservedRate(f, p) || ReservedRate(g, p) <= CapacityOf(g.topology, p)
  {
    hide Good, Expire, FabricFence, Judge, AdmitNew, Remember, Aged, RateOn, CapacityOf, Total;
    var h := Expire(f, at);
    ExpireIsScan(f, at);
    ExpireEases(f, at, p);
    ExpireFollows(f, at);
    if Judge(h, c.request).Accept? {
      var deadline := at + if c.request.workload in h.contracts then Horizon(c.request, h.contracts[c.request.workload]) else 0;
      AdmitReserves(h, c.request, c.id, deadline, p);
    }
  }

  /** Revalidation plans with the old reservation still counted, so the new total fits as well. */
  lemma ReplanReserves(h: Fabric, id: SessionId, at: Nanos, p: PathId)
    requires Good(h) && id in h.sessions
    ensures var o := Replan(h, id, at);
            o.1.Decided? && !o.1.kind.Deny? ==>
              ReservedRate(o.0, p) <= ReservedRate(h, p) || ReservedRate(o.0, p) <= CapacityOf(h.topology, p)
  {
    hide Good, DenyRevalidation, Settle, Expired, Horizon, IndexDeadline, CeilRate, Total;
    var s := h.sessions[id];
    if s.request.workload in h.contracts && s.envelope.isolation in h.policy.envelopes && PathOf(h.topology, s.envelope.path).Some? {
      TotalReplace(h.sessions, id, s.(state := Deferred), RateOn(p));
      if PlanAgain(h, s).Rate? {
        var deadline := at + Horizon(s.request, h.contracts[s.request.workload]);
        TotalReplace(h.sessions, id, Revalidated(s, s.envelope.path, PlanAgain(h, s).bps, deadline), RateOn(p));
      }
    }
  }

  lemma RevalidateReserves(f: Fabric, id: SessionId, fence: Fence, at: Nanos, p: PathId)
    requires Good(f) && Disciplined(f, RevalidateCmd(id, fence), at)
    ensures var g := Revalidate(f, id, fence, at).0;
            ReservedRate(g, p) <= ReservedRate(f, p) || ReservedRate(g, p) <= CapacityOf(g.topology, p)
  {
    hide Good, Expire, Replan, CheckFence, Aged, RateOn, CapacityOf, Total;
    ExpireIsScan(f, at);
    ExpireEases(f, at, p);
    var h := Expire(f, at);
    DenialBreaksDiscipline(f, id, fence, at);
    if id in h.sessions {
      ReplanReserves(h, id, at, p);
      DeniedExactly(h, id, at);
    }
  }

  lemma ResumeReserves(f: Fabric, c: Command, at: Nanos, p: PathId)
    requires Good(f) && c.ResumeCmd?
    ensures ReservedRate(Step(f, c, at).0, p) <= ReservedRate(f, p)
  {
    hide Good, Expire, Step;
    ExpireEases(f, at, p);
    ResumeKeys(f, c, at);
    TotalSubmap(Expire(f, at).sessions, Step(f, c, at).0.sessions, RateOn(p));
  }

  /** No command raises the rate reserved on a path above what the topology in force lets it carry. */
  lemma StepReserves(f: Fabric, c: Command, at: Nanos, p: PathId)
    requires Good(f) && Disciplined(f, c, at)
    ensures var g := Step(f, c, at).0;
            ReservedRate(g, p) <= ReservedRate(f, p) || ReservedRate(g, p) <= CapacityOf(g.topology, p)
  {
    hide Good, Expire, Submit, Revalidate, Pause, Resume, Cancel, RequestWave, ReportSourceComplete, ReportTransfer,
      ReportVerification, ReportAmbiguous, ApplyPolicy, ApplyTopology, UpsertContract, AdvanceEpoch, TableFollows,
      RateOn, CapacityOf, Total;
    if c.SubmitCmd? {
      SubmitReserves(f, c, at, p);
    } else if c.RevalidateCmd? {
      RevalidateReserves(f, c.id, c.fence, at, p);
    } else if c.ResumeCmd? {
      ResumeReserves(f, c, at, p);
    } else {
      var h, g := Observed(f, c, at), Step(f, c, at).0;
      ObservedFollows(f, c, at);
      StepFollowsObserved(f, c, at);
      FollowsEases(f.sessions, h.sessions, p);
      FollowsEases(h.sessions, g.sessions, p);
    }
  }

  /** While the topology stands, no path class is ever reserved beyond its capacity. */
  lemma {:induction false} RunWithinCapacity(states: seq<Fabric>, events: seq<Event>, start: Nanos, i: nat, p: PathId)
    requires Run(states, events, start) && i < |states|
    requires forall k :: 0 <= k <= i ==> states[k].topology == states[0].topology
    ensures ReservedRate(states[i], p) <= CapacityOf(states[0].topology, p)
  {
    hide Good, Initial, Disciplined, Step, RateOn, CapacityOf;
    if i == 0 {
      InitialEmpty(states[0], start);
    } else {
      RunWithinCapacity(states, events, start, i - 1, p);
      RunStaysGood(states, events, start, i - 1);
      assert Linked(states[i - 1], events[i - 1], states[i]);
      StepReserves(states[i - 1], events[i - 1].command, events[i - 1].at, p);
    }
  }

  lemma InitialEmpty(f: Fabric, start: Nanos)
    requires Initial(f, start)
    ensures f.sessions == map[]
  {
  }

  // ------------------------------------------------------------- generations

  /** A request of an older generation than a retained session of its checkpoint
  adds no session, whatever else it carries. */
  lemma StaleGenerationNeverAdmitted(f: Fabric, r: Request, fence: Fence, fingerprint: nat, id: SessionId, at: Nanos, newer: SessionId)
    requires Good(f) && id !in f.sessions
    requires newer in Expire(f, at).sessions && Expire(f, at).sessions[newer].request.checkpoint == r.checkpoint
    requires r.checkpointGeneration < Expire(f, at).sessions[newer].request.checkpointGeneration
    ensures var o := Submit(f, r, fence, fingerprint, id, at);
            o.0.sessions == Expire(f, at).sessions && !(o.1.Decided? && o.1.kind.Admit?)
  {
    hide Good, Expire, FabricFence, AdmitNew, Remember, Aged, Judge, NewerRetained;
    var h := Expire(f, at);
    StaleIsDenied(h, r, newer);
  }

  lemma StaleIsDenied(h: Fabric, r: Request, newer: SessionId)
    requires newer in h.sessions && h.sessions[newer].request.checkpoint == r.checkpoint
    requires r.checkpointGeneration < h.sessions[newer].request.checkpointGeneration
    ensures Judge(h, r).DenyIt?
  {
    hide ManifestValid, JudgeCapacity, ManifestsEquivalent, ShardPathsPermitted, DefaultPath, Rival;
    assert NewerRetained(h.sessions, r.checkpoint, r.checkpointGeneration);
  }

  // ------------------------------------------------------------------ replay

  lemma RememberedRecord(f: Fabric, command: CommandId, record: CommandRecord)
    requires Good(f) && command !in f.commands
    ensures var g := Remember(f, command, record); command in g.commands && g.commands[command] == record && Unspent(f, g)
  {
    hide SessionsOk, OneActive, ReplayOk, HistoryOk, CompletionOk, ArchiveOk, Contracted, Provisioned, DeadlinesBut, Remember;
    RememberOk(f, command, record);
  }

  /** Whatever was decided for a new command is what its memory holds. */
  lemma DecisionRemembered(f: Fabric, r: Request, fingerprint: nat, id: SessionId, at: Nanos)
    requires Good(f) && r.command !in f.commands && id !in f.sessions && at >= 0
    ensures var o := Decide(f, r, fingerprint, id, at);
            && o.1.Decided? && r.command in o.0.commands
            && o.0.commands[r.command] == CommandRecord(o.1.kind, o.1.session, fingerprint)
  {
    hide Good, Judge, AdmitNew, Remember, ManifestValid, NewerRetained, Horizon;
    match Judge(f, r)
    case DenyIt(_) => RememberedRecord(f, r.command, CommandRecord(Deny, None, fingerprint));
    case DeferIt(_) => RememberedRecord(f, r.command, CommandRecord(Defer, None, fingerprint));
    case SameAs(existing) => RememberedRecord(f, r.command, CommandRecord(Admit, Some(existing), fingerprint));
    case Accept(k, path, rate) =>
      AcceptMeans(f, r);
      HorizonPositive(f, r);
      var deadline := at + Horizon(r, f.contracts[r.workload]);
      AdmitGood(f, r, id, k, path, rate, deadline);
      AdmitFrames(f, r, id, k, path, rate, deadline);
      RememberedRecord(AdmitNew(f, r, id, k, path, rate, deadline), r.command, CommandRecord(Admit, Some(id), fingerprint));
  }

  lemma {:induction false} ForgetKeeps(f: Fabric, k: CommandId)
    requires k in Forget(f).commands
    ensures k in f.commands && Forget(f).commands[k] == f.commands[k]
    decreases |f.commandOrder|
  {
    if |f.commandOrder| > f.commandBound {
      ForgetKeeps(f.(commands := f.commands - {f.commandOrder[0]}, commandOrder := f.commandOrder[1..]), k);
    }
  }

  /** Remembering a new command rewrites no other record. */
  lemma RememberKeeps(f: Fabric, command: CommandId, record: CommandRecord, k: CommandId)
    requires command !in f.commands && k in f.commands && k in Remember(f, command, record).commands
    ensures Remember(f, command, record).commands[k] == f.commands[k]
  {
    hide Forget;
    var bound := Max(64, Min(f.policy.retainedHistory * 4, 4096));
    var g := f.(commandOrder := f.commandOrder + [command], commandBound := bound);
    if k in Forget(g).commands { ForgetKeeps(g, k); }
  }

  lemma DecideKeeps(f: Fabric, r: Request, fingerprint: nat, id: SessionId, at: Nanos, k: CommandId)
    requires r.command !in f.commands && k in f.commands && k in Decide(f, r, fingerprint, id, at).0.commands
    ensures Decide(f, r, fingerprint, id, at).0.commands[k] == f.commands[k]
  {
    hide Judge, AdmitNew, Remember, Horizon;
    match Judge(f, r)
    case DenyIt(_) => RememberKeeps(f, r.command, CommandRecord(Deny, None, fingerprint), k);
    case DeferIt(_) => RememberKeeps(f, r.command, CommandRecord(Defer, None, fingerprint), k);
    case SameAs(existing) => RememberKeeps(f, r.command, CommandRecord(Admit, Some(existing), fingerprint), k);
    case Accept(c, path, rate) =>
      var deadline := at + if r.workload in f.contracts then Horizon(r, f.contracts[r.workload]) else 0;
      AdmitFrames(f, r, id, c, path, rate, deadline);
      RememberKeeps(AdmitNew(f, r, id, c, path, rate, deadline), r.command, CommandRecord(Admit, Some(id), fingerprint), k);
  }

  /** Only submissions touch the replay memory. */
  lemma MemoryFramed(f: Fabric, c: Command, at: Nanos)
    requires Good(f) && !c.SubmitCmd?
    ensures Step(f, c, at).0.commands == f.commands
  {
    hide Good, Expire, Submit, Revalidate, Pause, Resume, Cancel, RequestWave, ReportSourceComplete, ReportTransfer, ReportVerification,
      ReportAmbiguous, ClassCredit, WorkloadCredit, Configured, PolicyValid, TopologyValid, ContractValid, Demanded, DemandedOf, AllRestarted;
    ProvisionedCredit(f);
    ProvisionedContracts(f);
    match c
    case RevalidateCmd(id, fence) => RevalidateFramed(f, id, fence, at);
    case WaveCmd(id, shard, fence, attempt) => RequestFramed(f, id, shard, fence, attempt, at);
    case VerifyCmd(id, shard, attempt, sequence, outcome, bytes, digest, fence) =>
      VerdictFramed(f, id, shard, attempt, sequence, outcome, bytes, digest, fence, at);
    case PauseCmd(id, fence) => LifecycleFramed(f, id, fence, at);
    case ResumeCmd(id, fence) => LifecycleFramed(f, id, fence, at);
    case CancelCmd(id, fence) => LifecycleFramed(f, id, fence, at);
    case SourceCmd(id, shard, bytes, fence) => SourceFramed(f, id, shard, bytes, fence, at);
    case TransferCmd(id, shard, attempt, sequence, bytes, acknowledged, fence) =>
      TransferFramed(f, id, shard, attempt, sequence, bytes, acknowledged, fence, at);
    case AmbiguousCmd(id, attempt, sequence, fence) => AmbiguousFramed(f, id, attempt, sequence, fence, at);
    case _ =>
  }

  lemma LifecycleFramed(f: Fabric, id: SessionId, fence: Fence, at: Nanos)
    ensures Pause(f, id, fence, at).0.commands == f.commands && Resume(f, id, fence, at).0.commands == f.commands
    ensures Cancel(f, id, fence, at).0.commands == f.commands
  {
    hide Expire, Gate, Store, Settle, FabricFence;
  }

  lemma SourceFramed(f: Fabric, id: SessionId, shard: nat, bytes: nat, fence: Fence, at: Nanos)
    ensures ReportSourceComplete(f, id, shard, bytes, fence, at).0.commands == f.commands
  {
    hide Expire, Gate, Store, Progress, NoteSource;
  }

  lemma TransferFramed(f: Fabric, id: SessionId, shard: nat, attempt: AttemptId, sequence: nat, arrived: nat,
                       acknowledged: bool, fence: Fence, at: Nanos)
    ensures ReportTransfer(f, id, shard, attempt, sequence, arrived, acknowledged, fence, at).0.commands == f.commands
  {
    hide Expire, EvidenceGate, Store, Progress, Unacknowledged;
  }

  lemma AmbiguousFramed(f: Fabric, id: SessionId, attempt: AttemptId, sequence: nat, fence: Fence, at: Nanos)
    ensures ReportAmbiguous(f, id, attempt, sequence, fence, at).0.commands == f.commands
  {
    hide Expire, FabricFence, Store, Progress, Disown;
  }

  lemma RevalidateFramed(f: Fabric, id: SessionId, fence: Fence, at: Nanos)
    ensures Revalidate(f, id, fence, at).0.commands == f.commands
  {
    hide Expire, Replan, CheckFence;
    var h := Expire(f, at);
    if id in h.sessions { ReplanFramed(h, id, at); }
  }

  lemma RequestFramed(f: Fabric, id: SessionId, shard: nat, fence: Fence, attempt: AttemptId, at: Nanos)
    requires CreditOk(f.credit)
    ensures RequestWave(f, id, shard, fence, attempt, at).0.commands == f.commands
  {
    hide Expire, WaveGate, Wave;
    var h := Expire(f, at);
    if WaveGate(h, id, shard, fence, at).None? { WaveFramed(h, id, Position(h.sessions[id].shards, shard), attempt, at); }
  }

  lemma VerdictFramed(f: Fabric, id: SessionId, shard: nat, attempt: AttemptId, sequence: nat,
                      outcome: VerificationOutcome, bytes: nat, digest: ContentDigest, fence: Fence, at: Nanos)
    ensures ReportVerification(f, id, shard, attempt, sequence, outcome, bytes, digest, fence, at).0.commands == f.commands
  {
    hide Expire, EvidenceGate, Judged;
    var h := Expire(f, at);
    if EvidenceGate(h, id, fence, shard, attempt, sequence).None? {
      JudgedFramed(h, id, Position(h.sessions[id].shards, shard), AttemptPosition(h.sessions[id].attempts, attempt), outcome, bytes, digest);
    }
  }

  lemma ReplanFramed(h: Fabric, id: SessionId, at: Nanos)
    requires id in h.sessions
    ensures Replan(h, id, at).0.commands == h.commands
  {
    hide Prune, PlanAgain, Horizon, Revalidated, IndexDeadline, Expired, Settle;
  }

  lemma WaveFramed(h: Fabric, id: SessionId, p: nat, attempt: AttemptId, at: Nanos)
    requires CreditOk(h.credit) && id in h.sessions && p < |h.sessions[id].shards|
    ensures Wave(h, id, p, attempt, at).0.commands == h.commands
  {
    hide ObserveClass, Consume, Grant;
  }

  lemma JudgedFramed(h: Fabric, id: SessionId, p: nat, a: nat, outcome: VerificationOutcome, bytes: nat, digest: ContentDigest)
    requires id in h.sessions && IsCurrent(h.sessions[id], p, a)
    ensures Judged(h, id, p, a, outcome, bytes, digest).0.commands == h.commands
  {
    hide Store, Progress, Settle, Verify, Truncate, Doubt, Reject;
  }

  /** A remembered decision is never rewritten, only forgotten. */
  lemma StepRemembers(f: Fabric, c: Command, at: Nanos, k: CommandId)
    requires Good(f) && k in f.commands && k in Step(f, c, at).0.commands
    ensures Step(f, c, at).0.commands[k] == f.commands[k]
  {
    hide Good, Expire, FabricFence, Decide;
    if c.SubmitCmd? {
      var h := Expire(f, at);
      if c.request.command !in h.commands && k in Decide(h, c.request, c.fingerprint, c.id, at).0.commands {
        DecideKeeps(h, c.request, c.fingerprint, c.id, at, k);
      }
    } else {
      MemoryFramed(f, c, at);
    }
  }

  lemma {:induction false} RunRemembers(states: seq<Fabric>, events: seq<Event>, start: Nanos, i: nat, j: nat, k: CommandId)
    requires Run(states, events, start) && i <= j < |states|
    requires forall n :: i <= n <= j ==> k in states[n].commands
    ensures states[j].commands[k] == states[i].commands[k]
    decreases j - i
  {
    hide Run, Good, Step;
    if i < j {
      RunRemembers(states, events, start, i, j - 1, k);
      LinkStep(states, events, start, j - 1);
      StepRemembers(states[j - 1], events[j - 1].command, events[j - 1].at, k);
    }
  }

  /** The checks of a submission that come before the replay memory is consulted. */
  function SubmitRefusal(f: Fabric, r: Request, fence: Fence): Option<ErrorCode> {
    if FabricFence(f, fence).Some? then FabricFence(f, fence)
    else if r.policyGeneration != fence.policy then Some(StalePolicyGeneration)
    else if r.topologyGeneration != fence.topology then Some(StaleTopologyGeneration)
    else if r.contractGeneration != fence.contract then Some(StaleContractGeneration)
    else None
  }

  /** A submission of a remembered command, seen from what is remembered. */
  lemma RememberedSubmit(f: Fabric, c: Command, at: Nanos)
    requires Good(f) && c.SubmitCmd? && c.request.command in f.commands
    ensures var record := f.commands[c.request.command];
            Step(f, c, at) ==
            (Expire(f, at), if SubmitRefusal(f, c.request, c.fence).Some? then Refused(SubmitRefusal(f, c.request, c.fence).value)
                            else if record.fingerprint != c.fingerprint then Refused(ReplayDetected)
                            else Replayed(record.kind, record.session))
  {
    hide Good, Expire, Decide, CheckFence;
  }

  lemma SubmitDecides(f: Fabric, c: Command, at: Nanos)
    requires Good(f) && c.SubmitCmd? && c.id !in f.sessions && at >= 0 && Step(f, c, at).1.Decided?
    ensures var o := Step(f, c, at);
            && c.request.command in o.0.commands
            && o.0.commands[c.request.command] == CommandRecord(o.1.kind, o.1.session, c.fingerprint)
  {
    hide Good, Expire, Decide, Aged, FabricFence;
    ExpireIsScan(f, at);
    ExpireFollows(f, at);
    DecisionRemembered(Expire(f, at), c.request, c.fingerprint, c.id, at);
  }

  /** However much later a command is submitted again: while it is remembered, it is refused by a fence or
  generation check, refused as a replay when it carries another request, or answered with the decision and the
  session of its first submission; and nothing changes beyond the deadlines that passed meanwhile. */
  lemma ResubmissionReplays(states: seq<Fabric>, events: seq<Event>, start: Nanos, i: nat, j: nat)
    requires Run(states, events, start) && i < j < |events|
    requires events[i].command.SubmitCmd? && Answer(states, events, i).Decided?
    requires forall n :: i < n <= j ==> events[i].command.request.command in states[n].commands
    requires events[j].command.SubmitCmd? && events[j].command.request.command == events[i].command.request.command
    ensures states[j + 1] == Expire(states[j], events[j].at)
    ensures var first, c := events[i].command, events[j].command;
            var refusal := SubmitRefusal(states[j], c.request, c.fence);
            Answer(states, events, j) ==
            if refusal.Some? then Refused(refusal.value)
            else if c.fingerprint != first.fingerprint then Refused(ReplayDetected)
            else Replayed(Answer(states, events, i).kind, Answer(states, events, i).session)
  {
    hide Run, Good, Step, Expire, SubmitRefusal;
    HereRun(states, events, start);
    LinkStep(states, events, start, i);
    LinkStep(states, events, start, j);
    SubmitDecides(states[i], events[i].command, events[i].at);
    RunRemembers(states, events, start, i + 1, j, events[i].command.request.command);
    RememberedSubmit(states[j], events[j].command, events[j].at);
  }
}
