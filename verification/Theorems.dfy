/** Theorems over every run of the fabric from its initial configuration. */
module Theorems {
  import opened Sums
  import opened Model
  import opened Sessions
  import opened Shaper
  import opened Rates
  import opened Spec
  import opened Invariants
  import opened Commands
  import opened Runs

  datatype Event = Event(command: Command, at: Nanos)

  /** A freshly constructed engine. */
  ghost predicate Initial(f: Fabric, start: Nanos) {
    && PolicyValid(f.policy) && TopologyValid(f.topology, f.limits) && ContractsValid(f.contracts)
    && (forall w :: w in f.contracts ==> f.contracts[w].ceiling < U64)
    && f.credit == Credit(ClassCredit(f.policy, start), WorkloadCredit(f.contracts, start))
    && f.sessions == map[] && f.deadlines == map[] && f.terminalOrder == []
    && f.pruned == Ledger(0, 0, 0, 0, 0, 0, 0)
    && f.commands == map[] && f.commandOrder == []
  }

  ghost predicate Orderly(f: Fabric, e: Event)
    requires Good(f)
  {
    e.at >= 0 && Disciplined(f, e.command, e.at)
  }

  ghost predicate Linked(f: Fabric, e: Event, g: Fabric)
    requires Good(f)
  {
    Orderly(f, e) && g == Step(f, e.command, e.at).0
  }

  /** Commands are defined on sound states; `RunStaysGood` shows that a run visits no other. */
  ghost predicate Run(states: seq<Fabric>, events: seq<Event>, start: Nanos) {
    && |states| == |events| + 1
    && Initial(states[0], start)
    && (forall i :: 0 <= i < |events| ==> Good(states[i]) ==> Linked(states[i], events[i], states[i + 1]))
    && (forall i :: 0 <= i < |events| ==> start <= events[i].at)
    && (forall i, j :: 0 <= i < j < |events| ==> events[i].at <= events[j].at)
  }

  lemma InitialGood(f: Fabric, start: Nanos)
    requires Initial(f, start)
    ensures Good(f)
  {
  }

  /** In every run of orderly peers every state is sound. */
  lemma {:induction false} RunStaysGood(states: seq<Fabric>, events: seq<Event>, start: Nanos, i: nat)
    requires Run(states, events, start) && i < |states|
    ensures Good(states[i])
  {
    hide Good, Initial, Disciplined;
    if i == 0 {
      InitialGood(states[0], start);
    } else {
      RunStaysGood(states, events, start, i - 1);
      assert Linked(states[i - 1], events[i - 1], states[i]);
      StepGood(states[i - 1], events[i - 1].command, events[i - 1].at);
    }
  }

  // ----------------------------------------------------------- conservation

  lemma {:induction false} TotalsConserve(m: map<SessionId, Session>)
    requires forall id :: id in m ==> Conserves(m[id].ledger) && m[id].ledger.verified <= m[id].ledger.transferred
    ensures Total(m, AdmittedOf) ==
            Total(m, TransferredOf) + Total(m, WastedOf) + Total(m, CancelledOf) + Total(m, UnprovenOf) + Total(m, OutstandingOf)
    ensures Total(m, VerifiedOf) <= Total(m, TransferredOf)
    decreases |m|
  {
    if m != map[] {
      var id := SomeKey(m);
      TotalRemove(m, id, AdmittedOf);
      TotalRemove(m, id, TransferredOf);
      TotalRemove(m, id, WastedOf);
      TotalRemove(m, id, CancelledOf);
      TotalRemove(m, id, UnprovenOf);
      TotalRemove(m, id, OutstandingOf);
      TotalRemove(m, id, VerifiedOf);
      TotalsConserve(m - {id});
    }
  }

  /** In a sound state the books balance, verified bytes are among those that
  arrived, and once no session is active nothing is outstanding or in flight. */
  lemma BooksBalance(f: Fabric)
    requires Good(f)
    ensures var b := Books(f.sessions, f.pruned);
            && Conserves(b) && b.verified <= b.transferred
            && (Total(f.sessions, ActiveOne) == 0 ==> b.outstanding == 0 && Total(f.sessions, AttemptsOf) == 0)
  {
    forall id | id in f.sessions
      ensures Conserves(f.sessions[id].ledger) && f.sessions[id].ledger.verified <= f.sessions[id].ledger.transferred
    {
      SessionGood(f, id);
    }
    TotalsConserve(f.sessions);
    if Total(f.sessions, ActiveOne) == 0 {
      forall id | id in f.sessions ensures OutstandingOf(f.sessions[id]) == 0 && AttemptsOf(f.sessions[id]) == 0 {
        TotalRemove(f.sessions, id, ActiveOne);
        SessionGood(f, id);
      }
      TotalZero(f.sessions, OutstandingOf);
      TotalZero(f.sessions, AttemptsOf);
    }
  }

  /** Byte conservation over every run: per session, in the aggregate, and while a
  session runs its target is split exactly between arrived, unproven and outstanding.
  One that ended without completing keeps only verified bytes as transferred, and the
  evidence level claims exactly what the shards show. */
  lemma RunConserves(states: seq<Fabric>, events: seq<Event>, start: Nanos, i: nat, id: SessionId)
    requires Run(states, events, start) && i < |states|
    ensures Conserves(Books(states[i].sessions, states[i].pruned))
    ensures id in states[i].sessions ==>
              var s := states[i].sessions[id];
              && Conserves(s.ledger) && s.ledger.verified <= s.ledger.transferred
              && (s.sourceComplete <==> forall p :: 0 <= p < |s.shards| ==> s.shards[p].sourceComplete)
              && (s.state.Cancelled? || s.state.Superseded? || s.state.Failed? ==> s.ledger.transferred == s.ledger.verified)
              && (!IsTerminal(s.state) || s.state.TrafficSessionComplete? ==> EvidenceTrue(s.evidence, s.shards))
              && (if IsTerminal(s.state) then s.ledger.outstanding == 0
                  else s.ledger.transferred + s.ledger.unproven + s.ledger.outstanding == s.request.manifest.total
                       && s.ledger.admitted == s.request.manifest.total + s.ledger.wasted)
              && (s.state.TrafficSessionComplete? ==>
                    s.ledger.transferred == s.request.manifest.total && s.ledger.unproven == 0)
  {
    hide Good;
    RunStaysGood(states, events, start, i);
    BooksBalance(states[i]);
    if id in states[i].sessions { SessionSound(states[i], id); }
  }

  // -------------------------------------------------- what a session never undoes

  /** The session is retained in all states from i to j. */
  predicate Retained(states: seq<Fabric>, i: nat, j: nat, id: SessionId)
    requires i <= j < |states|
  {
    forall k :: i <= k <= j ==> id in states[k].sessions
  }

  lemma LinkAdvances(states: seq<Fabric>, events: seq<Event>, start: Nanos, k: nat, id: SessionId)
    requires Run(states, events, start) && k < |events|
    requires id in states[k].sessions && id in states[k + 1].sessions
    ensures Advances(states[k].sessions[id], states[k + 1].sessions[id])
  {
    hide Good, Initial, Disciplined, Step, Advances;
    RunStaysGood(states, events, start, k);
    assert Linked(states[k], events[k], states[k + 1]);
    StepAdvances(states[k], events[k].command, events[k].at, id);
  }

  /** No command of the run resumes a held session into a state that is not. */
  ghost predicate HoldsResumed(states: seq<Fabric>, events: seq<Event>) {
    |states| == |events| + 1 && forall k :: 0 <= k < |events| ==> KeptInPlace(states[k], events[k])
  }

  ghost predicate KeptInPlace(f: Fabric, e: Event) { Good(f) ==> ResumesInPlace(f, e.command, e.at) }

  lemma LinkFollows(states: seq<Fabric>, events: seq<Event>, start: Nanos, k: nat, id: SessionId)
    requires Run(states, events, start) && k < |events| && HoldsResumed(states, events)
    requires id in states[k].sessions && id in states[k + 1].sessions
    ensures Good(states[k]) && states[k + 1] == Step(states[k], events[k].command, events[k].at).0
    ensures var s, t := states[k].sessions[id], states[k + 1].sessions[id];
            && Advances(s, t)
            && (if Reauthorised(events[k].command, Step(states[k], events[k].command, events[k].at).1, id)
                then t.envelopeSequence > s.envelopeSequence else Follows(s, t))
  {
    hide Good, Initial, Disciplined, ResumesInPlace, Step;
    RunStaysGood(states, events, start, k);
    assert Linked(states[k], events[k], states[k + 1]) && KeptInPlace(states[k], events[k]);
    StepFollows(states[k], events[k].command, events[k].at, id);
  }

  lemma {:induction false} RunAdvances(states: seq<Fabric>, events: seq<Event>, start: Nanos, i: nat, j: nat, id: SessionId)
    requires Run(states, events, start) && i <= j < |states| && Retained(states, i, j, id)
    ensures Advances(states[i].sessions[id], states[j].sessions[id])
    decreases j - i
  {
    hide Run, Good, Follows, Step, Advances, Reauthorised;
    AlwaysAdvances(states[i].sessions[id]);
    if i < j {
      RunAdvances(states, events, start, i, j - 1, id);
      HereRun(states, events, start);
      LinkAdvances(states, events, start, j - 1, id);
      AdvancesTransitive(states[i].sessions[id], states[j - 1].sessions[id], states[j].sessions[id]);
    }
  }

  lemma AlwaysAdvances(s: Session)
    ensures Advances(s, s)
  {
  }

  lemma AdvancesTransitive(s: Session, u: Session, t: Session)
    requires Advances(s, u) && Advances(u, t)
    ensures Advances(s, t)
  {
  }

  lemma HereRun(states: seq<Fabric>, events: seq<Event>, start: Nanos)
    requires Run(states, events, start)
    ensures |states| == |events| + 1
  {
  }

  /** A session that ever booked an unproven byte never completes. */
  lemma UnprovenNeverCompletes(states: seq<Fabric>, events: seq<Event>, start: Nanos, i: nat, j: nat, id: SessionId)
    requires Run(states, events, start) && i <= j < |states| && Retained(states, i, j, id)
    requires states[i].sessions[id].ledger.unproven > 0
    ensures !states[j].sessions[id].state.TrafficSessionComplete?
  {
    hide Run;
    RunAdvances(states, events, start, i, j, id);
    RunConserves(states, events, start, j, id);
  }

  /** A terminal session never changes again. */
  lemma TerminalIsFinal(states: seq<Fabric>, events: seq<Event>, start: Nanos, i: nat, j: nat, id: SessionId)
    requires Run(states, events, start) && i <= j < |states| && Retained(states, i, j, id)
    requires IsTerminal(states[i].sessions[id].state)
    ensures states[j].sessions[id] == states[i].sessions[id]
  {
    hide Run;
    RunAdvances(states, events, start, i, j, id);
  }

  // -------------------------------------------------------------- authority

  /** The command replaced some authority that the session's envelope was issued under. */
  predicate Changed(c: Command, o: Outcome, s: Session) {
    o.Done? && (c.PolicyCmd? || c.TopologyCmd? || c.EpochCmd? || (c.ContractCmd? && c.contract.workload == s.request.workload))
  }

  lemma DemandHolds(s: Session)
    ensures Held(Demand(s)) && Held(Restarted(s))
  {
  }

  lemma ChangeHolds(f: Fabric, c: Command, at: Nanos, id: SessionId)
    requires Good(f) && id in f.sessions && Changed(c, Step(f, c, at).1, f.sessions[id])
    ensures id in Step(f, c, at).0.sessions && Held(Step(f, c, at).0.sessions[id])
  {
    hide Good, Held, ApplyPolicy, ApplyTopology, AdvanceEpoch, UpsertContract;
    ProvisionedContracts(f);
    match c
    case PolicyCmd(p) => GenerationHolds(f, p, Topology(0, []), at, id);
    case TopologyCmd(t) => GenerationHolds(f, f.policy, t, at, id);
    case EpochCmd(e) => EpochHolds(f, e, id);
    case ContractCmd(k) => ContractHolds(f, k, at, id);
  }

  lemma GenerationHolds(f: Fabric, p: Policy, t: Topology, at: Nanos, id: SessionId)
    requires ContractsValid(f.contracts) && id in f.sessions
    ensures var o := ApplyPolicy(f, p, at); o.1.Done? ==> id in o.0.sessions && Held(o.0.sessions[id])
    ensures var o := ApplyTopology(f, t); o.1.Done? ==> id in o.0.sessions && Held(o.0.sessions[id])
  {
    hide Demand, Held, ClassCredit, WorkloadCredit, PolicyValid, TopologyValid, ContractsValid;
    DemandHolds(f.sessions[id]);
  }

  lemma EpochHolds(f: Fabric, e: Epoch, id: SessionId)
    requires id in f.sessions
    ensures var o := AdvanceEpoch(f, e); o.1.Done? ==> id in o.0.sessions && Held(o.0.sessions[id])
  {
    hide Restarted, Held;
    DemandHolds(f.sessions[id]);
  }

  lemma ContractHolds(f: Fabric, c: Contract, at: Nanos, id: SessionId)
    requires id in f.sessions && f.sessions[id].request.workload == c.workload
    ensures var o := UpsertContract(f, c, at); o.1.Done? ==> id in o.0.sessions && Held(o.0.sessions[id])
  {
    hide Demand, Held, Configured, ContractValid;
    DemandHolds(f.sessions[id]);
  }

  /** What the engine answered to the k-th command of a run. */
  ghost function Answer(states: seq<Fabric>, events: seq<Event>, k: nat): Outcome
    requires k < |events| && k < |states|
  {
    if Good(states[k]) then Step(states[k], events[k].command, events[k].at).1 else Done
  }

  /** Between an authority change and the next revalidation a session stays held and gets no grant. */
  lemma {:induction false} HeldUntilRevalidated(states: seq<Fabric>, events: seq<Event>, start: Nanos, i: nat, j: nat, id: SessionId)
    requires Run(states, events, start) && HoldsResumed(states, events) && i < j < |states| && Retained(states, i, j, id)
    requires Changed(events[i].command, Answer(states, events, i), states[i].sessions[id])
    requires forall k :: i < k < j ==> !Reauthorised(events[k].command, Answer(states, events, k), id)
    ensures Held(states[j].sessions[id])
    ensures states[j].sessions[id].attemptCounter == states[i + 1].sessions[id].attemptCounter
    decreases j - i
  {
    hide Run, Good, Step, Changed, Advances, Reauthorised;
    HereRun(states, events, start);
    if j == i + 1 {
      LinkFollows(states, events, start, i, id);
      ChangeHolds(states[i], events[i].command, events[i].at, id);
    } else {
      HeldUntilRevalidated(states, events, start, i, j - 1, id);
      LinkFollows(states, events, start, j - 1, id);
      assert !Reauthorised(events[j - 1].command, Answer(states, events, j - 1), id);
    }
  }

  /** Authority never comes back by itself: a grant after a change of policy,
  topology, contract or epoch implies a revalidation in between, under a
  strictly larger envelope sequence. */
  lemma NoGrantWithoutRevalidation(states: seq<Fabric>, events: seq<Event>, start: Nanos, i: nat, j: nat, id: SessionId)
    requires Run(states, events, start) && HoldsResumed(states, events) && i < j < |events| && Retained(states, i, j, id)
    requires Changed(events[i].command, Answer(states, events, i), states[i].sessions[id])
    requires events[j].command.WaveCmd? && events[j].command.id == id && Answer(states, events, j).WaveGranted?
    ensures exists k :: i < k < j && Reauthorised(events[k].command, Answer(states, events, k), id)
    ensures states[j].sessions[id].envelopeSequence > states[i].sessions[id].envelopeSequence
  {
    hide Run, Good, Step, Changed, Reauthorised, Held;
    HereRun(states, events, start);
    if forall k :: i < k < j ==> !Reauthorised(events[k].command, Answer(states, events, k), id) {
      HeldUntilRevalidated(states, events, start, i, j, id);
      GrantsNeedAuthority(states, events, start, j);
      assert false;
    }
    var k :| i < k < j && Reauthorised(events[k].command, Answer(states, events, k), id);
    RunAdvances(states, events, start, i, k, id);
    LinkFollows(states, events, start, k, id);
    RunAdvances(states, events, start, k + 1, j, id);
  }

  lemma GrantsNeedAuthority(states: seq<Fabric>, events: seq<Event>, start: Nanos, j: nat)
    requires Run(states, events, start) && j < |events| && events[j].command.WaveCmd? && Answer(states, events, j).WaveGranted?
    requires events[j].command.id in states[j].sessions
    ensures !Held(states[j].sessions[events[j].command.id])
  {
    hide Run, Good, Held, Expire, Advances;
    HereRun(states, events, start);
    RunStaysGood(states, events, start, j);
    var c := events[j].command;
    WaveFollows(states[j], c.id, c.shard, c.fence, c.attempt, events[j].at);
    ExpireFollows(states[j], events[j].at);
  }

  // ------------------------------------------------------------------ fences

  /** No command moves any dimension of authority backwards. */
  lemma StepAuthority(f: Fabric, c: Command, at: Nanos, w: WorkloadId)
    requires Good(f) && w in f.contracts
    ensures var g := Step(f, c, at).0;
            w in g.contracts && NotAfter(AuthorityOf(f, f.contracts[w].generation), AuthorityOf(g, g.contracts[w].generation))
  {
    hide Good, Expire, Submit, Revalidate, Pause, Resume, Cancel, RequestWave, ReportSourceComplete, ReportTransfer,
      ReportVerification, ReportAmbiguous, ClassCredit, WorkloadCredit, Configured, PolicyValid, TopologyValid, Restarted, Demand;
    ProvisionedContracts(f);
  }

  lemma {:induction false} RunAuthority(states: seq<Fabric>, events: seq<Event>, start: Nanos, i: nat, j: nat, w: WorkloadId)
    requires Run(states, events, start) && i <= j < |states| && w in states[i].contracts
    ensures w in states[j].contracts
    ensures NotAfter(AuthorityOf(states[i], states[i].contracts[w].generation), AuthorityOf(states[j], states[j].contracts[w].generation))
    decreases j - i
  {
    hide Run, Good, Step;
    if i < j {
      RunAuthority(states, events, start, i, j - 1, w);
      LinkStep(states, events, start, j - 1);
      StepAuthority(states[j - 1], events[j - 1].command, events[j - 1].at, w);
    }
  }

  lemma LinkStep(states: seq<Fabric>, events: seq<Event>, start: Nanos, k: nat)
    requires Run(states, events, start) && k + 1 < |states|
    ensures |states| == |events| + 1 && Good(states[k]) && Orderly(states[k], events[k])
    ensures states[k + 1] == Step(states[k], events[k].command, events[k].at).0
    ensures start <= events[k].at && (k > 0 ==> events[k - 1].at <= events[k].at)
  {
    hide Good, Initial, Disciplined, Step;
    RunStaysGood(states, events, start, k);
    assert Linked(states[k], events[k], states[k + 1]);
  }

  /** Commands that must carry the session's full current fence. */
  predicate Gated(c: Command) {
    c.RevalidateCmd? || c.PauseCmd? || c.ResumeCmd? || c.WaveCmd? || c.SourceCmd? || c.TransferCmd? || c.VerifyCmd?
  }

  lemma GateNamesAuthority(f: Fabric, id: SessionId, fence: Fence)
    requires id in f.sessions && f.sessions[id].request.workload in f.contracts && Gate(f, id, fence).None?
    ensures Authority(fence.epoch, fence.policy, fence.topology, fence.contract)
            == AuthorityOf(f, f.contracts[f.sessions[id].request.workload].generation)
  {
    FenceAcceptsExactly(fence, AuthorityOf(f, fence.contract));
  }

  lemma GatedRefusal(f: Fabric, c: Command, at: Nanos)
    requires Good(f) && Gated(c) && !c.RevalidateCmd? && Gate(Expire(f, at), c.id, c.fence).Some?
    ensures Step(f, c, at).1.Refused? && Step(f, c, at).0 == Expire(f, at)
  {
    hide Good, Expire, Gate, Wave, Judged, Store, Progress;
    ProvisionedCredit(f);
  }

  /** A command that must carry the full fence is refused when its fence lags, or its session is gone. */
  lemma LaggingRefused(f: Fabric, c: Command, at: Nanos)
    requires Good(f) && Gated(c)
    requires var h := Expire(f, at);
             c.id in h.sessions ==>
               && h.sessions[c.id].request.workload in h.contracts
               && Behind(c.fence, AuthorityOf(h, h.contracts[h.sessions[c.id].request.workload].generation))
    ensures Step(f, c, at).1.Refused? && Step(f, c, at).0 == Expire(f, at)
  {
    hide Good, Expire, Gate, Replan;
    var h := Expire(f, at);
    if c.RevalidateCmd? {
      if c.id in h.sessions {
        FenceAcceptsExactly(c.fence, AuthorityOf(h, h.contracts[h.sessions[c.id].request.workload].generation));
      }
    } else {
      if Gate(h, c.id, c.fence).None? {
        GateNamesAuthority(h, c.id, c.fence);
        assert false;
      }
      GatedRefusal(f, c, at);
    }
  }

  /** A fence that ever lagged behind the authority over a session's workload is
  refused by every later command on that session that must carry the full fence,
  which then does nothing but let elapsed deadlines take effect. */
  lemma StaleFenceRefusedForever(states: seq<Fabric>, events: seq<Event>, start: Nanos, i: nat, j: nat)
    requires Run(states, events, start) && i <= j < |events| && Gated(events[j].command)
    requires events[j].command.id in states[j].sessions
    requires var w := states[j].sessions[events[j].command.id].request.workload;
             w in states[i].contracts
             && Behind(events[j].command.fence, AuthorityOf(states[i], states[i].contracts[w].generation))
    ensures Answer(states, events, j).Refused? && states[j + 1] == Expire(states[j], events[j].at)
  {
    hide Run, Good, Step, Expire, Advances;
    HereRun(states, events, start);
    var c := events[j].command;
    var w := states[j].sessions[c.id].request.workload;
    RunAuthority(states, events, start, i, j, w);
    LinkStep(states, events, start, j);
    if c.id in Expire(states[j], events[j].at).sessions { SameWorkload(states[j], events[j].at, c.id); }
    LaggingRefused(states[j], c, events[j].at);
  }

  // Submissions, cancellations and ambiguity reports look only at the dimensions that the whole fabric shares.

  predicate BehindFabric(fence: Fence, f: Fabric) {
    EpochBefore(fence.epoch, f.epoch) || fence.policy < f.policy.generation || fence.topology < f.topology.generation
  }

  predicate NamesFabric(fence: Fence, f: Fabric) {
    fence.epoch == f.epoch && fence.policy == f.policy.generation && fence.topology == f.topology.generation
  }

  lemma FabricFenceExactly(f: Fabric, fence: Fence)
    ensures FabricFence(f, fence).None? <==> NamesFabric(fence, f)
  {
    FenceAcceptsExactly(fence, AuthorityOf(f, fence.contract));
  }

  predicate Fencing(c: Command) { Gated(c) || c.SubmitCmd? || c.CancelCmd? || c.AmbiguousCmd? }

  lemma ForeignRefused(f: Fabric, c: Command, at: Nanos)
    requires Good(f) && Fencing(c) && !NamesFabric(c.fence, f)
    ensures Step(f, c, at).1.Refused? && Step(f, c, at).0 == Expire(f, at)
  {
    hide Good, Expire, FabricFence, WorkloadFence, Replan, Decide, Store, Progress;
    var h := Expire(f, at);
    FabricFenceExactly(h, c.fence);
    if Gated(c) && !c.RevalidateCmd? {
      GatedRefusal(f, c, at);
    } else if c.RevalidateCmd? && c.id in h.sessions {
      var w := h.sessions[c.id].request.workload;
      FenceAcceptsExactly(c.fence, AuthorityOf(h, if w in h.contracts then h.contracts[w].generation else 0));
    }
  }

  lemma {:induction false} RunRoots(states: seq<Fabric>, events: seq<Event>, start: Nanos, i: nat, j: nat, fence: Fence)
    requires Run(states, events, start) && i <= j < |states| && BehindFabric(fence, states[i])
    ensures BehindFabric(fence, states[j])
    decreases j - i
  {
    hide Run, Good, Step;
    if i < j {
      RunRoots(states, events, start, i, j - 1, fence);
      LinkStep(states, events, start, j - 1);
      StepRoots(states[j - 1], events[j - 1].command, events[j - 1].at, fence);
    }
  }

  lemma StepRoots(f: Fabric, c: Command, at: Nanos, fence: Fence)
    requires Good(f) && BehindFabric(fence, f)
    ensures BehindFabric(fence, Step(f, c, at).0)
  {
    hide Good, Expire, Submit, Revalidate, Pause, Resume, Cancel, RequestWave, ReportSourceComplete, ReportTransfer,
      ReportVerification, ReportAmbiguous, ClassCredit, WorkloadCredit, Configured, PolicyValid, TopologyValid, Restarted, Demand;
    ProvisionedContracts(f);
  }

  /** A fence that ever lagged in epoch, policy or topology is refused by every later fenced command of any kind,
  submissions, cancellations and ambiguity reports included. */
  lemma StaleRootRefusedForever(states: seq<Fabric>, events: seq<Event>, start: Nanos, i: nat, j: nat)
    requires Run(states, events, start) && i <= j < |events| && Fencing(events[j].command)
    requires BehindFabric(events[j].command.fence, states[i])
    ensures Answer(states, events, j).Refused? && states[j + 1] == Expire(states[j], events[j].at)
  {
    hide Run, Good, Step, Expire;
    HereRun(states, events, start);
    RunRoots(states, events, start, i, j, events[j].command.fence);
    LinkStep(states, events, start, j);
    ForeignRefused(states[j], events[j].command, events[j].at);
  }

  lemma SameWorkload(f: Fabric, at: Nanos, id: SessionId)
    requires Good(f) && id in Expire(f, at).sessions
    ensures id in f.sessions && Expire(f, at).sessions[id].request == f.sessions[id].request
  {
    hide Good, Expire;
    ExpireFollows(f, at);
  }

  // ------------------------------------------------------------ rate ceiling

  /** Bytes one command granted to sessions of an isolation class. */
  ghost function GrantedTo(f: Fabric, e: Event, k: IsolationClass): nat
    requires Good(f)
  {
    var o := Step(f, e.command, e.at).1;
    var h := Expire(f, e.at);
    if e.command.WaveCmd? && o.WaveGranted? && e.command.id in h.sessions && h.sessions[e.command.id].envelope.isolation == k
    then o.bytes else 0
  }

  predicate Reconfigures(c: Command, o: Outcome) { c.PolicyCmd? && o.Done? }

  /** The class is configured with this ceiling and burst window, and was last looked at no later than `now`. */
  predicate ClassSetting(f: Fabric, k: IsolationClass, e: ClassEnvelope, now: Nanos) {
    && k in f.policy.envelopes && f.policy.envelopes[k].ceiling == e.ceiling && f.policy.envelopes[k].burstWindow == e.burstWindow
    && e.ceiling < U64 && e.burstWindow < U64
    && k in f.credit.classes && f.credit.classes[k].rate == e.ceiling
    && f.credit.classes[k].capacity == BurstCapacity(e.ceiling, e.burstWindow)
    && f.credit.classes[k].last <= now
  }

  lemma WaveWithinCeiling(h: Fabric, id: SessionId, p: nat, attempt: AttemptId, at: Nanos, k: IsolationClass,
                          granted: nat, n: nat, start: Nanos)
    requires CreditOk(h.credit) && id in h.sessions && p < |h.sessions[id].shards|
    requires k in h.credit.classes && WithinCeiling(h.credit.classes[k], granted, n, start)
    ensures var o := Wave(h, id, p, attempt, at);
            var more := if o.1.WaveGranted? && h.sessions[id].envelope.isolation == k then o.1.bytes else 0;
            && k in o.0.credit.classes && WithinCeiling(o.0.credit.classes[k], granted + more, n, start)
            && o.0.credit.classes[k].rate == h.credit.classes[k].rate
            && o.0.credit.classes[k].capacity == h.credit.classes[k].capacity
            && (h.credit.classes[k].last <= at ==> o.0.credit.classes[k].last <= at)
  {
    hide Refilled, WithinCeiling, Wave;
    WaveBucket(h, id, p, attempt, at, k);
    var b, o := h.credit.classes[k], Wave(h, id, p, attempt, at);
    RefillWithinCeiling(b, granted, n, start, at);
    RefilledTwice(b, at);
    if o.1.WaveGranted? && h.sessions[id].envelope.isolation == k {
      SpendWithinCeiling(Refilled(b, at), o.1.bytes, granted, n, start);
    }
  }

  /** What a wave request does to one class bucket. */
  lemma WaveBucket(h: Fabric, id: SessionId, p: nat, attempt: AttemptId, at: Nanos, k: IsolationClass)
    requires CreditOk(h.credit) && id in h.sessions && p < |h.sessions[id].shards| && k in h.credit.classes
    ensures var o := Wave(h, id, p, attempt, at);
            var b := h.credit.classes[k];
            && k in o.0.credit.classes
            && (h.sessions[id].envelope.isolation != k ==> o.0.credit.classes[k] == b)
            && (h.sessions[id].envelope.isolation == k ==>
                  if o.1.WaveGranted? then o.1.bytes <= Refilled(b, at).tokens && o.0.credit.classes[k] == Spend(Refilled(b, at), o.1.bytes)
                  else o.0.credit.classes[k] == Refilled(b, at))
  {
    hide Refilled, Grant, Remaining, CreditOk, Consume, ObserveClass, Spend;
    var s := h.sessions[id];
    var seen := ObserveClass(h.credit, s.envelope.isolation, at);
    var chunk := Min(Min(Remaining(s.shards[p]), MAX_CHUNK), ClassTokens(seen, s.envelope.isolation));
    ConsumeBucket(h.credit, s.envelope.isolation, s.request.workload, chunk, at, k);
  }

  lemma SpendWithinCeiling(b: Bucket, bytes: nat, granted: nat, n: nat, start: Nanos)
    requires WithinCeiling(b, granted, n, start) && bytes <= b.tokens
    ensures WithinCeiling(Spend(b, bytes), granted + bytes, n, start)
  {
  }

  /** The command leaves the class's ceiling and burst window as they are. */
  predicate KeepsSetting(c: Command, k: IsolationClass, e: ClassEnvelope) {
    c.PolicyCmd? && k in c.policy.envelopes ==>
      c.policy.envelopes[k].ceiling == e.ceiling && c.policy.envelopes[k].burstWindow == e.burstWindow
  }

  ghost predicate Ceiling(f: Fabric, k: IsolationClass, e: ClassEnvelope, granted: nat, n: nat, start: Nanos, now: Nanos) {
    ClassSetting(f, k, e, now) && WithinCeiling(f.credit.classes[k], granted, n, start)
  }

  lemma PolicyCeiling(f: Fabric, p: Policy, at: Nanos, k: IsolationClass, e: ClassEnvelope, granted: nat, n: nat, start: Nanos)
    requires Good(f) && Ceiling(f, k, e, granted, n, start, at) && KeepsSetting(PolicyCmd(p), k, e)
    ensures var o := ApplyPolicy(f, p, at); Ceiling(o.0, k, e, granted, if o.1.Done? then n + 1 else n, start, at)
  {
    hide Good, ContractsValid, WithinCeiling, WorkloadCredit, BurstCapacity;
    ProvisionedContracts(f);
    var o := ApplyPolicy(f, p, at);
    if o.1.Done? {
      ReconfigureWithinCeiling(f.credit.classes[k], granted, n, start, e.burstWindow, at);
      assert o.0.credit.classes[k] == Configured(e.ceiling, e.burstWindow, at);
    }
  }

  lemma WaveCeiling(f: Fabric, c: Command, at: Nanos, k: IsolationClass, e: ClassEnvelope, granted: nat, n: nat, start: Nanos)
    requires Good(f) && c.WaveCmd? && Ceiling(f, k, e, granted, n, start, at)
    ensures Ceiling(Step(f, c, at).0, k, e, granted + GrantedTo(f, Event(c, at), k), n, start, at)
  {
    hide Good, WithinCeiling, Expire, WaveGate, Wave, BurstCapacity;
    ProvisionedCredit(f);
    var h := Expire(f, at);
    WaveRefusals(h, c.id, c.shard, c.fence, at);
    if WaveGate(h, c.id, c.shard, c.fence, at).None? {
      WaveWithinCeiling(h, c.id, Position(h.sessions[c.id].shards, c.shard), c.attempt, at, k, granted, n, start);
    }
  }

  lemma StepCeiling(f: Fabric, c: Command, at: Nanos, k: IsolationClass, e: ClassEnvelope, granted: nat, n: nat, start: Nanos)
    requires Good(f) && Ceiling(f, k, e, granted, n, start, at) && KeepsSetting(c, k, e)
    ensures var o := Step(f, c, at);
            Ceiling(o.0, k, e, granted + GrantedTo(f, Event(c, at), k), if Reconfigures(c, o.1) then n + 1 else n, start, at)
  {
    hide Good, Ceiling, ApplyPolicy, RequestWave, Expire, Submit, Revalidate, Pause, Resume, Cancel, ReportSourceComplete, ReportTransfer,
      ReportVerification, ReportAmbiguous, ApplyTopology, UpsertContract, AdvanceEpoch;
    if c.PolicyCmd? {
      PolicyCeiling(f, c.policy, at, k, e, granted, n, start);
    } else if c.WaveCmd? {
      WaveCeiling(f, c, at, k, e, granted, n, start);
    } else {
      ClassCreditKept(f, c, at);
      CeilingKept(f, Step(f, c, at).0, k, e, granted, n, start, at);
    }
  }

  /** Only policies and waves touch the class buckets or the class settings. */
  lemma ClassCreditKept(f: Fabric, c: Command, at: Nanos)
    requires Good(f) && !c.PolicyCmd? && !c.WaveCmd?
    ensures var g := Step(f, c, at).0; g.credit.classes == f.credit.classes && g.policy == f.policy
  {
    hide Good, Expire, Submit, Revalidate, Pause, Resume, Cancel, RequestWave, ReportSourceComplete, ReportTransfer, ApplyPolicy,
      ReportVerification, ReportAmbiguous, Configured, TopologyValid, Restarted, Demand;
  }

  lemma CeilingKept(f: Fabric, g: Fabric, k: IsolationClass, e: ClassEnvelope, granted: nat, n: nat, start: Nanos, at: Nanos)
    requires Ceiling(f, k, e, granted, n, start, at) && g.credit.classes == f.credit.classes && g.policy == f.policy
    ensures Ceiling(g, k, e, granted, n, start, at)
  {
  }

  ghost function GrantedSum(states: seq<Fabric>, events: seq<Event>, k: IsolationClass, n: nat): nat
    requires n <= |events| && n <= |states|
  {
    if n == 0 then 0
    else GrantedSum(states, events, k, n - 1) + if Good(states[n - 1]) then GrantedTo(states[n - 1], events[n - 1], k) else 0
  }

  ghost function PolicyApplications(states: seq<Fabric>, events: seq<Event>, n: nat): nat
    requires n <= |events| && n <= |states|
  {
    if n == 0 then 0
    else PolicyApplications(states, events, n - 1)
         + if Reconfigures(events[n - 1].command, Answer(states, events, n - 1)) then 1 else 0
  }

  function Clock(events: seq<Event>, n: nat, start: Nanos): Nanos
    requires n <= |events|
  {
    if n == 0 then start else events[n - 1].at
  }

  lemma InitialCeiling(f: Fabric, start: Nanos, k: IsolationClass, e: ClassEnvelope)
    requires Initial(f, start) && k in f.policy.envelopes
    requires f.policy.envelopes[k].ceiling == e.ceiling && f.policy.envelopes[k].burstWindow == e.burstWindow
    ensures Ceiling(f, k, e, 0, 1, start, start)
  {
    hide TopologyValid, ContractsValid;
    assert f.credit.classes[k] == Configured(e.ceiling, e.burstWindow, start);
  }

  lemma CeilingLater(f: Fabric, k: IsolationClass, e: ClassEnvelope, granted: nat, n: nat, start: Nanos, now: Nanos, later: Nanos)
    requires Ceiling(f, k, e, granted, n, start, now) && now <= later
    ensures Ceiling(f, k, e, granted, n, start, later)
  {
    hide WithinCeiling;
  }

  lemma {:induction false} RunWithinCeiling(states: seq<Fabric>, events: seq<Event>, start: Nanos, k: IsolationClass, e: ClassEnvelope, n: nat)
    requires Run(states, events, start) && n <= |events| && k in states[0].policy.envelopes
    requires states[0].policy.envelopes[k].ceiling == e.ceiling && states[0].policy.envelopes[k].burstWindow == e.burstWindow
    requires forall i :: 0 <= i < n ==> KeepsSetting(events[i].command, k, e)
    ensures Ceiling(states[n], k, e, GrantedSum(states, events, k, n), 1 + PolicyApplications(states, events, n), start, Clock(events, n, start))
  {
    hide Good, Ceiling, Step, Initial, GrantedTo, Reconfigures, Linked;
    if n == 0 {
      InitialCeiling(states[0], start, k, e);
    } else {
      RunWithinCeiling(states, events, start, k, e, n - 1);
      LinkStep(states, events, start, n - 1);
      var granted, m := GrantedSum(states, events, k, n - 1), 1 + PolicyApplications(states, events, n - 1);
      CeilingLater(states[n - 1], k, e, granted, m, start, Clock(events, n - 1, start), events[n - 1].at);
      StepCeiling(states[n - 1], events[n - 1].command, events[n - 1].at, k, e, granted, m, start);
    }
  }

  /** Rate isolation over every run: all bytes ever granted to a class fit in one
  burst per policy application, plus one, plus the ceiling over the elapsed time. */
  lemma RunRateCeiling(states: seq<Fabric>, events: seq<Event>, start: Nanos, k: IsolationClass, e: ClassEnvelope, n: nat)
    requires Run(states, events, start) && n <= |events| && k in states[0].policy.envelopes
    requires states[0].policy.envelopes[k].ceiling == e.ceiling && states[0].policy.envelopes[k].burstWindow == e.burstWindow
    requires forall i :: 0 <= i < n ==> KeepsSetting(events[i].command, k, e)
    ensures start <= Clock(events, n, start) && e.ceiling < U64 && e.burstWindow < U64
    ensures GrantedSum(states, events, k, n) <=
            (1 + PolicyApplications(states, events, n)) * BurstCapacity(e.ceiling, e.burstWindow)
            + e.ceiling * (Clock(events, n, start) - start) / SECOND
  {
    hide Run, BurstCapacity;
    RunWithinCeiling(states, events, start, k, e, n);
    ClockForward(states, events, start, n);
    CeilingBound(states[n].credit.classes[k], GrantedSum(states, events, k, n), 1 + PolicyApplications(states, events, n), start,
                 Clock(events, n, start));
  }

  lemma ClockForward(states: seq<Fabric>, events: seq<Event>, start: Nanos, n: nat)
    requires Run(states, events, start) && n <= |events|
    ensures |states| == |events| + 1 && start <= Clock(events, n, start)
  {
    hide Good, Linked, Initial;
  }

  // ---------------------------------------------------------- advertised waits

  /** No wait that the engine advertises wraps: it asks for at most one chunk. */
  lemma ChunkWaitExact(b: Bucket, bytes: nat, at: Nanos)
    requires BucketOk(b) && b.tokens < bytes <= MAX_CHUNK && b.last == at
    ensures Refilled(b, at + TimeUntil(b, bytes)).tokens >= bytes <==> bytes <= b.capacity && bytes - b.tokens <= b.rate
  {
    hide Refilled, TimeUntil;
    assert (bytes - b.tokens) * SECOND <= MAX_CHUNK * SECOND < U64;
    AdvertisedWaitExact(b, bytes);
  }

  /** A request deferred for want of class credit: asking again after the advertised wait finds the minimum useful
  grant exactly when the burst can hold it and no more was missing than accrues in a second. */
  lemma ClassWaitExact(f: Fabric, id: SessionId, p: nat, attempt: AttemptId, at: Nanos)
    requires CreditOk(f.credit) && id in f.sessions && p < |f.sessions[id].shards|
    requires var k := f.sessions[id].envelope.isolation;
             && k in f.credit.classes && f.credit.classes[k].last <= at
             && Refilled(f.credit.classes[k], at).tokens < Min(Remaining(f.sessions[id].shards[p]), MIN_CHUNK)
    ensures var k, useful := f.sessions[id].envelope.isolation, Min(Remaining(f.sessions[id].shards[p]), MIN_CHUNK);
            var o := Wave(f, id, p, attempt, at);
            && o.1 == WaveDeferred(ClassCeilingSaturated) && CreditOk(o.0.credit) && k in o.0.credit.classes
            && var b := o.0.credit.classes[k];
               b.rate < U64 &&
               (ClassTokens(ObserveClass(o.0.credit, k, at + TimeUntil(b, useful)), k) >= useful <==>
                useful <= b.capacity && useful - b.tokens <= b.rate)
  {
    hide Refilled, TimeUntil;
    var k := f.sessions[id].envelope.isolation;
    RefilledTwice(f.credit.classes[k], at);
    RefilledNow(f.credit.classes[k], at);
    ChunkWaitExact(Refilled(f.credit.classes[k], at), Min(Remaining(f.sessions[id].shards[p]), MIN_CHUNK), at);
  }

  lemma RefilledNow(b: Bucket, at: Nanos)
    requires BucketOk(b) && b.last <= at
    ensures Refilled(b, at).last == at
  {
  }

  /** The same for the workload's bucket, which must cover the whole chunk. */
  lemma WorkloadWaitExact(c: Credit, k: IsolationClass, w: WorkloadId, chunk: nat, at: Nanos)
    requires CreditOk(c) && k in c.classes && w in c.workloads && c.workloads[w].last <= at && chunk <= MAX_CHUNK
    requires Consume(c, k, w, chunk, at).1 == NotGranted(WorkloadCeilingSaturated)
    ensures var b := Consume(c, k, w, chunk, at).0.workloads[w];
            && BucketOk(b) && b.tokens < chunk
            && (Refilled(b, at + TimeUntil(b, chunk)).tokens >= chunk <==> chunk <= b.capacity && chunk - b.tokens <= b.rate)
  {
    hide Refilled, TimeUntil;
    RefilledNow(c.workloads[w], at);
    ChunkWaitExact(Refilled(c.workloads[w], at), chunk, at);
  }
}
