/** The rate ceiling of a workload over every run, beside that of its isolation class. */
module Ceilings {
  import opened Sums
  import opened Model
  import opened Sessions
  import opened Shaper
  import opened Rates
  import opened Spec
  import opened Invariants
  import opened Commands
  import opened Runs
  import opened Theorems

  /** Bytes one command granted to sessions of a workload. */
  ghost function GrantedFor(f: Fabric, e: Event, w: WorkloadId): nat
    requires Good(f)
  {
    var o := Step(f, e.command, e.at).1;
    var h := Expire(f, e.at);
    if e.command.WaveCmd? && o.WaveGranted? && e.command.id in h.sessions && h.sessions[e.command.id].request.workload == w
    then o.bytes else 0
  }

  /** The workload's bucket was filled again: by a policy, or by a contract of its own. */
  predicate Refills(c: Command, o: Outcome, w: WorkloadId) {
    o.Done? && (c.PolicyCmd? || (c.ContractCmd? && c.contract.workload == w))
  }

  /** The command leaves the workload's ceiling as it is. */
  predicate KeepsCeiling(c: Command, w: WorkloadId, ceiling: nat) {
    c.ContractCmd? && c.contract.workload == w ==> c.contract.ceiling == ceiling
  }

  /** The workload is configured with this ceiling, and its bucket within what the ceiling allows. */
  ghost predicate Bounded(f: Fabric, w: WorkloadId, ceiling: nat, granted: nat, n: nat, start: Nanos, now: Nanos) {
    && ceiling < U64 && w in f.contracts && f.contracts[w].ceiling == ceiling && w in f.credit.workloads
    && f.credit.workloads[w].rate == ceiling && f.credit.workloads[w].capacity == BurstCapacity(ceiling, WORKLOAD_WINDOW)
    && f.credit.workloads[w].last <= now && WithinCeiling(f.credit.workloads[w], granted, n, start)
  }

  /** What a wave request does to one workload bucket. */
  lemma WaveWorkload(h: Fabric, id: SessionId, p: nat, attempt: AttemptId, at: Nanos, w: WorkloadId)
    requires CreditOk(h.credit) && id in h.sessions && p < |h.sessions[id].shards| && w in h.credit.workloads
    ensures var o := Wave(h, id, p, attempt, at);
            var b := h.credit.workloads[w];
            && o.0.contracts == h.contracts && w in o.0.credit.workloads
            && (if o.1.WaveGranted? && h.sessions[id].request.workload == w
                then o.1.bytes <= Refilled(b, at).tokens && o.0.credit.workloads[w] == Spend(Refilled(b, at), o.1.bytes)
                else o.0.credit.workloads[w] == b || o.0.credit.workloads[w] == Refilled(b, at))
  {
    hide Refilled, Grant, Remaining, Spend;
  }

  lemma SpentWithin(b: Bucket, bytes: nat, granted: nat, n: nat, start: Nanos, at: Nanos)
    requires WithinCeiling(b, granted, n, start) && bytes <= Refilled(b, at).tokens
    ensures WithinCeiling(Refilled(b, at), granted, n, start)
    ensures WithinCeiling(Spend(Refilled(b, at), bytes), granted + bytes, n, start)
  {
    hide Refilled;
    RefillWithinCeiling(b, granted, n, start, at);
    SpendWithinCeiling(Refilled(b, at), bytes, granted, n, start);
  }

  lemma WaveBounded(f: Fabric, c: Command, at: Nanos, w: WorkloadId, ceiling: nat, granted: nat, n: nat, start: Nanos)
    requires Good(f) && c.WaveCmd? && Bounded(f, w, ceiling, granted, n, start, at)
    ensures Bounded(Step(f, c, at).0, w, ceiling, granted + GrantedFor(f, Event(c, at), w), n, start, at)
  {
    hide Good, WithinCeiling, Expire, WaveGate, Wave, BurstCapacity, Refilled, Spend;
    ProvisionedCredit(f);
    var h, b := Expire(f, at), f.credit.workloads[w];
    WaveRefusals(h, c.id, c.shard, c.fence, at);
    if WaveGate(h, c.id, c.shard, c.fence, at).None? {
      var p := Position(h.sessions[c.id].shards, c.shard);
      var o := Wave(h, c.id, p, c.attempt, at);
      WaveWorkload(h, c.id, p, c.attempt, at, w);
      RefilledTwice(b, at);
      RefillWithinCeiling(b, granted, n, start, at);
      if o.1.WaveGranted? && h.sessions[c.id].request.workload == w {
        SpentWithin(b, o.1.bytes, granted, n, start, at);
        SpendKeeps(Refilled(b, at), o.1.bytes);
      }
    }
  }

  lemma SpendKeeps(b: Bucket, bytes: nat)
    requires bytes <= b.tokens
    ensures Spend(b, bytes).rate == b.rate && Spend(b, bytes).capacity == b.capacity && Spend(b, bytes).last == b.last
  {
  }

  lemma Refilling(b: Bucket, ceiling: nat, granted: nat, n: nat, start: Nanos, at: Nanos)
    requires ceiling < U64 && b.rate == ceiling && b.capacity == BurstCapacity(ceiling, WORKLOAD_WINDOW) && b.last <= at
    requires WithinCeiling(b, granted, n, start)
    ensures var r := Configured(ceiling, WORKLOAD_WINDOW, at);
            && r.rate == ceiling && r.capacity == BurstCapacity(ceiling, WORKLOAD_WINDOW) && r.last == at
            && WithinCeiling(r, granted, n + 1, start)
  {
    hide BurstCapacity, WithinCeiling;
    ReconfigureWithinCeiling(b, granted, n, start, WORKLOAD_WINDOW, at);
  }

  lemma PolicyBounded(f: Fabric, p: Policy, at: Nanos, w: WorkloadId, ceiling: nat, granted: nat, n: nat, start: Nanos)
    requires Good(f) && Bounded(f, w, ceiling, granted, n, start, at)
    ensures var o := ApplyPolicy(f, p, at); Bounded(o.0, w, ceiling, granted, if o.1.Done? then n + 1 else n, start, at)
  {
    hide Good, ContractsValid, WithinCeiling, ClassCredit, BurstCapacity, PolicyValid, Configured;
    ProvisionedContracts(f);
    Refilling(f.credit.workloads[w], ceiling, granted, n, start, at);
    var o := ApplyPolicy(f, p, at);
    if o.1.Done? { assert o.0.credit.workloads[w] == Configured(ceiling, WORKLOAD_WINDOW, at); }
  }

  lemma ContractBounded(f: Fabric, c: Contract, at: Nanos, w: WorkloadId, ceiling: nat, granted: nat, n: nat, start: Nanos)
    requires Bounded(f, w, ceiling, granted, n, start, at) && KeepsCeiling(ContractCmd(c), w, ceiling)
    ensures var o := UpsertContract(f, c, at);
            Bounded(o.0, w, ceiling, granted, if o.1.Done? && c.workload == w then n + 1 else n, start, at)
  {
    hide WithinCeiling, BurstCapacity, Configured, DemandedOf;
    Refilling(f.credit.workloads[w], ceiling, granted, n, start, at);
  }

  lemma WorkloadsKept(f: Fabric, c: Command, at: Nanos)
    requires Good(f) && !c.PolicyCmd? && !c.WaveCmd? && !c.ContractCmd?
    ensures var g := Step(f, c, at).0; g.credit.workloads == f.credit.workloads && g.contracts == f.contracts
  {
    hide Good, Expire, Submit, Revalidate, Pause, Resume, Cancel, RequestWave, ReportSourceComplete, ReportTransfer, ApplyPolicy,
      UpsertContract, ReportVerification, ReportAmbiguous, TopologyValid, Restarted, Demand;
  }

  lemma BoundedKept(f: Fabric, g: Fabric, w: WorkloadId, ceiling: nat, granted: nat, n: nat, start: Nanos, at: Nanos)
    requires Bounded(f, w, ceiling, granted, n, start, at) && g.credit.workloads == f.credit.workloads && g.contracts == f.contracts
    ensures Bounded(g, w, ceiling, granted, n, start, at)
  {
  }

  lemma StepBounded(f: Fabric, c: Command, at: Nanos, w: WorkloadId, ceiling: nat, granted: nat, n: nat, start: Nanos)
    requires Good(f) && Bounded(f, w, ceiling, granted, n, start, at) && KeepsCeiling(c, w, ceiling)
    ensures var o := Step(f, c, at);
            Bounded(o.0, w, ceiling, granted + GrantedFor(f, Event(c, at), w), if Refills(c, o.1, w) then n + 1 else n, start, at)
  {
    hide Good, Bounded, ApplyPolicy, RequestWave, Expire, Submit, Revalidate, Pause, Resume, Cancel, ReportSourceComplete, ReportTransfer,
      ReportVerification, ReportAmbiguous, ApplyTopology, UpsertContract, AdvanceEpoch;
    if c.PolicyCmd? {
      PolicyBounded(f, c.policy, at, w, ceiling, granted, n, start);
    } else if c.WaveCmd? {
      WaveBounded(f, c, at, w, ceiling, granted, n, start);
    } else if c.ContractCmd? {
      ContractBounded(f, c.contract, at, w, ceiling, granted, n, start);
    } else {
      WorkloadsKept(f, c, at);
      BoundedKept(f, Step(f, c, at).0, w, ceiling, granted, n, start, at);
    }
  }

  ghost function GrantedTotal(states: seq<Fabric>, events: seq<Event>, w: WorkloadId, n: nat): nat
    requires n <= |events| && n <= |states|
  {
    if n == 0 then 0
    else GrantedTotal(states, events, w, n - 1) + if Good(states[n - 1]) then GrantedFor(states[n - 1], events[n - 1], w) else 0
  }

  ghost function RefillCount(states: seq<Fabric>, events: seq<Event>, w: WorkloadId, n: nat): nat
    requires n <= |events| && n <= |states|
  {
    if n == 0 then 0
    else RefillCount(states, events, w, n - 1) + if Refills(events[n - 1].command, Answer(states, events, n - 1), w) then 1 else 0
  }

  lemma InitialBounded(f: Fabric, start: Nanos, w: WorkloadId)
    requires Initial(f, start) && w in f.contracts
    ensures Bounded(f, w, f.contracts[w].ceiling, 0, 1, start, start)
  {
    hide TopologyValid, PolicyValid;
    assert f.credit.workloads[w] == Configured(f.contracts[w].ceiling, WORKLOAD_WINDOW, start);
  }

  lemma BoundedLater(f: Fabric, w: WorkloadId, ceiling: nat, granted: nat, n: nat, start: Nanos, now: Nanos, later: Nanos)
    requires Bounded(f, w, ceiling, granted, n, start, now) && now <= later
    ensures Bounded(f, w, ceiling, granted, n, start, later)
  {
    hide WithinCeiling;
  }

  lemma {:induction false} RunBounded(states: seq<Fabric>, events: seq<Event>, start: Nanos, w: WorkloadId, ceiling: nat, n: nat)
    requires Run(states, events, start) && n <= |events| && w in states[0].contracts && states[0].contracts[w].ceiling == ceiling
    requires forall i :: 0 <= i < n ==> KeepsCeiling(events[i].command, w, ceiling)
    ensures Bounded(states[n], w, ceiling, GrantedTotal(states, events, w, n), 1 + RefillCount(states, events, w, n), start, Clock(events, n, start))
  {
    hide Good, Bounded, Step, Initial, GrantedFor, Refills, Linked;
    if n == 0 {
      InitialBounded(states[0], start, w);
    } else {
      RunBounded(states, events, start, w, ceiling, n - 1);
      LinkStep(states, events, start, n - 1);
      var granted, m := GrantedTotal(states, events, w, n - 1), 1 + RefillCount(states, events, w, n - 1);
      BoundedLater(states[n - 1], w, ceiling, granted, m, start, Clock(events, n - 1, start), events[n - 1].at);
      StepBounded(states[n - 1], events[n - 1].command, events[n - 1].at, w, ceiling, granted, m, start);
    }
  }

  /** Over every run, all bytes ever granted to a workload fit in one burst per policy application and per contract of its
  own, plus one, plus its ceiling over the elapsed time. */
  lemma RunWorkloadCeiling(states: seq<Fabric>, events: seq<Event>, start: Nanos, w: WorkloadId, ceiling: nat, n: nat)
    requires Run(states, events, start) && n <= |events| && w in states[0].contracts && states[0].contracts[w].ceiling == ceiling
    requires forall i :: 0 <= i < n ==> KeepsCeiling(events[i].command, w, ceiling)
    ensures start <= Clock(events, n, start) && ceiling < U64
    ensures GrantedTotal(states, events, w, n) <=
            (1 + RefillCount(states, events, w, n)) * BurstCapacity(ceiling, WORKLOAD_WINDOW) + ceiling * (Clock(events, n, start) - start) / SECOND
  {
    hide Run, BurstCapacity, WithinCeiling;
    RunBounded(states, events, start, w, ceiling, n);
    ClockForward(states, events, start, n);
    CeilingBound(states[n].credit.workloads[w], GrantedTotal(states, events, w, n), 1 + RefillCount(states, events, w, n), start,
                 Clock(events, n, start));
  }
}
