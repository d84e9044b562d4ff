/** The fabric as a state machine over plain values.

A `Fabric` holds only what is not derivable: the authority, the credit, the
session table, the deadline index, the history order and the replay memory.
Everything the engine keeps as a counter or a secondary index is a scan here. */
module Spec {
  import opened Sums
  import opened Model
  import opened Sessions
  import opened Shaper
  import opened Rates

  datatype DecisionKind = Admit | Defer | Deny

  datatype CommandRecord = CommandRecord(kind: DecisionKind, session: Option<SessionId>, fingerprint: nat)

  datatype Fabric = Fabric(
    limits: Limits, epoch: Epoch, policy: Policy, topology: Topology, contracts: map<WorkloadId, Contract>,
    credit: Credit, sessions: map<SessionId, Session>, deadlines: map<Nanos, seq<SessionId>>,
    terminalOrder: seq<SessionId>, pruned: Ledger, retentionBound: nat,
    commands: map<CommandId, CommandRecord>, commandOrder: seq<CommandId>, commandBound: nat,
    shuttingDown: bool)

  datatype Outcome =
    | Refused(code: ErrorCode)
    | Decided(kind: DecisionKind, reason: Option<Reason>, session: Option<SessionId>)
    | Replayed(kind: DecisionKind, session: Option<SessionId>)
    | WaveGranted(attempt: AttemptId, bytes: nat)
    | WaveDeferred(cause: Reason)
    | Done

  /** The same authority is in force. */
  predicate Rooted(f: Fabric, g: Fabric) {
    g.limits == f.limits && g.epoch == f.epoch && g.policy == f.policy && g.topology == f.topology && g.contracts == f.contracts
  }

  /** The same authority, and no credit observed or spent. */
  predicate Unspent(f: Fabric, g: Fabric) { Rooted(f, g) && g.credit == f.credit }

  const MIN_CHUNK: nat := 16 * 1024
  const MAX_CHUNK: nat := 1024 * 1024
  const WORKLOAD_WINDOW: nat := 100_000_000

  // ------------------------------------------------------------------ scans

  predicate Active(s: Session) { !IsTerminal(s.state) }

  function ActiveOne(s: Session): nat { if Active(s) then 1 else 0 }

  function ActiveInClass(c: IsolationClass): Session -> nat {
    (s: Session) => if Active(s) && s.envelope.isolation == c then 1 else 0
  }

  function ActiveForWorkload(w: WorkloadId): Session -> nat {
    (s: Session) => if Active(s) && s.request.workload == w then 1 else 0
  }

  function RateOn(p: PathId): Session -> nat {
    (s: Session) => if s.reserved.Some? && s.reserved.value.path == p then s.reserved.value.rate else 0
  }

  function AttemptsOf(s: Session): nat { s.activeAttempts }

  function AdmittedOf(s: Session): nat { s.ledger.admitted }

  function TransferredOf(s: Session): nat { s.ledger.transferred }

  function VerifiedOf(s: Session): nat { s.ledger.verified }

  function CancelledOf(s: Session): nat { s.ledger.cancelled }

  function WastedOf(s: Session): nat { s.ledger.wasted }

  function UnprovenOf(s: Session): nat { s.ledger.unproven }

  function OutstandingOf(s: Session): nat { s.ledger.outstanding }

  /** Bucket by bucket, the bytes of all retained sessions on top of what was archived. */
  ghost function Books(sessions: map<SessionId, Session>, pruned: Ledger): Ledger {
    Ledger(pruned.admitted + Total(sessions, AdmittedOf),
           pruned.transferred + Total(sessions, TransferredOf),
           pruned.verified + Total(sessions, VerifiedOf),
           pruned.cancelled + Total(sessions, CancelledOf),
           pruned.wasted + Total(sessions, WastedOf),
           pruned.unproven + Total(sessions, UnprovenOf),
           pruned.outstanding + Total(sessions, OutstandingOf))
  }

  predicate ForCheckpoint(s: Session, c: CheckpointId) { s.request.checkpoint == c }

  predicate NewerRetained(sessions: map<SessionId, Session>, c: CheckpointId, generation: nat) {
    exists id :: id in sessions && ForCheckpoint(sessions[id], c)
                 && generation < sessions[id].request.checkpointGeneration
  }

  predicate IsRival(sessions: map<SessionId, Session>, c: CheckpointId, id: SessionId) {
    id in sessions && ForCheckpoint(sessions[id], c) && Active(sessions[id])
  }

  /** The active session of a checkpoint, when there is one. */
  ghost function Rival(sessions: map<SessionId, Session>, c: CheckpointId): (r: Option<SessionId>)
    ensures r.Some? ==> IsRival(sessions, c, r.value)
    ensures r.None? ==> forall id :: !IsRival(sessions, c, id)
  {
    if exists id :: IsRival(sessions, c, id) then
      var id :| IsRival(sessions, c, id);
      Some(id)
    else None
  }

  // ---------------------------------------------------------------- history

  function Archive(p: Ledger, l: Ledger): Ledger {
    p.(admitted := p.admitted + l.admitted, transferred := p.transferred + l.transferred,
       verified := p.verified + l.verified, cancelled := p.cancelled + l.cancelled,
       wasted := p.wasted + l.wasted, unproven := p.unproven + l.unproven)
  }

  /** Drops the oldest terminal sessions until the table is small enough. */
  function Evict(f: Fabric, target: nat): (g: Fabric)
    ensures g == f.(sessions := g.sessions, terminalOrder := g.terminalOrder, pruned := g.pruned)
    decreases |f.terminalOrder|
  {
    if |f.sessions| <= target || f.terminalOrder == [] then f
    else
      var id := f.terminalOrder[0];
      var g := f.(terminalOrder := f.terminalOrder[1..]);
      if id !in g.sessions || Active(g.sessions[id]) then Evict(g, target)
      else Evict(g.(sessions := g.sessions - {id}, pruned := Archive(g.pruned, g.sessions[id].ledger)), target)
  }

  function Prune(f: Fabric): (g: Fabric)
    ensures g == f.(sessions := g.sessions, terminalOrder := g.terminalOrder, pruned := g.pruned)
  {
    if |f.sessions| <= f.retentionBound then f else Evict(f, f.retentionBound * 3 / 4)
  }

  /** Stores a session record; one that just became terminal joins the history. */
  function Store(f: Fabric, id: SessionId, s: Session): (g: Fabric)
    ensures g == f.(sessions := g.sessions, terminalOrder := g.terminalOrder, pruned := g.pruned)
  {
    var g := f.(sessions := f.sessions[id := s]);
    if id in f.sessions && Active(f.sessions[id]) && !Active(s)
    then Prune(g.(terminalOrder := f.terminalOrder + [id]))
    else g
  }

  function Remember(f: Fabric, command: CommandId, record: CommandRecord): (g: Fabric)
    ensures g == f.(commands := g.commands, commandOrder := g.commandOrder, commandBound := g.commandBound)
  {
    var bound := Max(64, Min(f.policy.retainedHistory * 4, 4096));
    var g := if command in f.commands then f.(commandBound := bound)
             else Forget(f.(commandOrder := f.commandOrder + [command], commandBound := bound));
    g.(commands := g.commands[command := record])
  }

  /** Drops the oldest remembered commands beyond the bound. */
  function Forget(f: Fabric): (g: Fabric)
    ensures g == f.(commands := g.commands, commandOrder := g.commandOrder)
    decreases |f.commandOrder|
  {
    if |f.commandOrder| <= f.commandBound then f
    else Forget(f.(commands := f.commands - {f.commandOrder[0]}, commandOrder := f.commandOrder[1..]))
  }

  // -------------------------------------------------------------- deadlines

  predicate IsLeastKey(m: map<Nanos, seq<SessionId>>, d: Nanos) {
    d in m && forall k :: k in m ==> d <= k
  }

  lemma {:induction false} LeastKeyExists(m: map<Nanos, seq<SessionId>>)
    requires m != map[]
    ensures exists d :: IsLeastKey(m, d)
    decreases |m|
  {
    var d := SomeKey(m);
    var rest := m - {d};
    if rest == map[] {
      assert forall k :: k in m ==> k == d || k in rest;
      assert IsLeastKey(m, d);
    } else {
      LeastKeyExists(rest);
      var e :| IsLeastKey(rest, e);
      assert forall k :: k in m ==> k == d || k in rest;
      assert IsLeastKey(m, if e < d then e else d);
    }
  }

  ghost function LeastKey(m: map<Nanos, seq<SessionId>>): (d: Nanos)
    requires m != map[]
    ensures IsLeastKey(m, d)
  {
    LeastKeyExists(m);
    var d :| IsLeastKey(m, d);
    d
  }

  function Expired(s: Session): (r: Session)
    ensures !Active(r)
  {
    Settle(Unprove(s, s.ledger.outstanding), Failed)
  }

  /** One entry of the index; an entry whose session ended or was re-fenced is stale. */
  function ExpireOne(f: Fabric, id: SessionId, deadline: Nanos): (g: Fabric)
    ensures g == f.(sessions := g.sessions, terminalOrder := g.terminalOrder, pruned := g.pruned)
  {
    if id !in f.sessions || !Active(f.sessions[id]) || f.sessions[id].envelope.deadline != deadline then f
    else Store(f, id, Expired(f.sessions[id]))
  }

  function ExpireEach(f: Fabric, due: seq<SessionId>, deadline: Nanos): (g: Fabric)
    ensures g == f.(sessions := g.sessions, terminalOrder := g.terminalOrder, pruned := g.pruned)
    decreases |due|
  {
    if due == [] then f else ExpireEach(ExpireOne(f, due[0], deadline), due[1..], deadline)
  }

  /** Takes due entries off the front of the ordered index until none is left. */
  ghost function Expire(f: Fabric, at: Nanos): (g: Fabric)
    ensures g == f.(sessions := g.sessions, terminalOrder := g.terminalOrder, pruned := g.pruned, deadlines := g.deadlines)
    decreases |f.deadlines|
  {
    if f.deadlines == map[] || LeastKey(f.deadlines) > at then f
    else
      var d := LeastKey(f.deadlines);
      var rest := f.(deadlines := f.deadlines - {d});
      Expire(ExpireEach(rest, f.deadlines[d], d), at)
  }

  // -------------------------------------------------------------- authority

  function AuthorityOf(f: Fabric, contract: nat): Authority {
    Authority(f.epoch, f.policy.generation, f.topology.generation, contract)
  }

  /** The fabric-wide dimensions of a fence; the contract generation is checked per workload. */
  function FabricFence(f: Fabric, fence: Fence): Option<ErrorCode> {
    CheckFence(fence, AuthorityOf(f, fence.contract))
  }

  function WorkloadFence(f: Fabric, s: Session, fence: Fence): Option<ErrorCode> {
    if s.request.workload !in f.contracts then Some(StaleContractGeneration)
    else
      var current := f.contracts[s.request.workload].generation;
      if fence.contract == current then None
      else if fence.contract < current then Some(StaleContractGeneration)
      else Some(NotAuthorized)
  }

  function CheckpointFence(s: Session, fence: Fence): Option<ErrorCode> {
    if fence.checkpoint.Some? && fence.checkpoint.value != s.request.checkpointGeneration
    then Some(StaleCheckpointGeneration) else None
  }

  function Demand(s: Session): Session {
    if Active(s) then s.(state := RevalidationRequired) else s
  }

  function Demanded(sessions: map<SessionId, Session>): map<SessionId, Session> {
    map id | id in sessions :: Demand(sessions[id])
  }

  function DemandedOf(sessions: map<SessionId, Session>, w: WorkloadId): map<SessionId, Session> {
    map id | id in sessions :: if sessions[id].request.workload == w then Demand(sessions[id]) else sessions[id]
  }

  function ClassCredit(p: Policy, now: Nanos): map<IsolationClass, Bucket>
    requires PolicyValid(p)
  {
    map c | c in p.envelopes :: Configured(p.envelopes[c].ceiling, p.envelopes[c].burstWindow, now)
  }

  function WorkloadCredit(contracts: map<WorkloadId, Contract>, now: Nanos): map<WorkloadId, Bucket>
    requires forall w :: w in contracts ==> contracts[w].ceiling < U64
  {
    map w | w in contracts :: Configured(contracts[w].ceiling, WORKLOAD_WINDOW, now)
  }

  predicate ContractsValid(contracts: map<WorkloadId, Contract>) {
    forall w :: w in contracts ==> ContractValid(contracts[w]) && contracts[w].workload == w
  }

  function ApplyPolicy(f: Fabric, p: Policy, at: Nanos): (r: (Fabric, Outcome))
    requires ContractsValid(f.contracts)
  {
    if p.generation <= f.policy.generation then (f, Refused(StalePolicyGeneration))
    else if !PolicyValid(p) then (f, Refused(InvalidConfiguration))
    else
      (f.(policy := p,
          credit := Credit(f.credit.classes + ClassCredit(p, at), f.credit.workloads + WorkloadCredit(f.contracts, at)),
          sessions := Demanded(f.sessions)), Done)
  }

  function ApplyTopology(f: Fabric, t: Topology): (r: (Fabric, Outcome)) {
    if t.generation <= f.topology.generation then (f, Refused(StaleTopologyGeneration))
    else if !TopologyValid(t, f.limits) then (f, Refused(InvalidConfiguration))
    else (f.(topology := t, sessions := Demanded(f.sessions)), Done)
  }

  function UpsertContract(f: Fabric, c: Contract, at: Nanos): (r: (Fabric, Outcome)) {
    if c.workload in f.contracts && c.generation <= f.contracts[c.workload].generation
    then (f, Refused(StaleContractGeneration))
    else if !ContractValid(c) then (f, Refused(InvalidConfiguration))
    else if |f.contracts| >= f.limits.maxWorkloads && c.workload !in f.contracts then (f, Refused(ResourceExhausted))
    else
      (f.(contracts := f.contracts[c.workload := c],
          credit := f.credit.(workloads := f.credit.workloads[c.workload := Configured(c.ceiling, WORKLOAD_WINDOW, at)]),
          sessions := DemandedOf(f.sessions, c.workload)), Done)
  }

  function Restarted(s: Session): Session {
    if Active(s) then Restart(s) else s
  }

  function AllRestarted(sessions: map<SessionId, Session>): map<SessionId, Session> {
    map id | id in sessions :: Restarted(sessions[id])
  }

  function AdvanceEpoch(f: Fabric, e: Epoch): (r: (Fabric, Outcome)) {
    if !EpochBefore(f.epoch, e) then (f, Refused(StaleEpoch))
    else (f.(epoch := e, deadlines := map[], sessions := AllRestarted(f.sessions)), Done)
  }

  // -------------------------------------------------------------- admission

  datatype Judgement =
    | DenyIt(reason: Reason)
    | DeferIt(reason: Reason)
    | SameAs(existing: SessionId)
    | Accept(isolation: IsolationClass, path: PathId, rate: nat)

  /** Traffic never enters a class laxer than its contract. */
  function Isolate(r: Request, c: Contract): IsolationClass {
    if Rank(r.isolation) <= Rank(c.isolation) then r.isolation else c.isolation
  }

  ghost function DefaultPath(t: Topology, destination: Destination): (best: Option<PathId>)
    ensures IsDefaultPath(t, destination, best)
  {
    DefaultPathExists(t, destination);
    var best :| IsDefaultPath(t, destination, best);
    best
  }

  lemma {:induction false} DefaultPathExists(t: Topology, destination: Destination)
    ensures exists best :: IsDefaultPath(t, destination, best)
    decreases |t.paths|
  {
    if t.paths == [] {
      assert IsDefaultPath(t, destination, None);
    } else {
      var u := t.(paths := t.paths[1..]);
      DefaultPathExists(u, destination);
      var b :| IsDefaultPath(u, destination, b);
      var first := t.paths[0];
      assert forall i :: 0 < i < |t.paths| ==> t.paths[i] == u.paths[i - 1];
      if b.Some? {
        var j :| 0 <= j < |u.paths| && u.paths[j].id == b.value && u.paths[j].destination == destination;
        assert t.paths[j + 1] == u.paths[j];
      }
      if first.destination == destination && (b.None? || first.id < b.value) {
        assert t.paths[0].id == first.id;
        assert IsDefaultPath(t, destination, Some(first.id));
      } else {
        assert IsDefaultPath(t, destination, b);
      }
    }
  }

  predicate ShardPathsPermitted(t: Topology, r: Request) {
    forall i :: 0 <= i < |r.manifest.shards| && r.manifest.shards[i].path != 0 ==>
      var p := PathOf(t, r.manifest.shards[i].path);
      p.Some? && p.value.destination == r.destination
  }

  /** The admission decision, in the fixed order of the engine's checks. */
  ghost function Judge(f: Fabric, r: Request): (j: Judgement) {
    if f.shuttingDown then DenyIt(FabricShuttingDown)
    else if r.workload !in f.contracts then DenyIt(UnknownWorkload)
    else
      var c := f.contracts[r.workload];
      var m := r.manifest;
      if r.contractGeneration != c.generation then DenyIt(ContractGenerationStale)
      else if !ManifestValid(m, f.limits) then DenyIt(ManifestInvalid)
      else if m.checkpoint != r.checkpoint || m.generation != r.checkpointGeneration
           || m.workload != r.workload || m.contractGeneration != r.contractGeneration then DenyIt(ManifestMismatch)
      else if Isolate(r, c) !in f.policy.envelopes then DenyIt(NoEnvelope)
      else
        var best := DefaultPath(f.topology, r.destination);
        if best.None? || !ShardPathsPermitted(f.topology, r) || PathOf(f.topology, best.value).None?
        then DenyIt(DestinationNotPermitted)
        else JudgeAgainstTable(f, r, c, Isolate(r, c), PathOf(f.topology, best.value).value)
  }

  ghost function JudgeAgainstTable(f: Fabric, r: Request, c: Contract, k: IsolationClass, path: PathClass): (j: Judgement)
    requires k in f.policy.envelopes
  {
    var rival := Rival(f.sessions, r.checkpoint);
    var same := rival.Some? && f.sessions[rival.value].request.checkpointGeneration == r.checkpointGeneration;
    if NewerRetained(f.sessions, r.checkpoint, r.checkpointGeneration) then DenyIt(CheckpointGenerationStale)
    else if same && ManifestsEquivalent(f.sessions[rival.value].request.manifest, r.manifest) then SameAs(rival.value)
    else if same then DenyIt(ManifestMismatch)
    else if rival.Some? && !c.allowSupersession then DenyIt(SupersessionDeniedByPolicy)
    else if rival.Some? && f.limits.maxSupersessionChain < 1 then DenyIt(ResourceLimit)
    else if r.manifest.total > f.policy.maxSessionBytes then DenyIt(CheckpointTooLarge)
    else JudgeCapacity(f, r, c, k, path)
  }

  ghost function JudgeCapacity(f: Fabric, r: Request, c: Contract, k: IsolationClass, path: PathClass): (j: Judgement)
    requires k in f.policy.envelopes
  {
    if Total(f.sessions, ActiveOne) >= f.policy.maxSessions then DeferIt(FabricSessionLimit)
    else if Total(f.sessions, ActiveForWorkload(r.workload)) >= c.maxSessions then DeferIt(SessionLimitPerWorkload)
    else if Total(f.sessions, ActiveInClass(k)) >= f.policy.envelopes[k].maxSessions then DeferIt(ClassCeilingSaturated)
    else
      match PlanRate(r, c, f.policy.envelopes[k], path, Total(f.sessions, RateOn(path.id)))
      case Rate(bps) => Accept(k, path.id, bps)
      case NoRate(reason) =>
        if reason.RequestedRateUnsupported? || reason.DeadlineUnreachable? then DenyIt(reason) else DeferIt(reason)
  }

  function NewShard(d: ShardDescriptor): Shard {
    Shard(d.index, d.declared, d.digest, ShardPending, 0, None, 0, 0, 0, false, 0)
  }

  function NewShards(m: Manifest): (shards: seq<Shard>)
    ensures |shards| == |m.shards|
    ensures forall i :: 0 <= i < |shards| ==> shards[i] == NewShard(m.shards[i])
  {
    seq(|m.shards|, i requires 0 <= i < |m.shards| => NewShard(m.shards[i]))
  }

  function NewSession(r: Request, k: IsolationClass, path: PathId, rate: nat, deadline: Nanos): Session {
    Session(r, Admitted, NoEvidence, Envelope(k, rate, path, deadline), 1, 0, NewShards(r.manifest), [],
            Ledger(r.manifest.total, 0, 0, 0, 0, 0, r.manifest.total), 0, false, false, Admitted,
            Some(Reservation(path, rate)), None)
  }

  function SupersededSession(s: Session, newer: SessionId): Session {
    Settle(Unprove(s, s.ledger.outstanding), Superseded).(supersededBy := Some(newer))
  }

  function IndexDeadline(deadlines: map<Nanos, seq<SessionId>>, id: SessionId, target: Nanos): map<Nanos, seq<SessionId>> {
    if target > 0 then deadlines[target := (if target in deadlines then deadlines[target] else []) + [id]] else deadlines
  }

  ghost function Supersede(f: Fabric, c: CheckpointId, newer: SessionId): (g: Fabric)
    ensures Unspent(f, g)
  {
    var rival := Rival(f.sessions, c);
    if rival.None? then f else Store(f, rival.value, SupersededSession(f.sessions[rival.value], newer))
  }

  ghost function AdmitNew(f: Fabric, r: Request, id: SessionId, k: IsolationClass, path: PathId, rate: nat, deadline: Nanos): (g: Fabric)
    ensures Unspent(f, g)
  {
    var g := Supersede(f, r.checkpoint, id);
    g.(sessions := g.sessions[id := NewSession(r, k, path, rate, deadline)],
       deadlines := IndexDeadline(g.deadlines, id, deadline))
  }

  ghost function Decide(f: Fabric, r: Request, fingerprint: nat, id: SessionId, at: Nanos): (o: (Fabric, Outcome))
    ensures Unspent(f, o.0)
  {
    match Judge(f, r)
    case DenyIt(reason) =>
      (Remember(f, r.command, CommandRecord(Deny, None, fingerprint)), Decided(Deny, Some(reason), None))
    case DeferIt(reason) =>
      (Remember(f, r.command, CommandRecord(Defer, None, fingerprint)), Decided(Defer, Some(reason), None))
    case SameAs(existing) =>
      (Remember(f, r.command, CommandRecord(Admit, Some(existing), fingerprint)), Decided(Admit, None, Some(existing)))
    case Accept(k, path, rate) =>
      var deadline := at + if r.workload in f.contracts then Horizon(r, f.contracts[r.workload]) else 0;
      (Remember(AdmitNew(f, r, id, k, path, rate, deadline), r.command, CommandRecord(Admit, Some(id), fingerprint)),
       Decided(Admit, None, Some(id)))
  }

  ghost function Submit(f0: Fabric, r: Request, fence: Fence, fingerprint: nat, id: SessionId, at: Nanos): (o: (Fabric, Outcome))
    ensures Unspent(f0, o.0)
  {
    var f := Expire(f0, at);
    var refusal := FabricFence(f, fence);
    if refusal.Some? then (f, Refused(refusal.value))
    else if r.policyGeneration != fence.policy then (f, Refused(StalePolicyGeneration))
    else if r.topologyGeneration != fence.topology then (f, Refused(StaleTopologyGeneration))
    else if r.contractGeneration != fence.contract then (f, Refused(StaleContractGeneration))
    else if r.command in f.commands then
      var record := f.commands[r.command];
      if record.fingerprint != fingerprint then (f, Refused(ReplayDetected))
      else (f, Replayed(record.kind, record.session))
    else Decide(f, r, fingerprint, id, at)
  }

  /** A session under a new envelope: the old one is fenced off by the larger sequence. */
  function Revalidated(s: Session, path: PathId, rate: nat, deadline: Nanos): Session {
    s.(envelopeSequence := s.envelopeSequence + 1,
       envelope := s.envelope.(rate := rate, path := path, deadline := deadline),
       reserved := Some(Reservation(path, rate)), state := Admitted, paused := false)
  }

  ghost function PlanAgain(f: Fabric, s: Session): RatePlan
    requires s.request.workload in f.contracts && s.envelope.isolation in f.policy.envelopes
    requires PathOf(f.topology, s.envelope.path).Some?
  {
    PlanRate(s.request, f.contracts[s.request.workload], f.policy.envelopes[s.envelope.isolation],
             PathOf(f.topology, s.envelope.path).value, Total(f.sessions, RateOn(s.envelope.path)))
  }

  /** Denial sets the state to Failed before settling, so the session never joins the history order. */
  function DenyRevalidation(f: Fabric, id: SessionId, s: Session): Fabric {
    Prune(f.(sessions := f.sessions[id := s]))
  }

  /** The decision for a session that asks for authority again. */
  ghost function Replan(f: Fabric, id: SessionId, at: Nanos): (o: (Fabric, Outcome))
    requires id in f.sessions
    ensures Unspent(f, o.0)
  {
    var s := f.sessions[id];
    if s.request.workload !in f.contracts then
      (DenyRevalidation(f, id, Settle(s, Failed)), Decided(Deny, Some(UnknownWorkload), Some(id)))
    else if s.envelope.isolation !in f.policy.envelopes || PathOf(f.topology, s.envelope.path).None? then
      (f, Decided(Defer, Some(DestinationNotPermitted), Some(id)))
    else
      match PlanAgain(f, s)
      case Rate(bps) =>
        var deadline := at + Horizon(s.request, f.contracts[s.request.workload]);
        (f.(sessions := f.sessions[id := Revalidated(s, s.envelope.path, bps, deadline)],
            deadlines := IndexDeadline(f.deadlines, id, deadline)), Decided(Admit, None, Some(id)))
      case NoRate(reason) =>
        if reason.RequestedRateUnsupported? || reason.DeadlineUnreachable? then
          (DenyRevalidation(f, id, Expired(s)), Decided(Deny, Some(reason), Some(id)))
        else (f.(sessions := f.sessions[id := s.(state := Deferred)]), Decided(Defer, Some(reason), Some(id)))
  }

  ghost function Revalidate(f0: Fabric, id: SessionId, fence: Fence, at: Nanos): (o: (Fabric, Outcome))
    ensures Unspent(f0, o.0)
  {
    var f := Expire(f0, at);
    if id !in f.sessions then (f, Refused(NotFound))
    else
      var s := f.sessions[id];
      var known := s.request.workload in f.contracts;
      var refusal := CheckFence(fence, AuthorityOf(f, if known then f.contracts[s.request.workload].generation else 0));
      if refusal.Some? then (f, Refused(refusal.value))
      else if CheckpointFence(s, fence).Some? then (f, Refused(StaleCheckpointGeneration))
      else if !s.state.RevalidationRequired? && !s.state.Deferred? then (f, Refused(InvalidStateTransition))
      else if f.shuttingDown then (f, Refused(ShuttingDown))
      else Replan(f, id, at)
  }

  // -------------------------------------------------------------- lifecycle

  /** Checks shared by pause, resume, grants and evidence: the session exists and both fences hold. */
  function Gate(f: Fabric, id: SessionId, fence: Fence): (refusal: Option<ErrorCode>)
    ensures refusal.None? ==> id in f.sessions
  {
    if id !in f.sessions then Some(NotFound)
    else if FabricFence(f, fence).Some? then FabricFence(f, fence)
    else WorkloadFence(f, f.sessions[id], fence)
  }

  ghost function Pause(f0: Fabric, id: SessionId, fence: Fence, at: Nanos): (o: (Fabric, Outcome))
    ensures Unspent(f0, o.0)
  {
    var f := Expire(f0, at);
    var refusal := Gate(f, id, fence);
    if refusal.Some? then (f, Refused(refusal.value))
    else
      var s := f.sessions[id];
      if IsTerminal(s.state) then (f, Refused(InvalidStateTransition))
      else if s.state.RevalidationRequired? then (f, Refused(NeedsRevalidation))
      else if s.paused then (f, Refused(AlreadyExists))
      else (f.(sessions := f.sessions[id := s.(paused := true, pausedFrom := s.state, state := Model.Paused)]), Done)
  }

  /** Resume looks only at the flag, not at the state. */
  ghost function Resume(f0: Fabric, id: SessionId, fence: Fence, at: Nanos): (o: (Fabric, Outcome))
    ensures Unspent(f0, o.0)
  {
    var f := Expire(f0, at);
    var refusal := Gate(f, id, fence);
    if refusal.Some? then (f, Refused(refusal.value))
    else
      var s := f.sessions[id];
      if !s.paused then (f, Refused(InvalidStateTransition))
      else (f.(sessions := f.sessions[id := s.(paused := false, state := s.pausedFrom)]), Done)
  }

  ghost function Cancel(f0: Fabric, id: SessionId, fence: Fence, at: Nanos): (o: (Fabric, Outcome))
    ensures Unspent(f0, o.0)
  {
    var f := Expire(f0, at);
    if id !in f.sessions then (f, Refused(NotFound))
    else if FabricFence(f, fence).Some? then (f, Refused(FabricFence(f, fence).value))
    else if IsTerminal(f.sessions[id].state) then (f, Refused(InvalidStateTransition))
    else (Store(f, id, Settle(CancelOutstanding(f.sessions[id]), Model.Cancelled)), Done)
  }

  // ------------------------------------------------------------ wave credit

  /** Everything that is checked before credit is looked at. */
  ghost function WaveGate(f: Fabric, id: SessionId, shard: nat, fence: Fence, at: Nanos): (refusal: Option<Outcome>)
    ensures refusal.None? ==>
              && id in f.sessions && Active(f.sessions[id])
              && var s := f.sessions[id];
                 && Position(s.shards, shard) < |s.shards|
                 && !IsSettled(s.shards[Position(s.shards, shard)])
                 && PreviousSettled(s, Position(s.shards, shard))
                 && s.shards[Position(s.shards, shard)].transferred < s.shards[Position(s.shards, shard)].declared
                 && !s.state.RevalidationRequired? && !s.state.Deferred? && !s.state.Paused? && !s.paused
  {
    var gate := Gate(f, id, fence);
    if gate.Some? then Some(Refused(gate.value))
    else
      var s := f.sessions[id];
      if CheckpointFence(s, fence).Some? then Some(Refused(StaleCheckpointGeneration))
      else if s.state.RevalidationRequired? || s.state.Deferred? then Some(Refused(NeedsRevalidation))
      else if s.paused || s.state.Paused? then Some(Refused(DeferredError))
      else if IsTerminal(s.state) then
        Some(Refused(if s.supersededBy.Some? then SupersededError else InvalidStateTransition))
      else if at >= s.envelope.deadline then Some(Refused(DeadlineElapsed))
      else if Total(f.sessions, AttemptsOf) >= f.policy.maxAttempts then Some(WaveDeferred(ResourceLimit))
      else
        var p := Position(s.shards, shard);
        if p == |s.shards| then Some(Refused(NotFound))
        else
          var h := s.shards[p];
          if IsSettled(h) then Some(Refused(InvalidStateTransition))
          else if h.state.ShardAmbiguous? then Some(Refused(AmbiguousOutcomeError))
          else if fence.attemptSequence.Some? && h.attempt.Some? && fence.attemptSequence.value != h.sequence
          then Some(Refused(StaleAttempt))
          else if !PreviousSettled(s, p) then Some(Refused(AmbiguousOutcomeError))
          else if h.declared <= h.transferred then Some(Refused(InvalidStateTransition))
          else None
  }

  function Remaining(h: Shard): nat { Monus(h.declared, h.transferred) }

  function TimelineBound(p: Policy): nat { Max(p.retainedHistory, 1) }

  /** A grant sized to the remaining bytes, the grant bound and the class credit at hand. */
  ghost function Wave(f: Fabric, id: SessionId, p: nat, attempt: AttemptId, at: Nanos): (o: (Fabric, Outcome))
    ensures Rooted(f, o.0)
    requires CreditOk(f.credit) && id in f.sessions && p < |f.sessions[id].shards|
  {
    var s := f.sessions[id];
    var k := s.envelope.isolation;
    var remaining := Remaining(s.shards[p]);
    var seen := ObserveClass(f.credit, k, at);
    var available := ClassTokens(seen, k);
    if available < Min(remaining, MIN_CHUNK) then (f.(credit := seen), WaveDeferred(ClassCeilingSaturated))
    else
      var chunk := Min(Min(remaining, MAX_CHUNK), available);
      var spent := Consume(seen, k, s.request.workload, chunk, at);
      if spent.1.NotGranted? then (f.(credit := spent.0), WaveDeferred(spent.1.reason))
      else (f.(credit := spent.0, sessions := f.sessions[id := Grant(s, p, attempt, chunk, TimelineBound(f.policy))]),
            WaveGranted(attempt, chunk))
  }

  ghost function RequestWave(f0: Fabric, id: SessionId, shard: nat, fence: Fence, attempt: AttemptId, at: Nanos): (o: (Fabric, Outcome))
    ensures Rooted(f0, o.0)
    requires CreditOk(f0.credit)
  {
    var f := Expire(f0, at);
    var refusal := WaveGate(f, id, shard, fence, at);
    if refusal.Some? then (f, refusal.value)
    else Wave(f, id, Position(f.sessions[id].shards, shard), attempt, at)
  }

  // --------------------------------------------------------------- evidence

  ghost function ReportSourceComplete(f0: Fabric, id: SessionId, shard: nat, bytes: nat, fence: Fence, at: Nanos): (o: (Fabric, Outcome))
    ensures Unspent(f0, o.0)
  {
    var f := Expire(f0, at);
    var refusal := Gate(f, id, fence);
    if refusal.Some? then (f, Refused(refusal.value))
    else
      var s := f.sessions[id];
      var p := Position(s.shards, shard);
      if IsTerminal(s.state) then (f, Refused(InvalidStateTransition))
      else if p == |s.shards| then (f, Refused(NotFound))
      else if bytes > s.shards[p].declared then (f, Refused(ImpossibleState))
      else if s.shards[p].sourceComplete && s.shards[p].sourceBytes != bytes then (f, Refused(ImpossibleState))
      else (Store(f, id, Progress(NoteSource(s, p, bytes), f.policy.requireVerification)), Done)
  }

  /** Evidence must name a shard and its current attempt under the right sequence. */
  function EvidenceGate(f: Fabric, id: SessionId, fence: Fence, shard: nat, attempt: AttemptId, sequence: nat): (refusal: Option<ErrorCode>)
    ensures refusal.None? ==>
              && id in f.sessions && Active(f.sessions[id])
              && IsCurrent(f.sessions[id], Position(f.sessions[id].shards, shard),
                           AttemptPosition(f.sessions[id].attempts, attempt))
  {
    var gate := Gate(f, id, fence);
    if gate.Some? then gate
    else
      var s := f.sessions[id];
      var p, a := Position(s.shards, shard), AttemptPosition(s.attempts, attempt);
      if IsTerminal(s.state) then Some(InvalidStateTransition)
      else if p == |s.shards| then Some(NotFound)
      else if s.shards[p].attempt != Some(attempt) then Some(StaleAttempt)
      else if a == |s.attempts| then Some(NotFound)
      else if s.attempts[a].sequence != sequence then Some(StaleAttempt)
      else None
  }

  function SettledOutcome(o: AttemptOutcome): Option<ErrorCode> {
    match o
    case OutcomeAmbiguous => Some(AmbiguousOutcomeError)
    case OutcomeFailed => Some(InvalidStateTransition)
    case OutcomeReleased => Some(StaleEvidence)
    case OutcomeSuperseded => Some(StaleEvidence)
    case _ => None
  }

  ghost function ReportTransfer(f0: Fabric, id: SessionId, shard: nat, attempt: AttemptId, sequence: nat, arrived: nat,
                                acknowledged: bool, fence: Fence, at: Nanos): (o: (Fabric, Outcome))
    ensures Unspent(f0, o.0)
  {
    var f := Expire(f0, at);
    var refusal := EvidenceGate(f, id, fence, shard, attempt, sequence);
    if refusal.Some? then (f, Refused(refusal.value))
    else
      var s := f.sessions[id];
      var p, a := Position(s.shards, shard), AttemptPosition(s.attempts, attempt);
      var t := s.attempts[a];
      if SettledOutcome(t.outcome).Some? then (f, Refused(SettledOutcome(t.outcome).value))
      else if arrived > t.granted || t.delivered > arrived then (f, Refused(ImpossibleState))
      else
        var seen := Observe(s, a, arrived);
        if !acknowledged then
          (Store(f, id, Progress(Unacknowledged(seen, a), f.policy.requireVerification)), Done)
        else if arrived - t.delivered > s.ledger.outstanding then
          (f.(sessions := f.sessions[id := seen]), Refused(ImpossibleState))
        else
          (Store(f, id, Progress(Acknowledge(seen, p, a, arrived - t.delivered), f.policy.requireVerification)), Done)
  }

  predicate IsAcked(t: Attempt) { t.outcome.OutcomeDeliveredAcked? || t.outcome.OutcomeVerified? }

  /** The destination's verdict contradicts what the shard declared. */
  predicate Mismatched(h: Shard, outcome: VerificationOutcome, bytes: nat, digest: ContentDigest) {
    || outcome.DigestMismatch?
    || (outcome.Verified? && (bytes != h.declared || (!IsZeroDigest(h.digest) && digest != h.digest)))
  }

  /** A verdict on a shard's current attempt. */
  ghost function Judged(f: Fabric, id: SessionId, p: nat, a: nat, outcome: VerificationOutcome, bytes: nat, digest: ContentDigest): (o: (Fabric, Outcome))
    requires id in f.sessions && IsCurrent(f.sessions[id], p, a)
    ensures Unspent(f, o.0)
  {
    var s := f.sessions[id];
    var require := f.policy.requireVerification;
    if outcome.Verified? && !IsAcked(s.attempts[a]) then (f, Refused(StaleEvidence))
    else if Mismatched(s.shards[p], outcome, bytes, digest) then
      (Store(f, id, Settle(Reject(s, p, a), Failed)), if outcome.Verified? then Refused(VerificationMismatchError) else Done)
    else if outcome.Verified? then (Store(f, id, Progress(Verify(s, p, a), require)), Done)
    else if outcome.Truncated? then (Store(f, id, Progress(Truncate(s, p, a), require)), Done)
    else (Store(f, id, Progress(Doubt(s, p, a), require)), Done)
  }

  /** An attempt that is no longer on record is reported as stale here, not as unknown. */
  function VerdictRefusal(f: Fabric, id: SessionId, shard: nat, code: ErrorCode): ErrorCode {
    if code.NotFound? && id in f.sessions && Position(f.sessions[id].shards, shard) < |f.sessions[id].shards|
    then StaleAttempt else code
  }

  ghost function ReportVerification(f0: Fabric, id: SessionId, shard: nat, attempt: AttemptId, sequence: nat,
                                    outcome: VerificationOutcome, bytes: nat, digest: ContentDigest, fence: Fence, at: Nanos): (o: (Fabric, Outcome))
    ensures Unspent(f0, o.0)
  {
    var f := Expire(f0, at);
    var refusal := EvidenceGate(f, id, fence, shard, attempt, sequence);
    if refusal.Some? then (f, Refused(VerdictRefusal(f, id, shard, refusal.value)))
    else
      var s := f.sessions[id];
      Judged(f, id, Position(s.shards, shard), AttemptPosition(s.attempts, attempt), outcome, bytes, digest)
  }

  ghost function ReportAmbiguous(f0: Fabric, id: SessionId, attempt: AttemptId, sequence: nat, fence: Fence, at: Nanos): (o: (Fabric, Outcome))
    ensures Unspent(f0, o.0)
  {
    var f := Expire(f0, at);
    if id !in f.sessions then (f, Refused(NotFound))
    else if FabricFence(f, fence).Some? then (f, Refused(FabricFence(f, fence).value))
    else
      var s := f.sessions[id];
      var a := AttemptPosition(s.attempts, attempt);
      if IsTerminal(s.state) then (f, Refused(InvalidStateTransition))
      else if a == |s.attempts| then (f, Refused(NotFound))
      else if s.attempts[a].sequence != sequence then (f, Refused(StaleAttempt))
      else (Store(f, id, Progress(Disown(s, a), f.policy.requireVerification)), Done)
  }

  ghost function BeginShutdown(f: Fabric): (o: (Fabric, Outcome))
    ensures Unspent(f, o.0)
  {
    if f.shuttingDown then (f, Refused(ShuttingDown)) else (f.(shuttingDown := true), Done)
  }
}
