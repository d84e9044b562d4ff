/** Value types of the fabric: identities, requests, policy, topology, contracts,
session, shard and attempt records, and the fence.

Identities are abstract natural numbers (0 is the nil identity); byte counts,
rates and generations are unbounded naturals. */
module Model {
  import opened Sums

  datatype Option<+T> = None | Some(value: T)

  type SessionId = nat
  type AttemptId = nat
  type CheckpointId = nat
  type WorkloadId = nat
  type CommandId = nat
  type PathId = nat
  type Nanos = int

  const SECOND: nat := 1_000_000_000
  const U64: nat := 0x1_0000_0000_0000_0000

  function Min(a: nat, b: nat): nat { if a <= b then a else b }

  function Max(a: nat, b: nat): nat { if a >= b then a else b }

  function Monus(a: nat, b: nat): nat { if a > b then a - b else 0 }

  datatype IsolationClass = TrainingCritical | ServingLatency | TrainingBulk | BestEffort

  /** Lower rank means stricter protection. */
  function Rank(c: IsolationClass): nat {
    match c
    case TrainingCritical => 0
    case ServingLatency => 1
    case TrainingBulk => 2
    case BestEffort => 3
  }

  datatype Destination = LocalAttachedStore | RemoteObjectStore | PeerNodeMemory | SyntheticLab

  datatype Evidence = NoEvidence | SourceCompleteEvidence | TransferredEvidence | VerifiedAtDestinationEvidence

  datatype SessionState =
    | Submitted | Deferred | Admitted | Transferring | Paused | SourceComplete | Transferred
    | VerifiedAtDestination | TrafficSessionComplete | Cancelled | Superseded | Failed
    | RevalidationRequired

  predicate IsTerminal(s: SessionState) {
    s.TrafficSessionComplete? || s.Cancelled? || s.Superseded? || s.Failed?
  }

  datatype ShardState =
    | ShardPending | ShardGranted | ShardInFlight | ShardTransferred | ShardVerified
    | ShardAmbiguous | ShardFailed | ShardCancelled

  datatype AttemptOutcome =
    | OutcomeGranted | OutcomeInFlight | OutcomeDeliveredUnacked | OutcomeDeliveredAcked
    | OutcomeVerified | OutcomeFailed | OutcomeAmbiguous | OutcomeReleased | OutcomeSuperseded

  datatype VerificationOutcome = Verified | DigestMismatch | Truncated | Ambiguous | Rejected

  /** Integrity claim; the zero digest stands for "the producer claimed none". */
  datatype ContentDigest = ContentDigest(crc: nat, fnv: nat)

  const FNV_SEED: nat := 0xCBF29CE484222325

  predicate IsZeroDigest(d: ContentDigest) { d.crc == 0 && d.fnv == FNV_SEED }

  datatype ShardDescriptor = ShardDescriptor(index: nat, declared: nat, digest: ContentDigest, path: PathId)

  /** `intact` says that the carried manifest digest matches the shard table. */
  datatype Manifest = Manifest(
    checkpoint: CheckpointId, generation: nat, workload: WorkloadId, contractGeneration: nat,
    total: nat, shards: seq<ShardDescriptor>, intact: bool)

  datatype Limits = Limits(maxShards: nat, maxCheckpointBytes: nat, maxSessions: nat, maxWorkloads: nat, maxPaths: nat, maxSupersessionChain: nat)

  datatype ClassEnvelope = ClassEnvelope(ceiling: nat, burstWindow: nat, maxSessions: nat)

  datatype Policy = Policy(
    generation: nat, envelopes: map<IsolationClass, ClassEnvelope>, maxSessionBytes: nat, maxSessions: nat,
    maxAttempts: nat, retainedHistory: nat, requireVerification: bool)

  datatype PathClass = PathClass(id: PathId, destination: Destination, capacity: nat)

  datatype Topology = Topology(generation: nat, paths: seq<PathClass>)

  datatype Contract = Contract(
    workload: WorkloadId, generation: nat, isolation: IsolationClass, ceiling: nat, maxSessions: nat,
    allowSupersession: bool, deadlineBudget: int)

  datatype Request = Request(
    command: CommandId, workload: WorkloadId, contractGeneration: nat, policyGeneration: nat,
    topologyGeneration: nat, checkpoint: CheckpointId, checkpointGeneration: nat, isolation: IsolationClass,
    destination: Destination, requestedRate: nat, horizon: int, manifest: Manifest)

  datatype Epoch = Epoch(incarnation: nat, term: nat)

  datatype Fence = Fence(
    epoch: Epoch, policy: nat, topology: nat, contract: nat,
    checkpoint: Option<nat>, attemptSequence: Option<nat>)

  datatype ErrorCode =
    | ForeignEpoch | StaleEpoch | StalePolicyGeneration | StaleTopologyGeneration | StaleContractGeneration
    | StaleCheckpointGeneration | StaleAttempt | StaleEvidence | NotAuthorized | NotFound
    | InvalidStateTransition | NeedsRevalidation | AlreadyExists | DeferredError | SupersededError
    | DeadlineElapsed | AmbiguousOutcomeError | ImpossibleState | VerificationMismatchError
    | ReplayDetected | ShuttingDown | ResourceExhausted | InvalidConfiguration | ManifestRejected
    | AccountingImbalance | CorruptState

  datatype Reason =
    | ClassCeilingSaturated | WorkloadCeilingSaturated | FabricSessionLimit | PathCapacityUnavailable
    | CreditUnavailable | UnknownWorkload | ContractGenerationStale | CheckpointGenerationStale
    | SupersessionDeniedByPolicy | SessionLimitPerWorkload | RequestedRateUnsupported | ManifestInvalid
    | ManifestMismatch | DestinationNotPermitted | CheckpointTooLarge | DeadlineUnreachable
    | FabricShuttingDown | ResourceLimit | NoEnvelope

  // ------------------------------------------------------------------ records

  datatype Shard = Shard(
    index: nat, declared: nat, digest: ContentDigest, state: ShardState, sequence: nat,
    attempt: Option<AttemptId>, granted: nat, transferred: nat, verified: nat,
    sourceComplete: bool, sourceBytes: nat)

  datatype Attempt = Attempt(
    id: AttemptId, sequence: nat, shard: nat, outcome: AttemptOutcome, granted: nat, delivered: nat,
    outstanding: bool)

  /** Where every authorised byte of a session currently is. */
  datatype Ledger = Ledger(
    admitted: nat, transferred: nat, verified: nat, cancelled: nat, wasted: nat, unproven: nat, outstanding: nat)

  /** The conservation identity: every authorised byte is in exactly one bucket. */
  predicate Conserves(l: Ledger) {
    l.admitted == l.transferred + l.wasted + l.cancelled + l.unproven + l.outstanding
  }

  datatype Envelope = Envelope(isolation: IsolationClass, rate: nat, path: PathId, deadline: Nanos)

  datatype Reservation = Reservation(path: PathId, rate: nat)

  datatype Session = Session(
    request: Request, state: SessionState, evidence: Evidence, envelope: Envelope, envelopeSequence: nat,
    attemptCounter: nat, shards: seq<Shard>, attempts: seq<Attempt>, ledger: Ledger, activeAttempts: nat,
    sourceComplete: bool, paused: bool, pausedFrom: SessionState, reserved: Option<Reservation>,
    supersededBy: Option<SessionId>)

  // ----------------------------------------------------------------- manifest

  function DescriptorBytes(d: ShardDescriptor): nat { d.declared }

  /** A manifest the fabric accepts: bounded, non-empty, strictly ordered by shard
  index, and summing exactly to its declared total. */
  predicate ManifestValid(m: Manifest, limits: Limits) {
    && m.checkpoint != 0 && m.workload != 0 && m.generation != 0 && m.contractGeneration != 0
    && 0 < |m.shards| <= limits.maxShards
    && 0 < m.total <= limits.maxCheckpointBytes
    && ShardTableValid(m.shards)
    && SeqTotal(m.shards, DescriptorBytes) == m.total
    && m.intact
  }

  predicate ShardTableValid(shards: seq<ShardDescriptor>) {
    && (forall i :: 0 <= i < |shards| ==> shards[i].declared > 0)
    && (forall i, j :: 0 <= i < j < |shards| ==> shards[i].index < shards[j].index)
  }

  lemma {:induction false} PrefixTotalBelow(shards: seq<ShardDescriptor>, n: nat)
    requires n <= |shards|
    ensures SeqTotal(shards[..n], DescriptorBytes) <= SeqTotal(shards, DescriptorBytes)
  {
    if n > 0 {
      assert shards[..n][1..] == shards[1..][..n - 1];
      PrefixTotalBelow(shards[1..], n - 1);
    }
  }

  /** The validation loop: it sums with an overflow-safe comparison against what
  is left of the declared total, yet accepts exactly the valid manifests. */
  method ValidateManifest(m: Manifest, limits: Limits) returns (ok: bool)
    ensures ok <==> ManifestValid(m, limits)
  {
    if m.checkpoint == 0 || m.workload == 0 || m.generation == 0 || m.contractGeneration == 0 { return false; }
    if |m.shards| == 0 || |m.shards| > limits.maxShards { return false; }
    if m.total == 0 || m.total > limits.maxCheckpointBytes { return false; }
    var sum, previous := 0, None;
    for i := 0 to |m.shards|
      invariant sum == SeqTotal(m.shards[..i], DescriptorBytes) <= m.total
      invariant previous == if i == 0 then None else Some(m.shards[i - 1].index)
      invariant forall k :: 0 <= k < i ==> m.shards[k].declared > 0
      invariant forall j, k :: 0 <= j < k < i ==> m.shards[j].index < m.shards[k].index
    {
      var shard := m.shards[i];
      if shard.declared == 0 { return false; }
      if previous.Some? && !(previous.value < shard.index) { return false; }
      previous := Some(shard.index);
      assert m.shards[..i + 1] == m.shards[..i] + [shard];
      SeqTotalAppend(m.shards[..i], shard, DescriptorBytes);
      PrefixTotalBelow(m.shards, i + 1);
      if sum > m.total || shard.declared > m.total - sum { return false; }
      sum := sum + shard.declared;
    }
    assert m.shards[..|m.shards|] == m.shards;
    if sum != m.total { return false; }
    return m.intact;
  }

  /** Same checkpoint generation and same content, as idempotent resubmission asks. */
  predicate ManifestsEquivalent(a: Manifest, b: Manifest) {
    && a.checkpoint == b.checkpoint && a.generation == b.generation && a.workload == b.workload
    && a.contractGeneration == b.contractGeneration && a.total == b.total && a.shards == b.shards
  }

  // ----------------------------------------------------------------- topology

  predicate Serves(t: Topology, id: PathId, destination: Destination) {
    exists i :: 0 <= i < |t.paths| && t.paths[i].id == id && t.paths[i].destination == destination
  }

  /** Path classes are declared once each, so a lookup is unambiguous. */
  predicate TopologyValid(t: Topology, limits: Limits) {
    && t.generation != 0
    && 0 < |t.paths| <= limits.maxPaths
    && (forall i :: 0 <= i < |t.paths| ==> t.paths[i].id != 0 && 0 < t.paths[i].capacity < U64)
    && (forall i, j :: 0 <= i < j < |t.paths| ==> t.paths[i].id != t.paths[j].id)
  }

  method FindPath(t: Topology, id: PathId) returns (path: Option<PathClass>)
    ensures path == PathOf(t, id)
  {
    for i := 0 to |t.paths|
      invariant PathOf(t, id) == PathOf(t.(paths := t.paths[i..]), id)
    {
      if t.paths[i].id == id { return Some(t.paths[i]); }
      assert t.paths[i..][1..] == t.paths[i + 1..];
    }
    return None;
  }

  /** First path class that carries the identity. */
  function PathOf(t: Topology, id: PathId): (path: Option<PathClass>)
    ensures path.Some? ==> path.value in t.paths && path.value.id == id
    ensures path.None? ==> forall p :: p in t.paths ==> p.id != id
    decreases |t.paths|
  {
    if t.paths == [] then None
    else if t.paths[0].id == id then Some(t.paths[0])
    else PathOf(t.(paths := t.paths[1..]), id)
  }

  predicate IsDefaultPath(t: Topology, destination: Destination, best: Option<PathId>) {
    && (best.None? ==> forall i :: 0 <= i < |t.paths| ==> t.paths[i].destination != destination)
    && (best.Some? ==>
          && Serves(t, best.value, destination)
          && forall i :: 0 <= i < |t.paths| && t.paths[i].destination == destination ==> best.value <= t.paths[i].id)
  }

  /** Running minimum over the path classes that serve the destination. */
  method DefaultPathFor(t: Topology, destination: Destination) returns (best: Option<PathId>)
    ensures IsDefaultPath(t, destination, best)
  {
    best := None;
    for i := 0 to |t.paths|
      invariant best.None? ==> forall k :: 0 <= k < i ==> t.paths[k].destination != destination
      invariant best.Some? ==> Serves(t, best.value, destination)
      invariant best.Some? ==>
                  forall k :: 0 <= k < i && t.paths[k].destination == destination ==> best.value <= t.paths[k].id
    {
      var path := t.paths[i];
      if path.destination == destination && (best.None? || path.id < best.value) {
        best := Some(path.id);
      }
    }
  }

  lemma DefaultPathUnique(t: Topology, destination: Destination, a: Option<PathId>, b: Option<PathId>)
    requires IsDefaultPath(t, destination, a) && IsDefaultPath(t, destination, b)
    ensures a == b
  {
    if a.Some? {
      var i :| 0 <= i < |t.paths| && t.paths[i].id == a.value && t.paths[i].destination == destination;
      var j :| 0 <= j < |t.paths| && t.paths[j].id == b.value && t.paths[j].destination == destination;
    }
  }

  predicate PolicyValid(p: Policy) {
    && p.generation != 0
    && p.envelopes.Keys == {TrainingCritical, ServingLatency, TrainingBulk, BestEffort}
    && (forall c :: c in p.envelopes ==>
          && 0 < p.envelopes[c].ceiling < U64 && 0 < p.envelopes[c].burstWindow < U64
          && p.envelopes[c].maxSessions > 0)
    && p.maxSessionBytes > 0 && p.maxAttempts > 0 && p.retainedHistory > 0
  }

  predicate ContractValid(c: Contract) {
    && c.workload != 0 && c.generation != 0 && 0 < c.ceiling < U64 && c.maxSessions > 0
    && c.deadlineBudget > 0
  }

  // -------------------------------------------------------------------- fence

  predicate EpochBefore(a: Epoch, b: Epoch) {
    a.incarnation < b.incarnation || (a.incarnation == b.incarnation && a.term < b.term)
  }

  datatype Authority = Authority(epoch: Epoch, policy: nat, topology: nat, contract: nat)

  /** The first dimension in which a fence differs from the current authority. */
  function CheckFence(f: Fence, current: Authority): (refusal: Option<ErrorCode>) {
    if f.epoch.incarnation != current.epoch.incarnation then Some(ForeignEpoch)
    else if f.epoch.term < current.epoch.term then Some(StaleEpoch)
    else if current.epoch.term < f.epoch.term then Some(ForeignEpoch)
    else if f.policy < current.policy then Some(StalePolicyGeneration)
    else if current.policy < f.policy then Some(NotAuthorized)
    else if f.topology < current.topology then Some(StaleTopologyGeneration)
    else if current.topology < f.topology then Some(NotAuthorized)
    else if f.contract < current.contract then Some(StaleContractGeneration)
    else if current.contract < f.contract then Some(NotAuthorized)
    else None
  }

  /** Authority only ever moves forward, in every dimension. */
  predicate NotAfter(a: Authority, b: Authority) {
    && (a.epoch == b.epoch || EpochBefore(a.epoch, b.epoch))
    && a.policy <= b.policy && a.topology <= b.topology && a.contract <= b.contract
  }

  predicate Behind(f: Fence, current: Authority) {
    || EpochBefore(f.epoch, current.epoch)
    || f.policy < current.policy || f.topology < current.topology || f.contract < current.contract
  }

  /** A fence is accepted exactly when it names the current authority. */
  lemma FenceAcceptsExactly(f: Fence, current: Authority)
    ensures CheckFence(f, current).None? <==> Authority(f.epoch, f.policy, f.topology, f.contract) == current
  {
  }

  /** The answer names the first dimension that differs, and on which side: what is behind is stale, what is ahead was
  never authorised, and an epoch that is not behind within the same incarnation is foreign. */
  lemma FenceAnswers(f: Fence, current: Authority)
    ensures var answer, epoch, policy, topology :=
              CheckFence(f, current), f.epoch == current.epoch, f.policy == current.policy, f.topology == current.topology;
            && (answer == Some(StaleEpoch) <==> f.epoch.incarnation == current.epoch.incarnation && f.epoch.term < current.epoch.term)
            && (answer == Some(ForeignEpoch) <==> f.epoch.incarnation != current.epoch.incarnation || current.epoch.term < f.epoch.term)
            && (answer == Some(StalePolicyGeneration) <==> epoch && f.policy < current.policy)
            && (answer == Some(StaleTopologyGeneration) <==> epoch && policy && f.topology < current.topology)
            && (answer == Some(StaleContractGeneration) <==> epoch && policy && topology && f.contract < current.contract)
            && (answer == Some(NotAuthorized) <==>
                  epoch && (current.policy < f.policy
                            || (policy && (current.topology < f.topology || (topology && current.contract < f.contract)))))
  {
  }

  /** A fence is refused under every later authority exactly when it lags in some dimension. */
  lemma RefusedForeverIffBehind(f: Fence, current: Authority)
    ensures Behind(f, current) <==> (forall later :: NotAfter(current, later) ==> CheckFence(f, later).Some?)
  {
    if Behind(f, current) {
      forall later | NotAfter(current, later) ensures CheckFence(f, later).Some? {
        FenceAcceptsExactly(f, later);
      }
    } else {
      var named := Authority(f.epoch, f.policy, f.topology, f.contract);
      assert NotAfter(current, named);
      FenceAcceptsExactly(f, named);
    }
  }
}
