/** Concrete runs from a freshly constructed fabric, one command at a time, up to a command that the engine
accepts although it breaks the invariant, revives a session or bypasses a fence. */
module Witnesses {
  import opened Sums
  import opened Model
  import opened Sessions
  import opened Shaper
  import opened Rates
  import opened Spec
  import opened Invariants
  import opened Commands
  import opened Runs
  import opened Theorems
  import opened Departures

  // ------------------------------------------------------------ reachable states

  ghost predicate Reaches(states: seq<Fabric>, events: seq<Event>, f: Fabric) {
    && Run(states, events, 0) && states[|states| - 1] == f
    && forall i :: 0 <= i < |events| ==> events[i].at == 0
  }

  /** Some run of disciplined commands, all of them at time zero, ends in this state. */
  ghost predicate Reachable(f: Fabric) {
    exists states, events :: Reaches(states, events, f)
  }

  lemma ReachInitial(f: Fabric)
    requires Initial(f, 0)
    ensures Reachable(f) && Good(f)
  {
    hide Initial, Good, Linked;
    InitialGood(f, 0);
    assert Reaches([f], [], f);
  }

  lemma ReachStep(f: Fabric, c: Command)
    requires Reachable(f) && Good(f) && Disciplined(f, c, 0)
    ensures Reachable(Step(f, c, 0).0) && Good(Step(f, c, 0).0)
  {
    hide Initial, Good, Disciplined, Step;
    StepGood(f, c, 0);
    var states, events :| Reaches(states, events, f);
    var g := Step(f, c, 0).0;
    var longer, more := states + [g], events + [Event(c, 0)];
    forall i | 0 <= i < |more| && Good(longer[i]) ensures Linked(longer[i], more[i], longer[i + 1]) {
      if i < |events| { assert Linked(states[i], events[i], states[i + 1]); }
    }
    assert Reaches(longer, more, g);
  }

  // -------------------------------------------------------------------- the setting

  const BASE := Epoch(1, 1)
  const BOUNDS := Limits(16, 1000, 16, 16, 16, 4)
  const ENVELOPE := ClassEnvelope(SECOND, 100_000_000, 4)
  const SLOW := ClassEnvelope(5, 2 * SECOND, 4)
  const PATHS := Topology(1, [PathClass(1, SyntheticLab, SECOND)])
  const NO_DIGEST := ContentDigest(0, FNV_SEED)

  /** One attempt is kept on record and one class is slow; from the second generation on, verification is demanded. */
  function Rules(generation: nat): Policy {
    Policy(generation, map[TrainingCritical := SLOW, ServingLatency := ENVELOPE, TrainingBulk := ENVELOPE, BestEffort := ENVELOPE],
           1000, 4, 4, 1, generation > 1)
  }

  function Agreed(generation: nat, ceiling: nat): Contract {
    Contract(1, generation, TrainingBulk, ceiling, 4, true, SECOND)
  }

  lemma RulesValid(generation: nat)
    requires generation > 0
    ensures PolicyValid(Rules(generation))
  {
  }

  /** Shards of ten bytes each. */
  function Table(n: nat): seq<ShardDescriptor> {
    seq(n, i requires 0 <= i < n => ShardDescriptor(i, 10, NO_DIGEST, 0))
  }

  /** A checkpoint of one or two such shards, at the full rate of its path. */
  function Ask(n: nat): Request {
    Request(1, 1, 1, 1, 1, 1, 1, TrainingBulk, SyntheticLab, SECOND, 0, Manifest(1, 1, 1, 1, 10 * n, Table(n), true))
  }

  function Opened(n: nat): Session { NewSession(Ask(n), TrainingBulk, 1, SECOND, SECOND) }

  /** What a fabric with one session looks like at time zero. */
  datatype Scene = Scene(session: Session, epoch: Epoch, policy: nat, contract: Contract, credit: nat)

  predicate Affords(c: Credit, n: nat) {
    && TrainingBulk in c.classes && c.classes[TrainingBulk].tokens >= n
    && 1 in c.workloads && c.workloads[1].tokens >= n
  }

  predicate Looks(f: Fabric, x: Scene) {
    && f.limits == BOUNDS && f.epoch == x.epoch && f.policy == Rules(x.policy) && f.topology == PATHS
    && f.contracts == map[1 := x.contract] && Affords(f.credit, x.credit)
    && f.sessions == map[1 := x.session] && (forall d :: d in f.deadlines ==> d > 0)
    && f.retentionBound == 64 && !f.shuttingDown
  }

  ghost predicate At(f: Fabric, x: Scene) { Reachable(f) && Good(f) && Looks(f, x) }

  function Now(x: Scene): Fence { Fence(x.epoch, x.policy, 1, x.contract.generation, None, None) }

  lemma Idle(f: Fabric)
    requires forall d :: d in f.deadlines ==> d > 0
    ensures Expire(f, 0) == f
  {
  }

  lemma TotalOne(m: map<SessionId, Session>, s: Session, g: Session -> nat)
    requires m == map[1 := s]
    ensures Total(m, g) == g(s)
  {
    TotalRemove(m, 1, g);
    assert m - {1} == map[];
  }

  lemma Passes(f: Fabric, x: Scene)
    requires Looks(f, x) && x.session.request.workload == 1
    ensures Expire(f, 0) == f && Gate(f, 1, Now(x)).None? && FabricFence(f, Now(x)).None? && Now(x).checkpoint.None?
  {
    Idle(f);
  }

  lemma Follow(f: Fabric, c: Command, x: Scene)
    requires Reachable(f) && Good(f) && Disciplined(f, c, 0) && Looks(Step(f, c, 0).0, x)
    ensures At(Step(f, c, 0).0, x)
  {
    hide Good, Reachable, Disciplined, Step, Looks;
    ReachStep(f, c);
  }

  lemma Stored(f: Fabric, x: Scene, t: Session)
    requires Looks(f, x)
    ensures Looks(Store(f, 1, t), x.(session := t))
  {
    assert map[1 := x.session][1 := t] == map[1 := t];
    hide Evict;
  }

  // -------------------------------------------------------------------- admission

  function Start(): Fabric {
    RulesValid(1);
    Fabric(BOUNDS, Epoch(1, 1), Rules(1), PATHS, map[1 := Agreed(1, SECOND)],
           Credit(ClassCredit(Rules(1), 0), WorkloadCredit(map[1 := Agreed(1, SECOND)], 0)),
           map[], map[], [], Ledger(0, 0, 0, 0, 0, 0, 0), 64, map[], [], 64, false)
  }

  lemma FullBucket(ceiling: nat, window: nat)
    requires 100_000 <= ceiling < U64 && 0 < window < U64 / 2
    ensures Configured(ceiling, window, 0).tokens >= 1000
  {
    hide Word;
  }

  lemma Starts()
    ensures Initial(Start(), 0) && Affords(Start().credit, 1000)
  {
    RulesValid(1);
    FullBucket(SECOND, 100_000_000);
    hide Configured;
  }

  lemma AskValid(n: nat)
    requires n == 1 || n == 2
    ensures ManifestValid(Ask(n).manifest, BOUNDS)
  {
    var t := Table(n);
    assert n == 1 ==> t == [t[0]];
    assert n == 2 ==> t == [t[0], t[1]];
    assert t[1..] == if n == 1 then [] else [t[1]];
    assert n == 2 ==> t[1..][1..] == [];
    assert SeqTotal(t[1..], DescriptorBytes) == if n == 1 then 0 else 10;
  }

  lemma NeededRate(n: nat)
    requires n == 1 || n == 2
    ensures CeilRate(10 * n, SECOND) == 10 * n
  {
    assert (10 * n) / SECOND == 0 && (10 * n) % SECOND == 10 * n;
    assert 10 * n * SECOND + (SECOND - 1) < U64;
    WordSmall(10 * n * SECOND);
    WordSmall(10 * n * SECOND + (SECOND - 1));
  }

  lemma OnlyPath()
    ensures DefaultPath(PATHS, SyntheticLab) == Some(1) && PathOf(PATHS, 1) == Some(PATHS.paths[0])
  {
    assert PATHS.paths[0].id == 1 && PATHS.paths[0].destination == SyntheticLab;
    assert Serves(PATHS, 1, SyntheticLab);
    DefaultPathUnique(PATHS, SyntheticLab, DefaultPath(PATHS, SyntheticLab), Some(1));
  }

  lemma Planned(n: nat)
    requires n == 1 || n == 2
    ensures PlanRate(Ask(n), Agreed(1, SECOND), ENVELOPE, PATHS.paths[0], 0) == Rate(SECOND)
  {
    hide CeilRate;
    NeededRate(n);
  }

  /** The setting of these runs, with no session running and none retained of the checkpoint that is asked for. */
  predicate Quiet(f: Fabric, checkpoint: CheckpointId) {
    && f.limits == BOUNDS && f.epoch == BASE && f.policy == Rules(1) && f.topology == PATHS && f.contracts == map[1 := Agreed(1, SECOND)]
    && !f.shuttingDown && (forall d :: d in f.deadlines ==> d > 0)
    && forall id :: id in f.sessions ==> !Active(f.sessions[id]) && f.sessions[id].request.checkpoint != checkpoint
  }

  /** A well-formed request under the first generations, for some class and rate. */
  predicate Proper(r: Request, rate: nat) {
    && r.workload == 1 && r.contractGeneration == 1 && r.policyGeneration == 1 && r.topologyGeneration == 1
    && r.destination.SyntheticLab? && Rank(r.isolation) <= Rank(TrainingBulk)
    && ManifestValid(r.manifest, BOUNDS) && ShardPathsPermitted(PATHS, r)
    && r.manifest.checkpoint == r.checkpoint && r.manifest.generation == r.checkpointGeneration
    && r.manifest.workload == 1 && r.manifest.contractGeneration == 1
    && PlanRate(r, Agreed(1, SECOND), Rules(1).envelopes[r.isolation], PATHS.paths[0], 0) == Rate(rate)
  }

  const FIRST := Fence(BASE, 1, 1, 1, None, None)

  lemma QuietTotals(f: Fabric, checkpoint: CheckpointId)
    requires Good(f) && Quiet(f, checkpoint)
    ensures Total(f.sessions, ActiveOne) == 0 && Total(f.sessions, RateOn(1)) == 0
    ensures forall w :: Total(f.sessions, ActiveForWorkload(w)) == 0
    ensures forall k :: Total(f.sessions, ActiveInClass(k)) == 0
  {
    hide Base, DeadlinesBut, CoreOk;
    forall id | id in f.sessions ensures f.sessions[id].reserved.None? && !Active(f.sessions[id]) {
      SessionGood(f, id);
    }
    TotalZero(f.sessions, ActiveOne);
    TotalZero(f.sessions, RateOn(1));
    forall w ensures Total(f.sessions, ActiveForWorkload(w)) == 0 { TotalZero(f.sessions, ActiveForWorkload(w)); }
    forall k ensures Total(f.sessions, ActiveInClass(k)) == 0 { TotalZero(f.sessions, ActiveInClass(k)); }
  }

  lemma Accepted(f: Fabric, r: Request, rate: nat)
    requires Good(f) && Quiet(f, r.checkpoint) && Proper(r, rate)
    ensures Judge(f, r) == Accept(r.isolation, 1, rate) && Rival(f.sessions, r.checkpoint).None?
  {
    hide Good, ManifestValid, DefaultPath, PlanRate, Total, ActiveInClass, ActiveForWorkload, RateOn, ShardPathsPermitted;
    OnlyPath();
    ProperSize(r, rate);
    QuietTotals(f, r.checkpoint);
    assert Rival(f.sessions, r.checkpoint).None?;
    assert JudgeCapacity(f, r, Agreed(1, SECOND), r.isolation, PATHS.paths[0]) == Accept(r.isolation, 1, rate);
  }

  /** Such a request is admitted at time zero, and nothing else changes. */
  lemma Admits(f: Fabric, r: Request, rate: nat, id: SessionId)
    requires Good(f) && Quiet(f, r.checkpoint) && Proper(r, rate) && r.command !in f.commands && id !in f.sessions
    ensures var g := Step(f, SubmitCmd(r, FIRST, 0, id), 0).0;
            && Disciplined(f, SubmitCmd(r, FIRST, 0, id), 0)
            && g.sessions == f.sessions[id := NewSession(r, r.isolation, 1, rate, Horizon(r, Agreed(1, SECOND)))]
            && g == f.(sessions := g.sessions, deadlines := g.deadlines, commands := g.commands, commandOrder := g.commandOrder,
                       commandBound := g.commandBound)
            && (Horizon(r, Agreed(1, SECOND)) > 0 ==> forall d :: d in g.deadlines ==> d > 0)
            && (forall d :: d in g.deadlines ==> d in f.deadlines || d == Horizon(r, Agreed(1, SECOND)))
            && g.commands.Keys <= f.commands.Keys + {r.command}
  {
    hide Good, Judge, Proper, Remember, NewShards, Horizon, Rival;
    Idle(f);
    Accepted(f, r, rate);
    ProperFence(r, rate);
    var h := AdmitNew(f, r, id, r.isolation, 1, rate, Horizon(r, Agreed(1, SECOND)));
    RememberKeys(h, r.command, CommandRecord(Admit, Some(id), 0));
  }

  lemma ProperSize(r: Request, rate: nat)
    requires Proper(r, rate)
    ensures r.manifest.total <= 1000
  {
  }

  lemma ProperFence(r: Request, rate: nat)
    requires Proper(r, rate)
    ensures r.workload == 1 && r.contractGeneration == 1 && r.policyGeneration == 1 && r.topologyGeneration == 1
  {
  }

  lemma RememberKeys(f: Fabric, command: CommandId, record: CommandRecord)
    ensures Remember(f, command, record).commands.Keys <= f.commands.Keys + {command}
  {
    hide Forget;
    var bound := Max(64, Min(f.policy.retainedHistory * 4, 4096));
    ForgetShrinks(f.(commandOrder := f.commandOrder + [command], commandBound := bound));
  }

  lemma {:induction false} ForgetShrinks(f: Fabric)
    ensures Forget(f).commands.Keys <= f.commands.Keys
    decreases |f.commandOrder|
  {
    if |f.commandOrder| > f.commandBound {
      ForgetShrinks(f.(commands := f.commands - {f.commandOrder[0]}, commandOrder := f.commandOrder[1..]));
    }
  }

  lemma Unrouted(n: nat)
    ensures ShardPathsPermitted(PATHS, Ask(n))
  {
  }

  lemma AskProper(n: nat)
    requires n == 1 || n == 2
    ensures Proper(Ask(n), SECOND)
  {
    hide ManifestValid, ShardPathsPermitted, PlanRate, Table;
    AskValid(n);
    Unrouted(n);
    Planned(n);
  }

  /** A session of one or two shards, admitted at time zero. */
  lemma Opens(n: nat) returns (f: Fabric)
    requires n == 1 || n == 2
    ensures At(f, Scene(Opened(n), BASE, 1, Agreed(1, SECOND), 1000))
  {
    hide Reachable, Initial, Good, ClassCredit, WorkloadCredit, NewShards, Table, Proper, Step;
    var g := Start();
    Starts();
    ReachInitial(g);
    AskProper(n);
    Admits(g, Ask(n), SECOND, 1);
    var none: map<SessionId, Session> := map[];
    assert none[1 := Opened(n)] == map[1 := Opened(n)];
    f := Step(g, SubmitCmd(Ask(n), FIRST, 0, 1), 0).0;
    Follow(g, SubmitCmd(Ask(n), FIRST, 0, 1), Scene(Opened(n), BASE, 1, Agreed(1, SECOND), 1000));
  }

  // --------------------------------------------------------------------- commands

  /** A session that may be granted its shard at this position, in one piece. */
  predicate MayGrant(x: Scene, p: nat) {
    var s := x.session;
    && s.request.workload == 1 && s.envelope.isolation.TrainingBulk? && s.envelope.deadline > 0 && s.activeAttempts < 4
    && (s.state.Admitted? || s.state.Transferring?) && !s.paused
    && p < |s.shards| && Position(s.shards, s.shards[p].index) == p && PreviousSettled(s, p)
    && !IsSettled(s.shards[p]) && !s.shards[p].state.ShardAmbiguous?
    && 0 < Remaining(s.shards[p]) <= Min(x.credit, MIN_CHUNK)
  }

  lemma GatePassed(f: Fabric, x: Scene, p: nat)
    requires Looks(f, x) && MayGrant(x, p)
    ensures WaveGate(f, 1, x.session.shards[p].index, Now(x), 0).None?
  {
    hide Gate, Total, PreviousSettled, Position;
    Passes(f, x);
    TotalOne(f.sessions, x.session, AttemptsOf);
  }

  lemma CreditSuffices(f: Fabric, x: Scene, p: nat, attempt: AttemptId)
    requires Looks(f, x) && CreditOk(f.credit) && MayGrant(x, p)
    ensures var r := Remaining(x.session.shards[p]);
            var o := Wave(f, 1, p, attempt, 0);
            && o.1 == WaveGranted(attempt, r)
            && Looks(o.0, x.(session := Grant(x.session, p, attempt, r, 1), credit := x.credit - r))
            && o.0 == f.(credit := o.0.credit, sessions := o.0.sessions)
  {
    hide Grant, Refilled;
    var r := Remaining(x.session.shards[p]);
    assert map[1 := x.session][1 := Grant(x.session, p, attempt, r, 1)] == map[1 := Grant(x.session, p, attempt, r, 1)];
    RefilledTwice(f.credit.classes[TrainingBulk], 0);
  }

  /** The whole remainder of the shard is granted. */
  lemma Grants(f: Fabric, x: Scene, p: nat, attempt: AttemptId)
    requires Good(f) && Looks(f, x) && MayGrant(x, p)
    ensures var r := Remaining(x.session.shards[p]);
            var o := Step(f, WaveCmd(1, x.session.shards[p].index, Now(x), attempt), 0);
            && o.1 == WaveGranted(attempt, r)
            && Looks(o.0, x.(session := Grant(x.session, p, attempt, r, 1), credit := x.credit - r))
  {
    hide Good, WaveGate, Wave, Grant, Expire;
    Passes(f, x);
    ProvisionedCredit(f);
    GatePassed(f, x, p);
    CreditSuffices(f, x, p, attempt);
  }

  /** The attempt is on record as the current one of the shard. */
  predicate Names(x: Scene, p: nat, a: nat) {
    var s := x.session;
    && s.request.workload == 1 && Active(s) && IsCurrent(s, p, a)
    && Position(s.shards, s.shards[p].index) == p && AttemptPosition(s.attempts, s.attempts[a].id) == a
  }

  lemma EvidencePassed(f: Fabric, x: Scene, p: nat, a: nat)
    requires Looks(f, x) && Names(x, p, a)
    ensures var t := x.session.attempts[a];
            EvidenceGate(f, 1, Now(x), x.session.shards[p].index, t.id, t.sequence).None?
  {
    hide Gate, Position, AttemptPosition;
    Passes(f, x);
  }

  function Sighting(x: Scene, p: nat, a: nat, arrived: nat, acknowledged: bool): Command
    requires Names(x, p, a)
  {
    TransferCmd(1, x.session.shards[p].index, x.session.attempts[a].id, x.session.attempts[a].sequence, arrived, acknowledged, Now(x))
  }

  function Delivery(x: Scene, p: nat, a: nat, arrived: nat): Command
    requires Names(x, p, a)
  {
    Sighting(x, p, a, arrived, true)
  }

  /** The attempt may still be reported on, with this many bytes. */
  predicate MayReport(s: Session, a: nat, arrived: nat)
    requires a < |s.attempts|
  {
    && SettledOutcome(s.attempts[a].outcome).None? && s.attempts[a].delivered <= arrived <= s.attempts[a].granted
    && arrived - s.attempts[a].delivered <= s.ledger.outstanding
  }

  /** The sink acknowledged the bytes that arrived. */
  lemma Delivers(f: Fabric, x: Scene, p: nat, a: nat, arrived: nat)
    requires Good(f) && Looks(f, x) && Names(x, p, a) && x.policy == 1 && MayReport(x.session, a, arrived)
    ensures var t := Progress(Acknowledge(Observe(x.session, a, arrived), p, a, arrived - x.session.attempts[a].delivered), false);
            var o := Step(f, Delivery(x, p, a, arrived), 0);
            o.1.Done? && Looks(o.0, x.(session := t))
  {
    hide Good, EvidenceGate, Expire, Store, Progress, Looks;
    EvidenceSeen(f, x, p, a);
    Stored(f, x, Progress(Acknowledge(Observe(x.session, a, arrived), p, a, arrived - x.session.attempts[a].delivered), false));
  }

  /** Bytes were seen to arrive, without an acknowledgement. */
  lemma Sights(f: Fabric, x: Scene, p: nat, a: nat, arrived: nat)
    requires Good(f) && Looks(f, x) && Names(x, p, a) && x.policy == 1 && MayReport(x.session, a, arrived)
    ensures var t := Progress(Unacknowledged(Observe(x.session, a, arrived), a), false);
            var o := Step(f, Sighting(x, p, a, arrived, false), 0);
            o.1.Done? && Looks(o.0, x.(session := t))
  {
    hide Good, EvidenceGate, Expire, Store, Progress, Looks;
    EvidenceSeen(f, x, p, a);
    Stored(f, x, Progress(Unacknowledged(Observe(x.session, a, arrived), a), false));
  }

  lemma EvidenceSeen(f: Fabric, x: Scene, p: nat, a: nat)
    requires Looks(f, x) && Names(x, p, a)
    ensures Expire(f, 0) == f && f.sessions == map[1 := x.session] && (x.policy == 1 ==> !f.policy.requireVerification)
    ensures var t := x.session.attempts[a];
            EvidenceGate(f, 1, Now(x), x.session.shards[p].index, t.id, t.sequence).None?
  {
    hide EvidenceGate, Expire;
    Passes(f, x);
    EvidencePassed(f, x, p, a);
  }

  function Finding(x: Scene, p: nat, a: nat, outcome: VerificationOutcome): Command
    requires Names(x, p, a)
  {
    VerifyCmd(1, x.session.shards[p].index, x.session.attempts[a].id, x.session.attempts[a].sequence, outcome,
              x.session.shards[p].declared, x.session.shards[p].digest, Now(x))
  }

  /** The verdict on the shard's current attempt, in the digest and size that were declared. */
  function Ruling(s: Session, p: nat, a: nat, outcome: VerificationOutcome): Session
    requires IsCurrent(s, p, a)
  {
    match outcome
    case Verified => Progress(Verify(s, p, a), false)
    case DigestMismatch => Settle(Reject(s, p, a), Failed)
    case Truncated => Progress(Truncate(s, p, a), false)
    case _ => Progress(Doubt(s, p, a), false)
  }

  lemma Finds(f: Fabric, x: Scene, p: nat, a: nat, outcome: VerificationOutcome)
    requires Good(f) && Looks(f, x) && Names(x, p, a) && x.policy == 1 && IsAcked(x.session.attempts[a])
    ensures Step(f, Finding(x, p, a, outcome), 0).1.Done?
    ensures Looks(Step(f, Finding(x, p, a, outcome), 0).0, x.(session := Ruling(x.session, p, a, outcome)))
  {
    hide Good, EvidenceGate, Expire, Store, Progress, Settle, Verify, Reject, Truncate, Doubt, Looks;
    EvidenceSeen(f, x, p, a);
    Stored(f, x, Ruling(x.session, p, a, outcome));
  }

  lemma Pauses(f: Fabric, x: Scene)
    requires Good(f) && Looks(f, x) && x.session.request.workload == 1
    requires Active(x.session) && !x.session.state.RevalidationRequired? && !x.session.paused
    ensures var t := x.session.(paused := true, pausedFrom := x.session.state, state := Model.Paused);
            Looks(Step(f, PauseCmd(1, Now(x)), 0).0, x.(session := t))
    ensures Step(f, PauseCmd(1, Now(x)), 0).0.deadlines == f.deadlines
  {
    hide Good, Expire, Gate;
    Passes(f, x);
    assert forall t :: map[1 := x.session][1 := t] == map[1 := t];
  }

  lemma Resumes(f: Fabric, x: Scene)
    requires Good(f) && Looks(f, x) && x.session.request.workload == 1 && x.session.paused
    ensures var t := x.session.(paused := false, state := x.session.pausedFrom);
            Looks(Step(f, ResumeCmd(1, Now(x)), 0).0, x.(session := t))
  {
    hide Good, Expire, Gate;
    Passes(f, x);
    assert forall t :: map[1 := x.session][1 := t] == map[1 := t];
  }

  lemma Replaces(f: Fabric, x: Scene)
    requires Good(f) && Looks(f, x) && x.policy == 1 && x.contract == Agreed(1, SECOND)
    ensures Looks(Step(f, PolicyCmd(Rules(2)), 0).0, x.(policy := 2, session := Demand(x.session), credit := 1000))
    ensures Step(f, PolicyCmd(Rules(2)), 0).1.Done?
  {
    hide Good, Demand, PolicyValid, ContractsValid, Configured;
    RulesValid(2);
    ProvisionedContracts(f);
    FullBucket(SECOND, 100_000_000);
    BucketOfContract(f, x);
    assert Demanded(map[1 := x.session]) == map[1 := Demand(x.session)];
  }

  lemma BucketOfContract(f: Fabric, x: Scene)
    requires Looks(f, x) && 100_000 <= x.contract.ceiling < U64
    ensures Configured(x.contract.ceiling, WORKLOAD_WINDOW, 0).tokens >= 1000
  {
    FullBucket(x.contract.ceiling, WORKLOAD_WINDOW);
  }

  lemma Renegotiates(f: Fabric, x: Scene, ceiling: nat)
    requires Good(f) && Looks(f, x) && x.contract.generation == 1 && 100_000 <= ceiling < U64 && x.session.request.workload == 1
    ensures Looks(Step(f, ContractCmd(Agreed(2, ceiling)), 0).0,
                  x.(contract := Agreed(2, ceiling), session := Demand(x.session), credit := Min(x.credit, 1000)))
    ensures Step(f, ContractCmd(Agreed(2, ceiling)), 0).1.Done?
  {
    hide Good, Demand, Configured;
    FullBucket(ceiling, WORKLOAD_WINDOW);
    assert DemandedOf(map[1 := x.session], 1) == map[1 := Demand(x.session)];
    assert map[1 := x.contract][1 := Agreed(2, ceiling)] == map[1 := Agreed(2, ceiling)];
  }

  lemma Restarts(f: Fabric, x: Scene)
    requires Good(f) && Looks(f, x) && x.epoch == Epoch(1, 1) && Active(x.session)
    ensures Looks(Step(f, EpochCmd(Epoch(1, 2)), 0).0, x.(epoch := Epoch(1, 2), session := Restart(x.session)))
    ensures Step(f, EpochCmd(Epoch(1, 2)), 0).0.deadlines == map[]
  {
    hide Good, Restart;
    assert AllRestarted(map[1 := x.session]) == map[1 := Restart(x.session)];
  }

  // --------------------------------------------------------------------- the sessions

  function Shown(s: Session, credit: nat): Scene { Scene(s, BASE, 1, Agreed(1, SECOND), credit) }

  function Rest(n: nat): seq<Shard> { if n == 2 then [NewShard(ShardDescriptor(1, 10, NO_DIGEST, 0))] else [] }

  /** The first shard has had one attempt, which moved `moved` of its ten bytes. */
  function Underway(n: nat, state: ShardState, outcome: AttemptOutcome, moved: nat, live: bool): Session
    requires moved <= 10 * n
  {
    Opened(n).(attemptCounter := 1, state := Transferring, activeAttempts := if live then 1 else 0,
               shards := [Shard(0, 10, NO_DIGEST, state, 1, Some(7), 10, moved, 0, false, 0)] + Rest(n),
               attempts := [Attempt(7, 1, 0, outcome, 10, moved, live)],
               ledger := Ledger(10 * n, moved, 0, 0, 0, 0, 10 * n - moved))
  }

  function Flying(n: nat): Session { Underway(n, ShardInFlight, OutcomeInFlight, 0, true) }

  lemma FirstGrant(n: nat)
    requires n == 1 || n == 2
    ensures Grant(Opened(n), 0, 7, 10, 1) == Flying(n)
    ensures MayGrant(Shown(Opened(n), 1000), 0) && Remaining(Opened(n).shards[0]) == 10
    ensures Names(Shown(Flying(n), 990), 0, 0)
  {
    var s := Opened(n);
    assert s.shards == [NewShard(Table(n)[0])] + Rest(n);
    assert s.shards[0] == Shard(0, 10, NO_DIGEST, ShardPending, 0, None, 0, 0, 0, false, 0);
    assert Grant(s, 0, 7, 10, 1).shards == Flying(n).shards;
  }

  lemma Flies(n: nat) returns (f: Fabric)
    requires n == 1 || n == 2
    ensures At(f, Shown(Flying(n), 990))
  {
    hide Good, Reachable, Expire, Step, Grant, Opened, Flying, WaveGate;
    var g := Opens(n);
    var x := Shown(Opened(n), 1000);
    FirstGrant(n);
    Grants(g, x, 0, 7);
    FirstDisciplined(g, n);
    var c := WaveCmd(1, 0, Now(x), 7);
    assert x.session.shards[0].index == 0 by { OpenedIndex(n); }
    Follow(g, c, Shown(Flying(n), 990));
    f := Step(g, c, 0).0;
  }

  lemma OpenedIndex(n: nat)
    requires n == 1 || n == 2
    ensures Opened(n).shards[0].index == 0
  {
  }

  lemma FirstDisciplined(g: Fabric, n: nat)
    requires (n == 1 || n == 2) && Good(g) && Looks(g, Shown(Opened(n), 1000))
    ensures Disciplined(g, WaveCmd(1, 0, Now(Shown(Opened(n), 1000)), 7), 0)
  {
    hide Good, WaveGate, Expire;
    Idle(g);
    assert Opened(n).attempts == [];
    assert Dropped(Opened(n).attempts, 0) == [];
  }

  lemma Unsound(f: Fabric, id: SessionId)
    requires id in f.sessions && !SessionOk(f.sessions[id])
    ensures !Good(f)
  {
    hide SessionOk;
  }

  // --------------------------------------------------------------------- the witnesses

  function Half(): Session { Underway(1, ShardInFlight, OutcomeDeliveredAcked, 5, false) }

  lemma HalfArrived()
    ensures Progress(Acknowledge(Observe(Flying(1), 0, 5), 0, 0, 5), false) == Half()
    ensures Names(Shown(Half(), 990), 0, 0)
  {
    var s := Acknowledge(Observe(Flying(1), 0, 5), 0, 0, 5);
    assert s.shards == Half().shards && s.attempts == Half().attempts;
    assert Unresolved(s.shards[0]);
    assert !IsSettled(s.shards[0]);
  }

  /** Half of the only shard arrived and was acknowledged. */
  lemma Halves() returns (f: Fabric)
    ensures At(f, Shown(Half(), 990))
  {
    hide Good, Reachable, Expire, Step, Progress, Acknowledge, Observe;
    var g := Flies(1);
    var x := Shown(Flying(1), 990);
    FirstGrant(1);
    HalfArrived();
    Delivers(g, x, 0, 0, 5);
    Follow(g, Delivery(x, 0, 0, 5), Shown(Half(), 990));
    f := Step(g, Delivery(x, 0, 0, 5), 0).0;
  }

  lemma HalfJudged()
    ensures var t := Ruling(Half(), 0, 0, Verified);
            && t.state.TrafficSessionComplete? && t.request.manifest.total == 10 && t.ledger == Ledger(10, 5, 10, 0, 0, 0, 0)
            && !SessionOk(t)
    ensures var t := Ruling(Half(), 0, 0, DigestMismatch);
            t.state.Failed? && t.ledger.outstanding == 5 && !SessionOk(t)
  {
    assert Verify(Half(), 0, 0).shards == [Verify(Half(), 0, 0).shards[0]];
    var t := Ruling(Half(), 0, 0, DigestMismatch);
    assert !FinishedOk(t);
  }

  /** Half a shard arrived, the sink reports success for all of it: the session
  completes with half its bytes, and five authorised bytes vanish from its books. */
  lemma PrematureVerification() returns (f: Fabric, c: Command)
    ensures Reachable(f) && Good(f) && c.VerifyCmd? && c.outcome.Verified?
    ensures var o := Step(f, c, 0);
            && o.1.Done? && c.id in o.0.sessions && !Good(o.0)
            && var s := o.0.sessions[c.id];
               && s.state.TrafficSessionComplete? && s.request.manifest.total == 10 && s.ledger.transferred == 5
               && s.ledger.verified == 10 && !Conserves(s.ledger)
  {
    hide Good, Reachable, Expire, Step, Ruling, SessionOk;
    f := Halves();
    var x := Shown(Half(), 990);
    HalfArrived();
    HalfJudged();
    c := Finding(x, 0, 0, Verified);
    Finds(f, x, 0, 0, Verified);
    Unsound(Step(f, c, 0).0, 1);
  }

  /** A mismatch reported while half is outstanding: the failed session keeps five bytes of authority forever. */
  lemma StrandedAuthority() returns (f: Fabric, c: Command)
    ensures Reachable(f) && Good(f) && c.VerifyCmd? && c.outcome.DigestMismatch?
    ensures var o := Step(f, c, 0);
            && o.1.Done? && c.id in o.0.sessions && !Good(o.0)
            && IsTerminal(o.0.sessions[c.id].state) && o.0.sessions[c.id].ledger.outstanding == 5
  {
    hide Good, Reachable, Expire, Step, Ruling, SessionOk;
    f := Halves();
    var x := Shown(Half(), 990);
    HalfArrived();
    HalfJudged();
    c := Finding(x, 0, 0, DigestMismatch);
    Finds(f, x, 0, 0, DigestMismatch);
    Unsound(Step(f, c, 0).0, 1);
  }

  /** Everything that was granted of the first shard arrived. */
  function Landed(n: nat): Session
    requires n > 0
  {
    Progress(Acknowledge(Observe(Flying(n), 0, 10), 0, 0, 10), false)
  }

  lemma Arrives(n: nat) returns (f: Fabric)
    requires n == 1 || n == 2
    ensures At(f, Shown(Landed(n), 990))
  {
    hide Good, Reachable, Expire, Step, Progress, Acknowledge, Observe;
    var g := Flies(n);
    var x := Shown(Flying(n), 990);
    FirstGrant(n);
    Delivers(g, x, 0, 0, 10);
    Follow(g, Delivery(x, 0, 0, 10), Shown(Landed(n), 990));
    f := Step(g, Delivery(x, 0, 0, 10), 0).0;
  }

  /** One of two shards is there: the session goes on. */
  lemma LandedFacts()
    ensures Names(Shown(Landed(2), 990), 0, 0)
    ensures var s := Landed(2);
            && s.shards == [Shard(0, 10, NO_DIGEST, ShardTransferred, 1, Some(7), 10, 10, 0, false, 0)] + Rest(2)
            && s.attempts == [Attempt(7, 1, 0, OutcomeDeliveredAcked, 10, 10, false)]
            && s.ledger == Ledger(20, 10, 0, 0, 0, 0, 10)
  {
    var s := Acknowledge(Observe(Flying(2), 0, 10), 0, 0, 10);
    assert !IsSettled(s.shards[1]);
  }

  lemma LandedDisciplined(g: Fabric)
    requires Good(g) && Looks(g, Shown(Landed(2), 990)) && Names(Shown(Landed(2), 990), 0, 0)
    ensures Disciplined(g, Finding(Shown(Landed(2), 990), 0, 0, Verified), 0)
  {
    hide Good, Expire, EvidenceGate, Landed;
    LandedFacts();
    Idle(g);
  }

  lemma LandedNamed()
    ensures IsCurrent(Landed(2), 0, 0)
  {
    hide Landed;
    LandedFacts();
  }

  /** The first of two shards, verified. */
  function Sealed(): Session {
    LandedNamed();
    Ruling(Landed(2), 0, 0, Verified)
  }

  lemma SealedFacts()
    ensures Names(Shown(Sealed(), 990), 0, 0)
    ensures var s := Sealed();
            && s.shards == [Shard(0, 10, NO_DIGEST, ShardVerified, 1, Some(7), 10, 10, 10, false, 0)] + Rest(2)
            && s.attempts == [Attempt(7, 1, 0, OutcomeVerified, 10, 10, false)]
            && s.ledger == Ledger(20, 10, 10, 0, 0, 0, 10)
  {
    hide Landed;
    LandedFacts();
    var s := Verify(Landed(2), 0, 0);
    assert s.shards == [Shard(0, 10, NO_DIGEST, ShardVerified, 1, Some(7), 10, 10, 10, false, 0)] + Rest(2);
    assert !IsSettled(s.shards[1]);
  }

  lemma SealedTruncated()
    ensures IsCurrent(Sealed(), 0, 0)
    ensures var t := Ruling(Sealed(), 0, 0, Truncated);
            t.ledger.verified == 10 && t.ledger.transferred == 0 && Active(t) && !SessionOk(t)
  {
    hide Sealed;
    SealedFacts();
    var t := Truncate(Sealed(), 0, 0);
    assert !ShardSound(t.shards[0]) && !IsSettled(t.shards[1]);
  }

  lemma Seals() returns (f: Fabric)
    ensures At(f, Shown(Sealed(), 990))
  {
    hide Good, Reachable, Expire, Step, Landed, Ruling;
    var g := Arrives(2);
    var x := Shown(Landed(2), 990);
    LandedFacts();
    LandedDisciplined(g);
    Finds(g, x, 0, 0, Verified);
    Follow(g, Finding(x, 0, 0, Verified), Shown(Sealed(), 990));
    f := Step(g, Finding(x, 0, 0, Verified), 0).0;
  }

  /** Truncation reported for a verified shard while another one is missing: more bytes count as verified than as arrived. */
  lemma VerifiedThenTruncated() returns (f: Fabric, c: Command)
    ensures Reachable(f) && Good(f) && c.VerifyCmd? && c.outcome.Truncated?
    ensures var o := Step(f, c, 0);
            && o.1.Done? && c.id in o.0.sessions && !Good(o.0)
            && Active(o.0.sessions[c.id]) && o.0.sessions[c.id].ledger.verified == 10 && o.0.sessions[c.id].ledger.transferred == 0
  {
    hide Good, Reachable, Expire, Step, Sealed, Ruling, SessionOk;
    f := Seals();
    var x := Shown(Sealed(), 990);
    SealedFacts();
    SealedTruncated();
    c := Finding(x, 0, 0, Truncated);
    Finds(f, x, 0, 0, Truncated);
    Unsound(Step(f, c, 0).0, 1);
  }

  lemma FlyingTwo()
    ensures var s := Flying(2);
            && s.shards == [Shard(0, 10, NO_DIGEST, ShardInFlight, 1, Some(7), 10, 0, 0, false, 0), Shard(1, 10, NO_DIGEST, ShardPending, 0, None, 0, 0, 0, false, 0)]
            && s.attempts == [Attempt(7, 1, 0, OutcomeInFlight, 10, 0, true)] && s.activeAttempts == 1 && s.attemptCounter == 1
            && s.request.workload == 1 && s.envelope.isolation.TrainingBulk? && s.envelope.deadline > 0 && s.state.Transferring? && !s.paused
  {
  }

  lemma SecondGrant()
    ensures |Flying(2).shards| == 2 && Flying(2).shards[1].index == 1 && Remaining(Flying(2).shards[1]) == 10
    ensures MayGrant(Shown(Flying(2), 990), 1)
  {
    hide Flying;
    FlyingTwo();
    assert Flying(2).shards[1..] == [Flying(2).shards[1]];
  }

  lemma SecondForgets()
    ensures |Flying(2).shards| == 2
    ensures var t := Grant(Flying(2), 1, 8, 10, 1);
            !SessionOk(t) && t.activeAttempts == 2 && |t.attempts| == 1
  {
    hide Flying, AttemptsSound, Shaped, ShardsSound;
    FlyingTwo();
    var t := Grant(Flying(2), 1, 8, 10, 1);
    assert t.attempts == [Attempt(8, 2, 1, OutcomeInFlight, 10, 0, true)];
    assert t.attempts[1..] == [];
    assert SeqTotal(t.attempts, LiveOne) == 1;
  }

  /** A history of one: granting the second shard forgets the first one's live attempt, and two active
  attempts are counted where one is on record. */
  lemma LiveAttemptForgotten() returns (f: Fabric, c: Command)
    ensures Reachable(f) && Good(f) && c.WaveCmd?
    ensures var o := Step(f, c, 0);
            && o.1.WaveGranted? && c.id in o.0.sessions && !Good(o.0)
            && o.0.sessions[c.id].activeAttempts == 2 && |o.0.sessions[c.id].attempts| == 1
  {
    hide Good, Reachable, Expire, Step, Flying, Grant, SessionOk;
    f := Flies(2);
    var x := Shown(Flying(2), 990);
    SecondGrant();
    SecondForgets();
    c := WaveCmd(1, 1, Now(x), 8);
    Grants(f, x, 1, 8);
    Unsound(Step(f, c, 0).0, 1);
  }

  function Halted(s: Session): Session { s.(paused := true, pausedFrom := s.state, state := Model.Paused) }

  /** Pausing, then a policy change, then resuming: the session is granted credit without a revalidation. */
  lemma RevalidationBypassed() returns (f: Fabric, wave: Command)
    ensures Reachable(f) && Good(f) && wave.WaveCmd? && wave.id in f.sessions && f.sessions[wave.id].state.Paused?
    ensures var g := Step(f, PolicyCmd(Rules(2)), 0);
            && g.1.Done? && Good(g.0) && wave.id in g.0.sessions && g.0.sessions[wave.id].state.RevalidationRequired?
            && var h := Step(g.0, ResumeCmd(wave.id, wave.fence), 0);
               && Good(h.0) && wave.id in h.0.sessions
               && h.0.sessions[wave.id].envelopeSequence == f.sessions[wave.id].envelopeSequence
               && Step(h.0, wave, 0).1.WaveGranted?
  {
    hide Good, Reachable, Expire, Step, Opened, Looks, MayGrant;
    var s := Opened(1);
    OpenedStanding(1);
    FirstGrant(1);
    var x := Shown(s, 1000);
    var e := Opens(1);
    var y := x.(session := Halted(s));
    Pauses(e, x);
    Follow(e, PauseCmd(1, Now(x)), y);
    f := Step(e, PauseCmd(1, Now(x)), 0).0;
    SessionOf(f, y);
    var z := y.(policy := 2, session := Demand(Halted(s)));
    Replaces(f, y);
    PolicyFree(f, y);
    Follow(f, PolicyCmd(Rules(2)), z);
    var g := Step(f, PolicyCmd(Rules(2)), 0).0;
    SessionOf(g, z);
    Resumes(g, z);
    ActiveResumed(g, z);
    var w := z.(session := s);
    Follow(g, ResumeCmd(1, Now(z)), w);
    var h := Step(g, ResumeCmd(1, Now(z)), 0).0;
    SessionOf(h, w);
    MayGrantAgain(x, w);
    wave := WaveCmd(1, 0, Now(w), 7);
    Grants(h, w, 0, 7);
  }

  lemma OpenedStanding(n: nat)
    requires n == 1 || n == 2
    ensures var s := Opened(n);
            && s.state.Admitted? && !s.paused && s.request.workload == 1 && s.envelope.deadline == SECOND && s.reserved == Some(Reservation(1, SECOND))
            && s.pausedFrom.Admitted? && |s.shards| == n && s.shards[0].index == 0 && s.request == Ask(n) && s.envelope.isolation.TrainingBulk?
            && s.envelope.path == 1
  {
  }

  lemma SessionOf(f: Fabric, x: Scene)
    requires Looks(f, x)
    ensures f.sessions == map[1 := x.session] && Expire(f, 0) == f
  {
    Idle(f);
  }

  lemma PolicyFree(f: Fabric, x: Scene)
    requires Good(f) && Looks(f, x) && Active(x.session)
    ensures Disciplined(f, PolicyCmd(Rules(2)), 0)
  {
    hide Good, Expire, PolicyValid;
  }

  lemma ActiveResumed(f: Fabric, x: Scene)
    requires Good(f) && Looks(f, x) && Active(x.session)
    ensures Disciplined(f, ResumeCmd(1, Now(x)), 0)
  {
    hide Good, Expire, Gate;
    Idle(f);
  }

  lemma MayGrantAgain(x: Scene, y: Scene)
    requires MayGrant(x, 0) && y.session == x.session && y.credit == x.credit
    ensures MayGrant(y, 0)
  {
  }

  /** Everything arrived while the session was paused. */
  function PausedLanded(): Session { Progress(Acknowledge(Observe(Halted(Flying(1)), 0, 10), 0, 0, 10), false) }

  lemma PausedFacts()
    ensures Names(Shown(Halted(Flying(1)), 990), 0, 0)
    ensures var t := PausedLanded();
            t.state.TrafficSessionComplete? && t.paused && t.pausedFrom.Transferring? && t.request.workload == 1
  {
    var s := Acknowledge(Observe(Halted(Flying(1)), 0, 10), 0, 0, 10);
    assert s.shards == [s.shards[0]];
  }

  lemma CompletesPaused() returns (f: Fabric)
    ensures At(f, Shown(PausedLanded(), 990))
  {
    hide Good, Reachable, Expire, Step, Flying, Looks, Progress, Acknowledge, Observe;
    var d := Flies(1);
    var x, y := Shown(Flying(1), 990), Shown(Halted(Flying(1)), 990);
    FlyingStanding();
    PausedFacts();
    Pauses(d, x);
    Follow(d, PauseCmd(1, Now(x)), y);
    var e := Step(d, PauseCmd(1, Now(x)), 0).0;
    Delivers(e, y, 0, 0, 10);
    Follow(e, Delivery(y, 0, 0, 10), Shown(PausedLanded(), 990));
    f := Step(e, Delivery(y, 0, 0, 10), 0).0;
  }

  lemma FlyingStanding()
    ensures var s := Flying(1);
            && s.state.Transferring? && !s.paused && s.request.workload == 1
            && s.attempts == [Attempt(7, 1, 0, OutcomeInFlight, 10, 0, true)] && s.ledger.outstanding == 10
  {
  }

  /** A session completes while paused; resuming it makes the finished session active again. */
  lemma CompletedThenResumed() returns (f: Fabric, c: Command)
    ensures Reachable(f) && Good(f) && c.ResumeCmd? && c.id in f.sessions && f.sessions[c.id].state.TrafficSessionComplete?
    ensures var o := Step(f, c, 0);
            o.1.Done? && c.id in o.0.sessions && o.0.sessions[c.id].state.Transferring? && !Good(o.0)
  {
    hide Good, Reachable, Expire, Gate, PausedLanded, Looks;
    f := CompletesPaused();
    PausedFacts();
    var x := Shown(PausedLanded(), 990);
    c := ResumeCmd(1, Now(x));
    SessionOf(f, x);
    Passes(f, x);
    ResumeTerminalExact(f, 1, Now(x), 0);
  }

  lemma LandedUnverified()
    ensures Landed(1).state.TrafficSessionComplete? && !AllVerified(Landed(1).shards)
  {
    var s := Acknowledge(Observe(Flying(1), 0, 10), 0, 0, 10);
    assert s.shards == [s.shards[0]] && !s.shards[0].state.ShardVerified?;
  }

  /** A session completed without verification; a policy that demands it makes the completed session unsound. */
  lemma VerificationDemandedLate() returns (f: Fabric, c: Command)
    ensures Reachable(f) && Good(f) && c.PolicyCmd? && Step(f, c, 0).1.Done? && !Good(Step(f, c, 0).0)
  {
    hide Good, Reachable, Expire, Landed, Looks, PolicyValid, AllVerified, ContractsValid, ApplyPolicy;
    f := Arrives(1);
    var x := Shown(Landed(1), 990);
    LandedUnverified();
    SessionOf(f, x);
    Replaces(f, x);
    ProvisionedContracts(f);
    c := PolicyCmd(Rules(2));
    PolicyExact(f, Rules(2), 0);
    assert !AllVerified(f.sessions[1].shards);
  }

  // ------------------------------------------------------------------ revalidation

  lemma RenewingScene(f: Fabric, x: Scene)
    requires Looks(f, x) && x.session.request.workload == 1 && x.session.state.RevalidationRequired?
    ensures Renewing(f, 1, Now(x))
  {
  }

  /** No room is left on the path beside the reservation that the session still holds. */
  lemma Defers(f: Fabric, x: Scene)
    requires Good(f) && Looks(f, x) && x.contract == Agreed(1, SECOND) && x.session.request == Ask(1) && x.session.state.RevalidationRequired?
    requires x.session.envelope.isolation.TrainingBulk? && x.session.envelope.path == 1 && x.session.reserved == Some(Reservation(1, SECOND))
    ensures Disciplined(f, RevalidateCmd(1, Now(x)), 0)
    ensures Looks(Step(f, RevalidateCmd(1, Now(x)), 0).0, x.(session := x.session.(state := Deferred)))
    ensures Step(f, RevalidateCmd(1, Now(x)), 0).0.deadlines == f.deadlines
  {
    hide Good, Expire, CeilRate, Total, DefaultPath, CheckFence;
    Idle(f);
    RenewingScene(f, x);
    TotalOne(f.sessions, x.session, RateOn(1));
    OnlyPath();
    NeededRate(1);
    var s := x.session;
    assert PlanAgain(f, s) == NoRate(PathCapacityUnavailable);
    assert map[1 := s][1 := s.(state := Deferred)] == map[1 := s.(state := Deferred)];
  }

  /** A session deferred after a restart and then paused is in no index: its target passes unenforced at every time. */
  lemma PausedWhileDeferred() returns (f: Fabric, id: SessionId)
    ensures Reachable(f) && Good(f) && id in f.sessions && Active(f.sessions[id]) && f.sessions[id].state.Paused?
    ensures forall at :: f.sessions[id].envelope.deadline <= at ==>
              id in Expire(f, at).sessions && Expire(f, at).sessions[id] == f.sessions[id]
  {
    hide Good, Reachable, Expire, Step, Opened, Looks, Restart;
    var s := Opened(1);
    OpenedStanding(1);
    RestartStanding(1);
    var x := Shown(s, 1000);
    var y := x.(epoch := Epoch(1, 2), session := Restart(s));
    var z := y.(session := Restart(s).(state := Deferred));
    var d := Opens(1);
    Restarts(d, x);
    Follow(d, EpochCmd(Epoch(1, 2)), y);
    var e := Step(d, EpochCmd(Epoch(1, 2)), 0).0;
    Defers(e, y);
    Follow(e, RevalidateCmd(1, Now(y)), z);
    var g := Step(e, RevalidateCmd(1, Now(y)), 0).0;
    Pauses(g, z);
    Follow(g, PauseCmd(1, Now(z)), z.(session := Halted(z.session)));
    f, id := Step(g, PauseCmd(1, Now(z)), 0).0, 1;
    SessionOf(f, z.(session := Halted(z.session)));
    forall at | f.sessions[id].envelope.deadline <= at
      ensures id in Expire(f, at).sessions && Expire(f, at).sessions[id] == f.sessions[id]
    {
      DeadlineExact(f, id, at);
    }
  }

  lemma RestartStanding(n: nat)
    requires n == 1 || n == 2
    ensures var s := Restart(Opened(n));
            && s.state.RevalidationRequired? && !s.paused && s.request == Ask(n) && s.envelope.isolation.TrainingBulk? && s.envelope.path == 1
            && s.reserved == Some(Reservation(1, SECOND))
  {
    hide Opened, Ask;
    OpenedStanding(n);
  }

  lemma NotRenewable(f: Fabric, x: Scene)
    requires Looks(f, x) && x.contract.ceiling < SECOND && x.session.request == Ask(1)
    requires x.session.envelope.isolation.TrainingBulk? && x.session.envelope.path == 1
    ensures !Renewable(f, x.session)
  {
    hide CeilRate, DefaultPath;
    OnlyPath();
  }

  /** The contract is renegotiated below the rate the session asked for: its revalidation is denied, and the failed
  session is never filed. */
  lemma DeniedRevalidation() returns (f: Fabric, c: Command)
    ensures Reachable(f) && Good(f) && c.RevalidateCmd?
    ensures var o := Step(f, c, 0);
            && o.1.Decided? && o.1.kind.Deny? && !Good(o.0)
            && c.id in o.0.sessions && o.0.sessions[c.id].state.Failed? && c.id !in o.0.terminalOrder
  {
    hide Good, Reachable, Expire, Opened, Looks, Renewing, Renewable, Revalidate, Demand, UpsertContract;
    var s := Opened(1);
    OpenedStanding(1);
    DemandStanding(1);
    var x := Shown(s, 1000);
    var y := x.(contract := Agreed(2, SECOND - 1), session := Demand(s));
    var d := Opens(1);
    Renegotiates(d, x, SECOND - 1);
    Follow(d, ContractCmd(Agreed(2, SECOND - 1)), y);
    f := Step(d, ContractCmd(Agreed(2, SECOND - 1)), 0).0;
    c := RevalidateCmd(1, Now(y));
    SessionOf(f, y);
    RenewingScene(f, y);
    NotRenewable(f, y);
    RevalidationExact(f, 1, Now(y), 0);
    DenialBreaksDiscipline(f, 1, Now(y), 0);
  }

  lemma DemandStanding(n: nat)
    requires n == 1 || n == 2
    ensures var s := Demand(Opened(n));
            && s.state.RevalidationRequired? && s.request == Ask(n) && s.envelope.isolation.TrainingBulk? && s.envelope.path == 1
  {
  }

  /** A fence that lags only in the contract generation is refused where the full fence is asked for, yet it cancels
  the session. */
  lemma LaggingContractCancels() returns (f: Fabric, c: Command)
    ensures Reachable(f) && Good(f) && c.CancelCmd? && c.id in f.sessions && f.sessions[c.id].request.workload in f.contracts
    ensures c.fence.contract < f.contracts[f.sessions[c.id].request.workload].generation
    ensures Step(f, PauseCmd(c.id, c.fence), 0).1.Refused? && Step(f, c, 0).1.Done?
  {
    hide Good, Reachable, Expire, Opened, Looks, Cancel, Pause, Demand, UpsertContract;
    var s := Opened(1);
    OpenedStanding(1);
    DemandStanding(1);
    var x := Shown(s, 1000);
    var y := x.(contract := Agreed(2, SECOND), session := Demand(s));
    var d := Opens(1);
    Renegotiates(d, x, SECOND);
    Follow(d, ContractCmd(Agreed(2, SECOND)), y);
    f := Step(d, ContractCmd(Agreed(2, SECOND)), 0).0;
    SessionOf(f, y);
    RootsOf(f, y);
    c := CancelCmd(1, Now(x));
    CancelExact(f, 1, Now(x), 0);
    LaggingRefused(f, PauseCmd(1, Now(x)), 0);
  }

  lemma RootsOf(f: Fabric, x: Scene)
    requires Looks(f, x)
    ensures f.epoch == x.epoch && f.policy.generation == x.policy && f.topology.generation == 1 && f.contracts == map[1 := x.contract]
  {
  }
}
