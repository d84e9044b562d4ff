/** More runs from a freshly constructed fabric: states in which the books, a restored snapshot or an
advertised wait fall short of what the documentation promises, although every peer is disciplined. */
module Shortfalls {
  import opened Sums
  import opened Model
  import opened Sessions
  import opened Shaper
  import opened Rates
  import opened Spec
  import opened Invariants
  import opened Commands
  import opened Runs
  import opened Theorems
  import opened Recovery
  import opened Departures
  import opened Witnesses

  // ---------------------------------------------------------------- acknowledgements

  /** All ten bytes were seen to arrive, but not acknowledged. */
  function Seen(): Session { Progress(Unacknowledged(Observe(Flying(1), 0, 10), 0), false) }

  lemma SeenFacts()
    ensures Names(Shown(Flying(1), 990), 0, 0) && MayReport(Flying(1), 0, 10)
    ensures Names(Shown(Seen(), 990), 0, 0) && MayReport(Seen(), 0, 10)
    ensures Seen().attempts == [Attempt(7, 1, 0, OutcomeDeliveredUnacked, 10, 10, true)]
    ensures Seen().shards == Flying(1).shards && Seen().ledger == Flying(1).ledger && Seen().activeAttempts == 1
  {
    var s := Unacknowledged(Observe(Flying(1), 0, 10), 0);
    assert s.attempts == [Attempt(7, 1, 0, OutcomeDeliveredUnacked, 10, 10, true)];
    assert !IsSettled(s.shards[0]);
  }

  lemma SeenAcknowledged()
    ensures |Seen().shards| == 1 && |Seen().attempts| == 1
    ensures var t := Progress(Acknowledge(Observe(Seen(), 0, 10), 0, 0, 0), false);
            && t.ledger == Ledger(10, 0, 0, 0, 0, 0, 10) && t.activeAttempts == 0 && Active(t)
            && t.attempts == [Attempt(7, 1, 0, OutcomeDeliveredAcked, 10, 10, false)]
  {
    hide Seen;
    SeenFacts();
    var s := Acknowledge(Observe(Seen(), 0, 10), 0, 0, 0);
    assert !IsSettled(s.shards[0]);
  }

  lemma Sees() returns (f: Fabric)
    ensures At(f, Shown(Seen(), 990))
  {
    hide Good, Reachable, Expire, Step, Flying, Looks;
    var g := Flies(1);
    var x := Shown(Flying(1), 990);
    SeenFacts();
    Sights(g, x, 0, 0, 10);
    Follow(g, Sighting(x, 0, 0, 10, false), Shown(Seen(), 990));
    f := Step(g, Sighting(x, 0, 0, 10, false), 0).0;
  }

  /** All bytes of a shard are reported, first without and then with an acknowledgement: none of them is ever booked as
  transferred, and nothing is in flight any more. */
  lemma AcknowledgedTooLate() returns (f: Fabric, c: Command)
    ensures Reachable(f) && Good(f) && c.TransferCmd? && c.acknowledged && c.bytes == 10
    ensures var o := Step(f, c, 0);
            && o.1.Done? && c.id in o.0.sessions && Good(o.0)
            && var s := o.0.sessions[c.id];
               && s.request.manifest.total == 10 && s.ledger == Ledger(10, 0, 0, 0, 0, 0, 10) && s.activeAttempts == 0
               && s.attempts == [Attempt(c.attempt, c.sequence, c.shard, OutcomeDeliveredAcked, 10, 10, false)]
  {
    hide Good, Reachable, Expire, Step, Seen, Looks;
    f := Sees();
    var x := Shown(Seen(), 990);
    SeenFacts();
    SeenAcknowledged();
    SeenRequest();
    c := Delivery(x, 0, 0, 10);
    Delivers(f, x, 0, 0, 10);
    var y := x.(session := Progress(Acknowledge(Observe(Seen(), 0, 10), 0, 0, 0), false));
    Follow(f, c, y);
    SessionOf(Step(f, c, 0).0, y);
  }

  lemma SeenRequest()
    ensures |Seen().shards| == 1 && |Seen().attempts| == 1 && Seen().shards[0].index == 0
    ensures Progress(Acknowledge(Observe(Seen(), 0, 10), 0, 0, 0), false).request.manifest.total == 10
  {
    hide Progress;
    SeenFacts();
    ProgressRequest(Acknowledge(Observe(Seen(), 0, 10), 0, 0, 0));
    ProgressRequest(Unacknowledged(Observe(Flying(1), 0, 10), 0));
  }

  lemma ProgressRequest(s: Session)
    ensures Progress(s, false).request == s.request
  {
  }

  // --------------------------------------------------------------- restored sessions

  /** Five bytes were acknowledged, then seven were seen to arrive. */
  function Late(): Session { Progress(Unacknowledged(Observe(Half(), 0, 7), 0), false) }

  lemma LateFacts()
    ensures Names(Shown(Half(), 990), 0, 0) && MayReport(Half(), 0, 7)
    ensures var s := Late();
            && Active(s) && s.request.workload == 1
            && s.attempts == [Attempt(7, 1, 0, OutcomeDeliveredUnacked, 10, 7, false)] && s.ledger == Ledger(10, 5, 0, 0, 0, 0, 5)
  {
    var s := Unacknowledged(Observe(Half(), 0, 7), 0);
    assert s.attempts == [Attempt(7, 1, 0, OutcomeDeliveredUnacked, 10, 7, false)];
    assert !IsSettled(s.shards[0]);
  }

  lemma LateMoves()
    ensures Restart(Late()).ledger.unproven == 0 && Restored(Late()).ledger.unproven == 3
  {
    hide Late;
    LateFacts();
    var s := Late();
    assert s.attempts[1..] == [] && RestoreAttempts(s.attempts)[1..] == [];
    assert SeqTotal(s.attempts, AtRiskOf) == 0;
    assert RestoreAttempts(s.attempts)[0] == RestoreAttempt(s.attempts[0]);
    assert SeqTotal(RestoreAttempts(s.attempts), AtRiskOf) == 3;
  }

  lemma ReportsLate() returns (f: Fabric)
    ensures At(f, Shown(Late(), 990))
  {
    hide Good, Reachable, Expire, Step, Half, Looks;
    var g := Halves();
    var x := Shown(Half(), 990);
    LateFacts();
    Sights(g, x, 0, 0, 7);
    Follow(g, Sighting(x, 0, 0, 7, false), Shown(Late(), 990));
    f := Step(g, Sighting(x, 0, 0, 7, false), 0).0;
  }

  /** An unacknowledged report after an acknowledged one: advancing the epoch proves nothing lost, while restoring the
  exported session books three bytes as unproven. */
  lemma RestoreBooksMore() returns (f: Fabric, id: SessionId)
    ensures Reachable(f) && Good(f) && id in f.sessions && Active(f.sessions[id])
    ensures Restart(f.sessions[id]).ledger.unproven == 0 && Restored(f.sessions[id]).ledger.unproven == 3
  {
    hide Good, Reachable, Looks, Late, Restart, Restored;
    f := ReportsLate();
    id := 1;
    LateFacts();
    LateMoves();
    SessionOf(f, Shown(Late(), 990));
  }

  function Given(): Session { Settle(CancelOutstanding(Late()), Model.Cancelled) }

  lemma Cancels(f: Fabric, x: Scene)
    requires Good(f) && Looks(f, x) && x.session.request.workload == 1 && Active(x.session)
    ensures Step(f, CancelCmd(1, Now(x)), 0).1.Done?
    ensures Looks(Step(f, CancelCmd(1, Now(x)), 0).0, x.(session := Settle(CancelOutstanding(x.session), Model.Cancelled)))
  {
    hide Good, Expire, Store, Settle, FabricFence, Looks;
    Passes(f, x);
    SessionOf(f, x);
    Stored(f, x, Settle(CancelOutstanding(x.session), Model.Cancelled));
  }

  lemma GivenUnsettled()
    ensures !Active(Given()) && |Given().attempts| == 1 && Unsettled(Given().attempts[0].outcome)
  {
    hide Late;
    LateFacts();
  }

  lemma GivesUp() returns (f: Fabric)
    ensures At(f, Shown(Given(), 990))
  {
    hide Good, Reachable, Expire, Step, Late, Looks;
    var e := ReportsLate();
    var x := Shown(Late(), 990);
    LateFacts();
    Cancels(e, x);
    Follow(e, CancelCmd(1, Now(x)), Shown(Given(), 990));
    f := Step(e, CancelCmd(1, Now(x)), 0).0;
  }

  lemma NeverRestored(f: Fabric, id: SessionId)
    requires Good(f) && id in f.sessions && !Active(f.sessions[id])
    requires exists i :: 0 <= i < |f.sessions[id].attempts| && Unsettled(f.sessions[id].attempts[i].outcome)
    ensures !SessionOk(Restored(f.sessions[id]))
    ensures forall blank, start, g :: Initial(blank, start) && RestoresTo(f, blank, g) ==> !Good(g)
  {
    hide Good, SessionOk, CoreOk, Restored, RestoresTo, Initial, Contracted, CompletionOk, Unsettled;
    SessionSound(f, id);
    RestoredTerminalExact(f.sessions[id]);
    assert !NoneUnsettled(f.sessions);
    forall blank, start, g | Initial(blank, start) && RestoresTo(f, blank, g) ensures !Good(g) {
      RestoredGood(f, blank, start, g);
    }
  }

  /** That session, cancelled, is sound; restored it holds an outstanding attempt, and no fabric that restores it is sound. */
  lemma RestoredTerminalUnsound() returns (f: Fabric, id: SessionId)
    ensures Reachable(f) && Good(f) && id in f.sessions && IsTerminal(f.sessions[id].state) && !SessionOk(Restored(f.sessions[id]))
    ensures forall blank, start, g :: Initial(blank, start) && RestoresTo(f, blank, g) ==> !Good(g)
  {
    hide Good, Reachable, Given, Looks, SessionOk, Restored, RestoresTo, Initial;
    f := GivesUp();
    id := 1;
    GivenUnsettled();
    SessionOf(f, Shown(Given(), 990));
    NeverRestored(f, id);
  }

  // --------------------------------------------------------------------- evictions

  /** The k-th request, for a checkpoint of its own. */
  function Nth(k: nat): Request {
    Ask(1).(command := k, checkpoint := k, manifest := Ask(1).manifest.(checkpoint := k))
  }

  lemma NthProper(k: nat)
    requires k > 0
    ensures Proper(Nth(k), SECOND)
  {
    hide ShardPathsPermitted, PlanRate, Table;
    AskValid(1);
    Unrouted(1);
    Planned(1);
    NthPlan(k);
  }

  lemma NthPlan(k: nat)
    ensures PlanRate(Nth(k), Agreed(1, SECOND), ENVELOPE, PATHS.paths[0], 0) == PlanRate(Ask(1), Agreed(1, SECOND), ENVELOPE, PATHS.paths[0], 0)
    ensures ShardPathsPermitted(PATHS, Nth(k)) <==> ShardPathsPermitted(PATHS, Ask(1))
    ensures Horizon(Nth(k), Agreed(1, SECOND)) == SECOND
  {
    hide CeilRate;
  }

  /** Some number of sessions were admitted and cancelled one after the other. */
  ghost predicate Piled(f: Fabric, k: nat) {
    && f.limits == BOUNDS && f.epoch == BASE && f.policy == Rules(1) && f.topology == PATHS && f.contracts == map[1 := Agreed(1, SECOND)]
    && !f.shuttingDown && (forall d :: d in f.deadlines ==> d > 0)
    && f.retentionBound == 64 && f.pruned == NOTHING && |f.sessions| == k
    && (forall id :: id in f.sessions ==> 0 < id <= k && !Active(f.sessions[id]) && f.sessions[id].request.checkpoint == id)
    && (forall c :: c in f.commands ==> c <= k)
  }

  /** The same fabric with one more session, which runs. */
  ghost predicate Extends(f: Fabric, g: Fabric, k: nat) {
    && g == f.(sessions := g.sessions, deadlines := g.deadlines, commands := g.commands, commandOrder := g.commandOrder, commandBound := g.commandBound)
    && g.sessions == f.sessions[k := NewSession(Nth(k), TrainingBulk, 1, SECOND, SECOND)]
    && (forall d :: d in g.deadlines ==> d > 0) && (forall c :: c in g.commands ==> c <= k)
  }

  lemma NextOpens(f: Fabric, k: nat) returns (g: Fabric)
    requires Reachable(f) && Good(f) && Piled(f, k)
    ensures Reachable(g) && Good(g) && Extends(f, g, k + 1)
  {
    hide Reachable, Good, Step, Proper, NewSession, Horizon, Disciplined;
    NthProper(k + 1);
    NthPlan(k + 1);
    NthNamed(k + 1);
    PiledQuiet(f, k);
    Admits(f, Nth(k + 1), SECOND, k + 1);
    ReachStep(f, SubmitCmd(Nth(k + 1), FIRST, 0, k + 1));
    g := Step(f, SubmitCmd(Nth(k + 1), FIRST, 0, k + 1), 0).0;
  }

  lemma NthNamed(k: nat)
    ensures Nth(k).command == k && Nth(k).checkpoint == k && Nth(k).isolation.TrainingBulk?
  {
  }

  lemma PiledQuiet(f: Fabric, k: nat)
    requires Piled(f, k)
    ensures Quiet(f, k + 1) && k + 1 !in f.sessions && k + 1 !in f.commands
  {
  }

  /** Cancelling the one running session ends it and leaves the rest alone, unless the table is over its bound. */
  lemma NextCancelled(g: Fabric, k: nat)
    requires Good(g) && k in g.sessions && Active(g.sessions[k]) && NamesFabric(FIRST, g) && (forall d :: d in g.deadlines ==> d > 0)
    ensures var t := Settle(CancelOutstanding(g.sessions[k]), Model.Cancelled);
            && Step(g, CancelCmd(k, FIRST), 0) == (Store(g, k, t), Done)
            && (|g.sessions| <= g.retentionBound ==>
                  Store(g, k, t) == g.(sessions := g.sessions[k := t], terminalOrder := g.terminalOrder + [k]))
  {
    hide Good, Expire, FabricFence, Settle, Evict;
    Idle(g);
    FabricFenceExactly(g, FIRST);
    var t := Settle(CancelOutstanding(g.sessions[k]), Model.Cancelled);
    CancelledEnds(g.sessions[k]);
    assert g.sessions[k := t].Keys == g.sessions.Keys;
    SameSize(g.sessions, g.sessions[k := t]);
  }

  lemma CancelledEnds(s: Session)
    ensures var t := Settle(CancelOutstanding(s), Model.Cancelled); !Active(t) && t.request == s.request
  {
  }

  lemma NewStanding(k: nat)
    ensures var s := NewSession(Nth(k), TrainingBulk, 1, SECOND, SECOND); Active(s) && s.request.checkpoint == k && s.request == Nth(k)
  {
  }

  lemma OneMore(f: Fabric, k: nat) returns (g: Fabric)
    requires Reachable(f) && Good(f) && Piled(f, k) && k < 64
    ensures Reachable(g) && Good(g) && Piled(g, k + 1)
  {
    hide Reachable, Good, Disciplined, Step, NewSession, Settle, Nth;
    var h := NextOpens(f, k);
    NewStanding(k + 1);
    assert |h.sessions| == k + 1;
    NextCancelled(h, k + 1);
    CancelledEnds(h.sessions[k + 1]);
    CancelFree(h, k + 1);
    ReachStep(h, CancelCmd(k + 1, FIRST));
    g := Step(h, CancelCmd(k + 1, FIRST), 0).0;
    SameSize(h.sessions, g.sessions);
  }

  lemma CancelFree(f: Fabric, id: SessionId)
    requires Good(f)
    ensures Disciplined(f, CancelCmd(id, FIRST), 0)
  {
    hide Good, Expire;
  }

  lemma {:induction false} Piles(k: nat) returns (f: Fabric)
    requires k <= 64
    ensures Reachable(f) && Good(f) && Piled(f, k)
    decreases k
  {
    hide Reachable, Initial, Good, ClassCredit, WorkloadCredit;
    if k == 0 {
      f := Start();
      Starts();
      ReachInitial(f);
    } else {
      f := Piles(k - 1);
      f := OneMore(f, k - 1);
    }
  }

  /** Sixty-five checkpoints, admitted and cancelled one after the other: the last cancellation evicts, and from then on
  the totals of an exported snapshot disagree with the table that is restored from it. */
  lemma RestoredBooksDisagree() returns (f: Fabric, c: Command)
    ensures Reachable(f) && Good(f) && f.retentionBound == 64 && c.CancelCmd?
    ensures var o := Step(f, c, 0);
            && o.1.Done? && Good(o.0) && o.0.pruned != NOTHING
            && RestoredAccounting(Books(o.0.sessions, o.0.pruned), o.0.sessions) != Books(RestoredTable(o.0.sessions), NOTHING)
  {
    hide Reachable, Good, Step, NewSession, Settle, Nth, Disciplined, RestoredTable, RestoredAccounting, Books, SessionOk, Store;
    var e := Piles(64);
    f := NextOpens(e, 64);
    c := CancelCmd(65, FIRST);
    NewStanding(65);
    NextCancelled(f, 65);
    CancelFree(f, 65);
    ReachStep(f, c);
    SessionSound(f, 65);
    CancelledOk(f.sessions[65]);
    CancelledEnds(f.sessions[65]);
    FirstEviction(f, 65, Settle(CancelOutstanding(f.sessions[65]), Model.Cancelled));
  }

  // --------------------------------------------------------------- advertised waits

  /** Two shards of ten bytes in the slow class, whose burst holds one of them. */
  function Slowly(): Request { Ask(2).(isolation := TrainingCritical, requestedRate := 5, horizon := 4 * SECOND) }

  function Crawling(): Session { NewSession(Slowly(), TrainingCritical, 1, 5, 4 * SECOND) }

  lemma SlowRate()
    ensures CeilRate(20, 4 * SECOND) == 5
  {
    assert 20 / (4 * SECOND) == 0 && 20 % (4 * SECOND) == 20;
    WordSmall(20 * SECOND);
    WordSmall(20 * SECOND + (4 * SECOND - 1));
  }

  lemma SlowProper()
    ensures Proper(Slowly(), 5) && Horizon(Slowly(), Agreed(1, SECOND)) == 4 * SECOND
  {
    hide ManifestValid, CeilRate, Table;
    AskValid(2);
    Unrouted(2);
    SlowRate();
  }

  lemma SlowBucket()
    ensures Configured(5, 2 * SECOND, 0) == Bucket(5, 10, 10, 0)
  {
    WordSmall(10 * SECOND);
  }

  /** The slow session with so much class credit left. */
  predicate Slow(f: Fabric, s: Session, tokens: nat) {
    && f.epoch == BASE && f.policy == Rules(1) && f.topology == PATHS && f.contracts == map[1 := Agreed(1, SECOND)]
    && f.sessions == map[1 := s] && (forall d :: d in f.deadlines ==> d == 4 * SECOND)
    && TrainingCritical in f.credit.classes && f.credit.classes[TrainingCritical] == Bucket(5, 10, tokens, 0)
    && 1 in f.credit.workloads && f.credit.workloads[1].tokens >= tokens
  }

  predicate SlowReady(s: Session, p: nat) {
    && s.request.workload == 1 && s.envelope.isolation.TrainingCritical? && s.envelope.deadline == 4 * SECOND && s.activeAttempts < 4
    && (s.state.Admitted? || s.state.Transferring?) && !s.paused
    && p < |s.shards| && Position(s.shards, s.shards[p].index) == p && PreviousSettled(s, p)
    && !IsSettled(s.shards[p]) && !s.shards[p].state.ShardAmbiguous? && Remaining(s.shards[p]) == 10
  }

  lemma SlowIdle(f: Fabric, s: Session, tokens: nat, at: Nanos)
    requires Slow(f, s, tokens) && at < 4 * SECOND
    ensures Expire(f, at) == f
  {
  }

  lemma SlowGate(f: Fabric, s: Session, tokens: nat, p: nat, at: Nanos)
    requires Slow(f, s, tokens) && SlowReady(s, p) && at < 4 * SECOND
    ensures WaveGate(f, 1, s.shards[p].index, FIRST, at).None?
  {
    hide Total, PreviousSettled, Position, FabricFence;
    FabricFenceExactly(f, FIRST);
    TotalOne(f.sessions, s, AttemptsOf);
    assert Gate(f, 1, FIRST).None?;
  }

  lemma SlowGrant(f: Fabric, s: Session, p: nat, attempt: AttemptId)
    requires CreditOk(f.credit) && Slow(f, s, 10) && SlowReady(s, p)
    ensures Wave(f, 1, p, attempt, 0).1.WaveGranted? && Slow(Wave(f, 1, p, attempt, 0).0, Grant(s, p, attempt, 10, 1), 0)
  {
    hide Grant;
    assert map[1 := s][1 := Grant(s, p, attempt, 10, 1)] == map[1 := Grant(s, p, attempt, 10, 1)];
  }

  /** With the burst used up, credit for half a shard accrues in the longest interval that a refill counts. */
  lemma SlowDeferred(f: Fabric, s: Session, p: nat, attempt: AttemptId, at: Nanos)
    requires CreditOk(f.credit) && Slow(f, s, 0) && SlowReady(s, p) && at >= 0
    ensures Wave(f, 1, p, attempt, at).1 == WaveDeferred(ClassCeilingSaturated)
    ensures at == 0 ==> Wave(f, 1, p, attempt, at).0 == f
  {
    RefillIsFloor(5, at);
    assert f.credit.classes[TrainingCritical := f.credit.classes[TrainingCritical]] == f.credit.classes;
  }

  lemma CrawlingReady()
    ensures SlowReady(Crawling(), 0) && Crawling().shards[0].index == 0
    ensures var t := Grant(Crawling(), 0, 7, 10, 1); SlowReady(t, 1) && t.shards[1].index == 1
  {
    var s := Crawling();
    assert s.shards == [NewShard(ShardDescriptor(0, 10, NO_DIGEST, 0)), NewShard(ShardDescriptor(1, 10, NO_DIGEST, 0))];
    var t := Grant(s, 0, 7, 10, 1);
    assert t.shards[1..] == [NewShard(ShardDescriptor(1, 10, NO_DIGEST, 0))];
  }

  lemma SlowStart()
    ensures var c := Start().credit;
            && TrainingCritical in c.classes && c.classes[TrainingCritical] == Bucket(5, 10, 10, 0)
            && 1 in c.workloads && c.workloads[1].tokens >= 1000
  {
    hide Configured;
    RulesValid(1);
    SlowBucket();
    FullBucket(SECOND, WORKLOAD_WINDOW);
  }

  lemma Crawls() returns (f: Fabric)
    ensures Reachable(f) && Good(f) && Slow(f, Crawling(), 10)
  {
    hide Reachable, Initial, Good, Proper, Step, NewSession, Disciplined, Horizon;
    var g := Start();
    Starts();
    ReachInitial(g);
    SlowProper();
    SlowStart();
    var c := SubmitCmd(Slowly(), FIRST, 0, 1);
    Admits(g, Slowly(), 5, 1);
    ReachStep(g, c);
    f := Step(g, c, 0).0;
    var none: map<SessionId, Session> := map[];
    assert none[1 := Crawling()] == map[1 := Crawling()];
  }

  lemma CrawledOnce() returns (f: Fabric)
    ensures Reachable(f) && Good(f) && Slow(f, Grant(Crawling(), 0, 7, 10, 1), 0)
  {
    hide Reachable, Good, Disciplined, Expire, WaveGate, Wave, Grant, Crawling;
    var e := Crawls();
    var c := WaveCmd(1, 0, FIRST, 7);
    CrawlingReady();
    ProvisionedCredit(e);
    SlowIdle(e, Crawling(), 10, 0);
    SlowGate(e, Crawling(), 10, 0, 0);
    SlowGrant(e, Crawling(), 0, 7);
    CrawlingDisciplined(e, c);
    ReachStep(e, c);
    f := Step(e, c, 0).0;
  }

  /** The first shard is granted, the second one deferred with a wait of two seconds; asking again exactly then is
  deferred once more, as a refill counts one second only. */
  lemma WaitFallsShort() returns (f: Fabric, c: Command, wait: nat)
    ensures Reachable(f) && Good(f) && c.WaveCmd? && TrainingCritical in f.credit.classes && BucketOk(f.credit.classes[TrainingCritical])
    ensures Step(f, c, 0) == (f, WaveDeferred(ClassCeilingSaturated))
    ensures wait == TimeUntil(f.credit.classes[TrainingCritical], 10) && Step(f, c, wait).1 == WaveDeferred(ClassCeilingSaturated)
  {
    hide Reachable, Good, Expire, RequestWave, Grant, Crawling, SlowReady;
    f := CrawledOnce();
    c := WaveCmd(1, 1, FIRST, 8);
    wait := TimeUntil(f.credit.classes[TrainingCritical], 10);
    TwoSeconds(wait);
    CrawlingReady();
    ProvisionedCredit(f);
    SlowRefused(f, Grant(Crawling(), 0, 7, 10, 1), 1, 8, 0);
    SlowRefused(f, Grant(Crawling(), 0, 7, 10, 1), 1, 8, wait);
  }

  lemma SlowRefused(f: Fabric, s: Session, p: nat, attempt: AttemptId, at: Nanos)
    requires CreditOk(f.credit) && Slow(f, s, 0) && SlowReady(s, p) && 0 <= at < 4 * SECOND
    ensures var o := RequestWave(f, 1, s.shards[p].index, FIRST, attempt, at);
            o.1 == WaveDeferred(ClassCeilingSaturated) && (at == 0 ==> o.0 == f)
  {
    hide Expire, WaveGate, Wave;
    SlowIdle(f, s, 0, at);
    SlowGate(f, s, 0, p, at);
    SlowDeferred(f, s, p, attempt, at);
  }

  lemma TwoSeconds(wait: nat)
    requires wait == TimeUntil(Bucket(5, 10, 0, 0), 10)
    ensures wait == 2 * SECOND + 1
  {
    WordSmall(10 * SECOND);
  }

  lemma CrawlingDisciplined(f: Fabric, c: Command)
    requires Good(f) && Slow(f, Crawling(), 10) && c == WaveCmd(1, 0, FIRST, 7)
    ensures Disciplined(f, c, 0)
  {
    hide Good, WaveGate, Expire;
    SlowIdle(f, Crawling(), 10, 0);
    assert Crawling().attempts == [] && Sessions.Dropped(Crawling().attempts, 0) == [];
  }
}
