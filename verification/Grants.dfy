/** When a grant is made, what it is, and that a shard of unknown fate gets none. */
module Grants {
  import opened Sums
  import opened Model
  import opened Sessions
  import opened Shaper
  import opened Rates
  import opened Spec
  import opened Invariants
  import opened Commands
  import opened Runs
  import opened Theorems
  import opened Departures
  import opened Steps

  // ------------------------------------------------------------ entitlement

  /** The fence names the epoch, the policy, the topology and the session's contract as they are in force. */
  predicate Authorised(f: Fabric, s: Session, fence: Fence) {
    && fence.epoch == f.epoch && fence.policy == f.policy.generation && fence.topology == f.topology.generation
    && s.request.workload in f.contracts && fence.contract == f.contracts[s.request.workload].generation
  }

  /** A command on a session is let through exactly under a fence that names the authority in force; otherwise the
  answer names the first dimension that differs, the contract last. */
  lemma GateExact(f: Fabric, id: SessionId, fence: Fence)
    ensures Gate(f, id, fence).None? <==> id in f.sessions && Authorised(f, f.sessions[id], fence)
    ensures id !in f.sessions ==> Gate(f, id, fence) == Some(NotFound)
    ensures id in f.sessions ==>
              var w, refusal := f.sessions[id].request.workload,
                                CheckFence(fence, Authority(f.epoch, f.policy.generation, f.topology.generation, fence.contract));
              Gate(f, id, fence) == if refusal.Some? then refusal
                                    else if w !in f.contracts || fence.contract < f.contracts[w].generation then Some(StaleContractGeneration)
                                    else if f.contracts[w].generation < fence.contract then Some(NotAuthorized)
                                    else None
  {
    FenceAcceptsExactly(fence, AuthorityOf(f, fence.contract));
  }

  /** The session runs: it is neither over, held, paused nor past its deadline. */
  predicate Running(s: Session, at: Nanos) {
    && !s.state.TrafficSessionComplete? && !s.state.Cancelled? && !s.state.Superseded? && !s.state.Failed?
    && !s.state.RevalidationRequired? && !s.state.Deferred? && !s.state.Paused? && !s.paused
    && at < s.envelope.deadline
  }

  /** Bytes of the shard are missing, none of them is of unknown fate, and no grant on it is still out. */
  predicate Sendable(s: Session, p: nat, fence: Fence)
    requires p < |s.shards|
  {
    var h := s.shards[p];
    && !h.state.ShardTransferred? && !h.state.ShardVerified? && !h.state.ShardAmbiguous?
    && h.transferred < h.declared
    && (fence.attemptSequence.Some? && h.attempt.Some? ==> fence.attemptSequence.value == h.sequence)
    && (forall a :: 0 <= a < |s.attempts| && h.attempt == Some(s.attempts[a].id) ==> !s.attempts[a].outstanding)
  }

  /** A grant on the p-th shard is due, credit permitting. */
  ghost predicate Entitled(f: Fabric, id: SessionId, p: nat, shard: nat, fence: Fence, at: Nanos) {
    && id in f.sessions
    && var s := f.sessions[id];
       && Authorised(f, s, fence)
       && (fence.checkpoint.Some? ==> fence.checkpoint.value == s.request.checkpointGeneration)
       && Running(s, at)
       && Total(f.sessions, AttemptsOf) < f.policy.maxAttempts
       && p < |s.shards| && s.shards[p].index == shard && Sendable(s, p, fence)
  }

  lemma SendableExact(s: Session, p: nat)
    requires DistinctIds(s.attempts) && p < |s.shards|
    ensures PreviousSettled(s, p) <==>
            forall a :: 0 <= a < |s.attempts| && s.shards[p].attempt == Some(s.attempts[a].id) ==> !s.attempts[a].outstanding
  {
  }

  /** The checks let a request through exactly when a grant is due. */
  lemma WaveGateExact(f: Fabric, id: SessionId, shard: nat, fence: Fence, at: Nanos)
    requires id in f.sessions ==> CoreOk(f.sessions[id])
    ensures WaveGate(f, id, shard, fence, at).None? <==> exists p :: Entitled(f, id, p, shard, fence, at)
    ensures forall p :: Entitled(f, id, p, shard, fence, at) ==> p == Position(f.sessions[id].shards, shard)
  {
    hide Gate, Authorised, PreviousSettled, Total, ShardsSound, RunningLedger, SourceTrue, AttemptsSound;
    GateExact(f, id, fence);
    if id in f.sessions {
      var s := f.sessions[id];
      var p := Position(s.shards, shard);
      forall q | 0 <= q < |s.shards| && s.shards[q].index == shard ensures p == q { PositionOf(s, q); }
      if p < |s.shards| {
        assert DistinctIds(s.attempts) by { SoundIds(s); }
        SendableExact(s, p);
        if WaveGate(f, id, shard, fence, at).None? { assert Entitled(f, id, p, shard, fence, at); }
      }
    }
  }

  lemma SoundIds(s: Session)
    requires CoreOk(s)
    ensures DistinctIds(s.attempts)
  {
    hide Shaped, ShardsSound, RunningLedger;
  }

  // ------------------------------------------------------------ credit

  /** The class bucket covers the grant or the least chunk, whichever is smaller, and the workload bucket the grant. */
  predicate Funded(c: Credit, k: IsolationClass, w: WorkloadId, missing: nat, at: Nanos)
    requires CreditOk(c)
  {
    && k in c.classes && w in c.workloads
    && (missing <= Refilled(c.classes[k], at).tokens || 16384 <= Refilled(c.classes[k], at).tokens)
    && GrantSize(c, k, missing, at) <= Refilled(c.workloads[w], at).tokens
  }

  /** The missing bytes, but at most one mebibyte and at most what the class holds. */
  function GrantSize(c: Credit, k: IsolationClass, missing: nat, at: Nanos): (bytes: nat)
    requires CreditOk(c) && k in c.classes
    ensures bytes <= missing && bytes <= 1048576 && bytes <= Refilled(c.classes[k], at).tokens
    ensures bytes == missing || bytes == 1048576 || bytes == Refilled(c.classes[k], at).tokens
  {
    Min(Min(missing, 1048576), Refilled(c.classes[k], at).tokens)
  }

  lemma ConsumeExact(c: Credit, k: IsolationClass, w: WorkloadId, bytes: nat, at: Nanos)
    requires CreditOk(c) && k in c.classes
    ensures var seen := ObserveClass(c, k, at);
            && k in seen.classes && ClassTokens(seen, k) == Refilled(c.classes[k], at).tokens
            && (Consume(seen, k, w, bytes, at).1.Granted? <==>
                  w in c.workloads && bytes <= Refilled(c.classes[k], at).tokens && bytes <= Refilled(c.workloads[w], at).tokens)
  {
    hide Refilled, BucketOk;
    RefilledTwice(c.classes[k], at);
  }

  lemma WaveFunded(h: Fabric, id: SessionId, p: nat, attempt: AttemptId, at: Nanos)
    requires CreditOk(h.credit) && id in h.sessions && p < |h.sessions[id].shards|
    requires h.sessions[id].shards[p].transferred < h.sessions[id].shards[p].declared
    ensures var s := h.sessions[id];
            var k, missing := s.envelope.isolation, s.shards[p].declared - s.shards[p].transferred;
            var o := Wave(h, id, p, attempt, at);
            && (o.1.WaveGranted? <==> Funded(h.credit, k, s.request.workload, missing, at))
            && (if o.1.WaveGranted?
                then && o.1 == WaveGranted(attempt, GrantSize(h.credit, k, missing, at))
                     && o.0.sessions == h.sessions[id := Grant(s, p, attempt, o.1.bytes, TimelineBound(h.policy))]
                else o.0.sessions == h.sessions && o.1.WaveDeferred?)
  {
    hide Refilled, ObserveClass, Consume, Grant, TimelineBound;
    var s := h.sessions[id];
    var k, missing := s.envelope.isolation, s.shards[p].declared - s.shards[p].transferred;
    assert Remaining(s.shards[p]) == missing;
    if k in h.credit.classes {
      ConsumeExact(h.credit, k, s.request.workload, GrantSize(h.credit, k, missing, at), at);
    } else {
      NoClass(h.credit, k, s.request.workload, at);
    }
  }

  lemma NoClass(c: Credit, k: IsolationClass, w: WorkloadId, at: Nanos)
    requires CreditOk(c) && k !in c.classes
    ensures ClassTokens(ObserveClass(c, k, at), k) == 0
    ensures Consume(ObserveClass(c, k, at), k, w, 0, at).1.NotGranted?
  {
  }

  // ------------------------------------------------------------ the grant

  /** The grant is on record: the shard's next attempt, in flight, and nothing else has moved. */
  predicate OnRecord(s: Session, p: nat, attempt: AttemptId, bytes: nat, t: Session)
    requires p < |s.shards|
  {
    && t.attemptCounter == s.attemptCounter + 1 && t.activeAttempts == s.activeAttempts + 1
    && t.attempts != []
    && t.attempts[|t.attempts| - 1] == Attempt(attempt, s.attemptCounter + 1, s.shards[p].index, OutcomeInFlight, bytes, 0, true)
    && t.shards == s.shards[p := s.shards[p].(state := ShardInFlight, sequence := s.attemptCounter + 1,
                                              attempt := Some(attempt), granted := bytes)]
    && t.ledger == s.ledger && t.request == s.request && t.envelope == s.envelope && t.envelopeSequence == s.envelopeSequence
    && t.evidence == s.evidence && t.reserved == s.reserved && t.paused == s.paused
    && t.state == (if s.state.Admitted? || s.state.SourceComplete? then Transferring else s.state)
  }

  lemma GrantOnRecord(s: Session, p: nat, attempt: AttemptId, bytes: nat, bound: nat)
    requires p < |s.shards| && bound > 0
    ensures OnRecord(s, p, attempt, bytes, Grant(s, p, attempt, bytes, bound))
  {
  }

  lemma EntitledWave(h: Fabric, id: SessionId, shard: nat, fence: Fence, attempt: AttemptId, at: Nanos, p: nat)
    requires CreditOk(h.credit) && Entitled(h, id, p, shard, fence, at)
    ensures var s := h.sessions[id];
            var k, missing := s.envelope.isolation, s.shards[p].declared - s.shards[p].transferred;
            var o := Wave(h, id, p, attempt, at);
            && (o.1.WaveGranted? <==> Funded(h.credit, k, s.request.workload, missing, at))
            && (if o.1.WaveGranted?
                then && o.1 == WaveGranted(attempt, GrantSize(h.credit, k, missing, at))
                     && id in o.0.sessions && OnRecord(s, p, attempt, o.1.bytes, o.0.sessions[id])
                     && o.0.sessions == h.sessions[id := o.0.sessions[id]]
                else o.0.sessions == h.sessions && o.1.WaveDeferred?)
  {
    hide Wave, Funded, OnRecord, Authorised, Running, Grant, TimelineBound, Total;
    WaveFunded(h, id, p, attempt, at);
    assert TimelineBound(h.policy) > 0 by { BoundPositive(h.policy); }
    var o := Wave(h, id, p, attempt, at);
    if o.1.WaveGranted? { GrantOnRecord(h.sessions[id], p, attempt, o.1.bytes, TimelineBound(h.policy)); }
  }

  lemma BoundPositive(p: Policy)
    ensures TimelineBound(p) > 0
  {
  }

  /** Exactly when a wave request is granted, and what the grant is: the fence names the authority in force,
  the session runs, the shard is unsettled, not ambiguous and without a live attempt, and both buckets cover
  it. A request that is not granted moves no session. */
  lemma GrantedExactly(f: Fabric, id: SessionId, shard: nat, fence: Fence, attempt: AttemptId, at: Nanos, p: nat)
    requires Good(f)
    ensures var h, o := Expire(f, at), Step(f, WaveCmd(id, shard, fence, attempt), at);
            && ((forall q :: !Entitled(h, id, q, shard, fence, at)) ==> o.0 == h && !o.1.WaveGranted?)
            && (Entitled(h, id, p, shard, fence, at) ==>
                  var s := h.sessions[id];
                  var k, missing := s.envelope.isolation, s.shards[p].declared - s.shards[p].transferred;
                  CreditOk(h.credit) &&
                  if Funded(h.credit, k, s.request.workload, missing, at)
                  then && o.1 == WaveGranted(attempt, GrantSize(h.credit, k, missing, at))
                       && id in o.0.sessions && OnRecord(s, p, attempt, o.1.bytes, o.0.sessions[id])
                       && o.0.sessions == h.sessions[id := o.0.sessions[id]]
                  else o.0.sessions == h.sessions && o.1.WaveDeferred?)
  {
    hide Good, Expire, Aged, WaveGate, Wave, Entitled, Funded, OnRecord, CoreOk, SessionOk, Position;
    ProvisionedCredit(f);
    ExpireIsScan(f, at);
    var h := Expire(f, at);
    if id in h.sessions { SessionSound(h, id); }
    WaveGateExact(h, id, shard, fence, at);
    WaveRefusals(h, id, shard, fence, at);
    if Entitled(h, id, p, shard, fence, at) {
      EntitledShard(h, id, p, shard, fence, at);
      EntitledWave(h, id, shard, fence, attempt, at, p);
    }
  }

  lemma EntitledShard(h: Fabric, id: SessionId, p: nat, shard: nat, fence: Fence, at: Nanos)
    requires Entitled(h, id, p, shard, fence, at)
    ensures p < |h.sessions[id].shards| && h.sessions[id].shards[p].transferred < h.sessions[id].shards[p].declared
  {
  }

  // ------------------------------------------------------------ ambiguity

  /** A shard of unknown fate is granted nothing, and asking for it moves nothing. */
  lemma AmbiguousShardRefused(f: Fabric, id: SessionId, shard: nat, fence: Fence, attempt: AttemptId, at: Nanos, p: nat)
    requires Good(f) && id in Expire(f, at).sessions
    requires var s := Expire(f, at).sessions[id];
             p < |s.shards| && s.shards[p].index == shard && s.shards[p].state.ShardAmbiguous?
    ensures var h, o := Expire(f, at), Step(f, WaveCmd(id, shard, fence, attempt), at);
            && o.0 == h && !o.1.WaveGranted?
            && ((&& Authorised(h, h.sessions[id], fence) && Running(h.sessions[id], at)
                 && (fence.checkpoint.Some? ==> fence.checkpoint.value == h.sessions[id].request.checkpointGeneration)
                 && Total(h.sessions, AttemptsOf) < h.policy.maxAttempts) ==> o.1 == Refused(AmbiguousOutcomeError))
  {
    hide Good, Expire, Aged, CoreOk, SessionOk, Position, WaveGate, Wave, Entitled, Funded, OnRecord, Authorised, Running, Total;
    ExpireIsScan(f, at);
    var h := Expire(f, at);
    SessionSound(h, id);
    AmbiguousGate(h, id, shard, fence, at, p);
    WaveRefusals(h, id, shard, fence, at);
    ProvisionedCredit(f);
  }

  lemma AmbiguousGate(h: Fabric, id: SessionId, shard: nat, fence: Fence, at: Nanos, p: nat)
    requires id in h.sessions && CoreOk(h.sessions[id])
    requires var s := h.sessions[id]; p < |s.shards| && s.shards[p].index == shard && s.shards[p].state.ShardAmbiguous?
    ensures WaveGate(h, id, shard, fence, at).Some?
    ensures (&& Authorised(h, h.sessions[id], fence) && Running(h.sessions[id], at)
             && (fence.checkpoint.Some? ==> fence.checkpoint.value == h.sessions[id].request.checkpointGeneration)
             && Total(h.sessions, AttemptsOf) < h.policy.maxAttempts) ==>
              WaveGate(h, id, shard, fence, at) == Some(Refused(AmbiguousOutcomeError))
  {
    hide Gate, Authorised, PreviousSettled, Total, CoreOk;
    GateExact(h, id, fence);
    OnlyPosition(h.sessions[id], p);
  }

  lemma OnlyPosition(s: Session, p: nat)
    requires CoreOk(s) && p < |s.shards|
    ensures Position(s.shards, s.shards[p].index) == p
  {
    hide ShardsSound, AttemptsSound, RunningLedger;
    PositionOf(s, p);
  }

  /** Nothing can be granted on the shard: the session is over, or the shard is settled or of unknown fate. */
  predicate Closed(s: Session, p: nat)
    requires p < |s.shards|
  {
    IsTerminal(s.state) || s.shards[p].state.ShardAmbiguous? || s.shards[p].state.ShardTransferred? || s.shards[p].state.ShardVerified?
  }

  /** The sink reported that the shard arrived truncated, and was heard. */
  predicate Rearms(c: Command, o: Outcome, id: SessionId, shard: nat) {
    c.VerifyCmd? && c.id == id && c.shard == shard && c.outcome.Truncated? && o.Done?
  }

  predicate GrantsOn(c: Command, o: Outcome, id: SessionId, shard: nat) {
    c.WaveCmd? && c.id == id && c.shard == shard && o.WaveGranted?
  }

  lemma SettledCloses(s: Session, state: SessionState)
    requires IsTerminal(state)
    ensures IsTerminal(Settle(s, state).state) && Settle(s, state).shards == s.shards
  {
  }

  lemma ProgressCloses(s: Session, required: bool)
    requires Active(s)
    ensures Progress(s, required).shards == s.shards
  {
  }

  /** The shard is the same one, and still closed. */
  predicate StaysClosed(s: Session, t: Session, p: nat)
    requires p < |s.shards|
  {
    p < |t.shards| && t.shards[p].index == s.shards[p].index && Closed(t, p)
  }

  lemma TransferClosed(s: Session, c: Command, required: bool, t: Session, p: nat)
    requires c.TransferCmd? && Transfers(s, c, required, t) && p < |s.shards| && Closed(s, p)
    ensures StaysClosed(s, t, p)
  {
    hide Progress, Position, AttemptPosition;
    var q, a := Position(s.shards, c.shard), AttemptPosition(s.attempts, c.attempt);
    var seen := Observe(s, a, c.bytes);
    ProgressCloses(Unacknowledged(seen, a), required);
    if c.bytes - s.attempts[a].delivered <= s.ledger.outstanding {
      ProgressCloses(Acknowledge(seen, q, a, c.bytes - s.attempts[a].delivered), required);
    }
  }

  lemma VerdictClosed(s: Session, c: Command, o: Outcome, required: bool, t: Session, p: nat)
    requires c.VerifyCmd? && Judges(s, c, o, required, t) && p < |s.shards| && Closed(s, p)
    requires c.outcome.Truncated? ==> p != Position(s.shards, c.shard)
    ensures StaysClosed(s, t, p)
  {
    hide Progress, Position, AttemptPosition, Settle, NamesContent;
    var q, a := Position(s.shards, c.shard), AttemptPosition(s.attempts, c.attempt);
    SettledCloses(Reject(s, q, a), Failed);
    ProgressCloses(Verify(s, q, a), required);
    ProgressCloses(Truncate(s, q, a), required);
    ProgressCloses(Doubt(s, q, a), required);
  }

  lemma DisownClosed(s: Session, a: nat, required: bool, p: nat)
    requires Active(s) && a < |s.attempts| && p < |s.shards| && Closed(s, p)
    ensures StaysClosed(s, Progress(Disown(s, a), required), p)
  {
    hide Progress, Position;
    ProgressCloses(Disown(s, a), required);
  }

  lemma SourceClosed(s: Session, q: nat, bytes: nat, required: bool, p: nat)
    requires Active(s) && q < |s.shards| && p < |s.shards| && Closed(s, p)
    ensures StaysClosed(s, Progress(NoteSource(s, q, bytes), required), p)
  {
    hide Progress, Position;
    ProgressCloses(NoteSource(s, q, bytes), required);
  }

  lemma EndedClosed(s: Session, newer: SessionId, p: nat)
    requires p < |s.shards|
    ensures StaysClosed(s, SupersededSession(s, newer), p) && StaysClosed(s, Settle(s, Failed), p)
    ensures StaysClosed(s, Expired(s), p) && StaysClosed(s, Settle(CancelOutstanding(s), Model.Cancelled), p)
  {
    hide ReleaseAll;
  }

  lemma RestartClosed(s: Session, p: nat)
    requires p < |s.shards| && Closed(s, p)
    ensures StaysClosed(s, Restarted(s), p) && StaysClosed(s, Demand(s), p)
  {
    hide SeqTotal, RestartAttempts;
  }

  /** Only an accepted truncation verdict on the shard opens it again. */
  lemma BecomesClosed(h: Fabric, c: Command, o: Outcome, id: SessionId, s: Session, t: Session, p: nat)
    requires CoreOk(s) && Active(s) && Becomes(h, c, o, id, s, t)
    requires p < |s.shards| && Closed(s, p)
    requires !Rearms(c, o, id, s.shards[p].index) && !GrantsOn(c, o, id, s.shards[p].index)
    ensures StaysClosed(s, t, p)
  {
    hide CoreOk, Progress, Settle, Position, AttemptPosition, TimelineBound, Transfers, Judges, NoteSource, Disown,
      SupersededSession, Expired, CancelOutstanding, Restarted, Demand;
    OnlyPosition(s, p);
    match c
    case SubmitCmd(_, _, _, newer) => EndedClosed(s, newer, p);
    case RevalidateCmd(_, _) => EndedClosed(s, 0, p);
    case CancelCmd(_, _) => EndedClosed(s, 0, p);
    case TransferCmd(_, _, _, _, _, _, _) => if t != s { TransferClosed(s, c, h.policy.requireVerification, t, p); }
    case VerifyCmd(_, _, _, _, _, _, _, _) =>
      if t != s {
        if c.outcome.Truncated? { TruncationHeard(s, c, o, h.policy.requireVerification, t); }
        VerdictClosed(s, c, o, h.policy.requireVerification, t, p);
      }
    case AmbiguousCmd(_, attempt, _, _) =>
      var a := AttemptPosition(s.attempts, attempt);
      if a < |s.attempts| { DisownClosed(s, a, h.policy.requireVerification, p); }
    case SourceCmd(_, shard, bytes, _) =>
      var q := Position(s.shards, shard);
      if q < |s.shards| { SourceClosed(s, q, bytes, h.policy.requireVerification, p); }
    case _ => RestartClosed(s, p);
  }

  lemma TruncationHeard(s: Session, c: Command, o: Outcome, required: bool, t: Session)
    requires c.VerifyCmd? && Judges(s, c, o, required, t) && c.outcome.Truncated?
    ensures o.Done? && Position(s.shards, c.shard) < |s.shards|
  {
    hide Progress;
  }

  // ------------------------------------------------------------------- runs

  /** No command from i on, and before j, reported the shard truncated and was heard. */
  ghost predicate NeverRearmed(states: seq<Fabric>, events: seq<Event>, i: nat, j: nat, id: SessionId, shard: nat)
    requires j <= |events| < |states|
  {
    forall k :: i <= k < j ==> !Rearms(events[k].command, Answer(states, events, k), id, shard)
  }

  lemma ClosedUngranted(states: seq<Fabric>, events: seq<Event>, start: Nanos, k: nat, id: SessionId, p: nat)
    requires Run(states, events, start) && k < |events| && id in states[k].sessions
    requires p < |states[k].sessions[id].shards| && Closed(states[k].sessions[id], p)
    ensures !GrantsOn(events[k].command, Answer(states, events, k), id, states[k].sessions[id].shards[p].index)
  {
    hide Good, Initial, Disciplined, Step, Expire, Expired, Authorised, Running, Sendable, Position, CoreOk, SessionOk, Funded, OnRecord;
    RunStaysGood(states, events, start, k);
    var c, at := events[k].command, events[k].at;
    if c.WaveCmd? && c.id == id && c.shard == states[k].sessions[id].shards[p].index {
      ExpireIsScan(states[k], at);
      var h := Expire(states[k], at);
      GrantedExactly(states[k], id, c.shard, c.fence, c.attempt, at, p);
      if id in h.sessions { ClosedUnentitled(states[k], h, id, p, c.shard, c.fence, at); }
    }
  }

  lemma ClosedUnentitled(f: Fabric, h: Fabric, id: SessionId, p: nat, shard: nat, fence: Fence, at: Nanos)
    requires Good(h) && id in f.sessions && id in h.sessions
    requires h.sessions[id] == f.sessions[id] || h.sessions[id] == Expired(f.sessions[id])
    requires p < |f.sessions[id].shards| && Closed(f.sessions[id], p) && f.sessions[id].shards[p].index == shard
    ensures forall q :: !Entitled(h, id, q, shard, fence, at)
  {
    hide Good, CoreOk, SessionOk, Authorised, Position, Expired;
    EndedClosed(f.sessions[id], 0, p);
    SessionSound(h, id);
    WaveGateExact(h, id, shard, fence, at);
    OnlyPosition(h.sessions[id], p);
  }

  lemma LinkClosed(states: seq<Fabric>, events: seq<Event>, start: Nanos, k: nat, id: SessionId, p: nat)
    requires Run(states, events, start) && k < |events| && id in states[k].sessions && id in states[k + 1].sessions
    requires p < |states[k].sessions[id].shards| && Closed(states[k].sessions[id], p)
    requires !Rearms(events[k].command, Answer(states, events, k), id, states[k].sessions[id].shards[p].index)
    ensures StaysClosed(states[k].sessions[id], states[k + 1].sessions[id], p)
  {
    hide Run, Good, Becomes, Expired, Observed, Answer, Rearms, GrantsOn, Advances, CoreOk, SessionOk;
    HereRun(states, events, start);
    var s, t, h := states[k].sessions[id], states[k + 1].sessions[id], Before(states, events, k);
    LinkAdvances(states, events, start, k, id);
    ClosedUngranted(states, events, start, k, id, p);
    LinkBecomes(states, events, start, k, id);
    EndedClosed(s, 0, p);
    if IsTerminal(s.state) {
      StaysTerminal(s, t);
    } else if t != Expired(s) {
      RunStaysGood(states, events, start, k);
      SessionSound(states[k], id);
      BecomesClosed(h, events[k].command, Answer(states, events, k), id, s, t, p);
    }
  }

  lemma StaysTerminal(s: Session, t: Session)
    requires Advances(s, t) && IsTerminal(s.state)
    ensures t == s
  {
  }

  /** From the moment a shard's fate is unknown, nothing is granted on it before a truncation verdict
  on that shard is heard, whatever else happens to the session. */
  lemma NoGrantWhileAmbiguous(states: seq<Fabric>, events: seq<Event>, start: Nanos, i: nat, j: nat, id: SessionId, p: nat)
    requires Run(states, events, start) && i <= j < |events| && Retained(states, i, j, id)
    requires p < |states[i].sessions[id].shards| && states[i].sessions[id].shards[p].state.ShardAmbiguous?
    requires NeverRearmed(states, events, i, j, id, states[i].sessions[id].shards[p].index)
    ensures var c := events[j].command;
            c.WaveCmd? && c.id == id && c.shard == states[i].sessions[id].shards[p].index ==> !Answer(states, events, j).WaveGranted?
  {
    hide Run, Answer;
    HereRun(states, events, start);
    StillClosed(states, events, start, i, j, id, p);
    ClosedUngranted(states, events, start, j, id, p);
  }

  lemma {:induction false} StillClosed(states: seq<Fabric>, events: seq<Event>, start: Nanos, i: nat, j: nat, id: SessionId, p: nat)
    requires Run(states, events, start) && i <= j < |states| && Retained(states, i, j, id)
    requires p < |states[i].sessions[id].shards| && Closed(states[i].sessions[id], p)
    requires j <= |events| < |states| && NeverRearmed(states, events, i, j, id, states[i].sessions[id].shards[p].index)
    ensures StaysClosed(states[i].sessions[id], states[j].sessions[id], p)
    decreases j - i
  {
    hide Run, Answer, Rearms, Closed;
    HereRun(states, events, start);
    if i < j {
      StillClosed(states, events, start, i, j - 1, id, p);
      LinkClosed(states, events, start, j - 1, id, p);
    }
  }
}
