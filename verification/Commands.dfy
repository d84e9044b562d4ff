/** Every command keeps the fabric's invariant, provided the peers keep the
discipline that the engine does not enforce itself. */
module Commands {
  import opened Sums
  import opened Model
  import opened Sessions
  import opened Shaper
  import opened Rates
  import opened Spec
  import opened Invariants

  datatype Command =
    | SubmitCmd(request: Request, fence: Fence, fingerprint: nat, id: SessionId)
    | RevalidateCmd(id: SessionId, fence: Fence)
    | PauseCmd(id: SessionId, fence: Fence)
    | ResumeCmd(id: SessionId, fence: Fence)
    | CancelCmd(id: SessionId, fence: Fence)
    | WaveCmd(id: SessionId, shard: nat, fence: Fence, attempt: AttemptId)
    | SourceCmd(id: SessionId, shard: nat, bytes: nat, fence: Fence)
    | TransferCmd(id: SessionId, shard: nat, attempt: AttemptId, sequence: nat, bytes: nat, acknowledged: bool, fence: Fence)
    | VerifyCmd(id: SessionId, shard: nat, attempt: AttemptId, sequence: nat, outcome: VerificationOutcome, bytes: nat,
                digest: ContentDigest, fence: Fence)
    | AmbiguousCmd(id: SessionId, attempt: AttemptId, sequence: nat, fence: Fence)
    | PolicyCmd(policy: Policy)
    | TopologyCmd(topology: Topology)
    | ContractCmd(contract: Contract)
    | EpochCmd(epoch: Epoch)
    | PollCmd
    | ShutdownCmd

  ghost function Step(f: Fabric, c: Command, at: Nanos): (o: (Fabric, Outcome))
    requires Good(f)
  {
    match c
    case SubmitCmd(r, fence, fingerprint, id) => Submit(f, r, fence, fingerprint, id, at)
    case RevalidateCmd(id, fence) => Revalidate(f, id, fence, at)
    case PauseCmd(id, fence) => Pause(f, id, fence, at)
    case ResumeCmd(id, fence) => Resume(f, id, fence, at)
    case CancelCmd(id, fence) => Cancel(f, id, fence, at)
    case WaveCmd(id, shard, fence, attempt) => RequestWave(f, id, shard, fence, attempt, at)
    case SourceCmd(id, shard, bytes, fence) => ReportSourceComplete(f, id, shard, bytes, fence, at)
    case TransferCmd(id, shard, attempt, sequence, bytes, acknowledged, fence) =>
      ReportTransfer(f, id, shard, attempt, sequence, bytes, acknowledged, fence, at)
    case VerifyCmd(id, shard, attempt, sequence, outcome, bytes, digest, fence) =>
      ReportVerification(f, id, shard, attempt, sequence, outcome, bytes, digest, fence, at)
    case AmbiguousCmd(id, attempt, sequence, fence) => ReportAmbiguous(f, id, attempt, sequence, fence, at)
    case PolicyCmd(p) => ApplyPolicy(f, p, at)
    case TopologyCmd(t) => ApplyTopology(f, t)
    case ContractCmd(contract) => UpsertContract(f, contract, at)
    case EpochCmd(e) => AdvanceEpoch(f, e)
    case PollCmd => (Expire(f, at), Done)
    case ShutdownCmd => BeginShutdown(f)
  }

  // ------------------------------------------------------------- discipline

  /** The identity is fresh, and the attempts that the history drops leave enough live ones on record. */
  predicate WaveDiscipline(f: Fabric, id: SessionId, attempt: AttemptId) {
    id in f.sessions ==>
      && FreshAttempt(f.sessions[id], attempt)
      && TrimSpares(f.sessions[id].attempts, f.sessions[id].activeAttempts, TimelineBound(f.policy) - 1)
  }

  /** The sink claims success only for a shard that arrived in full, reports a
  mismatch only once nothing is outstanding, and truncation only for a shard it
  has not verified. */
  predicate VerifyDiscipline(s: Session, shard: nat, outcome: VerificationOutcome, bytes: nat, digest: ContentDigest) {
    var p := Position(s.shards, shard);
    p < |s.shards| ==>
      var h := s.shards[p];
      if Mismatched(h, outcome, bytes, digest) then s.ledger.outstanding == 0
      else if outcome.Verified? then h.transferred == h.declared
      else if outcome.Truncated? then h.verified == 0
      else true
  }

  /** Verification is not switched on while a session that completed without it is retained. */
  predicate PolicyDiscipline(f: Fabric, p: Policy) {
    p.requireVerification ==>
      forall id :: id in f.sessions && f.sessions[id].state.TrafficSessionComplete? ==> AllVerified(f.sessions[id].shards)
  }

  /** A revalidation that passes every check before its rate is planned. */
  predicate Renewing(f: Fabric, id: SessionId, fence: Fence) {
    && id in f.sessions
    && var s := f.sessions[id];
       && CheckFence(fence, AuthorityOf(f, if s.request.workload in f.contracts then f.contracts[s.request.workload].generation else 0)).None?
       && CheckpointFence(s, fence).None? && (s.state.RevalidationRequired? || s.state.Deferred?) && !f.shuttingDown
  }

  /** What a session asked for is still within the ceilings in force: its workload is known and, unless its
  class or path is gone, neither the requested rate nor the one its deadline needs is above a ceiling. */
  predicate Renewable(f: Fabric, s: Session) {
    && s.request.workload in f.contracts
    && (s.envelope.isolation in f.policy.envelopes && PathOf(f.topology, s.envelope.path).Some? ==>
          var c, e := f.contracts[s.request.workload], f.policy.envelopes[s.envelope.isolation];
          && s.request.requestedRate <= e.ceiling && s.request.requestedRate <= c.ceiling
          && CeilRate(s.request.manifest.total, Horizon(s.request, c)) <= e.ceiling)
  }

  /** A success verdict is heard only for an acknowledged attempt. */
  predicate Heard(s: Session, a: nat, outcome: VerificationOutcome)
    requires a < |s.attempts|
  {
    outcome.Verified? ==> IsAcked(s.attempts[a])
  }

  /** What the engine leaves to its peers, demanded only of commands that pass its own checks. */
  ghost predicate Disciplined(f: Fabric, c: Command, at: Nanos)
    requires Good(f)
  {
    var g := Expire(f, at);
    match c
    case SubmitCmd(_, _, _, id) => id !in f.sessions
    case RevalidateCmd(id, fence) => Renewing(g, id, fence) ==> Renewable(g, g.sessions[id])
    case ResumeCmd(id, fence) => Gate(g, id, fence).None? && g.sessions[id].paused ==> Active(g.sessions[id])
    case WaveCmd(id, shard, fence, attempt) => WaveGate(g, id, shard, fence, at).None? ==> WaveDiscipline(g, id, attempt)
    case VerifyCmd(id, shard, attempt, sequence, outcome, bytes, digest, fence) =>
      EvidenceGate(g, id, fence, shard, attempt, sequence).None? ==>
        var s := g.sessions[id];
        Heard(s, AttemptPosition(s.attempts, attempt), outcome) ==> VerifyDiscipline(s, shard, outcome, bytes, digest)
    case PolicyCmd(p) => f.policy.generation < p.generation && PolicyValid(p) ==> PolicyDiscipline(f, p)
    case _ => true
  }

  // ------------------------------------------------------- session evidence

  /** What evidence handling leaves alone before progress is recomputed. */
  predicate SameStanding(s: Session, t: Session) {
    && t.request == s.request && t.state == s.state && t.paused == s.paused && t.pausedFrom == s.pausedFrom
    && t.envelope == s.envelope && t.reserved == s.reserved
  }

  lemma SessionGood(f: Fabric, id: SessionId)
    requires Base(f) && id in f.sessions
    ensures SessionOk(f.sessions[id])
  {
    hide SessionOk;
  }

  lemma ProgressReplaces(f: Fabric, id: SessionId, t: Session)
    requires id in f.sessions && Active(f.sessions[id])
    requires CoreOk(t) && SameStanding(f.sessions[id], t)
    ensures var r := Progress(t, f.policy.requireVerification);
            && MayReplace(f, id, r)
            && (Active(r) ==> r.envelope.deadline == f.sessions[id].envelope.deadline
                              && (Suspended(f.sessions[id]) ==> Suspended(r)))
  {
    hide CoreOk, SessionOk, AllSettled, AllVerified, SomeUnresolved;
    ProgressOk(t, f.policy.requireVerification);
  }

  lemma EvidenceGood(f: Fabric, id: SessionId, t: Session)
    requires Good(f) && id in f.sessions && Active(f.sessions[id])
    requires CoreOk(t) && SameStanding(f.sessions[id], t)
    ensures Good(Store(f, id, Progress(t, f.policy.requireVerification)))
  {
    hide Base, MayReplace, Store, CoreOk, Progress, SameStanding;
    ProgressReplaces(f, id, t);
    StoreGood(f, id, Progress(t, f.policy.requireVerification), [], 0);
  }

  lemma SourceGood(f: Fabric, id: SessionId, shard: nat, bytes: nat, fence: Fence, at: Nanos)
    requires Good(f)
    ensures Good(ReportSourceComplete(f, id, shard, bytes, fence, at).0)
  {
    hide Base, DeadlinesBut, Store, Progress, CoreOk, Gate, Expire;
    ExpireIsScan(f, at);
    var g := Expire(f, at);
    if id in g.sessions && Active(g.sessions[id]) && Position(g.sessions[id].shards, shard) < |g.sessions[id].shards| {
      var s := g.sessions[id];
      SessionGood(g, id);
      NoteSourceOk(s, Position(s.shards, shard), bytes);
      EvidenceGood(g, id, NoteSource(s, Position(s.shards, shard), bytes));
    }
  }

  lemma TransferGood(f: Fabric, id: SessionId, shard: nat, attempt: AttemptId, sequence: nat, arrived: nat,
                     acknowledged: bool, fence: Fence, at: Nanos)
    requires Good(f)
    ensures Good(ReportTransfer(f, id, shard, attempt, sequence, arrived, acknowledged, fence, at).0)
  {
    hide Base, DeadlinesBut, Store, Progress, CoreOk, EvidenceGate, Expire;
    ExpireIsScan(f, at);
    var g := Expire(f, at);
    if EvidenceGate(g, id, fence, shard, attempt, sequence).None? {
      var s := g.sessions[id];
      var p, a := Position(s.shards, shard), AttemptPosition(s.attempts, attempt);
      var delivered := s.attempts[a].delivered;
      SessionGood(g, id);
      if delivered <= arrived <= s.attempts[a].granted {
        ObserveOk(s, p, a, arrived);
        var seen := Observe(s, a, arrived);
        if !acknowledged {
          UnacknowledgedOk(seen, a);
          EvidenceGood(g, id, Unacknowledged(seen, a));
        } else if arrived - delivered <= s.ledger.outstanding {
          AcknowledgeOk(s, p, a, arrived);
          EvidenceGood(g, id, Acknowledge(seen, p, a, arrived - delivered));
        } else {
          KeepGood(g, id, seen);
        }
      }
    }
  }

  /** A sound record with the same standing may be stored as it is. */
  lemma KeepGood(f: Fabric, id: SessionId, t: Session)
    requires Good(f) && id in f.sessions && Active(f.sessions[id])
    requires CoreOk(t) && SameStanding(f.sessions[id], t) && t.evidence == f.sessions[id].evidence
    requires t.shards == f.sessions[id].shards
    ensures Good(f.(sessions := f.sessions[id := t]))
  {
    hide Base, Store, CoreOk, AllVerified;
    SessionGood(f, id);
    assert MayReplace(f, id, t);
    StoreGood(f, id, t, [], 0);
    StoreActive(f, id, t);
  }

  lemma StoreActive(f: Fabric, id: SessionId, t: Session)
    requires Active(t)
    ensures Store(f, id, t) == f.(sessions := f.sessions[id := t])
  {
  }

  /** A record that just ended may be stored. */
  lemma EndGood(f: Fabric, id: SessionId, t: Session)
    requires Good(f) && id in f.sessions && Active(f.sessions[id])
    requires SessionOk(t) && !Active(t) && !t.state.TrafficSessionComplete? && t.request == f.sessions[id].request
    ensures Good(Store(f, id, t))
  {
    hide Base, Store, SessionOk, AllVerified;
    assert MayReplace(f, id, t);
    StoreGood(f, id, t, [], 0);
  }

  lemma JudgedGood(g: Fabric, id: SessionId, p: nat, a: nat, outcome: VerificationOutcome, bytes: nat, digest: ContentDigest)
    requires Good(g) && id in g.sessions && Active(g.sessions[id]) && IsCurrent(g.sessions[id], p, a)
    requires Heard(g.sessions[id], a, outcome) ==> VerifyDiscipline(g.sessions[id], g.sessions[id].shards[p].index, outcome, bytes, digest)
    ensures Good(Judged(g, id, p, a, outcome, bytes, digest).0)
  {
    hide Base, DeadlinesBut, Store, Progress, CoreOk, Settle;
    var s := g.sessions[id];
    SessionGood(g, id);
    PositionSound(s, p);
    if outcome.Verified? && !IsAcked(s.attempts[a]) {
    } else if Mismatched(s.shards[p], outcome, bytes, digest) {
      RejectOk(s, p, a);
      SettledStanding(Reject(s, p, a), Failed);
      EndGood(g, id, Settle(Reject(s, p, a), Failed));
    } else if outcome.Verified? {
      VerifyOk(s, p, a);
      EvidenceGood(g, id, Verify(s, p, a));
    } else if outcome.Truncated? {
      TruncateOk(s, p, a);
      EvidenceGood(g, id, Truncate(s, p, a));
    } else {
      DoubtOk(s, p, a);
      EvidenceGood(g, id, Doubt(s, p, a));
    }
  }

  lemma PositionSound(s: Session, p: nat)
    requires CoreOk(s) && p < |s.shards|
    ensures Position(s.shards, s.shards[p].index) == p
  {
    PositionOf(s, p);
  }

  lemma VerificationGood(f: Fabric, id: SessionId, shard: nat, attempt: AttemptId, sequence: nat,
                         outcome: VerificationOutcome, bytes: nat, digest: ContentDigest, fence: Fence, at: Nanos)
    requires Good(f)
    requires Disciplined(f, VerifyCmd(id, shard, attempt, sequence, outcome, bytes, digest, fence), at)
    ensures Good(ReportVerification(f, id, shard, attempt, sequence, outcome, bytes, digest, fence, at).0)
  {
    hide Good, EvidenceGate, Expire, Aged, Judged, VerifyDiscipline;
    ExpireIsScan(f, at);
    var g := Expire(f, at);
    if EvidenceGate(g, id, fence, shard, attempt, sequence).None? {
      var s := g.sessions[id];
      JudgedGood(g, id, Position(s.shards, shard), AttemptPosition(s.attempts, attempt), outcome, bytes, digest);
    }
  }

  lemma SettledStanding(s: Session, state: SessionState)
    ensures Settle(s, state).request == s.request && Settle(s, state).state == state
  {
  }

  lemma AmbiguousGood(f: Fabric, id: SessionId, attempt: AttemptId, sequence: nat, fence: Fence, at: Nanos)
    requires Good(f)
    ensures Good(ReportAmbiguous(f, id, attempt, sequence, fence, at).0)
  {
    hide Base, DeadlinesBut, Store, Progress, CoreOk, FabricFence, Expire;
    ExpireIsScan(f, at);
    var g := Expire(f, at);
    if id in g.sessions && Active(g.sessions[id]) {
      var s := g.sessions[id];
      var a := AttemptPosition(s.attempts, attempt);
      SessionGood(g, id);
      if a < |s.attempts| {
        DisownOk(s, a);
        EvidenceGood(g, id, Disown(s, a));
      }
    }
  }

  // -------------------------------------------------------------- lifecycle

  lemma CancelGood(f: Fabric, id: SessionId, fence: Fence, at: Nanos)
    requires Good(f)
    ensures Good(Cancel(f, id, fence, at).0)
    ensures var h, o := Expire(f, at), Cancel(f, id, fence, at);
            o.1.Done? ==>
              && id in h.sessions
              && var b, c, l := Books(h.sessions, h.pruned), Books(o.0.sessions, o.0.pruned), h.sessions[id].ledger;
                 && c.cancelled == b.cancelled + l.outstanding && c.outstanding + l.outstanding == b.outstanding
                 && c.wasted + l.verified == b.wasted + l.transferred && c.transferred + l.transferred == b.transferred + l.verified
                 && c.admitted == b.admitted && c.verified == b.verified && c.unproven == b.unproven
  {
    hide Base, DeadlinesBut, Store, CoreOk, FabricFence, Expire, Settle, Books;
    ExpireIsScan(f, at);
    var g := Expire(f, at);
    if id in g.sessions && Active(g.sessions[id]) {
      var s := g.sessions[id];
      SessionGood(g, id);
      CancelledOk(s);
      SettledStanding(CancelOutstanding(s), Model.Cancelled);
      EndGood(g, id, Settle(CancelOutstanding(s), Model.Cancelled));
      CancelBooks(g, id);
    }
  }

  /** In the books, whatever was outstanding is now cancelled and whatever arrived unverified is wasted, whether or
  not the session is evicted at once. */
  lemma CancelBooks(g: Fabric, id: SessionId)
    requires Good(g) && id in g.sessions && Active(g.sessions[id])
    ensures var s := g.sessions[id];
            var o := Store(g, id, Settle(CancelOutstanding(s), Model.Cancelled));
            var b, c := Books(g.sessions, g.pruned), Books(o.sessions, o.pruned);
            && c.cancelled == b.cancelled + s.ledger.outstanding && c.outstanding + s.ledger.outstanding == b.outstanding
            && c.wasted + s.ledger.verified == b.wasted + s.ledger.transferred
            && c.transferred + s.ledger.transferred == b.transferred + s.ledger.verified
            && c.admitted == b.admitted && c.verified == b.verified && c.unproven == b.unproven
  {
    hide Base, DeadlinesBut, Store, SessionOk, Settle, CancelOutstanding;
    var s := g.sessions[id];
    var t := Settle(CancelOutstanding(s), Model.Cancelled);
    SessionGood(g, id);
    CancelledOk(s);
    CancelledLedger(s);
    StoreEvicts(g, id, t);
    TotalReplace(g.sessions, id, t, CancelledOf);
    TotalReplace(g.sessions, id, t, OutstandingOf);
    TotalReplace(g.sessions, id, t, WastedOf);
    TotalReplace(g.sessions, id, t, TransferredOf);
    TotalReplace(g.sessions, id, t, AdmittedOf);
    TotalReplace(g.sessions, id, t, VerifiedOf);
    TotalReplace(g.sessions, id, t, UnprovenOf);
  }

  lemma CancelledLedger(s: Session)
    requires SessionOk(s)
    ensures var l, m := s.ledger, Settle(CancelOutstanding(s), Model.Cancelled).ledger;
            && l.verified <= l.transferred
            && m == Ledger(l.admitted, l.verified, l.verified, l.cancelled + l.outstanding, l.wasted + (l.transferred - l.verified), l.unproven, 0)
    ensures var t := Settle(CancelOutstanding(s), Model.Cancelled); !Active(t) && t.state.Cancelled? && t.request == s.request
  {
    hide AttemptsSound, ShardsSound, Shaped, RunningLedger, AllVerified;
  }

  lemma CancelledOk(s: Session)
    requires SessionOk(s) && Active(s)
    ensures SessionOk(Settle(CancelOutstanding(s), Model.Cancelled))
  {
    // Cancelled bytes break the running identities, so soundness is shown of the settled record directly.
    var c := CancelOutstanding(s);
    var r := Settle(c, Model.Cancelled);
    hide AttemptsSound, ShardsSound, Shaped, RunningLedger, AllVerified;
    NoneLive(r.attempts);
    QuietUpdate(s.shards, s.attempts, r.shards, r.attempts);
  }

  /** Pausing and resuming change only where the session stands. */
  lemma RestateGood(f: Fabric, id: SessionId, t: Session)
    requires Good(f) && id in f.sessions && Active(f.sessions[id]) && Active(t)
    requires !IsTerminal(t.pausedFrom) && !t.pausedFrom.Paused? && (t.state.Paused? ==> t.paused)
    requires t == f.sessions[id].(state := t.state, paused := t.paused, pausedFrom := t.pausedFrom)
    requires Suspended(f.sessions[id]) ==> Suspended(t)
    ensures Good(f.(sessions := f.sessions[id := t]))
  {
    hide Base, Store;
    SessionGood(f, id);
    RestateOk(f.sessions[id], t);
    hide SessionOk;
    StoreGood(f, id, t, [], 0);
    StoreActive(f, id, t);
  }

  lemma RestateOk(s: Session, t: Session)
    requires SessionOk(s) && Active(s) && Active(t)
    requires !IsTerminal(t.pausedFrom) && !t.pausedFrom.Paused? && (t.state.Paused? ==> t.paused)
    requires t == s.(state := t.state, paused := t.paused, pausedFrom := t.pausedFrom)
    ensures SessionOk(t)
  {
    hide AttemptsSound, ShardsSound, Shaped;
  }

  lemma PauseGood(f: Fabric, id: SessionId, fence: Fence, at: Nanos)
    requires Good(f)
    ensures Good(Pause(f, id, fence, at).0)
  {
    hide Base, DeadlinesBut, Gate, Expire;
    ExpireIsScan(f, at);
    var g := Expire(f, at);
    if Gate(g, id, fence).None? {
      var s := g.sessions[id];
      SessionGood(g, id);
      if Active(s) && !s.state.RevalidationRequired? && !s.paused {
        RestateGood(g, id, s.(paused := true, pausedFrom := s.state, state := Model.Paused));
      }
    }
  }

  lemma ResumeGood(f: Fabric, id: SessionId, fence: Fence, at: Nanos)
    requires Good(f) && Disciplined(f, ResumeCmd(id, fence), at)
    ensures Good(Resume(f, id, fence, at).0)
  {
    hide Base, DeadlinesBut, Gate, Expire;
    ExpireIsScan(f, at);
    var g := Expire(f, at);
    if Gate(g, id, fence).None? && g.sessions[id].paused {
      var s := g.sessions[id];
      SessionGood(g, id);
      RestateGood(g, id, s.(paused := false, state := s.pausedFrom));
    }
  }

  // ------------------------------------------------------------ wave credit

  lemma CreditGood(f: Fabric, c: Credit)
    requires Good(f) && CreditOk(c)
    requires c.classes.Keys == f.credit.classes.Keys && c.workloads.Keys == f.credit.workloads.Keys
    ensures Good(f.(credit := c))
  {
    hide SessionsOk, OneActive, ReplayOk, HistoryOk, CompletionOk, ArchiveOk, Contracted, PolicyValid, TopologyValid, ContractsValid, Suspended;
    var g := f.(credit := c);
    assert forall id :: id in f.sessions ==> (Indexed(f, id) <==> Indexed(g, id));
  }

  lemma GrantGood(f: Fabric, id: SessionId, p: nat, attempt: AttemptId, chunk: nat)
    requires Good(f) && id in f.sessions && Active(f.sessions[id]) && p < |f.sessions[id].shards|
    requires var s := f.sessions[id];
             && FreshAttempt(s, attempt) && PreviousSettled(s, p) && !IsSettled(s.shards[p])
             && chunk <= Remaining(s.shards[p])
             && TrimSpares(s.attempts, s.activeAttempts, TimelineBound(f.policy) - 1)
             && !s.state.RevalidationRequired? && !s.state.Deferred? && !s.state.Paused? && !s.paused
    ensures Good(f.(sessions := f.sessions[id := Grant(f.sessions[id], p, attempt, chunk, TimelineBound(f.policy))]))
  {
    hide Base, Store, FreshAttempt, PreviousSettled, TrimSpares;
    var s := f.sessions[id];
    SessionGood(f, id);
    assert ShardSound(s.shards[p]);
    hide CoreOk;
    var t := Grant(s, p, attempt, chunk, TimelineBound(f.policy));
    GrantOk(s, p, attempt, chunk, TimelineBound(f.policy));
    StoreGood(f, id, t, [], 0);
    StoreActive(f, id, t);
  }

  lemma ProvisionedCredit(f: Fabric)
    requires Good(f)
    ensures CreditOk(f.credit)
  {
  }

  lemma WaveCreditGood(g: Fabric, id: SessionId, p: nat, attempt: AttemptId, at: Nanos)
    requires Good(g) && CreditOk(g.credit) && id in g.sessions && Active(g.sessions[id]) && p < |g.sessions[id].shards|
    requires var s := g.sessions[id];
             && PreviousSettled(s, p) && !IsSettled(s.shards[p])
             && !s.state.RevalidationRequired? && !s.state.Deferred? && !s.state.Paused? && !s.paused
    requires WaveDiscipline(g, id, attempt)
    ensures Good(Wave(g, id, p, attempt, at).0)
  {
    hide Good, Consume, ObserveClass, Grant, FreshAttempt, TrimSpares, PreviousSettled;
    var s := g.sessions[id];
    var k := s.envelope.isolation;
    var seen := ObserveClass(g.credit, k, at);
    CreditGood(g, seen);
    var available := ClassTokens(seen, k);
    if available >= Min(Remaining(s.shards[p]), MIN_CHUNK) {
      var chunk := Min(Min(Remaining(s.shards[p]), MAX_CHUNK), available);
      var spent := Consume(seen, k, s.request.workload, chunk, at);
      CreditGood(g, spent.0);
      if spent.1.Granted? {
        GrantGood(g.(credit := spent.0), id, p, attempt, chunk);
      }
    }
  }

  lemma WaveGood(f: Fabric, id: SessionId, shard: nat, fence: Fence, attempt: AttemptId, at: Nanos)
    requires Good(f) && Disciplined(f, WaveCmd(id, shard, fence, attempt), at)
    ensures Good(RequestWave(f, id, shard, fence, attempt, at).0)
  {
    hide Good, Expire, WaveGate, WaveDiscipline, Wave, Aged;
    ProvisionedCredit(f);
    ExpireIsScan(f, at);
    var g := Expire(f, at);
    if WaveGate(g, id, shard, fence, at).None? {
      WaveCreditGood(g, id, Position(g.sessions[id].shards, shard), attempt, at);
    }
  }

  // -------------------------------------------------------------- admission

  lemma {:induction false} ForgetOk(f: Fabric, kept: seq<CommandId>, newest: CommandId)
    requires f.commandOrder == kept + [newest] && NoDuplicates(f.commandOrder) && f.commandBound > 0
    requires forall c :: c in f.commands <==> c in kept
    ensures var g := Forget(f);
            && NoDuplicates(g.commandOrder) && |g.commandOrder| <= f.commandBound
            && forall c :: c in g.commands || c == newest <==> c in g.commandOrder
    decreases |f.commandOrder|
  {
    if |f.commandOrder| > f.commandBound {
      var oldest := f.commandOrder[0];
      assert kept[0] == oldest && f.commandOrder[1..] == kept[1..] + [newest];
      assert forall i :: 0 <= i < |kept[1..]| ==> kept[1..][i] == f.commandOrder[i + 1];
      assert forall c :: c in kept <==> c == oldest || c in kept[1..];
      ForgetOk(f.(commands := f.commands - {oldest}, commandOrder := f.commandOrder[1..]), kept[1..], newest);
    }
  }

  /** Remembering a command keeps map and queue in step and within the bound. */
  lemma RememberOk(f: Fabric, command: CommandId, record: CommandRecord)
    requires ReplayOk(f.commands, f.commandOrder, f.commandBound) && command !in f.commands
    ensures var g := Remember(f, command, record);
            ReplayOk(g.commands, g.commandOrder, g.commandBound) && command in g.commands && g.commands[command] == record
  {
    var bound := Max(64, Min(f.policy.retainedHistory * 4, 4096));
    ForgetOk(f.(commandOrder := f.commandOrder + [command], commandBound := bound), f.commandOrder, command);
  }

  lemma RememberGood(f: Fabric, command: CommandId, record: CommandRecord)
    requires Good(f) && command !in f.commands
    ensures Good(Remember(f, command, record))
  {
    hide SessionsOk, OneActive, ReplayOk, HistoryOk, CompletionOk, ArchiveOk, Contracted, Provisioned, Suspended, Remember;
    RememberOk(f, command, record);
    var g := Remember(f, command, record);
    assert forall id :: id in f.sessions ==> (Indexed(f, id) <==> Indexed(g, id));
  }

  lemma {:induction false} NewShardTotals(m: Manifest)
    ensures SeqTotal(NewShards(m), ShardBytes) == 0 && SeqTotal(NewShards(m), ShardVerifiedBytes) == 0
    decreases |m.shards|
  {
    if m.shards != [] {
      var rest := m.(shards := m.shards[1..]);
      NewShardTotals(rest);
      assert NewShards(m)[1..] == NewShards(rest);
    }
  }

  lemma NewSessionOk(r: Request, limits: Limits, k: IsolationClass, path: PathId, rate: nat, deadline: Nanos)
    requires ManifestValid(r.manifest, limits)
    ensures SessionOk(NewSession(r, k, path, rate, deadline))
  {
    NewShardTotals(r.manifest);
  }

  /** A new session joins a checkpoint that has no active session and no newer generation. */
  lemma InsertGood(f: Fabric, id: SessionId, s: Session)
    requires Good(f) && id !in f.sessions && SessionOk(s) && Active(s) && s.request.workload in f.contracts
    requires forall k :: k in f.sessions && f.sessions[k].request.checkpoint == s.request.checkpoint ==>
               !Active(f.sessions[k]) && f.sessions[k].request.checkpointGeneration <= s.request.checkpointGeneration
    requires s.envelope.deadline > 0
    ensures Good(f.(sessions := f.sessions[id := s], deadlines := IndexDeadline(f.deadlines, id, s.envelope.deadline)))
  {
    hide SessionOk, ReplayOk, ArchiveOk, Provisioned, Suspended, AllVerified;
    var g := f.(sessions := f.sessions[id := s], deadlines := IndexDeadline(f.deadlines, id, s.envelope.deadline));
    assert OneActive(g.sessions);
    forall k | k in g.sessions && Active(g.sessions[k]) && !Suspended(g.sessions[k]) ensures Indexed(g, k) {
      if k != id { assert Indexed(f, k); }
    }
  }

  lemma SupersededOk(s: Session, newer: SessionId)
    requires SessionOk(s) && Active(s)
    ensures SessionOk(SupersededSession(s, newer))
  {
    UnproveOk(s, s.ledger.outstanding);
    var u := Unprove(s, s.ledger.outstanding);
    SettleOk(u, Superseded);
    hide AttemptsSound, ShardsSound, Shaped, ReleaseAll;
  }

  lemma SupersedeGood(f: Fabric, c: CheckpointId, newer: SessionId)
    requires Good(f)
    ensures var g := Supersede(f, c, newer);
            && Good(g)
            && g.sessions.Keys <= f.sessions.Keys
            && (forall k :: k in g.sessions ==> g.sessions[k].request == f.sessions[k].request)
            && (forall k :: k in g.sessions && g.sessions[k].request.checkpoint == c ==> !Active(g.sessions[k]))
  {
    hide Store, SessionOk, AllVerified, Provisioned, ReplayOk, ArchiveOk, HistoryOk, CompletionOk, Contracted, Books, SupersededSession;
    var rival := Rival(f.sessions, c);
    if rival.Some? {
      var s := f.sessions[rival.value];
      assert OneActive(f.sessions);
      SessionGood(f, rival.value);
      SupersededOk(s, newer);
      SupersededStanding(s, newer);
      EndGood(f, rival.value, SupersededSession(s, newer));
      StoreEvicts(f, rival.value, SupersededSession(s, newer));
    } else {
      assert forall k :: k in f.sessions && f.sessions[k].request.checkpoint == c ==> !IsRival(f.sessions, c, k);
    }
  }

  lemma SupersededStanding(s: Session, newer: SessionId)
    ensures var t := SupersededSession(s, newer); t.request == s.request && t.state.Superseded?
  {
  }

  lemma StoreEvicts(f: Fabric, id: SessionId, t: Session)
    requires Good(f) && id in f.sessions && Active(f.sessions[id])
    requires SessionOk(t) && !Active(t) && !t.state.TrafficSessionComplete? && t.request == f.sessions[id].request
    ensures Evicted(f.(sessions := f.sessions[id := t]), Store(f, id, t))
  {
    hide Base, Store, SessionOk, AllVerified, Books;
    assert MayReplace(f, id, t);
    StoreGood(f, id, t, [], 0);
  }

  /** What an admission rests on. */
  lemma AcceptMeans(f: Fabric, r: Request)
    requires Judge(f, r).Accept?
    ensures r.workload in f.contracts && ManifestValid(r.manifest, f.limits)
    ensures !NewerRetained(f.sessions, r.checkpoint, r.checkpointGeneration)
    ensures !f.shuttingDown
  {
    hide ManifestValid, NewerRetained, JudgeCapacity, ManifestsEquivalent, ShardPathsPermitted, DefaultPath, Rival;
  }

  lemma CapacityFits(f: Fabric, r: Request, c: Contract, k: IsolationClass, path: PathClass)
    requires k in f.policy.envelopes && JudgeCapacity(f, r, c, k, path).Accept?
    ensures var j := JudgeCapacity(f, r, c, k, path);
            j.path == path.id && j.rate > 0 && j.rate + Total(f.sessions, RateOn(j.path)) <= path.capacity
  {
    hide CeilRate, Total, RateOn;
  }

  lemma AcceptedPath(f: Fabric, r: Request)
    requires Judge(f, r).Accept?
    ensures var j := Judge(f, r);
            var path := PathOf(f.topology, j.path);
            path.Some? && j.rate > 0 && j.rate + Total(f.sessions, RateOn(j.path)) <= path.value.capacity
  {
    hide ManifestValid, NewerRetained, ManifestsEquivalent, ShardPathsPermitted, IsDefaultPath, Rival, JudgeCapacity, Total, RateOn;
    var c := f.contracts[r.workload];
    var best := DefaultPath(f.topology, r.destination);
    CapacityFits(f, r, c, Isolate(r, c), PathOf(f.topology, best.value).value);
  }

  /** An accepted rate fits on its path beside everything reserved there, so the 64-bit sum cannot overflow. */
  lemma AcceptFits(f: Fabric, r: Request)
    requires Good(f) && Judge(f, r).Accept?
    ensures var j := Judge(f, r);
            var path := PathOf(f.topology, j.path);
            path.Some? && j.rate > 0 && j.rate + Total(f.sessions, RateOn(j.path)) <= path.value.capacity < U64
  {
    hide Judge, SessionsOk, OneActive, ReplayOk, HistoryOk, CompletionOk, ArchiveOk, Contracted, DeadlinesBut, Total, RateOn;
    AcceptedPath(f, r);
  }

  lemma HorizonPositive(f: Fabric, r: Request)
    requires Good(f) && r.workload in f.contracts
    ensures Horizon(r, f.contracts[r.workload]) > 0
  {
    hide SessionsOk, OneActive, ReplayOk, HistoryOk, CompletionOk, ArchiveOk, Contracted, DeadlinesBut;
  }

  lemma AdmitGood(f: Fabric, r: Request, id: SessionId, k: IsolationClass, path: PathId, rate: nat, deadline: Nanos)
    requires Good(f) && id !in f.sessions && deadline > 0
    requires r.workload in f.contracts && ManifestValid(r.manifest, f.limits)
    requires !NewerRetained(f.sessions, r.checkpoint, r.checkpointGeneration)
    ensures Good(AdmitNew(f, r, id, k, path, rate, deadline))
  {
    hide Good, Supersede, ManifestValid, SessionOk, NewShards;
    SupersedeGood(f, r.checkpoint, id);
    NewSessionOk(r, f.limits, k, path, rate, deadline);
    SupersedeFrames(f, r.checkpoint, id);
    InsertGood(Supersede(f, r.checkpoint, id), id, NewSession(r, k, path, rate, deadline));
  }

  lemma SupersedeFrames(f: Fabric, c: CheckpointId, newer: SessionId)
    ensures var g := Supersede(f, c, newer);
            g == f.(sessions := g.sessions, terminalOrder := g.terminalOrder, pruned := g.pruned)
  {
    hide Store, Rival, SupersededSession;
  }

  lemma DecideGood(f: Fabric, r: Request, fingerprint: nat, id: SessionId, at: Nanos)
    requires Good(f) && r.command !in f.commands && id !in f.sessions && at >= 0
    ensures Good(Decide(f, r, fingerprint, id, at).0)
  {
    hide Good, Judge, AdmitNew, Remember, ManifestValid, NewerRetained, Horizon;
    match Judge(f, r)
    case DenyIt(_) => RememberGood(f, r.command, CommandRecord(Deny, None, fingerprint));
    case DeferIt(_) => RememberGood(f, r.command, CommandRecord(Defer, None, fingerprint));
    case SameAs(existing) => RememberGood(f, r.command, CommandRecord(Admit, Some(existing), fingerprint));
    case Accept(k, path, rate) =>
      AcceptMeans(f, r);
      HorizonPositive(f, r);
      var deadline := at + Horizon(r, f.contracts[r.workload]);
      AdmitGood(f, r, id, k, path, rate, deadline);
      AdmitFrames(f, r, id, k, path, rate, deadline);
      RememberGood(AdmitNew(f, r, id, k, path, rate, deadline), r.command, CommandRecord(Admit, Some(id), fingerprint));
  }

  lemma AdmitFrames(f: Fabric, r: Request, id: SessionId, k: IsolationClass, path: PathId, rate: nat, deadline: Nanos)
    ensures var g := AdmitNew(f, r, id, k, path, rate, deadline);
            g == f.(sessions := g.sessions, terminalOrder := g.terminalOrder, pruned := g.pruned, deadlines := g.deadlines)
  {
    hide Supersede, NewSession, IndexDeadline;
    SupersedeFrames(f, r.checkpoint, id);
  }

  lemma SubmitGood(f: Fabric, r: Request, fence: Fence, fingerprint: nat, id: SessionId, at: Nanos)
    requires Good(f) && id !in f.sessions && at >= 0
    ensures Good(Submit(f, r, fence, fingerprint, id, at).0)
  {
    hide Good, Decide, Expire, FabricFence;
    ExpireIsScan(f, at);
    var g := Expire(f, at);
    if r.command !in g.commands { DecideGood(g, r, fingerprint, id, at); }
  }

  lemma RevalidatedGood(f: Fabric, id: SessionId, path: PathId, rate: nat, deadline: Nanos)
    requires Good(f) && id in f.sessions && Active(f.sessions[id]) && deadline > 0
    ensures Good(f.(sessions := f.sessions[id := Revalidated(f.sessions[id], path, rate, deadline)],
                    deadlines := IndexDeadline(f.deadlines, id, deadline)))
  {
    hide Base, SessionOk;
    var t := Revalidated(f.sessions[id], path, rate, deadline);
    SessionGood(f, id);
    RevalidatedOk(f.sessions[id], path, rate, deadline);
    ReplaceBase(f, id, t, f.terminalOrder);
    var h := f.(sessions := f.sessions[id := t]);
    ReindexBase(h, id, deadline);
    var g := h.(deadlines := IndexDeadline(f.deadlines, id, deadline));
    forall k | k in g.sessions && Active(g.sessions[k]) && !Suspended(g.sessions[k]) ensures Indexed(g, k) {
      if k != id { assert Indexed(f, k); }
    }
  }

  lemma RevalidatedOk(s: Session, path: PathId, rate: nat, deadline: Nanos)
    requires SessionOk(s) && Active(s)
    ensures SessionOk(Revalidated(s, path, rate, deadline))
  {
    hide AttemptsSound, ShardsSound, Shaped;
  }

  lemma ReindexBase(f: Fabric, id: SessionId, deadline: Nanos)
    requires Base(f)
    ensures Base(f.(deadlines := IndexDeadline(f.deadlines, id, deadline)))
  {
    hide SessionsOk, OneActive, ReplayOk, HistoryOk, CompletionOk, ArchiveOk, Contracted, Provisioned;
  }

  lemma RevalidateGood(f: Fabric, id: SessionId, fence: Fence, at: Nanos)
    requires Good(f) && at >= 0 && Disciplined(f, RevalidateCmd(id, fence), at)
    ensures Good(Revalidate(f, id, fence, at).0)
  {
    hide Good, Expire, Aged, Replan, Renewable, CheckFence, CheckpointFence;
    ExpireIsScan(f, at);
    var g := Expire(f, at);
    if Renewing(g, id, fence) { ReplanGood(g, id, at); }
  }

  lemma ReplanGood(g: Fabric, id: SessionId, at: Nanos)
    requires Good(g) && at >= 0 && id in g.sessions && (g.sessions[id].state.RevalidationRequired? || g.sessions[id].state.Deferred?)
    requires Renewable(g, g.sessions[id])
    ensures Good(Replan(g, id, at).0)
  {
    hide Good, PlanAgain, Horizon, DenyRevalidation, Revalidated, IndexDeadline, Expired, Settle, Renewable;
    var s := g.sessions[id];
    RenewableKnown(g, s);
    HorizonPositive(g, s.request);
    if s.envelope.isolation in g.policy.envelopes && PathOf(g.topology, s.envelope.path).Some? {
      RenewableExact(g, s);
      match PlanAgain(g, s)
      case Rate(bps) =>
        RevalidatedGood(g, id, s.envelope.path, bps, at + Horizon(s.request, g.contracts[s.request.workload]));
      case NoRate(reason) =>
        DeferGood(g, id);
    }
  }

  lemma RenewableKnown(f: Fabric, s: Session)
    requires Renewable(f, s)
    ensures s.request.workload in f.contracts
  {
  }

  /** Planning again denies the session exactly when it is no longer renewable. */
  lemma RenewableExact(f: Fabric, s: Session)
    requires s.request.workload in f.contracts && s.envelope.isolation in f.policy.envelopes && PathOf(f.topology, s.envelope.path).Some?
    ensures var plan := PlanAgain(f, s);
            (plan.NoRate? && (plan.reason.RequestedRateUnsupported? || plan.reason.DeadlineUnreachable?)) <==> !Renewable(f, s)
  {
    hide CeilRate, Horizon, Total;
  }

  /** A revalidation that passes its checks is denied exactly when the session is no longer renewable. */
  lemma DeniedExactly(g: Fabric, id: SessionId, at: Nanos)
    requires id in g.sessions
    ensures var o := Replan(g, id, at).1; o.Decided? && (o.kind.Deny? <==> !Renewable(g, g.sessions[id]))
  {
    hide PlanAgain, Horizon, DenyRevalidation, Revalidated, IndexDeadline, Expired, Settle, CeilRate;
    var s := g.sessions[id];
    if s.request.workload in g.contracts && s.envelope.isolation in g.policy.envelopes && PathOf(g.topology, s.envelope.path).Some? {
      RenewableExact(g, s);
    }
  }

  /** A revalidation is denied exactly when its discipline is broken. */
  lemma DenialBreaksDiscipline(f: Fabric, id: SessionId, fence: Fence, at: Nanos)
    requires Good(f)
    ensures var o := Revalidate(f, id, fence, at).1;
            (o.Decided? && o.kind.Deny?) <==> !Disciplined(f, RevalidateCmd(id, fence), at)
  {
    hide Good, Expire, Aged, Replan, Renewable, CheckFence, CheckpointFence;
    var g := Expire(f, at);
    if Renewing(g, id, fence) { DeniedExactly(g, id, at); }
  }

  lemma DeferGood(f: Fabric, id: SessionId)
    requires Good(f) && id in f.sessions
    requires f.sessions[id].state.RevalidationRequired? || f.sessions[id].state.Deferred?
    ensures Good(f.(sessions := f.sessions[id := f.sessions[id].(state := Deferred)]))
  {
    hide Base, DeadlinesBut;
    SessionGood(f, id);
    RestateGood(f, id, f.sessions[id].(state := Deferred));
  }

  // -------------------------------------------------------------- authority

  /** Every active session either stands as before or now requires revalidation. */
  predicate Fenced(m: map<SessionId, Session>, n: map<SessionId, Session>) {
    && n.Keys == m.Keys
    && forall id :: id in m ==> n[id] == m[id] || (Active(m[id]) && n[id] == m[id].(state := RevalidationRequired))
  }

  lemma DemandOk(s: Session)
    requires SessionOk(s)
    ensures SessionOk(Demand(s))
  {
    hide AttemptsSound, ShardsSound, Shaped;
  }

  lemma FencedOk(m: map<SessionId, Session>, n: map<SessionId, Session>)
    requires Fenced(m, n) && SessionsOk(m)
    ensures SessionsOk(n)
  {
    hide SessionOk;
    forall id | id in n ensures SessionOk(n[id]) {
      assert SessionOk(m[id]);
      DemandOk(m[id]);
    }
  }

  lemma FencedGood(f: Fabric, g: Fabric)
    requires Good(f) && Fenced(f.sessions, g.sessions)
    requires Provisioned(g.limits, g.policy, g.topology, g.contracts, g.credit) && f.contracts.Keys <= g.contracts.Keys
    requires g.deadlines == f.deadlines && g.terminalOrder == f.terminalOrder && g.pruned == f.pruned
    requires g.commands == f.commands && g.commandOrder == f.commandOrder && g.commandBound == f.commandBound
    requires CompletionOk(g.policy.requireVerification, f.sessions)
    ensures Good(g)
  {
    hide SessionOk, ReplayOk, ArchiveOk, Provisioned, AllVerified;
    FencedOk(f.sessions, g.sessions);
    assert OneActive(g.sessions);
    forall id | id in g.sessions && Active(g.sessions[id]) && !Suspended(g.sessions[id]) ensures Indexed(g, id) {
      assert Indexed(f, id);
    }
  }

  lemma PolicyGood(f: Fabric, p: Policy, at: Nanos)
    requires Good(f) && Disciplined(f, PolicyCmd(p), at)
    ensures Good(ApplyPolicy(f, p, at).0)
  {
    hide Good, AllVerified, Provisioned, ClassCredit, WorkloadCredit, PolicyValid, ContractsValid;
    ProvisionedContracts(f);
    var g := ApplyPolicy(f, p, at).0;
    if f.policy.generation < p.generation && PolicyValid(p) {
      NewCredit(f, p, at);
      assert Fenced(f.sessions, g.sessions);
      FencedGood(f, g);
    }
  }

  lemma ProvisionedContracts(f: Fabric)
    requires Good(f)
    ensures ContractsValid(f.contracts)
    ensures forall w :: w in f.contracts ==> f.contracts[w].ceiling < U64
  {
    hide SessionsOk, OneActive, ReplayOk, HistoryOk, CompletionOk, ArchiveOk, Contracted, DeadlinesBut;
  }

  lemma NewCredit(f: Fabric, p: Policy, at: Nanos)
    requires Good(f) && PolicyValid(p)
    ensures Provisioned(f.limits, p, f.topology, f.contracts,
                        Credit(f.credit.classes + ClassCredit(p, at), f.credit.workloads + WorkloadCredit(f.contracts, at)))
  {
    hide SessionsOk, OneActive, ReplayOk, HistoryOk, CompletionOk, ArchiveOk, Contracted, DeadlinesBut;
  }

  lemma TopologyGood(f: Fabric, t: Topology)
    requires Good(f)
    ensures Good(ApplyTopology(f, t).0)
  {
    var g := ApplyTopology(f, t).0;
    if f.topology.generation < t.generation && TopologyValid(t, f.limits) {
      hide SessionOk, ReplayOk, ArchiveOk, AllVerified, PolicyValid, ContractsValid, CreditOk;
      assert Fenced(f.sessions, g.sessions);
      FencedGood(f, g);
    }
  }

  lemma ContractGood(f: Fabric, c: Contract, at: Nanos)
    requires Good(f)
    ensures Good(UpsertContract(f, c, at).0)
  {
    var g := UpsertContract(f, c, at).0;
    hide SessionOk, ReplayOk, ArchiveOk, AllVerified, PolicyValid, TopologyValid, HistoryOk, OneActive, CompletionOk;
    if UpsertContract(f, c, at).1.Done? {
      assert Fenced(f.sessions, g.sessions);
      assert ContractsValid(g.contracts) && CreditOk(g.credit);
      FencedGood(f, g);
    }
  }

  lemma RestartedOk(s: Session)
    requires SessionOk(s)
    ensures SessionOk(Restarted(s)) && Restarted(s).request == s.request
    ensures Active(Restarted(s)) <==> Active(s)
    ensures Active(s) ==> Suspended(Restarted(s))
    ensures Restarted(s).state.TrafficSessionComplete? ==> Restarted(s) == s
  {
    if Active(s) { RestartOk(s); }
  }

  lemma EpochGood(f: Fabric, e: Epoch)
    requires Good(f)
    ensures Good(AdvanceEpoch(f, e).0)
  {
    hide SessionOk, ReplayOk, ArchiveOk, AllVerified, Provisioned, Restarted, Suspended;
    var g := AdvanceEpoch(f, e).0;
    if EpochBefore(f.epoch, e) {
      forall id | id in f.sessions ensures SessionOk(f.sessions[id]) {}
      forall id | id in f.sessions
        ensures && SessionOk(g.sessions[id]) && g.sessions[id].request == f.sessions[id].request
                && (Active(g.sessions[id]) <==> Active(f.sessions[id]))
                && (Active(f.sessions[id]) ==> Suspended(g.sessions[id]))
                && (g.sessions[id].state.TrafficSessionComplete? ==> g.sessions[id] == f.sessions[id])
      {
        RestartedOk(f.sessions[id]);
      }
      assert OneActive(g.sessions);
    }
  }

  /** Every disciplined command keeps the invariant of the fabric. */
  lemma StepGood(f: Fabric, c: Command, at: Nanos)
    requires Good(f) && at >= 0 && Disciplined(f, c, at)
    ensures Good(Step(f, c, at).0)
  {
    hide Base, DeadlinesBut, Expire, Submit, Revalidate, Pause, Resume, Cancel, RequestWave, ReportSourceComplete, ReportTransfer,
      ReportVerification, ReportAmbiguous, ApplyPolicy, ApplyTopology, UpsertContract, AdvanceEpoch;
    match c
    case SubmitCmd(r, fence, fingerprint, id) => SubmitGood(f, r, fence, fingerprint, id, at);
    case RevalidateCmd(id, fence) => RevalidateGood(f, id, fence, at);
    case PauseCmd(id, fence) => PauseGood(f, id, fence, at);
    case ResumeCmd(id, fence) => ResumeGood(f, id, fence, at);
    case CancelCmd(id, fence) => CancelGood(f, id, fence, at);
    case WaveCmd(id, shard, fence, attempt) => WaveGood(f, id, shard, fence, attempt, at);
    case SourceCmd(id, shard, bytes, fence) => SourceGood(f, id, shard, bytes, fence, at);
    case TransferCmd(id, shard, attempt, sequence, bytes, acknowledged, fence) =>
      TransferGood(f, id, shard, attempt, sequence, bytes, acknowledged, fence, at);
    case VerifyCmd(id, shard, attempt, sequence, outcome, bytes, digest, fence) =>
      VerificationGood(f, id, shard, attempt, sequence, outcome, bytes, digest, fence, at);
    case AmbiguousCmd(id, attempt, sequence, fence) => AmbiguousGood(f, id, attempt, sequence, fence, at);
    case PolicyCmd(p) => PolicyGood(f, p, at);
    case TopologyCmd(t) => TopologyGood(f, t);
    case ContractCmd(contract) => ContractGood(f, contract, at);
    case EpochCmd(e) => EpochGood(f, e);
    case PollCmd => ExpireIsScan(f, at);
    case ShutdownCmd => ShutdownGood(f);
  }

  lemma ShutdownGood(f: Fabric)
    requires Good(f)
    ensures Good(BeginShutdown(f).0)
  {
    hide SessionsOk, OneActive, ReplayOk, HistoryOk, CompletionOk, ArchiveOk, Contracted, Provisioned, Suspended;
    var g := BeginShutdown(f).0;
    assert forall id :: id in f.sessions ==> (Indexed(f, id) <==> Indexed(g, id));
  }
}
