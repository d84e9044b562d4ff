/** Where the engine trusts its peers or falls short of what it promises: for each command that it
accepts without checking, the exact condition under which the session or the table stays sound. */
module Departures {
  import opened Sums
  import opened Model
  import opened Sessions
  import opened Shaper
  import opened Rates
  import opened Spec
  import opened Invariants
  import opened Commands
  import opened Runs
  import opened Theorems

  /** An accepted success verdict keeps the session sound exactly when the shard had arrived in full. */
  lemma VerifiedExact(s: Session, p: nat, a: nat)
    requires SessionOk(s) && Active(s) && IsCurrent(s, p, a) && IsAcked(s.attempts[a])
    ensures CoreOk(Verify(s, p, a)) <==> s.shards[p].transferred == s.shards[p].declared
  {
    var r := Verify(s, p, a);
    if s.shards[p].transferred == s.shards[p].declared {
      VerifyOk(s, p, a);
    } else {
      assert !ShardSound(r.shards[p]);
    }
  }

  /** A grant keeps the session sound exactly when the attempts its history drops leave enough live ones on record. */
  lemma GrantExact(s: Session, p: nat, id: AttemptId, chunk: nat, bound: nat)
    requires SessionOk(s) && Active(s) && p < |s.shards| && bound > 0
    requires FreshAttempt(s, id) && PreviousSettled(s, p) && !IsSettled(s.shards[p])
    requires chunk <= s.shards[p].declared - s.shards[p].transferred
    ensures SessionOk(Grant(s, p, id, chunk, bound)) <==> TrimSpares(s.attempts, s.activeAttempts, bound - 1)
  {
    hide AttemptsSound, FreshAttempt, PreviousSettled, Shaped, ShardsSound, SeqTotal, Dropped, Trim;
    SoundCore(s);
    GrantHistory(s, p, id, chunk, bound);
    if TrimSpares(s.attempts, s.activeAttempts, bound - 1) { GrantOk(s, p, id, chunk, bound); }
  }

  /** A mismatch verdict leaves the session sound exactly when nothing was outstanding. */
  lemma MismatchExact(s: Session, p: nat, a: nat)
    requires SessionOk(s) && Active(s) && p < |s.shards| && a < |s.attempts|
    ensures SessionOk(Settle(Reject(s, p, a), Failed)) <==> s.ledger.outstanding == 0
  {
    if s.ledger.outstanding == 0 { RejectOk(s, p, a); }
  }

  /** A truncation verdict keeps the session sound exactly when the shard held no verified byte. */
  lemma TruncatedExact(s: Session, p: nat, a: nat)
    requires SessionOk(s) && Active(s) && IsCurrent(s, p, a)
    ensures CoreOk(Truncate(s, p, a)) <==> s.shards[p].verified == 0
  {
    if s.shards[p].verified == 0 {
      TruncateOk(s, p, a);
    } else {
      assert !ShardSound(Truncate(s, p, a).shards[p]);
    }
  }

  /** The three verdicts on the record: an undisciplined one leaves a session that is not sound. */
  lemma RulingUnsound(s: Session, p: nat, a: nat, outcome: VerificationOutcome, bytes: nat, digest: ContentDigest, required: bool)
    requires SessionOk(s) && Active(s) && IsCurrent(s, p, a) && Heard(s, a, outcome)
    requires !VerifyDiscipline(s, s.shards[p].index, outcome, bytes, digest)
    ensures Mismatched(s.shards[p], outcome, bytes, digest) ==> !SessionOk(Settle(Reject(s, p, a), Failed))
    ensures !Mismatched(s.shards[p], outcome, bytes, digest) && outcome.Verified? ==> !SessionOk(Progress(Verify(s, p, a), required))
    ensures !Mismatched(s.shards[p], outcome, bytes, digest) && !outcome.Verified? ==>
              outcome.Truncated? && !SessionOk(Progress(Truncate(s, p, a), required))
  {
    hide AttemptsSound, Shaped, RunningLedger, AllVerified, AllSettled, SomeUnresolved, Position;
    PositionSound(s, p);
    if Mismatched(s.shards[p], outcome, bytes, digest) {
      MismatchExact(s, p, a);
    } else if outcome.Verified? {
      assert !ShardSound(Progress(Verify(s, p, a), required).shards[p]);
    } else {
      assert !ShardSound(Progress(Truncate(s, p, a), required).shards[p]);
    }
  }

  /** A verdict that passes the engine's checks keeps the fabric sound exactly when it is disciplined, unless the
  session it ended was evicted by the same command. */
  lemma VerdictExact(f: Fabric, id: SessionId, shard: nat, attempt: AttemptId, sequence: nat,
                     outcome: VerificationOutcome, bytes: nat, digest: ContentDigest, fence: Fence, at: Nanos)
    requires Good(f) && EvidenceGate(Expire(f, at), id, fence, shard, attempt, sequence).None?
    requires var s := Expire(f, at).sessions[id]; Heard(s, AttemptPosition(s.attempts, attempt), outcome)
    ensures var s, g := Expire(f, at).sessions[id], ReportVerification(f, id, shard, attempt, sequence, outcome, bytes, digest, fence, at).0;
            && (VerifyDiscipline(s, shard, outcome, bytes, digest) ==> Good(g))
            && (!VerifyDiscipline(s, shard, outcome, bytes, digest) && id in g.sessions ==> !Good(g))
  {
    hide Good, Expire, EvidenceGate, VerifyDiscipline, Judged, Aged;
    ExpireIsScan(f, at);
    var h := Expire(f, at);
    var s := h.sessions[id];
    if VerifyDiscipline(s, shard, outcome, bytes, digest) {
      VerificationGood(f, id, shard, attempt, sequence, outcome, bytes, digest, fence, at);
    } else {
      JudgedUnsound(h, id, Position(s.shards, shard), AttemptPosition(s.attempts, attempt), outcome, bytes, digest);
    }
  }

  lemma JudgedUnsound(h: Fabric, id: SessionId, p: nat, a: nat, outcome: VerificationOutcome, bytes: nat, digest: ContentDigest)
    requires Good(h) && id in h.sessions && Active(h.sessions[id]) && IsCurrent(h.sessions[id], p, a) && Heard(h.sessions[id], a, outcome)
    requires !VerifyDiscipline(h.sessions[id], h.sessions[id].shards[p].index, outcome, bytes, digest)
    ensures var g := Judged(h, id, p, a, outcome, bytes, digest).0; id in g.sessions ==> !Good(g)
  {
    hide Good, VerifyDiscipline, Store, Progress, Settle, Verify, Reject, Truncate, Doubt, SessionOk, CoreOk, Mismatched;
    var s, required := h.sessions[id], h.policy.requireVerification;
    var g := Judged(h, id, p, a, outcome, bytes, digest).0;
    SessionSound(h, id);
    RulingUnsound(s, p, a, outcome, bytes, digest, required);
    StoredRecord(h, id, Settle(Reject(s, p, a), Failed));
    StoredRecord(h, id, Progress(Verify(s, p, a), required));
    StoredRecord(h, id, Progress(Truncate(s, p, a), required));
    if id in g.sessions && Good(g) { SessionSound(g, id); }
  }

  lemma {:induction false} EvictRecord(f: Fabric, target: nat, id: SessionId)
    requires id in Evict(f, target).sessions
    ensures id in f.sessions && Evict(f, target).sessions[id] == f.sessions[id]
    decreases |f.terminalOrder|
  {
    if |f.sessions| > target && f.terminalOrder != [] { EvictRecord(EvictOldest(f), target, id); }
  }

  /** A stored session that was not evicted is the one that was stored. */
  lemma StoredRecord(f: Fabric, id: SessionId, t: Session)
    ensures id in Store(f, id, t).sessions ==> Store(f, id, t).sessions[id] == t
  {
    hide Evict;
    var g := f.(sessions := f.sessions[id := t], terminalOrder := f.terminalOrder + [id]);
    if id in Evict(g, g.retentionBound * 3 / 4).sessions { EvictRecord(g, g.retentionBound * 3 / 4, id); }
  }

  /** A grant under a fresh identity keeps the fabric sound exactly when the trim leaves enough live attempts on record. */
  lemma WaveExact(f: Fabric, id: SessionId, shard: nat, fence: Fence, attempt: AttemptId, at: Nanos)
    requires Good(f) && WaveGate(Expire(f, at), id, shard, fence, at).None? && FreshAttempt(Expire(f, at).sessions[id], attempt)
    requires CreditOk(f.credit) && RequestWave(f, id, shard, fence, attempt, at).1.WaveGranted?
    ensures var s := Expire(f, at).sessions[id];
            Good(RequestWave(f, id, shard, fence, attempt, at).0) <==> TrimSpares(s.attempts, s.activeAttempts, TimelineBound(f.policy) - 1)
  {
    hide Good, Expire, WaveGate, Wave, FreshAttempt, TrimSpares, Aged, PreviousSettled;
    ExpireIsScan(f, at);
    var h := Expire(f, at);
    var s := h.sessions[id];
    var p := Position(s.shards, shard);
    var g := RequestWave(f, id, shard, fence, attempt, at).0;
    SessionSound(h, id);
    var chunk := WaveRecord(h, id, p, attempt, at);
    if TrimSpares(s.attempts, s.activeAttempts, TimelineBound(f.policy) - 1) {
      WaveGood(f, id, shard, fence, attempt, at);
    } else {
      GrantExact(s, p, attempt, chunk, TimelineBound(f.policy));
      if Good(g) { SessionSound(g, id); }
    }
  }

  lemma WaveRecord(h: Fabric, id: SessionId, p: nat, attempt: AttemptId, at: Nanos) returns (chunk: nat)
    requires CreditOk(h.credit) && id in h.sessions && p < |h.sessions[id].shards| && Wave(h, id, p, attempt, at).1.WaveGranted?
    ensures chunk <= Remaining(h.sessions[id].shards[p])
    ensures var g := Wave(h, id, p, attempt, at).0;
            id in g.sessions && g.sessions[id] == Grant(h.sessions[id], p, attempt, chunk, TimelineBound(h.policy))
  {
    hide ObserveClass, Consume, Grant;
    chunk := Wave(h, id, p, attempt, at).1.bytes;
  }

  /** An accepted acknowledgement of an outstanding attempt counts only the bytes that no earlier report named: it
  books all that arrived exactly when nothing of the attempt had been reported before. */
  lemma AcknowledgedExact(f: Fabric, id: SessionId, shard: nat, attempt: AttemptId, sequence: nat, arrived: nat, fence: Fence, at: Nanos)
    requires Good(f) && EvidenceGate(Expire(f, at), id, fence, shard, attempt, sequence).None? && arrived > 0
    requires var s := Expire(f, at).sessions[id]; s.attempts[AttemptPosition(s.attempts, attempt)].outstanding
    requires ReportTransfer(f, id, shard, attempt, sequence, arrived, true, fence, at).1.Done?
    ensures var h, g := Expire(f, at), ReportTransfer(f, id, shard, attempt, sequence, arrived, true, fence, at).0;
            var s, p := h.sessions[id], Position(h.sessions[id].shards, shard);
            var delivered := s.attempts[AttemptPosition(s.attempts, attempt)].delivered;
            && delivered <= arrived
            && Books(g.sessions, g.pruned).transferred == Books(h.sessions, h.pruned).transferred + (arrived - delivered)
            && (id in g.sessions ==>
                  && p < |g.sessions[id].shards|
                  && g.sessions[id].shards[p].transferred == s.shards[p].transferred + (arrived - delivered)
                  && (g.sessions[id].shards[p].transferred == s.shards[p].transferred + arrived <==> delivered == 0))
  {
    hide Good, Expire, EvidenceGate, Store, Progress, MayReplace, Aged, Books, Acknowledge, Observe;
    ExpireIsScan(f, at);
    var h := Expire(f, at);
    var s := h.sessions[id];
    var p, a := Position(s.shards, shard), AttemptPosition(s.attempts, attempt);
    var t := Acked(s, p, a, arrived, h.policy.requireVerification);
    AckedRecord(h, id, p, a, arrived);
    StoreBooks(h, id, t);
    StoredRecord(h, id, t);
  }

  /** The record once the acknowledged bytes are booked. */
  function Acked(s: Session, p: nat, a: nat, arrived: nat, required: bool): Session
    requires p < |s.shards| && a < |s.attempts| && s.attempts[a].delivered <= arrived
    requires arrived - s.attempts[a].delivered <= s.ledger.outstanding
  {
    Progress(Acknowledge(Observe(s, a, arrived), p, a, arrived - s.attempts[a].delivered), required)
  }

  lemma AckedRecord(h: Fabric, id: SessionId, p: nat, a: nat, arrived: nat)
    requires Good(h) && id in h.sessions && Active(h.sessions[id]) && IsCurrent(h.sessions[id], p, a)
    requires h.sessions[id].attempts[a].delivered <= arrived <= h.sessions[id].attempts[a].granted
    requires arrived - h.sessions[id].attempts[a].delivered <= h.sessions[id].ledger.outstanding
    ensures var s := h.sessions[id];
            var t := Acked(s, p, a, arrived, h.policy.requireVerification);
            && p < |t.shards| && t.shards[p].transferred == s.shards[p].transferred + (arrived - s.attempts[a].delivered)
            && t.ledger.transferred == s.ledger.transferred + (arrived - s.attempts[a].delivered)
            && MayReplace(h, id, t)
  {
    hide Good, CoreOk, MayReplace, AllVerified, AllSettled, SomeUnresolved;
    var s := h.sessions[id];
    SessionSound(h, id);
    AcknowledgeOk(s, p, a, arrived);
    ProgressReplaces(h, id, Acknowledge(Observe(s, a, arrived), p, a, arrived - s.attempts[a].delivered));
  }

  lemma StoreBooks(h: Fabric, id: SessionId, t: Session)
    requires Good(h) && id in h.sessions && MayReplace(h, id, t)
    ensures var g := Store(h, id, t);
            Books(g.sessions, g.pruned).transferred + h.sessions[id].ledger.transferred == Books(h.sessions, h.pruned).transferred + t.ledger.transferred
  {
    hide Base, Store, MayReplace;
    StoreBase(h, id, t);
    TotalReplace(h.sessions, id, t, TransferredOf);
  }

  /** An accepted policy keeps the fabric sound exactly when it does not demand
  verification of a session that already completed without it. */
  lemma PolicyExact(f: Fabric, p: Policy, at: Nanos)
    requires Good(f) && ContractsValid(f.contracts) && ApplyPolicy(f, p, at).1.Done?
    ensures Good(ApplyPolicy(f, p, at).0) <==> PolicyDiscipline(f, p)
  {
    hide Provisioned, SessionsOk, Contracted, OneActive, ReplayOk, HistoryOk, ArchiveOk, DeadlinesBut, ClassCredit, WorkloadCredit,
      PolicyValid, ContractsValid, AllVerified, Expire;
    if PolicyDiscipline(f, p) {
      PolicyGood(f, p, at);
    } else {
      var id :| id in f.sessions && f.sessions[id].state.TrafficSessionComplete? && !AllVerified(f.sessions[id].shards);
      var g := ApplyPolicy(f, p, at).0;
      assert g.sessions[id] == f.sessions[id];
    }
  }

  lemma {:induction false} EvictKeepsUnlisted(f: Fabric, target: nat, id: SessionId)
    requires id in f.sessions && id !in f.terminalOrder
    ensures var g := Evict(f, target); id in g.sessions && g.sessions[id] == f.sessions[id] && id !in g.terminalOrder
    decreases |f.terminalOrder|
  {
    if |f.sessions| > target && f.terminalOrder != [] {
      EvictKeepsUnlisted(EvictOldest(f), target, id);
    }
  }

  /** A denied session is terminal, but no history entry leads to it, so it is never evicted. */
  lemma DenialStrands(f: Fabric, id: SessionId, t: Session)
    requires id in f.sessions && id !in f.terminalOrder && !Active(t)
    ensures var g := DenyRevalidation(f, id, t);
            id in g.sessions && g.sessions[id] == t && id !in g.terminalOrder && !HistoryOk(g.sessions, g.terminalOrder)
  {
    var g := f.(sessions := f.sessions[id := t]);
    EvictKeepsUnlisted(g, g.retentionBound * 3 / 4, id);
  }

  lemma ReplanStrands(g: Fabric, id: SessionId, at: Nanos)
    requires id in g.sessions && id !in g.terminalOrder && !Renewable(g, g.sessions[id])
    ensures var o := Replan(g, id, at).0;
            id in o.sessions && o.sessions[id].state.Failed? && id !in o.terminalOrder && !HistoryOk(o.sessions, o.terminalOrder)
  {
    hide DenyRevalidation, PlanAgain, Horizon, Revalidated, IndexDeadline, Expired, Settle, Renewable, HistoryOk;
    var s := g.sessions[id];
    DeniedExactly(g, id, at);
    FailedEnds(s);
    DenialStrands(g, id, Settle(s, Failed));
    DenialStrands(g, id, Expired(s));
  }

  lemma FailedEnds(s: Session)
    ensures Settle(s, Failed).state.Failed? && Expired(s).state.Failed?
  {
  }

  lemma ActiveUnlisted(f: Fabric, id: SessionId)
    requires Good(f) && id in f.sessions && Active(f.sessions[id])
    ensures id !in f.terminalOrder
  {
    hide SessionsOk, Contracted, OneActive, ReplayOk, ArchiveOk, DeadlinesBut, CompletionOk, Provisioned;
  }

  lemma GoodHistory(f: Fabric)
    requires Good(f)
    ensures HistoryOk(f.sessions, f.terminalOrder)
  {
    hide SessionsOk, Contracted, OneActive, ReplayOk, ArchiveOk, DeadlinesBut, CompletionOk, Provisioned, HistoryOk;
  }

  /** A revalidation that passes its checks keeps the fabric sound exactly when the ceilings in force still
  cover what the session asked for. Otherwise the session fails, but the history never learns of it. */
  lemma RevalidationExact(f: Fabric, id: SessionId, fence: Fence, at: Nanos)
    requires Good(f) && at >= 0 && Renewing(Expire(f, at), id, fence)
    ensures var h, g := Expire(f, at), Revalidate(f, id, fence, at).0;
            && (Good(g) <==> Renewable(h, h.sessions[id]))
            && (!Renewable(h, h.sessions[id]) ==> id in g.sessions && g.sessions[id].state.Failed? && id !in g.terminalOrder)
  {
    hide Good, Expire, Replan, Renewable, CheckFence, CheckpointFence, HistoryOk, Aged;
    var h, g := Expire(f, at), Revalidate(f, id, fence, at).0;
    ExpireIsScan(f, at);
    if Renewable(h, h.sessions[id]) {
      RevalidateGood(f, id, fence, at);
    } else {
      ActiveUnlisted(h, id);
      ReplanStrands(h, id, at);
      if Good(g) { GoodHistory(g); }
    }
  }

  /** Resuming a held session keeps it held exactly when it was paused in a held state. */
  lemma ResumeExact(s: Session)
    requires SessionOk(s) && s.paused && Held(s)
    ensures Held(s.(paused := false, state := s.pausedFrom)) <==> s.pausedFrom.RevalidationRequired? || s.pausedFrom.Deferred?
  {
  }

  /** A resume that passes its fence leaves a terminal session alone, and the fabric sound, exactly when the
  session did not end while it was paused. */
  lemma ResumeTerminalExact(f: Fabric, id: SessionId, fence: Fence, at: Nanos)
    requires Good(f) && Gate(Expire(f, at), id, fence).None? && IsTerminal(Expire(f, at).sessions[id].state)
    ensures var s, g := Expire(f, at).sessions[id], Resume(f, id, fence, at).0;
            && id in g.sessions
            && (g.sessions[id] == s <==> !s.paused)
            && (Good(g) <==> !s.paused)
            && (s.paused ==> Active(g.sessions[id]))
  {
    hide Good, Expire, Gate, CoreOk, FinishedOk, Aged;
    ExpireIsScan(f, at);
    var h, g := Expire(f, at), Resume(f, id, fence, at).0;
    SessionSound(h, id);
    GoodHistory(h);
    PausedFromActive(h.sessions[id]);
    if Good(g) { GoodHistory(g); }
  }

  lemma PausedFromActive(s: Session)
    requires CoreOk(s)
    ensures !IsTerminal(s.pausedFrom)
  {
  }

  /** An active session whose target has passed outlives the enforcement of deadlines exactly when the index
  does not list it, which only happens to a suspended session. */
  lemma DeadlineExact(f: Fabric, id: SessionId, at: Nanos)
    requires Good(f) && id in f.sessions && Active(f.sessions[id]) && f.sessions[id].envelope.deadline <= at
    ensures var g := Expire(f, at);
            && (id in g.sessions && Active(g.sessions[id]) <==> !Indexed(f, id))
            && (!Indexed(f, id) ==> Suspended(f.sessions[id]) && g.sessions[id] == f.sessions[id])
  {
    hide Base, Expire, Suspended, Expired;
    ExpireIsScan(f, at);
  }

  // ------------------------------------------------------------- lagging contracts

  /** A cancellation is accepted whatever contract generation its fence names: exactly when the session is
  active and the fence names the epoch, policy and topology in force. */
  lemma CancelExact(f: Fabric, id: SessionId, fence: Fence, at: Nanos)
    ensures var h := Expire(f, at);
            Cancel(f, id, fence, at).1.Done? <==> id in h.sessions && Active(h.sessions[id]) && NamesFabric(fence, f)
  {
    hide Expire, FabricFence, Store, Settle, NamesFabric;
    FabricFenceExactly(Expire(f, at), fence);
    SameRoots(f, Expire(f, at), fence);
  }

  /** The same for an ambiguity report on an attempt that is on record under its sequence. */
  lemma AmbiguousExact(f: Fabric, id: SessionId, attempt: AttemptId, sequence: nat, fence: Fence, at: Nanos)
    ensures var h := Expire(f, at);
            ReportAmbiguous(f, id, attempt, sequence, fence, at).1.Done? <==>
            && id in h.sessions && Active(h.sessions[id]) && NamesFabric(fence, f)
            && var a := AttemptPosition(h.sessions[id].attempts, attempt);
               a < |h.sessions[id].attempts| && h.sessions[id].attempts[a].sequence == sequence
  {
    hide Expire, FabricFence, Store, Progress, Disown, NamesFabric;
    FabricFenceExactly(Expire(f, at), fence);
    SameRoots(f, Expire(f, at), fence);
  }

  lemma SameRoots(f: Fabric, g: Fabric, fence: Fence)
    requires Rooted(f, g)
    ensures NamesFabric(fence, g) <==> NamesFabric(fence, f)
  {
  }

  /** A submission under a fence that names another contract generation than the one in force is not refused by
  the fence, but it admits nothing: it is refused elsewhere, denied, or a replay. */
  lemma SubmitStaleContract(f: Fabric, r: Request, fence: Fence, fingerprint: nat, id: SessionId, at: Nanos)
    requires r.workload in f.contracts ==> fence.contract != f.contracts[r.workload].generation
    ensures var o := Submit(f, r, fence, fingerprint, id, at);
            && (o.1.Refused? || o.1.Replayed? || (o.1.Decided? && o.1.kind.Deny?))
            && o.0.sessions == Expire(f, at).sessions
  {
    hide Expire, FabricFence, Remember, AdmitNew, JudgeAgainstTable, ManifestValid, DefaultPath, ShardPathsPermitted;
  }
}
