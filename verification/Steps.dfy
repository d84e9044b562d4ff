/** One command seen from one retained session: the few ways in which its record can change. Properties of
sessions over runs follow from these by looking at one record at a time. */
module Steps {
  import opened Sums
  import opened Model
  import opened Sessions
  import opened Shaper
  import opened Rates
  import opened Spec
  import opened Invariants
  import opened Commands
  import opened Runs
  import opened Theorems
  import opened Departures

  /** A report on the current attempt of a shard of a running session. */
  predicate OnCurrent(s: Session, shard: nat, attempt: AttemptId, sequence: nat) {
    var p, a := Position(s.shards, shard), AttemptPosition(s.attempts, attempt);
    Active(s) && IsCurrent(s, p, a) && s.attempts[a].sequence == sequence
  }

  /** Bytes were reported on an attempt that is still open. */
  predicate Transfers(s: Session, c: Command, required: bool, t: Session)
    requires c.TransferCmd?
  {
    var p, a := Position(s.shards, c.shard), AttemptPosition(s.attempts, c.attempt);
    && OnCurrent(s, c.shard, c.attempt, c.sequence)
    && !s.attempts[a].outcome.OutcomeAmbiguous? && !s.attempts[a].outcome.OutcomeFailed?
    && !s.attempts[a].outcome.OutcomeReleased? && !s.attempts[a].outcome.OutcomeSuperseded?
    && s.attempts[a].delivered <= c.bytes <= s.attempts[a].granted
    && (|| (c.acknowledged && t == Observe(s, a, c.bytes))
        || (!c.acknowledged && t == Progress(Unacknowledged(Observe(s, a, c.bytes), a), required))
        || (&& c.acknowledged && c.bytes - s.attempts[a].delivered <= s.ledger.outstanding
            && t == Progress(Acknowledge(Observe(s, a, c.bytes), p, a, c.bytes - s.attempts[a].delivered), required)))
  }

  /** The verdict names the size and, unless none was declared, the digest of the shard. */
  predicate NamesContent(h: Shard, bytes: nat, digest: ContentDigest) {
    bytes == h.declared && (h.digest == ContentDigest(0, 0xCBF29CE484222325) || digest == h.digest)
  }

  /** A verdict was passed on the current attempt of a shard. */
  predicate Judges(s: Session, c: Command, o: Outcome, required: bool, t: Session)
    requires c.VerifyCmd?
  {
    var p, a := Position(s.shards, c.shard), AttemptPosition(s.attempts, c.attempt);
    && OnCurrent(s, c.shard, c.attempt, c.sequence)
    && match c.outcome
       case Verified =>
         && (s.attempts[a].outcome.OutcomeDeliveredAcked? || s.attempts[a].outcome.OutcomeVerified?)
         && if NamesContent(s.shards[p], c.bytes, c.digest) then o == Done && t == Progress(Verify(s, p, a), required)
            else o == Refused(VerificationMismatchError) && t == Settle(Reject(s, p, a), Failed)
       case DigestMismatch => o == Done && t == Settle(Reject(s, p, a), Failed)
       case Truncated => o == Done && t == Progress(Truncate(s, p, a), required)
       case _ => o == Done && t == Progress(Doubt(s, p, a), required)
  }

  /** The record `t` that a command, answered with `o`, can leave in place of `s`. */
  ghost predicate Becomes(h: Fabric, c: Command, o: Outcome, id: SessionId, s: Session, t: Session) {
    || t == s
    || match c
       case SubmitCmd(_, _, _, newer) => Active(s) && t == SupersededSession(s, newer)
       case RevalidateCmd(k, _) =>
         && k == id && (s.state.RevalidationRequired? || s.state.Deferred?)
         && (|| (exists rate, deadline :: t == Revalidated(s, s.envelope.path, rate, deadline))
             || t == s.(state := Deferred) || t == Settle(s, Failed) || t == Expired(s))
       case PauseCmd(k, _) => k == id && Active(s) && t == s.(paused := true, pausedFrom := s.state, state := Model.Paused)
       case ResumeCmd(k, _) => k == id && s.paused && t == s.(paused := false, state := s.pausedFrom)
       case CancelCmd(k, _) => k == id && Active(s) && t == Settle(CancelOutstanding(s), Model.Cancelled)
       case WaveCmd(k, shard, _, attempt) =>
         && k == id && Active(s) && o.WaveGranted? && Position(s.shards, shard) < |s.shards|
         && t == Grant(s, Position(s.shards, shard), attempt, o.bytes, TimelineBound(h.policy))
       case SourceCmd(k, shard, bytes, _) =>
         && k == id && Active(s) && Position(s.shards, shard) < |s.shards|
         && t == Progress(NoteSource(s, Position(s.shards, shard), bytes), h.policy.requireVerification)
       case TransferCmd(k, _, _, _, _, _, _) => k == id && Transfers(s, c, h.policy.requireVerification, t)
       case VerifyCmd(k, _, _, _, _, _, _, _) => k == id && Judges(s, c, o, h.policy.requireVerification, t)
       case AmbiguousCmd(k, attempt, _, _) =>
         && k == id && Active(s) && AttemptPosition(s.attempts, attempt) < |s.attempts|
         && t == Progress(Disown(s, AttemptPosition(s.attempts, attempt)), h.policy.requireVerification)
       case PolicyCmd(_) => t == Demand(s)
       case TopologyCmd(_) => t == Demand(s)
       case ContractCmd(_) => t == Demand(s)
       case EpochCmd(_) => t == Restarted(s)
       case PollCmd => false
       case ShutdownCmd => false
  }

  // ------------------------------------------------------------------- storing

  /** Storing one record leaves every other retained one alone. */
  lemma StoredOther(f: Fabric, id: SessionId, t: Session, k: SessionId)
    requires k in Store(f, id, t).sessions
    ensures k == id || (k in f.sessions && Store(f, id, t).sessions[k] == f.sessions[k])
    ensures k == id ==> Store(f, id, t).sessions[k] == t
  {
    hide Evict;
    var g := f.(sessions := f.sessions[id := t], terminalOrder := f.terminalOrder + [id]);
    if k in Evict(g, g.retentionBound * 3 / 4).sessions { EvictRecord(g, g.retentionBound * 3 / 4, k); }
  }

  /** The table after storing a record: that record unless it was evicted at once, and others as they were. */
  lemma StoredTable(f: Fabric, id: SessionId, t: Session)
    ensures forall k :: k in Store(f, id, t).sessions ==>
              if k == id then Store(f, id, t).sessions[k] == t else k in f.sessions && Store(f, id, t).sessions[k] == f.sessions[k]
  {
    hide Store;
    forall k | k in Store(f, id, t).sessions
      ensures if k == id then Store(f, id, t).sessions[k] == t else k in f.sessions && Store(f, id, t).sessions[k] == f.sessions[k]
    {
      StoredOther(f, id, t, k);
    }
  }

  lemma PrunedOther(f: Fabric, id: SessionId, t: Session, k: SessionId)
    requires k in DenyRevalidation(f, id, t).sessions
    ensures k == id || (k in f.sessions && DenyRevalidation(f, id, t).sessions[k] == f.sessions[k])
    ensures k == id ==> DenyRevalidation(f, id, t).sessions[k] == t
  {
    hide Evict;
    var g := f.(sessions := f.sessions[id := t]);
    if k in Evict(g, g.retentionBound * 3 / 4).sessions { EvictRecord(g, g.retentionBound * 3 / 4, k); }
  }

  // ------------------------------------------------------------- one command

  lemma SelfBecomes(h: Fabric, c: Command, o: Outcome, id: SessionId, s: Session)
    ensures Becomes(h, c, o, id, s, s)
  {
  }

  lemma SubmitBecomes(h: Fabric, c: Command, at: Nanos, id: SessionId)
    requires c.SubmitCmd? && c.id !in h.sessions && id in h.sessions
    ensures var o := Decide(h, c.request, c.fingerprint, c.id, at);
            id in o.0.sessions ==> Becomes(h, c, o.1, id, h.sessions[id], o.0.sessions[id])
  {
    hide Judge, Remember, NewSession, IndexDeadline, Store, SupersededSession, Horizon;
    var rival := Rival(h.sessions, c.request.checkpoint);
    if rival.Some? {
      var t := SupersededSession(h.sessions[rival.value], c.id);
      assert IsRival(h.sessions, c.request.checkpoint, rival.value);
      if id in Store(h, rival.value, t).sessions { StoredOther(h, rival.value, t, id); }
    }
  }

  lemma PrunedBecomes(h: Fabric, c: Command, o: Outcome, k: SessionId, t: Session, id: SessionId)
    requires k in h.sessions && id in h.sessions && Becomes(h, c, o, k, h.sessions[k], t)
    ensures id in DenyRevalidation(h, k, t).sessions ==> Becomes(h, c, o, id, h.sessions[id], DenyRevalidation(h, k, t).sessions[id])
  {
    hide DenyRevalidation, Becomes;
    SelfBecomes(h, c, o, id, h.sessions[id]);
    if id in DenyRevalidation(h, k, t).sessions { PrunedOther(h, k, t, id); }
  }

  lemma RenewalBecomes(h: Fabric, c: Command, o: Outcome, id: SessionId, rate: nat, deadline: Nanos)
    requires c.RevalidateCmd? && c.id in h.sessions && id in h.sessions
    requires h.sessions[c.id].state.RevalidationRequired? || h.sessions[c.id].state.Deferred?
    ensures var s := h.sessions[c.id];
            && Becomes(h, c, o, c.id, s, Settle(s, Failed)) && Becomes(h, c, o, c.id, s, Expired(s))
            && Becomes(h, c, o, id, h.sessions[id], h.sessions[id])
            && Becomes(h, c, o, id, h.sessions[id], h.sessions[c.id := s.(state := Deferred)][id])
            && Becomes(h, c, o, id, h.sessions[id], h.sessions[c.id := Revalidated(s, s.envelope.path, rate, deadline)][id])
  {
    hide Settle, Expired, Revalidated;
  }

  lemma ReplanBecomes(h: Fabric, c: Command, at: Nanos, id: SessionId)
    requires c.RevalidateCmd? && c.id in h.sessions && id in h.sessions
    requires h.sessions[c.id].state.RevalidationRequired? || h.sessions[c.id].state.Deferred?
    ensures var o := Replan(h, c.id, at);
            id in o.0.sessions ==> Becomes(h, c, o.1, id, h.sessions[id], o.0.sessions[id])
  {
    hide PlanAgain, Horizon, DenyRevalidation, Revalidated, IndexDeadline, Expired, Settle, Becomes;
    var s, o := h.sessions[c.id], Replan(h, c.id, at).1;
    forall rate: nat, deadline: Nanos
      ensures Becomes(h, c, o, id, h.sessions[id], h.sessions[c.id := Revalidated(s, s.envelope.path, rate, deadline)][id])
    {
      RenewalBecomes(h, c, o, id, rate, deadline);
    }
    RenewalBecomes(h, c, o, id, 0, 0);
    PrunedBecomes(h, c, o, c.id, Settle(s, Failed), id);
    PrunedBecomes(h, c, o, c.id, Expired(s), id);
  }

  lemma WaveBecomes(h: Fabric, c: Command, p: nat, at: Nanos, id: SessionId)
    requires c.WaveCmd? && CreditOk(h.credit) && c.id in h.sessions && id in h.sessions && Active(h.sessions[c.id])
    requires p == Position(h.sessions[c.id].shards, c.shard) < |h.sessions[c.id].shards|
    ensures var o := Wave(h, c.id, p, c.attempt, at);
            id in o.0.sessions && Becomes(h, c, o.1, id, h.sessions[id], o.0.sessions[id])
  {
    hide ObserveClass, Consume, Grant, Position, Remaining;
  }

  lemma StoredBecomes(h: Fabric, c: Command, o: Outcome, k: SessionId, t: Session, id: SessionId)
    requires k in h.sessions && id in h.sessions && Becomes(h, c, o, k, h.sessions[k], t)
    ensures id in Store(h, k, t).sessions ==> Becomes(h, c, o, id, h.sessions[id], Store(h, k, t).sessions[id])
  {
    hide Store, Becomes;
    SelfBecomes(h, c, o, id, h.sessions[id]);
    if id in Store(h, k, t).sessions { StoredOther(h, k, t, id); }
  }

  lemma JudgedBecomes(h: Fabric, c: Command, id: SessionId)
    requires c.VerifyCmd? && c.id in h.sessions && id in h.sessions && OnCurrent(h.sessions[c.id], c.shard, c.attempt, c.sequence)
    ensures var s := h.sessions[c.id];
            var o := Judged(h, c.id, Position(s.shards, c.shard), AttemptPosition(s.attempts, c.attempt), c.outcome, c.bytes, c.digest);
            id in o.0.sessions ==> Becomes(h, c, o.1, id, h.sessions[id], o.0.sessions[id])
  {
    hide Store, Progress, Settle, Verify, Reject, Truncate, Doubt, Position, AttemptPosition, Becomes, OnCurrent;
    var s, required := h.sessions[c.id], h.policy.requireVerification;
    var p, a := Position(s.shards, c.shard), AttemptPosition(s.attempts, c.attempt);
    CurrentPositions(s, c.shard, c.attempt, c.sequence);
    SelfBecomes(h, c, Refused(StaleEvidence), id, h.sessions[id]);
    if !c.outcome.Verified? || IsAcked(s.attempts[a]) {
      var o := Judged(h, c.id, p, a, c.outcome, c.bytes, c.digest).1;
      var t := JudgedRecord(h, c, o);
      StoredBecomes(h, c, o, c.id, t, id);
    }
  }

  lemma CurrentPositions(s: Session, shard: nat, attempt: AttemptId, sequence: nat)
    requires OnCurrent(s, shard, attempt, sequence)
    ensures IsCurrent(s, Position(s.shards, shard), AttemptPosition(s.attempts, attempt))
  {
  }

  lemma JudgedRecord(h: Fabric, c: Command, o: Outcome) returns (t: Session)
    requires c.VerifyCmd? && c.id in h.sessions && OnCurrent(h.sessions[c.id], c.shard, c.attempt, c.sequence)
    requires var s := h.sessions[c.id];
             && (c.outcome.Verified? ==> IsAcked(s.attempts[AttemptPosition(s.attempts, c.attempt)]))
             && o == Judged(h, c.id, Position(s.shards, c.shard), AttemptPosition(s.attempts, c.attempt), c.outcome, c.bytes, c.digest).1
    ensures var s := h.sessions[c.id];
            Judged(h, c.id, Position(s.shards, c.shard), AttemptPosition(s.attempts, c.attempt), c.outcome, c.bytes, c.digest).0
            == Store(h, c.id, t)
    ensures Judges(h.sessions[c.id], c, o, h.policy.requireVerification, t)
    ensures Becomes(h, c, o, c.id, h.sessions[c.id], t)
  {
    hide Store, Progress, Settle, Verify, Reject, Truncate, Doubt, Position, AttemptPosition;
    var s, required := h.sessions[c.id], h.policy.requireVerification;
    var p, a := Position(s.shards, c.shard), AttemptPosition(s.attempts, c.attempt);
    t := match c.outcome
         case Verified => if NamesContent(s.shards[p], c.bytes, c.digest) then Progress(Verify(s, p, a), required)
                          else Settle(Reject(s, p, a), Failed)
         case DigestMismatch => Settle(Reject(s, p, a), Failed)
         case Truncated => Progress(Truncate(s, p, a), required)
         case _ => Progress(Doubt(s, p, a), required);
  }

  lemma CurrentGate(h: Fabric, id: SessionId, fence: Fence, shard: nat, attempt: AttemptId, sequence: nat)
    requires EvidenceGate(h, id, fence, shard, attempt, sequence).None?
    ensures id in h.sessions && OnCurrent(h.sessions[id], shard, attempt, sequence)
  {
    hide Gate, Position, AttemptPosition;
  }

  lemma TransferBecomes(f: Fabric, c: Command, at: Nanos, id: SessionId)
    requires c.TransferCmd? && id in Expire(f, at).sessions
    ensures var h, o := Expire(f, at), ReportTransfer(f, c.id, c.shard, c.attempt, c.sequence, c.bytes, c.acknowledged, c.fence, at);
            id in o.0.sessions ==> Becomes(h, c, o.1, id, h.sessions[id], o.0.sessions[id])
  {
    hide Store, Progress, Unacknowledged, Acknowledge, Position, AttemptPosition, EvidenceGate, Expire, Becomes, OnCurrent;
    var h, o := Expire(f, at), ReportTransfer(f, c.id, c.shard, c.attempt, c.sequence, c.bytes, c.acknowledged, c.fence, at);
    SelfBecomes(h, c, o.1, id, h.sessions[id]);
    if EvidenceGate(h, c.id, c.fence, c.shard, c.attempt, c.sequence).None? {
      CurrentGate(h, c.id, c.fence, c.shard, c.attempt, c.sequence);
      var s, required := h.sessions[c.id], h.policy.requireVerification;
      var p, a := Position(s.shards, c.shard), AttemptPosition(s.attempts, c.attempt);
      if SettledOutcome(s.attempts[a].outcome).None? && s.attempts[a].delivered <= c.bytes <= s.attempts[a].granted {
        TransferRecord(h, c, o.1);
        var seen := Observe(s, a, c.bytes);
        if !c.acknowledged {
          StoredBecomes(h, c, o.1, c.id, Progress(Unacknowledged(seen, a), required), id);
        } else if c.bytes - s.attempts[a].delivered <= s.ledger.outstanding {
          StoredBecomes(h, c, o.1, c.id, Progress(Acknowledge(seen, p, a, c.bytes - s.attempts[a].delivered), required), id);
        }
      }
    }
  }

  lemma TransferRecord(h: Fabric, c: Command, o: Outcome)
    requires c.TransferCmd? && c.id in h.sessions && OnCurrent(h.sessions[c.id], c.shard, c.attempt, c.sequence)
    requires var s := h.sessions[c.id];
             var a := AttemptPosition(s.attempts, c.attempt);
             && SettledOutcome(s.attempts[a].outcome).None?
             && s.attempts[a].delivered <= c.bytes <= s.attempts[a].granted
    ensures var s := h.sessions[c.id];
            var required := h.policy.requireVerification;
            var p, a := Position(s.shards, c.shard), AttemptPosition(s.attempts, c.attempt);
            var seen := Observe(s, a, c.bytes);
            if !c.acknowledged then Becomes(h, c, o, c.id, s, Progress(Unacknowledged(seen, a), required))
            else if c.bytes - s.attempts[a].delivered > s.ledger.outstanding then Becomes(h, c, o, c.id, s, seen)
            else Becomes(h, c, o, c.id, s, Progress(Acknowledge(seen, p, a, c.bytes - s.attempts[a].delivered), required))
  {
    hide Progress, Unacknowledged, Acknowledge, Position, AttemptPosition;
  }

  lemma VerificationBecomes(f: Fabric, c: Command, at: Nanos, id: SessionId)
    requires c.VerifyCmd? && id in Expire(f, at).sessions
    ensures var h, o := Expire(f, at), ReportVerification(f, c.id, c.shard, c.attempt, c.sequence, c.outcome, c.bytes, c.digest, c.fence, at);
            id in o.0.sessions ==> Becomes(h, c, o.1, id, h.sessions[id], o.0.sessions[id])
  {
    hide Position, AttemptPosition, EvidenceGate, VerdictRefusal, Expire, Becomes, OnCurrent, Judged;
    var h, o := Expire(f, at), ReportVerification(f, c.id, c.shard, c.attempt, c.sequence, c.outcome, c.bytes, c.digest, c.fence, at);
    SelfBecomes(h, c, o.1, id, h.sessions[id]);
    if EvidenceGate(h, c.id, c.fence, c.shard, c.attempt, c.sequence).None? {
      CurrentGate(h, c.id, c.fence, c.shard, c.attempt, c.sequence);
      JudgedBecomes(h, c, id);
    }
  }

  lemma SourceBecomes(f: Fabric, c: Command, at: Nanos, id: SessionId)
    requires c.SourceCmd? && id in Expire(f, at).sessions
    ensures var h, o := Expire(f, at), ReportSourceComplete(f, c.id, c.shard, c.bytes, c.fence, at);
            id in o.0.sessions ==> Becomes(h, c, o.1, id, h.sessions[id], o.0.sessions[id])
  {
    hide Store, Progress, NoteSource, Position, Gate, Expire;
    var h, o := Expire(f, at), ReportSourceComplete(f, c.id, c.shard, c.bytes, c.fence, at);
    SelfBecomes(h, c, o.1, id, h.sessions[id]);
    if c.id in h.sessions && Active(h.sessions[c.id]) && Position(h.sessions[c.id].shards, c.shard) < |h.sessions[c.id].shards| {
      var s := h.sessions[c.id];
      StoredBecomes(h, c, o.1, c.id, Progress(NoteSource(s, Position(s.shards, c.shard), c.bytes), h.policy.requireVerification), id);
    }
  }

  lemma AmbiguousBecomes(f: Fabric, c: Command, at: Nanos, id: SessionId)
    requires c.AmbiguousCmd? && id in Expire(f, at).sessions
    ensures var h, o := Expire(f, at), ReportAmbiguous(f, c.id, c.attempt, c.sequence, c.fence, at);
            id in o.0.sessions ==> Becomes(h, c, o.1, id, h.sessions[id], o.0.sessions[id])
  {
    hide Store, Progress, Disown, AttemptPosition, FabricFence, Expire;
    var h, o := Expire(f, at), ReportAmbiguous(f, c.id, c.attempt, c.sequence, c.fence, at);
    SelfBecomes(h, c, o.1, id, h.sessions[id]);
    if c.id in h.sessions && Active(h.sessions[c.id]) && AttemptPosition(h.sessions[c.id].attempts, c.attempt) < |h.sessions[c.id].attempts| {
      var s := h.sessions[c.id];
      StoredBecomes(h, c, o.1, c.id, Progress(Disown(s, AttemptPosition(s.attempts, c.attempt)), h.policy.requireVerification), id);
    }
  }

  lemma CancelBecomes(f: Fabric, c: Command, at: Nanos, id: SessionId)
    requires c.CancelCmd? && id in Expire(f, at).sessions
    ensures var h, o := Expire(f, at), Cancel(f, c.id, c.fence, at);
            id in o.0.sessions ==> Becomes(h, c, o.1, id, h.sessions[id], o.0.sessions[id])
  {
    hide Store, Settle, CancelOutstanding, FabricFence, Expire;
    var h, o := Expire(f, at), Cancel(f, c.id, c.fence, at);
    SelfBecomes(h, c, o.1, id, h.sessions[id]);
    if c.id in h.sessions && Active(h.sessions[c.id]) {
      StoredBecomes(h, c, o.1, c.id, Settle(CancelOutstanding(h.sessions[c.id]), Model.Cancelled), id);
    }
  }

  lemma LifecycleBecomes(f: Fabric, c: Command, at: Nanos, id: SessionId)
    requires Good(f) && (c.SubmitCmd? || c.RevalidateCmd? || c.PauseCmd? || c.ResumeCmd? || c.WaveCmd?)
    requires (c.SubmitCmd? ==> c.id !in Expire(f, at).sessions) && id in Expire(f, at).sessions
    ensures var h, o := Expire(f, at), Step(f, c, at);
            id in o.0.sessions ==> Becomes(h, c, o.1, id, h.sessions[id], o.0.sessions[id])
  {
    hide Good, Expire, Gate, FabricFence, CheckFence, CheckpointFence, Decide, Replan, WaveGate, Wave, Position;
    var h := Expire(f, at);
    ProvisionedCredit(f);
    match c
    case SubmitCmd(_, _, _, _) => SubmitBecomes(h, c, at, id);
    case RevalidateCmd(k, fence) =>
      if k in h.sessions && (h.sessions[k].state.RevalidationRequired? || h.sessions[k].state.Deferred?) { ReplanBecomes(h, c, at, id); }
    case WaveCmd(k, shard, fence, _) =>
      if WaveGate(h, k, shard, fence, at).None? { WaveBecomes(h, c, Position(h.sessions[k].shards, shard), at, id); }
    case _ =>
  }

  lemma AuthorityBecomes(f: Fabric, c: Command, at: Nanos, id: SessionId)
    requires Good(f) && (c.PolicyCmd? || c.TopologyCmd? || c.ContractCmd? || c.EpochCmd?) && id in f.sessions
    ensures var o := Step(f, c, at);
            id in o.0.sessions ==> Becomes(f, c, o.1, id, f.sessions[id], o.0.sessions[id])
  {
    hide Good, Demand, Restarted, PolicyValid, TopologyValid, ContractValid, ContractsValid, ClassCredit, WorkloadCredit, Configured;
    ProvisionedContracts(f);
  }

  lemma EvidenceBecomes(f: Fabric, c: Command, at: Nanos, id: SessionId)
    requires Good(f) && (c.CancelCmd? || c.SourceCmd? || c.TransferCmd? || c.VerifyCmd? || c.AmbiguousCmd?)
    requires id in Expire(f, at).sessions
    ensures var h, o := Expire(f, at), Step(f, c, at);
            id in o.0.sessions ==> Becomes(h, c, o.1, id, h.sessions[id], o.0.sessions[id])
  {
    hide Good, Expire, Cancel, ReportSourceComplete, ReportTransfer, ReportVerification, ReportAmbiguous, Becomes;
    match c
    case CancelCmd(_, _) => CancelBecomes(f, c, at, id);
    case SourceCmd(_, _, _, _) => SourceBecomes(f, c, at, id);
    case TransferCmd(_, _, _, _, _, _, _) => TransferBecomes(f, c, at, id);
    case VerifyCmd(_, _, _, _, _, _, _, _) => VerificationBecomes(f, c, at, id);
    case AmbiguousCmd(_, _, _, _) => AmbiguousBecomes(f, c, at, id);
  }

  lemma IdleBecomes(f: Fabric, c: Command, at: Nanos, id: SessionId)
    requires Good(f) && (c.PollCmd? || c.ShutdownCmd?) && id in Observed(f, c, at).sessions
    ensures var h, o := Observed(f, c, at), Step(f, c, at);
            id in o.0.sessions ==> Becomes(h, c, o.1, id, h.sessions[id], o.0.sessions[id])
  {
    hide Good, Expire;
  }

  lemma ObservedBecomes(f: Fabric, c: Command, at: Nanos, id: SessionId)
    requires Good(f) && (c.SubmitCmd? ==> c.id !in Expire(f, at).sessions)
    requires id in Observed(f, c, at).sessions
    ensures var h, o := Observed(f, c, at), Step(f, c, at);
            id in o.0.sessions ==> Becomes(h, c, o.1, id, h.sessions[id], o.0.sessions[id])
  {
    hide Good, Expire, Becomes, Step;
    if c.PollCmd? || c.ShutdownCmd? { IdleBecomes(f, c, at, id); }
    else if c.PolicyCmd? || c.TopologyCmd? || c.ContractCmd? || c.EpochCmd? { AuthorityBecomes(f, c, at, id); }
    else if c.CancelCmd? || c.SourceCmd? || c.TransferCmd? || c.VerifyCmd? || c.AmbiguousCmd? { EvidenceBecomes(f, c, at, id); }
    else { LifecycleBecomes(f, c, at, id); }
  }

  /** A command first ends the sessions whose deadline passed, then changes each record in one of the ways above. */
  lemma StepBecomes(f: Fabric, c: Command, at: Nanos, id: SessionId)
    requires Good(f) && (c.SubmitCmd? ==> c.id !in f.sessions)
    requires id in f.sessions && id in Observed(f, c, at).sessions
    ensures var h, o := Observed(f, c, at), Step(f, c, at);
            && (h.sessions[id] == f.sessions[id]
                || (Active(f.sessions[id]) && f.sessions[id].envelope.deadline <= at && h.sessions[id] == Expired(f.sessions[id])))
            && (id in o.0.sessions ==> Becomes(h, c, o.1, id, h.sessions[id], o.0.sessions[id]))
  {
    hide Good, Expire, Becomes, Step, Expired;
    ExpireIsScan(f, at);
    ObservedBecomes(f, c, at, id);
  }

  // ------------------------------------------------------------------- runs

  lemma StepKeys(f: Fabric, c: Command, at: Nanos)
    requires Good(f) && Disciplined(f, c, at)
    ensures Step(f, c, at).0.sessions.Keys <= Observed(f, c, at).sessions.Keys + if c.SubmitCmd? then {c.id} else {}
    ensures Observed(f, c, at).sessions.Keys <= f.sessions.Keys
  {
    hide Good, Expire, Step, TableFollows, Advances, Follows;
    ObservedFollows(f, c, at);
    if c.RevalidateCmd? { RenewalKeys(f, c, at); }
    else if c.ResumeCmd? { ResumeKeys(f, c, at); }
    else { StepFollowsObserved(f, c, at); }
  }

  lemma RenewalKeys(f: Fabric, c: Command, at: Nanos)
    requires Good(f) && Disciplined(f, c, at) && c.RevalidateCmd?
    ensures Step(f, c, at).0.sessions.Keys == Expire(f, at).sessions.Keys
  {
    hide Good, Expire, Revalidate, Advances, Follows;
    RevalidateFollows(f, c.id, c.fence, at);
  }

  /** The record that a command of a run starts from. */
  ghost function Before(states: seq<Fabric>, events: seq<Event>, k: nat): Fabric
    requires k < |events| && k < |states|
  {
    Observed(states[k], events[k].command, events[k].at)
  }

  lemma TerminalBecomes(h: Fabric, c: Command, o: Outcome, id: SessionId, s: Session, t: Session)
    requires !Active(s) && !s.paused && Becomes(h, c, o, id, s, t)
    ensures t == s
  {
    hide Progress, Settle, Grant, NoteSource, Disown, Position, AttemptPosition, Revalidated, SupersededSession, Expired;
  }

  /** One event of a run, seen from a session retained before and after it: its deadline had passed and
  the session ended, or its record changed in one of the ways above. */
  lemma LinkBecomes(states: seq<Fabric>, events: seq<Event>, start: Nanos, k: nat, id: SessionId)
    requires Run(states, events, start) && k < |events|
    requires id in states[k].sessions && id in states[k + 1].sessions
    ensures var s, t, h := states[k].sessions[id], states[k + 1].sessions[id], Before(states, events, k);
            || (Active(s) && s.envelope.deadline <= events[k].at && t == Expired(s))
            || (&& id in h.sessions && h.sessions[id] == s
                && Becomes(h, events[k].command, Answer(states, events, k), id, s, t))
  {
    hide Good, Initial, Step, Becomes, Expired, Expire, WaveGate, Gate, EvidenceGate;
    RunStaysGood(states, events, start, k);
    assert Linked(states[k], events[k], states[k + 1]);
    StepKeys(states[k], events[k].command, events[k].at);
    StepBecomes(states[k], events[k].command, events[k].at, id);
    var s, t, h := states[k].sessions[id], states[k + 1].sessions[id], Before(states, events, k);
    if h.sessions[id] != s {
      assert !Expired(s).paused by { ExpiredUnpaused(s); }
      TerminalBecomes(h, events[k].command, Answer(states, events, k), id, Expired(s), t);
    }
  }

  lemma ExpiredUnpaused(s: Session)
    ensures !Expired(s).paused
  {
  }

  lemma StartsEmpty(states: seq<Fabric>, events: seq<Event>, start: Nanos)
    requires Run(states, events, start)
    ensures |states| > 0 && states[0].sessions == map[]
  {
  }
}
