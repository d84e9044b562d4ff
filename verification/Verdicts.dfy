/** Which evidence is accepted, what it changes, and what it can never do over a whole run: a byte of an
attempt of unknown fate is never booked, and no shard is verified but by a verdict that names its content. */
module Verdicts {
  import opened Sums
  import opened Model
  import opened Sessions
  import opened Shaper
  import opened Rates
  import opened Spec
  import opened Invariants
  import opened Commands
  import opened Runs
  import opened Theorems
  import opened Departures
  import opened Steps
  import opened Grants

  // ------------------------------------------------------------ address

  /** The evidence is about the current attempt of the p-th shard, on record at a, of a session that is not over. */
  predicate Addressed(f: Fabric, id: SessionId, shard: nat, attempt: AttemptId, sequence: nat, fence: Fence, p: nat, a: nat) {
    && id in f.sessions
    && var s := f.sessions[id];
       && Authorised(f, s, fence)
       && !s.state.TrafficSessionComplete? && !s.state.Cancelled? && !s.state.Superseded? && !s.state.Failed?
       && p < |s.shards| && s.shards[p].index == shard && s.shards[p].attempt == Some(attempt)
       && a < |s.attempts| && s.attempts[a].id == attempt && s.attempts[a].sequence == sequence
  }

  lemma OnlyAttempt(s: Session, a: nat)
    requires CoreOk(s) && a < |s.attempts|
    ensures AttemptPosition(s.attempts, s.attempts[a].id) == a
  {
    hide CoreOk;
    SoundIds(s);
  }

  lemma EvidenceGateExact(f: Fabric, id: SessionId, fence: Fence, shard: nat, attempt: AttemptId, sequence: nat)
    requires id in f.sessions ==> CoreOk(f.sessions[id])
    ensures EvidenceGate(f, id, fence, shard, attempt, sequence).None? <==>
            exists p, a :: Addressed(f, id, shard, attempt, sequence, fence, p, a)
    ensures forall p, a :: Addressed(f, id, shard, attempt, sequence, fence, p, a) ==>
              p == Position(f.sessions[id].shards, shard) && a == AttemptPosition(f.sessions[id].attempts, attempt)
  {
    hide Gate, Authorised, CoreOk, Position, AttemptPosition;
    GateExact(f, id, fence);
    forall p, a | Addressed(f, id, shard, attempt, sequence, fence, p, a)
      ensures p == Position(f.sessions[id].shards, shard) && a == AttemptPosition(f.sessions[id].attempts, attempt)
    {
      OnlyPosition(f.sessions[id], p);
      OnlyAttempt(f.sessions[id], a);
    }
    if EvidenceGate(f, id, fence, shard, attempt, sequence).None? {
      var s := f.sessions[id];
      assert Addressed(f, id, shard, attempt, sequence, fence, Position(s.shards, shard), AttemptPosition(s.attempts, attempt));
    }
  }

  // ------------------------------------------------------------ transfers

  /** The attempt is over: its fate is unknown, it failed, or its session gave it up. */
  predicate Dead(o: AttemptOutcome) {
    o.OutcomeAmbiguous? || o.OutcomeFailed? || o.OutcomeReleased? || o.OutcomeSuperseded?
  }

  /** What a transfer report that is acted on leaves on record. */
  predicate Booked(s: Session, p: nat, a: nat, bytes: nat, acknowledged: bool, t: Session)
    requires p < |s.shards| && a < |s.attempts| && s.attempts[a].delivered <= bytes
    requires acknowledged ==> bytes - s.attempts[a].delivered <= s.ledger.outstanding
  {
    var h, b, l := s.shards[p], s.attempts[a], s.ledger;
    if !acknowledged then
      && t.shards == s.shards && t.attempts == s.attempts[a := b.(delivered := bytes, outcome := OutcomeDeliveredUnacked)]
      && t.activeAttempts == s.activeAttempts && BooksAs(t, l)
    else
      var newly := bytes - b.delivered;
      && t.shards == s.shards[p := h.(transferred := h.transferred + newly,
                                      state := if h.transferred + newly >= h.declared && !h.state.ShardVerified? then ShardTransferred else h.state)]
      && t.attempts == s.attempts[a := b.(delivered := bytes, outcome := OutcomeDeliveredAcked, outstanding := false)]
      && (t.activeAttempts == if s.activeAttempts > 0 then s.activeAttempts - 1 else 0)
      && BooksAs(t, l.(transferred := l.transferred + newly, outstanding := l.outstanding - newly))
  }

  lemma ReportBooked(s: Session, p: nat, a: nat, bytes: nat, acknowledged: bool, required: bool)
    requires Active(s) && p < |s.shards| && a < |s.attempts| && s.attempts[a].delivered <= bytes
    requires acknowledged ==> bytes - s.attempts[a].delivered <= s.ledger.outstanding
    ensures var seen := Observe(s, a, bytes);
            Booked(s, p, a, bytes, acknowledged,
                   Progress(if acknowledged then Acknowledge(seen, p, a, bytes - s.attempts[a].delivered) else Unacknowledged(seen, a), required))
  {
    hide Progress, BooksAs;
    var seen := Observe(s, a, bytes);
    var u := if acknowledged then Acknowledge(seen, p, a, bytes - s.attempts[a].delivered) else Unacknowledged(seen, a);
    ProgressKeeps(u, required);
    ProgressBooks(u, required);
  }

  /** Exactly which transfer reports are acted on, and what they book. */
  lemma TransferDecides(f: Fabric, c: Command, at: Nanos, p: nat, a: nat)
    requires Good(f) && c.TransferCmd?
    ensures var h, o := Expire(f, at), Step(f, c, at);
            && ((forall q, b :: !Addressed(h, c.id, c.shard, c.attempt, c.sequence, c.fence, q, b)) ==> o.0 == h && o.1.Refused?)
            && (Addressed(h, c.id, c.shard, c.attempt, c.sequence, c.fence, p, a) ==>
                  var s := h.sessions[c.id];
                  var t := s.attempts[a];
                  if t.outcome.OutcomeAmbiguous? then o == (h, Refused(AmbiguousOutcomeError))
                  else if t.outcome.OutcomeFailed? then o == (h, Refused(InvalidStateTransition))
                  else if t.outcome.OutcomeReleased? || t.outcome.OutcomeSuperseded? then o == (h, Refused(StaleEvidence))
                  else if c.bytes < t.delivered || t.granted < c.bytes then o == (h, Refused(ImpossibleState))
                  else if c.acknowledged && c.bytes - t.delivered > s.ledger.outstanding then
                    && o.1 == Refused(ImpossibleState)
                    && o.0 == h.(sessions := h.sessions[c.id := s.(attempts := s.attempts[a := t.(delivered := c.bytes)])])
                  else o.1 == Done && (c.id in o.0.sessions ==> Booked(s, p, a, c.bytes, c.acknowledged, o.0.sessions[c.id])))
  {
    hide Good, Expire, Aged, EvidenceGate, Addressed, CoreOk, SessionOk, Position, AttemptPosition, Store, Progress, Booked,
      Acknowledge, Unacknowledged;
    ExpireIsScan(f, at);
    var h := Expire(f, at);
    if c.id in h.sessions { SessionSound(h, c.id); }
    EvidenceGateExact(h, c.id, c.fence, c.shard, c.attempt, c.sequence);
    if Addressed(h, c.id, c.shard, c.attempt, c.sequence, c.fence, p, a) {
      AddressedWithin(h, c, p, a);
      var s := h.sessions[c.id];
      if !Dead(s.attempts[a].outcome) && s.attempts[a].delivered <= c.bytes <= s.attempts[a].granted
         && (c.acknowledged ==> c.bytes - s.attempts[a].delivered <= s.ledger.outstanding) {
        TransferBooks(h, c, p, a);
      }
    }
  }

  lemma AddressedWithin(h: Fabric, c: Command, p: nat, a: nat)
    requires c.TransferCmd? || c.VerifyCmd?
    requires Addressed(h, c.id, c.shard, c.attempt, c.sequence, c.fence, p, a)
    ensures c.id in h.sessions && Active(h.sessions[c.id]) && IsCurrent(h.sessions[c.id], p, a)
  {
  }

  lemma TransferBooks(h: Fabric, c: Command, p: nat, a: nat)
    requires c.TransferCmd? && c.id in h.sessions && Active(h.sessions[c.id]) && IsCurrent(h.sessions[c.id], p, a)
    requires var s := h.sessions[c.id];
             && s.attempts[a].delivered <= c.bytes
             && (c.acknowledged ==> c.bytes - s.attempts[a].delivered <= s.ledger.outstanding)
    ensures var s := h.sessions[c.id];
            var seen := Observe(s, a, c.bytes);
            var t := Progress(if c.acknowledged then Acknowledge(seen, p, a, c.bytes - s.attempts[a].delivered) else Unacknowledged(seen, a),
                              h.policy.requireVerification);
            c.id in Store(h, c.id, t).sessions ==> Booked(s, p, a, c.bytes, c.acknowledged, Store(h, c.id, t).sessions[c.id])
  {
    hide Progress, Acknowledge, Unacknowledged, Store, Booked;
    var s := h.sessions[c.id];
    var seen := Observe(s, a, c.bytes);
    var t := Progress(if c.acknowledged then Acknowledge(seen, p, a, c.bytes - s.attempts[a].delivered) else Unacknowledged(seen, a),
                      h.policy.requireVerification);
    ReportBooked(s, p, a, c.bytes, c.acknowledged, h.policy.requireVerification);
    StoredRecord(h, c.id, t);
  }

  /** A transfer report on an attempt that is over is refused and moves nothing. */
  lemma DeadAttemptRefused(f: Fabric, c: Command, at: Nanos, a: nat)
    requires Good(f) && c.TransferCmd? && c.id in Expire(f, at).sessions
    requires var s := Expire(f, at).sessions[c.id];
             a < |s.attempts| && s.attempts[a].id == c.attempt
             && (s.attempts[a].outcome.OutcomeAmbiguous? || s.attempts[a].outcome.OutcomeFailed?
                 || s.attempts[a].outcome.OutcomeReleased? || s.attempts[a].outcome.OutcomeSuperseded?)
    ensures Step(f, c, at).0 == Expire(f, at) && Step(f, c, at).1.Refused?
  {
    hide Good, Expire, Aged, Step, CoreOk, SessionOk, Position, Booked;
    ExpireIsScan(f, at);
    var h := Expire(f, at);
    var s := h.sessions[c.id];
    SessionSound(h, c.id);
    OnlyAttempt(s, a);
    EvidenceGateExact(h, c.id, c.fence, c.shard, c.attempt, c.sequence);
    TransferDecides(f, c, at, Position(s.shards, c.shard), a);
  }

  // ------------------------------------------------------------ verdicts

  /** Bytes of the attempt that were never reported as delivered, as far as they are still outstanding. */
  function Lost(s: Session, a: nat): nat
    requires a < |s.attempts|
  {
    var b := s.attempts[a];
    if b.granted <= b.delivered then 0
    else if b.granted - b.delivered <= s.ledger.outstanding then b.granted - b.delivered
    else s.ledger.outstanding
  }

  /** Apart from what completing a session takes away, the ledger is this one. */
  predicate BooksAs(t: Session, l: Ledger) {
    t.ledger == l || (t.state.TrafficSessionComplete? && t.ledger == l.(outstanding := 0))
  }

  /** The session failed over the shard: nothing it holds is live any more, and unverified bytes are wasted. */
  predicate FailsOver(s: Session, p: nat, a: nat, t: Session)
    requires p < |s.shards| && a < |s.attempts|
  {
    && t.state.Failed? && t.shards == s.shards[p := s.shards[p].(state := ShardFailed)]
    && t.activeAttempts == 0 && t.reserved.None? && !t.paused
    && |t.attempts| == |s.attempts|
    && (forall b :: 0 <= b < |t.attempts| ==>
          t.attempts[b] == if s.attempts[b].outstanding then s.attempts[b].(outstanding := false, outcome := OutcomeReleased)
                           else if b == a then s.attempts[b].(outcome := OutcomeFailed)
                           else s.attempts[b])
    && (s.ledger.verified <= s.ledger.transferred ==>
          t.ledger == s.ledger.(transferred := s.ledger.verified, wasted := s.ledger.wasted + (s.ledger.transferred - s.ledger.verified)))
  }

  /** What a verdict that is acted on leaves on record. */
  predicate Ruled(s: Session, p: nat, a: nat, outcome: VerificationOutcome, bytes: nat, digest: ContentDigest, t: Session)
    requires p < |s.shards| && a < |s.attempts|
  {
    var h, b, l := s.shards[p], s.attempts[a], s.ledger;
    match outcome
    case Verified =>
      if !NamesContent(h, bytes, digest) then FailsOver(s, p, a, t)
      else
        && t.shards == s.shards[p := h.(state := ShardVerified, verified := h.declared)]
        && t.attempts == s.attempts[a := b.(outcome := OutcomeVerified)] && t.activeAttempts == s.activeAttempts
        && BooksAs(t, l.(verified := l.verified + (if h.declared > h.verified then h.declared - h.verified else 0)))
    case DigestMismatch => FailsOver(s, p, a, t)
    case Truncated =>
      && t.shards == s.shards[p := h.(state := ShardPending, sequence := 0, transferred := 0, granted := 0, attempt := None)]
      && t.attempts == s.attempts[a := b.(outcome := OutcomeFailed, outstanding := false)]
      && (t.activeAttempts == if b.outstanding && s.activeAttempts > 0 then s.activeAttempts - 1 else s.activeAttempts)
      && BooksAs(t, l.(transferred := if h.transferred <= l.transferred then l.transferred - h.transferred else 0,
                       wasted := l.wasted + h.transferred, outstanding := l.outstanding + h.transferred,
                       admitted := l.admitted + h.transferred))
    case _ =>
      && t.shards == s.shards[p := h.(state := ShardAmbiguous)]
      && t.attempts == s.attempts[a := b.(outcome := OutcomeAmbiguous, outstanding := false)]
      && (t.activeAttempts == if s.activeAttempts > 0 then s.activeAttempts - 1 else 0)
      && BooksAs(t, l.(unproven := l.unproven + Lost(s, a), outstanding := l.outstanding - Lost(s, a)))
  }

  lemma ProgressBooks(s: Session, required: bool)
    ensures BooksAs(Progress(s, required), s.ledger)
  {
    hide AllSettled, AllVerified, SomeUnresolved;
  }

  lemma ProgressRuled(s: Session, p: nat, a: nat, required: bool, bytes: nat, digest: ContentDigest)
    requires Active(s) && p < |s.shards| && a < |s.attempts|
    ensures NamesContent(s.shards[p], bytes, digest) ==> Ruled(s, p, a, Verified, bytes, digest, Progress(Verify(s, p, a), required))
    ensures Ruled(s, p, a, Truncated, bytes, digest, Progress(Truncate(s, p, a), required))
    ensures Ruled(s, p, a, VerificationOutcome.Ambiguous, bytes, digest, Progress(Doubt(s, p, a), required))
    ensures Ruled(s, p, a, Rejected, bytes, digest, Progress(Doubt(s, p, a), required))
  {
    hide Progress, BooksAs;
    ProgressKeeps(Verify(s, p, a), required);
    ProgressKeeps(Truncate(s, p, a), required);
    ProgressKeeps(Doubt(s, p, a), required);
    ProgressBooks(Verify(s, p, a), required);
    ProgressBooks(Truncate(s, p, a), required);
    ProgressBooks(Doubt(s, p, a), required);
  }

  lemma RejectRuled(s: Session, p: nat, a: nat, bytes: nat, digest: ContentDigest)
    requires Active(s) && p < |s.shards| && a < |s.attempts|
    ensures Ruled(s, p, a, DigestMismatch, bytes, digest, Settle(Reject(s, p, a), Failed))
    ensures !NamesContent(s.shards[p], bytes, digest) ==> Ruled(s, p, a, Verified, bytes, digest, Settle(Reject(s, p, a), Failed))
  {
  }

  lemma JudgesRuled(s: Session, c: Command, o: Outcome, required: bool, t: Session)
    requires c.VerifyCmd? && Judges(s, c, o, required, t)
    ensures Ruled(s, Position(s.shards, c.shard), AttemptPosition(s.attempts, c.attempt), c.outcome, c.bytes, c.digest, t)
    ensures if c.outcome.Verified? && !NamesContent(s.shards[Position(s.shards, c.shard)], c.bytes, c.digest)
            then o == Refused(VerificationMismatchError) else o == Done
  {
    hide Position, AttemptPosition, Progress, Settle, Verify, Truncate, Doubt, Reject, NamesContent, Ruled;
    var p, a := Position(s.shards, c.shard), AttemptPosition(s.attempts, c.attempt);
    ProgressRuled(s, p, a, required, c.bytes, c.digest);
    RejectRuled(s, p, a, c.bytes, c.digest);
  }

  lemma JudgedRuled(h: Fabric, c: Command, p: nat, a: nat)
    requires c.VerifyCmd? && c.id in h.sessions && OnCurrent(h.sessions[c.id], c.shard, c.attempt, c.sequence)
    requires p == Position(h.sessions[c.id].shards, c.shard) && a == AttemptPosition(h.sessions[c.id].attempts, c.attempt)
    ensures var s := h.sessions[c.id];
            var o := Judged(h, c.id, p, a, c.outcome, c.bytes, c.digest);
            if c.outcome.Verified? && !s.attempts[a].outcome.OutcomeDeliveredAcked? && !s.attempts[a].outcome.OutcomeVerified?
            then o == (h, Refused(StaleEvidence))
            else
              && o.1 == (if c.outcome.Verified? && !NamesContent(s.shards[p], c.bytes, c.digest) then Refused(VerificationMismatchError) else Done)
              && (c.id in o.0.sessions ==> Ruled(s, p, a, c.outcome, c.bytes, c.digest, o.0.sessions[c.id]))
  {
    hide Position, AttemptPosition, NamesContent, Ruled, Store, Judges;
    var s := h.sessions[c.id];
    if !c.outcome.Verified? || s.attempts[a].outcome.OutcomeDeliveredAcked? || s.attempts[a].outcome.OutcomeVerified? {
      var o := Judged(h, c.id, p, a, c.outcome, c.bytes, c.digest).1;
      var t := JudgedRecord(h, c, o);
      StoredRecord(h, c.id, t);
      JudgesRuled(s, c, o, h.policy.requireVerification, t);
    }
  }

  /** A verdict on a shard's attempt that is not its current one, or no longer on record, is stale. */
  lemma VerdictAnswer(h: Fabric, c: Command, p: nat)
    requires c.VerifyCmd? && c.id in h.sessions && CoreOk(h.sessions[c.id])
    ensures var refusal := EvidenceGate(h, c.id, c.fence, c.shard, c.attempt, c.sequence);
            (&& refusal.Some? && Authorised(h, h.sessions[c.id], c.fence) && !IsTerminal(h.sessions[c.id].state)
             && p < |h.sessions[c.id].shards| && h.sessions[c.id].shards[p].index == c.shard) ==>
              VerdictRefusal(h, c.id, c.shard, refusal.value) == StaleAttempt
  {
    hide Gate, Authorised, CoreOk, Position, AttemptPosition;
    GateExact(h, c.id, c.fence);
    if p < |h.sessions[c.id].shards| { OnlyPosition(h.sessions[c.id], p); }
  }

  /** Exactly which verdicts are acted on, and what each leaves behind. A success verdict is accepted if and only if
  the attempt was acknowledged and the verdict names the shard's size and, where one was declared, its digest. */
  lemma VerdictDecides(f: Fabric, c: Command, at: Nanos, p: nat, a: nat)
    requires Good(f) && c.VerifyCmd?
    ensures var h, o := Expire(f, at), Step(f, c, at);
            && ((forall q, b :: !Addressed(h, c.id, c.shard, c.attempt, c.sequence, c.fence, q, b)) ==>
                  && o.0 == h && o.1.Refused?
                  && ((&& c.id in h.sessions && Authorised(h, h.sessions[c.id], c.fence) && !IsTerminal(h.sessions[c.id].state)
                       && p < |h.sessions[c.id].shards| && h.sessions[c.id].shards[p].index == c.shard) ==> o.1 == Refused(StaleAttempt)))
            && (Addressed(h, c.id, c.shard, c.attempt, c.sequence, c.fence, p, a) ==>
                  var s := h.sessions[c.id];
                  if c.outcome.Verified? && !s.attempts[a].outcome.OutcomeDeliveredAcked? && !s.attempts[a].outcome.OutcomeVerified?
                  then o == (h, Refused(StaleEvidence))
                  else
                    && o.1 == (if c.outcome.Verified? && !NamesContent(s.shards[p], c.bytes, c.digest)
                               then Refused(VerificationMismatchError) else Done)
                    && (c.id in o.0.sessions ==> Ruled(s, p, a, c.outcome, c.bytes, c.digest, o.0.sessions[c.id])))
  {
    hide Good, Expire, Aged, EvidenceGate, Addressed, CoreOk, SessionOk, Position, AttemptPosition, Judged, Ruled, NamesContent, VerdictRefusal, Authorised;
    ExpireIsScan(f, at);
    var h := Expire(f, at);
    if c.id in h.sessions { SessionSound(h, c.id); VerdictAnswer(h, c, p); }
    EvidenceGateExact(h, c.id, c.fence, c.shard, c.attempt, c.sequence);
    if Addressed(h, c.id, c.shard, c.attempt, c.sequence, c.fence, p, a) {
      AddressedWithin(h, c, p, a);
      CurrentGate(h, c.id, c.fence, c.shard, c.attempt, c.sequence);
      JudgedRuled(h, c, p, a);
    }
  }

  // ------------------------------------------------- source and ambiguity

  /** A source report is accepted exactly for a known shard of a running session, with no more bytes than declared and
  none that contradict an earlier report. */
  predicate Sourced(f: Fabric, id: SessionId, shard: nat, bytes: nat, fence: Fence, p: nat) {
    && id in f.sessions && Authorised(f, f.sessions[id], fence) && !IsTerminal(f.sessions[id].state)
    && p < |f.sessions[id].shards|
    && var h := f.sessions[id].shards[p];
       h.index == shard && bytes <= h.declared && (h.sourceComplete ==> h.sourceBytes == bytes)
  }

  predicate SourceNoted(s: Session, p: nat, bytes: nat, t: Session)
    requires p < |s.shards|
  {
    && t.shards == s.shards[p := s.shards[p].(sourceComplete := true, sourceBytes := bytes,
                                              state := if s.shards[p].state.ShardPending? || s.shards[p].state.ShardGranted?
                                                       then ShardInFlight else s.shards[p].state)]
    && (t.sourceComplete <==> forall q :: 0 <= q < |s.shards| && q != p ==> s.shards[q].sourceComplete)
    && t.attempts == s.attempts && t.activeAttempts == s.activeAttempts && BooksAs(t, s.ledger)
  }

  lemma ProgressKeeps(s: Session, required: bool)
    ensures var t := Progress(s, required);
            && t == s.(state := t.state, evidence := t.evidence, reserved := t.reserved, ledger := t.ledger)
            && t.ledger == s.ledger.(outstanding := t.ledger.outstanding)
  {
    hide AllSettled, AllVerified, SomeUnresolved;
  }

  lemma ProgressNoted(s: Session, p: nat, bytes: nat, required: bool)
    requires p < |s.shards|
    ensures SourceNoted(s, p, bytes, Progress(NoteSource(s, p, bytes), required))
  {
    hide Progress, BooksAs;
    ProgressKeeps(NoteSource(s, p, bytes), required);
    ProgressBooks(NoteSource(s, p, bytes), required);
    var t := NoteSource(s, p, bytes);
    assert forall q :: 0 <= q < |s.shards| ==> t.shards[q].sourceComplete == (q == p || s.shards[q].sourceComplete);
  }

  lemma SourceDecides(f: Fabric, c: Command, at: Nanos, p: nat)
    requires Good(f) && c.SourceCmd?
    ensures var h, o := Expire(f, at), Step(f, c, at);
            && ((forall q :: !Sourced(h, c.id, c.shard, c.bytes, c.fence, q)) ==> o.0 == h && o.1.Refused?)
            && (Sourced(h, c.id, c.shard, c.bytes, c.fence, p) ==>
                  && o.1 == Done
                  && (c.id in o.0.sessions ==> SourceNoted(h.sessions[c.id], p, c.bytes, o.0.sessions[c.id])))
  {
    hide Good, Expire, Aged, Gate, CoreOk, SessionOk, Position, Store, Progress, NoteSource, SourceNoted, Authorised;
    ExpireIsScan(f, at);
    var h := Expire(f, at);
    GateExact(h, c.id, c.fence);
    if c.id in h.sessions {
      SessionSound(h, c.id);
      var s := h.sessions[c.id];
      var q := Position(s.shards, c.shard);
      if p < |s.shards| && s.shards[p].index == c.shard { OnlyPosition(s, p); }
      if q < |s.shards| {
        ProgressNoted(s, q, c.bytes, h.policy.requireVerification);
        StoredRecord(h, c.id, Progress(NoteSource(s, q, c.bytes), h.policy.requireVerification));
        assert Step(f, c, at).1.Done? ==> Sourced(h, c.id, c.shard, c.bytes, c.fence, q);
      }
    }
  }

  /** The attempt is given up: its shard, unless settled, is of unknown fate, and what it did not deliver, as far as
  it is outstanding, is unproven. */
  predicate Disowned(s: Session, a: nat, t: Session)
    requires a < |s.attempts|
  {
    var b, l := s.attempts[a], s.ledger;
    && t.attempts == s.attempts[a := b.(outcome := OutcomeAmbiguous, outstanding := false)]
    && (t.activeAttempts == if b.outstanding && s.activeAttempts > 0 then s.activeAttempts - 1 else s.activeAttempts)
    && BooksAs(t, l.(unproven := l.unproven + Lost(s, a), outstanding := l.outstanding - Lost(s, a)))
    && |t.shards| == |s.shards|
    && forall p :: 0 <= p < |s.shards| ==>
         t.shards[p] == if s.shards[p].index == b.shard && !s.shards[p].state.ShardTransferred? && !s.shards[p].state.ShardVerified?
                        then s.shards[p].(state := ShardAmbiguous) else s.shards[p]
  }

  lemma ProgressDisowned(s: Session, a: nat, required: bool)
    requires CoreOk(s) && a < |s.attempts|
    ensures Disowned(s, a, Progress(Disown(s, a), required))
  {
    hide Progress, CoreOk, Position, BooksAs;
    ProgressKeeps(Disown(s, a), required);
    ProgressBooks(Disown(s, a), required);
    forall p | 0 <= p < |s.shards| ensures Position(s.shards, s.shards[p].index) == p { OnlyPosition(s, p); }
  }

  /** An ambiguity report is accepted exactly for an attempt on record of a running session, under its sequence and a
  fence that names the epoch, the policy and the topology in force. */
  lemma AmbiguityDecides(f: Fabric, c: Command, at: Nanos, a: nat)
    requires Good(f) && c.AmbiguousCmd? && c.id in Expire(f, at).sessions
    requires a < |Expire(f, at).sessions[c.id].attempts| && Expire(f, at).sessions[c.id].attempts[a].id == c.attempt
    ensures var h, o := Expire(f, at), Step(f, c, at);
            var s := h.sessions[c.id];
            if !IsTerminal(s.state) && s.attempts[a].sequence == c.sequence
               && c.fence.epoch == h.epoch && c.fence.policy == h.policy.generation && c.fence.topology == h.topology.generation
            then o.1 == Done && (c.id in o.0.sessions ==> Disowned(s, a, o.0.sessions[c.id]))
            else o.0 == h && o.1.Refused?
  {
    hide Good, Expire, Aged, FabricFence, CoreOk, SessionOk, AttemptPosition, Store, Progress, Disown, Disowned;
    ExpireIsScan(f, at);
    var h := Expire(f, at);
    var s := h.sessions[c.id];
    SessionSound(h, c.id);
    OnlyAttempt(s, a);
    FenceAcceptsExactly(c.fence, AuthorityOf(h, c.fence.contract));
    assert FabricFence(h, c.fence) == CheckFence(c.fence, AuthorityOf(h, c.fence.contract)) by { FabricFenceIs(h, c.fence); }
    ProgressDisowned(s, a, h.policy.requireVerification);
    StoredRecord(h, c.id, Progress(Disown(s, a), h.policy.requireVerification));
  }

  lemma FabricFenceIs(f: Fabric, fence: Fence)
    ensures FabricFence(f, fence) == CheckFence(fence, AuthorityOf(f, fence.contract))
  {
  }

  // ------------------------------------------------------------ progress

  /** The session completes exactly when every shard has reached the target, and its evidence and state say which. */
  lemma ProgressDecides(s: Session, required: bool)
    requires !IsTerminal(s.state) && |s.shards| > 0 && SourceTrue(s.sourceComplete, s.shards)
    ensures var t := Progress(s, required);
            && (t.state.TrafficSessionComplete? <==>
                  forall p :: 0 <= p < |s.shards| ==>
                    s.shards[p].state.ShardVerified? || (!required && s.shards[p].state.ShardTransferred?))
            && EvidenceTrue(t.evidence, s.shards)
            && t == s.(state := t.state, evidence := t.evidence, reserved := t.reserved, ledger := t.ledger)
            && (if t.state.TrafficSessionComplete? then t.reserved.None? && t.ledger == s.ledger.(outstanding := 0)
                else t.reserved == s.reserved && t.ledger == s.ledger)
            && (if t.state.TrafficSessionComplete? then true
                else if s.state.RevalidationRequired? || s.state.Paused? || s.state.Deferred? then t.state == s.state
                else if forall p :: 0 <= p < |s.shards| ==> s.shards[p].state.ShardTransferred? || s.shards[p].state.ShardVerified?
                then t.state.Transferred?
                else if exists p :: 0 <= p < |s.shards|
                                    && (s.shards[p].state.ShardAmbiguous? || s.shards[p].state.ShardInFlight? || s.shards[p].state.ShardGranted?)
                then t.state.Transferring?
                else t.state == if s.sourceComplete then SourceComplete else Admitted)
  {
  }

  // ------------------------------------------------- attempts of unknown fate

  /** The attempt is over, or no longer on record. */
  predicate Gone(s: Session, attempt: AttemptId) {
    forall a :: 0 <= a < |s.attempts| && s.attempts[a].id == attempt ==> Dead(s.attempts[a].outcome)
  }

  lemma EndedGone(s: Session, newer: SessionId, attempt: AttemptId)
    requires Gone(s, attempt)
    ensures Gone(SupersededSession(s, newer), attempt) && Gone(Settle(s, Failed), attempt) && Gone(Expired(s), attempt)
    ensures Gone(Settle(CancelOutstanding(s), Model.Cancelled), attempt)
  {
  }

  lemma RestartGone(s: Session, attempt: AttemptId)
    requires Gone(s, attempt)
    ensures Gone(Restarted(s), attempt) && Gone(Demand(s), attempt)
  {
    hide SeqTotal;
  }

  lemma GrantGone(s: Session, p: nat, drawn: AttemptId, chunk: nat, bound: nat, attempt: AttemptId)
    requires Gone(s, attempt) && p < |s.shards| && drawn != attempt
    ensures Gone(Grant(s, p, drawn, chunk, bound), attempt)
  {
  }

  lemma ProgressGone(s: Session, required: bool, attempt: AttemptId)
    ensures Progress(s, required).attempts == s.attempts
  {
    hide AllSettled, AllVerified, SomeUnresolved;
  }

  lemma TransferGone(s: Session, c: Command, required: bool, t: Session, attempt: AttemptId)
    requires c.TransferCmd? && Transfers(s, c, required, t) && Gone(s, attempt)
    ensures Gone(t, attempt)
  {
    hide Progress, Position, AttemptPosition;
    var p, a := Position(s.shards, c.shard), AttemptPosition(s.attempts, c.attempt);
    var seen := Observe(s, a, c.bytes);
    ProgressGone(Unacknowledged(seen, a), required, attempt);
    if c.bytes - s.attempts[a].delivered <= s.ledger.outstanding {
      ProgressGone(Acknowledge(seen, p, a, c.bytes - s.attempts[a].delivered), required, attempt);
    }
  }

  lemma VerdictGone(s: Session, c: Command, o: Outcome, required: bool, t: Session, attempt: AttemptId)
    requires c.VerifyCmd? && Judges(s, c, o, required, t) && Gone(s, attempt)
    ensures Gone(t, attempt)
  {
    hide Progress, Position, AttemptPosition, NamesContent;
    var p, a := Position(s.shards, c.shard), AttemptPosition(s.attempts, c.attempt);
    ProgressGone(Verify(s, p, a), required, attempt);
    ProgressGone(Truncate(s, p, a), required, attempt);
    ProgressGone(Doubt(s, p, a), required, attempt);
  }

  lemma DisownGone(s: Session, a: nat, required: bool, attempt: AttemptId)
    requires a < |s.attempts| && Gone(s, attempt)
    ensures Gone(Progress(Disown(s, a), required), attempt)
  {
    hide Progress, Position;
    ProgressGone(Disown(s, a), required, attempt);
  }

  /** Nothing but a new grant under the same identity brings an attempt back. */
  lemma BecomesGone(h: Fabric, c: Command, o: Outcome, id: SessionId, s: Session, t: Session, attempt: AttemptId)
    requires Becomes(h, c, o, id, s, t) && Gone(s, attempt)
    requires !(c.WaveCmd? && c.id == id && c.attempt == attempt)
    ensures Gone(t, attempt)
  {
    hide Progress, Settle, Position, AttemptPosition, TimelineBound, Transfers, Judges, Disown,
      SupersededSession, Expired, CancelOutstanding, Restarted, Demand, Grant, Gone;
    SameGone(s, t, attempt);
    match c
    case SubmitCmd(_, _, _, newer) => EndedGone(s, newer, attempt);
    case RevalidateCmd(_, _) => EndedGone(s, 0, attempt);
    case CancelCmd(_, _) => EndedGone(s, 0, attempt);
    case WaveCmd(_, shard, _, drawn) =>
      var p := Position(s.shards, shard);
      if t != s { GrantGone(s, p, drawn, o.bytes, TimelineBound(h.policy), attempt); }
    case TransferCmd(_, _, _, _, _, _, _) => if t != s { TransferGone(s, c, h.policy.requireVerification, t, attempt); }
    case VerifyCmd(_, _, _, _, _, _, _, _) => if t != s { VerdictGone(s, c, o, h.policy.requireVerification, t, attempt); }
    case AmbiguousCmd(_, k, _, _) =>
      var a := AttemptPosition(s.attempts, k);
      if a < |s.attempts| { DisownGone(s, a, h.policy.requireVerification, attempt); }
    case SourceCmd(_, shard, bytes, _) =>
      var p := Position(s.shards, shard);
      if p < |s.shards| { ProgressGone(NoteSource(s, p, bytes), h.policy.requireVerification, attempt); }
    case _ => RestartGone(s, attempt);
  }

  lemma SameGone(s: Session, t: Session, attempt: AttemptId)
    requires Gone(s, attempt)
    ensures t.attempts == s.attempts ==> Gone(t, attempt)
  {
  }

  lemma LinkGone(states: seq<Fabric>, events: seq<Event>, start: Nanos, k: nat, id: SessionId, attempt: AttemptId)
    requires Run(states, events, start) && k < |events| && id in states[k].sessions && id in states[k + 1].sessions
    requires Gone(states[k].sessions[id], attempt)
    requires !(events[k].command.WaveCmd? && events[k].command.id == id && events[k].command.attempt == attempt)
    ensures Gone(states[k + 1].sessions[id], attempt)
  {
    hide Run, Becomes, Expired, Observed, Answer, Gone;
    HereRun(states, events, start);
    LinkBecomes(states, events, start, k, id);
    var s, t := states[k].sessions[id], states[k + 1].sessions[id];
    EndedGone(s, 0, attempt);
    if t != Expired(s) { BecomesGone(Before(states, events, k), events[k].command, Answer(states, events, k), id, s, t, attempt); }
  }

  lemma {:induction false} StillGone(states: seq<Fabric>, events: seq<Event>, start: Nanos, i: nat, j: nat, id: SessionId, attempt: AttemptId)
    requires Run(states, events, start) && i <= j < |states| && Retained(states, i, j, id)
    requires Gone(states[i].sessions[id], attempt)
    requires NoneReuses(events, i, j, id, attempt)
    ensures Gone(states[j].sessions[id], attempt)
    decreases j - i
  {
    hide Run, Gone;
    HereRun(states, events, start);
    if i < j {
      StillGone(states, events, start, i, j - 1, id, attempt);
      LinkGone(states, events, start, j - 1, id, attempt);
    }
  }

  /** No wave request from i on, and before j, draws the identity again. */
  predicate NoneReuses(events: seq<Event>, i: nat, j: nat, id: SessionId, attempt: AttemptId) {
    forall k :: i <= k < j && k < |events| ==>
      !(events[k].command.WaveCmd? && events[k].command.id == id && events[k].command.attempt == attempt)
  }

  lemma GoneRefused(f: Fabric, c: Command, at: Nanos)
    requires Good(f) && c.TransferCmd?
    requires c.id in f.sessions ==> Gone(f.sessions[c.id], c.attempt)
    ensures Step(f, c, at).0 == Expire(f, at) && Step(f, c, at).1.Refused?
  {
    hide Good, Expire, Step, Expired, Booked, Authorised, Gone;
    ExpireIsScan(f, at);
    var h := Expire(f, at);
    if c.id in h.sessions { EndedGone(f.sessions[c.id], 0, c.attempt); }
    if exists p, a :: Addressed(h, c.id, c.shard, c.attempt, c.sequence, c.fence, p, a) {
      var p, a :| Addressed(h, c.id, c.shard, c.attempt, c.sequence, c.fence, p, a);
      GoneOutcome(h.sessions[c.id], a);
      TransferDecides(f, c, at, p, a);
    } else {
      TransferDecides(f, c, at, 0, 0);
    }
  }

  lemma GoneOutcome(s: Session, a: nat)
    requires a < |s.attempts| && Gone(s, s.attempts[a].id)
    ensures Dead(s.attempts[a].outcome)
  {
  }

  /** Once the fate of an attempt is unknown, or it failed or was given up, no transfer report that names it ever
  moves a byte: each is refused, and changes nothing beyond the deadlines that had passed. */
  lemma AmbiguousNeverBooked(states: seq<Fabric>, events: seq<Event>, start: Nanos, i: nat, j: nat, id: SessionId, a: nat)
    requires Run(states, events, start) && i <= j < |events| && Retained(states, i, j, id)
    requires a < |states[i].sessions[id].attempts| && Dead(states[i].sessions[id].attempts[a].outcome)
    requires NoneReuses(events, i, j, id, states[i].sessions[id].attempts[a].id)
    ensures var c := events[j].command;
            c.TransferCmd? && c.id == id && c.attempt == states[i].sessions[id].attempts[a].id ==>
              Answer(states, events, j).Refused? && states[j + 1] == Expire(states[j], events[j].at)
  {
    hide Good, Initial, Disciplined, Step, Expire, CoreOk, SessionOk, Gone;
    var attempt := states[i].sessions[id].attempts[a].id;
    RunStaysGood(states, events, start, i);
    RunStaysGood(states, events, start, j);
    SessionSound(states[i], id);
    SoundIds(states[i].sessions[id]);
    assert Gone(states[i].sessions[id], attempt) by { DeadGone(states[i].sessions[id], a); }
    StillGone(states, events, start, i, j, id, attempt);
    assert Linked(states[j], events[j], states[j + 1]);
    var c := events[j].command;
    if c.TransferCmd? && c.id == id && c.attempt == attempt { GoneRefused(states[j], c, events[j].at); }
  }

  lemma DeadGone(s: Session, a: nat)
    requires DistinctIds(s.attempts) && a < |s.attempts| && Dead(s.attempts[a].outcome)
    ensures Gone(s, s.attempts[a].id)
  {
  }

  // ------------------------------------------------------- verified content

  /** The command does not verify the p-th shard. */
  predicate Unverified(s: Session, t: Session, p: nat)
    requires p < |s.shards|
  {
    p < |t.shards| && (t.shards[p].state.ShardVerified? ==> s.shards[p].state.ShardVerified?)
  }

  /** An accepted success verdict on the shard, which names what its descriptor declares. */
  predicate Names(c: Command, o: Outcome, id: SessionId, d: ShardDescriptor) {
    && c.VerifyCmd? && c.id == id && c.shard == d.index && c.outcome.Verified? && o.Done?
    && c.bytes == d.declared && (d.digest == ContentDigest(0, 0xCBF29CE484222325) || c.digest == d.digest)
  }

  lemma TransferUnverified(s: Session, c: Command, required: bool, t: Session, p: nat)
    requires c.TransferCmd? && Transfers(s, c, required, t) && p < |s.shards|
    ensures Unverified(s, t, p)
  {
    hide Progress, Position, AttemptPosition;
    var q, a := Position(s.shards, c.shard), AttemptPosition(s.attempts, c.attempt);
    var seen := Observe(s, a, c.bytes);
    ProgressCloses(Unacknowledged(seen, a), required);
    if c.bytes - s.attempts[a].delivered <= s.ledger.outstanding {
      ProgressCloses(Acknowledge(seen, q, a, c.bytes - s.attempts[a].delivered), required);
    }
  }

  lemma VerdictUnverified(s: Session, c: Command, o: Outcome, required: bool, t: Session, p: nat)
    requires c.VerifyCmd? && Judges(s, c, o, required, t) && p < |s.shards|
    ensures Unverified(s, t, p) || (p == Position(s.shards, c.shard) && c.outcome.Verified? && o == Done
                                    && NamesContent(s.shards[p], c.bytes, c.digest))
  {
    hide Progress, Position, AttemptPosition, NamesContent, Settle;
    var q, a := Position(s.shards, c.shard), AttemptPosition(s.attempts, c.attempt);
    SettledCloses(Reject(s, q, a), Failed);
    ProgressCloses(Verify(s, q, a), required);
    ProgressCloses(Truncate(s, q, a), required);
    ProgressCloses(Doubt(s, q, a), required);
  }

  lemma SourceUnverified(s: Session, q: nat, bytes: nat, required: bool, p: nat)
    requires Active(s) && q < |s.shards| && p < |s.shards|
    ensures Unverified(s, Progress(NoteSource(s, q, bytes), required), p)
  {
    hide Progress;
    ProgressCloses(NoteSource(s, q, bytes), required);
  }

  lemma DisownUnverified(s: Session, a: nat, required: bool, p: nat)
    requires Active(s) && a < |s.attempts| && p < |s.shards|
    ensures Unverified(s, Progress(Disown(s, a), required), p)
  {
    hide Progress, Position;
    ProgressCloses(Disown(s, a), required);
  }

  lemma EndedUnverified(s: Session, newer: SessionId, p: nat)
    requires p < |s.shards|
    ensures Unverified(s, SupersededSession(s, newer), p) && Unverified(s, Settle(s, Failed), p)
    ensures Unverified(s, Expired(s), p) && Unverified(s, Settle(CancelOutstanding(s), Model.Cancelled), p)
    ensures Unverified(s, Restarted(s), p) && Unverified(s, Demand(s), p)
  {
    hide ReleaseAll, SeqTotal, RestartAttempts;
  }

  lemma BecomesVerified(h: Fabric, c: Command, o: Outcome, id: SessionId, s: Session, t: Session, p: nat)
    requires Becomes(h, c, o, id, s, t) && p < |s.shards|
    ensures Unverified(s, t, p) || (c.VerifyCmd? && c.id == id && p == Position(s.shards, c.shard) && c.outcome.Verified? && o == Done
                                    && NamesContent(s.shards[p], c.bytes, c.digest))
  {
    hide Progress, Settle, Position, AttemptPosition, TimelineBound, Transfers, Judges, NoteSource, Disown,
      SupersededSession, Expired, CancelOutstanding, Restarted, Demand, NamesContent;
    match c
    case SubmitCmd(_, _, _, newer) => EndedUnverified(s, newer, p);
    case RevalidateCmd(_, _) => EndedUnverified(s, 0, p);
    case CancelCmd(_, _) => EndedUnverified(s, 0, p);
    case TransferCmd(_, _, _, _, _, _, _) => if t != s { TransferUnverified(s, c, h.policy.requireVerification, t, p); }
    case VerifyCmd(_, _, _, _, _, _, _, _) => if t != s { VerdictUnverified(s, c, o, h.policy.requireVerification, t, p); }
    case AmbiguousCmd(_, attempt, _, _) =>
      if t != s { DisownUnverified(s, AttemptPosition(s.attempts, attempt), h.policy.requireVerification, p); }
    case SourceCmd(_, shard, bytes, _) =>
      if t != s { SourceUnverified(s, Position(s.shards, shard), bytes, h.policy.requireVerification, p); }
    case _ => EndedUnverified(s, 0, p);
  }

  lemma LinkVerified(states: seq<Fabric>, events: seq<Event>, start: Nanos, k: nat, id: SessionId, p: nat)
    requires Run(states, events, start) && k < |events| && id in states[k].sessions && id in states[k + 1].sessions
    requires p < |states[k].sessions[id].shards|
    ensures Unverified(states[k].sessions[id], states[k + 1].sessions[id], p)
            || (p < |states[k].sessions[id].request.manifest.shards|
                && Names(events[k].command, Answer(states, events, k), id, states[k].sessions[id].request.manifest.shards[p]))
  {
    hide Run, Becomes, Expired, Observed, Answer, Good, Position, CoreOk, SessionOk;
    HereRun(states, events, start);
    LinkBecomes(states, events, start, k, id);
    RunStaysGood(states, events, start, k);
    SessionSound(states[k], id);
    var s, t := states[k].sessions[id], states[k + 1].sessions[id];
    EndedUnverified(s, 0, p);
    MirrorsManifest(s, p);
    if t != Expired(s) {
      BecomesVerified(Before(states, events, k), events[k].command, Answer(states, events, k), id, s, t, p);
    }
  }

  lemma MirrorsManifest(s: Session, p: nat)
    requires CoreOk(s) && p < |s.shards|
    ensures p < |s.request.manifest.shards|
    ensures var d := s.request.manifest.shards[p];
            s.shards[p].index == d.index && s.shards[p].declared == d.declared && s.shards[p].digest == d.digest
  {
    hide ShardsSound, AttemptsSound, RunningLedger, SeqTotal;
  }

  predicate Unsent(shards: seq<Shard>) {
    forall p :: 0 <= p < |shards| ==> shards[p].state.ShardPending?
  }

  lemma LinkCreates(states: seq<Fabric>, events: seq<Event>, start: Nanos, k: nat, id: SessionId)
    requires Run(states, events, start) && k < |events| && id !in states[k].sessions && id in states[k + 1].sessions
    ensures var c := events[k].command;
            && c.SubmitCmd? && c.id == id && Answer(states, events, k) == Decided(Admit, None, Some(id))
            && states[k + 1].sessions[id].request == c.request
            && Unsent(states[k + 1].sessions[id].shards)
  {
    hide Good, Initial, Step, Expire, WaveGate, Gate, EvidenceGate;
    RunStaysGood(states, events, start, k);
    assert Linked(states[k], events[k], states[k + 1]);
    StepKeys(states[k], events[k].command, events[k].at);
    SubmitCreates(states[k], events[k].command, events[k].at);
  }

  lemma SubmitCreates(f: Fabric, c: Command, at: Nanos)
    requires Good(f) && c.SubmitCmd? && c.id !in f.sessions
    ensures var o := Step(f, c, at);
            c.id in o.0.sessions ==>
              && o.1 == Decided(Admit, None, Some(c.id)) && o.0.sessions[c.id].request == c.request
              && Unsent(o.0.sessions[c.id].shards)
  {
    hide Good, Expire, FabricFence, Judge, Remember, IndexDeadline, Supersede, Aged, TableFollows;
    ExpireFollows(f, at);
  }

  /** No shard is ever recorded as verified unless an earlier verdict on it was accepted that names its
  declared size and, where the producer declared one, its digest. */
  lemma {:induction false} VerifiedWasNamed(states: seq<Fabric>, events: seq<Event>, start: Nanos, j: nat, id: SessionId, p: nat)
    requires Run(states, events, start) && j < |states| && id in states[j].sessions
    requires var s := states[j].sessions[id]; p < |s.shards| && s.shards[p].state.ShardVerified?
    ensures p < |states[j].sessions[id].request.manifest.shards| && j <= |events| < |states|
    ensures exists k :: 0 <= k < j && Retained(states, k, j, id)
                        && Names(events[k].command, Answer(states, events, k), id, states[j].sessions[id].request.manifest.shards[p])
    decreases j
  {
    hide Run, Answer, Names, Good, Initial, CoreOk, SessionOk, Advances;
    HereRun(states, events, start);
    RunStaysGood(states, events, start, j);
    SessionSound(states[j], id);
    MirrorsManifest(states[j].sessions[id], p);
    if j == 0 {
      StartsEmpty(states, events, start);
    } else if id !in states[j - 1].sessions {
      LinkCreates(states, events, start, j - 1, id);
    } else {
      var s, t := states[j - 1].sessions[id], states[j].sessions[id];
      LinkAdvances(states, events, start, j - 1, id);
      KeepsRequest(s, t);
      RunStaysGood(states, events, start, j - 1);
      SessionSound(states[j - 1], id);
      SameLength(s, t);
      LinkVerified(states, events, start, j - 1, id, p);
      if s.shards[p].state.ShardVerified? {
        VerifiedWasNamed(states, events, start, j - 1, id, p);
        var k :| 0 <= k < j - 1 && Retained(states, k, j - 1, id)
                 && Names(events[k].command, Answer(states, events, k), id, s.request.manifest.shards[p]);
        assert Retained(states, k, j, id);
      } else {
        assert Retained(states, j - 1, j, id);
      }
    }
  }

  lemma KeepsRequest(s: Session, t: Session)
    requires Advances(s, t)
    ensures t.request == s.request
  {
  }

  lemma SameLength(s: Session, t: Session)
    requires CoreOk(s) && CoreOk(t) && t.request == s.request
    ensures |t.shards| == |s.shards|
  {
    hide ShardsSound, AttemptsSound, RunningLedger, SeqTotal;
  }
}
