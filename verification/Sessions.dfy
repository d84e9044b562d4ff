/** What happens to one session: byte movements, grants, evidence, ambiguity,
settlement, restart. The functions say what each engine command does to the
session record; `SessionOk` is what every one of them keeps. */
module Sessions {
  import opened Sums
  import opened Model

  // ------------------------------------------------------------ measures

  function ShardBytes(s: Shard): nat { s.transferred }

  function ShardVerifiedBytes(s: Shard): nat { s.verified }

  function LiveOne(a: Attempt): nat { if a.outstanding then 1 else 0 }

  /** Bytes granted to an attempt whose fate is unknown. */
  function AtRiskOf(a: Attempt): nat { if a.outstanding then Monus(a.granted, a.delivered) else 0 }

  predicate IsSettled(s: Shard) { s.state.ShardTransferred? || s.state.ShardVerified? }

  predicate AllSettled(shards: seq<Shard>) {
    |shards| > 0 && forall i :: 0 <= i < |shards| ==> IsSettled(shards[i])
  }

  predicate AllVerified(shards: seq<Shard>) {
    |shards| > 0 && forall i :: 0 <= i < |shards| ==> shards[i].state.ShardVerified?
  }

  predicate AllSourced(shards: seq<Shard>) {
    forall i :: 0 <= i < |shards| ==> shards[i].sourceComplete
  }

  predicate Unresolved(s: Shard) { s.state.ShardAmbiguous? || s.state.ShardInFlight? || s.state.ShardGranted? }

  predicate SomeUnresolved(shards: seq<Shard>) {
    exists i :: 0 <= i < |shards| && Unresolved(shards[i])
  }

  /** Position of the shard with this index, or the length when there is none. */
  function Position(shards: seq<Shard>, index: nat): (p: nat)
    ensures p <= |shards|
    ensures p < |shards| ==> shards[p].index == index
    ensures forall i :: 0 <= i < p ==> shards[i].index != index
  {
    if shards == [] || shards[0].index == index then 0
    else
      var rest := Position(shards[1..], index);
      assert forall i :: 0 < i < rest + 1 ==> shards[i] == shards[1..][i - 1];
      1 + rest
  }

  /** Position of the attempt record with this identity, or the length. */
  function AttemptPosition(attempts: seq<Attempt>, id: AttemptId): (p: nat)
    ensures p <= |attempts|
    ensures p < |attempts| ==> attempts[p].id == id
    ensures forall i :: 0 <= i < p ==> attempts[i].id != id
  {
    if attempts == [] || attempts[0].id == id then 0
    else
      var rest := AttemptPosition(attempts[1..], id);
      assert forall i :: 0 < i < rest + 1 ==> attempts[i] == attempts[1..][i - 1];
      1 + rest
  }

  // ------------------------------------------------------------ invariant

  /** The shard table still mirrors the admitted manifest. */
  predicate Shaped(m: Manifest, shards: seq<Shard>) {
    && 0 < |m.shards| == |shards|
    && ShardTableValid(m.shards)
    && SeqTotal(m.shards, DescriptorBytes) == m.total
    && forall i :: 0 <= i < |shards| ==>
         && shards[i].index == m.shards[i].index
         && shards[i].declared == m.shards[i].declared
         && shards[i].digest == m.shards[i].digest
  }

  /** A shard never holds more than it declared, verified bytes did arrive, and a
  settled shard arrived in full. */
  predicate ShardSound(h: Shard) {
    && h.verified <= h.transferred <= h.declared
    && (IsSettled(h) ==> h.transferred == h.declared)
  }

  predicate ShardsSound(shards: seq<Shard>) {
    forall i :: 0 <= i < |shards| ==> ShardSound(shards[i])
  }

  predicate DistinctIds(attempts: seq<Attempt>) {
    forall i, j :: 0 <= i < j < |attempts| ==> attempts[i].id != attempts[j].id
  }

  /** An outstanding attempt is the current one of a shard that is not settled. */
  predicate LiveAttemptSound(shards: seq<Shard>, a: Attempt) {
    a.outstanding ==>
      var p := Position(shards, a.shard);
      && p < |shards| && shards[p].attempt == Some(a.id) && !IsSettled(shards[p])
      && (a.outcome.OutcomeInFlight? || a.outcome.OutcomeDeliveredUnacked?)
  }

  /** What the shard's current attempt may still deliver fits in the shard. */
  predicate RoomFor(h: Shard, a: Attempt) {
    h.attempt == Some(a.id) ==>
      && a.shard == h.index
      && a.delivered <= a.granted
      && h.transferred + (a.granted - a.delivered) <= h.declared
  }

  predicate AttemptsSound(shards: seq<Shard>, attempts: seq<Attempt>) {
    && DistinctIds(attempts)
    && (forall i :: 0 <= i < |attempts| ==> LiveAttemptSound(shards, attempts[i]))
    && (forall i, p :: 0 <= i < |attempts| && 0 <= p < |shards| ==> RoomFor(shards[p], attempts[i]))
  }

  /** The source is complete exactly when it is for every shard. */
  predicate SourceTrue(complete: bool, shards: seq<Shard>) {
    complete <==> forall i :: 0 <= i < |shards| ==> shards[i].sourceComplete
  }

  /** The byte identities of a session that is still running. */
  predicate RunningLedger(s: Session) {
    var l := s.ledger;
    && l.cancelled == 0
    && l.transferred == SeqTotal(s.shards, ShardBytes)
    && l.verified == SeqTotal(s.shards, ShardVerifiedBytes)
    && l.transferred + l.unproven + l.outstanding == s.request.manifest.total
    && l.admitted == s.request.manifest.total + l.wasted
  }

  /** Everything that holds of a session between commands, apart from what its evidence level claims. */
  predicate CoreOk(s: Session) {
    && Shaped(s.request.manifest, s.shards)
    && ShardsSound(s.shards)
    && AttemptsSound(s.shards, s.attempts)
    && s.activeAttempts <= SeqTotal(s.attempts, LiveOne)
    && Conserves(s.ledger) && s.ledger.verified <= s.ledger.transferred
    && s.request.manifest.total <= s.ledger.admitted
    && SourceTrue(s.sourceComplete, s.shards)
    && !IsTerminal(s.pausedFrom) && !s.pausedFrom.Paused? && (s.state.Paused? ==> s.paused)
    && (!IsTerminal(s.state) ==> RunningLedger(s))
  }

  /** What the evidence level claims, shard by shard. */
  predicate EvidenceTrue(evidence: Evidence, shards: seq<Shard>) {
    match evidence
    case VerifiedAtDestinationEvidence => forall i :: 0 <= i < |shards| ==> shards[i].state.ShardVerified?
    case TransferredEvidence =>
      && (forall i :: 0 <= i < |shards| ==> shards[i].state.ShardTransferred? || shards[i].state.ShardVerified?)
      && (exists i :: 0 <= i < |shards| && !shards[i].state.ShardVerified?)
    case SourceCompleteEvidence =>
      && (exists i :: 0 <= i < |shards| && !shards[i].state.ShardTransferred? && !shards[i].state.ShardVerified?)
      && (forall i :: 0 <= i < |shards| ==> shards[i].sourceComplete)
    case NoEvidence =>
      && (exists i :: 0 <= i < |shards| && !shards[i].state.ShardTransferred? && !shards[i].state.ShardVerified?)
      && (exists i :: 0 <= i < |shards| && !shards[i].sourceComplete)
  }

  /** A session that ended without completing keeps only verified bytes as transferred. */
  predicate FinishedOk(s: Session) {
    && s.ledger.outstanding == 0 && s.activeAttempts == 0 && s.reserved.None?
    && (forall i :: 0 <= i < |s.attempts| ==> !s.attempts[i].outstanding)
    && (s.evidence.VerifiedAtDestinationEvidence? ==> AllVerified(s.shards))
    && (s.state.TrafficSessionComplete? ==>
          && AllSettled(s.shards)
          && s.ledger.transferred == s.request.manifest.total
          && s.ledger.unproven == 0 && s.ledger.cancelled == 0)
    && (!s.state.TrafficSessionComplete? ==> s.ledger.transferred == s.ledger.verified)
  }

  predicate SessionOk(s: Session) {
    && CoreOk(s)
    && (IsTerminal(s.state) ==> FinishedOk(s))
    && (!IsTerminal(s.state) ==> !s.evidence.VerifiedAtDestinationEvidence?)
    && (!IsTerminal(s.state) || s.state.TrafficSessionComplete? ==> EvidenceTrue(s.evidence, s.shards))
  }

  // ---------------------------------------------------------- byte movements

  /** Authorised bytes that will never be proven leave the outstanding bucket. */
  function Unprove(s: Session, bytes: nat): (r: Session) {
    var moved := Min(bytes, s.ledger.outstanding);
    s.(ledger := s.ledger.(outstanding := s.ledger.outstanding - moved, unproven := s.ledger.unproven + moved))
  }

  function CancelOutstanding(s: Session): (r: Session) {
    s.(ledger := s.ledger.(outstanding := 0, cancelled := s.ledger.cancelled + s.ledger.outstanding))
  }

  function Released(a: Attempt, outcome: AttemptOutcome): Attempt {
    if a.outstanding then a.(outstanding := false, outcome := outcome) else a
  }

  function ReleaseAll(attempts: seq<Attempt>, outcome: AttemptOutcome): (r: seq<Attempt>)
    ensures |r| == |attempts|
    ensures forall i :: 0 <= i < |attempts| ==> r[i] == Released(attempts[i], outcome)
  {
    seq(|attempts|, i requires 0 <= i < |attempts| => Released(attempts[i], outcome))
  }

  function WasteUnverified(l: Ledger): Ledger {
    var unverified := Monus(l.transferred, l.verified);
    l.(transferred := l.transferred - unverified, wasted := l.wasted + unverified)
  }

  /** Ends a session as superseded, cancelled or failed. */
  function Settle(s: Session, state: SessionState): (r: Session) {
    s.(attempts := ReleaseAll(s.attempts, if state.Superseded? then OutcomeSuperseded else OutcomeReleased),
       activeAttempts := 0,
       ledger := WasteUnverified(s.ledger),
       state := state, paused := false, reserved := None)
  }

  // ------------------------------------------------------------- progress

  function EvidenceOf(s: Session): Evidence {
    if AllVerified(s.shards) then VerifiedAtDestinationEvidence
    else if AllSettled(s.shards) then TransferredEvidence
    else if s.sourceComplete then SourceCompleteEvidence
    else NoEvidence
  }

  function ProgressState(s: Session): SessionState {
    if IsTerminal(s.state) || s.state.RevalidationRequired? || s.state.Paused? || s.state.Deferred? then s.state
    else if AllVerified(s.shards) then VerifiedAtDestination
    else if AllSettled(s.shards) then Transferred
    else if SomeUnresolved(s.shards) then Transferring
    else if s.sourceComplete then SourceComplete
    else Admitted
  }

  predicate TargetReached(s: Session, requireVerification: bool) {
    if requireVerification then AllVerified(s.shards) else AllSettled(s.shards)
  }

  /** Recomputes evidence and state, and completes the session once its target is reached. */
  function Progress(s: Session, requireVerification: bool): (r: Session) {
    var t := s.(evidence := EvidenceOf(s), state := ProgressState(s));
    if TargetReached(s, requireVerification) && !IsTerminal(t.state) then
      t.(state := TrafficSessionComplete, reserved := None, ledger := t.ledger.(outstanding := 0))
    else t
  }

  // --------------------------------------------------------------- commands

  function Trim(attempts: seq<Attempt>, bound: nat): seq<Attempt> {
    if |attempts| > bound then attempts[|attempts| - bound..] else attempts
  }

  function Grant(s: Session, p: nat, id: AttemptId, chunk: nat, bound: nat): (r: Session)
    requires p < |s.shards|
  {
    var n := s.attemptCounter + 1;
    s.(attemptCounter := n,
       attempts := Trim(s.attempts + [Attempt(id, n, s.shards[p].index, OutcomeInFlight, chunk, 0, true)], bound),
       shards := s.shards[p := s.shards[p].(state := ShardInFlight, sequence := n, attempt := Some(id), granted := chunk)],
       activeAttempts := s.activeAttempts + 1,
       state := if s.state.Admitted? || s.state.SourceComplete? then Transferring else s.state)
  }

  function NoteSource(s: Session, p: nat, bytes: nat): (r: Session)
    requires p < |s.shards|
  {
    var h := s.shards[p];
    var shards := s.shards[p := h.(sourceComplete := true, sourceBytes := bytes,
                                   state := if h.state.ShardPending? || h.state.ShardGranted? then ShardInFlight else h.state)];
    s.(shards := shards, sourceComplete := AllSourced(shards))
  }

  /** Bytes reported as arrived, before it is known whether the sink acknowledged them. */
  function Observe(s: Session, a: nat, arrived: nat): (r: Session)
    requires a < |s.attempts|
  {
    s.(attempts := s.attempts[a := s.attempts[a].(delivered := arrived)])
  }

  /** The sink acknowledged everything the attempt delivered so far. */
  function Acknowledge(s: Session, p: nat, a: nat, newly: nat): (r: Session)
    requires p < |s.shards| && a < |s.attempts| && newly <= s.ledger.outstanding
  {
    var h := s.shards[p];
    var arrived := h.transferred + newly;
    s.(attempts := s.attempts[a := s.attempts[a].(outcome := OutcomeDeliveredAcked, outstanding := false)],
       ledger := s.ledger.(outstanding := s.ledger.outstanding - newly, transferred := s.ledger.transferred + newly),
       shards := s.shards[p := h.(transferred := arrived,
                                  state := if arrived >= h.declared && !h.state.ShardVerified? then ShardTransferred else h.state)],
       activeAttempts := Monus(s.activeAttempts, 1))
  }

  function Unacknowledged(s: Session, a: nat): (r: Session)
    requires a < |s.attempts|
  {
    s.(attempts := s.attempts[a := s.attempts[a].(outcome := OutcomeDeliveredUnacked)])
  }

  function Verify(s: Session, p: nat, a: nat): (r: Session)
    requires p < |s.shards| && a < |s.attempts|
  {
    var h := s.shards[p];
    s.(shards := s.shards[p := h.(verified := h.declared, state := ShardVerified)],
       attempts := s.attempts[a := s.attempts[a].(outcome := OutcomeVerified)],
       ledger := s.ledger.(verified := s.ledger.verified + Monus(h.declared, h.verified)))
  }

  function Reject(s: Session, p: nat, a: nat): (r: Session)
    requires p < |s.shards| && a < |s.attempts|
  {
    s.(shards := s.shards[p := s.shards[p].(state := ShardFailed)],
       attempts := s.attempts[a := s.attempts[a].(outcome := OutcomeFailed)])
  }

  /** Truncated delivery: what arrived is wasted and the shard is authorised again. */
  function Truncate(s: Session, p: nat, a: nat): (r: Session)
    requires p < |s.shards| && a < |s.attempts|
  {
    var h := s.shards[p];
    var l := s.ledger;
    s.(shards := s.shards[p := h.(state := ShardPending, sequence := 0, transferred := 0, granted := 0, attempt := None)],
       attempts := s.attempts[a := s.attempts[a].(outcome := OutcomeFailed, outstanding := false)],
       activeAttempts := if s.attempts[a].outstanding then Monus(s.activeAttempts, 1) else s.activeAttempts,
       ledger := l.(transferred := Monus(l.transferred, h.transferred), wasted := l.wasted + h.transferred,
                    outstanding := l.outstanding + h.transferred, admitted := l.admitted + h.transferred))
  }

  /** The sink's verdict on an attempt is unknown. */
  function Doubt(s: Session, p: nat, a: nat): (r: Session)
    requires p < |s.shards| && a < |s.attempts|
  {
    var t := s.(shards := s.shards[p := s.shards[p].(state := ShardAmbiguous)],
                attempts := s.attempts[a := s.attempts[a].(outcome := OutcomeAmbiguous, outstanding := false)],
                activeAttempts := Monus(s.activeAttempts, 1));
    Unprove(t, Monus(s.attempts[a].granted, s.attempts[a].delivered))
  }

  /** The sender reports that an attempt's fate is unknown. */
  function Disown(s: Session, a: nat): (r: Session)
    requires a < |s.attempts|
  {
    var p := Position(s.shards, s.attempts[a].shard);
    var t := s.(shards := if p < |s.shards| && !IsSettled(s.shards[p])
                          then s.shards[p := s.shards[p].(state := ShardAmbiguous)] else s.shards,
                attempts := s.attempts[a := s.attempts[a].(outcome := OutcomeAmbiguous, outstanding := false)],
                activeAttempts := if s.attempts[a].outstanding then Monus(s.activeAttempts, 1) else s.activeAttempts);
    Unprove(t, Monus(s.attempts[a].granted, s.attempts[a].delivered))
  }

  function RestartAttempt(a: Attempt): Attempt {
    a.(outstanding := false,
       outcome := if a.outcome.OutcomeGranted? || a.outcome.OutcomeInFlight? || a.outcome.OutcomeDeliveredUnacked?
                  then OutcomeAmbiguous else a.outcome)
  }

  function RestartShard(h: Shard): Shard {
    if h.state.ShardGranted? || h.state.ShardInFlight? then
      h.(state := ShardPending, sequence := 0, attempt := None, granted := 0)
    else h
  }

  function RestartAttempts(attempts: seq<Attempt>): (r: seq<Attempt>)
    ensures |r| == |attempts|
    ensures forall i :: 0 <= i < |attempts| ==> r[i] == RestartAttempt(attempts[i])
  {
    seq(|attempts|, i requires 0 <= i < |attempts| => RestartAttempt(attempts[i]))
  }

  function RestartShards(shards: seq<Shard>): (r: seq<Shard>)
    ensures |r| == |shards|
    ensures forall i :: 0 <= i < |shards| ==> r[i] == RestartShard(shards[i])
  {
    seq(|shards|, i requires 0 <= i < |shards| => RestartShard(shards[i]))
  }

  /** A coordinator restart: nothing dynamic survives, bytes at risk become unproven. */
  function Restart(s: Session): (r: Session) {
    var t := Unprove(s, SeqTotal(s.attempts, AtRiskOf));
    t.(attempts := RestartAttempts(s.attempts), activeAttempts := 0, shards := RestartShards(s.shards),
       state := RevalidationRequired, paused := false)
  }

  // ------------------------------------------------------- preservation

  lemma PositionStable(a: seq<Shard>, b: seq<Shard>, index: nat)
    requires |a| == |b|
    requires forall i :: 0 <= i < |a| ==> a[i].index == b[i].index
    ensures Position(a, index) == Position(b, index)
  {
    var p, q := Position(a, index), Position(b, index);
    assert p < |a| ==> b[p].index == index;
    assert q < |b| ==> a[q].index == index;
  }

  lemma PositionOf(s: Session, p: nat)
    requires Shaped(s.request.manifest, s.shards) && p < |s.shards|
    ensures Position(s.shards, s.shards[p].index) == p
  {
    var q := Position(s.shards, s.shards[p].index);
    assert s.request.manifest.shards[q].index == s.request.manifest.shards[p].index;
  }

  /** In a running session everything admitted and not wasted is accounted for by its shards. */
  lemma SettledMeansAllArrived(s: Session)
    requires CoreOk(s) && !IsTerminal(s.state) && AllSettled(s.shards)
    ensures s.ledger.transferred == s.request.manifest.total
    ensures s.ledger.unproven == 0 && s.ledger.outstanding == 0
  {
    SeqTotalAlike(s.shards, s.request.manifest.shards, ShardBytes, DescriptorBytes);
  }

  lemma SettledMeansNoLiveAttempt(s: Session)
    requires CoreOk(s) && AllSettled(s.shards)
    ensures forall i :: 0 <= i < |s.attempts| ==> !s.attempts[i].outstanding
    ensures s.activeAttempts == 0
  {
    forall i | 0 <= i < |s.attempts| ensures !s.attempts[i].outstanding {
      assert LiveAttemptSound(s.shards, s.attempts[i]);
    }
    NoneLive(s.attempts);
  }

  lemma {:induction false} NoneLive(attempts: seq<Attempt>)
    requires forall i :: 0 <= i < |attempts| ==> !attempts[i].outstanding
    ensures SeqTotal(attempts, LiveOne) == 0
  {
    if attempts != [] { NoneLive(attempts[1..]); }
  }

  lemma SoundCore(s: Session)
    requires SessionOk(s)
    ensures CoreOk(s)
  {
    hide CoreOk;
  }

  /** Shards that stand alike support the same claims. */
  lemma ClaimsKept(s: Session, shards: seq<Shard>)
    requires |shards| == |s.shards|
    requires forall i :: 0 <= i < |shards| ==> shards[i].sourceComplete == s.shards[i].sourceComplete
    ensures SourceTrue(s.sourceComplete, s.shards) ==> SourceTrue(s.sourceComplete, shards)
    ensures (forall i :: 0 <= i < |shards| ==>
               && (shards[i].state.ShardVerified? <==> s.shards[i].state.ShardVerified?)
               && (shards[i].state.ShardTransferred? <==> s.shards[i].state.ShardTransferred?)) ==>
            (EvidenceTrue(s.evidence, s.shards) ==> EvidenceTrue(s.evidence, shards))
  {
  }

  /** The derived evidence level claims what the shards show. */
  lemma EvidenceDerived(s: Session)
    requires SourceTrue(s.sourceComplete, s.shards)
    ensures EvidenceTrue(EvidenceOf(s), s.shards) || s.shards == []
  {
  }

  lemma VerifiedIsSettled(shards: seq<Shard>)
    ensures AllVerified(shards) ==> AllSettled(shards)
  {
  }

  /** Completion books nothing away: at that point outstanding and unproven are already zero. */
  lemma ProgressOk(s: Session, requireVerification: bool)
    requires CoreOk(s) && !IsTerminal(s.state)
    ensures SessionOk(Progress(s, requireVerification))
    ensures Progress(s, requireVerification).ledger == s.ledger
  {
    hide AttemptsSound, ShardsSound, SomeUnresolved, ShardTableValid, SourceTrue, EvidenceTrue;
    VerifiedIsSettled(s.shards);
    EvidenceDerived(s);
    hide AllVerified, AllSettled;
    if AllSettled(s.shards) {
      SettledMeansAllArrived(s);
      SettledMeansNoLiveAttempt(s);
    }
  }

  lemma UnproveOk(s: Session, bytes: nat)
    requires CoreOk(s)
    ensures CoreOk(Unprove(s, bytes))
  {
  }

  /** An update that releases every attempt and moves no shard bytes keeps attempts sound. */
  lemma QuietUpdate(shards: seq<Shard>, attempts: seq<Attempt>, shards2: seq<Shard>, attempts2: seq<Attempt>)
    requires AttemptsSound(shards, attempts)
    requires |shards| == |shards2| && |attempts| == |attempts2|
    requires forall p :: 0 <= p < |shards| ==>
               && shards2[p].index == shards[p].index && shards2[p].declared == shards[p].declared
               && shards2[p].transferred == shards[p].transferred
               && (shards2[p].attempt == shards[p].attempt || shards2[p].attempt.None?)
    requires forall i :: 0 <= i < |attempts| ==>
               && attempts2[i].id == attempts[i].id && attempts2[i].shard == attempts[i].shard
               && attempts2[i].granted == attempts[i].granted && attempts2[i].delivered == attempts[i].delivered
               && !attempts2[i].outstanding
    ensures AttemptsSound(shards2, attempts2)
  {
    forall i, p | 0 <= i < |attempts2| && 0 <= p < |shards2| ensures RoomFor(shards2[p], attempts2[i]) {
      assert RoomFor(shards[p], attempts[i]);
    }
  }

  /** An update that settles no shard, moves no shard bytes and revives no attempt keeps attempts sound. */
  lemma SoftUpdate(shards: seq<Shard>, attempts: seq<Attempt>, shards2: seq<Shard>, attempts2: seq<Attempt>)
    requires AttemptsSound(shards, attempts)
    requires |shards| == |shards2| && |attempts| == |attempts2|
    requires forall p :: 0 <= p < |shards| ==>
               && shards2[p].index == shards[p].index && shards2[p].declared == shards[p].declared
               && shards2[p].transferred == shards[p].transferred && shards2[p].attempt == shards[p].attempt
               && (IsSettled(shards2[p]) ==> IsSettled(shards[p]))
    requires forall i :: 0 <= i < |attempts| ==>
               && attempts2[i].id == attempts[i].id && attempts2[i].shard == attempts[i].shard
               && attempts2[i].granted == attempts[i].granted && attempts2[i].delivered == attempts[i].delivered
               && (attempts2[i].outstanding ==>
                     && attempts[i].outstanding
                     && (attempts2[i].outcome == attempts[i].outcome || attempts2[i].outcome.OutcomeInFlight? || attempts2[i].outcome.OutcomeDeliveredUnacked?))
    ensures AttemptsSound(shards2, attempts2)
  {
    forall i | 0 <= i < |attempts2| ensures LiveAttemptSound(shards2, attempts2[i]) {
      assert LiveAttemptSound(shards, attempts[i]);
      PositionStable(shards, shards2, attempts[i].shard);
    }
    forall i, p | 0 <= i < |attempts2| && 0 <= p < |shards2| ensures RoomFor(shards2[p], attempts2[i]) {
      assert RoomFor(shards[p], attempts[i]);
    }
  }

  lemma SettleOk(s: Session, state: SessionState)
    requires CoreOk(s) && s.ledger.outstanding == 0
    requires state.Superseded? || state.Cancelled? || state.Failed?
    requires s.evidence.VerifiedAtDestinationEvidence? ==> AllVerified(s.shards)
    ensures SessionOk(Settle(s, state))
    ensures var l := Settle(s, state).ledger;
            l == Ledger(s.ledger.admitted, s.ledger.verified, s.ledger.verified, s.ledger.cancelled,
                        s.ledger.wasted + (s.ledger.transferred - s.ledger.verified), s.ledger.unproven, 0)
  {
    hide SourceTrue, EvidenceTrue;
    var r := Settle(s, state);
    ClaimsKept(s, r.shards);
    NoneLive(r.attempts);
    QuietUpdate(s.shards, s.attempts, r.shards, r.attempts);
  }

  /** A table of the same shards is shaped alike. */
  lemma ShapedAlike(m: Manifest, shards: seq<Shard>, shards2: seq<Shard>)
    requires Shaped(m, shards) && |shards2| == |shards|
    requires forall i :: 0 <= i < |shards| ==>
               && shards2[i].index == shards[i].index && shards2[i].declared == shards[i].declared
               && shards2[i].digest == shards[i].digest
    ensures Shaped(m, shards2)
  {
    hide ShardTableValid, SeqTotal;
  }

  /** Replacing one shard by one with the same identity keeps the table shaped. */
  lemma ShapedReplace(s: Session, p: nat, h: Shard)
    requires Shaped(s.request.manifest, s.shards) && p < |s.shards|
    requires h.index == s.shards[p].index && h.declared == s.shards[p].declared && h.digest == s.shards[p].digest
    ensures Shaped(s.request.manifest, s.shards[p := h])
  {
  }

  lemma DistinctAppend(attempts: seq<Attempt>, a: Attempt)
    requires DistinctIds(attempts)
    requires forall i :: 0 <= i < |attempts| ==> attempts[i].id != a.id
    ensures DistinctIds(attempts + [a])
  {
  }

  /** No retained attempt and no shard already uses the identity. */
  predicate FreshAttempt(s: Session, id: AttemptId) {
    && (forall i :: 0 <= i < |s.attempts| ==> s.attempts[i].id != id)
    && (forall p :: 0 <= p < |s.shards| ==> s.shards[p].attempt != Some(id))
  }

  /** The shard's current attempt, if still retained, is no longer outstanding. */
  predicate PreviousSettled(s: Session, p: nat)
    requires p < |s.shards|
  {
    s.shards[p].attempt.Some? ==>
      var a := AttemptPosition(s.attempts, s.shards[p].attempt.value);
      a < |s.attempts| ==> !s.attempts[a].outstanding
  }

  /** The attempts that trimming drops from the front of the history. */
  function Dropped(attempts: seq<Attempt>, bound: nat): seq<Attempt> {
    attempts[..Monus(|attempts|, bound)]
  }

  /** The attempts that stay on record after the next one still cover the active ones. */
  predicate TrimSpares(attempts: seq<Attempt>, active: nat, bound: nat) {
    SeqTotal(Dropped(attempts, bound), LiveOne) + active <= SeqTotal(attempts, LiveOne)
  }

  lemma GrantAttempts(s: Session, p: nat, id: AttemptId, chunk: nat)
    requires CoreOk(s) && p < |s.shards|
    requires FreshAttempt(s, id) && PreviousSettled(s, p) && !IsSettled(s.shards[p])
    requires chunk <= s.shards[p].declared - s.shards[p].transferred
    ensures var r := Grant(s, p, id, chunk, |s.attempts| + 1); AttemptsSound(r.shards, r.attempts)
  {
    hide SourceTrue, RunningLedger, ShardsSound, Conserves;
    var r := Grant(s, p, id, chunk, |s.attempts| + 1);
    DistinctAppend(s.attempts, r.attempts[|s.attempts|]);
    PositionOf(s, p);
    forall i | 0 <= i < |r.attempts| ensures LiveAttemptSound(r.shards, r.attempts[i]) {
      PositionStable(s.shards, r.shards, r.attempts[i].shard);
      if i < |s.attempts| {
        assert LiveAttemptSound(s.shards, s.attempts[i]);
        assert AttemptPosition(s.attempts, s.attempts[i].id) == i;
      }
    }
    forall i, q | 0 <= i < |r.attempts| && 0 <= q < |r.shards| ensures RoomFor(r.shards[q], r.attempts[i]) {
      if i < |s.attempts| { assert RoomFor(s.shards[q], s.attempts[i]); }
    }
  }

  lemma TrimAttempts(shards: seq<Shard>, attempts: seq<Attempt>, bound: nat)
    requires AttemptsSound(shards, attempts)
    ensures AttemptsSound(shards, Trim(attempts, bound))
    ensures SeqTotal(Dropped(attempts, bound), LiveOne) + SeqTotal(Trim(attempts, bound), LiveOne) == SeqTotal(attempts, LiveOne)
  {
    var n := Monus(|attempts|, bound);
    var kept := attempts[n..];
    assert Trim(attempts, bound) == kept;
    SeqTotalSplit(attempts, n, LiveOne);
    forall i | 0 <= i < |kept| ensures LiveAttemptSound(shards, kept[i]) {
      assert kept[i] == attempts[n + i];
    }
    forall i, p | 0 <= i < |kept| && 0 <= p < |shards| ensures RoomFor(shards[p], kept[i]) {
      assert kept[i] == attempts[n + i];
    }
  }

  lemma GrantShards(s: Session, p: nat, id: AttemptId, chunk: nat, bound: nat)
    requires Shaped(s.request.manifest, s.shards) && ShardsSound(s.shards) && p < |s.shards|
    ensures var r := Grant(s, p, id, chunk, bound);
            && Shaped(r.request.manifest, r.shards) && ShardsSound(r.shards)
            && SeqTotal(r.shards, ShardBytes) == SeqTotal(s.shards, ShardBytes)
            && SeqTotal(r.shards, ShardVerifiedBytes) == SeqTotal(s.shards, ShardVerifiedBytes)
  {
    var r := Grant(s, p, id, chunk, bound);
    SeqTotalAlike(s.shards, r.shards, ShardBytes, ShardBytes);
    SeqTotalAlike(s.shards, r.shards, ShardVerifiedBytes, ShardVerifiedBytes);
  }

  /** A grant keeps the session sound as long as trimming spares enough live attempts. */
  lemma GrantOk(s: Session, p: nat, id: AttemptId, chunk: nat, bound: nat)
    requires SessionOk(s) && !IsTerminal(s.state) && p < |s.shards|
    requires FreshAttempt(s, id) && PreviousSettled(s, p) && !IsSettled(s.shards[p])
    requires chunk <= s.shards[p].declared - s.shards[p].transferred
    requires bound > 0 && TrimSpares(s.attempts, s.activeAttempts, bound - 1)
    ensures SessionOk(Grant(s, p, id, chunk, bound))
  {
    hide AttemptsSound, FreshAttempt, PreviousSettled, Shaped, ShardsSound, SeqTotal, Dropped, Trim, SourceTrue, EvidenceTrue;
    GrantHistory(s, p, id, chunk, bound);
    GrantShards(s, p, id, chunk, bound);
    ClaimsKept(s, Grant(s, p, id, chunk, bound).shards);
  }

  lemma GrantHistory(s: Session, p: nat, id: AttemptId, chunk: nat, bound: nat)
    requires CoreOk(s) && p < |s.shards|
    requires FreshAttempt(s, id) && PreviousSettled(s, p) && !IsSettled(s.shards[p])
    requires chunk <= s.shards[p].declared - s.shards[p].transferred
    requires bound > 0
    ensures var r := Grant(s, p, id, chunk, bound);
            && AttemptsSound(r.shards, r.attempts)
            && SeqTotal(Dropped(s.attempts, bound - 1), LiveOne) + SeqTotal(r.attempts, LiveOne) == SeqTotal(s.attempts, LiveOne) + 1
  {
    hide CoreOk, AttemptsSound, FreshAttempt, PreviousSettled;
    var u := Grant(s, p, id, chunk, |s.attempts| + 1);
    GrantAttempts(s, p, id, chunk);
    SeqTotalAppend(s.attempts, u.attempts[|s.attempts|], LiveOne);
    assert Dropped(u.attempts, bound) == Dropped(s.attempts, bound - 1);
    TrimAttempts(u.shards, u.attempts, bound);
  }

  /** The attempt is the current one of the shard. */
  predicate IsCurrent(s: Session, p: nat, a: nat) {
    p < |s.shards| && a < |s.attempts| && s.shards[p].attempt == Some(s.attempts[a].id)
  }

  /** Settling a shard's current attempt leaves every other attempt as sound as before. */
  lemma CurrentReplace(s: Session, p: nat, a: nat, h: Shard, t: Attempt)
    requires Shaped(s.request.manifest, s.shards) && AttemptsSound(s.shards, s.attempts) && IsCurrent(s, p, a)
    requires h.index == s.shards[p].index
    requires t.id == s.attempts[a].id && t.shard == s.attempts[a].shard && !t.outstanding
    requires h.attempt.None? || h.attempt == Some(t.id)
    requires RoomFor(h, t)
    ensures AttemptsSound(s.shards[p := h], s.attempts[a := t])
    ensures SeqTotal(s.attempts[a := t], LiveOne) + LiveOne(s.attempts[a]) == SeqTotal(s.attempts, LiveOne)
  {
    var shards, attempts := s.shards[p := h], s.attempts[a := t];
    SeqTotalReplace(s.attempts, a, t, LiveOne);
    PositionOf(s, p);
    assert RoomFor(s.shards[p], s.attempts[a]);
    forall i | 0 <= i < |attempts| ensures LiveAttemptSound(shards, attempts[i]) {
      assert LiveAttemptSound(s.shards, s.attempts[i]);
      PositionStable(s.shards, shards, attempts[i].shard);
    }
    forall i, q | 0 <= i < |attempts| && 0 <= q < |shards| ensures RoomFor(shards[q], attempts[i]) {
      assert RoomFor(s.shards[q], s.attempts[i]);
      if i == a && q != p { PositionOf(s, q); }
    }
  }

  /** Verified bytes are a subset of the bytes that arrived. */
  lemma VerifiedWithinTransferred(s: Session)
    requires ShardsSound(s.shards) && RunningLedger(s)
    ensures s.ledger.verified <= s.ledger.transferred
  {
    SeqTotalBelow(s.shards, s.shards, ShardVerifiedBytes, ShardBytes);
  }

  lemma NoteSourceOk(s: Session, p: nat, bytes: nat)
    requires CoreOk(s) && p < |s.shards|
    ensures CoreOk(NoteSource(s, p, bytes))
    ensures NoteSource(s, p, bytes).ledger == s.ledger
    ensures NoteSource(s, p, bytes).sourceComplete <==> forall i :: 0 <= i < |s.shards| && i != p ==> s.shards[i].sourceComplete
  {
    hide AttemptsSound, Shaped;
    var r := NoteSource(s, p, bytes);
    ShapedAlike(s.request.manifest, s.shards, r.shards);
    SoftUpdate(s.shards, s.attempts, r.shards, r.attempts);
    SeqTotalAlike(s.shards, r.shards, ShardBytes, ShardBytes);
    SeqTotalAlike(s.shards, r.shards, ShardVerifiedBytes, ShardVerifiedBytes);
  }

  /** Evidence of arrival keeps the session sound whether or not it goes on to be acknowledged. */
  lemma ObserveOk(s: Session, p: nat, a: nat, arrived: nat)
    requires CoreOk(s) && IsCurrent(s, p, a)
    requires s.attempts[a].delivered <= arrived <= s.attempts[a].granted
    ensures CoreOk(Observe(s, a, arrived))
    ensures Observe(s, a, arrived).ledger == s.ledger
  {
    var r := Observe(s, a, arrived);
    SeqTotalReplace(s.attempts, a, r.attempts[a], LiveOne);
    forall i | 0 <= i < |r.attempts| ensures LiveAttemptSound(r.shards, r.attempts[i]) {
      assert LiveAttemptSound(s.shards, s.attempts[i]);
    }
    forall i, q | 0 <= i < |r.attempts| && 0 <= q < |r.shards| ensures RoomFor(r.shards[q], r.attempts[i]) {
      assert RoomFor(s.shards[q], s.attempts[i]);
    }
  }

  lemma UnacknowledgedOk(s: Session, a: nat)
    requires CoreOk(s) && a < |s.attempts|
    ensures CoreOk(Unacknowledged(s, a))
    ensures Unacknowledged(s, a).ledger == s.ledger && Unacknowledged(s, a).shards == s.shards
  {
    var r := Unacknowledged(s, a);
    SoftUpdate(s.shards, s.attempts, r.shards, r.attempts);
    SeqTotalReplace(s.attempts, a, r.attempts[a], LiveOne);
  }

  /** Only what no earlier report of the attempt had named moves from outstanding to transferred. */
  lemma AcknowledgeOk(s: Session, p: nat, a: nat, arrived: nat)
    requires CoreOk(s) && !IsTerminal(s.state) && IsCurrent(s, p, a)
    requires s.attempts[a].delivered <= arrived <= s.attempts[a].granted
    requires arrived - s.attempts[a].delivered <= s.ledger.outstanding
    ensures var newly := arrived - s.attempts[a].delivered;
            var r := Acknowledge(Observe(s, a, arrived), p, a, newly);
            && CoreOk(r)
            && r.ledger == s.ledger.(outstanding := s.ledger.outstanding - newly, transferred := s.ledger.transferred + newly)
            && s.shards[p].transferred + newly == r.shards[p].transferred <= r.shards[p].declared
            && (IsSettled(r.shards[p]) <==> r.shards[p].transferred == r.shards[p].declared)
  {
    hide SourceTrue, EvidenceTrue, Shaped, DistinctIds;
    var r := Acknowledge(Observe(s, a, arrived), p, a, arrived - s.attempts[a].delivered);
    ClaimsKept(s, r.shards);
    assert RoomFor(s.shards[p], s.attempts[a]);
    assert s.attempts[a := r.attempts[a]] == r.attempts;
    CurrentReplace(s, p, a, r.shards[p], r.attempts[a]);
    ShapedReplace(s, p, r.shards[p]);
    SeqTotalReplace(s.shards, p, r.shards[p], ShardBytes);
    SeqTotalReplace(s.shards, p, r.shards[p], ShardVerifiedBytes);
    VerifiedWithinTransferred(r);
  }

  /** Verification keeps the session sound when the shard had arrived in full. */
  lemma VerifyOk(s: Session, p: nat, a: nat)
    requires CoreOk(s) && !IsTerminal(s.state) && IsCurrent(s, p, a)
    requires s.attempts[a].outcome.OutcomeDeliveredAcked? || s.attempts[a].outcome.OutcomeVerified?
    requires s.shards[p].transferred == s.shards[p].declared
    ensures CoreOk(Verify(s, p, a))
  {
    hide SourceTrue, EvidenceTrue, Shaped, DistinctIds;
    var r := Verify(s, p, a);
    ClaimsKept(s, r.shards);
    assert LiveAttemptSound(s.shards, s.attempts[a]);
    assert RoomFor(s.shards[p], s.attempts[a]);
    CurrentReplace(s, p, a, r.shards[p], r.attempts[a]);
    ShapedReplace(s, p, r.shards[p]);
    SeqTotalReplace(s.shards, p, r.shards[p], ShardBytes);
    SeqTotalReplace(s.shards, p, r.shards[p], ShardVerifiedBytes);
    VerifiedWithinTransferred(r);
  }

  lemma RejectOk(s: Session, p: nat, a: nat)
    requires SessionOk(s) && !IsTerminal(s.state) && p < |s.shards| && a < |s.attempts|
    requires s.ledger.outstanding == 0
    ensures SessionOk(Settle(Reject(s, p, a), Failed))
  {
    hide SourceTrue, EvidenceTrue, AttemptsSound, Shaped, AllVerified;
    var r := Settle(Reject(s, p, a), Failed);
    ClaimsKept(s, r.shards);
    ShapedAlike(s.request.manifest, s.shards, r.shards);
    NoneLive(r.attempts);
    QuietUpdate(s.shards, s.attempts, r.shards, r.attempts);
  }

  /** Re-arming a truncated shard keeps the session sound when none of its bytes were verified. */
  lemma TruncateOk(s: Session, p: nat, a: nat)
    requires CoreOk(s) && !IsTerminal(s.state) && IsCurrent(s, p, a)
    requires s.shards[p].verified == 0
    ensures CoreOk(Truncate(s, p, a))
    ensures var l, bytes := s.ledger, s.shards[p].transferred;
            bytes <= l.transferred &&
            Truncate(s, p, a).ledger == Ledger(l.admitted + bytes, l.transferred - bytes, l.verified, l.cancelled, l.wasted + bytes, l.unproven, l.outstanding + bytes)
  {
    hide SourceTrue, EvidenceTrue, Shaped, DistinctIds;
    var r := Truncate(s, p, a);
    ClaimsKept(s, r.shards);
    CurrentReplace(s, p, a, r.shards[p], r.attempts[a]);
    ShapedReplace(s, p, r.shards[p]);
    SeqTotalReplace(s.shards, p, r.shards[p], ShardBytes);
    SeqTotalReplace(s.shards, p, r.shards[p], ShardVerifiedBytes);
    VerifiedWithinTransferred(r);
  }

  lemma DoubtOk(s: Session, p: nat, a: nat)
    requires CoreOk(s) && p < |s.shards| && a < |s.attempts|
    ensures CoreOk(Doubt(s, p, a))
    ensures var moved := Min(Monus(s.attempts[a].granted, s.attempts[a].delivered), s.ledger.outstanding);
            Doubt(s, p, a).ledger == s.ledger.(outstanding := s.ledger.outstanding - moved, unproven := s.ledger.unproven + moved)
  {
    hide SourceTrue, EvidenceTrue, AttemptsSound, Shaped;
    var r := Doubt(s, p, a);
    ClaimsKept(s, r.shards);
    ShapedAlike(s.request.manifest, s.shards, r.shards);
    SoftUpdate(s.shards, s.attempts, r.shards, r.attempts);
    SeqTotalReplace(s.attempts, a, r.attempts[a], LiveOne);
    SeqTotalAlike(s.shards, r.shards, ShardBytes, ShardBytes);
    SeqTotalAlike(s.shards, r.shards, ShardVerifiedBytes, ShardVerifiedBytes);
  }

  lemma DisownOk(s: Session, a: nat)
    requires CoreOk(s) && a < |s.attempts|
    ensures CoreOk(Disown(s, a))
    ensures var moved := Min(Monus(s.attempts[a].granted, s.attempts[a].delivered), s.ledger.outstanding);
            Disown(s, a).ledger == s.ledger.(outstanding := s.ledger.outstanding - moved, unproven := s.ledger.unproven + moved)
  {
    hide SourceTrue, EvidenceTrue, AttemptsSound, Shaped;
    var r := Disown(s, a);
    ClaimsKept(s, r.shards);
    ShapedAlike(s.request.manifest, s.shards, r.shards);
    SoftUpdate(s.shards, s.attempts, r.shards, r.attempts);
    SeqTotalReplace(s.attempts, a, r.attempts[a], LiveOne);
    SeqTotalAlike(s.shards, r.shards, ShardBytes, ShardBytes);
    SeqTotalAlike(s.shards, r.shards, ShardVerifiedBytes, ShardVerifiedBytes);
  }

  lemma RestartOk(s: Session)
    requires SessionOk(s) && !IsTerminal(s.state)
    ensures SessionOk(Restart(s))
  {
    hide SourceTrue, EvidenceTrue, AttemptsSound, Shaped;
    var r := Restart(s);
    ClaimsKept(s, r.shards);
    ShapedAlike(s.request.manifest, s.shards, r.shards);
    NoneLive(r.attempts);
    QuietUpdate(s.shards, s.attempts, r.shards, r.attempts);
    SeqTotalAlike(s.shards, r.shards, ShardBytes, ShardBytes);
    SeqTotalAlike(s.shards, r.shards, ShardVerifiedBytes, ShardVerifiedBytes);
  }
}
