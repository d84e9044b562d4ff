/** What ends, holds and renews a session, command by command, and what that does to its bytes. */
module Lifecycles {
  import opened Sums
  import opened Model
  import opened Sessions
  import opened Shaper
  import opened Rates
  import opened Spec
  import opened Invariants
  import opened Commands
  import opened Runs
  import opened Theorems
  import opened Departures
  import opened Steps
  import opened Grants

  // ------------------------------------------------------------ endings

  /** A session that ended early: unverified bytes are wasted, and what was outstanding is accounted for elsewhere. */
  predicate Ended(s: Session, state: SessionState, cancelled: nat, unproven: nat, t: Session) {
    && s.ledger.verified <= s.ledger.transferred
    && t.ledger == Ledger(s.ledger.admitted, s.ledger.verified, s.ledger.verified, s.ledger.cancelled + cancelled,
                          s.ledger.wasted + (s.ledger.transferred - s.ledger.verified), s.ledger.unproven + unproven, 0)
    && t.state == state && !t.paused && t.reserved.None? && t.activeAttempts == 0
    && |t.attempts| == |s.attempts|
    && (forall a :: 0 <= a < |t.attempts| ==>
          t.attempts[a] == if s.attempts[a].outstanding then s.attempts[a].(outstanding := false, outcome := OutcomeReleased) else s.attempts[a])
    && t.request == s.request && t.shards == s.shards && t.evidence == s.evidence && t.envelope == s.envelope
  }

  lemma CancelEnds(s: Session)
    requires CoreOk(s)
    ensures Ended(s, Model.Cancelled, s.ledger.outstanding, 0, Settle(CancelOutstanding(s), Model.Cancelled))
  {
    hide Shaped, ShardsSound, AttemptsSound, RunningLedger;
  }

  lemma ExpiryEnds(s: Session)
    requires CoreOk(s)
    ensures Ended(s, Failed, 0, s.ledger.outstanding, Expired(s))
  {
    hide Shaped, ShardsSound, AttemptsSound, RunningLedger;
  }

  /** A cancellation ends an active session, with its outstanding bytes cancelled; a refused one moves nothing. */
  lemma CancelDecides(f: Fabric, id: SessionId, fence: Fence, at: Nanos)
    requires Good(f)
    ensures var h, o := Expire(f, at), Step(f, CancelCmd(id, fence), at);
            if id in h.sessions && !IsTerminal(h.sessions[id].state)
               && fence.epoch == h.epoch && fence.policy == h.policy.generation && fence.topology == h.topology.generation
            then
              && o.1 == Done
              && forall k :: k in o.0.sessions ==>
                   && k in h.sessions
                   && if k == id then Ended(h.sessions[k], Model.Cancelled, h.sessions[k].ledger.outstanding, 0, o.0.sessions[k])
                      else o.0.sessions[k] == h.sessions[k]
            else o.0 == h && o.1.Refused?
  {
    hide Good, Expire, Aged, Store, Settle, CancelOutstanding, CoreOk, SessionOk, Ended, FabricFence;
    ExpireIsScan(f, at);
    var h, o := Expire(f, at), Step(f, CancelCmd(id, fence), at);
    assert FabricFence(h, fence).None? <==>
           fence.epoch == h.epoch && fence.policy == h.policy.generation && fence.topology == h.topology.generation by {
      RootFence(h, fence);
    }
    if id in h.sessions && Active(h.sessions[id]) {
      SessionSound(h, id);
      CancelEnds(h.sessions[id]);
      StoredTable(h, id, Settle(CancelOutstanding(h.sessions[id]), Model.Cancelled));
    }
  }

  lemma RootFence(f: Fabric, fence: Fence)
    ensures FabricFence(f, fence).None? <==>
            fence.epoch == f.epoch && fence.policy == f.policy.generation && fence.topology == f.topology.generation
  {
    FenceAcceptsExactly(fence, AuthorityOf(f, fence.contract));
  }

  /** Enforcing deadlines ends exactly the active sessions that are indexed under a target that has passed, with
  their outstanding bytes never proven, and touches no other record. */
  lemma ExpiryDecides(f: Fabric, at: Nanos, id: SessionId)
    requires Good(f) && id in Expire(f, at).sessions
    ensures var h := Expire(f, at);
            && id in f.sessions
            && var s := f.sessions[id];
               if !IsTerminal(s.state) && s.envelope.deadline <= at && s.envelope.deadline in f.deadlines && id in f.deadlines[s.envelope.deadline]
               then Ended(s, Failed, 0, s.ledger.outstanding, h.sessions[id])
               else h.sessions[id] == s
  {
    hide Good, Expire, Expired, CoreOk, SessionOk, Ended;
    ExpireIsScan(f, at);
    SessionSound(f, id);
    ExpiryEnds(f.sessions[id]);
  }

  // ------------------------------------------------------------ pause and resume

  /** A session is paused exactly when it is active, authorised, not waiting for revalidation and not paused yet;
  it is resumed exactly when it is paused, into the state it was paused in. */
  lemma PauseDecides(f: Fabric, c: Command, at: Nanos)
    requires Good(f) && (c.PauseCmd? || c.ResumeCmd?)
    ensures var h, o := Expire(f, at), Step(f, c, at);
            if c.id in h.sessions && Authorised(h, h.sessions[c.id], c.fence)
               && (c.PauseCmd? ==> var s := h.sessions[c.id]; !IsTerminal(s.state) && !s.state.RevalidationRequired? && !s.paused)
               && (c.ResumeCmd? ==> h.sessions[c.id].paused)
            then
              var s := h.sessions[c.id];
              && o.1 == Done
              && o.0 == h.(sessions := h.sessions[c.id := if c.PauseCmd? then s.(paused := true, pausedFrom := s.state, state := Model.Paused)
                                                          else s.(paused := false, state := s.pausedFrom)])
            else o.0 == h && o.1.Refused?
  {
    hide Good, Expire, Gate, Authorised;
    GateExact(Expire(f, at), c.id, c.fence);
  }

  // ------------------------------------------------------------ revalidation

  /** The session asks for authority again, under a fence that names what is in force. */
  predicate Asks(f: Fabric, id: SessionId, fence: Fence) {
    && id in f.sessions
    && var s := f.sessions[id];
       && Authorised(f, s, fence)
       && (fence.checkpoint.Some? ==> fence.checkpoint.value == s.request.checkpointGeneration)
       && (s.state.RevalidationRequired? || s.state.Deferred?)
       && !f.shuttingDown
  }

  /** A session under a new envelope: same class and path, planned again, with the deadline counted from now. */
  predicate Renewed(s: Session, rate: nat, deadline: Nanos, t: Session) {
    t == s.(envelopeSequence := s.envelopeSequence + 1, envelope := Envelope(s.envelope.isolation, rate, s.envelope.path, deadline),
            reserved := Some(Reservation(s.envelope.path, rate)), state := Admitted, paused := false)
  }

  lemma RenewalAsks(f: Fabric, id: SessionId, fence: Fence)
    requires Good(f)
    ensures Renewing(f, id, fence) <==> Asks(f, id, fence)
  {
    hide SessionsOk, OneActive, ReplayOk, HistoryOk, CompletionOk, ArchiveOk, DeadlinesBut, Provisioned;
    if id in f.sessions {
      FenceAcceptsExactly(fence, AuthorityOf(f, f.contracts[f.sessions[id].request.workload].generation));
    }
  }

  lemma Known(f: Fabric, id: SessionId)
    requires Good(f) && id in f.sessions
    ensures f.sessions[id].request.workload in f.contracts && f.sessions[id].envelope.isolation in f.policy.envelopes
  {
    hide SessionsOk, OneActive, ReplayOk, HistoryOk, CompletionOk, ArchiveOk, DeadlinesBut;
    match f.sessions[id].envelope.isolation
    case TrainingCritical =>
    case ServingLatency =>
    case TrainingBulk =>
    case BestEffort =>
  }

  /** Everything a revalidation can come to: nothing, without its path; a new envelope under a larger sequence at
  the planned rate; a deferral for now; or the end of the session when a ceiling no longer covers it. */
  lemma RevalidationDecides(f: Fabric, id: SessionId, fence: Fence, at: Nanos)
    requires Good(f)
    ensures var h, o := Expire(f, at), Step(f, RevalidateCmd(id, fence), at);
            if !Asks(h, id, fence) then o.0 == h && o.1.Refused?
            else
              var s := h.sessions[id];
              && s.request.workload in h.contracts && s.envelope.isolation in h.policy.envelopes
              && var c, path := h.contracts[s.request.workload], PathOf(h.topology, s.envelope.path);
                 if path.None? then o == (h, Decided(Defer, Some(DestinationNotPermitted), Some(id)))
                 else
                   match PlanRate(s.request, c, h.policy.envelopes[s.envelope.isolation], path.value, Total(h.sessions, RateOn(s.envelope.path)))
                   case Rate(bps) =>
                     && o.1 == Decided(Admit, None, Some(id)) && id in o.0.sessions
                     && Renewed(s, bps, at + (if s.request.horizon > 0 then s.request.horizon else c.deadlineBudget), o.0.sessions[id])
                     && o.0.sessions == h.sessions[id := o.0.sessions[id]]
                   case NoRate(reason) =>
                     if reason.RequestedRateUnsupported? || reason.DeadlineUnreachable?
                     then o.1 == Decided(Deny, Some(reason), Some(id))
                          && (id in o.0.sessions ==> Ended(s, Failed, 0, s.ledger.outstanding, o.0.sessions[id]))
                     else o == (h.(sessions := h.sessions[id := s.(state := Deferred)]), Decided(Defer, Some(reason), Some(id)))
  {
    hide Good, Expire, Aged, Asks, Replan, PlanRate, Ended, Renewing, CheckFence, CheckpointFence, Total, RateOn;
    ExpireIsScan(f, at);
    var h := Expire(f, at);
    RenewalAsks(h, id, fence);
    RenewingReplans(f, id, fence, at);
    if Asks(h, id, fence) {
      AsksKnown(h, id, fence);
      Known(h, id);
      ReplanDecides(h, id, at);
    }
  }

  lemma AsksKnown(f: Fabric, id: SessionId, fence: Fence)
    requires Asks(f, id, fence)
    ensures id in f.sessions
  {
  }

  lemma RenewingReplans(f: Fabric, id: SessionId, fence: Fence, at: Nanos)
    ensures var h, o := Expire(f, at), Revalidate(f, id, fence, at);
            if Renewing(h, id, fence) then id in h.sessions && o == Replan(h, id, at) else o.0 == h && o.1.Refused?
  {
    hide Expire, Replan, CheckFence;
  }

  lemma ReplanDecides(h: Fabric, id: SessionId, at: Nanos)
    requires Good(h) && id in h.sessions
    requires h.sessions[id].request.workload in h.contracts && h.sessions[id].envelope.isolation in h.policy.envelopes
    ensures var s, o := h.sessions[id], Replan(h, id, at);
            var c, path := h.contracts[s.request.workload], PathOf(h.topology, s.envelope.path);
            if path.None? then o == (h, Decided(Defer, Some(DestinationNotPermitted), Some(id)))
            else
              match PlanRate(s.request, c, h.policy.envelopes[s.envelope.isolation], path.value, Total(h.sessions, RateOn(s.envelope.path)))
              case Rate(bps) =>
                && o.1 == Decided(Admit, None, Some(id)) && id in o.0.sessions
                && Renewed(s, bps, at + (if s.request.horizon > 0 then s.request.horizon else c.deadlineBudget), o.0.sessions[id])
                && o.0.sessions == h.sessions[id := o.0.sessions[id]]
              case NoRate(reason) =>
                if reason.RequestedRateUnsupported? || reason.DeadlineUnreachable?
                then o.1 == Decided(Deny, Some(reason), Some(id))
                     && (id in o.0.sessions ==> Ended(s, Failed, 0, s.ledger.outstanding, o.0.sessions[id]))
                else o == (h.(sessions := h.sessions[id := s.(state := Deferred)]), Decided(Defer, Some(reason), Some(id)))
  {
    hide Good, PlanRate, Ended, Expired, Settle, DenyRevalidation, IndexDeadline, SessionOk, CoreOk, Total, RateOn;
    SessionSound(h, id);
    var s := h.sessions[id];
    ExpiryEnds(s);
    if id in DenyRevalidation(h, id, Expired(s)).sessions { PrunedOther(h, id, Expired(s), id); }
  }

  // ------------------------------------------------------------ authority

  /** Every running session has to be revalidated, and nothing else about it changed. */
  predicate Suspends(s: Session, t: Session) {
    t == if IsTerminal(s.state) then s else s.(state := RevalidationRequired)
  }

  /** A policy replaces the one in force exactly when it is valid and newer, and then every session has to be revalidated. */
  lemma PolicyDecides(f: Fabric, p: Policy, at: Nanos)
    requires Good(f)
    ensures var o := Step(f, PolicyCmd(p), at);
            if f.policy.generation < p.generation && PolicyValid(p) then
              && o.1 == Done && o.0 == f.(policy := p, credit := o.0.credit, sessions := o.0.sessions)
              && o.0.sessions.Keys == f.sessions.Keys && forall id :: id in f.sessions ==> Suspends(f.sessions[id], o.0.sessions[id])
            else o.0 == f && o.1.Refused?
  {
    hide Good, PolicyValid, ContractsValid, ClassCredit, WorkloadCredit;
    ProvisionedContracts(f);
  }

  /** The same for a topology. */
  lemma TopologyDecides(f: Fabric, t: Topology, at: Nanos)
    requires Good(f)
    ensures var o := Step(f, TopologyCmd(t), at);
            if f.topology.generation < t.generation && TopologyValid(t, f.limits) then
              && o.1 == Done && o.0 == f.(topology := t, sessions := o.0.sessions)
              && o.0.sessions.Keys == f.sessions.Keys && forall id :: id in f.sessions ==> Suspends(f.sessions[id], o.0.sessions[id])
            else o.0 == f && o.1.Refused?
  {
    hide Good, TopologyValid;
  }

  /** A contract is accepted exactly when it is valid and newer than the workload's or, as its first one, when there is
  room for one more; then the workload's sessions, and no others, have to be revalidated. */
  lemma ContractDecides(f: Fabric, k: Contract, at: Nanos)
    requires Good(f)
    ensures var o := Step(f, ContractCmd(k), at);
            if ContractValid(k) && if k.workload in f.contracts then f.contracts[k.workload].generation < k.generation
                                   else |f.contracts| < f.limits.maxWorkloads
            then
              && o.1 == Done && o.0 == f.(contracts := f.contracts[k.workload := k], credit := o.0.credit, sessions := o.0.sessions)
              && o.0.sessions.Keys == f.sessions.Keys
              && forall id :: id in f.sessions ==>
                   if f.sessions[id].request.workload == k.workload then Suspends(f.sessions[id], o.0.sessions[id])
                   else o.0.sessions[id] == f.sessions[id]
            else o.0 == f && o.1.Refused?
  {
    hide Good, Configured;
  }

  /** A coordinator restart in raw terms: attempts that were in flight are of unknown fate, their shards start over,
  and the undelivered bytes, as far as they are outstanding, are unproven. */
  predicate StartsOver(s: Session, t: Session) {
    if IsTerminal(s.state) then t == s
    else
      && t.state.RevalidationRequired? && !t.paused && t.activeAttempts == 0
      && t.request == s.request && t.evidence == s.evidence && t.envelope == s.envelope && t.reserved == s.reserved
      && |t.shards| == |s.shards| && |t.attempts| == |s.attempts|
      && (forall p :: 0 <= p < |s.shards| ==>
            t.shards[p] == if s.shards[p].state.ShardGranted? || s.shards[p].state.ShardInFlight?
                           then s.shards[p].(state := ShardPending, sequence := 0, attempt := None, granted := 0) else s.shards[p])
      && (forall a :: 0 <= a < |s.attempts| ==>
            && t.attempts[a].id == s.attempts[a].id && !t.attempts[a].outstanding
            && t.attempts[a].outcome == if s.attempts[a].outcome.OutcomeGranted? || s.attempts[a].outcome.OutcomeInFlight?
                                           || s.attempts[a].outcome.OutcomeDeliveredUnacked? then OutcomeAmbiguous else s.attempts[a].outcome)
      && s.ledger.outstanding <= t.ledger.outstanding + SeqTotal(s.attempts, AtRiskOf)
      && t.ledger.unproven + t.ledger.outstanding == s.ledger.unproven + s.ledger.outstanding
      && (t.ledger.outstanding == 0 || s.ledger.outstanding == t.ledger.outstanding + SeqTotal(s.attempts, AtRiskOf))
      && t.ledger == s.ledger.(unproven := t.ledger.unproven, outstanding := t.ledger.outstanding)
  }

  lemma RestartStartsOver(s: Session)
    ensures StartsOver(s, Restarted(s))
  {
    hide SeqTotal;
  }

  /** The epoch advances exactly to a later one; every running session then starts over, and no deadline is left. */
  lemma EpochDecides(f: Fabric, e: Epoch, at: Nanos)
    requires Good(f)
    ensures var o := Step(f, EpochCmd(e), at);
            if f.epoch.incarnation < e.incarnation || (f.epoch.incarnation == e.incarnation && f.epoch.term < e.term) then
              && o.1 == Done && o.0.epoch == e && o.0.deadlines == map[] && o.0.sessions.Keys == f.sessions.Keys
              && o.0 == f.(epoch := e, deadlines := map[], sessions := o.0.sessions)
              && forall id :: id in f.sessions ==> StartsOver(f.sessions[id], o.0.sessions[id])
            else o.0 == f && o.1.Refused?
  {
    hide Good, Restarted, StartsOver;
    forall id | id in f.sessions ensures StartsOver(f.sessions[id], Restarted(f.sessions[id])) { RestartStartsOver(f.sessions[id]); }
  }

  /** A policy fills every bucket again, a contract its workload's; a workload's burst is a tenth of a second. */
  lemma CreditDecides(f: Fabric, c: Command, at: Nanos, k: IsolationClass, w: WorkloadId)
    requires Good(f) && (c.PolicyCmd? || c.TopologyCmd? || c.ContractCmd? || c.EpochCmd?) && Step(f, c, at).1.Done?
    ensures var b := Step(f, c, at).0.credit;
            && (if c.PolicyCmd? && k in c.policy.envelopes
                then && c.policy.envelopes[k].ceiling < U64 && c.policy.envelopes[k].burstWindow < U64 && k in b.classes
                     && b.classes[k] == Configured(c.policy.envelopes[k].ceiling, c.policy.envelopes[k].burstWindow, at)
                else (k in b.classes <==> k in f.credit.classes) && (k in b.classes ==> b.classes[k] == f.credit.classes[k]))
            && (if c.PolicyCmd? && w in f.contracts
                then f.contracts[w].ceiling < U64 && w in b.workloads && b.workloads[w] == Configured(f.contracts[w].ceiling, 100_000_000, at)
                else if c.ContractCmd? && w == c.contract.workload
                then c.contract.ceiling < U64 && w in b.workloads && b.workloads[w] == Configured(c.contract.ceiling, 100_000_000, at)
                else (w in b.workloads <==> w in f.credit.workloads) && (w in b.workloads ==> b.workloads[w] == f.credit.workloads[w]))
  {
    hide Good, Configured, Demanded, DemandedOf, AllRestarted, TopologyValid;
    ProvisionedContracts(f);
  }

  // ------------------------------------------------------------ history

  lemma HistoryRest(sessions: map<SessionId, Session>, order: seq<SessionId>)
    requires HistoryOk(sessions, order) && order != []
    ensures order[0] in sessions && !Active(sessions[order[0]])
    ensures HistoryOk(sessions - {order[0]}, order[1..]) && |sessions - {order[0]}| == |sessions| - 1
  {
    var id := order[0];
    assert (sessions - {id}).Keys == sessions.Keys - {id};
    assert forall k :: k in order[1..] ==> k in order && k != id;
  }

  /** How many of the oldest finished sessions an eviction drops: as many as the table is too large, if there are. */
  function Excess(size: nat, target: nat, finished: nat): nat {
    if size <= target then 0 else if size - target <= finished then size - target else finished
  }

  function DropFirst(f: Fabric): Fabric
    requires f.terminalOrder != [] && f.terminalOrder[0] in f.sessions
  {
    var id := f.terminalOrder[0];
    f.(terminalOrder := f.terminalOrder[1..], sessions := f.sessions - {id}, pruned := Archive(f.pruned, f.sessions[id].ledger))
  }

  lemma EvictUnfolds(f: Fabric, target: nat)
    requires HistoryOk(f.sessions, f.terminalOrder)
    ensures if |f.sessions| <= target || f.terminalOrder == [] then Evict(f, target) == f
            else f.terminalOrder[0] in f.sessions && Evict(f, target) == Evict(DropFirst(f), target)
  {
    if f.terminalOrder != [] { assert f.terminalOrder[0] in f.terminalOrder; }
  }

  lemma FirstOf(order: seq<SessionId>, n: nat)
    requires 0 < n <= |order|
    ensures order[n..] == order[1..][n - 1..]
    ensures forall k :: k in order[..n] <==> k == order[0] || k in order[1..][..n - 1]
  {
    assert order[..n] == [order[0]] + order[1..][..n - 1];
  }

  /** Eviction drops the oldest finished sessions, and no more of them than it has to. */
  lemma {:induction false} EvictDecides(f: Fabric, target: nat)
    requires HistoryOk(f.sessions, f.terminalOrder)
    ensures var g, n := Evict(f, target), Excess(|f.sessions|, target, |f.terminalOrder|);
            && g.terminalOrder == f.terminalOrder[n..]
            && (forall k :: k in g.sessions <==> k in f.sessions && k !in f.terminalOrder[..n])
            && (forall k :: k in g.sessions ==> g.sessions[k] == f.sessions[k])
            && |g.sessions| == |f.sessions| - n
    decreases |f.terminalOrder|
  {
    hide Evict, HistoryOk;
    EvictUnfolds(f, target);
    if |f.sessions| > target && f.terminalOrder != [] {
      HistoryRest(f.sessions, f.terminalOrder);
      EvictDecides(DropFirst(f), target);
      FirstOf(f.terminalOrder, Excess(|f.sessions|, target, |f.terminalOrder|));
    }
  }

  /** When a session ends it joins the history; a table that is then beyond its bound is cut back to three quarters of
  it, oldest first, and a table within its bound loses nothing. */
  lemma HistoryDecides(f: Fabric, id: SessionId, t: Session)
    requires HistoryOk(f.sessions, f.terminalOrder) && id in f.sessions && Active(f.sessions[id]) && !Active(t)
    ensures var g, order := Store(f, id, t), f.terminalOrder + [id];
            var n := if |f.sessions| <= f.retentionBound then 0 else Excess(|f.sessions|, f.retentionBound * 3 / 4, |order|);
            && g.terminalOrder == order[n..]
            && (forall k :: k in g.sessions <==> k in f.sessions && k !in order[..n])
            && (forall k :: k in g.sessions ==> k in f.sessions && g.sessions[k] == if k == id then t else f.sessions[k])
  {
    hide HistoryOk, Evict;
    var g := f.(sessions := f.sessions[id := t], terminalOrder := f.terminalOrder + [id]);
    assert g.sessions.Keys == f.sessions.Keys;
    assert |g.sessions| == |g.sessions.Keys| == |f.sessions.Keys| == |f.sessions|;
    assert HistoryOk(g.sessions, g.terminalOrder) by { HistoryGrows(f, id, t); }
    EvictDecides(g, f.retentionBound * 3 / 4);
  }

  lemma HistoryGrows(f: Fabric, id: SessionId, t: Session)
    requires HistoryOk(f.sessions, f.terminalOrder) && id in f.sessions && Active(f.sessions[id]) && !Active(t)
    ensures HistoryOk(f.sessions[id := t], f.terminalOrder + [id])
  {
  }

  // ------------------------------------------------------------ replay memory

  lemma MemoryRest(commands: map<CommandId, CommandRecord>, order: seq<CommandId>)
    requires NoDuplicates(order) && order != []
    ensures NoDuplicates(order[1..]) && order[0] !in order[1..]
  {
  }

  /** Forgetting drops the oldest commands beyond the bound. */
  lemma {:induction false} ForgetDecides(f: Fabric)
    requires NoDuplicates(f.commandOrder)
    ensures var g, n := Forget(f), if |f.commandOrder| <= f.commandBound then 0 else |f.commandOrder| - f.commandBound;
            && g.commandOrder == f.commandOrder[n..]
            && (forall k :: k in g.commands <==> k in f.commands && k !in f.commandOrder[..n])
            && (forall k :: k in g.commands ==> g.commands[k] == f.commands[k])
    decreases |f.commandOrder|
  {
    hide NoDuplicates;
    if |f.commandOrder| > f.commandBound {
      MemoryRest(f.commands, f.commandOrder);
      ForgetDecides(f.(commands := f.commands - {f.commandOrder[0]}, commandOrder := f.commandOrder[1..]));
      FirstOf(f.commandOrder, |f.commandOrder| - f.commandBound);
    }
  }

  /** A newly decided command is remembered beside the most recent others: four for each session of history that
  the policy retains, but at least 64 and at most 4096 in all. */
  lemma MemoryDecides(f: Fabric, command: CommandId, record: CommandRecord)
    requires Good(f) && command !in f.commands
    ensures var g, order, wanted := Remember(f, command, record), f.commandOrder + [command], 4 * f.policy.retainedHistory;
            var bound := if wanted < 64 then 64 else if wanted > 4096 then 4096 else wanted;
            var n := if |order| <= bound then 0 else |order| - bound;
            && g.commandOrder == order[n..] && command in g.commands && g.commands[command] == record
            && (forall k :: k != command ==> (k in g.commands <==> k in f.commands && k !in order[..n]))
            && (forall k :: k in g.commands && k != command ==> g.commands[k] == f.commands[k])
  {
    hide Good, Forget, NoDuplicates;
    assert NoDuplicates(f.commandOrder + [command]) by { MemoryGrows(f, command); }
    ForgetDecides(f.(commandOrder := f.commandOrder + [command], commandBound := Max(64, Min(f.policy.retainedHistory * 4, 4096))));
  }

  lemma MemoryGrows(f: Fabric, command: CommandId)
    requires Good(f) && command !in f.commands
    ensures NoDuplicates(f.commandOrder + [command])
  {
    hide SessionsOk, OneActive, HistoryOk, CompletionOk, ArchiveOk, Contracted, DeadlinesBut, Provisioned;
  }
}
