/** The session limits of the fabric, of each workload and of each class hold over every run. */
module Seats {
  import opened Sums
  import opened Model
  import opened Sessions
  import opened Shaper
  import opened Rates
  import opened Spec
  import opened Invariants
  import opened Commands
  import opened Runs
  import opened Theorems
  import opened Steps
  import opened Decisions

  /** A count that no session starts to fall under later. */
  ghost predicate Counts(count: Session -> nat) {
    forall s, t :: Advances(s, t) ==> count(t) <= count(s)
  }

  lemma SeatCounts(w: WorkloadId, k: IsolationClass)
    ensures Counts(ActiveOne) && Counts(ActiveForWorkload(w)) && Counts(ActiveInClass(k))
  {
  }

  lemma StepVacates(f: Fabric, c: Command, at: Nanos, count: Session -> nat)
    requires Good(f) && Disciplined(f, c, at) && !c.SubmitCmd? && Counts(count)
    ensures Total(Step(f, c, at).0.sessions, count) <= Total(f.sessions, count)
  {
    hide Good, Step, Disciplined, Advances, Observed;
    StepKeys(f, c, at);
    var g := Step(f, c, at).0;
    forall id | id in g.sessions ensures count(g.sessions[id]) <= count(f.sessions[id]) {
      StepAdvances(f, c, at, id);
    }
    TotalSubmap(f.sessions, g.sessions, count);
  }

  lemma ExpireVacates(f: Fabric, at: Nanos, count: Session -> nat)
    requires Good(f) && Counts(count)
    ensures Total(Expire(f, at).sessions, count) <= Total(f.sessions, count)
  {
    hide Good, Expire, Advances, Held;
    ExpireFollows(f, at);
    var h := Expire(f, at);
    forall id | id in h.sessions ensures count(h.sessions[id]) <= count(f.sessions[id]) {
      assert Follows(f.sessions[id], h.sessions[id]);
    }
    TotalSubmap(f.sessions, h.sessions, count);
  }

  lemma OpenedAdds(h: Fabric, r: Request, id: SessionId, k: IsolationClass, path: PathId, rate: nat, deadline: Nanos,
                   table: map<SessionId, Session>, count: Session -> nat)
    requires id !in h.sessions && Opened(h, r, id, k, path, rate, deadline, table)
    requires forall s, t :: Displaced(s, id, t) ==> count(t) <= count(s)
    ensures Total(table, count) <= Total(h.sessions, count) + count(table[id])
  {
    hide Fresh, Displaced;
    TotalRemove(table, id, count);
    TotalSubmap(h.sessions, table - {id}, count);
  }

  lemma DisplacedVacates(id: SessionId, w: WorkloadId, k: IsolationClass)
    ensures forall s, t :: Displaced(s, id, t) ==> ActiveOne(t) <= ActiveOne(s)
    ensures forall s, t :: Displaced(s, id, t) ==> ActiveForWorkload(w)(t) <= ActiveForWorkload(w)(s)
    ensures forall s, t :: Displaced(s, id, t) ==> ActiveInClass(k)(t) <= ActiveInClass(k)(s)
  {
  }

  lemma FreshSeats(t: Session, r: Request, q: IsolationClass, path: PathId, rate: nat, deadline: Nanos, w: WorkloadId, k: IsolationClass)
    requires Fresh(t, r, q, path, rate, deadline)
    ensures ActiveOne(t) == 1
    ensures ActiveForWorkload(w)(t) == if r.workload == w then 1 else 0
    ensures ActiveInClass(k)(t) == if q == k then 1 else 0
  {
  }

  /** How far the three counts may go: no further than before, or than the limit in force. */
  ghost predicate SeatsKept(f: Fabric, table: map<SessionId, Session>, w: WorkloadId, k: IsolationClass) {
    && (|| Total(table, ActiveOne) <= Total(f.sessions, ActiveOne)
        || Total(table, ActiveOne) <= f.policy.maxSessions)
    && (|| Total(table, ActiveForWorkload(w)) <= Total(f.sessions, ActiveForWorkload(w))
        || (w in f.contracts && Total(table, ActiveForWorkload(w)) <= f.contracts[w].maxSessions))
    && (|| Total(table, ActiveInClass(k)) <= Total(f.sessions, ActiveInClass(k))
        || (k in f.policy.envelopes && Total(table, ActiveInClass(k)) <= f.policy.envelopes[k].maxSessions))
  }

  lemma OpenedSeats(h: Fabric, r: Request, id: SessionId, q: IsolationClass, path: PathId, rate: nat, deadline: Nanos,
                    table: map<SessionId, Session>, w: WorkloadId, k: IsolationClass)
    requires id !in h.sessions && Opened(h, r, id, q, path, rate, deadline, table)
    requires r.workload in h.contracts && q in h.policy.envelopes && Seated(h, r, q)
    ensures SeatsKept(h, table, w, k)
  {
    hide Fresh, Displaced, Total, ActiveOne, ActiveForWorkload, ActiveInClass;
    DisplacedVacates(id, w, k);
    OpenedAdds(h, r, id, q, path, rate, deadline, table, ActiveOne);
    OpenedAdds(h, r, id, q, path, rate, deadline, table, ActiveForWorkload(w));
    OpenedAdds(h, r, id, q, path, rate, deadline, table, ActiveInClass(k));
    FreshSeats(table[id], r, q, path, rate, deadline, w, k);
  }

  lemma SubmitTable(f: Fabric, c: Command, at: Nanos, w: WorkloadId, k: IsolationClass)
    requires Good(f) && c.SubmitCmd? && c.id !in f.sessions
    ensures SeatsKept(Expire(f, at), Step(f, c, at).0.sessions, w, k)
  {
    hide Good, Expire, Step, TableFollows, Eligible, Duplicate, Seated, PlanRate, Opened, Presented, Total, RateOn;
    ExpireFollows(f, at);
    var h, r := Expire(f, at), c.request;
    if q, path :| Eligible(h, r, q, path) {
      EligibleKnown(h, r, q, path);
      SubmissionDecides(f, c, at, q, path, 0);
      var plan := PlanRate(r, h.contracts[r.workload], h.policy.envelopes[q], path, Total(h.sessions, RateOn(path.id)));
      if Presented(h, r, c.fence) && r.command !in h.commands && Seated(h, r, q) && plan.Rate? {
        OpenedSeats(h, r, c.id, q, path.id, plan.bps,
                    at + (if r.horizon > 0 then r.horizon else h.contracts[r.workload].deadlineBudget), Step(f, c, at).0.sessions, w, k);
      }
    } else if q, path, twin :| Duplicate(h, r, q, path, twin) {
      SubmissionDecides(f, c, at, q, path, twin);
    } else {
      SubmissionDecides(f, c, at, TrainingCritical, PathClass(0, SyntheticLab, 0), 0);
    }
  }

  /** No command raises the number of running sessions, of the fabric, of a workload or in a class, above the
  limit in force. */
  lemma StepSeats(f: Fabric, c: Command, at: Nanos, w: WorkloadId, k: IsolationClass)
    requires Good(f) && Disciplined(f, c, at)
    ensures SeatsKept(f, Step(f, c, at).0.sessions, w, k)
  {
    hide Good, Expire, Step, Total, Counts, ActiveOne, ActiveForWorkload, ActiveInClass;
    SeatCounts(w, k);
    if c.SubmitCmd? {
      ExpireVacates(f, at, ActiveOne);
      ExpireVacates(f, at, ActiveForWorkload(w));
      ExpireVacates(f, at, ActiveInClass(k));
      SubmitTable(f, c, at, w, k);
    } else {
      StepVacates(f, c, at, ActiveOne);
      StepVacates(f, c, at, ActiveForWorkload(w));
      StepVacates(f, c, at, ActiveInClass(k));
    }
  }

  /** The limits in force up to i never exceed these three numbers. */
  predicate Capped(states: seq<Fabric>, i: nat, fabric: nat, w: WorkloadId, workload: nat, k: IsolationClass, among: nat)
    requires i < |states|
  {
    forall j :: 0 <= j <= i ==>
      && states[j].policy.maxSessions <= fabric
      && (w in states[j].contracts ==> states[j].contracts[w].maxSessions <= workload)
      && (k in states[j].policy.envelopes ==> states[j].policy.envelopes[k].maxSessions <= among)
  }

  /** In every run no more sessions run, in all, for a workload and in a class, than the largest limit there was. */
  lemma {:induction false} RunWithinSeats(states: seq<Fabric>, events: seq<Event>, start: Nanos, i: nat,
                                          fabric: nat, w: WorkloadId, workload: nat, k: IsolationClass, among: nat)
    requires Run(states, events, start) && i < |states| && Capped(states, i, fabric, w, workload, k, among)
    ensures Total(states[i].sessions, ActiveOne) <= fabric
    ensures Total(states[i].sessions, ActiveForWorkload(w)) <= workload
    ensures Total(states[i].sessions, ActiveInClass(k)) <= among
  {
    hide Good, Initial, Disciplined, Step, ActiveOne, ActiveForWorkload, ActiveInClass;
    if i == 0 {
      assert states[0].sessions == map[] by { StartsEmpty(states, events, start); }
    } else {
      RunWithinSeats(states, events, start, i - 1, fabric, w, workload, k, among);
      RunStaysGood(states, events, start, i - 1);
      assert Linked(states[i - 1], events[i - 1], states[i]);
      StepSeats(states[i - 1], events[i - 1].command, events[i - 1].at, w, k);
    }
  }
}
