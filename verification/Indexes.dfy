/** The counters and secondary indexes the engine keeps beside its session table,
and how each elementary change of the table shows in the scans they stand for. */
module Indexes {
  import opened Sums
  import opened Model
  import opened Sessions
  import opened Spec

  /** The running aggregate. */
  datatype Accounting = Accounting(bytes: Ledger, activeSessions: nat, activeAttempts: nat)

  function CountAt<K>(m: map<K, nat>, k: K): nat { if k in m then m[k] else 0 }

  function ListAt<K>(m: map<K, seq<SessionId>>, k: K): seq<SessionId> { if k in m then m[k] else [] }

  ghost predicate BooksAgree(a: Accounting, sessions: map<SessionId, Session>, pruned: Ledger) {
    a.bytes == Books(sessions, pruned) && a.activeAttempts == Total(sessions, AttemptsOf)
  }

  ghost predicate ActiveAgree(count: nat, perClass: map<IsolationClass, nat>, perWorkload: map<WorkloadId, nat>,
                              sessions: map<SessionId, Session>)
  {
    && count == Total(sessions, ActiveOne)
    && (forall c :: c in perClass && perClass[c] == Total(sessions, ActiveInClass(c)))
    && (forall w :: CountAt(perWorkload, w) == Total(sessions, ActiveForWorkload(w)))
  }

  ghost predicate ReservationsAgree(reservations: map<PathId, nat>, sessions: map<SessionId, Session>) {
    forall p :: CountAt(reservations, p) == Total(sessions, RateOn(p))
  }

  function CheckpointOf(s: Session): nat { s.request.checkpoint }

  function WorkloadOf(s: Session): nat { s.request.workload }

  function Entries(ids: seq<SessionId>): nat { |ids| }

  /** An index from a key of the session to the sessions that carry it. */
  ghost predicate IndexAgrees(index: map<nat, seq<SessionId>>, sessions: map<SessionId, Session>, key: Session -> nat) {
    && (forall k, id :: k in index && id in index[k] ==> id in sessions && key(sessions[id]) == k)
    && (forall id :: id in sessions ==> id in ListAt(index, key(sessions[id])))
    && EachDistinct(index)
    && Total(index, Entries) == |sessions|
  }

  predicate EachDistinct(index: map<nat, seq<SessionId>>) {
    forall k :: k in index ==> NoDuplicates(index[k])
  }

  // ------------------------------------------------------------- replacement

  /** Totals after one record is replaced, bucket by bucket. */
  ghost predicate Shifted(before: Ledger, after: Ledger, s: Ledger, t: Ledger) {
    && after.admitted + s.admitted == before.admitted + t.admitted
    && after.transferred + s.transferred == before.transferred + t.transferred
    && after.verified + s.verified == before.verified + t.verified
    && after.cancelled + s.cancelled == before.cancelled + t.cancelled
    && after.wasted + s.wasted == before.wasted + t.wasted
    && after.unproven + s.unproven == before.unproven + t.unproven
    && after.outstanding + s.outstanding == before.outstanding + t.outstanding
  }

  ghost predicate Covers(total: Ledger, part: Ledger) {
    && part.admitted <= total.admitted && part.transferred <= total.transferred && part.verified <= total.verified
    && part.cancelled <= total.cancelled && part.wasted <= total.wasted && part.unproven <= total.unproven
    && part.outstanding <= total.outstanding
  }

  lemma BooksReplace(sessions: map<SessionId, Session>, pruned: Ledger, id: SessionId, t: Session)
    requires id in sessions
    ensures Shifted(Books(sessions, pruned), Books(sessions[id := t], pruned), sessions[id].ledger, t.ledger)
    ensures Covers(Books(sessions, pruned), sessions[id].ledger)
    ensures Total(sessions[id := t], AttemptsOf) + sessions[id].activeAttempts == Total(sessions, AttemptsOf) + t.activeAttempts
    ensures sessions[id].activeAttempts <= Total(sessions, AttemptsOf)
  {
    TotalReplace(sessions, id, t, AdmittedOf);
    TotalReplace(sessions, id, t, TransferredOf);
    TotalReplace(sessions, id, t, VerifiedOf);
    TotalReplace(sessions, id, t, CancelledOf);
    TotalReplace(sessions, id, t, WastedOf);
    TotalReplace(sessions, id, t, UnprovenOf);
    TotalReplace(sessions, id, t, OutstandingOf);
    TotalReplace(sessions, id, t, AttemptsOf);
  }

  /** No two ledgers shift by the same amounts from the same totals. */
  lemma BooksAgreeReplace(a: Accounting, b: Accounting, sessions: map<SessionId, Session>, pruned: Ledger, id: SessionId, t: Session)
    requires id in sessions && BooksAgree(a, sessions, pruned)
    requires Shifted(a.bytes, b.bytes, sessions[id].ledger, t.ledger)
    requires b.activeAttempts + sessions[id].activeAttempts == a.activeAttempts + t.activeAttempts
    ensures BooksAgree(b, sessions[id := t], pruned)
  {
    hide Books;
    BooksReplace(sessions, pruned, id, t);
  }

  /** What the counters and indexes look at. */
  predicate SameFooting(s: Session, t: Session) {
    && (Active(s) <==> Active(t)) && s.envelope.isolation == t.envelope.isolation
    && s.request == t.request
  }

  lemma ActiveKept(count: nat, perClass: map<IsolationClass, nat>, perWorkload: map<WorkloadId, nat>,
                   sessions: map<SessionId, Session>, id: SessionId, t: Session)
    requires id in sessions && SameFooting(sessions[id], t) && ActiveAgree(count, perClass, perWorkload, sessions)
    ensures ActiveAgree(count, perClass, perWorkload, sessions[id := t])
  {
    TotalReplace(sessions, id, t, ActiveOne);
    forall c ensures Total(sessions[id := t], ActiveInClass(c)) == Total(sessions, ActiveInClass(c)) {
      TotalReplace(sessions, id, t, ActiveInClass(c));
    }
    forall w ensures Total(sessions[id := t], ActiveForWorkload(w)) == Total(sessions, ActiveForWorkload(w)) {
      TotalReplace(sessions, id, t, ActiveForWorkload(w));
    }
  }

  function Bump<K>(m: map<K, nat>, k: K): map<K, nat> { m[k := CountAt(m, k) + 1] }

  /** One less; an exhausted workload counter is erased. */
  function Drop(m: map<WorkloadId, nat>, w: WorkloadId): map<WorkloadId, nat> {
    if CountAt(m, w) <= 1 then m - {w} else m[w := m[w] - 1]
  }

  lemma EndedTotals(sessions: map<SessionId, Session>, id: SessionId, t: Session)
    requires id in sessions && Active(sessions[id]) && !Active(t)
    ensures Total(sessions[id := t], ActiveOne) + 1 == Total(sessions, ActiveOne)
    ensures forall c :: Total(sessions, ActiveInClass(c)) ==
                        Total(sessions[id := t], ActiveInClass(c)) + if c == sessions[id].envelope.isolation then 1 else 0
    ensures forall w :: Total(sessions, ActiveForWorkload(w)) ==
                        Total(sessions[id := t], ActiveForWorkload(w)) + if w == sessions[id].request.workload then 1 else 0
  {
    TotalReplace(sessions, id, t, ActiveOne);
    forall c ensures Total(sessions, ActiveInClass(c)) ==
                     Total(sessions[id := t], ActiveInClass(c)) + if c == sessions[id].envelope.isolation then 1 else 0 {
      TotalReplace(sessions, id, t, ActiveInClass(c));
    }
    forall w ensures Total(sessions, ActiveForWorkload(w)) ==
                     Total(sessions[id := t], ActiveForWorkload(w)) + if w == sessions[id].request.workload then 1 else 0 {
      TotalReplace(sessions, id, t, ActiveForWorkload(w));
    }
  }

  lemma ActiveEnded(count: nat, perClass: map<IsolationClass, nat>, perWorkload: map<WorkloadId, nat>,
                    sessions: map<SessionId, Session>, id: SessionId, t: Session)
    requires id in sessions && Active(sessions[id]) && !Active(t) && ActiveAgree(count, perClass, perWorkload, sessions)
    ensures var s := sessions[id];
            && count > 0 && s.envelope.isolation in perClass && perClass[s.envelope.isolation] > 0 && CountAt(perWorkload, s.request.workload) > 0
            && ActiveAgree(count - 1, perClass[s.envelope.isolation := perClass[s.envelope.isolation] - 1],
                           Drop(perWorkload, s.request.workload), sessions[id := t])
  {
    hide Total, ActiveInClass, ActiveForWorkload, Active;
    EndedTotals(sessions, id, t);
  }

  lemma ActiveStarted(count: nat, perClass: map<IsolationClass, nat>, perWorkload: map<WorkloadId, nat>,
                      sessions: map<SessionId, Session>, id: SessionId, t: Session)
    requires id !in sessions && Active(t) && ActiveAgree(count, perClass, perWorkload, sessions)
    ensures ActiveAgree(count + 1, Bump(perClass, t.envelope.isolation), Bump(perWorkload, t.request.workload), sessions[id := t])
  {
    TotalInsert(sessions, id, t, ActiveOne);
    forall c ensures Total(sessions[id := t], ActiveInClass(c)) == Total(sessions, ActiveInClass(c)) + ActiveInClass(c)(t) {
      TotalInsert(sessions, id, t, ActiveInClass(c));
    }
    forall w ensures Total(sessions[id := t], ActiveForWorkload(w)) == Total(sessions, ActiveForWorkload(w)) + ActiveForWorkload(w)(t) {
      TotalInsert(sessions, id, t, ActiveForWorkload(w));
    }
  }

  /** A terminal session is not counted. */
  lemma ActiveIgnored(count: nat, perClass: map<IsolationClass, nat>, perWorkload: map<WorkloadId, nat>,
                      sessions: map<SessionId, Session>, id: SessionId, t: Session)
    requires id !in sessions && !Active(t) && ActiveAgree(count, perClass, perWorkload, sessions)
    ensures ActiveAgree(count, perClass, perWorkload, sessions[id := t])
  {
    TotalInsert(sessions, id, t, ActiveOne);
    forall c ensures Total(sessions[id := t], ActiveInClass(c)) == Total(sessions, ActiveInClass(c)) {
      TotalInsert(sessions, id, t, ActiveInClass(c));
    }
    forall w ensures Total(sessions[id := t], ActiveForWorkload(w)) == Total(sessions, ActiveForWorkload(w)) {
      TotalInsert(sessions, id, t, ActiveForWorkload(w));
    }
  }

  lemma ReservationsReplace(reservations: map<PathId, nat>, sessions: map<SessionId, Session>, id: SessionId, t: Session)
    requires id in sessions && ReservationsAgree(reservations, sessions)
    ensures forall p :: Total(sessions[id := t], RateOn(p)) + RateOn(p)(sessions[id]) == CountAt(reservations, p) + RateOn(p)(t)
    ensures forall p :: RateOn(p)(sessions[id]) <= CountAt(reservations, p)
  {
    forall p ensures Total(sessions[id := t], RateOn(p)) + RateOn(p)(sessions[id]) == CountAt(reservations, p) + RateOn(p)(t)
                     && RateOn(p)(sessions[id]) <= CountAt(reservations, p) {
      TotalReplace(sessions, id, t, RateOn(p));
    }
  }

  lemma IndexKept(index: map<nat, seq<SessionId>>, sessions: map<SessionId, Session>, key: Session -> nat, id: SessionId, t: Session)
    requires id in sessions && key(t) == key(sessions[id]) && IndexAgrees(index, sessions, key)
    ensures IndexAgrees(index, sessions[id := t], key)
  {
    assert sessions[id := t].Keys == sessions.Keys;
  }

  lemma IndexInsert(index: map<nat, seq<SessionId>>, sessions: map<SessionId, Session>, key: Session -> nat, id: SessionId, t: Session)
    requires id !in sessions && IndexAgrees(index, sessions, key)
    ensures IndexAgrees(index[key(t) := ListAt(index, key(t)) + [id]], sessions[id := t], key)
  {
    hide Total, EachDistinct, ListAt;
    var k := key(t);
    AppendCounted(index, k, id);
    AppendKnown(index, sessions, key, id, t);
    AppendDistinct(index, k, id);
    AppendListed(index, sessions, key, id, t);
  }

  lemma AppendKnown(index: map<nat, seq<SessionId>>, sessions: map<SessionId, Session>, key: Session -> nat, id: SessionId, t: Session)
    requires id !in sessions && forall k, x :: k in index && x in index[k] ==> x in sessions && key(sessions[x]) == k
    ensures id !in ListAt(index, key(t))
    ensures var n, m := sessions[id := t], index[key(t) := ListAt(index, key(t)) + [id]];
            forall k, x :: k in m && x in m[k] ==> x in n && key(n[x]) == k
  {
  }

  lemma AppendListed(index: map<nat, seq<SessionId>>, sessions: map<SessionId, Session>, key: Session -> nat, id: SessionId, t: Session)
    requires id !in sessions && forall x :: x in sessions ==> x in ListAt(index, key(sessions[x]))
    ensures var n := sessions[id := t];
            forall x :: x in n ==> x in ListAt(index[key(t) := ListAt(index, key(t)) + [id]], key(n[x]))
  {
    var k := key(t);
    var list := ListAt(index, k) + [id];
    var n := sessions[id := t];
    forall x | x in n ensures x in ListAt(index[k := list], key(n[x])) {
      if x != id { assert x in ListAt(index, key(sessions[x])); }
    }
  }

  lemma AppendCounted(index: map<nat, seq<SessionId>>, k: nat, id: SessionId)
    ensures Total(index[k := ListAt(index, k) + [id]], Entries) == Total(index, Entries) + 1
  {
    var list := ListAt(index, k) + [id];
    if k in index { TotalReplace(index, k, list, Entries); } else { TotalInsert(index, k, list, Entries); }
  }

  lemma AppendDistinct(index: map<nat, seq<SessionId>>, k: nat, id: SessionId)
    requires EachDistinct(index) && id !in ListAt(index, k)
    ensures EachDistinct(index[k := ListAt(index, k) + [id]])
  {
    assert NoDuplicates(ListAt(index, k));
  }

  // --------------------------------------------------------------- insertion

  lemma BooksInsert(a: Accounting, b: Accounting, sessions: map<SessionId, Session>, pruned: Ledger, id: SessionId, t: Session)
    requires id !in sessions && BooksAgree(a, sessions, pruned)
    requires b.activeAttempts == a.activeAttempts + t.activeAttempts
    requires b.bytes == Ledger(a.bytes.admitted + t.ledger.admitted, a.bytes.transferred + t.ledger.transferred,
                               a.bytes.verified + t.ledger.verified, a.bytes.cancelled + t.ledger.cancelled,
                               a.bytes.wasted + t.ledger.wasted, a.bytes.unproven + t.ledger.unproven,
                               a.bytes.outstanding + t.ledger.outstanding)
    ensures BooksAgree(b, sessions[id := t], pruned)
  {
    TotalInsert(sessions, id, t, AdmittedOf);
    TotalInsert(sessions, id, t, TransferredOf);
    TotalInsert(sessions, id, t, VerifiedOf);
    TotalInsert(sessions, id, t, CancelledOf);
    TotalInsert(sessions, id, t, WastedOf);
    TotalInsert(sessions, id, t, UnprovenOf);
    TotalInsert(sessions, id, t, OutstandingOf);
    TotalInsert(sessions, id, t, AttemptsOf);
  }

  lemma ReservationsInsert(reservations: map<PathId, nat>, sessions: map<SessionId, Session>, id: SessionId, t: Session)
    requires id !in sessions && ReservationsAgree(reservations, sessions) && t.reserved.Some?
    ensures var r := t.reserved.value;
            ReservationsAgree(reservations[r.path := CountAt(reservations, r.path) + r.rate], sessions[id := t])
  {
    forall p ensures Total(sessions[id := t], RateOn(p)) == Total(sessions, RateOn(p)) + RateOn(p)(t) {
      TotalInsert(sessions, id, t, RateOn(p));
    }
  }

  // ---------------------------------------------------------------- removal

  /** Removing a finished session that holds nothing leaves the scans of live things alone. */
  lemma RemovalKept(sessions: map<SessionId, Session>, id: SessionId)
    requires id in sessions && !Active(sessions[id]) && sessions[id].reserved.None? && sessions[id].activeAttempts == 0
    ensures Total(sessions - {id}, ActiveOne) == Total(sessions, ActiveOne)
    ensures Total(sessions - {id}, AttemptsOf) == Total(sessions, AttemptsOf)
    ensures forall c :: Total(sessions - {id}, ActiveInClass(c)) == Total(sessions, ActiveInClass(c))
    ensures forall w :: Total(sessions - {id}, ActiveForWorkload(w)) == Total(sessions, ActiveForWorkload(w))
    ensures forall p :: Total(sessions - {id}, RateOn(p)) == Total(sessions, RateOn(p))
  {
    TotalRemove(sessions, id, ActiveOne);
    TotalRemove(sessions, id, AttemptsOf);
    forall c ensures Total(sessions - {id}, ActiveInClass(c)) == Total(sessions, ActiveInClass(c)) {
      TotalRemove(sessions, id, ActiveInClass(c));
    }
    forall w ensures Total(sessions - {id}, ActiveForWorkload(w)) == Total(sessions, ActiveForWorkload(w)) {
      TotalRemove(sessions, id, ActiveForWorkload(w));
    }
    forall p ensures Total(sessions - {id}, RateOn(p)) == Total(sessions, RateOn(p)) {
      TotalRemove(sessions, id, RateOn(p));
    }
  }
}
