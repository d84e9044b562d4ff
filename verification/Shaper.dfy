/** Integer rate shaping: token buckets that accrue at a byte rate and are capped
at one burst, with the 64-bit arithmetic of the implementation written out. */
module Shaper {
  import opened Model

  /** Reduction to an unsigned 64-bit word. */
  function Word(x: nat): nat { x % U64 }

  /** Reinterpretation of an unsigned 64-bit word as a signed one. */
  function Signed(x: nat): int
    requires x < U64
  {
    if x < U64 / 2 then x else x - U64
  }

  // ------------------------------------------------------------- arithmetic

  /** Bytes accrued over an interval; intervals over one second are clamped. */
  function RefillBytes(rate: nat, elapsed: int): (bytes: nat)
    requires rate < U64
  {
    if rate == 0 || elapsed <= 0 then 0
    else
      var e := Min(elapsed, SECOND);
      Word(Word((rate / SECOND) * e) + Word((rate % SECOND) * e) / SECOND)
  }

  /** Bytes one burst window may hold, but never less than ten milliseconds' worth. */
  function BurstCapacity(rate: nat, window: nat): (bytes: nat)
    requires rate < U64 && window < U64
    ensures bytes < U64
  {
    if rate == 0 || Signed(window) <= 0 then 0
    else
      Max(Word(Word((rate / SECOND) * window) + Word((rate % SECOND) * window) / SECOND), rate / 100)
  }

  lemma DivStep(q: nat, r: nat, e: nat)
    ensures (q * SECOND + r) * e / SECOND == q * e + r * e / SECOND
  {
    var n := (q * SECOND + r) * e;
    assert n == (q * e) * SECOND + r * e;
    var k := r * e / SECOND;
    assert n == (q * e + k) * SECOND + r * e % SECOND;
  }

  lemma MulMonotone(a: nat, b: nat, c: nat)
    requires a <= b
    ensures a * c <= b * c
  {
  }

  lemma WordSmall(x: nat)
    requires x < U64
    ensures Word(x) == x
  {
  }

  lemma SplitProducts(q: nat, r: nat, e: nat)
    requires r < SECOND && e <= SECOND && q * SECOND + r < U64
    ensures q * e + r * e / SECOND <= q * SECOND + r
    ensures q * e < U64 && r * e < U64
  {
    MulMonotone(e, SECOND, q);
    MulMonotone(e, SECOND, r);
    assert r * e <= r * SECOND;
    assert r * SECOND < SECOND * SECOND;
    assert r * e / SECOND <= r;
  }

  /** No product in the refill arithmetic overflows, and the split computation is
  the exact floor of rate times interval. */
  lemma RefillIsFloor(rate: nat, elapsed: nat)
    requires rate < U64
    ensures RefillBytes(rate, elapsed) == rate * Min(elapsed, SECOND) / SECOND
    ensures RefillBytes(rate, elapsed) <= rate
  {
    var e := Min(elapsed, SECOND);
    if elapsed == 0 || rate == 0 {
      assert rate * e == 0;
    } else {
      var q, r := rate / SECOND, rate % SECOND;
      assert rate == q * SECOND + r;
      DivStep(q, r, e);
      SplitProducts(q, r, e);
      WordSmall(q * e);
      WordSmall(r * e);
      WordSmall(q * e + r * e / SECOND);
    }
  }

  lemma WordBelow(x: nat)
    ensures Word(x) <= x && Word(x) < U64 && (x >= U64 ==> Word(x) <= x - U64)
  {
  }

  lemma QuotientDrops(n: nat, d: nat)
    requires 0 < d < U64 && n >= U64
    ensures (n - U64) / d < n / d
  {
    var a, b := (n - U64) / d, n / d;
    assert a * d <= n - U64;
    assert n < b * d + d;
    if a >= b {
      MulMonotone(b, a, d);
      assert false;
    }
  }

  lemma QuotientMonotone(a: nat, b: nat, d: nat)
    requires a <= b && d > 0
    ensures a / d <= b / d
  {
    if a / d > b / d {
      MulMonotone(b / d + 1, a / d, d);
      assert false;
    }
  }

  /** Both products of the burst capacity fit in a word. */
  predicate CapacityFits(rate: nat, window: nat) {
    rate * window / SECOND < U64 && (rate % SECOND) * window < U64
  }

  /** The same for the burst capacity, exactly when its two products fit in a word; otherwise it falls short. */
  lemma CapacityIsFloor(rate: nat, window: nat)
    requires 0 < rate < U64 && 0 < window < U64 / 2
    ensures BurstCapacity(rate, window) == Max(rate * window / SECOND, rate / 100) <==> CapacityFits(rate, window)
    ensures BurstCapacity(rate, window) <= Max(rate * window / SECOND, rate / 100)
  {
    hide Word;
    var q, r := rate / SECOND, rate % SECOND;
    assert rate == q * SECOND + r;
    DivStep(q, r, window);
    var x, y := q * window, r * window;
    WordBelow(x);
    WordBelow(y);
    WordBelow(Word(x) + Word(y) / SECOND);
    QuotientMonotone(Word(y), y, SECOND);
    if CapacityFits(rate, window) {
      WordSmall(x);
      WordSmall(y);
      WordSmall(x + y / SECOND);
    } else if y >= U64 {
      QuotientDrops(y, SECOND);
      QuotientMonotone(Word(y), y - U64, SECOND);
      LongWindow(rate, r, window);
    }
  }

  lemma LongWindow(rate: nat, r: nat, window: nat)
    requires r < SECOND && r * window >= U64 && rate > 0
    ensures rate * window / SECOND >= rate
  {
    if window < SECOND {
      MulMonotone(r, SECOND, window);
      MulMonotone(window, SECOND, SECOND);
      assert false;
    }
    FloorMonotone(rate, SECOND, window);
  }

  /** Flooring two intervals separately never yields more than flooring their sum. */
  lemma FloorSuperadditive(rate: nat, a: nat, b: nat)
    ensures rate * a / SECOND + rate * b / SECOND <= rate * (a + b) / SECOND
  {
    var x, y := rate * a, rate * b;
    assert rate * (a + b) == x + y;
    assert x == x / SECOND * SECOND + x % SECOND;
    assert y == y / SECOND * SECOND + y % SECOND;
    assert x + y >= (x / SECOND + y / SECOND) * SECOND;
    DivAtLeast(x + y, x / SECOND + y / SECOND);
  }

  lemma DivAtLeast(n: nat, k: nat)
    requires n >= k * SECOND
    ensures n / SECOND >= k
  {
  }

  lemma FloorMonotone(rate: nat, a: nat, b: nat)
    requires a <= b
    ensures rate * a / SECOND <= rate * b / SECOND
  {
    FloorSuperadditive(rate, a, b - a);
  }

  // ------------------------------------------------------------ token bucket

  datatype Bucket = Bucket(rate: nat, capacity: nat, tokens: nat, last: Nanos)

  predicate BucketOk(b: Bucket) {
    b.tokens <= b.capacity < U64 && b.rate < U64
  }

  function Configured(rate: nat, window: nat, now: Nanos): (b: Bucket)
    requires rate < U64 && window < U64
    ensures BucketOk(b)
  {
    var capacity := BurstCapacity(rate, window);
    Bucket(rate, capacity, capacity, now)
  }

  /** Credit at time `now`: what accrued since the last observation, capped. */
  function Refilled(b: Bucket, now: Nanos): (r: Bucket)
    requires BucketOk(b)
    ensures BucketOk(r) && r.rate == b.rate && r.capacity == b.capacity
    ensures b.tokens <= r.tokens && b.last <= r.last
  {
    if now <= b.last then b
    else b.(tokens := Min(b.capacity, b.tokens + RefillBytes(b.rate, now - b.last)), last := now)
  }

  function Spend(b: Bucket, bytes: nat): (r: Bucket)
    requires bytes <= b.tokens
  {
    b.(tokens := b.tokens - bytes)
  }

  /** Advertised wait until the bytes are available. */
  function TimeUntil(b: Bucket, bytes: nat): (wait: nat)
    requires b.rate < U64
  {
    var missing := Monus(bytes, b.tokens);
    if b.rate == 0 || missing == 0 then 0
    else Word(missing * SECOND) / b.rate + 1
  }

  /** Waiting as advertised is enough exactly when the bytes are within the burst and no more is missing than
  accrues in a second, as one refill counts at most that long. */
  lemma AdvertisedWaitExact(b: Bucket, bytes: nat)
    requires BucketOk(b) && b.tokens < bytes && (bytes - b.tokens) * SECOND < U64
    ensures Refilled(b, b.last + TimeUntil(b, bytes)).tokens >= bytes <==> bytes <= b.capacity && bytes - b.tokens <= b.rate
  {
    hide RefillBytes, Word;
    var missing, wait := bytes - b.tokens, TimeUntil(b, bytes);
    if b.rate > 0 {
      var n := missing * SECOND;
      WordSmall(n);
      RefillIsFloor(b.rate, wait);
      if missing < b.rate {
        ShortWait(missing, b.rate);
        WaitCovers(n, b.rate);
        DivAtLeast(b.rate * wait, missing);
      } else {
        LongWait(missing, b.rate);
        assert b.rate * SECOND / SECOND == b.rate;
      }
    }
  }

  lemma ShortWait(missing: nat, rate: nat)
    requires 0 < missing < rate
    ensures missing * SECOND / rate + 1 <= SECOND
  {
    var q := missing * SECOND / rate;
    assert q * rate <= missing * SECOND;
    if q >= SECOND {
      MulMonotone(SECOND, q, rate);
      assert false;
    }
  }

  lemma LongWait(missing: nat, rate: nat)
    requires 0 < rate <= missing
    ensures missing * SECOND / rate >= SECOND
  {
    var n := missing * SECOND;
    var q := n / rate;
    assert n < q * rate + rate;
    MulMonotone(rate, missing, SECOND);
    if q < SECOND {
      MulMonotone(q + 1, SECOND, rate);
      assert false;
    }
  }

  lemma WaitCovers(n: nat, rate: nat)
    requires rate > 0
    ensures rate * (n / rate + 1) >= n
  {
    var q := n / rate;
    assert n == q * rate + n % rate;
    assert rate * (q + 1) == q * rate + rate;
  }

  /** The ceiling ledger of one bucket: everything handed out so far plus what is
  left is covered by one burst per (re)configuration and the rate over time. */
  predicate WithinCeiling(b: Bucket, granted: nat, configurations: nat, start: Nanos) {
    && BucketOk(b) && start <= b.last
    && granted + b.tokens <= configurations * b.capacity + b.rate * (b.last - start) / SECOND
  }

  lemma RefillWithinCeiling(b: Bucket, granted: nat, configurations: nat, start: Nanos, now: Nanos)
    requires WithinCeiling(b, granted, configurations, start)
    ensures WithinCeiling(Refilled(b, now), granted, configurations, start)
  {
    if now > b.last {
      RefillIsFloor(b.rate, now - b.last);
      FloorMonotone(b.rate, Min(now - b.last, SECOND), now - b.last);
      FloorSuperadditive(b.rate, b.last - start, now - b.last);
      assert (b.last - start) + (now - b.last) == now - start;
    }
  }

  lemma ReconfigureWithinCeiling(b: Bucket, granted: nat, configurations: nat, start: Nanos, window: nat, now: Nanos)
    requires WithinCeiling(b, granted, configurations, start)
    requires window < U64 && b.capacity == BurstCapacity(b.rate, window) && b.last <= now
    ensures WithinCeiling(Configured(b.rate, window, now), granted, configurations + 1, start)
  {
    FloorMonotone(b.rate, b.last - start, now - start);
    assert (configurations + 1) * b.capacity == configurations * b.capacity + b.capacity;
  }

  /** Total handed out is bounded by the bursts and the rate alone. */
  lemma CeilingBound(b: Bucket, granted: nat, configurations: nat, start: Nanos, now: Nanos)
    requires WithinCeiling(b, granted, configurations, start) && b.last <= now
    ensures granted <= configurations * b.capacity + b.rate * (now - start) / SECOND
  {
    FloorMonotone(b.rate, b.last - start, now - start);
  }

  /** The bucket object of the implementation. */
  class TokenBucket {
    var rate: nat
    var capacity: nat
    var tokens: nat
    var last: Nanos
    var configured: bool

    function Value(): Bucket
      reads this
    {
      Bucket(rate, capacity, tokens, last)
    }

    ghost predicate Valid()
      reads this
    {
      configured && BucketOk(Value())
    }

    constructor (rateBps: nat, window: nat, now: Nanos)
      requires rateBps < U64 && window < U64
      ensures Valid() && Value() == Configured(rateBps, window, now)
    {
      rate := rateBps;
      capacity := BurstCapacity(rateBps, window);
      tokens := BurstCapacity(rateBps, window);
      last := now;
      configured := true;
    }

    method Refill(now: Nanos)
      requires Valid()
      modifies this
      ensures Valid() && Value() == Refilled(old(Value()), now)
    {
      if !configured || now <= last { return; }
      var accrued := RefillBytes(rate, now - last);
      last := now;
      if accrued == 0 { return; }
      if tokens >= capacity || accrued >= capacity - tokens {
        tokens := capacity;
        return;
      }
      tokens := tokens + accrued;
    }

    method TryConsume(now: Nanos, bytes: nat) returns (ok: bool)
      requires Valid()
      modifies this
      ensures Valid()
      ensures ok <==> bytes <= Refilled(old(Value()), now).tokens
      ensures Value() == var r := Refilled(old(Value()), now); if ok then Spend(r, bytes) else r
    {
      Refill(now);
      if bytes > tokens { return false; }
      tokens := tokens - bytes;
      return true;
    }
  }

  // ------------------------------------------------------------- rate shaper

  /** Credit held per isolation class and per workload. */
  datatype Credit = Credit(classes: map<IsolationClass, Bucket>, workloads: map<WorkloadId, Bucket>)

  predicate CreditOk(c: Credit) {
    && (forall k :: k in c.classes ==> BucketOk(c.classes[k]))
    && (forall w :: w in c.workloads ==> BucketOk(c.workloads[w]))
  }

  datatype Verdict = Granted | NotGranted(reason: Reason)

  /** Class credit as read by the engine before it sizes a grant. */
  function ObserveClass(c: Credit, k: IsolationClass, now: Nanos): (r: Credit)
    requires CreditOk(c)
    ensures CreditOk(r) && r.classes.Keys == c.classes.Keys && r.workloads == c.workloads
  {
    if k in c.classes then c.(classes := c.classes[k := Refilled(c.classes[k], now)]) else c
  }

  function ClassTokens(c: Credit, k: IsolationClass): nat {
    if k in c.classes then c.classes[k].tokens else 0
  }

  function ObserveBoth(c: Credit, k: IsolationClass, w: WorkloadId, now: Nanos): (r: Credit)
    requires CreditOk(c) && k in c.classes && w in c.workloads
    ensures CreditOk(r)
  {
    Credit(c.classes[k := Refilled(c.classes[k], now)], c.workloads[w := Refilled(c.workloads[w], now)])
  }

  /** All-or-nothing consumption: both buckets are charged, or neither is. */
  function Consume(c: Credit, k: IsolationClass, w: WorkloadId, bytes: nat, now: Nanos): (r: (Credit, Verdict))
    requires CreditOk(c)
    ensures CreditOk(r.0) && r.0.classes.Keys == c.classes.Keys && r.0.workloads.Keys == c.workloads.Keys
    ensures r.1.Granted? ==>
              && k in c.classes && w in c.workloads && w in r.0.workloads
              && ClassTokens(r.0, k) == Refilled(c.classes[k], now).tokens - bytes
              && r.0.workloads[w].tokens == Refilled(c.workloads[w], now).tokens - bytes
    ensures r.1.NotGranted? && k in c.classes && w in c.workloads ==> r.0 == ObserveBoth(c, k, w, now)
  {
    if k !in c.classes then (c, NotGranted(ClassCeilingSaturated))
    else if w !in c.workloads then (c, NotGranted(WorkloadCeilingSaturated))
    else
      var o := ObserveBoth(c, k, w, now);
      if o.classes[k].tokens < bytes then (o, NotGranted(ClassCeilingSaturated))
      else if o.workloads[w].tokens < bytes then (o, NotGranted(WorkloadCeilingSaturated))
      else (Credit(o.classes[k := Spend(o.classes[k], bytes)], o.workloads[w := Spend(o.workloads[w], bytes)]), Granted)
  }

  lemma RefilledTwice(b: Bucket, now: Nanos)
    requires BucketOk(b)
    ensures Refilled(Refilled(b, now), now) == Refilled(b, now)
    ensures b.last <= now ==> Refilled(b, now).last <= now
  {
  }

  /** Effect on one class bucket of looking at a class and then consuming from it. */
  lemma ConsumeBucket(c: Credit, q: IsolationClass, w: WorkloadId, bytes: nat, now: Nanos, k: IsolationClass)
    requires CreditOk(c) && k in c.classes
    ensures var o := ObserveClass(c, q, now);
            var r := Consume(o, q, w, bytes, now);
            var b := c.classes[k];
            && o.classes[k] == (if q == k then Refilled(b, now) else b)
            && (q != k ==> r.0.classes[k] == b)
            && (q == k ==> if r.1.Granted? then bytes <= Refilled(b, now).tokens && r.0.classes[k] == Spend(Refilled(b, now), bytes)
                           else r.0.classes[k] == Refilled(b, now))
  {
    hide Refilled;
    RefilledTwice(c.classes[k], now);
  }

  /** The shaper object: class and workload buckets plus per-path rate reservations. */
  class RateShaper {
    var classes: map<IsolationClass, Bucket>
    var workloads: map<WorkloadId, Bucket>
    var reservations: map<PathId, nat>

    function Held(): Credit
      reads this
    {
      Credit(classes, workloads)
    }

    /** Rate reserved on a path class; an unknown path has none. */
    function ReservedOn(path: PathId): nat
      reads this
    {
      if path in reservations then reservations[path] else 0
    }

    constructor ()
      ensures Held() == Credit(map[], map[]) && reservations == map[]
    {
      classes, workloads, reservations := map[], map[], map[];
    }

    method ConfigureClass(k: IsolationClass, ceiling: nat, window: nat, now: Nanos)
      requires ceiling < U64 && window < U64
      modifies this
      ensures Held() == old(Held()).(classes := old(classes)[k := Configured(ceiling, window, now)])
      ensures reservations == old(reservations)
    {
      classes := classes[k := Configured(ceiling, window, now)];
    }

    method ConfigureWorkload(w: WorkloadId, ceiling: nat, window: nat, now: Nanos)
      requires ceiling < U64 && window < U64
      modifies this
      ensures Held() == old(Held()).(workloads := old(workloads)[w := Configured(ceiling, window, now)])
      ensures reservations == old(reservations)
    {
      workloads := workloads[w := Configured(ceiling, window, now)];
    }

    /** Adds a rate to a path unless the 64-bit sum would overflow. */
    method ReservePathRate(path: PathId, rate: nat) returns (ok: bool)
      requires rate < U64 && ReservedOn(path) < U64
      modifies this`reservations
      ensures ok <==> old(ReservedOn(path)) + rate < U64
      ensures reservations == if ok then old(reservations)[path := old(ReservedOn(path)) + rate] else old(reservations)
    {
      if path !in reservations {
        reservations := reservations[path := rate];
        return true;
      }
      if rate > U64 - 1 - reservations[path] { return false; }
      reservations := reservations[path := reservations[path] + rate];
      return true;
    }

    method ReleasePathRate(path: PathId, rate: nat)
      modifies this`reservations
      ensures reservations == if path in old(reservations)
                              then old(reservations)[path := Monus(old(reservations)[path], rate)]
                              else old(reservations)
    {
      if path !in reservations { return; }
      reservations := reservations[path := if rate >= reservations[path] then 0 else reservations[path] - rate];
    }

    method ClassTokensAt(k: IsolationClass, now: Nanos) returns (tokens: nat)
      requires CreditOk(Held())
      modifies this`classes
      ensures Held() == ObserveClass(old(Held()), k, now)
      ensures tokens == ClassTokens(Held(), k)
    {
      if k !in classes { return 0; }
      classes := classes[k := Refilled(classes[k], now)];
      return classes[k].tokens;
    }

    /** Consumes from both buckets in turn. The second look at each bucket happens
    at the same instant, so it never disagrees with the first. */
    method TryConsume(k: IsolationClass, w: WorkloadId, bytes: nat, now: Nanos) returns (verdict: Verdict)
      requires CreditOk(Held())
      modifies this`classes, this`workloads
      ensures (Held(), verdict) == Consume(old(Held()), k, w, bytes, now)
    {
      if k !in classes { return NotGranted(ClassCeilingSaturated); }
      if w !in workloads { return NotGranted(WorkloadCeilingSaturated); }
      classes := classes[k := Refilled(classes[k], now)];
      workloads := workloads[w := Refilled(workloads[w], now)];
      if classes[k].tokens < bytes { return NotGranted(ClassCeilingSaturated); }
      if workloads[w].tokens < bytes { return NotGranted(WorkloadCeilingSaturated); }
      var c, v := Refilled(classes[k], now), Refilled(workloads[w], now);
      var classOk, workloadOk := bytes <= c.tokens, bytes <= v.tokens;
      assert classOk && workloadOk;  // the two looks agree
      classes, workloads := classes[k := Spend(c, bytes)], workloads[w := Spend(v, bytes)];
      return Granted;
    }
  }
}
