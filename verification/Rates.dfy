/** Rate planning: the rate a deadline asks for and the rate admission grants. */
module Rates {
  import opened Model
  import opened Shaper

  /** The two products of the computation: whole horizons, and the rest. */
  function Whole(bytes: nat, horizon: nat): nat
    requires horizon > 0
  {
    (bytes / horizon) * SECOND
  }

  function Part(bytes: nat, horizon: nat): nat
    requires horizon > 0
  {
    (bytes % horizon) * SECOND
  }

  /** A quotient, rounded up. */
  function Rounded(n: nat, d: nat): nat
    requires d > 0
  {
    (n + d - 1) / d
  }

  /** The sum of the first product and the rounded second one, every step in a 64-bit word. */
  function Folded(x: nat, y: nat, h: nat): nat
    requires h > 0
  {
    Word(Word(x) + Word(Word(y) + (h - 1)) / h)
  }

  /** Rate needed to move `bytes` within `horizon` nanoseconds, rounded up, in 64-bit words. */
  function CeilRate(bytes: nat, horizon: int): nat {
    if horizon <= 0 then U64 - 1
    else
      Folded(Whole(bytes, horizon), Part(bytes, horizon), horizon)
  }

  /** The two products and their sum fit in a word. */
  predicate RateFits(bytes: nat, horizon: nat)
    requires horizon > 0
  {
    && Part(bytes, horizon) + horizon - 1 < U64
    && Whole(bytes, horizon) + Rounded(Part(bytes, horizon), horizon) < U64
  }

  lemma CeilingDivision(n: nat, d: nat)
    requires d > 0
    ensures var c := Rounded(n, d); c * d >= n && (c > 0 ==> (c - 1) * d < n)
  {
    var m := n + d - 1;
    var c := m / d;
    assert m == c * d + m % d;
    assert (c - 1) * d == c * d - d;
  }

  lemma CeilRateValue(bytes: nat, horizon: nat)
    requires horizon > 0 && RateFits(bytes, horizon)
    ensures CeilRate(bytes, horizon) == Whole(bytes, horizon) + Rounded(Part(bytes, horizon), horizon)
  {
    hide Word, Whole, Part;
    WordsFit(Whole(bytes, horizon), Part(bytes, horizon), horizon);
  }

  lemma WordsFit(x: nat, y: nat, h: nat)
    requires h > 0 && y + h - 1 < U64 && x + Rounded(y, h) < U64
    ensures Folded(x, y, h) == x + Rounded(y, h)
  {
    hide Word;
    var z := Rounded(y, h);
    assert z >= 0;
    WordSmall(x);
    WordSmall(y);
    WordSmall(y + h - 1);
    WordSmall(x + z);
  }

  lemma LeastMultiple(base: nat, c: nat, y: nat, h: nat, rate: nat)
    requires h > 0 && c * h >= y && (c > 0 ==> (c - 1) * h < y)
    ensures rate >= base + c <==> rate * h >= base * h + y
  {
    if rate >= base + c {
      MulMonotone(base + c, rate, h);
      assert (base + c) * h == base * h + c * h;
    } else if c > 0 {
      MulMonotone(rate, base + c - 1, h);
      assert (base + (c - 1)) * h == base * h + (c - 1) * h;
    } else {
      MulMonotone(rate, base - 1, h);
      assert (base - 1) * h == base * h - h;
    }
  }

  lemma Regroup(bytes: nat, horizon: nat)
    requires horizon > 0
    ensures bytes * SECOND == Whole(bytes, horizon) * horizon + Part(bytes, horizon)
  {
    var q, r := bytes / horizon, bytes % horizon;
    assert bytes == q * horizon + r;
  }

  /** The least rate that moves the bytes in time, in unbounded numbers. */
  function LeastRate(bytes: nat, horizon: nat): nat
    requires horizon > 0
  {
    Whole(bytes, horizon) + Rounded(Part(bytes, horizon), horizon)
  }

  /** It is: a rate moves the bytes in time exactly when it is at least this one. */
  lemma LeastRateSuffices(bytes: nat, horizon: nat, rate: nat)
    requires horizon > 0
    ensures rate >= LeastRate(bytes, horizon) <==> rate * horizon >= bytes * SECOND
  {
    hide Whole, Part;
    Regroup(bytes, horizon);
    var base, y := Whole(bytes, horizon), Part(bytes, horizon);
    CeilingDivision(y, horizon);
    LeastMultiple(base, Rounded(y, horizon), y, horizon, rate);
  }

  /** The computed rate is the least one that moves the bytes in time. */
  lemma CeilRateIsLeast(bytes: nat, horizon: nat, rate: nat)
    requires horizon > 0 && RateFits(bytes, horizon)
    ensures rate >= CeilRate(bytes, horizon) <==> rate * horizon >= bytes * SECOND
  {
    hide CeilRate, RateFits, Whole, Part;
    CeilRateValue(bytes, horizon);
    LeastRateSuffices(bytes, horizon, rate);
  }

  lemma WordAdds(y: nat, z: nat)
    ensures Word(Word(y) + z) == Word(y + z)
  {
    var k := y / U64;
    assert y == k * U64 + Word(y);
    assert y + z == k * U64 + (Word(y) + z);
    AddsMultiple(Word(y) + z, k);
  }

  lemma AddsMultiple(n: nat, k: nat)
    ensures (k * U64 + n) % U64 == n % U64
  {
    var q, r := n / U64, n % U64;
    assert k * U64 + n == (k + q) * U64 + r;
    RemainderUnique((k + q) * U64 + r, k + q, r);
  }

  lemma RemainderUnique(n: nat, q: nat, r: nat)
    requires n == q * U64 + r && r < U64
    ensures n % U64 == r
  {
  }

  /** When a product wraps, the computed rate falls short of the least one. */
  lemma WrappedFallsShort(x: nat, y: nat, h: nat)
    requires 0 < h < U64 && (y + h - 1 >= U64 || x + Rounded(y, h) >= U64)
    ensures Folded(x, y, h) < x + Rounded(y, h)
  {
    hide Word;
    var n := y + h - 1;
    WordAdds(y, h - 1);
    WordBelow(x);
    WordBelow(n);
    assert Word(n) / h >= 0;
    WordBelow(Word(x) + Word(n) / h);
    if n >= U64 {
      QuotientDrops(n, h);
      QuotientMonotone(Word(n), n - U64, h);
    }
  }

  /** The computed rate moves the bytes in time exactly when no product wrapped, and then it is the least that does. */
  lemma CeilRateExact(bytes: nat, horizon: nat)
    requires 0 < horizon < U64 / 2
    ensures CeilRate(bytes, horizon) * horizon >= bytes * SECOND <==> RateFits(bytes, horizon)
    ensures CeilRate(bytes, horizon) == LeastRate(bytes, horizon) <==> RateFits(bytes, horizon)
    ensures CeilRate(bytes, horizon) <= LeastRate(bytes, horizon)
  {
    hide Whole, Part, Word;
    LeastRateSuffices(bytes, horizon, CeilRate(bytes, horizon));
    if RateFits(bytes, horizon) {
      CeilRateValue(bytes, horizon);
    } else {
      WrappedFallsShort(Whole(bytes, horizon), Part(bytes, horizon), horizon);
    }
  }

  /** Twenty gigabytes within the default budget of five minutes: the computed rate is a twelfth of the least one. */
  lemma WrappedRate()
    ensures !RateFits(20_000_000_000, 300 * SECOND)
    ensures CeilRate(20_000_000_000, 300 * SECOND) < 6_000_000
    ensures LeastRate(20_000_000_000, 300 * SECOND) > 66_000_000
  {
    var bytes, h: nat := 20_000_000_000, 300 * SECOND;
    assert bytes / h == 0 && bytes % h == bytes;
    assert Part(bytes, h) == 20_000_000_000_000_000_000;
  }

  datatype RatePlan = Rate(bps: nat) | NoRate(reason: Reason)

  function Horizon(r: Request, c: Contract): int {
    if r.horizon > 0 then r.horizon else c.deadlineBudget
  }

  /** The rate an admission grants, given what is already reserved on the path. */
  function PlanRate(r: Request, c: Contract, e: ClassEnvelope, path: PathClass, reserved: nat): (plan: RatePlan) {
    var hard := Min(e.ceiling, c.ceiling);
    var requested := if r.requestedRate == 0 then hard else r.requestedRate;
    var required := CeilRate(r.manifest.total, Horizon(r, c));
    var rate := Min(Max(requested, required), hard);
    if requested > e.ceiling then NoRate(RequestedRateUnsupported)
    else if requested > c.ceiling then NoRate(RequestedRateUnsupported)
    else if required > e.ceiling then NoRate(DeadlineUnreachable)
    else if rate > Monus(path.capacity, reserved) then NoRate(PathCapacityUnavailable)
    else if rate == 0 then NoRate(CreditUnavailable)
    else Rate(rate)
  }

  /** The rate the session asks for; none stands for as much as its ceilings allow. */
  function Requested(r: Request, c: Contract, e: ClassEnvelope): nat {
    if r.requestedRate == 0 then Min(e.ceiling, c.ceiling) else r.requestedRate
  }

  /** Every planned rate respects both ceilings and the path's headroom, and is at least what was asked for. */
  lemma PlannedRate(r: Request, c: Contract, e: ClassEnvelope, path: PathClass, reserved: nat)
    requires PlanRate(r, c, e, path, reserved).Rate?
    ensures var rate := PlanRate(r, c, e, path, reserved).bps;
            && 0 < rate <= e.ceiling && rate <= c.ceiling && rate + reserved <= path.capacity
            && Requested(r, c, e) <= rate
            && (rate == Requested(r, c, e) || rate == CeilRate(r.manifest.total, Horizon(r, c)) || rate == c.ceiling)
  {
    hide CeilRate, Horizon;
  }

  /** A planned rate meets the deadline exactly when the workload ceiling allows the computed rate or, where that one
  wrapped, when the request itself asked for enough. */
  lemma PlannedDeadline(r: Request, c: Contract, e: ClassEnvelope, path: PathClass, reserved: nat)
    requires PlanRate(r, c, e, path, reserved).Rate? && 0 < Horizon(r, c) < U64 / 2
    ensures var rate, h := PlanRate(r, c, e, path, reserved).bps, Horizon(r, c);
            rate * h >= r.manifest.total * SECOND <==>
            if RateFits(r.manifest.total, h) then CeilRate(r.manifest.total, h) <= c.ceiling
            else LeastRate(r.manifest.total, h) <= Requested(r, c, e)
  {
    hide CeilRate, Horizon, RateFits, LeastRate;
    var rate, h := PlanRate(r, c, e, path, reserved).bps, Horizon(r, c);
    LeastRateSuffices(r.manifest.total, h, rate);
    CeilRateExact(r.manifest.total, h);
  }

  /** What the deadline asks for on top of the request, as far as the ceilings allow. */
  function Wanted(r: Request, c: Contract, e: ClassEnvelope): (rate: nat)
    ensures Requested(r, c, e) <= e.ceiling && Requested(r, c, e) <= c.ceiling ==> rate <= e.ceiling && rate <= c.ceiling
  {
    var required := CeilRate(r.manifest.total, Horizon(r, c));
    if required <= Requested(r, c, e) then Requested(r, c, e)
    else if required <= e.ceiling && required <= c.ceiling then required
    else if e.ceiling <= c.ceiling then e.ceiling
    else c.ceiling
  }

  /** Exactly when a rate is planned, and why not otherwise: a request beyond a ceiling or a deadline beyond the
  class ceiling is turned down for good, a full path only for now. */
  lemma PlanDecides(r: Request, c: Contract, e: ClassEnvelope, path: PathClass, reserved: nat)
    ensures PlanRate(r, c, e, path, reserved) ==
            if e.ceiling < Requested(r, c, e) || c.ceiling < Requested(r, c, e) then NoRate(RequestedRateUnsupported)
            else if e.ceiling < CeilRate(r.manifest.total, Horizon(r, c)) then NoRate(DeadlineUnreachable)
            else if Wanted(r, c, e) == 0 then NoRate(CreditUnavailable)
            else if path.capacity < Wanted(r, c, e) + reserved then NoRate(PathCapacityUnavailable)
            else Rate(Wanted(r, c, e))
  {
    hide CeilRate, Horizon;
  }
}
