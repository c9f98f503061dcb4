/** The one-integer rate limiter, and the token bucket it is. */
module Limiter {
  import opened MuxTypes
  import opened Int64

  datatype Rate = Rate(units: u32, perMs: i64)
  datatype Quota = Quota(burst: u32, refill: Rate)
  datatype Outcome = Admitted | Throttled
  datatype Charge = Charge(outcome: Outcome, retryAfterMs: i64)

  /** Division that truncates toward zero. */
  function Quot(a: int, b: int): int
    requires b > 0
  { if a >= 0 then a / b else -((-a) / b) }

  /** The emission interval `T`. */
  function EmissionMs(q: Quota): (t: i64)
    ensures 1 <= t
  {
    var u := Max(q.refill.units, 1);
    QuotShrinks(q.refill.perMs, u);
    Max(Quot(q.refill.perMs, u), 1)
  }

  lemma Mono(a: int, b: int, k: nat)
    requires a <= b
    ensures a * k <= b * k && k * a <= k * b
  {}

  lemma QuotientAtMost(m: nat, b: nat)
    requires b >= 1
    ensures 0 <= m / b <= m
  {
    var k := m / b;
    assert m == k * b + m % b;
    if k < 0 { Mono(k, -1, b); }
    Mono(1, b, Max(k, 0));
  }

  lemma QuotShrinks(a: int, b: nat)
    requires b >= 1
    ensures -Max(a, -a) <= Quot(a, b) <= Max(a, -a)
  { QuotientAtMost(Max(a, -a), b); }

  /** The time `n` units occupy, `n T`. */
  function Span(q: Quota, n: nat): nat {
    Mono(0, EmissionMs(q), n);
    n * EmissionMs(q)
  }

  lemma SpanAdds(q: Quota, m: nat, n: nat)
    ensures Span(q, m + n) == Span(q, m) + Span(q, n)
  {}

  lemma SpanOne(q: Quota)
    ensures Span(q, 0) == 0 && Span(q, 1) == EmissionMs(q)
  {}

  function ToleranceMs(q: Quota): (t: i64)
    ensures 0 <= t
  { Sat(Span(q, Max(q.burst - 1, 0))) }

  function CostMs(q: Quota, cost: u32): (t: i64)
    ensures 0 <= t
  { Sat(Span(q, cost)) }

  function Tat(tat: Option<i64>, now: i64): i64 { Max(if tat.Some? then tat.value else now, now) }

  /** The instant from which a charge conforms. */
  function AllowAt(tat: Option<i64>, q: Quota, now: i64): i64 { Sat(Tat(tat, now) - ToleranceMs(q)) }

  function Clamp(x: int, lo: int, hi: int): int
    requires lo <= hi
  { Max(lo, Min(x, hi)) }

  /** One charge: the state after it and the decision. */
  function Charged(tat: Option<i64>, q: Quota, cost: u32, now: i64, cap: i64): (Option<i64>, Charge) {
    if now >= AllowAt(tat, q, now)
    then (Some(Sat(Tat(tat, now) + CostMs(q, cost))), Charge(Admitted, 0))
    else (tat, Charge(Throttled, Clamp(Wrap(AllowAt(tat, q, now) - now), 1, Max(cap, 1))))
  }

  class Gcra {
    var tatMs: Option<i64>

    constructor ()
      ensures tatMs == None
    { tatMs := None; }

    constructor FromTat(tat: i64)
      ensures tatMs == Some(tat)
    { tatMs := Some(tat); }

    method Check(q: Quota, cost: u32, now: i64, cap: i64) returns (c: Charge)
      modifies this
      ensures (tatMs, c) == Charged(old(tatMs), q, cost, now, cap)
    {
      var tolerance := ToleranceMs(q);
      var tat := if tatMs.Some? && tatMs.value > now then tatMs.value else now;
      var allowAt := Sat(tat - tolerance);
      if now >= allowAt {
        tatMs := Some(Sat(tat + CostMs(q, cost)));
        c := Charge(Admitted, 0);
      } else {
        c := Charge(Throttled, Clamp(Wrap(allowAt - now), 1, if cap > 1 then cap else 1));
      }
    }
  }

  // ------------------------------------------------------------- token bucket

  /** Room for `max(burst, 1)` units, refilled at one per millisecond, each unit
      worth `T`. The level may go into debt. */
  datatype Bucket = Bucket(level: int, at: int)

  function Capacity(q: Quota): nat { Span(q, Max(q.burst, 1)) }

  function Level(b: Bucket, q: Quota, now: int): int { Min(Capacity(q), b.level + (now - b.at)) }

  /** Admits whenever one unit is there, then pays the whole cost. */
  function Draw(b: Bucket, q: Quota, cost: u32, now: int): (Bucket, Outcome) {
    var level := Level(b, q, now);
    if level >= EmissionMs(q) then (Bucket(level - Span(q, cost), now), Admitted) else (Bucket(level, now), Throttled)
  }

  /** A call whose arithmetic stays inside 64 bits. */
  predicate InRange(q: Quota, cost: u32, now: i64) {
    && now - Span(q, Max(q.burst - 1, 0)) >= I64_MIN
    && now + Span(q, Max(q.burst - 1, 0)) + Span(q, cost) <= I64_MAX
    && Span(q, Max(q.burst - 1, 0)) <= I64_MAX && Span(q, cost) <= I64_MAX
  }

  datatype Call = Call(cost: u32, now: i64, cap: i64)

  function Decisions(tat: Option<i64>, q: Quota, calls: seq<Call>): seq<Outcome>
    decreases |calls|
  {
    if calls == [] then [] else
    var (t, c) := Charged(tat, q, calls[0].cost, calls[0].now, calls[0].cap);
    [c.outcome] + Decisions(t, q, calls[1..])
  }

  function Draws(b: Bucket, q: Quota, calls: seq<Call>): seq<Outcome>
    decreases |calls|
  {
    if calls == [] then [] else
    var (b', o) := Draw(b, q, calls[0].cost, calls[0].now);
    [o] + Draws(b', q, calls[1..])
  }

  /** The bucket holds what the theoretical arrival time leaves free at its last use. */
  predicate Holds(tat: Option<i64>, q: Quota, b: Bucket) {
    b.level <= Capacity(q) &&
    if tat.Some? then Min(Capacity(q), Capacity(q) - (tat.value - b.at)) == b.level else b.level == Capacity(q)
  }

  predicate Ordered(calls: seq<Call>, from: int) {
    calls != [] ==> from <= calls[0].now && Ordered(calls[1..], calls[0].now)
  }

  lemma BurstSplits(q: Quota)
    ensures Capacity(q) == Span(q, Max(q.burst - 1, 0)) + EmissionMs(q)
    ensures Span(q, Max(q.burst, 1) - 1) == Span(q, Max(q.burst - 1, 0))
  {
    SpanAdds(q, Max(q.burst - 1, 0), 1);
    SpanOne(q);
  }

  lemma ExactArithmetic(tat: Option<i64>, q: Quota, cost: u32, now: i64)
    requires InRange(q, cost, now)
    ensures ToleranceMs(q) == Capacity(q) - EmissionMs(q) == Span(q, Max(q.burst - 1, 0))
    ensures AllowAt(tat, q, now) == Tat(tat, now) - ToleranceMs(q)
    ensures now >= AllowAt(tat, q, now) ==> Sat(Tat(tat, now) + CostMs(q, cost)) == Tat(tat, now) + Span(q, cost)
  {
    BurstSplits(q);
    hide Span, EmissionMs;
  }

  lemma DrawMatches(tat: Option<i64>, q: Quota, b: Bucket, cost: u32, now: i64, cap: i64)
    requires Holds(tat, q, b) && b.at <= now && InRange(q, cost, now)
    ensures var ((tat', c), (b', o)) := (Charged(tat, q, cost, now, cap), Draw(b, q, cost, now));
            c.outcome == o && Holds(tat', q, b') && b'.at == now
  {
    ExactArithmetic(tat, q, cost, now);
    hide Span, EmissionMs;
    assert Level(b, q, now) == Capacity(q) - (Tat(tat, now) - now);
  }

  /** The limiter is a token bucket: over every sequence of calls in clock order,
      whatever their costs, both take the same decisions. */
  lemma {:induction false} RefinesBucket(tat: Option<i64>, q: Quota, b: Bucket, calls: seq<Call>)
    requires Holds(tat, q, b) && Ordered(calls, b.at)
    requires forall i | 0 <= i < |calls| :: InRange(q, calls[i].cost, calls[i].now)
    ensures Decisions(tat, q, calls) == Draws(b, q, calls)
    decreases |calls|
  {
    if calls != [] {
      var c := calls[0];
      DrawMatches(tat, q, b, c.cost, c.now, c.cap);
      RefinesBucket(Charged(tat, q, c.cost, c.now, c.cap).0, q, Draw(b, q, c.cost, c.now).0, calls[1..]);
    }
  }

  // ------------------------------------------------------------ counting bound

  /** The calls that were admitted, in order. */
  function AdmittedCalls(tat: Option<i64>, q: Quota, calls: seq<Call>): seq<Call>
    decreases |calls|
  {
    if calls == [] then [] else
    var (t, c) := Charged(tat, q, calls[0].cost, calls[0].now, calls[0].cap);
    (if c.outcome == Admitted then [calls[0]] else []) + AdmittedCalls(t, q, calls[1..])
  }

  function Cost(calls: seq<Call>): nat {
    if calls == [] then 0 else calls[0].cost + Cost(calls[1..])
  }

  /** The last admitted charge, and the cost of those before it. */
  function Earlier(a: seq<Call>): nat { if a == [] then 0 else Cost(a[..|a| - 1]) }

  lemma EarlierNext(c: Call, rest: seq<Call>)
    ensures Earlier([c] + rest) == if rest == [] then 0 else c.cost + Earlier(rest)
  {
    var a := [c] + rest;
    if rest == [] {
      assert a[..0] == [];
    } else {
      var init := rest[..|rest| - 1];
      assert a[..|a| - 1] == [c] + init && ([c] + init)[1..] == init;
    }
  }

  /** Charges admitted from a state at `tat` on are all paid for by the time the
      last one is admitted, but for the tolerance. */
  lemma {:induction false} PaidFrom(tat: i64, q: Quota, calls: seq<Call>)
    requires forall i | 0 <= i < |calls| :: InRange(q, calls[i].cost, calls[i].now)
    ensures var a := AdmittedCalls(Some(tat), q, calls);
            a != [] ==> tat + Span(q, Earlier(a)) <= a[|a| - 1].now + ToleranceMs(q)
    decreases |calls|
  {
    if calls != [] {
      var c := calls[0];
      ExactArithmetic(Some(tat), q, c.cost, c.now);
      SpanOne(q);
      hide Span, EmissionMs, ToleranceMs, InRange;
      var (tat', ch) := Charged(Some(tat), q, c.cost, c.now, c.cap);
      PaidFrom(tat'.value, q, calls[1..]);
      var a, rest := AdmittedCalls(Some(tat), q, calls), AdmittedCalls(tat', q, calls[1..]);
      if ch.outcome == Admitted {
        assert a == [c] + rest;
        EarlierNext(c, rest);
        SpanAdds(q, c.cost, Earlier(rest));
      } else {
        assert a == rest;
      }
    }
  }

  /** Between the first and the last admitted charge no more is admitted than the
      elapsed time pays for, plus the burst; for unit charges at `t1 .. tn` this is
      `(n - 1) T <= (tn - t1) + (max(burst, 1) - 1) T`. The clock may be any. */
  lemma {:induction false} CountingBound(tat: Option<i64>, q: Quota, calls: seq<Call>)
    requires forall i | 0 <= i < |calls| :: InRange(q, calls[i].cost, calls[i].now)
    requires AdmittedCalls(tat, q, calls) != []
    ensures var a := AdmittedCalls(tat, q, calls);
            Span(q, Earlier(a)) <= (a[|a| - 1].now - a[0].now) + Span(q, Max(q.burst, 1) - 1)
    decreases |calls|
  {
    var c := calls[0];
    ExactArithmetic(tat, q, c.cost, c.now);
    BurstSplits(q);
    SpanOne(q);
    hide Span, EmissionMs, ToleranceMs, InRange;
    var (tat', ch) := Charged(tat, q, c.cost, c.now, c.cap);
    var a, rest := AdmittedCalls(tat, q, calls), AdmittedCalls(tat', q, calls[1..]);
    if ch.outcome == Admitted {
      assert a == [c] + rest;
      PaidFrom(tat'.value, q, calls[1..]);
      EarlierNext(c, rest);
      SpanAdds(q, c.cost, Earlier(rest));
    } else {
      assert a == rest;
      CountingBound(tat', q, calls[1..]);
    }
  }

  lemma {:induction false} UnitCost(calls: seq<Call>)
    requires forall i | 0 <= i < |calls| :: calls[i].cost == 1
    ensures Cost(calls) == |calls|
  {
    if calls != [] { UnitCost(calls[1..]); }
  }

  lemma {:induction false} AdmittedAreCalls(tat: Option<i64>, q: Quota, calls: seq<Call>, i: nat)
    requires i < |AdmittedCalls(tat, q, calls)|
    ensures AdmittedCalls(tat, q, calls)[i] in calls
    decreases |calls|
  {
    var (t, c) := Charged(tat, q, calls[0].cost, calls[0].now, calls[0].cap);
    var rest := AdmittedCalls(t, q, calls[1..]);
    if c.outcome != Admitted {
      AdmittedAreCalls(t, q, calls[1..], i);
    } else if i > 0 {
      AdmittedAreCalls(t, q, calls[1..], i - 1);
      assert AdmittedCalls(tat, q, calls) == [calls[0]] + rest;
    }
  }

  /** Rounding `T` down admits faster than configured by less than `(T + 1) / T`,
      and not at all exactly when the units divide the period. */
  lemma RateRounding(q: Quota)
    requires 1 <= q.refill.units <= q.refill.perMs
    ensures var (t, u, p) := (EmissionMs(q), q.refill.units, q.refill.perMs);
            t * u <= p < (t + 1) * u && (t * u == p <==> p % u == 0)
  {
    DivSteps(q.refill.perMs, q.refill.units);
  }

  lemma DivSteps(p: int, u: int)
    requires 1 <= u <= p
    ensures 1 <= p / u && (p / u) * u <= p < (p / u + 1) * u && ((p / u) * u == p <==> p % u == 0)
  {
    var k := p / u;
    assert p == k * u + p % u;
    assert (k + 1) * u == k * u + u;
  }

  /** In figures: with one unit a call, `n` admitted calls at `t1 .. tn` satisfy
      `(n - 1) per <= ((tn - t1) + (max(burst, 1) - 1) T) units (T + 1) / T`, without
      the last factor when the units divide the period. */
  lemma AdmitsAtMost(tat: Option<i64>, q: Quota, calls: seq<Call>)
    requires forall i | 0 <= i < |calls| :: InRange(q, calls[i].cost, calls[i].now) && calls[i].cost == 1
    requires AdmittedCalls(tat, q, calls) != [] && 1 <= q.refill.units <= q.refill.perMs
    ensures var (a, t, u, p) := (AdmittedCalls(tat, q, calls), EmissionMs(q) as int, q.refill.units as int, q.refill.perMs as int);
            var span := (a[|a| - 1].now as int - a[0].now) + Span(q, Max(q.burst, 1) - 1);
            && ((|a| - 1) * t) * p <= span * ((t + 1) * u)
            && (p % u == 0 ==> (|a| - 1) * p <= span * u)
  {
    var a := AdmittedCalls(tat, q, calls);
    CountingBound(tat, q, calls);
    forall i | 0 <= i < |a| ensures a[i].cost == 1 { AdmittedAreCalls(tat, q, calls, i); }
    UnitCost(a[..|a| - 1]);
    WithinRate(|a| - 1, (a[|a| - 1].now - a[0].now) + Span(q, Max(q.burst, 1) - 1), q);
  }

  lemma WithinRate(n: nat, span: int, q: Quota)
    requires 1 <= q.refill.units <= q.refill.perMs && Span(q, n) <= span
    ensures var (t, u, p) := (EmissionMs(q) as int, q.refill.units as int, q.refill.perMs as int);
            && (n * t) * p <= span * ((t + 1) * u)
            && (p % u == 0 ==> n * p <= span * u)
  {
    var t: int, u: int, p: int := EmissionMs(q), q.refill.units, q.refill.perMs;
    RateRounding(q);
    hide EmissionMs;
    assert Span(q, n) == n * t;
    Mono(n * t, span, p);
    Mono(p, (t + 1) * u, span);
    if p % u == 0 {
      Mono(n * t, span, u);
      Assoc(n, t, u);
    }
  }

  lemma Assoc(a: int, b: int, c: int)
    ensures a * (b * c) == (a * b) * c
  {}

  // ------------------------------------------------------------- retry delays

  /** The reported delay is within its bounds and a refusal changes nothing. */
  lemma RefusalIsFree(tat: Option<i64>, q: Quota, cost: u32, now: i64, cap: i64)
    ensures var (tat', c) := Charged(tat, q, cost, now, cap);
            if c.outcome == Throttled then tat' == tat && 1 <= c.retryAfterMs <= Max(cap, 1)
            else c.retryAfterMs == 0 && tat'.Some?
  {}

  /** A delay below the cap is exact if and only if the wait fits 64 bits, as it
      does on any clock that is not negative: then every earlier retry is refused
      and the retry after exactly that long is admitted. Otherwise the wait wraps
      around, one millisecond is reported, and that retry is refused again. */
  lemma RetryIsExact(tat: Option<i64>, q: Quota, cost: u32, now: i64, cap: i64, later: i64)
    requires var c := Charged(tat, q, cost, now, cap).1; c.outcome == Throttled && c.retryAfterMs < Max(cap, 1)
    requires now <= later
    ensures now >= 0 ==> AllowAt(tat, q, now) - now <= I64_MAX
    ensures var due := now + Charged(tat, q, cost, now, cap).1.retryAfterMs;
            && due <= I64_MAX
            && (AllowAt(tat, q, now) - now <= I64_MAX ==>
                  && (later < due ==> Charged(tat, q, cost, later, cap).1.outcome == Throttled)
                  && (later == due ==> Charged(tat, q, cost, later, cap).1.outcome == Admitted))
            && (AllowAt(tat, q, now) - now > I64_MAX ==>
                  due == now + 1 && Charged(tat, q, cost, due, cap).1.outcome == Throttled)
  {}

  lemma RetryWraps(q: Quota)
    requires q == Quota(1, Rate(1, 1000))
    ensures AllowAt(Some(I64_MAX), q, -2) - (-2) > I64_MAX
    ensures Charged(Some(I64_MAX), q, 1, -2, 60_000).1 == Charge(Throttled, 1)
  {}
}
