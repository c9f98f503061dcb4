/** One key of the budget store, charged over and over: exactly which lifetimes
    make its eviction unobservable. */
module Lifetimes {
  import opened MuxTypes
  import opened Int64
  import opened Limiter
  import opened BudgetStore

  /** The charge that is repeated. */
  datatype Charging = Charging(b: Budget, cost: u32, retryCap: i64)
  {
    function Tol(): i64 { ToleranceMs(b.quota) }
    function Cost(): i64 { CostMs(b.quota, cost) }
    function At(t: i64): Request { Request([b], cost, t, retryCap) }
  }

  function Requests(g: Charging, ts: seq<i64>): seq<Request> {
    if ts == [] then [] else [g.At(ts[0])] + Requests(g, ts[1..])
  }

  predicate Ordered(ts: seq<i64>, from: int) {
    ts != [] ==> from <= ts[0] && Ordered(ts[1..], ts[0])
  }

  // -------------------------------------------------------------- one key

  function Only(g: Charging, x: Option<Entry>): Entries {
    match x
    case None => map[]
    case Some(e) => map[g.b.id := e]
  }

  /** What is left of the entry at `t`. */
  function Kept(x: Option<Entry>, ttl: i64, t: i64): Option<Entry> {
    if ttl > 0 && x.Some? && x.value.updated < Sat(t - ttl) then None else x
  }

  function Ask(g: Charging, x: Option<Entry>, ttl: i64, t: i64): (Entry, Charge) {
    var y := Kept(x, ttl, t);
    var (tat, c) := Charged(if y.Some? then y.value.tat else None, g.b.quota, g.cost, t, g.retryCap);
    (Entry(tat, t), c)
  }

  lemma Put(g: Charging, x: Option<Entry>, e: Entry)
    ensures Only(g, x)[g.b.id := e] == Only(g, Some(e))
  {}

  lemma AskIs(g: Charging, x: Option<Entry>, cap: nat, ttl: i64, t: i64)
    requires cap >= 1
    ensures CheckedAll(Only(g, x), cap, ttl, g.At(t)) == (Only(g, Some(Ask(g, x, ttl, t).0)), Ok([Ask(g, x, ttl, t).1]))
  {
    var e := Evicted(Only(g, x), t, ttl);
    assert e == Only(g, Kept(x, ttl, t));
    OneKey(e, g.b, g.cost, t, g.retryCap);
    Put(g, Kept(x, ttl, t), Ask(g, x, ttl, t).0);
    hide Charged;
    assert ChargeOne(e, g.b, g.cost, t, g.retryCap) == (Only(g, Some(Ask(g, x, ttl, t).0)), Ask(g, x, ttl, t).1);
  }

  lemma AskForever(g: Charging, y: Option<Entry>, t: i64)
    ensures ChargeAll(Only(g, y), [g.b], g.cost, t, g.retryCap) == (Only(g, Some(Ask(g, y, 0, t).0)), [Ask(g, y, 0, t).1])
  {
    OneKey(Only(g, y), g.b, g.cost, t, g.retryCap);
    Put(g, y, Ask(g, y, 0, t).0);
    hide Charged;
    assert ChargeOne(Only(g, y), g.b, g.cost, t, g.retryCap) == (Only(g, Some(Ask(g, y, 0, t).0)), Ask(g, y, 0, t).1);
  }

  /** Some answer differs between an entry with a lifetime and one without. */
  predicate Differ(g: Charging, x: Option<Entry>, y: Option<Entry>, ttl: i64, ts: seq<i64>)
    decreases |ts|
  {
    ts != [] &&
    var ((x1, c), (y1, d)) := (Ask(g, x, ttl, ts[0]), Ask(g, y, 0, ts[0]));
    c != d || Differ(g, Some(x1), Some(y1), ttl, ts[1..])
  }

  lemma {:induction false} DifferShows(g: Charging, x: Option<Entry>, y: Option<Entry>, cap: nat, ttl: i64, ts: seq<i64>)
    requires cap >= 1
    ensures AllServed(Only(g, x), cap, ttl, Requests(g, ts))
    ensures Served(Only(g, x), cap, ttl, Requests(g, ts)).1 == Oks(Unbounded(Only(g, y), Requests(g, ts)).1)
            <==> !Differ(g, x, y, ttl, ts)
    decreases |ts|
  {
    if ts != [] {
      AskIs(g, x, cap, ttl, ts[0]);
      AskForever(g, y, ts[0]);
      hide Ask, CheckedAll, ChargeAll, Only;
      var rs, rest := Requests(g, ts), Requests(g, ts[1..]);
      assert rs[0] == g.At(ts[0]) && rs[1..] == rest;
      var ((x1, c), (y1, d)) := (Ask(g, x, ttl, ts[0]), Ask(g, y, 0, ts[0]));
      DifferShows(g, Some(x1), Some(y1), cap, ttl, ts[1..]);
      var tail := Unbounded(Only(g, Some(y1)), rest).1;
      assert ([[d]] + tail)[1..] == tail;
      assert [c] == [d] <==> c == d;
      Heads(Ok([c]), Ok([d]), Served(Only(g, Some(x1)), cap, ttl, rest).1, Oks(tail));
    }
  }

  lemma Heads<T>(a: T, b: T, s: seq<T>, t: seq<T>)
    ensures [a] + s == [b] + t <==> a == b && s == t
  {
    if [a] + s == [b] + t { assert s == ([a] + s)[1..] && t == ([b] + t)[1..] && ([a] + s)[0] == a && ([b] + t)[0] == b; }
  }

  // ------------------------------------------------------- telling them apart

  /** The instant up to which the entry owes at `t`. */
  function Owed(x: Option<Entry>, ttl: i64, t: i64): i64 {
    var y := Kept(x, ttl, t);
    Tat(if y.Some? then y.value.tat else None, t)
  }

  function Sum(g: Charging): nat { g.Tol() + g.Cost() }

  lemma AskOwed(g: Charging, x: Option<Entry>, ttl: i64, t: i64)
    requires I64_MIN / 2 <= t && Owed(x, ttl, t) + g.Tol() + g.Cost() <= I64_MAX && g.Tol() <= I64_MAX / 4
    ensures var (e, c) := Ask(g, x, ttl, t);
            if Owed(x, ttl, t) <= t + g.Tol()
            then e == Entry(Some(Owed(x, ttl, t) + g.Cost()), t) && c == Charge(Admitted, 0)
            else c.outcome == Throttled
  { hide ToleranceMs, CostMs, Kept; }

  /** An entry last charged at `t` is kept at `t`. */
  lemma OwedNow(e: Entry, ttl: i64, t: i64)
    requires e.updated == t
    ensures Owed(Some(e), ttl, t) == Tat(e.tat, t)
  {}

  /** Once the entry that lasts owes more than what is left of the other, one more
      charge or a few tell them apart. */
  lemma {:induction false} OwesMore(g: Charging, x: Option<Entry>, y: Entry, ttl: i64, t: i64) returns (ts: seq<i64>)
    requires ttl > 0 && g.Cost() >= 1 && I64_MIN / 2 <= t && t + 4 * Sum(g) <= I64_MAX && g.Tol() <= I64_MAX / 4
    requires Owed(x, ttl, t) < Owed(Some(y), 0, t) <= t + Sum(g)
    ensures Ordered(ts, t) && Differ(g, x, Some(y), ttl, ts)
    decreases t + Sum(g) - Owed(Some(y), 0, t)
  {
    var (o, p) := (Owed(x, ttl, t), Owed(Some(y), 0, t));
    if p - t > g.Tol() {
      var u := Max(t, o - g.Tol());
      Later(x, ttl, t, u);
      Later(Some(y), 0, t, u);
      hide Ask, Owed, ToleranceMs, CostMs;
      AskOwed(g, x, ttl, u);
      AskOwed(g, Some(y), 0, u);
      ts := [u];
    } else {
      AskOwed(g, x, ttl, t);
      AskOwed(g, Some(y), 0, t);
      var (x1, y1) := (Ask(g, x, ttl, t).0, Ask(g, Some(y), 0, t).0);
      OwedNow(x1, ttl, t);
      OwedNow(y1, 0, t);
      hide Ask, Owed, ToleranceMs, CostMs;
      var rest := OwesMore(g, Some(x1), y1, ttl, t);
      ts := [t] + rest;
      assert ts[1..] == rest;
    }
  }

  /** Waiting pays debts, and an entry that lasts is never let off. */
  lemma Later(x: Option<Entry>, ttl: i64, t: i64, u: i64)
    requires t <= u
    ensures u <= Owed(x, ttl, u) <= Max(Owed(x, ttl, t), u)
    ensures ttl <= 0 ==> Owed(x, ttl, u) == Max(Owed(x, ttl, t), u)
  {}

  lemma LetGo(g: Charging, owed: nat, t: i64, ttl: i64) returns (ts: seq<i64>)
    requires 0 < ttl && g.Cost() >= 1 && ttl + 1 < owed <= Sum(g) && 6 * Sum(g) <= I64_MAX
    requires I64_MIN / 2 <= t && t + 5 * Sum(g) <= I64_MAX
    ensures var x := Some(Entry(Some(t + owed), t)); Ordered(ts, t) && Differ(g, x, x, ttl, ts)
  {
    hide Ask, ToleranceMs, CostMs;
    var e, u := Entry(Some(t + owed), t), t + ttl + 1;
    assert Owed(Some(e), ttl, u) == u && Owed(Some(e), 0, u) == t + owed;
    hide Owed;
    ts := OwesMore(g, Some(e), e, ttl, u);
  }

  /** A lifetime short of the threshold: charge until what is owed outlasts it, let
      the entry go, and tell the two apart. */
  lemma {:induction false} TooShort(g: Charging, owed: nat, t: i64, ttl: i64) returns (ts: seq<i64>)
    requires ttl > 0 && g.Cost() >= 1 && ttl + 1 < Sum(g) && 6 * Sum(g) <= I64_MAX
    requires owed <= Sum(g) && I64_MIN / 2 <= t
    requires t + 6 * Sum(g) - (if owed == Sum(g) then Sum(g) else 0) <= I64_MAX
    ensures var x := Some(Entry(Some(t + owed), t)); Ordered(ts, t) && Differ(g, x, x, ttl, ts)
    decreases Sum(g) - owed
  {
    hide Ask, Owed, ToleranceMs, CostMs;
    if owed > ttl + 1 {
      ts := LetGo(g, owed, t, ttl);
    } else {
      var u := t + Max(owed - g.Tol(), 0);
      InStep(g, owed, t, ttl);
      var rest := TooShort(g, Max(t + owed, u) + g.Cost() - u, u, ttl);
      ts := [u] + rest;
      assert ts[1..] == rest;
    }
  }

  /** While nothing lapses that is still owed, both are charged alike. */
  lemma InStep(g: Charging, owed: nat, t: i64, ttl: i64)
    requires 0 < ttl < Sum(g) && owed <= ttl + 1 && 6 * Sum(g) <= I64_MAX && I64_MIN / 2 <= t && t + 6 * Sum(g) <= I64_MAX
    ensures var (x, u) := (Some(Entry(Some(t + owed), t)), t + Max(owed - g.Tol(), 0));
            && Ask(g, x, ttl, u) == (Entry(Some(Max(t + owed, u) + g.Cost()), u), Charge(Admitted, 0))
            && Ask(g, x, 0, u) == Ask(g, x, ttl, u)
  {
    var e, u := Entry(Some(t + owed), t), t + Max(owed - g.Tol(), 0);
    hide ToleranceMs, CostMs;
    assert Owed(Some(e), ttl, u) == Owed(Some(e), 0, u) == Max(t + owed, u);
    AskOwed(g, Some(e), ttl, u);
    AskOwed(g, Some(e), 0, u);
    hide Ask, Owed;
  }

  lemma {:induction false} NeverEvicted(g: Charging, x: Option<Entry>, ttl: i64, ts: seq<i64>)
    requires ttl <= 0
    ensures !Differ(g, x, x, ttl, ts)
    decreases |ts|
  {
    if ts != [] {
      hide Charged;
      NeverEvicted(g, Some(Ask(g, x, 0, ts[0]).0), ttl, ts[1..]);
    }
  }

  lemma {:induction false} InPatience(g: Charging, ts: seq<i64>, ttl: i64, from: int)
    requires Ordered(ts, from) && ttl + 1 >= Sum(g)
    ensures Patient(Requests(g, ts), ttl, from)
    decreases |ts|
  {
    if ts != [] {
      InPatience(g, ts[1..], ttl, ts[0]);
      hide ToleranceMs, CostMs;
      assert Requests(g, ts)[1..] == Requests(g, ts[1..]);
    }
  }

  /** The lifetime that makes eviction unobservable is exact, for every quota, cost
      and store: every run of one charge is answered as by a store that never
      forgets, if and only if the lifetime is at most a millisecond short of the
      tolerance and the cost, or not positive, which turns eviction off. */
  lemma LifetimeIsExact(g: Charging, cap: nat, ttl: i64)
    requires cap >= 1 && g.Cost() >= 1 && 6 * Sum(g) <= I64_MAX
    ensures (forall ts | Ordered(ts, I64_MIN) :: Alike(g, cap, ttl, ts)) <==> ttl <= 0 || ttl + 1 >= g.Tol() + g.Cost()
  {
    hide ToleranceMs, CostMs, Charged;
    if ttl <= 0 || ttl + 1 >= Sum(g) {
      forall ts | Ordered(ts, I64_MIN) ensures Alike(g, cap, ttl, ts) {
        DifferShows(g, None, None, cap, ttl, ts);
        if ttl <= 0 {
          NeverEvicted(g, None, ttl, ts);
        } else {
          InPatience(g, ts, ttl, I64_MIN);
          EvictionUnobservable(cap, ttl, Requests(g, ts));
        }
      }
    } else {
      AskOwed(g, None, ttl, 0);
      AskOwed(g, None, 0, 0);
      var rest := TooShort(g, g.Cost(), 0, ttl);
      var ts: seq<i64> := [0] + rest;
      assert ts[1..] == rest;
      DifferShows(g, None, None, cap, ttl, ts);
      assert !Alike(g, cap, ttl, ts);
    }
  }

  /** Every answer is that of a store that never evicts. */
  predicate Alike(g: Charging, cap: nat, ttl: i64, ts: seq<i64>) {
    Served(map[], cap, ttl, Requests(g, ts)).1 == Oks(Unbounded(map[], Requests(g, ts)).1)
  }
}
