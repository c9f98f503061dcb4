/** The bounded in-memory budget store: one limiter per key, evicted when idle. */
module BudgetStore {
  import opened MuxTypes
  import opened Int64
  import opened Limiter

  datatype EntryId = EntryId(scope: string, kind: string, id: nat)
  datatype Entry = Entry(tat: Option<i64>, updated: i64)
  type Entries = map<EntryId, Entry>

  datatype Budget = Budget(id: EntryId, quota: Quota)
  /** One policy charged at once. */
  datatype Request = Request(budgets: seq<Budget>, cost: u32, now: i64, retryCap: i64)

  datatype StoreError = AtCapacity

  // ------------------------------------------------------------ specification

  function Evicted(e: Entries, now: i64, ttl: i64): Entries {
    if ttl <= 0 then e else map k | k in e && e[k].updated >= Sat(now - ttl) :: e[k]
  }

  function Fresh(now: i64): Entry { Entry(None, now) }

  /** The entry after a charge, created full if it is new. */
  function ChargeOne(e: Entries, b: Budget, cost: u32, now: i64, cap: i64): (Entries, Charge) {
    var tat := if b.id in e then e[b.id].tat else None;
    var (tat', c) := Charged(tat, b.quota, cost, now, cap);
    (e[b.id := Entry(tat', now)], c)
  }

  function ChargeAll(e: Entries, bs: seq<Budget>, cost: u32, now: i64, cap: i64): (Entries, seq<Charge>)
    decreases |bs|
  {
    if bs == [] then (e, []) else
    var (e1, c) := ChargeOne(e, bs[0], cost, now, cap);
    var (e2, cs) := ChargeAll(e1, bs[1..], cost, now, cap);
    (e2, [c] + cs)
  }

  function NewKeys(e: Entries, bs: seq<Budget>): nat {
    if bs == [] then 0 else (if bs[0].id in e then 0 else 1) + NewKeys(e, bs[1..])
  }

  function CheckedAll(e: Entries, cap: nat, ttl: i64, r: Request): (Entries, Result<seq<Charge>, StoreError>) {
    var e1 := Evicted(e, r.now, ttl);
    if |e1| + NewKeys(e1, r.budgets) > cap then (e1, Err(AtCapacity)) else
    var (e2, cs) := ChargeAll(e1, r.budgets, r.cost, r.now, r.retryCap);
    (e2, Ok(cs))
  }

  // ------------------------------------------------------------------ the store

  class MemoryStore {
    const cap: nat
    const ttlMs: i64
    var entries: Entries

    constructor (cap: nat, ttlMs: i64)
      ensures this.cap == cap && this.ttlMs == ttlMs && entries == map[]
    {
      this.cap, this.ttlMs := cap, ttlMs;
      entries := map[];
    }

    ghost predicate Valid() reads this { |entries| <= cap }

    method Evict(now: i64)
      modifies this`entries
      ensures entries == Evicted(old(entries), now, ttlMs)
    {
      if ttlMs <= 0 { return; }
      var cutoff := Sat(now - ttlMs);
      entries := map k | k in entries && entries[k].updated >= cutoff :: entries[k];
    }

    /** The key's entry, made if need be, is charged. */
    method ChargeKey(b: Budget, cost: u32, now: i64, retryCap: i64) returns (c: Charge)
      modifies this`entries
      ensures (entries, c) == ChargeOne(old(entries), b, cost, now, retryCap)
    {
      var entry := if b.id in entries then entries[b.id] else Fresh(now);
      var gcra := new Gcra();
      gcra.tatMs := entry.tat;
      c := gcra.Check(b.quota, cost, now, retryCap);
      entries := entries[b.id := Entry(gcra.tatMs, now)];
    }

    method Check(b: Budget, cost: u32, now: i64, retryCap: i64) returns (r: Result<Charge, StoreError>)
      requires Valid()
      modifies this`entries
      ensures Valid()
      ensures var (e', rs) := CheckedAll(old(entries), cap, ttlMs, Request([b], cost, now, retryCap));
              && entries == e'
              && (r.Err? <==> rs.Err?) && (r.Ok? ==> rs.value == [r.value])
    {
      Evict(now);
      EvictShrinks(old(entries), now, ttlMs);
      OneKey(entries, b, cost, now, retryCap);
      if b.id !in entries && |entries| >= cap { return Err(AtCapacity); }
      Grows(entries, b, cost, now, retryCap);
      var c := ChargeKey(b, cost, now, retryCap);
      return Ok(c);
    }

    /** All keys of a policy, or none. */
    method CheckAll(req: Request) returns (r: Result<seq<Charge>, StoreError>)
      requires Valid()
      modifies this`entries
      ensures Valid()
      ensures (entries, r) == CheckedAll(old(entries), cap, ttlMs, req)
    {
      Evict(req.now);
      EvictShrinks(old(entries), req.now, ttlMs);
      var newKeys := CountNew(req.budgets);
      if |entries| + newKeys > cap { return Err(AtCapacity); }
      ghost var e1 := entries;
      var decisions: seq<Charge> := [];
      var i := 0;
      assert req.budgets[0..] == req.budgets;
      assert [] + ChargeAll(e1, req.budgets, req.cost, req.now, req.retryCap).1
        == ChargeAll(e1, req.budgets, req.cost, req.now, req.retryCap).1;
      while i < |req.budgets|
        invariant i <= |req.budgets|
        invariant |entries| + NewKeys(entries, req.budgets[i..]) <= cap
        invariant var (e2, cs) := ChargeAll(entries, req.budgets[i..], req.cost, req.now, req.retryCap);
                  (e2, decisions + cs) == ChargeAll(e1, req.budgets, req.cost, req.now, req.retryCap)
      {
        var b := req.budgets[i];
        assert req.budgets[i..][0] == b && req.budgets[i..][1..] == req.budgets[i + 1..];
        Grows(entries, b, req.cost, req.now, req.retryCap);
        FewerNew(entries, b, req.cost, req.now, req.retryCap, req.budgets[i + 1..]);
        ghost var (e2, cs) := ChargeAll(entries, req.budgets[i..], req.cost, req.now, req.retryCap);
        var c := ChargeKey(b, req.cost, req.now, req.retryCap);
        assert decisions + cs == (decisions + [c]) + cs[1..];
        decisions := decisions + [c];
        i := i + 1;
      }
      assert decisions + [] == decisions;
      return Ok(decisions);
    }

    method CountNew(bs: seq<Budget>) returns (n: nat)
      ensures n == NewKeys(entries, bs)
    {
      n := 0;
      var i := 0;
      while i < |bs|
        invariant i <= |bs| && n + NewKeys(entries, bs[i..]) == NewKeys(entries, bs)
      {
        assert bs[i..][1..] == bs[i + 1..];
        if bs[i].id !in entries { n := n + 1; }
        i := i + 1;
      }
    }
  }

  // ---------------------------------------------------------------- size bound

  lemma EvictShrinks(e: Entries, now: i64, ttl: i64)
    ensures |Evicted(e, now, ttl)| <= |e|
  {
    var e1 := Evicted(e, now, ttl);
    assert e1.Keys <= e.Keys;
    SubsetSize(e1.Keys, e.Keys);
  }

  lemma SubsetSize(a: set<EntryId>, b: set<EntryId>)
    requires a <= b
    ensures |a| <= |b|
  {
    assert b == a + (b - a);
  }

  lemma Grows(e: Entries, b: Budget, cost: u32, now: i64, cap: i64)
    ensures |ChargeOne(e, b, cost, now, cap).0| == |e| + (if b.id in e then 0 else 1)
  {
    var e1 := ChargeOne(e, b, cost, now, cap).0;
    assert e1.Keys == e.Keys + {b.id};
  }

  lemma {:induction false} FewerNew(e: Entries, b: Budget, cost: u32, now: i64, cap: i64, bs: seq<Budget>)
    ensures NewKeys(ChargeOne(e, b, cost, now, cap).0, bs) <= NewKeys(e, bs)
  {
    if bs != [] { FewerNew(e, b, cost, now, cap, bs[1..]); }
  }

  lemma OneKey(e: Entries, b: Budget, cost: u32, now: i64, cap: i64)
    ensures NewKeys(e, [b]) == if b.id in e then 0 else 1
    ensures var (e1, c) := ChargeOne(e, b, cost, now, cap); ChargeAll(e, [b], cost, now, cap) == (e1, [c])
  {
    assert [b][1..] == [];
    var (e1, c) := ChargeOne(e, b, cost, now, cap);
    assert ChargeAll(e1, [], cost, now, cap) == (e1, []);
    assert [c] + [] == [c];
  }

  lemma {:induction false} ChargeAllGrows(e: Entries, bs: seq<Budget>, cost: u32, now: i64, cap: i64)
    ensures |ChargeAll(e, bs, cost, now, cap).0| <= |e| + NewKeys(e, bs)
    decreases |bs|
  {
    if bs != [] {
      Grows(e, bs[0], cost, now, cap);
      FewerNew(e, bs[0], cost, now, cap, bs[1..]);
      ChargeAllGrows(ChargeOne(e, bs[0], cost, now, cap).0, bs[1..], cost, now, cap);
    }
  }

  /** The store never holds more than its bound, whatever it is asked. */
  lemma {:induction false} NeverOverfull(e: Entries, cap: nat, ttl: i64, rs: seq<Request>)
    requires |e| <= cap
    ensures |Served(e, cap, ttl, rs).0| <= cap
    decreases |rs|
  {
    if rs != [] {
      var r := rs[0];
      EvictShrinks(e, r.now, ttl);
      ChargeAllGrows(Evicted(e, r.now, ttl), r.budgets, r.cost, r.now, r.retryCap);
      NeverOverfull(CheckedAll(e, cap, ttl, r).0, cap, ttl, rs[1..]);
    }
  }

  // --------------------------------------------------- eviction is unobservable

  /** The same requests on a store that never evicts and has no bound. */
  function Unbounded(e: Entries, rs: seq<Request>): (Entries, seq<seq<Charge>>)
    decreases |rs|
  {
    if rs == [] then (e, []) else
    var (e1, cs) := ChargeAll(e, rs[0].budgets, rs[0].cost, rs[0].now, rs[0].retryCap);
    var (e2, rest) := Unbounded(e1, rs[1..]);
    (e2, [cs] + rest)
  }

  function Served(e: Entries, cap: nat, ttl: i64, rs: seq<Request>): (Entries, seq<Result<seq<Charge>, StoreError>>)
    decreases |rs|
  {
    if rs == [] then (e, []) else
    var (e1, r) := CheckedAll(e, cap, ttl, rs[0]);
    var (e2, rest) := Served(e1, cap, ttl, rs[1..]);
    (e2, [r] + rest)
  }

  /** Clock order, and a lifetime that outlasts what any charge can owe. */
  predicate Patient(rs: seq<Request>, ttl: i64, from: int) {
    rs != [] ==>
      && from <= rs[0].now
      && (forall i | 0 <= i < |rs[0].budgets| ::
            ttl + 1 >= ToleranceMs(rs[0].budgets[i].quota) + CostMs(rs[0].budgets[i].quota, rs[0].cost))
      && Patient(rs[1..], ttl, rs[0].now)
  }

  predicate Tame(f: Entries, ttl: i64, from: int) {
    forall k | k in f :: f[k].updated <= from && (f[k].tat.Some? ==> f[k].tat.value <= f[k].updated + ttl + 1)
  }

  /** The evicting store's entries are the others' but for some that are full again. */
  predicate Same(e: Entries, f: Entries, from: int) {
    && (forall k | k in e :: k in f && e[k] == f[k])
    && (forall k | k in f && k !in e && f[k].tat.Some? :: f[k].tat.value <= from)
  }

  lemma EvictSame(e: Entries, f: Entries, ttl: i64, from: int, now: i64)
    requires Same(e, f, from) && Tame(f, ttl, from) && from <= now
    ensures Same(Evicted(e, now, ttl), f, now)
  {}

  lemma ChargeSame(e: Entries, f: Entries, b: Budget, cost: u32, now: i64, cap: i64, ttl: i64)
    requires Same(e, f, now) && Tame(f, ttl, now) && ttl + 1 >= ToleranceMs(b.quota) + CostMs(b.quota, cost)
    ensures var ((e1, c), (f1, d)) := (ChargeOne(e, b, cost, now, cap), ChargeOne(f, b, cost, now, cap));
            c == d && Same(e1, f1, now) && Tame(f1, ttl, now)
  {
    hide ToleranceMs, CostMs;
    var te := if b.id in e then e[b.id].tat else None;
    var tf := if b.id in f then f[b.id].tat else None;
    assert Tat(te, now) == Tat(tf, now);
  }

  lemma {:induction false} ChargeAllSame(e: Entries, f: Entries, bs: seq<Budget>, cost: u32, now: i64, cap: i64, ttl: i64)
    requires Same(e, f, now) && Tame(f, ttl, now)
    requires forall i | 0 <= i < |bs| :: ttl + 1 >= ToleranceMs(bs[i].quota) + CostMs(bs[i].quota, cost)
    ensures var ((e1, c), (f1, d)) := (ChargeAll(e, bs, cost, now, cap), ChargeAll(f, bs, cost, now, cap));
            c == d && Same(e1, f1, now) && Tame(f1, ttl, now)
    decreases |bs|
  {
    if bs != [] {
      ChargeSame(e, f, bs[0], cost, now, cap, ttl);
      hide Same, Tame, ChargeOne;
      ChargeAllSame(ChargeOne(e, bs[0], cost, now, cap).0, ChargeOne(f, bs[0], cost, now, cap).0, bs[1..], cost, now, cap, ttl);
    }
  }

  predicate AllServed(e: Entries, cap: nat, ttl: i64, rs: seq<Request>)
    decreases |rs|
  {
    rs != [] ==> CheckedAll(e, cap, ttl, rs[0]).1.Ok? && AllServed(CheckedAll(e, cap, ttl, rs[0]).0, cap, ttl, rs[1..])
  }

  function Oks(ds: seq<seq<Charge>>): (r: seq<Result<seq<Charge>, StoreError>>)
    ensures |r| == |ds|
  { if ds == [] then [] else [Ok(ds[0])] + Oks(ds[1..]) }

  lemma {:induction false} ServedSame(e: Entries, f: Entries, cap: nat, ttl: i64, from: int, rs: seq<Request>)
    requires Same(e, f, from) && Tame(f, ttl, from) && Patient(rs, ttl, from) && AllServed(e, cap, ttl, rs)
    ensures Served(e, cap, ttl, rs).1 == Oks(Unbounded(f, rs).1)
    decreases |rs|
  {
    if rs != [] {
      var r := rs[0];
      var e1 := Evicted(e, r.now, ttl);
      EvictSame(e, f, ttl, from, r.now);
      assert Tame(f, ttl, r.now);
      ChargeAllSame(e1, f, r.budgets, r.cost, r.now, r.retryCap, ttl);
      hide Same, Tame, ChargeAll, Evicted;
      var (e2, f2) := (CheckedAll(e, cap, ttl, r).0, ChargeAll(f, r.budgets, r.cost, r.now, r.retryCap));
      ServedSame(e2, f2.0, cap, ttl, r.now, rs[1..]);
      var tail := Unbounded(f2.0, rs[1..]).1;
      assert ([f2.1] + tail)[1..] == tail;
    }
  }

  /** A lifetime of at least the tolerance and the cost less a millisecond makes
      eviction unobservable: while the bound is not hit, a new store answers every
      request as one that never forgets, on any clock that does not run backwards. */
  lemma EvictionUnobservable(cap: nat, ttl: i64, rs: seq<Request>)
    requires Patient(rs, ttl, I64_MIN) && AllServed(map[], cap, ttl, rs)
    ensures Served(map[], cap, ttl, rs).1 == Oks(Unbounded(map[], rs).1)
  { ServedSame(map[], map[], cap, ttl, I64_MIN, rs); }
}
