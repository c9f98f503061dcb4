/** Runs of the metering job: batches of slot writes and folds of finished days,
    in any order. The tables hold what was written last, minute for minute, as
    long as no write comes for a day that is already folded. */
module Metering {
  import opened MuxTypes
  import opened Metrics

  const MINUTE_MS := 60_000

  type Slot = m: nat | m < METRICS

  /** Consecutive minutes of one metric of one service-day. */
  datatype SlotWrite = SlotWrite(service: int, day: int, slot: Slot, first: nat, values: seq<int>)
  {
    predicate Valid() {
      && values != [] && first + |values| <= MINUTES_PER_DAY
      && (slot == OPEN_MS ==> forall i | 0 <= i < |values| :: 0 <= values[i] <= MINUTE_MS)
    }

    predicate Covers(s: int, m: nat, minute: int) {
      && (s, m, minute / MINUTES_PER_DAY) == (service, slot, day)
      && first <= minute % MINUTES_PER_DAY < first + |values|
    }

    function At(minute: int): int
      requires Covers(service, slot, minute)
    { values[minute % MINUTES_PER_DAY - first] }
  }

  function EmptyDay(): (d: DaySlots)
    ensures DayOk(d)
  { seq(METRICS, _ => Zeros(MINUTES_PER_DAY)) }

  function Patch(row: seq<int>, first: nat, values: seq<int>): (r: seq<int>)
    requires first + |values| <= |row|
    ensures |r| == |row|
  { row[..first] + values + row[first + |values|..] }

  /** The live row, allocated when there is none. */
  function LiveRow(db: Db, k: Key): (d: DaySlots)
    requires forall j | j in db.live :: DayOk(db.live[j])
    ensures DayOk(d)
  { if k in db.live then db.live[k] else EmptyDay() }

  /** One write; a service that is gone is passed over. */
  function Written(db: Db, w: SlotWrite): (r: Db)
    requires w.Valid() && forall k | k in db.live :: DayOk(db.live[k])
    ensures forall k | k in r.live :: DayOk(r.live[k])
  {
    var k := (w.service, w.day);
    if w.service !in db.services then db
    else
      var row := LiveRow(db, k);
      assert DayOk(row[w.slot := Patch(row[w.slot], w.first, w.values)]);
      db.(live := db.live[k := row[w.slot := Patch(row[w.slot], w.first, w.values)]])
  }

  function AllWritten(db: Db, writes: seq<SlotWrite>): (r: Db)
    requires (forall w | w in writes :: w.Valid()) && forall k | k in db.live :: DayOk(db.live[k])
    ensures forall k | k in r.live :: DayOk(r.live[k])
  {
    if writes == [] then db else Written(AllWritten(db, writes[..|writes| - 1]), writes[|writes| - 1])
  }

  /** A batch is written as a whole, or refused as a whole for one write that does not fit. */
  method WriteDaySlots(db: Db, writes: seq<SlotWrite>) returns (r: Option<Db>)
    requires DbOk(db)
    ensures r.Some? <==> forall w | w in writes :: w.Valid()
    ensures r.Some? ==> r.value == AllWritten(db, writes)
  {
    var i := 0;
    while i < |writes|
      invariant i <= |writes| && forall w | w in writes[..i] :: w.Valid()
    {
      if !writes[i].Valid() { return None; }
      i := i + 1;
    }
    assert writes[..i] == writes;
    var db' := db;
    i := 0;
    while i < |writes|
      invariant i <= |writes| && db' == AllWritten(db, writes[..i])
    {
      assert writes[..i + 1][..i] == writes[..i];
      db' := Written(db', writes[i]);
      i := i + 1;
    }
    assert writes[..i] == writes;
    return Some(db');
  }

  // ------------------------------------------------------------- one write

  lemma PatchAt(row: seq<int>, first: nat, values: seq<int>, i: nat)
    requires first + |values| <= |row| && i < |row|
    ensures Patch(row, first, values)[i] == if first <= i < first + |values| then values[i - first] else row[i]
  {}

  /** A write replaces what the live row held in its minutes and touches nothing else. */
  lemma WrittenUsage(db: Db, w: SlotWrite, s: int, m: nat, minute: int)
    requires DbOk(db) && w.Valid() && s in db.services && m < METRICS
    ensures DbOk(Written(db, w)) && Written(db, w).daily == db.daily && Written(db, w).services == db.services
    ensures Usage(LiveRows(Written(db, w)), s, m, minute)
              == if w.Covers(s, m, minute) then w.At(minute) else Usage(LiveRows(db), s, m, minute)
  {
    var k, at := (s, minute / MINUTES_PER_DAY), minute % MINUTES_PER_DAY;
    if k == (w.service, w.day) {
      PatchAt(LiveRow(db, k)[w.slot], w.first, w.values, at);
    }
  }

  /** After a write to a day with no rollup row, that is all there is. */
  lemma WrittenDisjoint(db: Db, w: SlotWrite, s: int)
    requires DbOk(db) && w.Valid() && Disjoint(db, s) && (w.service == s ==> (s, w.day) !in db.daily)
    ensures DbOk(Written(db, w)) && Disjoint(Written(db, w), s)
  {}

  // ------------------------------------------------------------------- runs

  datatype Step = Flush(writes: seq<SlotWrite>) | Fold(day: int)

  ghost predicate Steps(db: Db, step: Step, db': Db)
    requires DbOk(db)
  {
    && DbOk(db')
    && match step
       case Flush(writes) => db' == if forall w | w in writes :: w.Valid() then AllWritten(db, writes) else db
       case Fold(day) => Folded(db, day, db')
  }

  /** From empty tables. */
  ghost predicate Run(dbs: seq<Db>, steps: seq<Step>) {
    && |dbs| == |steps| + 1 && dbs[0].live == map[] && dbs[0].daily == map[]
    && (forall i | 0 <= i < |dbs| :: DbOk(dbs[i]))
    && forall i | 0 <= i < |steps| :: Steps(dbs[i], steps[i], dbs[i + 1])
  }

  /** No write of the service is for a day with a rollup row. */
  ghost predicate OnTime(db: Db, step: Step, s: int) {
    step.Flush? ==> forall w | w in step.writes && w.service == s :: (s, w.day) !in db.daily
  }

  /** What was written last to a minute of a metric. */
  function LastWrite(writes: seq<SlotWrite>, s: int, m: nat, minute: int, before: int): int {
    if writes == [] then before
    else
      var w := writes[|writes| - 1];
      if w.Covers(s, m, minute) then w.At(minute) else LastWrite(writes[..|writes| - 1], s, m, minute, before)
  }

  function Ledger(steps: seq<Step>, s: int, m: nat, minute: int): int {
    if steps == [] then 0
    else
      var (init, step) := (Ledger(steps[..|steps| - 1], s, m, minute), steps[|steps| - 1]);
      if step.Flush? && (forall w | w in step.writes :: w.Valid()) then LastWrite(step.writes, s, m, minute, init) else init
  }

  lemma {:induction false} BatchKeeps(db: Db, writes: seq<SlotWrite>, s: int, m: nat, minute: int)
    requires DbOk(db) && (forall w | w in writes :: w.Valid()) && s in db.services && m < METRICS && Disjoint(db, s)
    requires forall w | w in writes && w.service == s :: (s, w.day) !in db.daily
    ensures var db' := AllWritten(db, writes);
            && DbOk(db') && Disjoint(db', s) && db'.daily == db.daily && db'.services == db.services
            && Usage(LiveRows(db'), s, m, minute) == LastWrite(writes, s, m, minute, Usage(LiveRows(db), s, m, minute))
    decreases |writes|
  {
    if writes != [] {
      var init, w := writes[..|writes| - 1], writes[|writes| - 1];
      BatchKeeps(db, init, s, m, minute);
      WrittenUsage(AllWritten(db, init), w, s, m, minute);
      WrittenDisjoint(AllWritten(db, init), w, s);
    }
  }

  /** A minute is in one table only, and a batch for days without a rollup row adds
      to the live one. */
  lemma BatchUsage(db: Db, writes: seq<SlotWrite>, s: int, m: nat, minute: int)
    requires DbOk(db) && (forall w | w in writes :: w.Valid()) && s in db.services && m < METRICS && Disjoint(db, s)
    requires forall w | w in writes && w.service == s :: (s, w.day) !in db.daily
    ensures DbOk(AllWritten(db, writes))
    ensures Usage(AllWritten(db, writes), s, m, minute) == LastWrite(writes, s, m, minute, Usage(db, s, m, minute))
  {
    BatchKeeps(db, writes, s, m, minute);
    var k := (s, minute / MINUTES_PER_DAY);
    if k in db.daily { NotCovered(writes, s, m, minute, Usage(db, s, m, minute)); }
  }

  lemma {:induction false} NotCovered(writes: seq<SlotWrite>, s: int, m: nat, minute: int, before: int)
    requires forall w | w in writes :: !w.Covers(s, m, minute)
    ensures LastWrite(writes, s, m, minute, before) == before
    decreases |writes|
  {
    if writes != [] { NotCovered(writes[..|writes| - 1], s, m, minute, before); }
  }

  /** The tables are the ledger, after any run in which no write comes late. */
  lemma {:induction false} RunIsLedger(dbs: seq<Db>, steps: seq<Step>, s: int, m: nat, minute: int)
    requires Run(dbs, steps) && s in dbs[0].services && m < METRICS
    requires forall i | 0 <= i < |steps| :: OnTime(dbs[i], steps[i], s)
    ensures s in dbs[|steps|].services && Disjoint(dbs[|steps|], s)
    ensures Usage(dbs[|steps|], s, m, minute) == Ledger(steps, s, m, minute)
    decreases |steps|
  {
    if steps != [] {
      var n := |steps| - 1;
      assert Run(dbs[..|dbs| - 1], steps[..n]);
      RunIsLedger(dbs[..|dbs| - 1], steps[..n], s, m, minute);
      StepIsLedger(dbs[n], steps[n], dbs[n + 1], s, m, minute);
    }
  }

  lemma StepIsLedger(db: Db, step: Step, db': Db, s: int, m: nat, minute: int)
    requires DbOk(db) && Steps(db, step, db') && OnTime(db, step, s)
    requires s in db.services && m < METRICS && Disjoint(db, s)
    ensures s in db'.services && Disjoint(db', s)
    ensures Usage(db', s, m, minute)
              == if step.Flush? && (forall w | w in step.writes :: w.Valid())
                 then LastWrite(step.writes, s, m, minute, Usage(db, s, m, minute)) else Usage(db, s, m, minute)
  {
    match step
    case Flush(writes) =>
      if forall w | w in writes :: w.Valid() {
        BatchUsage(db, writes, s, m, minute);
        BatchKeeps(db, writes, s, m, minute);
      }
    case Fold(day) =>
      FoldKeepsUsage(db, day, db', s, m, minute);
      FoldSeparates(db, day, db', s);
  }

  // ------------------------------------------------------------ late writes

  /** A write for a day that is already folded, and the fold after it: the day is
      left with that write alone, so a minute is kept if and only if it is
      rewritten or had nothing. */
  lemma LateWriteLoses(db: Db, w: SlotWrite, db': Db, m: nat, minute: int)
    requires DbOk(db) && w.Valid() && w.service in db.services && m < METRICS && minute / MINUTES_PER_DAY == w.day
    requires (w.service, w.day) in db.daily && (w.service, w.day) !in db.live
    requires DbOk(db') && Folded(Written(db, w), w.day, db')
    ensures var (s, covered) := (w.service, w.Covers(w.service, m, minute));
            && Usage(db', s, m, minute) == (if covered then w.At(minute) else 0)
            && ((Usage(db', s, m, minute) == if covered then w.At(minute) else Usage(db, s, m, minute))
                <==> (covered || Usage(db, s, m, minute) == 0))
  {
    var s := w.service;
    WrittenUsage(db, w, s, m, minute);
    FoldKeepsUsage(Written(db, w), w.day, db', s, m, minute);
  }

  /** In a run: a minute metered and folded is gone after a late write to another
      minute of its day, although the ledger still has it. */
  lemma LateRunLoses(dbs: seq<Db>, v: SlotWrite, w: SlotWrite, m: nat, minute: int)
    requires v.Valid() && w.Valid() && (v.service, v.day) == (w.service, w.day) && m < METRICS
    requires Run(dbs, [Flush([v]), Fold(v.day), Flush([w]), Fold(v.day)]) && v.service in dbs[0].services
    requires v.Covers(v.service, m, minute) && !w.Covers(w.service, m, minute)
    ensures Usage(dbs[2], v.service, m, minute) == v.At(minute)
    ensures Usage(dbs[4], v.service, m, minute) == 0
    ensures Ledger([Flush([v]), Fold(v.day), Flush([w]), Fold(v.day)], v.service, m, minute) == v.At(minute)
  {
    var s := v.service;
    FourSteps(dbs, Flush([v]), Fold(v.day), Flush([w]), Fold(v.day));
    LateLedger(v, w, m, minute);
    hide Run, Ledger;
    OneWrite(dbs[0], v);
    OneWrite(dbs[2], w);
    WrittenUsage(dbs[0], v, s, m, minute);
    FoldKeepsUsage(dbs[1], v.day, dbs[2], s, m, minute);
    NothingOverwritten(dbs[1], [v.day], s, m, minute, minute + 1);
    LateWriteLoses(dbs[2], w, dbs[4], m, minute);
  }

  lemma FourSteps(dbs: seq<Db>, a: Step, b: Step, c: Step, d: Step)
    requires Run(dbs, [a, b, c, d])
    ensures |dbs| == 5 && (forall i | 0 <= i < 5 :: DbOk(dbs[i])) && dbs[0].live == map[] && dbs[0].daily == map[]
    ensures Steps(dbs[0], a, dbs[1]) && Steps(dbs[1], b, dbs[2]) && Steps(dbs[2], c, dbs[3]) && Steps(dbs[3], d, dbs[4])
  {
    var steps := [a, b, c, d];
    assert Steps(dbs[0], steps[0], dbs[1]) && Steps(dbs[1], steps[1], dbs[2]);
    assert Steps(dbs[2], steps[2], dbs[3]) && Steps(dbs[3], steps[3], dbs[4]);
  }

  lemma LateLedger(v: SlotWrite, w: SlotWrite, m: nat, minute: int)
    requires v.Valid() && w.Valid() && v.Covers(v.service, m, minute) && !w.Covers(v.service, m, minute)
    ensures Ledger([Flush([v]), Fold(v.day), Flush([w]), Fold(v.day)], v.service, m, minute) == v.At(minute)
  {
    var a, b, c := [Flush([v])], [Flush([v]), Fold(v.day)], [Flush([v]), Fold(v.day), Flush([w])];
    var s := v.service;
    assert a[..0] == [] && b[..1] == a && c[..2] == b && [v][..0] == [] && [w][..0] == [];
    assert (c + [Fold(v.day)])[..3] == c && c + [Fold(v.day)] == [Flush([v]), Fold(v.day), Flush([w]), Fold(v.day)];
    assert Ledger(a, s, m, minute) == v.At(minute);
    assert Ledger(b, s, m, minute) == Ledger(a, s, m, minute);
    assert c[2] == Flush([w]) && forall x | x in [w] :: x.Valid();
    NotCovered([w], s, m, minute, Ledger(b, s, m, minute));
    assert Ledger(c, s, m, minute) == Ledger(b, s, m, minute);
  }

  lemma OneWrite(db: Db, w: SlotWrite)
    requires DbOk(db) && w.Valid()
    ensures AllWritten(db, [w]) == Written(db, w)
  {
    assert [w][..0] == [];
  }
}
