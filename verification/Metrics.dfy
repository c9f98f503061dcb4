/** Usage per minute, its live and its folded representation, and the queries
    that must not tell them apart. Metrics are column indices; times are Unix
    seconds. */
module Metrics {
  import opened MuxTypes

  const MAX_SLOTS := 500
  const SECS_PER_MINUTE := 60
  const SECS_PER_DAY := 86_400
  const MINUTES_PER_HOUR := 60
  const HOURS_PER_DAY := 24
  const MINUTES_PER_DAY := 1440
  const METRICS := 6
  const OPEN_MS := 5

  datatype Granularity = Minute | Hour | Day
  {
    function Secs(): int { match this case Minute => 60 case Hour => 3_600 case Day => 86_400 }
    /** First minute of a slot, and the slot a minute falls in. */
    function Start(slot: int): int { match this case Minute => slot case Hour => 60 * slot case Day => 1440 * slot }
    function SlotOf(minute: int): int { match this case Minute => minute case Hour => minute / 60 case Day => minute / 1440 }
  }

  // ------------------------------------------------------------------- tables

  type Key = (int, int)
  /** Six arrays of 1,440 values. */
  type DaySlots = seq<seq<int>>
  datatype Rollup = Rollup(totals: seq<int>, hours: seq<seq<int>>, minutes: DaySlots)
  /** `services` are the ids that still exist. */
  datatype Db = Db(live: map<Key, DaySlots>, daily: map<Key, Rollup>, services: set<int>)

  function Sum(s: seq<int>): int {
    if s == [] then 0 else Sum(s[..|s| - 1]) + s[|s| - 1]
  }

  predicate DayOk(d: DaySlots) { |d| == METRICS && forall m | 0 <= m < METRICS :: |d[m]| == MINUTES_PER_DAY }

  function HourSum(minutes: seq<int>, h: nat): int
    requires |minutes| == MINUTES_PER_DAY && h < HOURS_PER_DAY
  { Sum(minutes[60 * h..60 * h + 60]) }

  predicate RollupOk(r: Rollup) {
    && DayOk(r.minutes) && |r.totals| == METRICS && |r.hours| == METRICS
    && (forall m | 0 <= m < METRICS :: |r.hours[m]| == HOURS_PER_DAY && r.totals[m] == Sum(r.minutes[m]))
    && (forall m, h | 0 <= m < METRICS && 0 <= h < HOURS_PER_DAY :: r.hours[m][h] == HourSum(r.minutes[m], h))
  }

  ghost predicate DbOk(db: Db) {
    && (forall k | k in db.live :: DayOk(db.live[k]))
    && (forall k | k in db.daily :: RollupOk(db.daily[k]))
  }

  /** No day of the service is in both tables. The code strives for this and does
      not enforce it: a late flush may write to a day that is already folded. */
  ghost predicate Disjoint(db: Db, s: int) { forall day | (s, day) in db.live :: (s, day) !in db.daily }

  // -------------------------------------------------- the per-minute reference

  /** What was metered in one absolute minute, in whichever table, or in part in both. */
  ghost function Usage(db: Db, s: int, m: nat, minute: int): int
    requires DbOk(db) && m < METRICS
  {
    var (k, at) := ((s, minute / MINUTES_PER_DAY), minute % MINUTES_PER_DAY);
    (if k in db.live then db.live[k][m][at] else 0) + (if k in db.daily then db.daily[k].minutes[m][at] else 0)
  }

  /** One table alone. */
  ghost function LiveRows(db: Db): (r: Db)
    ensures DbOk(db) ==> DbOk(r)
  { db.(daily := map[]) }

  ghost function Rollups(db: Db): (r: Db)
    ensures DbOk(db) ==> DbOk(r)
  { db.(live := map[]) }

  /** The rollup rows of some days that a fold overwrites, having a live row beside them. */
  ghost function Overwritten(db: Db, days: seq<int>): (r: Db)
    ensures DbOk(db) ==> DbOk(r)
  { Db(map[], map k | k in db.daily && k in db.live && k.1 in days :: db.daily[k], db.services) }

  /** Usage of the minutes from `a` up to `b`. */
  ghost function Used(db: Db, s: int, m: nat, a: int, b: int): int
    requires DbOk(db) && m < METRICS
    decreases b - a
  {
    if b <= a then 0 else Used(db, s, m, a, b - 1) + Usage(db, s, m, b - 1)
  }

  lemma {:induction false} UsedSplits(db: Db, s: int, m: nat, a: int, b: int, c: int)
    requires DbOk(db) && m < METRICS && a <= b <= c
    ensures Used(db, s, m, a, c) == Used(db, s, m, a, b) + Used(db, s, m, b, c)
    decreases c - b
  {
    if b < c { UsedSplits(db, s, m, a, b, c - 1); }
  }

  lemma {:induction false} UsedParts(db: Db, s: int, m: nat, a: int, b: int)
    requires DbOk(db) && m < METRICS
    ensures Used(db, s, m, a, b) == Used(LiveRows(db), s, m, a, b) + Used(Rollups(db), s, m, a, b)
    decreases b - a
  {
    if a < b { UsedParts(db, s, m, a, b - 1); }
  }

  /** Within a day what was folded is read off its array. */
  lemma {:induction false} UsedInDay(db: Db, s: int, m: nat, day: int, i: nat, j: nat)
    requires DbOk(db) && m < METRICS && i <= j <= MINUTES_PER_DAY && (s, day) in db.daily
    ensures Used(Rollups(db), s, m, 1440 * day + i, 1440 * day + j) == Sum(db.daily[(s, day)].minutes[m][i..j])
    decreases j
  {
    var row := db.daily[(s, day)].minutes[m];
    if i == j {
      assert row[i..j] == [];
    } else {
      UsedInDay(db, s, m, day, i, j - 1);
      assert (1440 * day + (j - 1)) / 1440 == day && (1440 * day + (j - 1)) % 1440 == j - 1;
      var cut := row[i..j];
      assert cut[..|cut| - 1] == row[i..j - 1] && cut[|cut| - 1] == row[j - 1];
    }
  }

  /** A table without the day's row has nothing for its minutes. */
  lemma {:induction false} NoRowNoUsage(db: Db, s: int, m: nat, day: int, a: int, b: int)
    requires DbOk(db) && m < METRICS && (s, day) !in db.live && (s, day) !in db.daily
    requires 1440 * day <= a && b <= 1440 * day + 1440
    ensures Used(db, s, m, a, b) == 0
    decreases b - a
  {
    if a < b { NoRowNoUsage(db, s, m, day, a, b - 1); }
  }

  // --------------------------------------------------------------------- fold

  lemma {:induction false} SumAppend(a: seq<int>, b: seq<int>)
    ensures Sum(a + b) == Sum(a) + Sum(b)
    decreases |b|
  {
    if b == [] {
      assert a + b == a;
    } else {
      assert (a + b)[..|a + b| - 1] == a + b[..|b| - 1];
      SumAppend(a, b[..|b| - 1]);
    }
  }

  lemma HourNext(minutes: seq<int>, h: nat)
    requires |minutes| == MINUTES_PER_DAY && h < HOURS_PER_DAY
    ensures Sum(minutes[..60 * (h + 1)]) == Sum(minutes[..60 * h]) + HourSum(minutes, h)
  {
    assert minutes[..60 * (h + 1)] == minutes[..60 * h] + minutes[60 * h..60 * h + 60];
    SumAppend(minutes[..60 * h], minutes[60 * h..60 * h + 60]);
  }

  /** The rollup row of a whole day. */
  method WriteDay(minutes: DaySlots) returns (r: Rollup)
    requires DayOk(minutes)
    ensures RollupOk(r) && r.minutes == minutes
  {
    var totals: seq<int>, hours: seq<seq<int>> := [], [];
    var m := 0;
    while m < METRICS
      invariant m <= METRICS && |totals| == m && |hours| == m
      invariant forall k | 0 <= k < m :: |hours[k]| == HOURS_PER_DAY && totals[k] == Sum(minutes[k])
      invariant forall k, h | 0 <= k < m && 0 <= h < HOURS_PER_DAY :: hours[k][h] == HourSum(minutes[k], h)
    {
      var total, row := WriteHours(minutes[m]);
      totals, hours := totals + [total], hours + [row];
      m := m + 1;
    }
    r := Rollup(totals, hours, minutes);
  }

  /** One metric: its hours and its total. */
  method WriteHours(minutes: seq<int>) returns (total: int, hours: seq<int>)
    requires |minutes| == MINUTES_PER_DAY
    ensures |hours| == HOURS_PER_DAY && total == Sum(minutes)
    ensures forall h | 0 <= h < HOURS_PER_DAY :: hours[h] == HourSum(minutes, h)
  {
    total, hours := 0, [];
    var h := 0;
    assert minutes[..0] == [];
    while h < HOURS_PER_DAY
      invariant h <= HOURS_PER_DAY && |hours| == h && total == Sum(minutes[..60 * h])
      invariant forall k | 0 <= k < h :: hours[k] == HourSum(minutes, k)
    {
      var sum := 0;
      var i := 0;
      var chunk := minutes[60 * h..60 * h + 60];
      assert chunk[..0] == [];
      while i < MINUTES_PER_HOUR
        invariant i <= MINUTES_PER_HOUR && sum == Sum(chunk[..i])
      {
        assert chunk[..i + 1][..i] == chunk[..i];
        sum := sum + chunk[i];
        i := i + 1;
      }
      assert chunk[..60] == chunk;
      HourNext(minutes, h);
      hours, total := hours + [sum], total + sum;
      h := h + 1;
    }
    assert minutes[..1440] == minutes;
  }

  /** `db'` is `db` with one finished day folded: each existing service's live row
      becomes a rollup row, whatever was there, and the live rows of the day go. */
  ghost predicate Folded(db: Db, day: int, db': Db) {
    && db'.services == db.services
    && db'.live == (map k | k in db.live && k.1 != day :: db.live[k])
    && (forall k | k in db'.daily ::
          if k.1 == day && k in db.live && k.0 in db.services
          then RollupOk(db'.daily[k]) && db'.daily[k].minutes == db.live[k]
          else k in db.daily && db'.daily[k] == db.daily[k])
    && (forall k | k in db.daily || (k.1 == day && k in db.live && k.0 in db.services) :: k in db'.daily)
  }

  method FoldDay(db: Db, day: int) returns (db': Db)
    requires DbOk(db)
    ensures Folded(db, day, db') && DbOk(db')
  {
    var todo := set k | k in db.live && k.1 == day && k.0 in db.services;
    var daily := db.daily;
    while todo != {}
      invariant todo <= db.live.Keys && forall k | k in todo :: k.1 == day && k.0 in db.services
      invariant forall k | k in daily ::
        if k.1 == day && k in db.live && k.0 in db.services && k !in todo
        then RollupOk(daily[k]) && daily[k].minutes == db.live[k]
        else k in db.daily && daily[k] == db.daily[k]
      invariant forall k | k in db.daily || (k.1 == day && k in db.live && k.0 in db.services && k !in todo) :: k in daily
      decreases |todo|
    {
      var k :| k in todo;
      var r := WriteDay(db.live[k]);
      daily := daily[k := r];
      todo := todo - {k};
    }
    db' := db.(live := map k | k in db.live && k.1 != day :: db.live[k], daily := daily);
  }

  /** A fold separates the tables for its day and joins them for no other. */
  lemma FoldSeparates(db: Db, day: int, db': Db, s: int)
    requires Folded(db, day, db')
    ensures (s, day) !in db'.live
    ensures Disjoint(db, s) ==> Disjoint(db', s)
  {}

  /** Folding moves no minute of an existing service, whatever is in the tables,
      but what an overwritten rollup row held is gone. */
  lemma FoldKeepsUsage(db: Db, day: int, db': Db, s: int, m: nat, minute: int)
    requires DbOk(db) && Folded(db, day, db') && DbOk(db') && s in db.services && m < METRICS
    ensures Usage(db', s, m, minute) == Usage(db, s, m, minute) - Usage(Overwritten(db, [day]), s, m, minute)
  {
    var k := (s, minute / MINUTES_PER_DAY);
    if k in db.live { assert k.1 == day ==> k in db'.daily && k !in db'.live; }
  }

  lemma {:induction false} FoldKeepsUsed(db: Db, day: int, db': Db, s: int, m: nat, a: int, b: int)
    requires DbOk(db) && Folded(db, day, db') && DbOk(db') && s in db.services && m < METRICS
    ensures Used(db', s, m, a, b) == Used(db, s, m, a, b) - Used(Overwritten(db, [day]), s, m, a, b)
    decreases b - a
  {
    if a < b {
      FoldKeepsUsage(db, day, db', s, m, b - 1);
      FoldKeepsUsed(db, day, db', s, m, a, b - 1);
    }
  }

  /** With the tables apart nothing is overwritten. */
  lemma {:induction false} NothingOverwritten(db: Db, days: seq<int>, s: int, m: nat, a: int, b: int)
    requires DbOk(db) && m < METRICS && Disjoint(db, s)
    ensures Used(Overwritten(db, days), s, m, a, b) == 0
    decreases b - a
  {
    if a < b { NothingOverwritten(db, days, s, m, a, b - 1); }
  }

  // -------------------------------------------------------------------- query

  /** The finest width whose slot count stays within `MAX_SLOTS`. */
  function Choose(from: int, to: int): Granularity {
    var span := Max(to - from, 1);
    if (span + 59) / 60 <= MAX_SLOTS then Minute
    else if (span + 3_599) / 3_600 <= MAX_SLOTS then Hour
    else Day
  }

  /** The width chosen is the finest that fits, or days when nothing does. */
  lemma ChoiceIsFinest(from: int, to: int)
    ensures var (g, span) := (Choose(from, to), Max(to - from, 1));
            && (g != Day ==> span <= MAX_SLOTS * g.Secs())
            && (g == Hour ==> span > MAX_SLOTS * 60)
            && (g == Day ==> span > MAX_SLOTS * 3_600)
  {}

  function SlotRange(from: int, to: int, g: Granularity): (int, nat) {
    if to <= from then (from / g.Secs(), 0) else (from / g.Secs(), (to - 1) / g.Secs() - from / g.Secs() + 1)
  }

  /** First minute of the window, and the one after its last. */
  function Lo(from: int): int { from / SECS_PER_MINUTE }
  function Hi(to: int): int { (to - 1) / SECS_PER_MINUTE + 1 }

  function DayOf(g: Granularity, slot: int): int { g.Start(slot) / MINUTES_PER_DAY }

  /** What a rollup row holds for a slot of its day. */
  function RowAt(r: Rollup, m: nat, g: Granularity, slot: int): int
    requires RollupOk(r) && m < METRICS
  {
    match g
    case Minute => r.minutes[m][slot % MINUTES_PER_DAY]
    case Hour => r.hours[m][slot % HOURS_PER_DAY]
    case Day => r.totals[m]
  }

  ghost function FoldedAt(db: Db, s: int, m: nat, g: Granularity, slot: int): int
    requires DbOk(db) && m < METRICS
  {
    var k := (s, DayOf(g, slot));
    if k in db.daily then RowAt(db.daily[k], m, g, slot) else 0
  }

  ghost function LiveAt(db: Db, s: int, m: nat, g: Granularity, slot: int, lo: int, hi: int): int
    requires DbOk(db) && m < METRICS
  {
    if (s, DayOf(g, slot)) in db.live then Used(LiveRows(db), s, m, Max(g.Start(slot), lo), Min(g.Start(slot + 1), hi)) else 0
  }

  /** Adds to the slot's place, ignoring slots outside the window. */
  method AddSlot(buffer: array<int>, slot: int, first: int, value: int)
    modifies buffer
    ensures forall i | 0 <= i < buffer.Length ::
      buffer[i] == if first + i == slot then old(buffer[i]) + value else old(buffer[i])
  {
    var offset := slot - first;
    if 0 <= offset < buffer.Length { buffer[offset] := buffer[offset] + value; }
  }

  method AddRow(r: Rollup, day: int, m: nat, g: Granularity, first: int, buffer: array<int>)
    requires RollupOk(r) && m < METRICS
    modifies buffer
    ensures forall i | 0 <= i < buffer.Length ::
      buffer[i] == old(buffer[i]) + if DayOf(g, first + i) == day then RowAt(r, m, g, first + i) else 0
  {
    match g
    case Day => AddSlot(buffer, day, first, r.totals[m]);
    case Hour => AddHours(r, day, m, first, buffer);
    case Minute => AddMinutes(r, day, m, first, buffer);
  }

  method AddHours(r: Rollup, day: int, m: nat, first: int, buffer: array<int>)
    requires RollupOk(r) && m < METRICS
    modifies buffer
    ensures forall i | 0 <= i < buffer.Length ::
      buffer[i] == old(buffer[i]) + if DayOf(Hour, first + i) == day then RowAt(r, m, Hour, first + i) else 0
  {
    var hours, h := r.hours[m], 0;
    while h < HOURS_PER_DAY
      invariant h <= HOURS_PER_DAY
      invariant forall i | 0 <= i < buffer.Length ::
        buffer[i] == old(buffer[i]) + if 24 * day <= first + i < 24 * day + h then hours[first + i - 24 * day] else 0
    {
      AddSlot(buffer, day * HOURS_PER_DAY + h, first, hours[h]);
      h := h + 1;
    }
  }

  method AddMinutes(r: Rollup, day: int, m: nat, first: int, buffer: array<int>)
    requires RollupOk(r) && m < METRICS
    modifies buffer
    ensures forall i | 0 <= i < buffer.Length ::
      buffer[i] == old(buffer[i]) + if DayOf(Minute, first + i) == day then RowAt(r, m, Minute, first + i) else 0
  {
    var minutes, k := r.minutes[m], 0;
    while k < MINUTES_PER_DAY
      invariant k <= MINUTES_PER_DAY
      invariant forall i | 0 <= i < buffer.Length ::
        buffer[i] == old(buffer[i]) + if 1440 * day <= first + i < 1440 * day + k then minutes[first + i - 1440 * day] else 0
    {
      AddSlot(buffer, day * MINUTES_PER_DAY + k, first, minutes[k]);
      k := k + 1;
    }
  }

  /** The rollup rows of the window's days; `folded` are the days that had one. */
  method FillFolded(db: Db, s: int, m: nat, g: Granularity, from: int, to: int, first: int, buffer: array<int>)
    returns (folded: set<int>)
    requires DbOk(db) && m < METRICS
    modifies buffer
    ensures folded == set k | k in db.daily && k.0 == s && from / SECS_PER_DAY <= k.1 <= (to - 1) / SECS_PER_DAY :: k.1
    ensures forall i | 0 <= i < buffer.Length ::
      buffer[i] == old(buffer[i]) + if DayOf(g, first + i) in folded then FoldedAt(db, s, m, g, first + i) else 0
  {
    var rows := set k | k in db.daily && k.0 == s && from / SECS_PER_DAY <= k.1 <= (to - 1) / SECS_PER_DAY :: k.1;
    folded := {};
    while folded != rows
      invariant folded <= rows
      invariant forall i | 0 <= i < buffer.Length ::
        buffer[i] == old(buffer[i]) + if DayOf(g, first + i) in folded then FoldedAt(db, s, m, g, first + i) else 0
      decreases |rows - folded|
    {
      var day :| day in rows - folded;
      AddRow(db.daily[(s, day)], day, m, g, first, buffer);
      ghost var left := rows - folded;
      folded := folded + {day};
      assert rows - folded == left - {day};
    }
  }

  /** One live day, clipped to the window's minutes. */
  method AddLive(db: Db, s: int, m: nat, day: int, g: Granularity, lo: int, hi: int, first: int, buffer: array<int>)
    requires DbOk(db) && m < METRICS && (s, day) in db.live
    modifies buffer
    ensures forall i | 0 <= i < buffer.Length ::
      buffer[i] == old(buffer[i]) + if DayOf(g, first + i) == day then LiveAt(db, s, m, g, first + i, lo, hi) else 0
  {
    var values, index := db.live[(s, day)][m], 0;
    PartlyEdges(db, s, m, g, lo, hi, day);
    hide Partly, Used, LiveAt, DbOk;
    while index < MINUTES_PER_DAY
      invariant index <= MINUTES_PER_DAY
      invariant forall i | 0 <= i < buffer.Length ::
        buffer[i] == old(buffer[i]) + Partly(db, s, m, g, first + i, lo, hi, day, 1440 * day + index)
    {
      AddMinute(db, s, m, day, g, lo, hi, first, buffer, index, values[index], old(buffer[..]));
      index := index + 1;
    }
  }

  /** One minute of a live day: skipped outside the window, else added to its slot. */
  method AddMinute(db: Db, s: int, m: nat, day: int, g: Granularity, lo: int, hi: int, first: int, buffer: array<int>,
                   index: nat, value: int, ghost was: seq<int>)
    requires DbOk(db) && m < METRICS && (s, day) in db.live && index < MINUTES_PER_DAY && value == db.live[(s, day)][m][index]
    requires |was| == buffer.Length && forall i | 0 <= i < buffer.Length ::
      buffer[i] == was[i] + Partly(db, s, m, g, first + i, lo, hi, day, 1440 * day + index)
    modifies buffer
    ensures forall i | 0 <= i < buffer.Length ::
      buffer[i] == was[i] + Partly(db, s, m, g, first + i, lo, hi, day, 1440 * day + (index + 1))
  {
    var minute := day * MINUTES_PER_DAY + index;
    LiveMinute(db, s, m, day, index);
    PartlySteps(db, s, m, g, lo, hi, day, minute);
    hide *;
    if lo <= minute < hi { AddSlot(buffer, g.SlotOf(minute), first, value); }
  }

  lemma PartlySteps(db: Db, s: int, m: nat, g: Granularity, lo: int, hi: int, day: int, minute: int)
    requires DbOk(db) && m < METRICS && minute / 1440 == day
    ensures forall slot ::
      Partly(db, s, m, g, slot, lo, hi, day, minute + 1) == Partly(db, s, m, g, slot, lo, hi, day, minute)
        + if lo <= minute < hi && g.SlotOf(minute) == slot then Usage(LiveRows(db), s, m, minute) else 0
  {
    hide Partly;
    forall slot
      ensures Partly(db, s, m, g, slot, lo, hi, day, minute + 1) == Partly(db, s, m, g, slot, lo, hi, day, minute)
        + if lo <= minute < hi && g.SlotOf(minute) == slot then Usage(LiveRows(db), s, m, minute) else 0
    {
      PartlyNext(db, s, m, g, slot, lo, hi, day, minute);
    }
  }

  lemma LiveMinute(db: Db, s: int, m: nat, day: int, index: nat)
    requires DbOk(db) && m < METRICS && (s, day) in db.live && index < MINUTES_PER_DAY
    ensures var minute := day * MINUTES_PER_DAY + index;
            minute / 1440 == day && minute == 1440 * day + index
            && Usage(LiveRows(db), s, m, minute) == db.live[(s, day)][m][index]
  {
    var minute := day * MINUTES_PER_DAY + index;
    assert minute / 1440 == day && minute % 1440 == index;
  }

  lemma PartlyEdges(db: Db, s: int, m: nat, g: Granularity, lo: int, hi: int, day: int)
    requires DbOk(db) && m < METRICS && (s, day) in db.live
    ensures forall slot :: Partly(db, s, m, g, slot, lo, hi, day, 1440 * day) == 0
    ensures forall slot ::
      Partly(db, s, m, g, slot, lo, hi, day, 1440 * day + 1440)
        == if DayOf(g, slot) == day then LiveAt(db, s, m, g, slot, lo, hi) else 0
  {
    forall slot
      ensures Partly(db, s, m, g, slot, lo, hi, day, 1440 * day) == 0
      ensures Partly(db, s, m, g, slot, lo, hi, day, 1440 * day + 1440)
        == if DayOf(g, slot) == day then LiveAt(db, s, m, g, slot, lo, hi) else 0
    {
      if DayOf(g, slot) == day {
        assert 1440 * day <= g.Start(slot) && g.Start(slot + 1) <= 1440 * day + 1440;
      }
    }
  }

  /** What a live day has added to a slot before `upto`. */
  ghost function Partly(db: Db, s: int, m: nat, g: Granularity, slot: int, lo: int, hi: int, day: int, upto: int): int
    requires DbOk(db) && m < METRICS
  {
    if DayOf(g, slot) == day
    then Used(LiveRows(db), s, m, Max(g.Start(slot), lo), Min(Min(g.Start(slot + 1), hi), upto)) else 0
  }

  lemma PartlyNext(db: Db, s: int, m: nat, g: Granularity, slot: int, lo: int, hi: int, day: int, minute: int)
    requires DbOk(db) && m < METRICS && minute / 1440 == day
    ensures Partly(db, s, m, g, slot, lo, hi, day, minute + 1) == Partly(db, s, m, g, slot, lo, hi, day, minute)
      + if lo <= minute < hi && g.SlotOf(minute) == slot then Usage(LiveRows(db), s, m, minute) else 0
  {
    hide Usage;
    assert g.SlotOf(minute) == slot <==> g.Start(slot) <= minute < g.Start(slot + 1);
    if g.SlotOf(minute) == slot { assert DayOf(g, slot) == day; }
  }

  /** The days that still have live rows, except those a rollup row covered. */
  method FillLive(db: Db, s: int, m: nat, g: Granularity, from: int, to: int, first: int, folded: set<int>, buffer: array<int>)
    requires DbOk(db) && m < METRICS
    modifies buffer
    ensures var days := set k | k in db.live && k.0 == s && Lo(from) / 1440 <= k.1 <= (Hi(to) - 1) / 1440 && k.1 !in folded :: k.1;
      forall i | 0 <= i < buffer.Length ::
        buffer[i] == old(buffer[i]) + if DayOf(g, first + i) in days then LiveAt(db, s, m, g, first + i, Lo(from), Hi(to)) else 0
  {
    var days := set k | k in db.live && k.0 == s && Lo(from) / 1440 <= k.1 <= (Hi(to) - 1) / 1440 && k.1 !in folded :: k.1;
    var done := {};
    while done != days
      invariant done <= days
      invariant forall i | 0 <= i < buffer.Length ::
        buffer[i] == old(buffer[i]) + if DayOf(g, first + i) in done then LiveAt(db, s, m, g, first + i, Lo(from), Hi(to)) else 0
      decreases |days - done|
    {
      var day :| day in days - done;
      AddLive(db, s, m, day, g, Lo(from), Hi(to), first, buffer);
      ghost var left := days - done;
      done := done + {day};
      assert days - done == left - {day};
    }
  }

  /** What the series says for one slot: a day with a rollup row is read from it alone. */
  ghost function SlotValue(db: Db, s: int, m: nat, g: Granularity, slot: int, from: int, to: int): int
    requires DbOk(db) && m < METRICS
  {
    if (s, DayOf(g, slot)) in db.daily then FoldedAt(db, s, m, g, slot)
    else LiveAt(db, s, m, g, slot, Lo(from), Hi(to))
  }

  /** One series: its width, first slot and values. */
  method Query(db: Db, s: int, m: nat, from: int, to: int) returns (g: Granularity, first: int, values: seq<int>)
    requires DbOk(db) && m < METRICS
    ensures g == Choose(from, to) && (first, |values|) == SlotRange(from, to, g)
    ensures forall i | 0 <= i < |values| :: values[i] == SlotValue(db, s, m, g, first + i, from, to)
  {
    g := Choose(from, to);
    var (f, n) := SlotRange(from, to, g);
    first := f;
    var buffer := new int[n](_ => 0);
    if n > 0 {
      var folded := FillFolded(db, s, m, g, from, to, first, buffer);
      FillLive(db, s, m, g, from, to, first, folded, buffer);
      hide DbOk, Used, FoldedAt, LiveAt, DayOf, Granularity.Start, RollupOk;
      forall i | 0 <= i < n
        ensures buffer[i] == SlotValue(db, s, m, g, first + i, from, to)
      {
        DaysCovered(g, from, to, first + i);
      }
    }
    values := buffer[..];
  }

  /** The slots of a window lie within the days that are read. */
  lemma DaysCovered(g: Granularity, from: int, to: int, slot: int)
    requires from < to && from / g.Secs() <= slot <= (to - 1) / g.Secs()
    ensures from / SECS_PER_DAY <= DayOf(g, slot) <= (to - 1) / SECS_PER_DAY
    ensures Lo(from) / 1440 <= DayOf(g, slot) <= (Hi(to) - 1) / 1440
  {}

  // -------------------------------------------------- folding cannot be noticed

  /** The window's minutes are whole slots. Minute slots always are. */
  predicate Aligned(g: Granularity, from: int, to: int) {
    g.Start(g.SlotOf(Lo(from))) == Lo(from) && g.Start(g.SlotOf(Hi(to))) == Hi(to)
  }

  lemma MinutesAlign(from: int, to: int)
    ensures Aligned(Minute, from, to)
  {}

  /** A slot lies within its day. */
  lemma SlotInDay(g: Granularity, slot: int)
    ensures 1440 * DayOf(g, slot) <= g.Start(slot) < g.Start(slot + 1) <= 1440 * DayOf(g, slot) + 1440
    ensures g == Hour ==> slot == 24 * DayOf(g, slot) + slot % 24
    ensures g == Minute ==> slot == 1440 * DayOf(g, slot) + slot % 1440
    ensures g == Day ==> slot == DayOf(g, slot)
  {
    match g
    case Minute =>
    case Hour => HoursInDay(slot);
    case Day => assert 1440 * slot / 1440 == slot;
  }

  lemma HoursInDay(slot: int)
    ensures 60 * slot / 1440 == slot / 24
  {
    var q, r := slot / 24, slot % 24;
    assert 60 * slot == 1440 * q + 60 * r && 0 <= 60 * r < 1440;
  }

  lemma Nested(x: int)
    ensures (x / 60) / 60 == x / 3_600 && (x / 60) / 1440 == x / 86_400
  {
    var a, b := x / 60, x % 60;
    var c, d := a / 60, a % 60;
    assert x == 3_600 * c + (60 * d + b) && 0 <= 60 * d + b < 3_600;
    var e, f := a / 1440, a % 1440;
    assert x == 86_400 * e + (60 * f + b) && 0 <= 60 * f + b < 86_400;
  }

  lemma TotalIsUsage(db: Db, s: int, m: nat, day: int)
    requires DbOk(db) && m < METRICS && (s, day) in db.daily
    ensures db.daily[(s, day)].totals[m] == Used(Rollups(db), s, m, 1440 * day, 1440 * day + 1440)
  {
    var r := db.daily[(s, day)];
    UsedInDay(db, s, m, day, 0, 1440);
    assert r.minutes[m][0..1440] == r.minutes[m];
  }

  lemma HourIsUsage(db: Db, s: int, m: nat, day: int, h: nat)
    requires DbOk(db) && m < METRICS && (s, day) in db.daily && h < HOURS_PER_DAY
    ensures db.daily[(s, day)].hours[m][h] == Used(Rollups(db), s, m, 1440 * day + 60 * h, 1440 * day + 60 * h + 60)
  {
    var r := db.daily[(s, day)];
    UsedInDay(db, s, m, day, 60 * h, 60 * h + 60);
    assert r.hours[m][h] == HourSum(r.minutes[m], h);
  }

  lemma MinuteIsUsage(db: Db, s: int, m: nat, day: int, k: nat)
    requires DbOk(db) && m < METRICS && (s, day) in db.daily && k < MINUTES_PER_DAY
    ensures db.daily[(s, day)].minutes[m][k] == Used(Rollups(db), s, m, 1440 * day + k, 1440 * day + k + 1)
  {
    var r := db.daily[(s, day)];
    UsedInDay(db, s, m, day, k, k + 1);
    var one := r.minutes[m][k..k + 1];
    assert Sum(one) == one[0] by { assert one[..0] == []; }
  }

  /** A rollup value is the usage of the minutes it stands for. */
  lemma FoldedIsUsage(db: Db, s: int, m: nat, g: Granularity, slot: int)
    requires DbOk(db) && m < METRICS && (s, DayOf(g, slot)) in db.daily
    ensures FoldedAt(db, s, m, g, slot) == Used(Rollups(db), s, m, g.Start(slot), g.Start(slot + 1))
  {
    var day := DayOf(g, slot);
    assert RollupOk(db.daily[(s, day)]);
    SlotInDay(g, slot);
    hide DbOk, RollupOk, Used, DayOf;
    match g
    case Day => TotalIsUsage(db, s, m, day);
    case Hour => HourIsUsage(db, s, m, day, slot % 24);
    case Minute => MinuteIsUsage(db, s, m, day, slot % 1440);
  }

  lemma SlotInWindow(g: Granularity, slot: int, from: int, to: int)
    requires from < to && Aligned(g, from, to) && from / g.Secs() <= slot <= (to - 1) / g.Secs()
    ensures Lo(from) <= g.Start(slot) && g.Start(slot + 1) <= Hi(to)
  {
    Nested(from);
    Nested(to - 1);
    match g
    case Minute =>
    case Hour => WholeSlots(60, Lo(from), Hi(to), slot);
    case Day => WholeSlots(1440, Lo(from), Hi(to), slot);
  }

  lemma WholeSlots(w: int, lo: int, hi: int, slot: int)
    requires w == 60 || w == 1440
    requires w * (lo / w) == lo && w * (hi / w) == hi && lo / w <= slot <= (hi - 1) / w
    ensures lo <= w * slot && w * (slot + 1) <= hi
  {
    if w == 60 { assert (hi - 1) / 60 == hi / 60 - 1; } else { assert (hi - 1) / 1440 == hi / 1440 - 1; }
  }

  /** On an aligned window every slot of the series is the usage of its minutes in
      the table that is read: all their usage, if and only if no live row with
      something in the slot stands beside a rollup row. */
  lemma SeriesIsUsage(db: Db, s: int, m: nat, g: Granularity, slot: int, from: int, to: int)
    requires DbOk(db) && m < METRICS && from < to && Aligned(g, from, to)
    requires from / g.Secs() <= slot <= (to - 1) / g.Secs()
    ensures var (a, b, value) := (g.Start(slot), g.Start(slot + 1), SlotValue(db, s, m, g, slot, from, to));
            if (s, DayOf(g, slot)) in db.daily
            then value == Used(Rollups(db), s, m, a, b) == Used(db, s, m, a, b) - Used(LiveRows(db), s, m, a, b)
            else value == Used(LiveRows(db), s, m, a, b) == Used(db, s, m, a, b)
    ensures Disjoint(db, s) ==>
              SlotValue(db, s, m, g, slot, from, to) == Used(db, s, m, g.Start(slot), g.Start(slot + 1))
  {
    var day, a, b := DayOf(g, slot), g.Start(slot), g.Start(slot + 1);
    SlotInWindow(g, slot, from, to);
    SlotInDay(g, slot);
    UsedParts(db, s, m, a, b);
    hide Aligned, DayOf, Used, DbOk, RowAt, Granularity.Start;
    if (s, day) in db.daily {
      FoldedIsUsage(db, s, m, g, slot);
    } else {
      NoRowNoUsage(Rollups(db), s, m, day, a, b);
    }
    if (s, day) !in db.live { NoRowNoUsage(LiveRows(db), s, m, day, a, b); }
  }

  function Zeros(n: nat): (r: seq<int>)
    ensures |r| == n && forall i | 0 <= i < n :: r[i] == 0
  { seq(n, _ => 0) }

  /** One unit in the given minute, still live. */
  function Lone(s: int, m: nat, minute: int): (db: Db)
    requires m < METRICS
    ensures DbOk(db)
  {
    var values := Zeros(MINUTES_PER_DAY)[minute % MINUTES_PER_DAY := 1];
    Db(map[(s, minute / MINUTES_PER_DAY) := seq(METRICS, i => if i == m then values else Zeros(MINUTES_PER_DAY))], map[], {s})
  }

  /** And only then: on a window cut inside a slot there is data whose series
      changes when its day is folded, as the folded read takes the whole slot. */
  lemma FoldVisible(g: Granularity, s: int, m: nat, from: int, to: int, db': Db, minute: int)
    requires m < METRICS && from < to && !Aligned(g, from, to)
    requires minute == if g.Start(g.SlotOf(Lo(from))) != Lo(from) then Lo(from) - 1 else Hi(to)
    requires Folded(Lone(s, m, minute), minute / MINUTES_PER_DAY, db') && DbOk(db')
    ensures var (db, slot) := (Lone(s, m, minute), g.SlotOf(minute));
            && from / g.Secs() <= slot <= (to - 1) / g.Secs()
            && SlotValue(db, s, m, g, slot, from, to) == 0
            && SlotValue(db', s, m, g, slot, from, to) == 1
  {
    var db, slot, day := Lone(s, m, minute), g.SlotOf(minute), minute / MINUTES_PER_DAY;
    CutSlot(g, from, to, minute);
    LoneUsed(s, m, minute, Max(g.Start(slot), Lo(from)), Min(g.Start(slot + 1), Hi(to)));
    LoneUsed(s, m, minute, g.Start(slot), g.Start(slot + 1));
    assert Rollups(db') == db' && LiveRows(db) == db by { FoldLone(s, m, minute, db'); }
    assert (s, day) in db.live && (s, day) !in db.daily && (s, day) in db'.daily;
    hide Lone, DayOf, Used, DbOk, RowAt, Granularity.Start, Lo, Hi;
    FoldedIsUsage(db', s, m, g, slot);
    FoldKeepsUsed(db, day, db', s, m, g.Start(slot), g.Start(slot + 1));
    NothingOverwritten(db, [day], s, m, g.Start(slot), g.Start(slot + 1));
  }

  /** The unit is alone in the live table, and then alone in the rollup. */
  lemma FoldLone(s: int, m: nat, minute: int, db': Db)
    requires m < METRICS && Folded(Lone(s, m, minute), minute / MINUTES_PER_DAY, db')
    ensures var db := Lone(s, m, minute); LiveRows(db) == db && Rollups(db') == db' && Disjoint(db, s)
    ensures db'.daily.Keys == {(s, minute / MINUTES_PER_DAY)}
  {}

  lemma CutSlot(g: Granularity, from: int, to: int, minute: int)
    requires from < to && !Aligned(g, from, to)
    requires minute == if g.Start(g.SlotOf(Lo(from))) != Lo(from) then Lo(from) - 1 else Hi(to)
    ensures var slot := g.SlotOf(minute);
            && from / g.Secs() <= slot <= (to - 1) / g.Secs()
            && g.Start(slot) <= minute < g.Start(slot + 1) && DayOf(g, slot) == minute / MINUTES_PER_DAY
            && !(Lo(from) <= minute < Hi(to))
  {
    Nested(from);
    Nested(to - 1);
    SlotInDay(g, g.SlotOf(minute));
    match g
    case Minute =>
    case Hour => CutWidth(60, Lo(from), Hi(to), minute);
    case Day => CutWidth(1440, Lo(from), Hi(to), minute);
  }

  lemma CutWidth(w: int, lo: int, hi: int, minute: int)
    requires (w == 60 || w == 1440) && lo < hi && !(w * (lo / w) == lo && w * (hi / w) == hi)
    requires minute == if w * (lo / w) != lo then lo - 1 else hi
    ensures lo / w <= minute / w <= (hi - 1) / w
  {
    if w == 60 {
      if lo % 60 != 0 { assert (lo - 1) / 60 == lo / 60; } else { assert (hi - 1) / 60 == hi / 60; }
    } else {
      if lo % 1440 != 0 { assert (lo - 1) / 1440 == lo / 1440; } else { assert (hi - 1) / 1440 == hi / 1440; }
    }
  }

  lemma {:induction false} LoneUsed(s: int, m: nat, minute: int, a: int, b: int)
    requires m < METRICS
    ensures Used(Lone(s, m, minute), s, m, a, b) == if a <= minute < b then 1 else 0
    decreases b - a
  {
    if a < b {
      LoneUsed(s, m, minute, a, b - 1);
      LoneUsage(s, m, minute, b - 1);
    }
  }

  lemma LoneUsage(s: int, m: nat, minute: int, at: int)
    requires m < METRICS
    ensures Usage(Lone(s, m, minute), s, m, at) == if at == minute then 1 else 0
  {}

  /** Any number of folds, one day after the other. */
  ghost predicate FoldChain(dbs: seq<Db>, days: seq<int>)
    decreases |days|
  {
    && |dbs| == |days| + 1 && DbOk(dbs[0])
    && (days != [] ==> Folded(dbs[0], days[0], dbs[1]) && FoldChain(dbs[1..], days[1..]))
  }

  lemma {:induction false} ChainOk(dbs: seq<Db>, days: seq<int>)
    requires FoldChain(dbs, days)
    ensures DbOk(dbs[|days|])
    decreases |days|
  {
    if days != [] { ChainOk(dbs[1..], days[1..]); }
  }

  /** What becomes of one service-day: its live row takes the rollup row's place,
      or both stay as they are. */
  lemma {:induction false} ChainRow(dbs: seq<Db>, days: seq<int>, k: Key)
    requires FoldChain(dbs, days) && k.0 in dbs[0].services
    ensures DbOk(dbs[|days|])
    ensures var (db, db') := (dbs[0], dbs[|days|]);
            if k.1 in days && k in db.live
            then k !in db'.live && k in db'.daily && db'.daily[k].minutes == db.live[k]
            else && (k in db'.live <==> k in db.live) && (k in db'.daily <==> k in db.daily)
                 && (k in db.live ==> db'.live[k] == db.live[k]) && (k in db.daily ==> db'.daily[k] == db.daily[k])
    decreases |days|
  {
    if days != [] { ChainRow(dbs[1..], days[1..], k); }
  }

  /** Folds move every minute of an existing service and lose exactly what they overwrite. */
  lemma ChainUsage(dbs: seq<Db>, days: seq<int>, s: int, m: nat, minute: int)
    requires FoldChain(dbs, days) && s in dbs[0].services && m < METRICS
    ensures DbOk(dbs[|days|])
    ensures Usage(dbs[|days|], s, m, minute)
              == Usage(dbs[0], s, m, minute) - Usage(Overwritten(dbs[0], days), s, m, minute)
  {
    ChainRow(dbs, days, (s, minute / MINUTES_PER_DAY));
  }

  lemma {:induction false} ChainKeepsUsed(dbs: seq<Db>, days: seq<int>, s: int, m: nat, a: int, b: int)
    requires FoldChain(dbs, days) && s in dbs[0].services && m < METRICS
    ensures DbOk(dbs[|days|])
    ensures Used(dbs[|days|], s, m, a, b)
              == Used(dbs[0], s, m, a, b) - Used(Overwritten(dbs[0], days), s, m, a, b)
    decreases b - a
  {
    ChainOk(dbs, days);
    if a < b {
      ChainUsage(dbs, days, s, m, b - 1);
      hide FoldChain;
      ChainKeepsUsed(dbs, days, s, m, a, b - 1);
    }
  }

  lemma {:induction false} SameUsed(x: Db, y: Db, s: int, m: nat, a: int, b: int)
    requires DbOk(x) && DbOk(y) && m < METRICS
    requires forall t | a <= t < b :: Usage(x, s, m, t) == Usage(y, s, m, t)
    ensures Used(x, s, m, a, b) == Used(y, s, m, a, b)
    decreases b - a
  {
    if a < b { SameUsed(x, y, s, m, a, b - 1); }
  }

  /** Any folds, in any state: on an aligned window a slot of an existing service
      stays the same, if and only if no fold overwrites a rollup row that held
      something else for the slot than the live row does. */
  lemma FoldsInvisible(dbs: seq<Db>, days: seq<int>, s: int, m: nat, slot: int, from: int, to: int)
    requires FoldChain(dbs, days) && s in dbs[0].services && m < METRICS && from < to
    requires var g := Choose(from, to); Aligned(g, from, to) && from / g.Secs() <= slot <= (to - 1) / g.Secs()
    ensures DbOk(dbs[|days|])
    ensures var (g, db, k) := (Choose(from, to), dbs[0], (s, DayOf(Choose(from, to), slot)));
            (SlotValue(dbs[|days|], s, m, g, slot, from, to) == SlotValue(db, s, m, g, slot, from, to))
            <==> (k in db.live && k in db.daily && k.1 in days ==>
                   Used(LiveRows(db), s, m, g.Start(slot), g.Start(slot + 1))
                     == Used(Rollups(db), s, m, g.Start(slot), g.Start(slot + 1)))
  {
    var g, db, db' := Choose(from, to), dbs[0], dbs[|days|];
    var a, b, k := g.Start(slot), g.Start(slot + 1), (s, DayOf(g, slot));
    ChainRow(dbs, days, k);
    SeriesIsUsage(db, s, m, g, slot, from, to);
    SeriesIsUsage(db', s, m, g, slot, from, to);
    SlotInDay(g, slot);
    assert forall t | a <= t < b :: t / 1440 == k.1;
    hide FoldChain, Choose, Aligned, Used, SlotValue, DayOf, Granularity.Start;
    if k.1 in days && k in db.live {
      SameUsed(Rollups(db'), LiveRows(db), s, m, a, b);
    } else {
      SameUsed(Rollups(db'), Rollups(db), s, m, a, b);
      SameUsed(LiveRows(db'), LiveRows(db), s, m, a, b);
    }
  }

  // ------------------------------------------------------------------- totals

  /** What one day adds to a total: its rollup column, or its live minutes in the window. */
  ghost function DayTotal(db: Db, s: int, m: nat, day: int, lo: int, hi: int): int
    requires DbOk(db) && m < METRICS
  {
    (if (s, day) in db.daily then db.daily[(s, day)].totals[m] else 0)
    + (if (s, day) in db.live then Used(LiveRows(db), s, m, Max(1440 * day, lo), Min(1440 * day + 1440, hi)) else 0)
  }

  ghost function DaysTotal(db: Db, s: int, m: nat, first: int, next: int, lo: int, hi: int): int
    requires DbOk(db) && m < METRICS
    decreases next - first
  {
    if next <= first then 0 else DaysTotal(db, s, m, first, next - 1, lo, hi) + DayTotal(db, s, m, next - 1, lo, hi)
  }

  ghost function Total(db: Db, s: int, m: nat, from: int, to: int): int
    requires DbOk(db) && m < METRICS
  {
    if to <= from then 0
    else DaysTotal(db, s, m, from / SECS_PER_DAY, (to - 1) / SECS_PER_DAY + 1, Lo(from), Hi(to))
  }

  method Totals(db: Db, s: int, m: nat, from: int, to: int) returns (total: int)
    requires DbOk(db) && m < METRICS
    ensures total == Total(db, s, m, from, to)
  {
    total := 0;
    if to <= from { return; }
    var day, last := from / SECS_PER_DAY, (to - 1) / SECS_PER_DAY;
    ghost var first := day;
    while day <= last
      invariant first <= day <= last + 1 && total == DaysTotal(db, s, m, first, day, Lo(from), Hi(to))
      decreases last + 1 - day
    {
      if (s, day) in db.daily { total := total + db.daily[(s, day)].totals[m]; }
      if (s, day) in db.live {
        var sum := LiveTotal(db, s, m, day, Lo(from), Hi(to));
        total := total + sum;
      }
      day := day + 1;
    }
  }

  method LiveTotal(db: Db, s: int, m: nat, day: int, lo: int, hi: int) returns (total: int)
    requires DbOk(db) && m < METRICS && (s, day) in db.live
    ensures total == Used(LiveRows(db), s, m, Max(1440 * day, lo), Min(1440 * day + 1440, hi))
  {
    var values, index := db.live[(s, day)][m], 0;
    total := 0;
    while index < MINUTES_PER_DAY
      invariant index <= MINUTES_PER_DAY
      invariant total == Used(LiveRows(db), s, m, Max(1440 * day, lo), Min(1440 * day + index, hi))
    {
      LiveMinute(db, s, m, day, index);
      var minute := day * MINUTES_PER_DAY + index;
      if lo <= minute < hi { total := total + values[index]; }
      index := index + 1;
    }
  }

  predicate DayAligned(from: int, to: int) { Lo(from) % 1440 == 0 && Hi(to) % 1440 == 0 }

  lemma {:induction false} WholeDays(db: Db, s: int, m: nat, first: int, next: int, lo: int, hi: int)
    requires DbOk(db) && m < METRICS && lo <= 1440 * first && 1440 * next <= hi && first <= next
    ensures DaysTotal(db, s, m, first, next, lo, hi) == Used(db, s, m, 1440 * first, 1440 * next)
    decreases next - first
  {
    if first < next {
      var day := next - 1;
      WholeDays(db, s, m, first, day, lo, hi);
      UsedSplits(db, s, m, 1440 * first, 1440 * day, 1440 * next);
      UsedParts(db, s, m, 1440 * day, 1440 * next);
      if (s, day) in db.daily {
        TotalIsUsage(db, s, m, day);
      } else {
        NoRowNoUsage(Rollups(db), s, m, day, 1440 * day, 1440 * next);
      }
      if (s, day) !in db.live { NoRowNoUsage(LiveRows(db), s, m, day, 1440 * day, 1440 * next); }
    }
  }

  /** On whole days `totals` is the usage of the window's minutes, in any state. */
  lemma TotalsIsUsage(db: Db, s: int, m: nat, from: int, to: int)
    requires DbOk(db) && m < METRICS && from < to && DayAligned(from, to)
    ensures Total(db, s, m, from, to) == Used(db, s, m, Lo(from), Hi(to))
  {
    WindowDays(from, to);
    WholeDays(db, s, m, from / SECS_PER_DAY, (to - 1) / SECS_PER_DAY + 1, Lo(from), Hi(to));
  }

  lemma WindowDays(from: int, to: int)
    requires from < to && DayAligned(from, to)
    ensures 1440 * (from / SECS_PER_DAY) == Lo(from) && 1440 * ((to - 1) / SECS_PER_DAY + 1) == Hi(to)
    ensures from / SECS_PER_DAY <= (to - 1) / SECS_PER_DAY
  {
    Nested(from);
    Nested(to - 1);
  }

  /** So folds take from it exactly what they overwrite: nothing when the tables are apart. */
  lemma TotalsInvisible(dbs: seq<Db>, days: seq<int>, s: int, m: nat, from: int, to: int)
    requires FoldChain(dbs, days) && s in dbs[0].services && m < METRICS && from < to && DayAligned(from, to)
    ensures DbOk(dbs[|days|])
    ensures Total(dbs[|days|], s, m, from, to)
              == Total(dbs[0], s, m, from, to) - Used(Overwritten(dbs[0], days), s, m, Lo(from), Hi(to))
    ensures Disjoint(dbs[0], s) ==> Total(dbs[|days|], s, m, from, to) == Total(dbs[0], s, m, from, to)
  {
    ChainKeepsUsed(dbs, days, s, m, Lo(from), Hi(to));
    TotalsIsUsage(dbs[0], s, m, from, to);
    TotalsIsUsage(dbs[|days|], s, m, from, to);
    if Disjoint(dbs[0], s) { NothingOverwritten(dbs[0], days, s, m, Lo(from), Hi(to)); }
  }

  /** And only then: whatever the window, if it is not whole days there is data
      whose total changes when its day is folded, as a rollup row is never clipped. */
  lemma TotalsVisible(s: int, m: nat, from: int, to: int, db': Db, minute: int)
    requires m < METRICS && from < to && !DayAligned(from, to)
    requires minute == if Lo(from) % 1440 != 0 then Lo(from) - 1 else Hi(to)
    requires Folded(Lone(s, m, minute), minute / MINUTES_PER_DAY, db') && DbOk(db')
    ensures Disjoint(Lone(s, m, minute), s) && !(Lo(from) <= minute < Hi(to))
    ensures Total(Lone(s, m, minute), s, m, from, to) == 0 && Total(db', s, m, from, to) == 1
  {
    Nested(from);
    Nested(to - 1);
    assert from / SECS_PER_DAY <= minute / MINUTES_PER_DAY <= (to - 1) / SECS_PER_DAY by {
      CutWidth(1440, Lo(from), Hi(to), minute);
    }
    FoldLone(s, m, minute, db');
    LoneDays(s, m, minute, from / SECS_PER_DAY, (to - 1) / SECS_PER_DAY + 1, Lo(from), Hi(to));
    LoneRollup(s, m, minute, db');
    LoneFoldedDays(db', s, m, minute / 1440, from / SECS_PER_DAY, (to - 1) / SECS_PER_DAY + 1, Lo(from), Hi(to));
  }

  lemma {:induction false} LoneDays(s: int, m: nat, minute: int, first: int, next: int, lo: int, hi: int)
    requires m < METRICS && !(lo <= minute < hi)
    ensures DaysTotal(Lone(s, m, minute), s, m, first, next, lo, hi) == 0
    decreases next - first
  {
    if first < next {
      LoneDays(s, m, minute, first, next - 1, lo, hi);
      assert LiveRows(Lone(s, m, minute)) == Lone(s, m, minute);
      LoneUsed(s, m, minute, Max(1440 * (next - 1), lo), Min(1440 * (next - 1) + 1440, hi));
    }
  }

  lemma LoneRollup(s: int, m: nat, minute: int, db': Db)
    requires m < METRICS && Folded(Lone(s, m, minute), minute / MINUTES_PER_DAY, db') && DbOk(db')
    ensures var k := (s, minute / MINUTES_PER_DAY); k in db'.daily && db'.daily[k].totals[m] == 1
  {
    var db, day := Lone(s, m, minute), minute / 1440;
    FoldLone(s, m, minute, db');
    FoldKeepsUsed(db, day, db', s, m, 1440 * day, 1440 * day + 1440);
    NothingOverwritten(db, [day], s, m, 1440 * day, 1440 * day + 1440);
    LoneUsed(s, m, minute, 1440 * day, 1440 * day + 1440);
    assert (s, day) in db'.daily;
    TotalIsUsage(db', s, m, day);
  }

  lemma {:induction false} LoneFoldedDays(db: Db, s: int, m: nat, day: int, first: int, next: int, lo: int, hi: int)
    requires DbOk(db) && m < METRICS && db.live == map[] && db.daily.Keys == {(s, day)} && db.daily[(s, day)].totals[m] == 1
    ensures DaysTotal(db, s, m, first, next, lo, hi) == if first <= day < next then 1 else 0
    decreases next - first
  {
    if first < next { LoneFoldedDays(db, s, m, day, first, next - 1, lo, hi); }
  }

  lemma {:induction false} SeriesAddsUp(db: Db, s: int, m: nat, g: Granularity, first: int, values: seq<int>)
    requires DbOk(db) && m < METRICS
    requires forall i | 0 <= i < |values| :: values[i] == Used(db, s, m, g.Start(first + i), g.Start(first + i + 1))
    ensures Sum(values) == Used(db, s, m, g.Start(first), g.Start(first + |values|))
    decreases |values|
  {
    if values != [] {
      var n := |values| - 1;
      SeriesAddsUp(db, s, m, g, first, values[..n]);
      UsedSplits(db, s, m, g.Start(first), g.Start(first + n), g.Start(first + n + 1));
    }
  }

  /** On whole days the sum that comes with a series is what `totals` says. */
  lemma SeriesMeetsTotals(db: Db, s: int, m: nat, from: int, to: int, first: int, values: seq<int>)
    requires DbOk(db) && m < METRICS && Disjoint(db, s) && from < to && DayAligned(from, to)
    requires (first, |values|) == SlotRange(from, to, Choose(from, to))
    requires forall i | 0 <= i < |values| :: values[i] == SlotValue(db, s, m, Choose(from, to), first + i, from, to)
    ensures Sum(values) == Total(db, s, m, from, to)
  {
    var g := Choose(from, to);
    DaysAlign(g, from, to);
    forall i | 0 <= i < |values| ensures values[i] == Used(db, s, m, g.Start(first + i), g.Start(first + i + 1)) {
      SeriesIsUsage(db, s, m, g, first + i, from, to);
    }
    SeriesAddsUp(db, s, m, g, first, values);
    TotalsIsUsage(db, s, m, from, to);
  }

  lemma DaysAlign(g: Granularity, from: int, to: int)
    requires from < to && DayAligned(from, to)
    ensures Aligned(g, from, to)
    ensures g.Start(from / g.Secs()) == Lo(from) && g.Start((to - 1) / g.Secs() + 1) == Hi(to)
  {
    Nested(from);
    Nested(to - 1);
    WholeWidth(Lo(from));
    WholeWidth(Hi(to));
  }

  /** A whole number of days is a whole number of hours. */
  lemma WholeWidth(x: int)
    requires x % 1440 == 0
    ensures 60 * (x / 60) == x && 1440 * (x / 1440) == x
    ensures 60 * ((x - 1) / 60 + 1) == x && 1440 * ((x - 1) / 1440 + 1) == x
  {
    assert x == 60 * (24 * (x / 1440));
  }

  // ---------------------------------------------------------------- last seen

  predicate NonNegative(values: seq<int>) { forall i | 0 <= i < |values| :: values[i] >= 0 }

  /** Open time is never negative. */
  ghost predicate OpenOk(db: Db, s: int)
    requires DbOk(db)
  {
    && (forall day | (s, day) in db.live :: NonNegative(db.live[(s, day)][OPEN_MS]))
    && (forall day | (s, day) in db.daily :: NonNegative(db.daily[(s, day)].minutes[OPEN_MS]))
  }

  method LastPositive(values: seq<int>) returns (at: Option<nat>)
    ensures at.Some? ==> at.value < |values| && values[at.value] > 0
    ensures forall i | (if at.Some? then at.value + 1 else 0) <= i < |values| :: values[i] <= 0
  {
    var i := |values|;
    while i > 0
      invariant 0 <= i <= |values| && forall k | i <= k < |values| :: values[k] <= 0
    {
      i := i - 1;
      if values[i] > 0 { return Some(i); }
    }
    return None;
  }

  lemma {:induction false} PositiveSum(values: seq<int>)
    requires NonNegative(values)
    ensures Sum(values) >= 0
    ensures Sum(values) > 0 <==> exists i | 0 <= i < |values| :: values[i] > 0
  {
    if values != [] {
      var init := values[..|values| - 1];
      PositiveSum(init);
      if Sum(init) > 0 {
        var i :| 0 <= i < |init| && init[i] > 0;
        assert values[i] > 0;
      }
      assert forall i | 0 <= i < |init| :: values[i] == init[i];
    }
  }

  /** `last` is the latest minute with open time. */
  ghost predicate Latest(db: Db, s: int, last: Option<int>)
    requires DbOk(db)
  {
    && (last.Some? ==> Usage(db, s, OPEN_MS, last.value) > 0)
    && forall minute | Usage(db, s, OPEN_MS, minute) > 0 :: last.Some? && minute <= last.value
  }

  /** `last` is the latest minute with open time among the rollup rows and some live days. */
  ghost predicate LatestIn(db: Db, s: int, last: Option<int>, days: set<int>)
    requires DbOk(db)
  {
    && (last.Some? ==> Usage(db, s, OPEN_MS, last.value) > 0)
    && (forall minute | Usage(Rollups(db), s, OPEN_MS, minute) > 0 :: last.Some? && minute <= last.value)
    && forall minute | Usage(LiveRows(db), s, OPEN_MS, minute) > 0 && minute / MINUTES_PER_DAY in days ::
         last.Some? && minute <= last.value
  }

  /** Neither table takes from the other. */
  lemma OpenParts(db: Db, s: int, minute: int)
    requires DbOk(db) && OpenOk(db, s)
    ensures Usage(db, s, OPEN_MS, minute) >= Usage(LiveRows(db), s, OPEN_MS, minute) >= 0
    ensures Usage(db, s, OPEN_MS, minute) >= Usage(Rollups(db), s, OPEN_MS, minute) >= 0
  {
    assert minute % 1440 < 1440;
  }

  lemma OpenOf(db: Db, s: int, day: int)
    requires DbOk(db) && OpenOk(db, s) && (s, day) in db.daily
    ensures NonNegative(db.daily[(s, day)].minutes[OPEN_MS])
  {}

  /** The latest folded day with open time, by its total column. */
  method LatestFolded(db: Db, s: int) returns (latest: Option<int>)
    requires DbOk(db)
    ensures latest.Some? ==> (s, latest.value) in db.daily && db.daily[(s, latest.value)].totals[OPEN_MS] > 0
    ensures forall day | (s, day) in db.daily && db.daily[(s, day)].totals[OPEN_MS] > 0 :: latest.Some? && day <= latest.value
  {
    var todo := set k | k in db.daily && k.0 == s;
    latest := None;
    while todo != {}
      invariant forall k | k in todo :: k in db.daily && k.0 == s
      invariant latest.Some? ==> (s, latest.value) in db.daily && db.daily[(s, latest.value)].totals[OPEN_MS] > 0
      invariant forall day | (s, day) in db.daily && (s, day) !in todo && db.daily[(s, day)].totals[OPEN_MS] > 0 ::
        latest.Some? && day <= latest.value
      decreases |todo|
    {
      var k :| k in todo;
      if db.daily[k].totals[OPEN_MS] > 0 && (latest.None? || latest.value < k.1) { latest := Some(k.1); }
      todo := todo - {k};
    }
  }

  lemma FoldedLatest(db: Db, s: int, latest: Option<int>, at: Option<nat>, last: Option<int>)
    requires DbOk(db) && OpenOk(db, s)
    requires latest.Some? ==> (s, latest.value) in db.daily && db.daily[(s, latest.value)].totals[OPEN_MS] > 0
    requires forall day | (s, day) in db.daily && db.daily[(s, day)].totals[OPEN_MS] > 0 :: latest.Some? && day <= latest.value
    requires latest.Some? ==> var values := db.daily[(s, latest.value)].minutes[OPEN_MS];
             && (at.Some? ==> at.value < |values| && values[at.value] > 0)
             && forall i | (if at.Some? then at.value + 1 else 0) <= i < |values| :: values[i] <= 0
    requires last == if latest.Some? && at.Some? then Some(1440 * latest.value + at.value) else None
    ensures LatestIn(db, s, last, {})
  {
    if latest.Some? {
      OpenOf(db, s, latest.value);
      PositiveSum(db.daily[(s, latest.value)].minutes[OPEN_MS]);
      var minute := 1440 * latest.value + at.value;
      assert minute / 1440 == latest.value && minute % 1440 == at.value;
      OpenParts(db, s, minute);
    }
    forall minute | Usage(Rollups(db), s, OPEN_MS, minute) > 0 ensures last.Some? && minute <= last.value {
      var day := minute / 1440;
      OpenOf(db, s, day);
      PositiveSum(db.daily[(s, day)].minutes[OPEN_MS]);
    }
  }

  /** A live day is looked through; the later minute wins. */
  lemma LiveLatest(db: Db, s: int, days: set<int>, day: int, last: Option<int>, at: Option<nat>, last': Option<int>)
    requires DbOk(db) && OpenOk(db, s) && (s, day) in db.live && LatestIn(db, s, last, days)
    requires var values := db.live[(s, day)][OPEN_MS];
             && (at.Some? ==> at.value < |values| && values[at.value] > 0)
             && forall i | (if at.Some? then at.value + 1 else 0) <= i < |values| :: values[i] <= 0
    requires last' == if at.None? then last
                      else if last.Some? && last.value >= 1440 * day + at.value then last
                      else Some(1440 * day + at.value)
    ensures LatestIn(db, s, last', days + {day})
  {
    if at.Some? {
      LiveMinute(db, s, OPEN_MS, day, at.value);
      OpenParts(db, s, 1440 * day + at.value);
    }
    forall minute | Usage(LiveRows(db), s, OPEN_MS, minute) > 0 && minute / MINUTES_PER_DAY == day
      ensures at.Some? && minute <= 1440 * day + at.value
    {
      LiveMinute(db, s, OPEN_MS, day, minute % 1440);
    }
  }

  /** The minute the service was last up, wherever its days are kept. */
  method LastOpen(db: Db, s: int) returns (last: Option<int>)
    requires DbOk(db)
    ensures OpenOk(db, s) ==> Latest(db, s, last)
  {
    var latest := LatestFolded(db, s);
    var at: Option<nat> := None;
    last := None;
    if latest.Some? {
      at := LastPositive(db.daily[(s, latest.value)].minutes[OPEN_MS]);
      if at.Some? { last := Some(latest.value * MINUTES_PER_DAY + at.value); }
    }
    if OpenOk(db, s) { FoldedLatest(db, s, latest, at, last); }
    ghost var done: set<int> := {};
    var todo := set k | k in db.live && k.0 == s;
    while todo != {}
      invariant forall k | k in todo :: k in db.live && k.0 == s
      invariant forall day | (s, day) in db.live :: (s, day) in todo || day in done
      invariant OpenOk(db, s) ==> LatestIn(db, s, last, done)
      decreases |todo|
    {
      var k :| k in todo;
      var seen := LastPositive(db.live[k][OPEN_MS]);
      ghost var was := last;
      if seen.Some? {
        var minute := k.1 * MINUTES_PER_DAY + seen.value;
        last := Some(if last.Some? && last.value > minute then last.value else minute);
      }
      if OpenOk(db, s) { LiveLatest(db, s, done, k.1, was, seen, last); }
      todo, done := todo - {k}, done + {k.1};
    }
    if OpenOk(db, s) { AllDays(db, s, last, done); }
  }

  lemma AllDays(db: Db, s: int, last: Option<int>, days: set<int>)
    requires DbOk(db) && LatestIn(db, s, last, days)
    requires forall day | (s, day) in db.live :: day in days
    ensures Latest(db, s, last)
  {
    forall minute | Usage(db, s, OPEN_MS, minute) > 0 ensures last.Some? && minute <= last.value {
      assert Usage(LiveRows(db), s, OPEN_MS, minute) > 0 || Usage(Rollups(db), s, OPEN_MS, minute) > 0;
    }
  }

  /** Folds keep open times non-negative, and the answer is the same before and
      after, if and only if that minute's open time is not overwritten whole. */
  lemma LastOpenInvisible(dbs: seq<Db>, days: seq<int>, s: int, last: Option<int>, last': Option<int>)
    requires FoldChain(dbs, days) && s in dbs[0].services && OpenOk(dbs[0], s)
    requires Latest(dbs[0], s, last)
    ensures DbOk(dbs[|days|]) && OpenOk(dbs[|days|], s)
    ensures Latest(dbs[|days|], s, last') ==>
              (last' == last <==>
                 last.None?
                 || Usage(Overwritten(dbs[0], days), s, OPEN_MS, last.value) < Usage(dbs[0], s, OPEN_MS, last.value))
    ensures Latest(dbs[|days|], s, last') && Disjoint(dbs[0], s) ==> last' == last
  {
    ChainOpen(dbs, days, s);
    if last.Some? {
      ChainUsage(dbs, days, s, OPEN_MS, last.value);
      if Disjoint(dbs[0], s) { assert Usage(Overwritten(dbs[0], days), s, OPEN_MS, last.value) == 0; }
    }
    if last'.Some? {
      ChainUsage(dbs, days, s, OPEN_MS, last'.value);
      OverwrittenOpen(dbs[0], days, s, last'.value);
    }
  }

  lemma ChainOpen(dbs: seq<Db>, days: seq<int>, s: int)
    requires FoldChain(dbs, days) && s in dbs[0].services && OpenOk(dbs[0], s)
    ensures DbOk(dbs[|days|]) && OpenOk(dbs[|days|], s)
  {
    ChainOk(dbs, days);
    var db' := dbs[|days|];
    forall day ensures (s, day) in db'.live ==> NonNegative(db'.live[(s, day)][OPEN_MS])
               ensures (s, day) in db'.daily ==> NonNegative(db'.daily[(s, day)].minutes[OPEN_MS])
    {
      ChainRow(dbs, days, (s, day));
    }
  }

  lemma OverwrittenOpen(db: Db, days: seq<int>, s: int, minute: int)
    requires DbOk(db) && OpenOk(db, s)
    ensures Usage(Overwritten(db, days), s, OPEN_MS, minute) >= 0
  {
    if (s, minute / 1440) in db.daily { OpenOf(db, s, minute / 1440); }
  }
}
