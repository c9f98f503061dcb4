/** Periodic tasks that pick their own next instant, on a millisecond clock and
    second deadlines. */
module TaskScheduler {
  import opened MuxTypes
  import opened Int64

  const DAY := 86_400

  /** What a task answers when asked for its next tick: its index, the tick it
      just ran (none at boot) and the clock. */
  type Ask = (nat, Option<i64>, i64) -> i64

  /** The whole second of a millisecond reading, rounded down. */
  function Second(ms: i64): i64 { ms / 1000 }

  // ------------------------------------------------------------ specification

  predicate IsEarliest(m: i64, s: seq<i64>) { m in s && forall i | 0 <= i < |s| :: m <= s[i] }

  /** The due tasks from index `from` on, in order, each with its own tick. */
  function DueFrom(entries: seq<i64>, now: i64, from: nat): seq<(nat, i64)>
    decreases |entries| - from
  {
    if from >= |entries| then []
    else (if entries[from] <= now then [(from, entries[from])] else []) + DueFrom(entries, now, from + 1)
  }

  /** Deadlines after a pass at `now` whose runs ended at `after`. */
  function Asked(entries: seq<i64>, now: i64, after: i64, ask: Ask): (r: seq<i64>)
    ensures |r| == |entries|
    ensures forall i | 0 <= i < |entries| :: r[i] == if entries[i] <= now then ask(i, Some(entries[i]), after) else entries[i]
  {
    seq(|entries|, i requires 0 <= i < |entries| => if entries[i] <= now then ask(i, Some(entries[i]), after) else entries[i])
  }

  /** How long until a deadline: seconds to milliseconds and the difference, both
      saturating, never negative. */
  function WaitFor(deadline: i64, nowMs: i64): (w: i64)
    ensures w >= 0
  { Max(Sat(Sat(deadline * 1000) - nowMs), 0) }

  // ------------------------------------------------------------- the scheduler

  class Scheduler {
    /** When each task is next due, in Unix seconds. */
    var entries: seq<i64>

    constructor (n: nat, nowMs: i64, ask: Ask)
      ensures |entries| == n && forall i | 0 <= i < n :: entries[i] == ask(i, None, Second(nowMs))
    {
      var now, i := nowMs / 1000, 0;
      var asked: seq<i64> := [];
      while i < n
        invariant i <= n && |asked| == i && forall k | 0 <= k < i :: asked[k] == ask(k, None, Second(nowMs))
      {
        asked := asked + [ask(i, None, now)];
        i := i + 1;
      }
      entries := asked;
    }

    method NextDeadline() returns (d: Option<i64>)
      ensures entries == [] ==> d == None
      ensures entries != [] ==> d.Some? && IsEarliest(d.value, entries)
    {
      if entries == [] { return None; }
      var m, i := entries[0], 1;
      while i < |entries|
        invariant 1 <= i <= |entries| && m in entries && forall k | 0 <= k < i :: m <= entries[k]
      {
        if entries[i] < m { m := entries[i]; }
        i := i + 1;
      }
      return Some(m);
    }

    method NextWait(nowMs: i64) returns (wait: Option<i64>)
      ensures entries == [] ==> wait == None
      ensures entries != [] ==> wait.Some? && exists m :: IsEarliest(m, entries) && wait.value == WaitFor(m, nowMs)
    {
      var d := NextDeadline();
      if d.None? { return None; }
      return Some(WaitFor(d.value, nowMs));
    }

    /** Runs every due task once at its own tick, then asks each for its next.
        `nowMs` and `afterMs` are the clock before and after the runs. */
    method RunDue(nowMs: i64, afterMs: i64, ask: Ask) returns (runs: seq<(nat, i64)>)
      modifies this
      ensures runs == DueFrom(old(entries), Second(nowMs), 0)
      ensures entries == Asked(old(entries), Second(nowMs), Second(afterMs), ask)
    {
      var now := nowMs / 1000;
      runs := [];
      var i := 0;
      while i < |entries|
        invariant i <= |entries| && entries == old(entries)
        invariant runs + DueFrom(entries, now, i) == DueFrom(entries, now, 0)
      {
        ghost var rest := DueFrom(entries, now, i + 1);
        if entries[i] <= now {
          assert runs + ([(i, entries[i])] + rest) == (runs + [(i, entries[i])]) + rest;
          runs := runs + [(i, entries[i])];
        } else {
          assert [] + rest == rest;
        }
        i := i + 1;
      }
      assert runs + [] == runs;
      DueAre(entries, now, 0);
      if runs == [] {
        NoneDue(entries, now, 0);
        assert entries == Asked(entries, now, afterMs / 1000, ask);
        return;
      }
      AskNext(runs, now, afterMs / 1000, ask);
    }

    /** Asks every task that ran, in order, for its next tick. */
    method AskNext(runs: seq<(nat, i64)>, now: i64, after: i64, ask: Ask)
      requires runs == DueFrom(entries, now, 0)
      modifies this
      ensures entries == Asked(old(entries), now, after, ask)
    {
      DueAre(entries, now, 0);
      hide DueFrom;
      var k := 0;
      while k < |runs|
        invariant k <= |runs| && |entries| == |old(entries)|
        invariant forall j | 0 <= j < |entries| ::
          entries[j] == if (exists r | 0 <= r < k :: runs[r].0 == j) then ask(j, Some(old(entries)[j]), after) else old(entries)[j]
      {
        var (index, tick) := runs[k];
        assert runs[k] in runs && tick == old(entries)[index];
        forall r | 0 <= r < k ensures runs[r].0 != index { DueOrdered(old(entries), now, 0, r, k); }
        entries := entries[index := ask(index, Some(tick), after)];
        k := k + 1;
      }
      forall j | 0 <= j < |entries|
        ensures entries[j] == Asked(old(entries), now, after, ask)[j]
      {
        if old(entries)[j] <= now {
          ghost var r := DueHas(old(entries), now, 0, j);
        } else {
          assert forall r | 0 <= r < |runs| :: runs[r] in runs;
        }
      }
    }
  }

  lemma {:induction false} NoneDue(entries: seq<i64>, now: i64, from: nat)
    ensures DueFrom(entries, now, from) == [] <==> forall i | from <= i < |entries| :: entries[i] > now
    decreases |entries| - from
  {
    if from < |entries| { NoneDue(entries, now, from + 1); }
  }

  lemma {:induction false} DueAre(entries: seq<i64>, now: i64, from: nat)
    ensures forall r | r in DueFrom(entries, now, from) ::
      from <= r.0 < |entries| && r.1 == entries[r.0] <= now
    decreases |entries| - from
  {
    if from < |entries| { DueAre(entries, now, from + 1); }
  }

  lemma {:induction false} DueHas(entries: seq<i64>, now: i64, from: nat, i: nat) returns (k: nat)
    requires from <= i < |entries| && entries[i] <= now
    ensures k < |DueFrom(entries, now, from)| && DueFrom(entries, now, from)[k] == (i, entries[i])
    decreases |entries| - from
  {
    if from == i {
      k := 0;
    } else {
      k := DueHas(entries, now, from + 1, i);
      if entries[from] <= now { k := k + 1; }
    }
  }

  lemma {:induction false} DueOrdered(entries: seq<i64>, now: i64, from: nat, r: nat, k: nat)
    requires r < k < |DueFrom(entries, now, from)|
    ensures DueFrom(entries, now, from)[r].0 < DueFrom(entries, now, from)[k].0
    decreases |entries| - from
  {
    var rest := DueFrom(entries, now, from + 1);
    DueAre(entries, now, from + 1);
    if entries[from] <= now {
      if r == 0 {
        assert DueFrom(entries, now, from)[k] == rest[k - 1] && rest[k - 1] in rest;
      } else {
        DueOrdered(entries, now, from + 1, r - 1, k - 1);
      }
    } else {
      assert DueFrom(entries, now, from) == rest;
      DueOrdered(entries, now, from + 1, r, k);
    }
  }

  // ---------------------------------------------------------------- the loop

  /** The wait is zero exactly when a pass at the same reading runs something, so
      the loop neither spins early nor oversleeps. The one exception is the last
      millisecond of the clock with a deadline beyond it. */
  lemma WaitZeroIffDue(entries: seq<i64>, m: i64, nowMs: i64)
    requires IsEarliest(m, entries)
    ensures (WaitFor(m, nowMs) == 0 <==> DueFrom(entries, Second(nowMs), 0) != [])
            <==> !(nowMs == I64_MAX && m * 1000 > I64_MAX)
  {
    NoneDue(entries, Second(nowMs), 0);
    var i :| 0 <= i < |entries| && entries[i] == m;
  }

  /** What a pass runs it runs at the tick that was asked for, which the clock has reached. */
  lemma RunsAreOnTick(entries: seq<i64>, now: i64, k: nat)
    requires k < |DueFrom(entries, now, 0)|
    ensures var (i, tick) := DueFrom(entries, now, 0)[k]; i < |entries| && tick == entries[i] <= now
  {
    DueAre(entries, now, 0);
    assert DueFrom(entries, now, 0)[k] in DueFrom(entries, now, 0);
  }

  // --------------------------------------------------------- boot, then midnight

  function NextMidnight(now: int): int { (now / DAY + 1) * DAY }

  /** The first multiple of a day strictly after `now`; it always fits. */
  lemma NextMidnightIsNext(now: int)
    ensures NextMidnight(now) % DAY == 0 && now < NextMidnight(now) <= now + DAY
    ensures forall t: int | now < t && t % DAY == 0 :: NextMidnight(now) <= t
    ensures I64_MIN <= 1000 * now <= I64_MAX ==> I64_MIN <= NextMidnight(now) <= I64_MAX
  {}

  function AtBootThenMidnight(last: Option<i64>, now: i64): i64 {
    if last.None? then now else Sat(NextMidnight(now))
  }

  /** One pass of the loop: the clock before and after its runs. */
  datatype Pass = Pass(nowMs: i64, afterMs: i64)

  predicate Forward(passes: seq<Pass>, from: int) {
    passes != [] ==>
      from <= passes[0].nowMs <= passes[0].afterMs && Forward(passes[1..], passes[0].afterMs)
  }

  /** The ticks at which task `i` runs. */
  function TicksOf(entries: seq<i64>, i: nat, passes: seq<Pass>, ask: Ask): seq<i64>
    requires i < |entries|
    decreases |passes|
  {
    if passes == [] then [] else
    var (now, after) := (Second(passes[0].nowMs), Second(passes[0].afterMs));
    (if entries[i] <= now then [entries[i]] else []) + TicksOf(Asked(entries, now, after, ask), i, passes[1..], ask)
  }

  predicate Midnights(ticks: seq<i64>, above: int) {
    forall k | 0 <= k < |ticks| :: ticks[k] % DAY == 0 && above < ticks[k] && (k > 0 ==> ticks[k - 1] < ticks[k])
  }

  lemma MidnightsCons(t: i64, rest: seq<i64>, above: int)
    requires t % DAY == 0 && above < t && Midnights(rest, t)
    ensures Midnights([t] + rest, above)
  {
    var all := [t] + rest;
    forall k | 0 <= k < |all|
      ensures all[k] % DAY == 0 && above < all[k] && (k > 0 ==> all[k - 1] < all[k])
    {
      if k > 0 { assert all[k] == rest[k - 1]; }
      if k > 1 { assert all[k - 1] == rest[k - 2]; }
    }
  }

  lemma {:induction false} MidnightsFollow(entries: seq<i64>, i: nat, passes: seq<Pass>, ask: Ask, from: i64, above: int)
    requires i < |entries| && Forward(passes, from)
    requires forall last, now :: ask(i, last, now) == AtBootThenMidnight(last, now)
    requires entries[i] % DAY == 0 && above < entries[i]
    ensures Midnights(TicksOf(entries, i, passes, ask), above)
    decreases |passes|
  {
    if passes != [] {
      var (now, after) := (Second(passes[0].nowMs), Second(passes[0].afterMs));
      var next := Asked(entries, now, after, ask);
      if entries[i] <= now {
        NextMidnightIsNext(after);
        assert next[i] == NextMidnight(after);
        MidnightsFollow(next, i, passes[1..], ask, passes[0].afterMs, entries[i]);
        MidnightsCons(entries[i], TicksOf(next, i, passes[1..], ask), above);
      } else {
        MidnightsFollow(next, i, passes[1..], ask, passes[0].afterMs, above);
        assert [] + TicksOf(next, i, passes[1..], ask) == TicksOf(next, i, passes[1..], ask);
      }
    }
  }

  /** A boot-then-midnight task runs once at boot and then at strictly increasing
      UTC midnights, however late the passes come, while the clock does not run
      backwards. */
  lemma {:induction false} BootThenMidnights(entries: seq<i64>, i: nat, passes: seq<Pass>, ask: Ask, bootMs: i64)
    requires i < |entries| && Forward(passes, bootMs) && entries[i] == ask(i, None, Second(bootMs))
    requires forall last, now :: ask(i, last, now) == AtBootThenMidnight(last, now)
    ensures var ticks := TicksOf(entries, i, passes, ask);
            if passes == [] then ticks == []
            else ticks != [] && ticks[0] == Second(bootMs) && Midnights(ticks[1..], Second(bootMs))
  {
    if passes != [] {
      var (now, after) := (Second(passes[0].nowMs), Second(passes[0].afterMs));
      var next := Asked(entries, now, after, ask);
      NextMidnightIsNext(after);
      assert next[i] == NextMidnight(after);
      MidnightsFollow(next, i, passes[1..], ask, passes[0].afterMs, Second(bootMs));
      var ticks := TicksOf(entries, i, passes, ask);
      assert ticks[1..] == TicksOf(next, i, passes[1..], ask);
    }
  }
}
