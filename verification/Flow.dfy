/** Per-stream, per-direction credit windows. */
module Flow {
  import opened MuxTypes

  datatype SendWin = SendWin(credit: u32) {
    function Grant(extra: u32): SendWin { SendWin(SaturatingAdd(credit, extra)) }

    function Consume(n: u32): SendWin { SendWin(SaturatingSub(credit, n)) }
  }

  datatype RecvWin = RecvWin(window: u32, remaining: u32, consumed: u32) {
    function OnData(n: u32): Option<RecvWin> {
      if n > remaining then None else Some(this.(remaining := remaining - n))
    }

    /** The window after the application consumed `n` wire bytes, and the credit to announce. */
    function OnConsumed(n: u32): (RecvWin, Option<u32>) {
      var total := SaturatingAdd(consumed, n);
      if total >= window / 2
      then (this.(consumed := 0, remaining := SaturatingAdd(remaining, total)), Some(total))
      else (this.(consumed := total), None)
    }
  }

  /** A receive window that accounts for `held` unconsumed wire bytes keeps
      accounting for them: nothing is created, lost or saturated, and an
      unannounced remainder stays below half the window. */
  lemma ConsumeConserves(w: RecvWin, held: nat, n: u32)
    requires w.window <= MAX_WINDOW && w.window >= 2
    requires w.remaining + w.consumed + held == w.window && n <= held && w.consumed < w.window / 2
    ensures var (w', g) := w.OnConsumed(n);
            && w'.remaining + w'.consumed + (held - n) == w'.window == w.window
            && w'.consumed < w.window / 2
            && w'.remaining == w.remaining + (if g.Some? then g.value else 0)
            && (g.Some? ==> g.value >= w.window / 2 && w'.consumed == 0)
  {}

  class SendWindow {
    var credit: u32

    ghost function Value(): SendWin reads this { SendWin(credit) }

    constructor (initial: u32)
      ensures Value() == SendWin(initial)
    { credit := initial; }

    /** WINDOW_UPDATE; saturates instead of overflowing. */
    method Grant(extra: u32)
      modifies this
      ensures Value() == old(Value()).Grant(extra)
    {
      credit := if credit + extra > U32_MAX then U32_MAX else credit + extra;
    }

    /** A DATA frame left. */
    method Consume(n: u32)
      modifies this
      ensures Value() == old(Value()).Consume(n)
      ensures n <= old(credit) ==> old(credit) == credit + n
    {
      credit := if n > credit then 0 else credit - n;
    }
  }

  class RecvWindow {
    const window: u32
    var remaining: u32
    var consumed: u32

    ghost function Value(): RecvWin reads this { RecvWin(window, remaining, consumed) }

    constructor (initial: u32)
      ensures Value() == RecvWin(initial, initial, 0)
    {
      window := initial;
      remaining := initial;
      consumed := 0;
    }

    /** `false` when the peer exceeded its credit. */
    method OnData(n: u32) returns (ok: bool)
      modifies this`remaining
      ensures ok == (n <= old(remaining))
      ensures ok ==> Some(Value()) == old(Value()).OnData(n)
      ensures !ok ==> Value() == old(Value())
    {
      if n > remaining { return false; }
      remaining := remaining - n;
      return true;
    }

    method OnConsumed(n: u32) returns (grant: Option<u32>)
      modifies this`remaining, this`consumed
      ensures (Value(), grant) == old(Value()).OnConsumed(n)
    {
      consumed := SaturatingAdd(consumed, n);
      if consumed >= window / 2 {
        var credit := consumed;
        consumed := 0;
        remaining := SaturatingAdd(remaining, credit);
        return Some(credit);
      }
      return None;
    }
  }
}
