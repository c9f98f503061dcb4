/** Deadline bookkeeping. Instants are integers the caller passes in. */
module Timing {
  import opened MuxTypes

  datatype Expired = Handshake | Idle | Ping_ | Reverify

  datatype TimerState = TimerState(
    lastNow: int, lastRecv: int, handshake: Option<int>, authenticated: bool,
    pingOutstanding: Option<nat>, reverifyDue: Option<int>,
    pingInterval: nat, idleTimeout: nat, reverifyInterval: Option<nat>)
  {
    function Observe(now: int): TimerState { this.(lastNow := Max(now, lastNow)) }

    function OnAuthenticated(now: int): TimerState {
      this.(authenticated := true, handshake := None, lastRecv := now,
            reverifyDue := if reverifyInterval.Some? then Some(now + reverifyInterval.value) else None)
    }

    function OnRecv(now: int): TimerState { this.(lastRecv := now) }

    function Clear(): TimerState {
      this.(handshake := None, authenticated := false, pingOutstanding := None, reverifyDue := None)
    }

    /** Arms the next key check. */
    function Rearm(now: int): TimerState {
      if reverifyInterval.Some? then this.(reverifyDue := Some(now + reverifyInterval.value)) else this
    }

    function PingDue(): Option<int> {
      if authenticated && pingOutstanding.None? then Some(lastRecv + pingInterval) else None
    }

    function IdleDeadline(): Option<int> {
      if authenticated then Some(lastRecv + idleTimeout) else None
    }

    function Expiry(now: int): Option<Expired> {
      if Passed(handshake, now) then Some(Handshake)
      else if Passed(IdleDeadline(), now) then Some(Idle)
      else if Passed(reverifyDue, now) then Some(Reverify)
      else if Passed(PingDue(), now) then Some(Ping_)
      else None
    }

    function NextTimeout(): Option<int> {
      Earlier(Earlier(handshake, PingDue()), Earlier(IdleDeadline(), reverifyDue))
    }

    /** A key check is armed only by an interval. */
    predicate Armed() { reverifyDue.Some? ==> reverifyInterval.Some? }

    /** What `handle_timeout` needs of its timers to return: the interval is positive. */
    predicate LoopSafe() { Armed() && (reverifyInterval.Some? ==> reverifyInterval.value > 0) }
  }

  predicate Passed(deadline: Option<int>, now: int) { deadline.Some? && now >= deadline.value }

  function Earlier(a: Option<int>, b: Option<int>): Option<int> {
    match (a, b)
    case (None, _) => b
    case (_, None) => a
    case (Some(x), Some(y)) => Some(Min(x, y))
  }

  function NewTimers(now: int, handshake: nat, ping: nat, idle: nat, reverify: Option<nat>): TimerState {
    TimerState(now, now, Some(now + handshake), false, None, None, ping, idle, reverify)
  }

  /** The announced wake-up is exact: something has expired at `now` if and only
      if the announced instant has been reached. */
  lemma WakeUpIsExact(t: TimerState, now: int)
    ensures t.Expiry(now).Some? <==> Passed(t.NextTimeout(), now)
  {}

  /** Re-arming clears the key check exactly when the interval is positive: with
      a zero interval the loop finds it due again, for ever. */
  lemma RearmClearsIffPositive(t: TimerState, now: int)
    requires t.reverifyInterval.Some?
    ensures !Passed(t.Rearm(now).reverifyDue, now) <==> t.reverifyInterval.value > 0
    ensures t.Expiry(now) == Some(Reverify) && t.reverifyInterval.value == 0
            ==> t.Rearm(now).Expiry(now) == Some(Reverify)
  {}

  class Timers {
    var lastNow: int
    var lastRecv: int
    var handshake: Option<int>
    var authenticated: bool
    var pingOutstanding: Option<nat>
    var reverifyDue: Option<int>
    const pingInterval: nat
    const idleTimeout: nat
    const reverifyInterval: Option<nat>

    ghost function Value(): TimerState reads this {
      TimerState(lastNow, lastRecv, handshake, authenticated, pingOutstanding, reverifyDue,
                 pingInterval, idleTimeout, reverifyInterval)
    }

    constructor (now: int, handshakeTimeout: nat, ping: nat, idle: nat, reverify: Option<nat>)
      ensures Value() == NewTimers(now, handshakeTimeout, ping, idle, reverify)
    {
      lastNow, lastRecv := now, now;
      handshake := Some(now + handshakeTimeout);
      authenticated := false;
      pingOutstanding, reverifyDue := None, None;
      pingInterval, idleTimeout, reverifyInterval := ping, idle, reverify;
    }

    /** Clamps `now` so that time never runs backwards. */
    method Observe(now: int) returns (clamped: int)
      modifies this`lastNow
      ensures Value() == old(Value()).Observe(now) && clamped == lastNow
    {
      clamped := if now > lastNow then now else lastNow;
      lastNow := clamped;
    }

    method OnAuthenticated(now: int)
      modifies this
      ensures Value() == old(Value()).OnAuthenticated(now)
    {
      authenticated := true;
      handshake := None;
      lastRecv := now;
      reverifyDue := match reverifyInterval case Some(i) => Some(now + i) case None => None;
    }

    method OnRecv(now: int)
      modifies this`lastRecv
      ensures Value() == old(Value()).OnRecv(now)
    { lastRecv := now; }

    method Rearm(now: int)
      modifies this`reverifyDue
      ensures Value() == old(Value()).Rearm(now)
    {
      if reverifyInterval.Some? { reverifyDue := Some(now + reverifyInterval.value); }
    }

    method PingSent(opaque_: nat)
      modifies this`pingOutstanding
      ensures Value() == old(Value()).(pingOutstanding := Some(opaque_))
    { pingOutstanding := Some(opaque_); }

    method OnPong(opaque_: nat)
      modifies this`pingOutstanding
      ensures Value() == old(Value()).(pingOutstanding :=
                if old(pingOutstanding) == Some(opaque_) then None else old(pingOutstanding))
    {
      if pingOutstanding == Some(opaque_) { pingOutstanding := None; }
    }

    method Clear()
      modifies this
      ensures Value() == old(Value()).Clear()
    {
      handshake := None;
      authenticated := false;
      pingOutstanding := None;
      reverifyDue := None;
    }

    method Expiry(now: int) returns (e: Option<Expired>)
      ensures e == Value().Expiry(now)
    {
      if handshake.Some? && now >= handshake.value { return Some(Handshake); }
      if authenticated && now >= lastRecv + idleTimeout { return Some(Idle); }
      if reverifyDue.Some? && now >= reverifyDue.value { return Some(Reverify); }
      if authenticated && pingOutstanding.None? && now >= lastRecv + pingInterval { return Some(Ping_); }
      return None;
    }
  }
}
