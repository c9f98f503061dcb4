/** What `handle_timeout` achieves, and when a connection cannot go idle. */
module Deadlines {
  import opened MuxTypes
  import opened Timing
  import opened Conn
  import opened SoloRun
  import opened Scripts

  /** The loop leaves either a closed connection or no deadline that has passed. */
  lemma {:induction false} LoopSettles(c: Conn, now: int, v: bool)
    requires c.timers.LoopSafe()
    ensures var c' := TimeoutLoop(c, now, v); c'.closed.Some? || c'.timers.Expiry(now).None?
    decreases Pending(c, now)
  {
    if c.closed.None? && c.timers.Expiry(now).Some? {
      LoopSettles(Fire(c, now, c.timers.Expiry(now).value, v), now, v);
    }
  }

  /** What rounds of the loop may change: a PING may become outstanding. */
  predicate Rounds(t: TimerState, t': TimerState) {
    && t'.lastNow == t.lastNow && t'.lastRecv == t.lastRecv && t'.LoopSafe()
    && t'.pingInterval == t.pingInterval && t'.idleTimeout == t.idleTimeout
    && (t'.pingOutstanding.None? || t'.pingOutstanding == t.pingOutstanding
        || (t.pingOutstanding.None? && t.authenticated))
    && (t'.authenticated ==> t.authenticated)
  }

  lemma FireRounds(c: Conn, now: int, e: Expired, v: bool)
    requires c.timers.LoopSafe() && c.timers.Expiry(now) == Some(e)
    ensures Rounds(c.timers, Fire(c, now, e, v).timers)
  {}

  lemma {:induction false} LoopTimers(c: Conn, now: int, v: bool)
    requires c.timers.LoopSafe()
    ensures Rounds(c.timers, TimeoutLoop(c, now, v).timers)
    decreases Pending(c, now)
  {
    if c.closed.None? && c.timers.Expiry(now).Some? {
      var c1 := Fire(c, now, c.timers.Expiry(now).value, v);
      FireRounds(c, now, c.timers.Expiry(now).value, v);
      hide Fire;
      LoopTimers(c1, now, v);
    }
  }

  /** A second call at the same instant, or an earlier one, does nothing. */
  lemma HandlingTwice(c: Conn, now: int, again: int, v: bool, v': bool)
    requires c.timers.LoopSafe() && again <= now
    ensures var c1 := HandleTimeout(c, now, v);
            c1.timers.LoopSafe() && HandleTimeout(c1, again, v') == c1
  {
    var c0 := c.(timers := c.timers.Observe(now));
    LoopSettles(c0, c0.timers.lastNow, v);
    LoopTimers(c0, c0.timers.lastNow, v);
    var c1 := HandleTimeout(c, now, v);
    assert c1.(timers := c1.timers.Observe(again)) == c1;
  }

  // ------------------------------------------------------ whether the loop ends

  predicate Settled(c: Conn, now: int) { c.closed.Some? || c.timers.Expiry(now).None? }

  /** At most `n` rounds of the loop, whatever the timers. */
  ghost function Turns(c: Conn, now: int, v: bool, n: nat): Conn
    decreases n
  {
    if n == 0 || Settled(c, now) then c else Turns(Fire(c, now, c.timers.Expiry(now).value, v), now, v, n - 1)
  }

  lemma {:induction false} TurnsEnd(c: Conn, now: int, v: bool, n: nat)
    requires c.timers.LoopSafe() && n >= Pending(c, now)
    ensures Turns(c, now, v, n) == TimeoutLoop(c, now, v) && Settled(Turns(c, now, v, n), now)
    decreases n
  {
    if !Settled(c, now) { TurnsEnd(Fire(c, now, c.timers.Expiry(now).value, v), now, v, n - 1); }
  }

  /** With a zero interval and a key that stays valid, the check is due after every round. */
  lemma {:induction false} TurnsGoOn(c: Conn, now: int, n: nat)
    requires c.closed.None? && c.timers.reverifyInterval == Some(0) && c.timers.Expiry(now) == Some(Reverify)
    ensures var c' := Turns(c, now, true, n); c'.closed.None? && c'.timers.Expiry(now) == Some(Reverify)
    decreases n
  {
    if n > 0 { TurnsGoOn(Fire(c, now, Reverify, true), now, n - 1); }
  }

  /** Once a key check is due and the key is valid, the loop ends, if and only if the
      re-verification interval is positive. */
  lemma LoopEndsIffPositive(c: Conn, now: int)
    requires c.closed.None? && c.timers.reverifyInterval.Some? && c.timers.Expiry(now) == Some(Reverify)
    ensures (exists n :: Settled(Turns(c, now, true, n), now)) <==> c.timers.reverifyInterval.value > 0
  {
    if c.timers.reverifyInterval.value > 0 {
      TurnsEnd(c, now, true, Pending(c, now));
    } else {
      forall n ensures !Settled(Turns(c, now, true, n), now) { TurnsGoOn(c, now, n); }
    }
  }

  // ------------------------------------------------------------------ idleness

  /** Some round of the loop finds the peer silent for too long. */
  ghost predicate FiresIdle(c: Conn, now: int, v: bool)
    requires c.timers.LoopSafe()
    decreases Pending(c, now)
  {
    c.closed.None? && c.timers.Expiry(now).Some?
    && (c.timers.Expiry(now) == Some(Idle) || FiresIdle(Fire(c, now, c.timers.Expiry(now).value, v), now, v))
  }

  /** Only silence seen on entry can close the connection as idle. */
  lemma {:induction false} IdleFromTheStart(c: Conn, now: int, v: bool)
    requires c.timers.LoopSafe() && !Passed(c.timers.IdleDeadline(), now)
    ensures !FiresIdle(c, now, v)
    decreases Pending(c, now)
  {
    if c.closed.None? && c.timers.Expiry(now).Some? {
      IdleFromTheStart(Fire(c, now, c.timers.Expiry(now).value, v), now, v);
    }
  }

  /** When the outstanding PING, if any, was queued. */
  ghost function PingAt(x: Solo, x': Solo, at: int): int {
    if x'.c.timers.pingOutstanding.Some? && x.c.timers.pingOutstanding.None? then x'.c.timers.lastNow else at
  }

  /** A call at `now` is on time: a due PING is served within `d`, and an
      outstanding PING is answered within `r`. */
  predicate OnTime(t: TimerState, at: int, d: nat, r: nat, now: int) {
    var n := Max(now, t.lastNow);
    t.authenticated ==>
      if t.pingOutstanding.None? then n <= t.lastRecv + t.pingInterval + d else n <= at + r
  }

  /** Every `handle_timeout` of the run is on time. */
  ghost predicate Prompt(env: Env, x: Solo, at: int, d: nat, r: nat, acts: seq<Act>)
    decreases |acts|
  {
    acts != [] ==>
      && (acts[0].ATimeout? ==> OnTime(x.c.timers, at, d, r, acts[0].now))
      && var x1 := Step(env, x, acts[0]).0; Prompt(env, x1, PingAt(x, x1, at), d, r, acts[1..])
  }

  predicate Alive(t: TimerState, at: int, d: nat) {
    t.lastRecv <= t.lastNow && t.LoopSafe()
    && (t.pingOutstanding.Some? ==> at <= t.lastRecv + t.pingInterval + d)
  }

  /** How a call other than `handle_timeout` may change the deadlines. */
  predicate Calm(t: TimerState, t': TimerState) {
    && t'.lastRecv >= t.lastRecv && (t.lastRecv <= t.lastNow ==> t'.lastRecv <= t'.lastNow)
    && t'.pingInterval == t.pingInterval && t'.idleTimeout == t.idleTimeout
    && (t.LoopSafe() ==> t'.LoopSafe())
    && (t'.pingOutstanding.Some? ==> t'.pingOutstanding == t.pingOutstanding)
  }

  lemma DispatchCalm(env: Env, c: Conn, f: Frame, o: Oracle)
    requires c.timers.lastRecv <= c.timers.lastNow && Dispatch(env, c, f, o).Ok?
    ensures Calm(c.timers, Dispatch(env, c, f, o).value.timers)
  {
    if f.id != 0 {
      hide Calm;
      StreamCalm(env, c, f, o);
      CalmSame(c.timers);
    } else if TypeOf(f.body) == THello {
      HelloCalm(env, c, f.body, o);
      hide OnHello;
    } else {
      ConnCalm(env, c, f, o);
    }
  }

  lemma CalmSame(t: TimerState)
    ensures Calm(t, t)
  {}

  lemma ConnCalm(env: Env, c: Conn, f: Frame, o: Oracle)
    requires c.timers.lastRecv <= c.timers.lastNow && Dispatch(env, c, f, o).Ok? && f.id == 0 && TypeOf(f.body) != THello
    ensures Calm(c.timers, Dispatch(env, c, f, o).value.timers)
  {}

  lemma HelloCalm(env: Env, c: Conn, b: Body, o: Oracle)
    requires c.timers.lastRecv <= c.timers.lastNow && OnHello(env, c, b, o).Ok?
    ensures Calm(c.timers, OnHello(env, c, b, o).value.timers)
  {
    match Negotiate(b.version)
    case Err(code) => RejectCalm(c, code, "unsupported protocol version");
    case Ok(v) =>
      RejectCalm(c, UnknownKey, "unknown key");
      RejectCalm(c, BadSignature, "signature verification failed");
      hide RejectWith, CloseInternal;
  }

  lemma RejectCalm(c: Conn, code: RejectCode, text: string)
    ensures Calm(c.timers, RejectWith(c, code, text).timers)
  {}

  lemma StreamCalm(env: Env, c: Conn, f: Frame, o: Oracle)
    requires f.id != 0 && Dispatch(env, c, f, o).Ok?
    ensures Dispatch(env, c, f, o).value.timers == c.timers
  {
    match TypeOf(f.body)
    case TData => assert OnData(env, c, f.id, f.body).value.timers == c.timers;
    case TFin => assert OnFin(c, f.id).value.timers == c.timers;
    case _ =>
  }

  lemma RecvCalm(env: Env, c: Conn, now: int, input: Input, o: Oracle)
    requires c.timers.lastRecv <= c.timers.lastNow
    ensures Calm(c.timers, Recv(env, c, now, input, o).0.timers)
  {
    var t1 := c.timers.Observe(now);
    var c2 := c.(timers := t1.OnRecv(t1.lastNow));
    if c.closed.None? && input.Framed? && Dispatch(env, c2, input.frame, o).Ok? {
      DispatchCalm(env, c2, input.frame, o);
      hide Dispatch;
      assert Recv(env, c, now, input, o).0 == Dispatch(env, c2, input.frame, o).value;
    } else {
      hide Dispatch;
    }
  }

  lemma OtherCalm(env: Env, x: Solo, a: Act)
    requires !a.ATimeout? && !a.ARecv?
    ensures Calm(x.c.timers, Step(env, x, a).0.c.timers)
  {
    match a
    case ASend(id, msg, stance) =>
    case ATransmit(pick) => assert Transmit(x.c, pick).0.timers == x.c.timers;
    case ATake(id) => assert RecvMsg(x.c, id).0.timers == x.c.timers;
    case AFinish(id) => assert Finish(x.c, id).0.timers == x.c.timers;
    case _ =>
  }

  lemma StepAlive(env: Env, x: Solo, a: Act, at: int, d: nat, r: nat)
    requires Alive(x.c.timers, at, d) && (a.ATimeout? ==> OnTime(x.c.timers, at, d, r, a.now))
    ensures var x' := Step(env, x, a).0;
            && Alive(x'.c.timers, PingAt(x, x', at), d)
            && x'.c.timers.pingInterval == x.c.timers.pingInterval && x'.c.timers.idleTimeout == x.c.timers.idleTimeout
  {
    if a.ATimeout? {
      var c1 := x.c.(timers := x.c.timers.Observe(a.now));
      LoopTimers(c1, c1.timers.lastNow, a.stillValid);
      assert Step(env, x, a).0.c == TimeoutLoop(c1, c1.timers.lastNow, a.stillValid);
    } else if a.ARecv? {
      RecvCalm(env, x.c, a.now, a.input, a.oracle);
    } else {
      OtherCalm(env, x, a);
    }
  }

  /** No call of the run closes the connection for silence. */
  ghost predicate NeverIdle(env: Env, x: Solo, acts: seq<Act>)
    decreases |acts|
  {
    acts != [] ==>
      && (acts[0].ATimeout? && x.c.timers.LoopSafe() ==>
          var c1 := x.c.(timers := x.c.timers.Observe(acts[0].now));
          !FiresIdle(c1, c1.timers.lastNow, acts[0].stillValid))
      && NeverIdle(env, Step(env, x, acts[0]).0, acts[1..])
  }

  lemma NotIdleNow(c: Conn, at: int, d: nat, r: nat, now: int, v: bool)
    requires Alive(c.timers, at, d) && OnTime(c.timers, at, d, r, now)
    requires c.timers.pingInterval + d + r < c.timers.idleTimeout
    ensures var c1 := c.(timers := c.timers.Observe(now)); !FiresIdle(c1, c1.timers.lastNow, v)
  {
    var c1 := c.(timers := c.timers.Observe(now));
    IdleFromTheStart(c1, c1.timers.lastNow, v);
  }

  /** While deadlines are served within `d` and every PING is answered within
      `r`, with `ping_interval + d + r < idle_timeout`, no run closes on silence. */
  lemma {:induction false} PromptNeverIdle(env: Env, x: Solo, at: int, d: nat, r: nat, acts: seq<Act>)
    requires Alive(x.c.timers, at, d) && Prompt(env, x, at, d, r, acts)
    requires x.c.timers.pingInterval + d + r < x.c.timers.idleTimeout
    ensures NeverIdle(env, x, acts)
    decreases |acts|
  {
    if acts != [] {
      var a := acts[0];
      if a.ATimeout? { NotIdleNow(x.c, at, d, r, a.now, a.stillValid); }
      StepAlive(env, x, a, at, d, r);
      hide Step, Alive;
      var x1 := Step(env, x, a).0;
      PromptNeverIdle(env, x1, PingAt(x, x1, at), d, r, acts[1..]);
    }
  }

  /** The same from the start of a connection. */
  lemma ConnectionNeverIdle(env: Env, cfg: Config, now: int, nonceS: Bytes, d: nat, r: nat, acts: seq<Act>)
    requires cfg.reverify.Some? ==> cfg.reverify.value > 0
    requires cfg.pingInterval + d + r < cfg.idleTimeout
    requires Prompt(env, Start(cfg, now, nonceS), now, d, r, acts)
    ensures NeverIdle(env, Start(cfg, now, nonceS), acts)
  { PromptNeverIdle(env, Start(cfg, now, nonceS), now, d, r, acts); }

  // ------------------------------------------------------ the margin is exact

  /** Served at the last moment, and then not answered in time. */
  function LastMoments(now: int, wait: nat, r: nat): seq<Act> {
    [ATimeout(now + wait, true), ATimeout(now + wait + r, true)]
  }

  /** An authenticated connection that has just heard of its peer. */
  predicate JustHeard(c: Conn, now: int) {
    && c.closed.None? && c.timers.authenticated && c.timers.handshake.None? && c.timers.pingOutstanding.None?
    && c.timers.reverifyDue.None? && c.timers.LoopSafe() && c.timers.lastRecv == c.timers.lastNow == now
  }

  lemma PingFires(c: Conn, now: int, at: int)
    requires JustHeard(c, now) && now + c.timers.pingInterval <= at < now + c.timers.idleTimeout
    ensures var c' := HandleTimeout(c, at, true);
            c'.closed.None? && c'.timers == c.timers.(lastNow := at, pingOutstanding := Some(c.pings + 1))
  {
    var c1 := c.(timers := c.timers.Observe(at));
    assert c1.timers.Expiry(at) == Some(Ping_);
    var c2 := Fire(c1, at, Ping_, true);
    assert c2.timers.Expiry(at).None?;
    assert TimeoutLoop(c2, at, true) == c2;
  }

  lemma FoundIdle(c: Conn, at: int)
    requires c.closed.None? && c.timers.LoopSafe() && c.timers.authenticated && c.timers.handshake.None?
    requires at >= c.timers.lastRecv + c.timers.idleTimeout && at >= c.timers.lastNow
    ensures var c1 := c.(timers := c.timers.Observe(at)); FiresIdle(c1, c1.timers.lastNow, true)
    ensures var c' := HandleTimeout(c, at, true); c'.closed.Some? && !c'.timers.authenticated
  {
    var c1 := c.(timers := c.timers.Observe(at));
    assert c1.timers.Expiry(at) == Some(Idle);
    var c2 := Fire(c1, at, Idle, true);
    assert TimeoutLoop(c2, at, true) == c2;
  }

  ghost predicate IdleAt(c: Conn, at: int) {
    c.timers.LoopSafe() && var t := c.timers.Observe(at); FiresIdle(c.(timers := t), t.lastNow, true)
  }

  lemma FirstMoment(env: Env, x: Solo, now: int, d: nat, r: nat)
    requires JustHeard(x.c, now) && x.c.timers.pingInterval + d + r >= x.c.timers.idleTimeout
    ensures var wait := x.c.timers.pingInterval + d;
            var x1 := Step(env, x, ATimeout(now + wait, true)).0;
            && (x1.c.timers.authenticated ==> x1.c.timers.pingOutstanding.Some? && x1.c.timers.lastNow == now + wait)
            && (IdleAt(x.c, now + wait) || IdleAt(x1.c, now + wait + r))
  {
    var wait := x.c.timers.pingInterval + d;
    var x1 := Step(env, x, ATimeout(now + wait, true)).0;
    assert x1.c == HandleTimeout(x.c, now + wait, true);
    if wait >= x.c.timers.idleTimeout {
      FoundIdle(x.c, now + wait);
    } else {
      PingFires(x.c, now, now + wait);
      hide HandleTimeout, FiresIdle, Step;
      FoundIdle(x1.c, now + wait + r);
    }
    hide HandleTimeout, FiresIdle, Step;
  }

  lemma TooLate(env: Env, x: Solo, now: int, was: int, d: nat, r: nat)
    requires JustHeard(x.c, now) && x.c.timers.pingInterval + d + r >= x.c.timers.idleTimeout
    ensures var acts := LastMoments(now, x.c.timers.pingInterval + d, r);
            Prompt(env, x, was, d, r, acts) && !NeverIdle(env, x, acts)
  {
    hide *;
    var wait := x.c.timers.pingInterval + d;
    var acts := LastMoments(now, wait, r);
    assert acts == [ATimeout(now + wait, true), ATimeout(now + wait + r, true)] by { MomentsAre(now, wait, r); }
    var x1 := Step(env, x, acts[0]).0;
    FirstMoment(env, x, now, d, r);
    LastOnTime(env, x, x1, was, wait, d, r, now);
    if NeverIdle(env, x, acts) { BothLooks(env, x, acts); }
  }

  lemma MomentsAre(now: int, wait: nat, r: nat)
    ensures LastMoments(now, wait, r) == [ATimeout(now + wait, true), ATimeout(now + wait + r, true)]
  {}

  lemma BothLooks(env: Env, x: Solo, acts: seq<Act>)
    requires |acts| == 2 && acts[0].ATimeout? && acts[1].ATimeout? && acts[0].stillValid && acts[1].stillValid
    requires NeverIdle(env, x, acts)
    ensures !IdleAt(x.c, acts[0].now) && !IdleAt(Step(env, x, acts[0]).0.c, acts[1].now)
  {
    hide Step, FiresIdle, TimerState.LoopSafe;
    assert acts[1..][0] == acts[1];
  }

  lemma LastOnTime(env: Env, x: Solo, x1: Solo, was: int, wait: nat, d: nat, r: nat, now: int)
    requires JustHeard(x.c, now) && wait == x.c.timers.pingInterval + d
    requires x1 == Step(env, x, ATimeout(now + wait, true)).0
    requires x1.c.timers.authenticated ==> x1.c.timers.pingOutstanding.Some? && x1.c.timers.lastNow == now + wait
    ensures Prompt(env, x, was, d, r, LastMoments(now, wait, r))
  {
    var acts := LastMoments(now, wait, r);
    var x2 := Step(env, x1, acts[1]).0;
    hide Step;
    assert acts[1..] == [acts[1]] && [acts[1]][1..] == [];
    assert Prompt(env, x2, PingAt(x1, x2, PingAt(x, x1, was)), d, r, []);
    assert Prompt(env, x1, PingAt(x, x1, was), d, r, [acts[1]]);
  }

  lemma ReceptionFirst(env: Env, x: Solo, a: Act, rest: seq<Act>, was: int, d: nat, r: nat)
    requires a.ARecv?
    ensures var x1 := Step(env, x, a).0;
            && (Prompt(env, x, was, d, r, [a] + rest) <==> Prompt(env, x1, PingAt(x, x1, was), d, r, rest))
            && (NeverIdle(env, x, [a] + rest) <==> NeverIdle(env, x1, rest))
  {
    hide Step, PingAt;
    assert ([a] + rest)[0] == a && ([a] + rest)[1..] == rest;
  }

  lemma GreetedHeard(env: Env, cfg: Config, now: int, nonceS: Bytes, p: Params)
    requires cfg.role.Client? && ParamsOk(p)
    ensures var c := Exec(env, Start(cfg, now, nonceS), Greeting(now, p)).c;
            JustHeard(c, now) && c.timers.pingInterval == cfg.pingInterval && c.timers.idleTimeout == cfg.idleTimeout
  {
    Greeted(env, cfg, now, nonceS, p);
    hide Exec, Start, Greeting;
  }

  lemma GreetingIs(env: Env, x: Solo, now: int, p: Params, acts: seq<Act>) returns (a: Act, b: Act)
    ensures a.ARecv? && b.ARecv? && Greeting(now, p) + acts == [a] + ([b] + acts)
    ensures Exec(env, x, Greeting(now, p)) == Step(env, Step(env, x, a).0, b).0
  {
    a, b := Greeting(now, p)[0], Greeting(now, p)[1];
    hide Step;
    ExecOne(env, Step(env, x, a).0, b);
    assert Greeting(now, p)[1..] == [b];
  }

  /** Without the margin there is a run of a client in which every deadline is
      served within `d` and every PING outstanding for at most `r`, and which is
      found idle: greeted, it hears nothing more, and is looked at at both limits. */
  lemma MarginIsExact(env: Env, cfg: Config, now: int, nonceS: Bytes, p: Params, d: nat, r: nat)
    requires cfg.role.Client? && ParamsOk(p)
    requires cfg.pingInterval + d + r >= cfg.idleTimeout
    ensures var acts := Greeting(now, p) + LastMoments(now, cfg.pingInterval + d, r);
            Prompt(env, Start(cfg, now, nonceS), now, d, r, acts) && !NeverIdle(env, Start(cfg, now, nonceS), acts)
  {
    hide *;
    var x := Exec(env, Start(cfg, now, nonceS), Greeting(now, p));
    var acts := LastMoments(now, cfg.pingInterval + d, r);
    GreetedHeard(env, cfg, now, nonceS, p);
    var x0 := Start(cfg, now, nonceS);
    var g, h := GreetingIs(env, x0, now, p, acts);
    var x1 := Step(env, x0, g).0;
    var at := PingAt(x0, x1, now);
    ReceptionFirst(env, x0, g, [h] + acts, now, d, r);
    ReceptionFirst(env, x1, h, acts, at, d, r);
    TooLate(env, x, now, PingAt(x1, x, at), d, r);
  }

  /** So a client that is served and answered promptly is never found idle, if and
      only if the idle timeout is longer than the ping interval and both delays. */
  lemma IdleIffMargin(env: Env, cfg: Config, now: int, nonceS: Bytes, d: nat, r: nat)
    requires cfg.role.Client?
    requires cfg.reverify.Some? ==> cfg.reverify.value > 0
    ensures (forall acts | Prompt(env, Start(cfg, now, nonceS), now, d, r, acts) :: NeverIdle(env, Start(cfg, now, nonceS), acts))
            <==> cfg.pingInterval + d + r < cfg.idleTimeout
  {
    hide Prompt, NeverIdle;
    if cfg.pingInterval + d + r < cfg.idleTimeout {
      forall acts | Prompt(env, Start(cfg, now, nonceS), now, d, r, acts) ensures NeverIdle(env, Start(cfg, now, nonceS), acts) {
        ConnectionNeverIdle(env, cfg, now, nonceS, d, r, acts);
      }
    } else {
      MarginIsExact(env, cfg, now, nonceS, Params(2, MIN_WINDOW, false, MIN_MESSAGE), d, r);
    }
  }
}
