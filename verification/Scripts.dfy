/** Runs written out act by act, to reach a state by example. */
module Scripts {
  import opened MuxTypes
  import opened Timing
  import opened Conn
  import opened SoloRun

  lemma {:induction false} ExecAppend(env: Env, x: Solo, a: seq<Act>, b: seq<Act>)
    ensures Exec(env, x, a + b) == Exec(env, Exec(env, x, a), b)
    decreases |a|
  {
    if a == [] {
      assert a + b == b;
    } else {
      assert (a + b)[1..] == a[1..] + b;
      ExecAppend(env, Step(env, x, a[0]).0, a[1..], b);
    }
  }

  lemma ExecOne(env: Env, x: Solo, a: Act)
    ensures Exec(env, x, [a]) == Step(env, x, a).0
  {
    assert [a][1..] == [];
    assert Exec(env, Step(env, x, a).0, []) == Step(env, x, a).0;
  }

  /** The clock is read and the frame counts as liveness before it is looked at. */
  function Heard(c: Conn, now: int): Conn {
    var t := c.timers.Observe(now);
    c.(timers := t.OnRecv(t.lastNow))
  }

  const ANSWERS := Oracle([], Ok([]), None)

  function Arrives(now: int, f: Frame): Act { ARecv(now, Framed(f), ANSWERS) }

  lemma ArrivalStep(env: Env, x: Solo, now: int, f: Frame)
    requires x.c.closed.None? && Dispatch(env, Heard(x.c, now), f, ANSWERS).Ok?
    ensures Step(env, x, Arrives(now, f)).0 == With(x, Dispatch(env, Heard(x.c, now), f, ANSWERS).value)
  { hide Dispatch; }

  /** A server greets a client: CHALLENGE, then WELCOME. */
  function Greeting(now: int, p: Params): seq<Act> {
    [Arrives(now, Frame(0, Challenge([]))), Arrives(now, Frame(0, Welcome(MAX_VERSION, p)))]
  }

  lemma Greeted(env: Env, cfg: Config, now: int, nonceS: Bytes, p: Params)
    requires cfg.role.Client? && ParamsOk(p)
    ensures var c := Exec(env, Start(cfg, now, nonceS), Greeting(now, p)).c;
            && c.closed.None? && c.hs == Done && c.role == cfg.role && c.params == Some(p) && c.streams == map[]
            && c.lastPeer == 0 && c.nextId == 1
            && c.timers == NewTimers(now, HANDSHAKE_TIMEOUT, cfg.pingInterval, cfg.idleTimeout, None).OnAuthenticated(now)
  {
    var x := Start(cfg, now, nonceS);
    var a, b := Frame(0, Challenge([])), Frame(0, Welcome(MAX_VERSION, p));
    ArrivalStep(env, x, now, a);
    var x1 := Step(env, x, Arrives(now, a)).0;
    assert x1.c.hs == HelloSent && x1.c.closed.None? && x1.c.role.Client?;
    ArrivalStep(env, x1, now, b);
    ExecOne(env, x1, Arrives(now, b));
    assert Greeting(now, p)[1..] == [Arrives(now, b)];
  }
}
