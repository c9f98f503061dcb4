/** A client and a server, the frames between them, and every order in which
    their applications, clocks, transports and key stores can act. */
module System {
  import opened MuxTypes
  import opened Fragments
  import opened Flow
  import opened Streams
  import opened Timing
  import opened Conn
  import opened Ends
  import opened SoloRun
  import opened Hostile
  import opened Runs
  import opened Handshake
  import opened Peers
  import opened Delivery
  import Link

  /** `byServer` frames of the client have been delivered, `byClient` of the
      server; `accused` says that some `recv` returned a protocol error. */
  datatype Sys = Sys(client: Solo, server: Solo, byServer: nat, byClient: nat, accused: bool)

  datatype Move =
    | AtClient(act: Act) | AtServer(act: Act)
    | ToServer(now: int, oracle: Oracle) | ToClient(now: int, oracle: Oracle)

  /** A frame is only ever received off the head of the peer's queue. */
  ghost function Make(env: Env, y: Sys, m: Move): Sys {
    match m
    case AtClient(a) => if a.ARecv? then y else y.(client := Step(env, y.client, a).0)
    case AtServer(a) => if a.ARecv? then y else y.(server := Step(env, y.server, a).0)
    case ToServer(now, o) =>
      if y.byServer >= |y.client.sent| then y else
      var (s, err) := Step(env, y.server, ARecv(now, Framed(y.client.sent[y.byServer]), o));
      y.(server := s, byServer := y.byServer + 1, accused := y.accused || err.Some?)
    case ToClient(now, o) =>
      if y.byClient >= |y.server.sent| then y else
      var (c, err) := Step(env, y.client, ARecv(now, Framed(y.server.sent[y.byClient]), o));
      y.(client := c, byClient := y.byClient + 1, accused := y.accused || err.Some?)
  }

  ghost function Play(env: Env, y: Sys, moves: seq<Move>): Sys
    decreases |moves|
  {
    if moves == [] then y else Play(env, Make(env, y, moves[0]), moves[1..])
  }

  /** Both configurations, both clocks' first readings, and the server's nonce. */
  datatype Setup = Setup(client: Config, server: Config, nowC: int, nowS: int, nonceS: Bytes)

  predicate SetupOk(u: Setup) { u.client.role.Client? && u.server.role.Server? }

  function Begin(u: Setup): Sys {
    Sys(Start(u.client, u.nowC, []), Start(u.server, u.nowS, u.nonceS), 0, 0, false)
  }

  ghost function Reached(env: Env, u: Setup, moves: seq<Move>): Sys { Play(env, Begin(u), moves) }

  /** What the server's configuration settles. */
  function Terms(u: Setup): Params
    requires SetupOk(u)
  { Normalize(u.server.role.params) }

  // --------------------------------------------------------------- invariant

  ghost predicate SysInv(env: Env, p: Params, y: Sys) {
    && Joined(env, p, y.client, y.byServer, y.server, y.byClient)
    && y.client.c.role.Client?
    && Agreed(y.client.c, y.server.c)
    && !y.accused
  }

  /** Clamping makes any server configuration one the client accepts. */
  lemma NormalizedOk(q: Params)
    ensures ParamsOk(Normalize(q))
    ensures ParamsOk(q) ==> Normalize(q) == q
  {}

  lemma BeginInv(env: Env, u: Setup)
    requires SetupOk(u)
    ensures SysInv(env, Terms(u), Begin(u))
  {
    var p, y := Terms(u), Begin(u);
    NormalizedOk(u.server.role.params);
    StartKeeps(u.client, u.nowC, []);
    StartKeeps(u.server, u.nowS, u.nonceS);
    StartHs(u.client, u.nowC, []);
    StartHs(u.server, u.nowS, u.nonceS);
    var x, z := y.client, y.server;
    forall id: StreamId | id != 0 ensures Lane(env, p, x, 0, z, 0, id) {
      EndOkAt(p, x, 0, id);
      EndOkAt(p, z, 0, id);
      assert !View(x, 0, id).known && !View(z, 0, id).known;
      hide Link.Linked, EndOk;
      Link.FreshLink(env, p, View(x, 0, id), View(z, 0, id));
      Link.FreshLink(env, p, View(z, 0, id), View(x, 0, id));
    }
  }

  // ------------------------------------------------------------- preservation

  /** A delivered frame moves the handshake only as far as its sender got. */
  lemma DispatchAgreed(env: Env, p: Params, x: Solo, rx: nat, y: Solo, o: Oracle)
    requires rx < |x.sent| && HsInv(x) && ConnInv(y.c) && ConnInv(x.c) && Dispatch(env, y.c, x.sent[rx], o).Ok?
    requires x.c.role.Client? != y.c.role.Client?
    ensures var c' := Dispatch(env, y.c, x.sent[rx], o).value;
            && (y.c.role.Client? && Agreed(y.c, x.c) ==> Agreed(c', x.c))
            && (x.c.role.Client? && Agreed(x.c, y.c) ==> Agreed(x.c, c'))
  {
    assert ContentOk(x.c, x.sent[rx]);
    DispatchIdentity(env, y.c, x.sent[rx], o);
  }

  lemma RecvAgreed(env: Env, p: Params, x: Solo, rx: nat, y: Solo, ry: nat, now: int, o: Oracle)
    requires Joined(env, p, x, rx, y, ry) && rx < |x.sent|
    ensures var c' := Step(env, y, ARecv(now, Framed(x.sent[rx]), o)).0.c;
            && c'.role == y.c.role
            && (y.c.role.Client? && Agreed(y.c, x.c) ==> Agreed(c', x.c))
            && (x.c.role.Client? && Agreed(x.c, y.c) ==> Agreed(x.c, c'))
  {
    var f := x.sent[rx];
    if y.c.closed.Some? {
      RecvClosed(env, y, now, f, o);
    } else {
      var t1 := y.c.timers.Observe(now);
      var y2 := Clocked(y, t1.OnRecv(t1.lastNow));
      RecvIsDispatch(env, y, now, f, o);
      hide Dispatch, Recv;
      ClockedJoined(env, p, x, rx, y, ry, t1.OnRecv(t1.lastNow));
      FrameAccepted(env, p, x, rx, y2, ry, o);
      DispatchAgreed(env, p, x, rx, y2, o);
      DispatchIdentity(env, y2.c, f, o);
    }
  }

  lemma ActKeeps(env: Env, p: Params, y: Sys, m: Move)
    requires SysInv(env, p, y) && (m.AtClient? || m.AtServer?)
    ensures SysInv(env, p, Make(env, y, m))
  {
    if !m.act.ARecv? {
      hide Joined;
      if m.AtClient? {
        ActJoined(env, p, y.client, y.byServer, y.server, y.byClient, m.act);
        ActSteady(env, y.client, m.act);
      } else {
        JoinedSwap(env, p, y.client, y.byServer, y.server, y.byClient);
        ActJoined(env, p, y.server, y.byClient, y.client, y.byServer, m.act);
        ActSteady(env, y.server, m.act);
        JoinedSwap(env, p, Step(env, y.server, m.act).0, y.byClient, y.client, y.byServer);
      }
    }
  }

  lemma ArrivalKeeps(env: Env, p: Params, y: Sys, m: Move)
    requires SysInv(env, p, y) && (m.ToServer? || m.ToClient?)
    ensures SysInv(env, p, Make(env, y, m))
  {
    hide Joined, Step, Agreed;
    if m.ToServer? {
      if y.byServer < |y.client.sent| {
        RecvJoined(env, p, y.client, y.byServer, y.server, y.byClient, m.now, m.oracle);
        RecvAgreed(env, p, y.client, y.byServer, y.server, y.byClient, m.now, m.oracle);
      }
    } else if y.byClient < |y.server.sent| {
      var x := Step(env, y.client, ARecv(m.now, Framed(y.server.sent[y.byClient]), m.oracle)).0;
      JoinedSwap(env, p, y.client, y.byServer, y.server, y.byClient);
      RecvJoined(env, p, y.server, y.byClient, y.client, y.byServer, m.now, m.oracle);
      RecvAgreed(env, p, y.server, y.byClient, y.client, y.byServer, m.now, m.oracle);
      JoinedSwap(env, p, y.server, y.byClient + 1, x, y.byServer);
    }
  }

  lemma {:induction false} PlayKeeps(env: Env, p: Params, y: Sys, moves: seq<Move>)
    requires SysInv(env, p, y)
    ensures SysInv(env, p, Play(env, y, moves))
    decreases |moves|
  {
    if moves != [] {
      var m := moves[0];
      hide SysInv;
      if m.AtClient? || m.AtServer? { ActKeeps(env, p, y, m); } else { ArrivalKeeps(env, p, y, m); }
      PlayKeeps(env, p, Make(env, y, m), moves[1..]);
    }
  }

  lemma ReachedInv(env: Env, u: Setup, moves: seq<Move>)
    requires SetupOk(u)
    ensures SysInv(env, Terms(u), Reached(env, u, moves))
  {
    BeginInv(env, u);
    PlayKeeps(env, Terms(u), Begin(u), moves);
  }
}
