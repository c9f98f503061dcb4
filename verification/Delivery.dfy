/** The head of a queue reaches the other end: it is accepted, and both ends
    stay joined. */
module Delivery {
  import opened MuxTypes
  import opened Fragments
  import opened Streams
  import opened Timing
  import opened Conn
  import opened Ends
  import opened SoloRun
  import opened Hostile
  import opened Runs
  import opened Handshake
  import opened Peers
  import Link

  lemma ReadView(x: Solo, rx: nat, id: StreamId)
    requires rx < |x.sent|
    ensures var (f, e) := (x.sent[rx], View(x, rx, id));
            && (f.id == id ==> e.wire != [] && e.wire[0] == f.body)
            && View(x, rx + 1, id) == if f.id == id then DoConsumed(e) else e
  {
    var f := x.sent[rx];
    assert x.sent[..rx + 1] == x.sent[..rx] + [f];
    ItemsOne(x.sent[..rx], f, id);
    assert x.sent[rx..] == [f] + x.sent[rx + 1..];
    ItemsHead(x.sent[rx..], id);
    assert x.sent[rx..][1..] == x.sent[rx + 1..];
  }

  /** The next frame is one `y` waits for. */
  lemma NextExpected(x: Solo, rx: nat, y: Solo)
    requires rx < |x.sent| && HsInv(x) && Heard(x, rx, y) && y.c.closed.None?
    ensures HNext(HWant(y.c), x.sent[rx]) != Wrong
    ensures HRun(HStart(x.c.role), x.sent[..rx + 1]) == HNext(HWant(y.c), x.sent[rx])
    ensures x.sent[rx].id != 0 ==> y.c.hs == Done && TrafficFrame(x.sent[rx]) && HNext(HWant(y.c), x.sent[rx]) == Traffic
  {
    var st, f := HStart(x.c.role), x.sent[rx];
    assert x.sent[..rx + 1] == x.sent[..rx] + [f];
    HRunOne(st, x.sent[..rx], f);
    var rest := x.sent[rx + 1..] + x.c.priority + x.c.control;
    assert Frames(x) == x.sent[..rx + 1] + rest;
    HRunAppend(st, x.sent[..rx + 1], rest);
    if HNext(HWant(y.c), f) == Wrong { HRunEnd(Wrong, rest); }
  }

  /** OPEN ids arrive without a gap. */
  lemma NextOpen(x: Solo, rx: nat)
    requires rx < |x.sent| && OpensOk(x)
    ensures var k := |Opens(x.sent[..rx])|;
            if x.sent[rx].body.Open?
            then x.sent[rx].id == FirstId(x.c.role) + 2 * k == LastOf(x.c.role, k + 1) && |Opens(x.sent[..rx + 1])| == k + 1
            else |Opens(x.sent[..rx + 1])| == k
  {
    var f := x.sent[rx];
    assert x.sent[..rx + 1] == x.sent[..rx] + [f];
    OpensOne(x.sent[..rx], f);
    assert x.sent == x.sent[..rx + 1] + x.sent[rx + 1..];
    OpensAppend(x.sent[..rx + 1], x.sent[rx + 1..]);
    hide Opens;
    if f.body.Open? {
      var k := |Opens(x.sent[..rx])|;
      assert (Opens(x.sent) + Opens(x.c.control))[k] == f.id;
    }
  }

  /** A connection frame leaves streams alone, except by ending the connection. */
  lemma ConnShape(env: Env, c: Conn, f: Frame, o: Oracle)
    requires ConnInv(c) && c.closed.None? && f.id == 0 && Dispatch(env, c, f, o).Ok?
    ensures var c' := Dispatch(env, c, f, o).value; Quiet(c, c') || Ended(c, c')
  {
    match TypeOf(f.body)
    case TChallenge => ChallengeShape(c, f.body, o);
    case THello => HelloShape(env, c, f.body, o);
    case TWelcome =>
      var c' := OnWelcome(c, f.body).value;
      NewEventsIs(c, c', [Authenticated(c'.key.value, f.body.chosen)]);
    case TReject =>
      var ev := RejectedEvent(f.body.code, f.body.message);
      CloseAnnounces(c, c.(events := c.events + [ev]), [ev], CloseReason(CloseCode.Rejected, f.body.message), false);
    case TGoaway => CloseEnds(c, f.body.reason, false);
    case TPing =>
      NoItems(c.control, Frame(0, Pong(f.body.opaque_)));
      NewEventsIs(c, PushControl(c, 0, Pong(f.body.opaque_)), []);
    case TPong => NewEventsIs(c, OnPong(c, f.body).value, []);
    case _ =>
  }

  lemma ChallengeShape(c: Conn, b: Body, o: Oracle)
    requires c.closed.None? && OnChallenge(c, b, o).Ok?
    ensures var c' := OnChallenge(c, b, o).value; Quiet(c, c') || Ended(c, c')
  {
    match o.signature
    case Err(text) => CloseEnds(c, CloseReason(CloseCode.Rejected, text), true);
    case Ok(_) => NewEventsIs(c, OnChallenge(c, b, o).value, []);
  }

  lemma HelloShape(env: Env, c: Conn, b: Body, o: Oracle)
    requires c.closed.None? && OnHello(env, c, b, o).Ok?
    ensures var c' := OnHello(env, c, b, o).value; Quiet(c, c') || Ended(c, c')
  {
    var c' := OnHello(env, c, b, o).value;
    if c'.closed.Some? {
      var r := c'.priority[|c.priority|];
      CloseAnnounces(c, c.(priority := c'.priority), [], c'.closed.value, false);
    } else {
      NewEventsIs(c, c', [Authenticated(b.key, c'.version.value)]);
    }
  }

  /** A frame on a stream `y` takes without complaint is one the connection takes. */
  lemma StreamFrameAccepted(env: Env, p: Params, y: Solo, ry: nat, f: Frame, o: Oracle)
    requires y.c.closed.None? && y.c.hs == Done && f.id != 0 && ry <= |y.sent| && y.c.P() == p
    requires Link.Acceptable(env, p, View(y, ry, f.id), f.body)
    ensures Dispatch(env, y.c, f, o).Ok?
  {
    var e := View(y, ry, f.id);
    match f.body
    case Data(pl) =>
      assert DecodeFrag(env, p.maxFrame, pl) == Ok(Dec(env, p.maxFrame, pl));
      if e.st.Some? {
        assert Accept(e.st.value, f.id, |pl|, Dec(env, p.maxFrame, pl), p.maxMessage).Ok?;
      }
    case _ =>
  }

  lemma NoGap(x: Solo, rx: nat, y: Solo, id: StreamId)
    requires rx < |x.sent| && OpensOk(x) && Heard(x, rx, y) && y.c.closed.None?
    requires x.sent[rx].body.Open? && x.c.role.Client? != y.c.role.Client?
    requires y.c.PeerParity(id) && id != 0
    ensures !(y.c.lastPeer < id < x.sent[rx].id)
  {
    NextOpen(x, rx);
  }

  /** One lane after the delivery of `x`'s next frame. */
  lemma DeliverLane(env: Env, p: Params, x: Solo, rx: nat, y: Solo, ry: nat, o: Oracle, id: StreamId)
    requires Movable(env, p, x, rx, y, ry, id) && Movable(env, p, y, ry, x, rx, id)
    requires rx < |x.sent| && OpensOk(x) && HsInv(x) && Heard(x, rx, y) && y.c.closed.None?
    requires x.c.role.Client? != y.c.role.Client?
    requires Dispatch(env, y.c, x.sent[rx], o).Ok?
    ensures Lane(env, p, x, rx + 1, With(y, Dispatch(env, y.c, x.sent[rx], o).value), ry, id)
  {
    var f := x.sent[rx];
    var c' := Dispatch(env, y.c, f, o).value;
    ReadView(x, rx, id);
    if f.id == 0 {
      ConnShape(env, y.c, f, o);
      hide *;
      ShapeLane(env, p, y, ry, x, rx, c', id);
      SameViews(env, p, x, rx, rx + 1, With(y, c'), ry, id);
    } else {
      NextExpected(x, rx, y);
      ReceiveView(env, y, f, o, ry, id);
      var v, e := View(With(y, c'), ry, id), View(y, ry, id);
      if id == f.id {
        assert v == DoReceive(env, p, e, f.body);
        hide *;
        Link.Delivered(env, p, View(x, rx, id), e);
        LaneIs(env, p, x, rx + 1, With(y, c'), ry, id, DoConsumed(View(x, rx, id)), v);
      } else {
        if v != e { NoGap(x, rx, y, id); }
        hide *;
        MovableParts(env, p, x, rx, y, ry, id);
        LaneIs(env, p, x, rx + 1, With(y, c'), ry, id, View(x, rx, id), e);
      }
    }
  }

  lemma LaneIs(env: Env, p: Params, x: Solo, rx: nat, y: Solo, ry: nat, id: StreamId, ex: End, ey: End)
    requires rx <= |x.sent| && ry <= |y.sent| && View(x, rx, id) == ex && View(y, ry, id) == ey
    requires Link.Linked(env, p, ex, ey) && Link.Linked(env, p, ey, ex)
    ensures Lane(env, p, x, rx, y, ry, id)
  {}

  lemma SameViews(env: Env, p: Params, x: Solo, rx: nat, rx': nat, y: Solo, ry: nat, id: StreamId)
    requires Lane(env, p, y, ry, x, rx, id) && rx' <= |x.sent| && View(x, rx', id) == View(x, rx, id)
    ensures Lane(env, p, x, rx', y, ry, id)
  {}

  // ------------------------------------------------------- one frame arrives

  lemma TrafficAccepted(env: Env, p: Params, x: Solo, rx: nat, y: Solo, ry: nat, o: Oracle)
    requires Joined(env, p, x, rx, y, ry) && rx < |x.sent| && y.c.closed.None? && y.c.hs == Done && x.sent[rx].id != 0
    ensures Dispatch(env, y.c, x.sent[rx], o).Ok?
  {
    var f := x.sent[rx];
    var ex, ey := View(x, rx, f.id), View(y, ry, f.id);
    assert ParamsOk(p) && Sane(p, y) && ry <= |y.sent| && !ey.closed;
    hide *;
    CanMove(env, p, x, rx, y, ry, f.id);
    EndOkAt(p, y, ry, f.id);
    ReadView(x, rx, f.id);
    MovableParts(env, p, x, rx, y, ry, f.id);
    Link.Delivered(env, p, ex, ey);
    StreamFrameAccepted(env, p, y, ry, f, o);
  }

  lemma MovableParts(env: Env, p: Params, x: Solo, rx: nat, y: Solo, ry: nat, id: StreamId)
    requires Movable(env, p, x, rx, y, ry, id)
    ensures EndOk(p, View(x, rx, id)) && EndOk(p, View(y, ry, id))
    ensures Link.Linked(env, p, View(x, rx, id), View(y, ry, id)) && Link.Linked(env, p, View(y, ry, id), View(x, rx, id))
  {}

  /** The frame that heads the queue is one `y` accepts, whatever its own
      application, clock and key store say. */
  lemma FrameAccepted(env: Env, p: Params, x: Solo, rx: nat, y: Solo, ry: nat, o: Oracle)
    requires Joined(env, p, x, rx, y, ry) && rx < |x.sent| && y.c.closed.None?
    ensures Dispatch(env, y.c, x.sent[rx], o).Ok?
    ensures var c' := Dispatch(env, y.c, x.sent[rx], o).value;
            c'.closed.None? ==> HWant(c') == HNext(HWant(y.c), x.sent[rx])
  {
    var f := x.sent[rx];
    NextExpected(x, rx, y);
    if f.id == 0 {
      assert ContentOk(x.c, f);
      ExpectedAccepted(env, y.c, f, o);
    } else {
      TrafficAccepted(env, p, x, rx, y, ry, o);
      hide Joined, Dispatch;
      StreamIdentity(env, y.c, f, o);
    }
  }

  /** `y` with its clock moved on. */
  function Clocked(y: Solo, t: TimerState): Solo { y.(c := y.c.(timers := t)) }

  lemma ClockedJoined(env: Env, p: Params, x: Solo, rx: nat, y: Solo, ry: nat, t: TimerState)
    requires Joined(env, p, x, rx, y, ry) && t.authenticated == y.c.timers.authenticated
    ensures Joined(env, p, x, rx, Clocked(y, t), ry)
  {
    forall id: StreamId | id != 0 ensures Lane(env, p, x, rx, Clocked(y, t), ry, id) {
      ClockedLane(env, p, x, rx, y, ry, t, id);
    }
    ClockedSane(p, y, t);
    hide Sane, Lane;
  }

  lemma ClockedLane(env: Env, p: Params, x: Solo, rx: nat, y: Solo, ry: nat, t: TimerState, id: StreamId)
    requires Joined(env, p, x, rx, y, ry) && id != 0
    ensures Lane(env, p, x, rx, Clocked(y, t), ry, id)
  {
    hide Sane, Heard, Link.Linked;
    assert Lane(env, p, x, rx, y, ry, id) && View(Clocked(y, t), ry, id) == View(y, ry, id);
  }

  lemma ClockedSane(p: Params, y: Solo, t: TimerState)
    requires Sane(p, y) && t.authenticated == y.c.timers.authenticated
    ensures Sane(p, Clocked(y, t))
  {
    TimersKeep(y, t);
    hide SoloInv;
    QuietTimers(y, Clocked(y, t).c);
  }

  /** What the two ends agreed on, seen from the client `a` and the server `b`. */
  predicate Agreed(a: Conn, b: Conn) {
    && (a.hs == Done ==> b.hs == Done && a.version == b.version)
    && (b.hs == Done ==> a.hs != AwaitChallenge && a.key == b.key)
  }

  lemma DispatchIdentity(env: Env, c: Conn, f: Frame, o: Oracle)
    requires Dispatch(env, c, f, o).Ok?
    ensures var c' := Dispatch(env, c, f, o).value;
            && c'.role == c.role && (c.closed.Some? ==> c'.closed.Some?)
            && (SameHs(c, c')
                || (f.body.Challenge? && c.hs == AwaitChallenge && c.role.Client?
                    && c'.hs == HelloSent && c'.params == c.params)
                || (f.body.Hello? && c.role.Server? && c.hs == ChallengeSent && c'.hs == Done
                    && c'.params == Some(c.role.params) && c'.key == Some(f.body.key))
                || (f.body.Welcome? && c.role.Client? && c.hs == HelloSent && c'.hs == Done && c'.version == Some(f.body.chosen)
                    && c'.params == Some(f.body.params) && (c.key.Some? ==> c'.key == c.key)))
            && c'.lastPeer == (if f.id != 0 && f.body.Open? then f.id else c.lastPeer)
  {
    if f.id != 0 {
      StreamIdentity(env, c, f, o);
    } else if TypeOf(f.body) == THello {
      HelloIdentity(env, c, f.body, o);
      hide OnHello;
    }
  }

  lemma HelloIdentity(env: Env, c: Conn, b: Body, o: Oracle)
    requires OnHello(env, c, b, o).Ok?
    ensures var c' := OnHello(env, c, b, o).value;
            && c'.role == c.role && c'.lastPeer == c.lastPeer && (c.closed.Some? ==> c'.closed.Some?)
            && (SameHs(c, c') || (b.Hello? && c.role.Server? && c.hs == ChallengeSent && c'.hs == Done
                                  && c'.params == Some(c.role.params) && c'.key == Some(b.key)))
  {}

  lemma StreamIdentity(env: Env, c: Conn, f: Frame, o: Oracle)
    requires f.id != 0 && Dispatch(env, c, f, o).Ok?
    ensures var c' := Dispatch(env, c, f, o).value;
            SameHs(c, c') && c'.closed == c.closed && c'.lastPeer == (if f.body.Open? then f.id else c.lastPeer)
  {
    match TypeOf(f.body)
    case TData => DataIdentity(env, c, f.id, f.body);
    case TFin => FinIdentity(c, f.id);
    case _ =>
  }

  lemma DataIdentity(env: Env, c: Conn, id: StreamId, b: Body)
    requires OnData(env, c, id, b).Ok?
    ensures var c' := OnData(env, c, id, b).value; SameHs(c, c') && c'.closed == c.closed && c'.lastPeer == c.lastPeer
  {}

  lemma FinIdentity(c: Conn, id: StreamId)
    requires OnFin(c, id).Ok?
    ensures var c' := OnFin(c, id).value; SameHs(c, c') && c'.closed == c.closed && c'.lastPeer == c.lastPeer
  {}

  lemma DispatchSane(env: Env, p: Params, x: Solo, rx: nat, y: Solo, o: Oracle)
    requires Sane(p, x) && Sane(p, y) && rx < |x.sent| && y.c.closed.None?
    requires Dispatch(env, y.c, x.sent[rx], o).Ok?
    ensures Sane(p, With(y, Dispatch(env, y.c, x.sent[rx], o).value))
  {
    var f := x.sent[rx];
    var c' := Dispatch(env, y.c, f, o).value;
    DispatchIdentity(env, y.c, f, o);
    assert ContentOk(x.c, f) && ConnInv(y.c);
    hide SoloInv, ConnInv, Dispatch;
    if f.id == 0 {
      ConnFrameKeeps(env, y, f, o);
      ConnFrameHs(env, y, f, o);
    } else {
      StreamFrameKeeps(env, y, f, o);
      StreamFrameQueues(env, y.c, f, o);
      QueuesHs(y, With(y, c'));
    }
  }

  lemma DispatchHeard(env: Env, p: Params, x: Solo, rx: nat, y: Solo, ry: nat, o: Oracle)
    requires Joined(env, p, x, rx, y, ry) && rx < |x.sent| && y.c.closed.None?
    requires Dispatch(env, y.c, x.sent[rx], o).Ok?
    ensures var y' := With(y, Dispatch(env, y.c, x.sent[rx], o).value);
            Heard(x, rx + 1, y') && Heard(y', ry, x)
  {
    FrameAccepted(env, p, x, rx, y, ry, o);
    DispatchIdentity(env, y.c, x.sent[rx], o);
    NextExpected(x, rx, y);
    NextOpen(x, rx);
    assert x.sent[rx].body.Open? ==> x.sent[rx].id != 0;
  }

  lemma DispatchJoined(env: Env, p: Params, x: Solo, rx: nat, y: Solo, ry: nat, o: Oracle)
    requires Joined(env, p, x, rx, y, ry) && rx < |x.sent| && y.c.closed.None?
    ensures Dispatch(env, y.c, x.sent[rx], o).Ok?
    ensures Joined(env, p, x, rx + 1, With(y, Dispatch(env, y.c, x.sent[rx], o).value), ry)
  {
    FrameAccepted(env, p, x, rx, y, ry, o);
    var y' := With(y, Dispatch(env, y.c, x.sent[rx], o).value);
    DispatchIdentity(env, y.c, x.sent[rx], o);
    assert OpensOk(x) && HsInv(x);
    JoinedSwap(env, p, x, rx, y, ry);
    var next := rx + 1;
    forall id: StreamId | id != 0 ensures Lane(env, p, x, next, y', ry, id) {
      hide *;
      CanMove(env, p, x, rx, y, ry, id);
      CanMove(env, p, y, ry, x, rx, id);
      DeliverLane(env, p, x, rx, y, ry, o, id);
    }
    hide SoloInv, HsInv, Lane, Dispatch;
    DispatchSane(env, p, x, rx, y, o);
    DispatchHeard(env, p, x, rx, y, ry, o);
  }

  lemma ClosedJoined(env: Env, p: Params, x: Solo, rx: nat, y: Solo, ry: nat)
    requires Joined(env, p, x, rx, y, ry) && rx < |x.sent| && y.c.closed.Some?
    ensures Joined(env, p, x, rx + 1, y, ry)
  {
    JoinedSwap(env, p, x, rx, y, ry);
    var next := rx + 1;
    forall id: StreamId | id != 0 ensures Lane(env, p, x, next, y, ry, id) {
      hide *;
      CanMove(env, p, x, rx, y, ry, id);
      CanMove(env, p, y, ry, x, rx, id);
      ClosedLane(env, p, x, rx, y, ry, id);
    }
  }

  lemma ClosedLane(env: Env, p: Params, x: Solo, rx: nat, y: Solo, ry: nat, id: StreamId)
    requires Movable(env, p, x, rx, y, ry, id) && rx < |x.sent| && y.c.closed.Some?
    ensures Lane(env, p, x, rx + 1, y, ry, id)
  {
    ReadView(x, rx, id);
    var ex, ey := View(x, rx, id), View(y, ry, id);
    assert ey.closed;
    if x.sent[rx].id == id {
      assert DoReceive(env, p, ey, ex.wire[0]) == ey;
      hide Link.Linked, EndOk, DoReceive;
      Link.Delivered(env, p, ex, ey);
    }
  }

  lemma RecvIsDispatch(env: Env, y: Solo, now: int, f: Frame, o: Oracle)
    requires y.c.closed.None?
    ensures var t1 := y.c.timers.Observe(now);
            var y2 := Clocked(y, t1.OnRecv(t1.lastNow));
            Dispatch(env, y2.c, f, o).Ok? ==>
              Step(env, y, ARecv(now, Framed(f), o)) == (With(y2, Dispatch(env, y2.c, f, o).value), None)
  { hide Dispatch; }

  lemma RecvClosed(env: Env, y: Solo, now: int, f: Frame, o: Oracle)
    requires y.c.closed.Some?
    ensures Step(env, y, ARecv(now, Framed(f), o)) == (Clocked(y, y.c.timers.Observe(now)), None)
  {
    var c1 := y.c.(timers := y.c.timers.Observe(now));
    NewEventsIs(y.c, c1, []);
    assert With(y, c1).elog == y.elog;
  }

  /** `recv` of the frame at the head of the queue: no error, and both ends stay joined. */
  lemma RecvJoined(env: Env, p: Params, x: Solo, rx: nat, y: Solo, ry: nat, now: int, o: Oracle)
    requires Joined(env, p, x, rx, y, ry) && rx < |x.sent|
    ensures var (y', err) := Step(env, y, ARecv(now, Framed(x.sent[rx]), o));
            err.None? && Joined(env, p, x, rx + 1, y', ry)
  {
    hide *;
    var f := x.sent[rx];
    var t1 := y.c.timers.Observe(now);
    var t2 := t1.OnRecv(t1.lastNow);
    KeepsAuth(y.c.timers, now);
    ClockedIs(y, t1);
    ClockedIs(y, t2);
    if y.c.closed.Some? {
      RecvClosed(env, y, now, f, o);
      ClockedJoined(env, p, x, rx, y, ry, t1);
      ClosedJoined(env, p, x, rx, Clocked(y, t1), ry);
    } else {
      RecvIsDispatch(env, y, now, f, o);
      ClockedJoined(env, p, x, rx, y, ry, t2);
      DispatchJoined(env, p, x, rx, Clocked(y, t2), ry, o);
    }
  }

  lemma ClockedIs(y: Solo, t: TimerState)
    ensures Clocked(y, t).c.closed == y.c.closed
  {}

  lemma KeepsAuth(t: TimerState, now: int)
    ensures var t1 := t.Observe(now);
            t1.authenticated == t.authenticated && t1.OnRecv(t1.lastNow).authenticated == t.authenticated
  {}
}
