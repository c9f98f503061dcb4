/** Two connections and the two FIFO queues between them: what holds between
    their calls. `x` and `y` are either end; `rx` counts the frames of `x` that
    `y` has read. */
module Peers {
  import opened MuxTypes
  import opened Fragments
  import opened Streams
  import opened Timing
  import opened Conn
  import opened Ends
  import opened SoloRun
  import opened Hostile
  import opened Runs
  import opened Handshake
  import Link

  /** The highest stream id among the first `k` OPENs of an end. */
  function LastOf(role: Role, k: nat): int { if k == 0 then 0 else FirstId(role) + 2 * (k - 1) }

  /** `y` expects exactly what `x` sends next. */
  ghost predicate Heard(x: Solo, rx: nat, y: Solo)
    requires rx <= |x.sent|
  {
    y.c.closed.None? ==>
      && HRun(HStart(x.c.role), x.sent[..rx]) == HWant(y.c)
      && y.c.lastPeer == LastOf(x.c.role, |Opens(x.sent[..rx])|)
  }

  /** One end on its own, in a connection negotiated to `p`. */
  ghost predicate Sane(p: Params, x: Solo) {
    && SoloInv(x) && HsInv(x)
    && (x.c.hs == Done ==> x.c.params == Some(p))
    && (x.c.role.Server? ==> x.c.role.params == p)
  }

  ghost predicate Lane(env: Env, p: Params, x: Solo, rx: nat, y: Solo, ry: nat, id: StreamId) {
    && rx <= |x.sent| && ry <= |y.sent|
    && Link.Linked(env, p, View(x, rx, id), View(y, ry, id))
    && Link.Linked(env, p, View(y, ry, id), View(x, rx, id))
  }

  ghost predicate Joined(env: Env, p: Params, x: Solo, rx: nat, y: Solo, ry: nat) {
    && rx <= |x.sent| && ry <= |y.sent|
    && ParamsOk(p) && Sane(p, x) && Sane(p, y)
    && x.c.role.Client? != y.c.role.Client?
    && Heard(x, rx, y) && Heard(y, ry, x)
    && (forall id: StreamId | id != 0 :: Lane(env, p, x, rx, y, ry, id))
  }

  lemma JoinedSwap(env: Env, p: Params, x: Solo, rx: nat, y: Solo, ry: nat)
    requires Joined(env, p, x, rx, y, ry)
    ensures Joined(env, p, y, ry, x, rx)
  {
    forall id: StreamId | id != 0 ensures Lane(env, p, y, ry, x, rx, id) { assert Lane(env, p, x, rx, y, ry, id); }
  }

  // ------------------------------------------------------------ stream by stream

  lemma EndOkAt(p: Params, x: Solo, rd: nat, id: StreamId)
    requires Sane(p, x) && rd <= |x.sent| && id != 0
    ensures EndOk(p, View(x, rd, id)) && ConnInv(x.c)
    ensures x.c.hs == Done ==> x.c.P() == p
  {
    var e0, e := View(x, 0, id), View(x, rd, id);
    assert EndOk(x.c.P(), e0);
    hide HsInv, StreamInv, Opens;
    assert x.sent[..rd] + x.sent[rd..] == x.sent && x.sent[..0] == [] && x.sent[0..] == x.sent;
    ItemsAppend(x.sent[..rd], x.sent[rd..], id);
    assert e.Sent() == e0.Sent();
    assert e.All() == e0.All();
    if x.c.hs != Done { assert e.st.None?; }
  }

  /** What one end of a lane needs to move. */
  ghost predicate Movable(env: Env, p: Params, x: Solo, rx: nat, y: Solo, ry: nat, id: StreamId) {
    && rx <= |x.sent| && ry <= |y.sent| && id != 0
    && ParamsOk(p) && ConnInv(x.c) && (x.c.hs == Done ==> x.c.P() == p)
    && EndOk(p, View(x, rx, id)) && EndOk(p, View(y, ry, id))
    && Lane(env, p, x, rx, y, ry, id)
  }

  lemma CanMove(env: Env, p: Params, x: Solo, rx: nat, y: Solo, ry: nat, id: StreamId)
    requires Joined(env, p, x, rx, y, ry) && id != 0
    ensures Movable(env, p, x, rx, y, ry, id)
  {
    assert Lane(env, p, x, rx, y, ry, id);
    EndOkAt(p, x, rx, id);
    EndOkAt(p, y, ry, id);
  }

  lemma OpenLane(env: Env, p: Params, x: Solo, rx: nat, y: Solo, ry: nat, cl: Class, id: StreamId)
    requires Movable(env, p, x, rx, y, ry, id)
    ensures Lane(env, p, Step(env, x, AOpen(cl)).0, rx, y, ry, id)
  {
    OpenView(env, x, cl, rx, id);
    if OpenStream(x.c, cl).1 == Ok(id) {
      Link.OpenKeeps(env, p, View(x, rx, id), View(y, ry, id), cl);
    }
  }

  lemma SendLane(env: Env, p: Params, x: Solo, rx: nat, y: Solo, ry: nat, sid: StreamId, msg: Bytes, stance: Compress, id: StreamId)
    requires Movable(env, p, x, rx, y, ry, id)
    ensures Lane(env, p, Step(env, x, ASend(sid, msg, stance)).0, rx, y, ry, id)
  {
    var ex, ey, x' := View(x, rx, id), View(y, ry, id), Sent(env, x, sid, msg, stance);
    assert x' == Step(env, x, ASend(sid, msg, stance)).0;
    var e' := View(x', rx, id);
    SentView(env, x, sid, msg, stance, rx, id);
    if e' != ex {
      if Send(env, x.c, sid, msg, stance).1.None? {
        var stance' := if x.c.P().compressionAllowed then stance else Never;
        Link.SendKeeps(env, p, ex, ey, msg, stance', e'.st.value.class_);
      } else {
        Link.TweakKeeps(env, p, ex, ey, e'.st.value);
      }
    }
  }

  lemma FinishLane(env: Env, p: Params, x: Solo, rx: nat, y: Solo, ry: nat, fid: StreamId, id: StreamId)
    requires Movable(env, p, x, rx, y, ry, id)
    ensures Lane(env, p, Step(env, x, AFinish(fid)).0, rx, y, ry, id)
  {
    FinishView(x, fid, rx, id);
    if fid == id && Finish(x.c, fid).1.None? { Link.FinishKeeps(env, p, View(x, rx, id), View(y, ry, id)); }
  }

  lemma ResetLane(env: Env, p: Params, x: Solo, rx: nat, y: Solo, ry: nat, fid: StreamId, code: u32, id: StreamId)
    requires Movable(env, p, x, rx, y, ry, id)
    ensures Lane(env, p, Step(env, x, AReset(fid, code)).0, rx, y, ry, id)
  {
    ResetView(x, fid, code, rx, id);
    if fid == id && Reset(x.c, fid, code).1.None? { Link.ResetKeeps(env, p, View(x, rx, id), View(y, ry, id), code); }
  }

  lemma TakeLane(env: Env, p: Params, x: Solo, rx: nat, y: Solo, ry: nat, fid: StreamId, id: StreamId)
    requires Movable(env, p, x, rx, y, ry, id)
    ensures Lane(env, p, Step(env, x, ATake(fid)).0, rx, y, ry, id)
  {
    hide Link.Linked, ConnInv;
    var x', c' := Step(env, x, ATake(fid)).0, RecvMsg(x.c, fid).0;
    TakeView(x, fid, rx, id);
    assert View(x', rx, id) == View(With(x, c'), rx, id).(delivered := Get(x'.delivered, id));
    if fid == id && RecvMsg(x.c, fid).1.Ok? { Link.TakeKeeps(env, p, View(x, rx, id), View(y, ry, id)); }
  }

  lemma SetClassLane(env: Env, p: Params, x: Solo, rx: nat, y: Solo, ry: nat, fid: StreamId, cl: Class, id: StreamId)
    requires Movable(env, p, x, rx, y, ry, id)
    ensures Lane(env, p, Step(env, x, ASetClass(fid, cl)).0, rx, y, ry, id)
  {
    hide Link.Linked, EndOk, ConnInv;
    SetClassView(x, fid, cl, rx, id);
    var e' := View(With(x, SetClass(x.c, fid, cl).0), rx, id);
    if e' != View(x, rx, id) { Link.TweakKeeps(env, p, View(x, rx, id), View(y, ry, id), e'.st.value); }
  }

  /** Whatever leaves streams alone or ends the connection. */
  lemma ShapeLane(env: Env, p: Params, x: Solo, rx: nat, y: Solo, ry: nat, c': Conn, id: StreamId)
    requires Movable(env, p, x, rx, y, ry, id) && (Quiet(x.c, c') || Ended(x.c, c'))
    ensures Lane(env, p, With(x, c'), rx, y, ry, id)
  {
    if Quiet(x.c, c') {
      QuietView(x, c', rx, id);
    } else {
      EndedView(x, c', rx, id);
      Link.CloseKeeps(env, p, View(x, rx, id), View(y, ry, id));
    }
  }

  lemma TimeoutQuiet(c: Conn, now: int, v: bool)
    requires c.timers.LoopSafe()
    ensures var c' := HandleTimeout(c, now, v); Quiet(c, c') || Ended(c, c')
  {
    var c1 := c.(timers := c.timers.Observe(now));
    TimeoutShape(c1, c1.timers.lastNow, v);
  }

  lemma TransmitLane(env: Env, p: Params, x: Solo, rx: nat, y: Solo, ry: nat, pick: Option<Pick>, id: StreamId)
    requires Movable(env, p, x, rx, y, ry, id)
    ensures Lane(env, p, Step(env, x, ATransmit(pick)).0, rx, y, ry, id)
  {
    if (x.c.priority != [] || PickOk(x.c, pick)) && Transmit(x.c, pick).1.Some? {
      var x1 := Emit(x, Transmit(x.c, pick).0, Transmit(x.c, pick).1.value);
      assert rx <= |x.sent| && id != 0 && ConnInv(x.c) && |x.sent| <= |x1.sent|;
      hide *;
      TransmittedIs(env, x, pick);
      TransmitView(x, pick, rx, id);
      EmittedLane(env, p, x, rx, y, ry, x1, id);
    } else {
      Untransmitted(env, x, pick);
    }
  }

  lemma TransmittedIs(env: Env, x: Solo, pick: Option<Pick>)
    requires (x.c.priority != [] || PickOk(x.c, pick)) && Transmit(x.c, pick).1.Some?
    ensures Step(env, x, ATransmit(pick)).0 == Emit(x, Transmit(x.c, pick).0, Transmit(x.c, pick).1.value)
  { hide Transmit; }

  lemma Untransmitted(env: Env, x: Solo, pick: Option<Pick>)
    requires (x.c.priority == [] && !PickOk(x.c, pick)) || Transmit(x.c, pick).1.None?
    ensures Step(env, x, ATransmit(pick)).0 == x
  { NewEventsIs(x.c, x.c, []); }

  lemma EmittedLane(env: Env, p: Params, x: Solo, rx: nat, y: Solo, ry: nat, x': Solo, id: StreamId)
    requires Movable(env, p, x, rx, y, ry, id) && |x.sent| <= |x'.sent|
    requires var (v, e) := (View(x', rx, id), View(x, rx, id));
             v == e || (e.ctl != [] && v == DoSendControl(e))
             || (e.st.Some? && e.st.value.outbox != [] && e.st.value.openSent && v == DoSendData(e))
    ensures Lane(env, p, x', rx, y, ry, id)
  {
    var ex, ey, v := View(x, rx, id), View(y, ry, id), View(x', rx, id);
    if v != ex {
      if ex.ctl != [] && v == DoSendControl(ex) {
        Link.SendControlKeeps(env, p, ex, ey);
      } else {
        Link.SendDataKeeps(env, p, ex, ey);
      }
    }
  }

  /** Whatever one end does between deliveries, every lane stays linked. */
  lemma ActLane(env: Env, p: Params, x: Solo, rx: nat, y: Solo, ry: nat, a: Act, id: StreamId)
    requires Movable(env, p, x, rx, y, ry, id) && !a.ARecv?
    ensures Lane(env, p, Step(env, x, a).0, rx, y, ry, id)
  {
    hide Link.Linked, EndOk, ConnInv;
    match a
    case AOpen(cl) => OpenLane(env, p, x, rx, y, ry, cl, id);
    case ASend(sid, msg, stance) => SendLane(env, p, x, rx, y, ry, sid, msg, stance, id);
    case AFinish(fid) => FinishLane(env, p, x, rx, y, ry, fid, id);
    case AReset(fid, code) => ResetLane(env, p, x, rx, y, ry, fid, code, id);
    case ATake(fid) => TakeLane(env, p, x, rx, y, ry, fid, id);
    case ASetClass(fid, cl) => SetClassLane(env, p, x, rx, y, ry, fid, cl, id);
    case AClose(reason) => CloseLane(env, p, x, rx, y, ry, reason, id);
    case ATimeout(now, v) => TimeoutLane(env, p, x, rx, y, ry, now, v, id);
    case ATransmit(pick) => TransmitLane(env, p, x, rx, y, ry, pick, id);
    case APoll => PollLane(env, p, x, rx, y, ry, id);
  }

  lemma CloseQuiet(c: Conn, reason: CloseReason)
    ensures var c' := CloseInternal(c, reason, true); Quiet(c, c') || Ended(c, c')
  {
    if c.closed.None? { CloseEnds(c, reason, true); } else { NewEventsIs(c, c, []); }
  }

  lemma CloseLane(env: Env, p: Params, x: Solo, rx: nat, y: Solo, ry: nat, reason: CloseReason, id: StreamId)
    requires Movable(env, p, x, rx, y, ry, id)
    ensures Lane(env, p, Step(env, x, AClose(reason)).0, rx, y, ry, id)
  {
    assert Step(env, x, AClose(reason)).0 == With(x, CloseInternal(x.c, reason, true));
    hide *;
    CloseQuiet(x.c, reason);
    ShapeLane(env, p, x, rx, y, ry, CloseInternal(x.c, reason, true), id);
  }

  lemma TimeoutLane(env: Env, p: Params, x: Solo, rx: nat, y: Solo, ry: nat, now: int, v: bool, id: StreamId)
    requires Movable(env, p, x, rx, y, ry, id)
    ensures Lane(env, p, Step(env, x, ATimeout(now, v)).0, rx, y, ry, id)
  {
    if x.c.timers.LoopSafe() {
      assert Step(env, x, ATimeout(now, v)).0 == With(x, HandleTimeout(x.c, now, v));
      hide *;
      TimeoutQuiet(x.c, now, v);
      ShapeLane(env, p, x, rx, y, ry, HandleTimeout(x.c, now, v), id);
    }
  }

  lemma PollLane(env: Env, p: Params, x: Solo, rx: nat, y: Solo, ry: nat, id: StreamId)
    requires Movable(env, p, x, rx, y, ry, id)
    ensures Lane(env, p, Step(env, x, APoll).0, rx, y, ry, id)
  {
    hide Link.Linked, EndOk, ConnInv;
    PollView(env, x, rx, id);
  }

  lemma PollView(env: Env, x: Solo, rx: nat, id: StreamId)
    requires rx <= |x.sent|
    ensures var x' := Step(env, x, APoll).0; x'.sent == x.sent && View(x', rx, id) == View(x, rx, id)
  {
  }

  // ------------------------------------------------------------ one end acts

  /** What no call of the local application changes. */
  ghost predicate Steady(x: Solo, x': Solo) {
    && SameHs(x.c, x'.c) && x'.c.lastPeer == x.c.lastPeer && x.sent <= x'.sent
    && (x.c.closed.Some? ==> x'.c.closed == x.c.closed)
  }

  lemma {:induction false} TimeoutSteady(c: Conn, now: int, v: bool)
    requires c.timers.LoopSafe()
    ensures var c' := TimeoutLoop(c, now, v);
            SameHs(c, c') && c'.lastPeer == c.lastPeer && (c.closed.Some? ==> c'.closed == c.closed)
    decreases Pending(c, now)
  {
    if c.closed.None? && c.timers.Expiry(now).Some? {
      TimeoutSteady(Fire(c, now, c.timers.Expiry(now).value, v), now, v);
    }
  }

  lemma TransmitSteady(x: Solo, pick: Option<Pick>)
    ensures var c' := Transmit(x.c, pick).0;
            SameHs(x.c, c') && c'.lastPeer == x.c.lastPeer && c'.closed == x.c.closed
  {}

  lemma ActSteady(env: Env, x: Solo, a: Act)
    requires !a.ARecv?
    ensures Steady(x, Step(env, x, a).0)
  {
    match a
    case ATimeout(now, v) =>
      if x.c.timers.LoopSafe() {
        var c1 := x.c.(timers := x.c.timers.Observe(now));
        TimeoutSteady(c1, c1.timers.lastNow, v);
      }
    case ATransmit(pick) => TransmitSteady(x, pick);
    case ASend(id, msg, stance) => SendSteady(env, x, id, msg, stance);
    case ATake(id) => TakeSteady(env, x, id);
    case AFinish(id) => FinishSteady(env, x, id);
    case _ =>
  }

  lemma SendSteady(env: Env, x: Solo, id: StreamId, msg: Bytes, stance: Compress)
    ensures Steady(x, Step(env, x, ASend(id, msg, stance)).0)
  {}

  lemma TakeSteady(env: Env, x: Solo, id: StreamId)
    ensures Steady(x, Step(env, x, ATake(id)).0)
  {}

  lemma FinishSteady(env: Env, x: Solo, id: StreamId)
    ensures Steady(x, Step(env, x, AFinish(id)).0)
  {}

  lemma SteadyHeard(x: Solo, rx: nat, y: Solo, ry: nat, x': Solo)
    requires rx <= |x.sent| && ry <= |y.sent| && Heard(x, rx, y) && Heard(y, ry, x) && Steady(x, x')
    ensures Heard(x', rx, y) && Heard(y, ry, x')
  {
    assert x'.sent[..rx] == x.sent[..rx];
  }

  lemma SteadySane(env: Env, p: Params, x: Solo, a: Act)
    requires Sane(p, x) && Steady(x, Step(env, x, a).0)
    ensures Sane(p, Step(env, x, a).0)
  {
    assert ConnInv(x.c);
    StepKeeps(env, x, a);
    StepHs(env, x, a);
  }

  /** Anything the application, the clock or the transport asks of one end keeps
      both ends joined. */
  lemma ActJoined(env: Env, p: Params, x: Solo, rx: nat, y: Solo, ry: nat, a: Act)
    requires Joined(env, p, x, rx, y, ry) && !a.ARecv?
    ensures Joined(env, p, Step(env, x, a).0, rx, y, ry)
  {
    var x' := Step(env, x, a).0;
    ActSteady(env, x, a);
    forall id: StreamId | id != 0 ensures Lane(env, p, x', rx, y, ry, id) {
      hide *;
      CanMove(env, p, x, rx, y, ry, id);
      ActLane(env, p, x, rx, y, ry, a, id);
    }
    assert x'.c.role == x.c.role;
    hide Sane, Lane, Heard, SoloInv, HsInv;
    SteadySane(env, p, x, a);
    SteadyHeard(x, rx, y, ry, x');
  }
}
