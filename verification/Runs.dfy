/** Frames from any peer, the passing of time, and with them whole runs of one
    connection: what holds after any sequence of calls. */
module Runs {
  import opened MuxTypes
  import opened Fragments
  import opened Flow
  import opened Streams
  import opened Timing
  import opened Conn
  import opened Ends
  import opened SoloRun
  import opened Hostile

  // ----------------------------------------------------------------- receive

  lemma TimersKeep(x: Solo, t: TimerState)
    requires SoloInv(x) && t.authenticated == x.c.timers.authenticated
    ensures SoloInv(x.(c := x.c.(timers := t)))
  {
    var x' := x.(c := x.c.(timers := t));
    forall id: StreamId | id != 0 ensures EndOk(x'.c.P(), View(x', 0, id)) {
      assert View(x', 0, id) == View(x, 0, id);
      assert EndOk(x.c.P(), View(x, 0, id));
    }
  }

  lemma StreamFrameEnd(env: Env, x: Solo, f: Frame, o: Oracle, id: StreamId)
    requires ConnInv(x.c) && x.c.closed.None? && f.id != 0 && id != 0
    requires EndOk(x.c.P(), View(x, 0, id)) && Dispatch(env, x.c, f, o).Ok?
    ensures EndOk(x.c.P(), View(With(x, Dispatch(env, x.c, f, o).value), 0, id))
  {
    ReceiveView(env, x, f, o, 0, id);
    if id == f.id { ReceiveOk(env, x.c.P(), View(x, 0, id), f.body); }
  }

  /** What a stream frame announces. */
  predicate Announces(x: Solo, d: seq<Event>) {
    |d| <= 1 && (forall e | e in d :: !e.ClosedEvent?)
    && (forall e | e in d && (e.Finished? || e.Readable?) :: Finished(e.id) !in x.elog)
  }

  /** What a stream frame leaves alone. */
  ghost predicate Rest(x: Solo, c': Conn) {
    && ConnInv(c') && c'.closed.None? && c'.P() == x.c.P() && c'.control == x.c.control
    && c'.nextId == x.c.nextId && c'.role == x.c.role
    && x.c.events <= c'.events && Announces(x, c'.events[|x.c.events|..])
  }

  lemma DataRest(env: Env, x: Solo, id: StreamId, b: Body)
    requires ConnInv(x.c) && x.c.closed.None? && EndOk(x.c.P(), View(x, 0, id)) && OnData(env, x.c, id, b).Ok?
    ensures Rest(x, OnData(env, x.c, id, b).value)
  {
    DataConn(env, x.c, id, b);
    assert id in x.c.streams ==> id != 0;
    hide ConnInv, StreamInv, Run, DecodeFrag;
  }

  lemma FinRest(x: Solo, id: StreamId)
    requires ConnInv(x.c) && x.c.closed.None? && EndOk(x.c.P(), View(x, 0, id)) && OnFin(x.c, id).Ok?
    ensures Rest(x, OnFin(x.c, id).value)
  {
    FinConn(x.c, id);
    if id in x.c.streams {
      FinSide(x.c, id, id);
      hide ConnInv, StreamInv, Run, OnFin;
    }
  }

  lemma OpenedRest(x: Solo, id: StreamId, b: Body)
    requires ConnInv(x.c) && x.c.closed.None? && x.c.hs == Done && id != 0 && OnStreamOpen(x.c, id, b).Ok?
    ensures Rest(x, OnStreamOpen(x.c, id, b).value)
  { OpenedConn(x.c, id, b); }

  lemma RstRest(x: Solo, id: StreamId, b: Body)
    requires ConnInv(x.c) && x.c.closed.None? && OnRst(x.c, id, b).Ok?
    ensures Rest(x, OnRst(x.c, id, b).value)
  { RstConn(x.c, id, b); }

  lemma UpdateRest(x: Solo, id: StreamId, b: Body)
    requires ConnInv(x.c) && x.c.closed.None? && OnWindowUpdate(x.c, id, b).Ok?
    ensures Rest(x, OnWindowUpdate(x.c, id, b).value)
  { UpdateConn(x.c, id, b); }

  lemma StreamFrameRest(env: Env, x: Solo, f: Frame, o: Oracle)
    requires ConnInv(x.c) && x.c.closed.None? && f.id != 0
    requires EndOk(x.c.P(), View(x, 0, f.id)) && Dispatch(env, x.c, f, o).Ok?
    ensures Rest(x, Dispatch(env, x.c, f, o).value)
  {
    match TypeOf(f.body)
    case TOpen => OpenedRest(x, f.id, f.body);
    case TData => DataRest(env, x, f.id, f.body);
    case TFin => FinRest(x, f.id);
    case TRst => RstRest(x, f.id, f.body);
    case TWindowUpdate => UpdateRest(x, f.id, f.body);
    case _ =>
  }

  lemma StreamFrameKeeps(env: Env, x: Solo, f: Frame, o: Oracle)
    requires SoloInv(x) && x.c.closed.None? && f.id != 0 && Dispatch(env, x.c, f, o).Ok?
    ensures SoloInv(With(x, Dispatch(env, x.c, f, o).value))
  {
    var c' := Dispatch(env, x.c, f, o).value;
    assert EndOk(x.c.P(), View(x, 0, f.id));
    StreamFrameRest(env, x, f, o);
    var d := c'.events[|x.c.events|..];
    NewEventsIs(x.c, c', d);
    var x' := With(x, c');
    forall id: StreamId | id != 0 ensures EndOk(c'.P(), View(x', 0, id)) {
      assert EndOk(x.c.P(), View(x, 0, id));
      StreamFrameEnd(env, x, f, o, id);
    }
    TouchInv(x, x', d);
  }

  lemma {:induction false} NoItems(fs: seq<Frame>, f: Frame)
    requires f.id == 0
    ensures forall id: StreamId | id != 0 :: Items(fs + [f], id) == Items(fs, id)
  {
    forall id: StreamId | id != 0 ensures Items(fs + [f], id) == Items(fs, id) { ItemsOne(fs, f, id); }
  }

  lemma PingKeeps(x: Solo, body: Body)
    requires SoloInv(x) && x.c.closed.None? && x.c.hs == Done && (body.Ping? || body.Pong?)
    ensures SoloInv(With(x, PushControl(x.c, 0, body)))
  {
    var c' := PushControl(x.c, 0, body);
    NewEventsIs(x.c, c', []);
    NoItems(x.c.control, Frame(0, body));
    OpensOne(x.c.control, Frame(0, body));
    assert ConnInv(x.c);
    PushConn(x.c, 0, body);
    hide SoloInv, ConnInv;
    QuietInv(x, c');
  }

  lemma RefusalKeeps(x: Solo, code: RejectCode, text: string)
    requires SoloInv(x) && x.c.closed.None?
    ensures SoloInv(With(x, RejectWith(x.c, code, text)))
  {
    CloseInv(x, PushPriority(x.c, Reject(code, text)), [], CloseReason(CloseCode.Rejected, text), false);
  }

  lemma AcceptedKeeps(x: Solo, v: nat, b: Body)
    requires SoloInv(x) && x.c.closed.None? && x.c.hs == ChallengeSent && x.c.role.Server? && b.Hello?
    ensures SoloInv(With(x, FinishHandshake(PushPriority(x.c, Welcome(v, x.c.role.params)), v, x.c.role.params, b.key)))
  {
    var c := x.c;
    var c' := FinishHandshake(PushPriority(c, Welcome(v, c.role.params)), v, c.role.params, b.key);
    NewEventsIs(c, c', [Authenticated(b.key, v)]);
    QuietInv(x, c');
  }

  lemma HelloKeeps(env: Env, x: Solo, b: Body, o: Oracle)
    requires SoloInv(x) && x.c.closed.None? && OnHello(env, x.c, b, o).Ok?
    ensures SoloInv(With(x, OnHello(env, x.c, b, o).value))
  {
    hide SoloInv;
    match Negotiate(b.version)
    case Err(code) => RefusalKeeps(x, code, "unsupported protocol version");
    case Ok(v) =>
      RefusalKeeps(x, UnknownKey, "unknown key");
      RefusalKeeps(x, BadSignature, "signature verification failed");
      AcceptedKeeps(x, v, b);
  }

  lemma ChallengeKeeps(x: Solo, b: Body, o: Oracle)
    requires SoloInv(x) && x.c.closed.None? && OnChallenge(x.c, b, o).Ok?
    ensures SoloInv(With(x, OnChallenge(x.c, b, o).value))
  {
    var c, c' := x.c, OnChallenge(x.c, b, o).value;
    match o.signature
    case Err(text) => CloseInv(x, c, [], CloseReason(CloseCode.Rejected, text), true);
    case Ok(_) =>
      NewEventsIs(c, c', []);
      QuietInv(x, c');
  }

  lemma WelcomeKeeps(x: Solo, b: Body)
    requires SoloInv(x) && x.c.closed.None? && OnWelcome(x.c, b).Ok?
    ensures SoloInv(With(x, OnWelcome(x.c, b).value))
  {
    var c, c' := x.c, OnWelcome(x.c, b).value;
    NewEventsIs(c, c', [Authenticated(c'.key.value, b.chosen)]);
    QuietInv(x, c');
  }

  lemma PongKeeps(x: Solo, b: Body)
    requires SoloInv(x) && x.c.closed.None? && OnPong(x.c, b).Ok?
    ensures SoloInv(With(x, OnPong(x.c, b).value))
  {
    var c' := OnPong(x.c, b).value;
    NewEventsIs(x.c, c', []);
    TimersKeep(x, c'.timers);
    assert With(x, c') == x.(c := x.c.(timers := c'.timers));
  }

  lemma RejectKeeps(x: Solo, b: Body)
    requires SoloInv(x) && x.c.closed.None? && OnReject(x.c, b).Ok?
    ensures SoloInv(With(x, OnReject(x.c, b).value))
  {
    var ev := RejectedEvent(b.code, b.message);
    CloseInv(x, x.c.(events := x.c.events + [ev]), [ev], CloseReason(CloseCode.Rejected, b.message), false);
  }

  lemma ConnFrameKeeps(env: Env, x: Solo, f: Frame, o: Oracle)
    requires SoloInv(x) && x.c.closed.None? && f.id == 0 && Dispatch(env, x.c, f, o).Ok?
    ensures SoloInv(With(x, Dispatch(env, x.c, f, o).value))
  {
    hide SoloInv;
    match TypeOf(f.body)
    case TChallenge => ChallengeKeeps(x, f.body, o);
    case THello => HelloKeeps(env, x, f.body, o);
    case TWelcome => WelcomeKeeps(x, f.body);
    case TReject => RejectKeeps(x, f.body);
    case TGoaway => GoawayKeeps(x, f.body.reason);
    case TPing => PingKeeps(x, Pong(f.body.opaque_));
    case TPong => PongKeeps(x, f.body);
    case _ =>
  }

  lemma GoawayKeeps(x: Solo, reason: CloseReason)
    requires SoloInv(x) && x.c.closed.None?
    ensures SoloInv(With(x, CloseInternal(x.c, reason, false)))
  {
    CloseInv(x, x.c, [], reason, false);
  }

  lemma FailKeeps(env: Env, x: Solo, t: TimerState, e: ProtocolError)
    requires SoloInv(x) && x.c.closed.None? && t.authenticated == x.c.timers.authenticated
    ensures SoloInv(With(x, Fail(env, x.c.(timers := t), e).0))
  {
    TimersKeep(x, t);
    CloseInv(x, x.c.(timers := t), [], CloseReason(Protocol, env.describe(e)), true);
  }

  lemma RecvKeeps(env: Env, x: Solo, now: int, input: Input, o: Oracle)
    requires SoloInv(x)
    ensures SoloInv(With(x, Recv(env, x.c, now, input, o).0))
  {
    hide SoloInv;
    var t1 := x.c.timers.Observe(now);
    var t2 := t1.OnRecv(t1.lastNow);
    if x.c.closed.Some? {
      TimersKeep(x, t1);
      NewEventsIs(x.c, x.c.(timers := t1), []);
      assert With(x, x.c.(timers := t1)) == x.(c := x.c.(timers := t1));
    } else {
      match input
      case Short(n) => FailKeeps(env, x, t1, Truncated(n));
      case UnknownType(b) => FailKeeps(env, x, t1, UnknownFrameType(b));
      case Framed(f) =>
        TimersKeep(x, t2);
        var x2 := x.(c := x.c.(timers := t2));
        match Dispatch(env, x2.c, f, o)
        case Err(e) => FailKeeps(env, x, t2, e);
        case Ok(c3) =>
          assert With(x, c3) == With(x2, c3);
          if f.id == 0 { ConnFrameKeeps(env, x2, f, o); } else { StreamFrameKeeps(env, x2, f, o); }
    }
  }

  // -------------------------------------------------------------------- time

  lemma WithTwice(x: Solo, c1: Conn, c2: Conn)
    requires x.c.events <= c1.events <= c2.events
    ensures With(With(x, c1), c2) == With(x, c2)
  {
    assert c2.events[|x.c.events|..] == c1.events[|x.c.events|..] + c2.events[|c1.events|..];
  }

  lemma ReverifyKeeps(x: Solo, now: int, v: bool)
    requires SoloInv(x) && x.c.closed.None?
    ensures SoloInv(With(x, Fire(x.c, now, Reverify, v)))
  {
    var c, c0 := x.c, x.c.(timers := x.c.timers.Rearm(now));
    TimersKeep(x, c0.timers);
    if c.role.Server? && c.key.Some? ==> v {
      NewEventsIs(c, c0, []);
      assert With(x, c0) == x.(c := c0);
    } else {
      CloseInv(x, c0, [], CloseReason(KeyRevoked, ""), true);
    }
  }

  lemma PingFireKeeps(x: Solo, now: int, v: bool)
    requires SoloInv(x) && x.c.closed.None? && x.c.hs == Done
    ensures SoloInv(With(x, Fire(x.c, now, Ping_, v)))
  {
    var c := x.c;
    var t := c.timers.(pingOutstanding := Some(c.pings + 1));
    TimersKeep(x, t);
    PingsKeep(x.(c := c.(timers := t)), c.pings + 1);
    var c0 := c.(timers := t).(pings := c.pings + 1);
    PingKeeps(x.(c := c0), Ping(c.pings + 1));
    var c1 := Fire(c, now, Ping_, v);
    NewEventsIs(c0, c1, []);
    NewEventsIs(c, c1, []);
    assert With(x.(c := c0), PushControl(c0, 0, Ping(c.pings + 1))) == With(x, c1);
  }

  lemma FireKeeps(x: Solo, now: int, e: Expired, v: bool)
    requires SoloInv(x) && x.c.closed.None? && x.c.timers.Expiry(now) == Some(e)
    ensures SoloInv(With(x, Fire(x.c, now, e, v)))
    ensures x.c.events <= Fire(x.c, now, e, v).events
  {
    match e
    case Handshake => CloseInv(x, x.c, [], CloseReason(CloseCode.Timeout, ""), true);
    case Idle => CloseInv(x, x.c, [], CloseReason(CloseCode.Timeout, ""), true);
    case Reverify => ReverifyKeeps(x, now, v);
    case Ping_ => PingFireKeeps(x, now, v);
  }

  lemma {:induction false} TimeoutKeeps(x: Solo, now: int, v: bool)
    requires SoloInv(x) && x.c.timers.LoopSafe()
    ensures SoloInv(With(x, TimeoutLoop(x.c, now, v)))
    ensures x.c.events <= TimeoutLoop(x.c, now, v).events
    decreases Pending(x.c, now)
  {
    hide SoloInv;
    var c := x.c;
    if c.closed.Some? || c.timers.Expiry(now).None? {
      NewEventsIs(c, c, []);
      assert With(x, c) == x;
    } else {
      var e := c.timers.Expiry(now).value;
      var c1 := Fire(c, now, e, v);
      FireKeeps(x, now, e, v);
      TimeoutKeeps(With(x, c1), now, v);
      WithTwice(x, c1, TimeoutLoop(c1, now, v));
    }
  }

  lemma PingsKeep(x: Solo, n: nat)
    requires SoloInv(x)
    ensures SoloInv(x.(c := x.c.(pings := n)))
  {
    var x' := x.(c := x.c.(pings := n));
    forall id: StreamId | id != 0 ensures EndOk(x'.c.P(), View(x', 0, id)) {
      assert View(x', 0, id) == View(x, 0, id);
      assert EndOk(x.c.P(), View(x, 0, id));
    }
  }

  // -------------------------------------------------------------- whole runs

  lemma StartKeeps(cfg: Config, now: int, nonceS: Bytes)
    ensures SoloInv(Start(cfg, now, nonceS))
  {
    var x := Start(cfg, now, nonceS);
    forall id: StreamId | id != 0 ensures EndOk(x.c.P(), View(x, 0, id)) {
      assert View(x, 0, id).All() == [];
    }
  }

  lemma PollKeeps(x: Solo)
    requires SoloInv(x) && x.c.events != []
    ensures SoloInv(x.(c := x.c.(events := x.c.events[1..])))
  {
    var x' := x.(c := x.c.(events := x.c.events[1..]));
    forall id: StreamId | id != 0 ensures EndOk(x'.c.P(), View(x', 0, id)) {
      assert View(x', 0, id) == View(x, 0, id);
      assert EndOk(x.c.P(), View(x, 0, id));
    }
    hide EndOk, View, EventsOk, ClosedLast, Opens;
  }

  /** Every call keeps the invariant, whatever its arguments and the peer's frames. */
  lemma StepKeeps(env: Env, x: Solo, a: Act)
    requires SoloInv(x)
    ensures SoloInv(Step(env, x, a).0)
  {
    hide SoloInv;
    NewEventsIs(x.c, x.c, []);
    assert With(x, x.c) == x;
    match a
    case AOpen(cl) => OpenKeeps(env, x, cl);
    case ASend(id, msg, stance) => SendKeeps(env, x, id, msg, stance);
    case AFinish(id) => FinishKeeps(x, id);
    case AReset(id, code) => ResetKeeps(x, id, code);
    case ATake(id) => if RecvMsg(x.c, id).1.Ok? { TakeKeeps(x, id); }
    case ASetClass(id, cl) => SetClassKeeps(x, id, cl);
    case AClose(reason) =>
      if x.c.closed.None? { CloseKeeps(x, reason); }
    case ATimeout(now, v) =>
      if x.c.timers.LoopSafe() { HandleTimeoutKeeps(x, now, v); }
    case ATransmit(pick) =>
      if x.c.priority != [] || PickOk(x.c, pick) {
        if Transmit(x.c, pick).1.Some? { TransmitKeeps(x, pick); }
      }
    case ARecv(now, input, o) => RecvKeeps(env, x, now, input, o);
    case APoll => if x.c.events != [] { PollKeeps(x); }
  }

  lemma CloseKeeps(x: Solo, reason: CloseReason)
    requires SoloInv(x) && x.c.closed.None?
    ensures SoloInv(With(x, CloseInternal(x.c, reason, true)))
  { CloseInv(x, x.c, [], reason, true); }

  lemma HandleTimeoutKeeps(x: Solo, now: int, v: bool)
    requires SoloInv(x) && x.c.timers.LoopSafe()
    ensures SoloInv(With(x, HandleTimeout(x.c, now, v)))
  {
    hide SoloInv;
    var t := x.c.timers.Observe(now);
    TimersKeep(x, t);
    var x1 := x.(c := x.c.(timers := t));
    TimeoutKeeps(x1, t.lastNow, v);
    assert With(x, HandleTimeout(x.c, now, v)) == With(x1, TimeoutLoop(x1.c, t.lastNow, v));
  }

  lemma {:induction false} RunKeeps(env: Env, x: Solo, acts: seq<Act>)
    requires SoloInv(x)
    ensures SoloInv(Exec(env, x, acts))
    decreases |acts|
  {
    hide SoloInv;
    if acts != [] {
      StepKeeps(env, x, acts[0]);
      RunKeeps(env, Step(env, x, acts[0]).0, acts[1..]);
    }
  }

  /** The state after `acts` on a new connection. */
  ghost function After(env: Env, cfg: Config, now: int, nonceS: Bytes, acts: seq<Act>): Solo {
    Exec(env, Start(cfg, now, nonceS), acts)
  }

  lemma AfterInv(env: Env, cfg: Config, now: int, nonceS: Bytes, acts: seq<Act>)
    ensures SoloInv(After(env, cfg, now, nonceS, acts))
  {
    StartKeeps(cfg, now, nonceS);
    RunKeeps(env, Start(cfg, now, nonceS), acts);
  }

  /** Against any peer: queued bytes are covered by credit, buffered bytes by the
      window, a message under reassembly by `max_message`; a finished stream is
      not tracked. */
  lemma BuffersBounded(env: Env, cfg: Config, now: int, nonceS: Bytes, acts: seq<Act>, id: StreamId)
    ensures var c := After(env, cfg, now, nonceS, acts).c;
            id in c.streams ==>
              var s := c.streams[id];
              && c.params.Some?
              && s.outboxBytes == TotalBytes(s.outbox) <= s.send.credit
              && InboxWire(s.inbox) + s.partialWire <= c.params.value.initialWindow <= MAX_WINDOW
              && |s.partial| <= c.params.value.maxMessage
              && !s.IsFinished()
  {
    AfterInv(env, cfg, now, nonceS, acts);
    var x := After(env, cfg, now, nonceS, acts);
    if id in x.c.streams { assert EndOk(x.c.P(), View(x, 0, id)); }
  }

  /** The scheduler holds exactly the streams with something they may send. */
  lemma SchedulerAgrees(env: Env, cfg: Config, now: int, nonceS: Bytes, acts: seq<Act>, id: StreamId)
    ensures var c := After(env, cfg, now, nonceS, acts).c;
            id in c.active <==> id in c.streams && c.streams[id].openSent && c.streams[id].outbox != []
  { AfterInv(env, cfg, now, nonceS, acts); }

  /** On every stream the frames handed to the transport are OPEN (if ours), then
      DATA, then at most one FIN, then at most one RST; OPENs go out in id order. */
  lemma FramesInOrder(env: Env, cfg: Config, now: int, nonceS: Bytes, acts: seq<Act>, id: StreamId)
    requires id != 0
    ensures var x := After(env, cfg, now, nonceS, acts);
            && Run(if x.c.PeerParity(id) then CanData else Init, Items(x.sent, id)) != Bad
            && (forall i, j | 0 <= i < j < |Opens(x.sent)| :: Opens(x.sent)[i] < Opens(x.sent)[j])
  {
    var x := After(env, cfg, now, nonceS, acts);
    AfterInv(env, cfg, now, nonceS, acts);
    var e := View(x, 0, id);
    assert EndOk(x.c.P(), e);
    assert e.Sent() == Items(x.sent, id) by {
      assert x.sent[..0] == [] && x.sent[0..] == x.sent;
    }
    RunAppend(e.Start(), e.Sent(), e.ctl);
    if Run(e.Start(), e.Sent()) == Bad { RunBad(e.ctl); }
    var ids := Opens(x.sent) + Opens(x.c.control);
    forall i | 0 <= i < |Opens(x.sent)| ensures Opens(x.sent)[i] == FirstId(x.c.role) + 2 * i {
      assert ids[i] == Opens(x.sent)[i];
    }
  }

  /** `Finished` is announced at most once per stream with no `Readable` after it;
      `Closed` is announced exactly when the connection closes and nothing follows. */
  lemma LifeCycle(env: Env, cfg: Config, now: int, nonceS: Bytes, acts: seq<Act>)
    ensures var x := After(env, cfg, now, nonceS, acts);
            && EventsOk(x.elog)
            && ClosedLast(x.elog, x.c.closed.Some?)
            && (forall id | id in x.c.streams ::
                  Finished(id) in x.elog <==> !x.c.streams[id].remoteOpen && x.c.streams[id].inbox == [])
  {
    AfterInv(env, cfg, now, nonceS, acts);
    var x := After(env, cfg, now, nonceS, acts);
    forall id | id in x.c.streams
      ensures Finished(id) in x.elog <==> !x.c.streams[id].remoteOpen && x.c.streams[id].inbox == []
    {
      assert EndOk(x.c.P(), View(x, 0, id));
    }
  }
}
