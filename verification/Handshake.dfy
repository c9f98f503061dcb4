/** CHALLENGE, HELLO, WELCOME, then traffic, then at most one GOAWAY: the order
    in which connection frames leave, and what the other end waits for. */
module Handshake {
  import opened MuxTypes
  import opened Streams
  import opened Timing
  import opened Conn
  import opened Ends
  import opened SoloRun

  datatype HPhase = WantChallenge | WantHello | WantWelcome | Traffic | Over | Wrong

  predicate TrafficFrame(f: Frame) { ControlOk(f) || (f.id != 0 && f.body.Data?) }

  function HNext(ph: HPhase, f: Frame): HPhase {
    if ph == Over || ph == Wrong then Wrong
    else if f.id == 0 && f.body.Goaway? then Over
    else match ph
      case WantChallenge => if f.id == 0 && f.body.Challenge? then WantWelcome else Wrong
      case WantHello => if f.id == 0 && f.body.Hello? then Traffic else Wrong
      case WantWelcome =>
        if f.id == 0 && f.body.Welcome? then Traffic else if f.id == 0 && f.body.Reject? then Over else Wrong
      case _ => if TrafficFrame(f) then Traffic else Wrong
  }

  function HRun(ph: HPhase, fs: seq<Frame>): HPhase
    decreases |fs|
  {
    if fs == [] then ph else HRun(HNext(ph, fs[0]), fs[1..])
  }

  lemma {:induction false} HRunAppend(ph: HPhase, a: seq<Frame>, b: seq<Frame>)
    ensures HRun(ph, a + b) == HRun(HRun(ph, a), b)
    decreases |a|
  {
    if a == [] {
      assert a + b == b;
    } else {
      assert (a + b)[0] == a[0] && (a + b)[1..] == a[1..] + b;
      HRunAppend(HNext(ph, a[0]), a[1..], b);
    }
  }

  lemma HRunOne(ph: HPhase, a: seq<Frame>, f: Frame)
    ensures HRun(ph, a + [f]) == HNext(HRun(ph, a), f)
  {
    HRunAppend(ph, a, [f]);
    assert HRun(HRun(ph, a), [f]) == HRun(HNext(HRun(ph, a), f), [f][1..]);
  }

  /** After the last frame nothing may follow. */
  lemma {:induction false} HRunEnd(ph: HPhase, fs: seq<Frame>)
    requires ph == Over || ph == Wrong
    ensures HRun(ph, fs) == if fs == [] then ph else Wrong
    decreases |fs|
  {
    if fs != [] { HRunEnd(Wrong, fs[1..]); }
  }

  lemma {:induction false} HRunTraffic(fs: seq<Frame>)
    requires forall i | 0 <= i < |fs| :: TrafficFrame(fs[i])
    ensures HRun(Traffic, fs) == Traffic
    decreases |fs|
  {
    if fs != [] {
      assert TrafficFrame(fs[0]);
      HRunTraffic(fs[1..]);
    }
  }

  function HStart(role: Role): HPhase { if role.Server? then WantChallenge else WantHello }

  /** Where an open end's own frames have got to. */
  function HSent(c: Conn): HPhase {
    match c.hs
    case AwaitChallenge => WantHello
    case ChallengeSent => WantWelcome
    case _ => Traffic
  }

  /** What an open end expects next. */
  function HWant(c: Conn): HPhase {
    match c.hs
    case AwaitChallenge => WantChallenge
    case ChallengeSent => WantHello
    case HelloSent => WantWelcome
    case Done => Traffic
  }

  function Frames(x: Solo): seq<Frame> { x.sent + x.c.priority + x.c.control }

  /** Every WELCOME names what the server agreed to, every HELLO the client's key. */
  predicate ContentOk(c: Conn, f: Frame) {
    && (f.body.Welcome? && c.role.Server? ==>
        c.hs == Done && c.version == Some(f.body.chosen) && c.params == Some(f.body.params))
    && (f.body.Hello? && c.role.Client? ==> c.key == Some(f.body.key) && c.hs != AwaitChallenge)
    && (f.body.Welcome? ==> c.role.Server?) && (f.body.Hello? ==> c.role.Client?)
  }

  predicate HsInv(x: Solo) {
    var ph := HRun(HStart(x.c.role), Frames(x));
    && ph != Wrong
    && (x.c.closed.None? ==> ph == HSent(x.c))
    && (forall i | 0 <= i < |x.sent| :: ContentOk(x.c, x.sent[i]))
    && (forall i | 0 <= i < |x.c.priority| :: ContentOk(x.c, x.c.priority[i]))
    && (x.c.hs == Done ==> x.c.version.Some? && MIN_VERSION <= x.c.version.value <= MAX_VERSION)
  }

  lemma StartHs(cfg: Config, now: int, nonceS: Bytes)
    ensures HsInv(Start(cfg, now, nonceS))
  {
    var x := Start(cfg, now, nonceS);
    if x.c.role.Server? {
      assert Frames(x) == [] + [Frame(0, Challenge(nonceS))];
      HRunOne(WantChallenge, [], Frame(0, Challenge(nonceS)));
    } else {
      assert Frames(x) == [];
    }
  }

  /** The same identity and handshake state. */
  predicate SameHs(c: Conn, c': Conn) {
    c'.role == c.role && c'.hs == c.hs && c'.key == c.key && c'.version == c.version && c'.params == c.params
  }

  /** A call that at most queues control frames on an open, authenticated connection. */
  ghost predicate Queues(c: Conn, c': Conn) {
    && SameHs(c, c') && c'.closed == c.closed && c'.priority == c.priority
    && c.control <= c'.control
    && (c'.control != c.control ==> c.hs == Done && c.closed.None?)
    && (forall i | |c.control| <= i < |c'.control| :: ControlOk(c'.control[i]))
  }

  lemma QueuesHs(x: Solo, x': Solo)
    requires HsInv(x) && Queues(x.c, x'.c) && x'.sent == x.sent
    ensures HsInv(x')
  {
    var more := x'.c.control[|x.c.control|..];
    assert x'.c.control == x.c.control + more;
    assert Frames(x') == Frames(x) + more;
    HRunAppend(HStart(x.c.role), Frames(x), more);
    if more != [] { HRunTraffic(more); }
  }

  /** A call that ends the connection: GOAWAY alone, or what already bypassed the
      scheduler, or that with a REJECT behind it. */
  predicate Departs(c: Conn, c': Conn) {
    && SameHs(c, c') && c.closed.None? && c'.closed.Some? && c'.control == []
    && (c'.priority == c.priority
        || (|c'.priority| == 1 && c'.priority[0].id == 0 && c'.priority[0].body.Goaway?)
        || (c.hs == ChallengeSent && c.control == [] && |c'.priority| == |c.priority| + 1
            && c'.priority[..|c.priority|] == c.priority
            && c'.priority[|c.priority|].id == 0 && c'.priority[|c.priority|].body.Reject?))
  }

  lemma EndsHs(x: Solo, x': Solo)
    requires HsInv(x) && Departs(x.c, x'.c) && x'.sent == x.sent
    ensures HsInv(x')
  {
    var st, c, c' := HStart(x.c.role), x.c, x'.c;
    assert Frames(x) == x.sent + (c.priority + c.control);
    HRunAppend(st, x.sent, c.priority + c.control);
    HRunAppend(st, x.sent + c.priority, c.control);
    var mid := HRun(st, x.sent);
    if mid == Over || mid == Wrong { HRunEnd(mid, c.priority + c.control); }
    var ph := HRun(st, x.sent + c.priority);
    if ph == Over || ph == Wrong { HRunEnd(ph, c.control); }
    if c'.priority == c.priority {
      assert Frames(x') == x.sent + c.priority;
    } else if |c'.priority| == 1 && c'.priority[0].id == 0 && c'.priority[0].body.Goaway? {
      assert Frames(x') == x.sent + [c'.priority[0]];
      HRunOne(st, x.sent, c'.priority[0]);
    } else {
      var r := c'.priority[|c.priority|];
      assert Frames(x') == (x.sent + c.priority) + [r];
      assert x.sent + c.priority == Frames(x);
      HRunOne(st, x.sent + c.priority, r);
    }
  }

  lemma CloseDeparts(c: Conn, reason: CloseReason, goaway: bool)
    requires c.closed.None?
    ensures Departs(c, CloseInternal(c, reason, goaway))
  {}

  // ------------------------------------------------------------- the API calls

  lemma CallQueues(env: Env, x: Solo, a: Act)
    requires ConnInv(x.c)
    requires a.AOpen? || a.ASend? || a.AFinish? || a.AReset? || a.ATake? || a.ASetClass? || a.APoll?
    ensures var x' := Step(env, x, a).0; x'.sent == x.sent && Queues(x.c, x'.c)
  {
    match a
    case AOpen(cl) => OpenQueues(x.c, cl);
    case ASend(id, msg, stance) => SendQueues(env, x.c, id, msg, stance);
    case AFinish(id) => FinishQueues(x.c, id);
    case AReset(id, code) => ResetQueues(x.c, id, code);
    case ATake(id) => TakeQueues(x.c, id);
    case ASetClass(id, cl) => SetClassQueues(x.c, id, cl);
    case APoll =>
  }

  lemma OpenQueues(c: Conn, cl: Class)
    requires ConnInv(c)
    ensures Queues(c, OpenStream(c, cl).0)
  {}

  lemma SendQueues(env: Env, c: Conn, id: StreamId, msg: Bytes, stance: Compress)
    ensures Queues(c, Send(env, c, id, msg, stance).0)
  {}

  lemma FinishQueues(c: Conn, id: StreamId)
    requires ConnInv(c)
    ensures Queues(c, Finish(c, id).0)
  {}

  lemma ResetQueues(c: Conn, id: StreamId, code: u32)
    requires ConnInv(c)
    ensures Queues(c, Reset(c, id, code).0)
  {}

  lemma TakeQueues(c: Conn, id: StreamId)
    requires ConnInv(c)
    ensures Queues(c, RecvMsg(c, id).0)
  {}

  lemma SetClassQueues(c: Conn, id: StreamId, cl: Class)
    ensures Queues(c, SetClass(c, id, cl).0)
  {}

  lemma FireStepHs(x: Solo, now: int, e: Expired, v: bool)
    requires HsInv(x) && ConnInv(x.c) && x.c.closed.None? && x.c.timers.Expiry(now) == Some(e)
    ensures var c1 := Fire(x.c, now, e, v); HsInv(x.(c := c1)) && (c1.closed.None? ==> ConnInv(c1))
  {
    var c1 := Fire(x.c, now, e, v);
    FireHs(x.c, now, e, v);
    hide *;
    if c1.closed.Some? { EndsHs(x, x.(c := c1)); } else { QueuesHs(x, x.(c := c1)); }
  }

  lemma {:induction false} TimeoutHs(x: Solo, now: int, v: bool)
    requires HsInv(x) && x.c.timers.LoopSafe() && (x.c.closed.None? ==> ConnInv(x.c))
    ensures HsInv(x.(c := TimeoutLoop(x.c, now, v)))
    decreases Pending(x.c, now)
  {
    var c := x.c;
    if c.closed.None? && c.timers.Expiry(now).Some? {
      FireSafe(c, now, v);
      hide HsInv, ConnInv, Fire, TimerState.Expiry, TimerState.LoopSafe, Pending;
      FireStepHs(x, now, c.timers.Expiry(now).value, v);
      TimeoutHs(x.(c := Fire(c, now, c.timers.Expiry(now).value, v)), now, v);
    }
  }

  lemma HsIgnoresLog(x: Solo, x': Solo)
    requires HsInv(x) && x'.c == x.c && x'.sent == x.sent
    ensures HsInv(x')
  {}

  lemma FireHs(c: Conn, now: int, e: Expired, v: bool)
    requires c.closed.None? && c.timers.Expiry(now) == Some(e) && ConnInv(c)
    ensures var c1 := Fire(c, now, e, v);
            if c1.closed.Some? then Departs(c, c1) else Queues(c, c1) && ConnInv(c1)
  {
    match e
    case Handshake => CloseDeparts(c, CloseReason(CloseCode.Timeout, ""), true);
    case Idle => CloseDeparts(c, CloseReason(CloseCode.Timeout, ""), true);
    case Reverify => CloseDeparts(c.(timers := c.timers.Rearm(now)), CloseReason(KeyRevoked, ""), true);
    case Ping_ =>
  }

  // ---------------------------------------------------------------- transmit

  lemma TransmitHs(x: Solo, pick: Option<Pick>)
    requires HsInv(x) && ConnInv(x.c) && (x.c.priority != [] || PickOk(x.c, pick)) && Transmit(x.c, pick).1.Some?
    ensures HsInv(Emit(x, Transmit(x.c, pick).0, Transmit(x.c, pick).1.value))
  {
    if x.c.priority != [] {
      SendPriorityHs(x);
    } else if pick == Some(PickControl) {
      SendControlHs(x);
    } else {
      hide HsInv, ConnInv;
      SendDataHs(x, pick.value.id);
    }
  }

  lemma SendPriorityHs(x: Solo)
    requires HsInv(x) && x.c.priority != []
    ensures HsInv(Emit(x, x.c.(priority := x.c.priority[1..]), x.c.priority[0]))
  {
    var x' := Emit(x, x.c.(priority := x.c.priority[1..]), x.c.priority[0]);
    assert x.c.priority == [x.c.priority[0]] + x.c.priority[1..];
    assert Frames(x') == Frames(x);
  }

  lemma SendControlHs(x: Solo)
    requires HsInv(x) && ConnInv(x.c) && x.c.priority == [] && x.c.control != []
    ensures HsInv(Emit(x, TransmitControl(x.c), x.c.control[0]))
  {
    var f, c' := x.c.control[0], TransmitControl(x.c);
    assert c'.control == x.c.control[1..] && SameHs(x.c, c') && c'.closed == x.c.closed && c'.priority == [];
    assert ControlOk(f);
    hide ConnInv, TransmitControl, ControlOk;
    var x' := Emit(x, c', f);
    assert x.c.control == [f] + x.c.control[1..];
    assert Frames(x') == Frames(x);
  }

  lemma SendDataHs(x: Solo, id: StreamId)
    requires HsInv(x) && ConnInv(x.c) && x.c.priority == [] && id in x.c.streams && x.c.streams[id].outbox != []
    ensures HsInv(Emit(x, TransmitData(x.c, id), Frame(id, Data(x.c.streams[id].outbox[0]))))
  {
    var c, c', f := x.c, TransmitData(x.c, id), Frame(id, Data(x.c.streams[id].outbox[0]));
    var x1 := x.(sent := x.sent + [f]);
    var st := HStart(c.role);
    assert Frames(x) == x.sent + c.control;
    HRunAppend(st, x.sent, c.control);
    var mid := HRun(st, x.sent);
    if mid == Over || mid == Wrong { HRunEnd(mid, c.control); }
    ControlNeedsTraffic(mid, c.control);
    assert mid == Traffic;
    HRunOne(st, x.sent, f);
    assert Frames(x1) == (x.sent + [f]) + c.control;
    HRunAppend(st, x.sent + [f], c.control);
    assert HsInv(x1);
    SendDataQueues(c, id);
    QueuesHs(x1, Emit(x, c', f));
  }

  lemma SendDataQueues(c: Conn, id: StreamId)
    requires ConnInv(c) && id in c.streams && c.streams[id].outbox != []
    ensures Queues(c, TransmitData(c, id))
  {}

  /** Control frames are only in order during traffic. */
  lemma ControlNeedsTraffic(ph: HPhase, fs: seq<Frame>)
    requires forall i | 0 <= i < |fs| :: ControlOk(fs[i])
    requires HRun(ph, fs) == Traffic
    ensures ph == Traffic
  {
    if fs != [] {
      assert ControlOk(fs[0]);
      if ph != Traffic {
        HRunEnd(Wrong, fs[1..]);
      }
    }
  }

  // ----------------------------------------------------------------- receive

  lemma ChallengeHs(x: Solo, b: Body, o: Oracle)
    requires HsInv(x) && ConnInv(x.c) && x.c.closed.None? && OnChallenge(x.c, b, o).Ok?
    ensures HsInv(With(x, OnChallenge(x.c, b, o).value))
  {
    var c, c' := x.c, OnChallenge(x.c, b, o).value;
    var x' := With(x, c');
    match o.signature
    case Err(text) => EndsHs(x, x');
    case Ok(sig) =>
      var f := Frame(0, Hello(MAX_VERSION, c.role.key, o.nonceC, sig));
      assert Frames(x') == Frames(x) + [f];
      HRunOne(HStart(c.role), Frames(x), f);
  }

  lemma HelloHs(env: Env, x: Solo, b: Body, o: Oracle)
    requires HsInv(x) && ConnInv(x.c) && x.c.closed.None? && OnHello(env, x.c, b, o).Ok?
    ensures HsInv(With(x, OnHello(env, x.c, b, o).value))
  {
    var c' := OnHello(env, x.c, b, o).value;
    var x' := With(x, c');
    if c'.closed.Some? {
      RejectEnds(env, x.c, b, o);
      hide HsInv, ConnInv, OnHello, Departs;
      EndsHs(x, x');
    } else {
      assert c' == FinishHandshake(PushPriority(x.c, Welcome(Negotiate(b.version).value, x.c.role.params)),
                                   Negotiate(b.version).value, x.c.role.params, b.key);
      hide OnHello;
      WelcomedHs(x, c', Negotiate(b.version).value, b.key);
    }
  }

  lemma RejectEnds(env: Env, c: Conn, b: Body, o: Oracle)
    requires ConnInv(c) && c.closed.None? && OnHello(env, c, b, o).Ok? && OnHello(env, c, b, o).value.closed.Some?
    ensures Departs(c, OnHello(env, c, b, o).value)
  {}

  lemma WelcomedHs(x: Solo, c': Conn, v: nat, key: KeyId)
    requires HsInv(x) && ConnInv(x.c) && x.c.closed.None? && x.c.role.Server? && x.c.hs == ChallengeSent
    requires MIN_VERSION <= v <= MAX_VERSION
    requires c' == FinishHandshake(PushPriority(x.c, Welcome(v, x.c.role.params)), v, x.c.role.params, key)
    ensures HsInv(With(x, c'))
  {
    var f, x' := Frame(0, Welcome(v, x.c.role.params)), With(x, c');
    assert Frames(x') == Frames(x) + [f];
    HRunOne(HStart(x.c.role), Frames(x), f);
  }

  lemma WelcomeHs(x: Solo, b: Body)
    requires HsInv(x) && ConnInv(x.c) && x.c.closed.None? && OnWelcome(x.c, b).Ok?
    ensures HsInv(With(x, OnWelcome(x.c, b).value))
  {
    assert Frames(With(x, OnWelcome(x.c, b).value)) == Frames(x);
  }

  lemma StreamFrameQueues(env: Env, c: Conn, f: Frame, o: Oracle)
    requires f.id != 0 && Dispatch(env, c, f, o).Ok? && ConnInv(c) && c.closed.None?
    ensures Queues(c, Dispatch(env, c, f, o).value)
  {
    match TypeOf(f.body)
    case TData => DataQueues(env, c, f.id, f.body);
    case TFin => FinQueues(c, f.id);
    case _ =>
  }

  lemma DataQueues(env: Env, c: Conn, id: StreamId, b: Body)
    requires OnData(env, c, id, b).Ok?
    ensures Queues(c, OnData(env, c, id, b).value)
  {}

  lemma FinQueues(c: Conn, id: StreamId)
    requires OnFin(c, id).Ok?
    ensures Queues(c, OnFin(c, id).value)
  {}

  lemma ConnFrameHs(env: Env, x: Solo, f: Frame, o: Oracle)
    requires HsInv(x) && ConnInv(x.c) && x.c.closed.None? && f.id == 0 && Dispatch(env, x.c, f, o).Ok?
    ensures HsInv(With(x, Dispatch(env, x.c, f, o).value))
  {
    match TypeOf(f.body)
    case TChallenge => ChallengeHs(x, f.body, o);
    case THello => HelloHs(env, x, f.body, o);
    case TWelcome => WelcomeHs(x, f.body);
    case TReject => EndsHs(x, With(x, OnReject(x.c, f.body).value));
    case TGoaway => EndsHs(x, With(x, CloseInternal(x.c, f.body.reason, false)));
    case TPing => QueuesHs(x, With(x, OnPing(x.c, f.body).value));
    case TPong => QueuesHs(x, With(x, OnPong(x.c, f.body).value));
    case _ =>
  }

  lemma FramedHs(env: Env, x: Solo, f: Frame, o: Oracle)
    requires HsInv(x) && ConnInv(x.c) && x.c.closed.None? && Dispatch(env, x.c, f, o).Ok?
    ensures HsInv(With(x, Dispatch(env, x.c, f, o).value))
  {
    hide HsInv, ConnInv, Dispatch;
    if f.id == 0 {
      ConnFrameHs(env, x, f, o);
    } else {
      StreamFrameQueues(env, x.c, f, o);
      QueuesHs(x, With(x, Dispatch(env, x.c, f, o).value));
    }
  }

  lemma FailHs(env: Env, x: Solo, t: TimerState, e: ProtocolError, x': Solo)
    requires HsInv(x) && x.c.closed.None? && x'.sent == x.sent
    requires x'.c == Fail(env, x.c.(timers := t), e).0
    ensures HsInv(x')
  { EndsHs(x, x'); }

  /** The timers a frame leaves. */
  function Observed(c: Conn, now: int): Conn { c.(timers := c.timers.Observe(now)) }
  function Received(c: Conn, now: int): Conn {
    var t := c.timers.Observe(now);
    c.(timers := t.OnRecv(t.lastNow))
  }
  function BadInput(input: Input): ProtocolError
    requires !input.Framed?
  { if input.Short? then Truncated(input.len) else UnknownFrameType(input.code) }

  /** What `recv` amounts to, case by case. */
  lemma RecvCases(env: Env, c: Conn, now: int, input: Input, o: Oracle)
    ensures var c' := Recv(env, c, now, input, o).0;
            if c.closed.Some? then c' == Observed(c, now)
            else if !input.Framed? then c' == Fail(env, Observed(c, now), BadInput(input)).0
            else match Dispatch(env, Received(c, now), input.frame, o)
                 case Ok(c3) => c' == c3
                 case Err(e) => c' == Fail(env, Received(c, now), e).0
  { hide Dispatch, Fail; }

  lemma ObservedHs(x: Solo, now: int)
    requires HsInv(x) && ConnInv(x.c)
    ensures HsInv(x.(c := Observed(x.c, now))) && HsInv(x.(c := Received(x.c, now))) && ConnInv(Received(x.c, now))
    ensures Received(x.c, now).closed == x.c.closed
  {
    QuietTimers(x, Observed(x.c, now));
    QuietTimers(x, Received(x.c, now));
  }

  lemma QuietTimers(x: Solo, c': Conn)
    requires HsInv(x) && c' == x.c.(timers := c'.timers)
    ensures HsInv(x.(c := c'))
  { QueuesHs(x, x.(c := c')); }

  lemma RecvHs(env: Env, x: Solo, now: int, input: Input, o: Oracle)
    requires HsInv(x) && ConnInv(x.c)
    ensures HsInv(With(x, Recv(env, x.c, now, input, o).0))
  {
    hide *;
    var c' := Recv(env, x.c, now, input, o).0;
    RecvCases(env, x.c, now, input, o);
    ObservedHs(x, now);
    WithHas(x, c');
    if x.c.closed.Some? {
      HsIgnoresLog(x.(c := Observed(x.c, now)), With(x, c'));
    } else if !input.Framed? {
      FailHs(env, x, Observed(x.c, now).timers, BadInput(input), With(x, c')) by { ObservedTimers(x.c, now); }
    } else {
      var x2, r := x.(c := Received(x.c, now)), Dispatch(env, Received(x.c, now), input.frame, o);
      if r.Ok? {
        FramedHs(env, x2, input.frame, o);
        WithHas(x2, r.value);
        HsIgnoresLog(With(x2, r.value), With(x, c'));
      } else {
        FailHs(env, x, Received(x.c, now).timers, r.error, With(x, c')) by { ObservedTimers(x.c, now); }
      }
    }
  }

  lemma ObservedTimers(c: Conn, now: int)
    ensures Observed(c, now) == c.(timers := Observed(c, now).timers)
    ensures Received(c, now) == c.(timers := Received(c, now).timers)
  {}

  lemma WithHas(x: Solo, c': Conn)
    ensures With(x, c').c == c' && With(x, c').sent == x.sent
  {}

  lemma CloseHs(x: Solo, reason: CloseReason)
    requires HsInv(x)
    ensures HsInv(With(x, CloseInternal(x.c, reason, true)))
  {
    if x.c.closed.None? {
      CloseDeparts(x.c, reason, true);
      EndsHs(x, With(x, CloseInternal(x.c, reason, true)));
    }
  }

  lemma HandleTimeoutHs(x: Solo, now: int, v: bool)
    requires HsInv(x) && ConnInv(x.c) && x.c.timers.LoopSafe()
    ensures HsInv(With(x, HandleTimeout(x.c, now, v)))
  {
    var x1 := x.(c := x.c.(timers := x.c.timers.Observe(now)));
    QueuesHs(x, x1);
    assert ConnInv(x1.c);
    hide HsInv, ConnInv;
    TimeoutHs(x1, x1.c.timers.lastNow, v);
    HsIgnoresLog(x1.(c := TimeoutLoop(x1.c, x1.c.timers.lastNow, v)), With(x, HandleTimeout(x.c, now, v)));
  }

  /** Every call and every frame keeps the order. */
  lemma StepHs(env: Env, x: Solo, a: Act)
    requires HsInv(x) && ConnInv(x.c)
    ensures HsInv(Step(env, x, a).0)
  {
    hide HsInv, ConnInv;
    match a
    case AClose(reason) => CloseHs(x, reason);
    case ATimeout(now, v) => if x.c.timers.LoopSafe() { HandleTimeoutHs(x, now, v); }
    case ATransmit(pick) =>
      if x.c.priority != [] || PickOk(x.c, pick) {
        if Transmit(x.c, pick).1.Some? { TransmitHs(x, pick); } else { HsIgnoresLog(x, With(x, x.c)); }
      }
    case ARecv(now, input, o) => RecvHs(env, x, now, input, o);
    case _ =>
      CallQueues(env, x, a);
      QueuesHs(x, Step(env, x, a).0);
  }

  // ---------------------------------------------- what the other end waits for

  /** The connection frame an open end expects is one it accepts, and it then
      expects what comes next. */
  lemma ExpectedAccepted(env: Env, c: Conn, f: Frame, o: Oracle)
    requires ConnInv(c) && c.closed.None? && f.id == 0 && HNext(HWant(c), f) != Wrong
    requires f.body.Welcome? ==> MIN_VERSION <= f.body.chosen <= MAX_VERSION && ParamsOk(f.body.params)
    ensures var r := Dispatch(env, c, f, o);
            r.Ok? && (r.value.closed.None? ==> HWant(r.value) == HNext(HWant(c), f))
  {}
}
