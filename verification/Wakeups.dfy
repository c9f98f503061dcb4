/** Free credit of one stream over a run, and who is told about it. Nothing here
    depends on the peer. */
module Wakeups {
  import opened MuxTypes
  import opened Fragments
  import opened Flow
  import opened Streams
  import opened Timing
  import opened Conn
  import opened Ends
  import opened SoloRun
  import opened Hostile
  import opened Runs
  import Handshake
  import Peers
  import Delivery

  /** The WINDOW_UPDATE for stream `id` in an input, if it is one. */
  predicate IsGrant(a: Act, id: StreamId) {
    a.ARecv? && a.input.Framed? && a.input.frame.id == id && a.input.frame.body.WindowUpdate?
  }

  /** How one call may change the sending side of a stream it keeps. */
  predicate CreditStep(a: Act, id: StreamId, s: Stream, t: Stream) {
    if IsGrant(a, id) then t == Granted(s, a.input.frame.body.credit).0
    else if a.ASend? && a.id == id then t.FreeCredit() <= s.FreeCredit() && (s.wantsWritable ==> t.wantsWritable)
    else t.FreeCredit() == s.FreeCredit() && t.wantsWritable == s.wantsWritable
  }

  /** The length of the DATA payload for stream `id` in an input, if it is one. */
  function DataLen(a: Act, id: StreamId): Option<nat> {
    if a.ARecv? && a.input.Framed? && a.input.frame.id == id && a.input.frame.body.Data?
    then Some(|a.input.frame.body.payload|) else None
  }

  /** How one call may change the inbox of a stream it keeps: the front message
      goes, or a DATA frame completes one that costs at least its own length. */
  predicate InboxStep(a: Act, id: StreamId, s: Stream, t: Stream) {
    || t.inbox == s.inbox
    || (s.inbox != [] && t.inbox == s.inbox[1..])
    || (DataLen(a, id).Some? && DataLen(a, id).value > 0 && |t.inbox| == |s.inbox| + 1 && t.inbox[..|s.inbox|] == s.inbox
        && t.inbox[|s.inbox|].1 >= AsU32(DataLen(a, id).value))
  }

  /** Streams are never reopened, start empty, and change only as above. */
  predicate EndStep(a: Act, id: StreamId, e: End, v: End) {
    && (e.known ==> v.known)
    && (e.known && e.st.None? ==> v.st.None?)
    && (!e.known && e.st.None? && v.st.Some? ==> v.st.value.inbox == [])
    && (e.st.Some? && v.st.Some? ==> CreditStep(a, id, e.st.value, v.st.value) && InboxStep(a, id, e.st.value, v.st.value))
  }

  lemma SendStep(env: Env, x: Solo, a: Act, id: StreamId)
    requires a.ASend?
    ensures EndStep(a, id, View(x, 0, id), View(Step(env, x, a).0, 0, id))
  {
    var e, v := View(x, 0, id), View(Sent(env, x, a.id, a.msg, a.stance), 0, id);
    assert Step(env, x, a).0 == Sent(env, x, a.id, a.msg, a.stance);
    SentView(env, x, a.id, a.msg, a.stance, 0, id);
    hide EndStep, Send, Sent, View, Step, DoSend, Fragment;
    if v == e {
      SameStep(a, id, e);
    } else if Send(env, x.c, a.id, a.msg, a.stance).1.None? {
      var stance := if x.c.P().compressionAllowed then a.stance else Never;
      SendMoves(a, id, e, Fragment(env, stance, e.st.value.class_, a.msg, x.c.P().maxFrame), v.st.value.class_);
    } else {
      WantMoves(a, id, e);
    }
  }

  lemma SendMoves(a: Act, id: StreamId, e: End, ps: seq<Bytes>, class_: Class)
    requires a.ASend? && a.id == id && e.st.Some?
    ensures EndStep(a, id, e, DoSend(e, a.msg, ps, class_))
  {}

  lemma WantMoves(a: Act, id: StreamId, e: End)
    requires a.ASend? && a.id == id && e.st.Some?
    ensures EndStep(a, id, e, e.(st := Some(e.st.value.(wantsWritable := true))))
  {}

  lemma SameStep(a: Act, id: StreamId, e: End)
    requires !IsGrant(a, id)
    ensures EndStep(a, id, e, e)
  {}

  lemma TakeMoves(a: Act, id: StreamId, e: End)
    requires !IsGrant(a, id) && !a.ASend? && e.st.Some? && e.st.value.inbox != []
    ensures EndStep(a, id, e, DoTake(e))
  {
    hide Take, DoTake;
    TakeFields(e.st.value);
    TakeShape(e);
  }

  lemma TakeShape(e: End)
    requires e.st.Some? && e.st.value.inbox != []
    ensures var v := DoTake(e);
            v.known == e.known && (v.st.Some? ==> v.st.value == Take(e.st.value).0)
  { hide Take; }

  lemma TakeFields(s: Stream)
    requires s.inbox != []
    ensures var t := Take(s).0;
            && t.inbox == s.inbox[1..] && t.send == s.send && t.outboxBytes == s.outboxBytes
            && t.wantsWritable == s.wantsWritable
  {}

  lemma TakeStep(env: Env, x: Solo, a: Act, id: StreamId)
    requires a.ATake?
    ensures EndStep(a, id, View(x, 0, id), View(Step(env, x, a).0, 0, id))
  {
    TakeStepView(env, x, a, id);
    hide *;
    if a.id == id && RecvMsg(x.c, a.id).1.Ok? { TakeMoves(a, id, View(x, 0, id)); } else { SameStep(a, id, View(x, 0, id)); }
  }

  lemma TakeStepView(env: Env, x: Solo, a: Act, id: StreamId)
    requires a.ATake?
    ensures var (e, mine) := (View(x, 0, id), a.id == id && RecvMsg(x.c, a.id).1.Ok?);
            && (mine ==> e.st.Some? && e.st.value.inbox != [])
            && View(Step(env, x, a).0, 0, id) == if mine then DoTake(e) else e
  {
    hide Take, DoTake;
    var x', c' := Step(env, x, a).0, RecvMsg(x.c, a.id).0;
    TakeView(x, a.id, 0, id);
    assert View(x', 0, id) == View(With(x, c'), 0, id).(delivered := Get(x'.delivered, id));
  }

  lemma ControlMoves(a: Act, id: StreamId, e: End)
    requires a.ATransmit? && e.ctl != []
    ensures EndStep(a, id, e, DoSendControl(e))
  {}

  lemma DataMoves(p: Params, a: Act, id: StreamId, e: End)
    requires a.ATransmit? && EndOk(p, e) && e.st.Some? && e.st.value.outbox != []
    ensures EndStep(a, id, e, DoSendData(e))
  {
    var s := e.st.value;
    PopOutboxInv(p, s);
    assert PopOutbox(s).wantsWritable == s.wantsWritable;
    hide StreamInv, PopOutbox, Run, NoData;
    assert DoSendData(e).st.Some? ==> DoSendData(e).st.value == PopOutbox(s);
  }

  lemma TransmitStep(env: Env, x: Solo, a: Act, id: StreamId)
    requires a.ATransmit? && SoloInv(x) && id != 0
    ensures EndStep(a, id, View(x, 0, id), View(Step(env, x, a).0, 0, id))
  {
    var e, x', f := View(x, 0, id), Step(env, x, a).0, Transmit(x.c, a.pick).1;
    assert EndOk(x.c.P(), e) && ConnInv(x.c);
    hide SoloInv, EndOk, EndStep, DoSendData, DoSendControl;
    SameStep(a, id, e);
    if e.ctl != [] { ControlMoves(a, id, e); }
    if e.st.Some? && e.st.value.outbox != [] { DataMoves(x.c.P(), a, id, e); }
    if (x.c.priority != [] || PickOk(x.c, a.pick)) && f.Some? {
      TransmitView(x, a.pick, 0, id);
      assert x' == Emit(x, Transmit(x.c, a.pick).0, f.value);
    } else {
      NothingSent(env, x, a.pick, id);
    }
  }

  lemma NothingSent(env: Env, x: Solo, pick: Option<Pick>, id: StreamId)
    requires (x.c.priority == [] && !PickOk(x.c, pick)) || Transmit(x.c, pick).1.None?
    ensures View(Step(env, x, ATransmit(pick)).0, 0, id) == View(x, 0, id)
  { NewEventsIs(x.c, x.c, []); }

  lemma ShapeStep(env: Env, x: Solo, c': Conn, a: Act, id: StreamId)
    requires (Quiet(x.c, c') || Ended(x.c, c')) && id != 0 && !IsGrant(a, id) && !a.ASend?
    ensures EndStep(a, id, View(x, 0, id), View(With(x, c'), 0, id))
  {
    if Quiet(x.c, c') { QuietView(x, c', 0, id); } else { EndedView(x, c', 0, id); }
  }

  lemma ReceiveMoves(env: Env, p: Params, a: Act, id: StreamId, e: End, b: Body)
    requires a.ARecv? && a.input == Framed(Frame(id, b)) && (b.Open? ==> !e.known && e.st.None?) && !e.closed
    requires b.Data? ==> |b.payload| > 0
    ensures EndStep(a, id, e, DoReceive(env, p, e, b))
  {
    match TypeOf(b)
    case TData => DataReceived(env, p, a, id, e, b);
    case TWindowUpdate => UpdateReceived(env, p, a, id, e, b);
    case _ => OtherReceived(env, p, a, id, e, b);
    hide *;
  }

  lemma UpdateReceived(env: Env, p: Params, a: Act, id: StreamId, e: End, b: Body)
    requires a.ARecv? && a.input == Framed(Frame(id, b)) && TypeOf(b) == TWindowUpdate && !e.closed
    ensures EndStep(a, id, e, DoReceive(env, p, e, b))
  {}

  lemma OtherReceived(env: Env, p: Params, a: Act, id: StreamId, e: End, b: Body)
    requires a.ARecv? && a.input == Framed(Frame(id, b)) && TypeOf(b) != TData && TypeOf(b) != TWindowUpdate
    requires b.Open? ==> !e.known && e.st.None?
    ensures EndStep(a, id, e, DoReceive(env, p, e, b))
  {}

  lemma DataReceived(env: Env, p: Params, a: Act, id: StreamId, e: End, b: Body)
    requires a.ARecv? && a.input == Framed(Frame(id, b)) && TypeOf(b) == TData && (b.Data? ==> |b.payload| > 0)
    ensures EndStep(a, id, e, DoReceive(env, p, e, b))
  {}

  /** A DATA frame without a flag byte is refused. */
  lemma NotEmpty(env: Env, c: Conn, f: Frame, o: Oracle)
    requires f.id != 0 && Dispatch(env, c, f, o).Ok?
    ensures f.body.Data? ==> |f.body.payload| > 0
  {}

  lemma DispatchStep(env: Env, x: Solo, a: Act, f: Frame, o: Oracle, id: StreamId)
    requires SoloInv(x) && x.c.closed.None? && id != 0 && a.ARecv? && a.input == Framed(f)
    requires Dispatch(env, x.c, f, o).Ok?
    ensures EndStep(a, id, View(x, 0, id), View(With(x, Dispatch(env, x.c, f, o).value), 0, id))
    ensures x.c.events <= Dispatch(env, x.c, f, o).value.events
  {
    var e := View(x, 0, id);
    assert ConnInv(x.c) && EndOk(x.c.P(), e) && (f.id != 0 ==> EndOk(x.c.P(), View(x, 0, f.id)));
    assert !e.known ==> e.st.None?;
    hide SoloInv, EndOk, ConnInv, DoReceive, Dispatch;
    if f.id == 0 {
      Delivery.ConnShape(env, x.c, f, o);
      ShapeStep(env, x, Dispatch(env, x.c, f, o).value, a, id);
    } else {
      ReceiveView(env, x, f, o, 0, id);
      StreamFrameRest(env, x, f, o);
      NotEmpty(env, x.c, f, o);
      if id == f.id { ReceiveMoves(env, x.c.P(), a, id, e, f.body); }
    }
  }

  /** The announcement of a grant. */
  predicate Tells(x: Solo, x': Solo, a: Act, id: StreamId) {
    IsGrant(a, id) && id in x.c.streams && id in x'.c.streams && x.c.streams[id].wantsWritable
      && x'.c.streams[id].FreeCredit() > 0
    ==> x'.elog == x.elog + [Writable(id, x'.c.streams[id].FreeCredit())]
  }

  lemma GrantTells(env: Env, x: Solo, a: Act, f: Frame, o: Oracle, id: StreamId)
    requires x.c.closed.None? && id != 0 && a.ARecv? && a.input == Framed(f)
    requires Dispatch(env, x.c, f, o).Ok?
    ensures Tells(x, With(x, Dispatch(env, x.c, f, o).value), a, id)
  {
    var c' := Dispatch(env, x.c, f, o).value;
    if IsGrant(a, id) && id in x.c.streams && id in c'.streams {
      assert OnWindowUpdate(x.c, id, f.body) == Ok(c');
      NewEventsIs(x.c, c', c'.events[|x.c.events|..]);
    }
  }

  lemma EndedStep(env: Env, x: Solo, t: TimerState, reason: CloseReason, a: Act, id: StreamId)
    requires x.c.closed.None? && id != 0
    ensures var x' := With(x, CloseInternal(x.c.(timers := t), reason, true));
            EndStep(a, id, View(x, 0, id), View(x', 0, id)) && x'.c.streams == map[]
  {
    CloseAnnounces(x.c, x.c.(timers := t), [], reason, true);
    EndedView(x, CloseInternal(x.c.(timers := t), reason, true), 0, id);
  }

  lemma RecvStep(env: Env, x: Solo, a: Act, id: StreamId)
    requires SoloInv(x) && id != 0 && a.ARecv?
    ensures var x' := Step(env, x, a).0;
            EndStep(a, id, View(x, 0, id), View(x', 0, id)) && Tells(x, x', a, id)
  {
    if x.c.closed.Some? {
      assert ConnInv(x.c);
      ClosedStep(env, x, a, id);
    } else if a.input.Framed? {
      FramedStep(env, x, a, a.input.frame, id);
    } else {
      BadInputStep(env, x, a, id);
    }
  }

  lemma ClosedStep(env: Env, x: Solo, a: Act, id: StreamId)
    requires ConnInv(x.c) && x.c.closed.Some? && a.ARecv?
    ensures var x' := Step(env, x, a).0;
            EndStep(a, id, View(x, 0, id), View(x', 0, id)) && Tells(x, x', a, id)
  {
    assert View(Step(env, x, a).0, 0, id) == View(x, 0, id) && View(x, 0, id).st.None?;
  }

  lemma BadInputStep(env: Env, x: Solo, a: Act, id: StreamId)
    requires x.c.closed.None? && a.ARecv? && !a.input.Framed? && id != 0
    ensures var x' := Step(env, x, a).0;
            EndStep(a, id, View(x, 0, id), View(x', 0, id)) && Tells(x, x', a, id)
  {
    var e := if a.input.Short? then Truncated(a.input.len) else UnknownFrameType(a.input.code);
    var t, why := x.c.timers.Observe(a.now), CloseReason(Protocol, env.describe(e));
    assert Step(env, x, a).0 == With(x, CloseInternal(x.c.(timers := t), why, true));
    hide *;
    EndedStep(env, x, t, why, a, id);
    ToldNothing(x, Step(env, x, a).0, a, id);
  }

  lemma FramedStep(env: Env, x: Solo, a: Act, f: Frame, id: StreamId)
    requires SoloInv(x) && id != 0 && a.ARecv? && a.input == Framed(f) && x.c.closed.None?
    ensures var x' := Step(env, x, a).0;
            EndStep(a, id, View(x, 0, id), View(x', 0, id)) && Tells(x, x', a, id)
  {
    var x2, x' := x.(c := Handshake.Received(x.c, a.now)), Step(env, x, a).0;
    var r := Dispatch(env, x2.c, f, a.oracle);
    Handshake.RecvCases(env, x.c, a.now, a.input, a.oracle);
    ReceivedView(x, a.now, id);
    if r.Err? {
      var why := CloseReason(Protocol, env.describe(r.error));
      assert x' == With(x, CloseInternal(x2.c, why, true));
      hide *;
      EndedStep(env, x, x2.c.timers, why, a, id) by { Handshake.ObservedTimers(x.c, a.now); }
      Handshake.ObservedTimers(x.c, a.now);
      ToldNothing(x, x', a, id);
    } else {
      var c3 := r.value;
      assert x' == With(x, c3) && With(x, c3) == With(x2, c3) && x2.c.closed.None?;
      TimersKeep(x, x2.c.timers);
      hide *;
      Handshake.ObservedTimers(x.c, a.now);
      DispatchStep(env, x2, a, f, a.oracle, id);
      GrantTells(env, x2, a, f, a.oracle, id);
      SameStreams(x, x2, x', a, id);
    }
  }

  lemma ReceivedView(x: Solo, now: int, id: StreamId)
    ensures View(x.(c := Handshake.Received(x.c, now)), 0, id) == View(x, 0, id)
  {}

  lemma SameStreams(x: Solo, x2: Solo, x': Solo, a: Act, id: StreamId)
    requires x2 == x.(c := x2.c) && x2.c.streams == x.c.streams && Tells(x2, x', a, id)
    ensures Tells(x, x', a, id)
  {}

  lemma ToldNothing(x: Solo, x': Solo, a: Act, id: StreamId)
    requires x'.c.streams == map[]
    ensures Tells(x, x', a, id)
  {}

  lemma OtherStep(env: Env, x: Solo, a: Act, id: StreamId)
    requires SoloInv(x) && id != 0 && !a.ARecv?
    ensures EndStep(a, id, View(x, 0, id), View(Step(env, x, a).0, 0, id))
  {
    assert ConnInv(x.c);
    hide *;
    match a
    case AOpen(_) => OpenStep(env, x, a, id);
    case ASend(_, _, _) => SendStep(env, x, a, id);
    case AFinish(_) => FinishStep(env, x, a, id);
    case AReset(_, _) => ResetStep(env, x, a, id);
    case ATake(_) => TakeStep(env, x, a, id);
    case ASetClass(_, _) => SetClassStep(env, x, a, id);
    case AClose(_) => CloseStep(env, x, a, id);
    case ATimeout(_, _) => TimeoutStep(env, x, a, id);
    case ATransmit(_) => TransmitStep(env, x, a, id);
    case APoll => PollStep(env, x, a, id);
  }

  lemma CloseStep(env: Env, x: Solo, a: Act, id: StreamId)
    requires a.AClose? && id != 0
    ensures EndStep(a, id, View(x, 0, id), View(Step(env, x, a).0, 0, id))
  {
    hide CloseInternal, EndStep, View;
    Peers.CloseQuiet(x.c, a.reason);
    ShapeStep(env, x, CloseInternal(x.c, a.reason, true), a, id);
  }

  lemma TimeoutStep(env: Env, x: Solo, a: Act, id: StreamId)
    requires a.ATimeout? && id != 0 && ConnInv(x.c)
    ensures EndStep(a, id, View(x, 0, id), View(Step(env, x, a).0, 0, id))
  {
    hide ConnInv, EndStep, HandleTimeout, View;
    if x.c.timers.LoopSafe() {
      Peers.TimeoutQuiet(x.c, a.now, a.stillValid);
      ShapeStep(env, x, HandleTimeout(x.c, a.now, a.stillValid), a, id);
    } else {
      SameStep(a, id, View(x, 0, id));
    }
  }

  lemma PollStep(env: Env, x: Solo, a: Act, id: StreamId)
    requires a.APoll?
    ensures EndStep(a, id, View(x, 0, id), View(Step(env, x, a).0, 0, id))
  {
    hide EndStep;
    SameStep(a, id, View(x, 0, id));
    assert View(Step(env, x, a).0, 0, id) == View(x, 0, id);
  }

  lemma OpenStep(env: Env, x: Solo, a: Act, id: StreamId)
    requires a.AOpen? && ConnInv(x.c)
    ensures EndStep(a, id, View(x, 0, id), View(Step(env, x, a).0, 0, id))
  { OpenView(env, x, a.class_, 0, id); }

  lemma FinishStep(env: Env, x: Solo, a: Act, id: StreamId)
    requires a.AFinish?
    ensures EndStep(a, id, View(x, 0, id), View(Step(env, x, a).0, 0, id))
  {
    var e, v := View(x, 0, id), View(With(x, Finish(x.c, a.id).0), 0, id);
    FinishView(x, a.id, 0, id);
    hide EndStep, Finish, View, DoFinish;
    if v == e { SameStep(a, id, e); } else { FinishMoves(a, id, e); }
  }

  lemma FinishMoves(a: Act, id: StreamId, e: End)
    requires a.AFinish? && e.st.Some?
    ensures EndStep(a, id, e, DoFinish(e))
  {}

  lemma ResetStep(env: Env, x: Solo, a: Act, id: StreamId)
    requires a.AReset?
    ensures EndStep(a, id, View(x, 0, id), View(Step(env, x, a).0, 0, id))
  { ResetView(x, a.id, a.code, 0, id); }

  lemma SetClassStep(env: Env, x: Solo, a: Act, id: StreamId)
    requires a.ASetClass?
    ensures EndStep(a, id, View(x, 0, id), View(Step(env, x, a).0, 0, id))
  { SetClassView(x, a.id, a.class_, 0, id); }

  // ------------------------------------------------------------- what is told

  lemma StepStep(env: Env, x: Solo, a: Act, id: StreamId)
    requires SoloInv(x) && id != 0
    ensures EndStep(a, id, View(x, 0, id), View(Step(env, x, a).0, 0, id))
    ensures Tells(x, Step(env, x, a).0, a, id)
  {
    if a.ARecv? { RecvStep(env, x, a, id); } else { OtherStep(env, x, a, id); }
  }

  lemma LogGrows(env: Env, x: Solo, a: Act)
    ensures x.elog <= Step(env, x, a).0.elog
  {}

  lemma {:induction false} RunLogGrows(env: Env, x: Solo, acts: seq<Act>)
    ensures x.elog <= Exec(env, x, acts).elog
    decreases |acts|
  {
    if acts != [] {
      hide Step;
      LogGrows(env, x, acts[0]);
      RunLogGrows(env, Step(env, x, acts[0]).0, acts[1..]);
    }
  }

  /** A stream's free credit changes only when `send` takes a message on it and
      when a WINDOW_UPDATE for it is received; transmission and everything else
      leave it alone. A stream once gone is never tracked again. */
  lemma CreditMovesOnlySo(env: Env, cfg: Config, now: int, nonceS: Bytes, acts: seq<Act>, a: Act, id: StreamId)
    ensures var (x, x') := (After(env, cfg, now, nonceS, acts), Step(env, After(env, cfg, now, nonceS, acts), a).0);
            id in x.c.streams && id in x'.c.streams && x'.c.streams[id].FreeCredit() != x.c.streams[id].FreeCredit()
            ==> IsGrant(a, id) || (a.ASend? && a.id == id && x'.c.streams[id].FreeCredit() < x.c.streams[id].FreeCredit())
  {
    AfterInv(env, cfg, now, nonceS, acts);
    var x := After(env, cfg, now, nonceS, acts);
    assert ConnInv(x.c);
    hide SoloInv, Step;
    if id in x.c.streams { StepStep(env, x, a, id); }
  }

  /** A WINDOW_UPDATE that leaves credit free on a stream whose `send` was refused
      announces `Writable` with exactly that credit. */
  lemma GrantWakes(env: Env, cfg: Config, now: int, nonceS: Bytes, acts: seq<Act>, a: Act, id: StreamId)
    requires IsGrant(a, id)
    ensures var (x, x') := (After(env, cfg, now, nonceS, acts), Step(env, After(env, cfg, now, nonceS, acts), a).0);
            id in x.c.streams && x.c.streams[id].wantsWritable && id in x'.c.streams && x'.c.streams[id].FreeCredit() > 0
            ==> x'.elog == x.elog + [Writable(id, x'.c.streams[id].FreeCredit())]
  {
    AfterInv(env, cfg, now, nonceS, acts);
    var x := After(env, cfg, now, nonceS, acts);
    assert ConnInv(x.c);
    hide SoloInv, Step;
    if id in x.c.streams { StepStep(env, x, a, id); }
  }

  /** `Writable(id, _)` was announced between two logs. */
  predicate Told(before: seq<Event>, log: seq<Event>, id: StreamId) {
    exists i :: |before| <= i < |log| && log[i].Writable? && log[i].id == id
  }

  lemma {:induction false} GoneStays(env: Env, x: Solo, acts: seq<Act>, id: StreamId)
    requires SoloInv(x) && id != 0 && x.c.Known(id) && id !in x.c.streams
    ensures id !in Exec(env, x, acts).c.streams
    decreases |acts|
  {
    if acts != [] {
      hide SoloInv, Step;
      StepStep(env, x, acts[0], id);
      StepKeeps(env, x, acts[0]);
      var x1 := Step(env, x, acts[0]).0;
      ViewKnown(x, id);
      ViewKnown(x1, id);
      GoneStays(env, x1, acts[1..], id);
    }
  }

  lemma ViewKnown(x: Solo, id: StreamId)
    ensures View(x, 0, id).known == x.c.Known(id)
    ensures View(x, 0, id).st == if id in x.c.streams then Some(x.c.streams[id]) else None
  {}

  /** A refused sender is never forgotten: at any later time its stream is gone,
      it is still waiting, or it was told `Writable` since. */
  lemma {:induction false} WaitsUntilTold(env: Env, x: Solo, acts: seq<Act>, id: StreamId)
    requires SoloInv(x) && id in x.c.streams && x.c.streams[id].wantsWritable
    ensures var x' := Exec(env, x, acts);
            id !in x'.c.streams || x'.c.streams[id].wantsWritable || Told(x.elog, x'.elog, id)
    decreases |acts|
  {
    if acts != [] {
      var x1, x' := Step(env, x, acts[0]).0, Exec(env, x, acts);
      assert x' == Exec(env, x1, acts[1..]) && id != 0 by { assert ConnInv(x.c); }
      hide SoloInv, Step, Exec;
      WaitsOneStep(env, x, acts[0], id);
      StepKeeps(env, x, acts[0]);
      RunLogGrows(env, x1, acts[1..]);
      if id !in x1.c.streams {
        GoneStays(env, x1, acts[1..], id);
      } else if x1.c.streams[id].wantsWritable {
        WaitsUntilTold(env, x1, acts[1..], id);
      } else {
        assert x'.elog[|x.elog|] == x1.elog[|x.elog|];
      }
    }
  }

  lemma WaitsOneStep(env: Env, x: Solo, a: Act, id: StreamId)
    requires SoloInv(x) && id in x.c.streams && x.c.streams[id].wantsWritable
    ensures var x1 := Step(env, x, a).0;
            && x.elog <= x1.elog && x1.c.Known(id)
            && (id in x1.c.streams && !x1.c.streams[id].wantsWritable ==>
                |x1.elog| > |x.elog| && x1.elog[|x.elog|].Writable? && x1.elog[|x.elog|].id == id)
  {
    assert ConnInv(x.c) && x.c.Known(id);
    hide SoloInv, Step;
    StepStep(env, x, a, id);
    LogGrows(env, x, a);
    ViewKnown(x, id);
    ViewKnown(Step(env, x, a).0, id);
  }
}
