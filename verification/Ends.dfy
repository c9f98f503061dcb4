/** One stream as one end sees it, with the frames it has sent and its message
    history; and the order in which its frames may leave. */
module Ends {
  import opened MuxTypes
  import opened Fragments
  import opened Streams

  // ------------------------------------------------------------ frame order

  datatype Phase = Init | CanData | AfterFin | AfterRst | Bad

  /** OPEN first, DATA next, then at most one FIN, then at most one RST;
      window updates anywhere between OPEN and RST. */
  function Next(ph: Phase, b: Body): Phase {
    match b
    case Open(_) => if ph == Init then CanData else Bad
    case Data(_) => if ph == CanData then CanData else Bad
    case Fin => if ph == CanData then AfterFin else Bad
    case Rst(_) => if ph == CanData || ph == AfterFin then AfterRst else Bad
    case WindowUpdate(_) => if ph == CanData || ph == AfterFin then ph else Bad
    case _ => Bad
  }

  function Run(ph: Phase, bs: seq<Body>): Phase
    decreases |bs|
  {
    if bs == [] then ph else Run(Next(ph, bs[0]), bs[1..])
  }

  lemma {:induction false} RunAppend(ph: Phase, a: seq<Body>, b: seq<Body>)
    ensures Run(ph, a + b) == Run(Run(ph, a), b)
    decreases |a|
  {
    if a == [] {
      assert a + b == b;
    } else {
      assert (a + b)[0] == a[0] && (a + b)[1..] == a[1..] + b;
      RunAppend(Next(ph, a[0]), a[1..], b);
    }
  }

  lemma {:induction false} RunOne(ph: Phase, a: seq<Body>, b: Body)
    ensures Run(ph, a + [b]) == Next(Run(ph, a), b)
  {
    RunAppend(ph, a, [b]);
    assert Run(Run(ph, a), [b]) == Run(Next(Run(ph, a), b), [b][1..]);
  }

  lemma {:induction false} RunBad(bs: seq<Body>)
    ensures Run(Bad, bs) == Bad
  {
    if bs != [] { RunBad(bs[1..]); }
  }

  predicate NoData(bs: seq<Body>) { forall i | 0 <= i < |bs| :: !bs[i].Data? }

  /** Phases only move forward. */
  function Rank(ph: Phase): nat {
    match ph case Init => 0 case CanData => 1 case AfterFin => 2 case AfterRst => 3 case Bad => 4
  }

  lemma {:induction false} RunForward(ph: Phase, bs: seq<Body>)
    ensures Rank(Run(ph, bs)) >= Rank(ph)
    ensures bs != [] && ph == Init ==> Run(ph, bs) != Init
    decreases |bs|
  {
    if bs != [] { RunForward(Next(ph, bs[0]), bs[1..]); }
  }

  /** Control frames that leave a stream in the data phase are window updates. */
  lemma {:induction false} OnlyUpdates(bs: seq<Body>)
    requires NoData(bs) && Run(CanData, bs) == CanData
    ensures forall i | 0 <= i < |bs| :: bs[i].WindowUpdate?
  {
    if bs != [] {
      RunForward(Next(CanData, bs[0]), bs[1..]);
      OnlyUpdates(bs[1..]);
    }
  }

  // --------------------------------------------------------------- the ends

  /** `done` has been consumed by the peer, `wire` is in flight, `ctl` is queued;
      `accepted` and `delivered` are the messages `send` took and `recv_msg`
      returned; `fin` says that `Finished` was announced. */
  datatype End = End(
    opener: bool, st: Option<Stream>, known: bool, closed: bool,
    done: seq<Body>, wire: seq<Body>, ctl: seq<Body>,
    accepted: seq<Bytes>, delivered: seq<Bytes>, fin: bool)
  {
    function Start(): Phase { if opener then Init else CanData }
    function Sent(): seq<Body> { done + wire }
    function All(): seq<Body> { done + wire + ctl }
    function Phase(): Phase { Run(Start(), All()) }
  }

  /** The phase a tracked stream's own frames have reached. */
  function PhaseOf(s: Stream): Phase {
    if s.localOpen || s.outbox != [] then CanData else AfterFin
  }

  /** What one end keeps on a stream whatever its peer does: its frames leave in
      order, its buffers stay inside its windows, a finished stream is forgotten. */
  predicate EndOk(p: Params, e: End) {
    && e.Phase() != Bad
    && NoData(e.ctl)
    && (!e.known ==> e.All() == [] && e.st.None? && !e.fin && e.accepted == [] && e.delivered == [])
    && (e.closed ==> e.st.None? && e.ctl == [])
    && (e.st.Some? ==>
        var s := e.st.value;
        && StreamInv(p, s)
        && !s.IsFinished()
        && e.Phase() == PhaseOf(s)
        && (s.openSent <==> !e.opener || e.Sent() != [])
        && (e.fin <==> s.RemoteDrained()))
  }

  function Forget(s: Stream): Option<Stream> { if s.IsFinished() then None else Some(s) }

  // ------------------------------------------------- what each call does to it

  function DoOpen(e: End, class_: Class, window: u32): End {
    e.(st := Some(NewStream(class_, window, false)), known := true, ctl := e.ctl + [Open(class_)])
  }

  function DoSend(e: End, msg: Bytes, ps: seq<Bytes>, class_: Class): End
    requires e.st.Some?
  {
    e.(st := Some(Enqueue(e.st.value, msg, ps).(class_ := class_)), accepted := e.accepted + [msg])
  }

  /** Class and `wants_writable` do not matter to the other end. */
  predicate SameButPolicy(s: Stream, t: Stream) {
    t == s.(class_ := t.class_, wantsWritable := t.wantsWritable)
  }

  function DoFinish(e: End): End
    requires e.st.Some?
  {
    var s := e.st.value.(localOpen := false);
    if s.outbox == [] then e.(st := Forget(s), ctl := e.ctl + [Fin]) else e.(st := Some(s))
  }

  function DoReset(e: End, code: u32): End { e.(st := None, ctl := e.ctl + [Rst(code)]) }

  function DoTake(e: End): End
    requires e.st.Some? && e.st.value.inbox != []
  {
    var (s, g) := Take(e.st.value);
    var e1 := e.(delivered := e.delivered + [e.st.value.inbox[0].0]);
    if g.Some? then e1.(st := Some(s), ctl := e.ctl + [WindowUpdate(g.value)])
    else if s.RemoteDrained() then e1.(st := Forget(s), fin := true)
    else e1.(st := Some(s))
  }

  function DoSendControl(e: End): End
    requires e.ctl != []
  {
    var e1 := e.(wire := e.wire + [e.ctl[0]], ctl := e.ctl[1..]);
    if e.ctl[0].Open? && e.st.Some? then e1.(st := Some(e.st.value.(openSent := true))) else e1
  }

  function DoSendData(e: End): End
    requires e.st.Some? && e.st.value.outbox != []
  {
    var s := PopOutbox(e.st.value);
    var e1 := e.(wire := e.wire + [Data(e.st.value.outbox[0])]);
    if s.outbox == [] && !s.localOpen then e1.(st := Forget(s), ctl := e.ctl + [Fin]) else e1.(st := Some(s))
  }

  function DoClose(e: End): End { e.(st := None, ctl := [], closed := true) }

  /** The end after the peer's next frame on this stream; errors leave it alone. */
  function DoReceive(env: Env, p: Params, e: End, b: Body): End {
    if e.closed then e else
    match TypeOf(b)
    case TOpen =>
      if b.Open? then e.(st := Some(NewStream(b.class_, p.initialWindow, true)), known := true) else e
    case TData =>
      if e.st.None? || !b.Data? then e else
      (match Accept(e.st.value, 1, AsU32(|b.payload|), Dec(env, p.maxFrame, b.payload), p.maxMessage)
       case Ok((s, _)) => e.(st := Some(s))
       case Err(_) => e)
    case TFin =>
      if e.st.None? then e else
      (match AcceptFin(e.st.value)
       case Ok(s) => if s.inbox == [] then e.(st := Forget(s), fin := true) else e.(st := Some(s))
       case Err(_) => e)
    case TRst => if b.Rst? then e.(st := None) else e
    case TWindowUpdate =>
      if e.st.None? || !b.WindowUpdate? then e
      else e.(st := Some(Granted(e.st.value, b.credit).0))
    case _ => e
  }

  /** The peer consumed the head of the wire. */
  function DoConsumed(e: End): End
    requires e.wire != []
  { e.(done := e.done + [e.wire[0]], wire := e.wire[1..]) }

  // -------------------------------------------------------- each keeps EndOk

  lemma OpenOk(p: Params, e: End, class_: Class)
    requires ParamsOk(p) && EndOk(p, e) && !e.known && e.opener && !e.closed
    ensures EndOk(p, DoOpen(e, class_, p.initialWindow))
  {
    var e' := DoOpen(e, class_, p.initialWindow);
    assert e'.All() == [] + [Open(class_)];
    RunOne(Init, [], Open(class_));
  }

  lemma SendOk(env: Env, p: Params, e: End, msg: Bytes, stance: Compress, class_: Class)
    requires ParamsOk(p) && EndOk(p, e) && e.known
    requires e.st.Some? && e.st.value.localOpen
    requires |msg| <= p.maxMessage && SendCost(p, |msg|) <= e.st.value.FreeCredit()
    ensures EndOk(p, DoSend(e, msg, Fragment(env, stance, e.st.value.class_, msg, p.maxFrame), class_))
  {
    EnqueueInv(env, p, e.st.value, msg, stance);
    FragmentReassembles(env, stance, e.st.value.class_, msg, p.maxFrame, p.maxMessage);
  }

  /** The invariant does not look at the flags of our own direction. */
  lemma FlagsInv(p: Params, s: Stream, t: Stream)
    requires StreamInv(p, s)
    requires t == s.(localOpen := t.localOpen, openSent := t.openSent, class_ := t.class_, wantsWritable := t.wantsWritable)
    ensures StreamInv(p, t)
  {}

  lemma FinishOk(p: Params, e: End)
    requires EndOk(p, e) && e.st.Some? && e.st.value.localOpen
    ensures EndOk(p, DoFinish(e))
  {
    var e' := DoFinish(e);
    FlagsInv(p, e.st.value, e.st.value.(localOpen := false));
    if e'.ctl != e.ctl {
      assert e'.All() == e.All() + [Fin];
      RunOne(e.Start(), e.All(), Fin);
    }
  }

  lemma ResetOk(p: Params, e: End, code: u32)
    requires EndOk(p, e) && e.st.Some?
    ensures EndOk(p, DoReset(e, code))
  {
    assert e.All() + [Rst(code)] == e.done + e.wire + (e.ctl + [Rst(code)]);
    RunOne(e.Start(), e.All(), Rst(code));
  }

  lemma TakeOk(p: Params, e: End)
    requires ParamsOk(p) && EndOk(p, e) && e.st.Some? && e.st.value.inbox != []
    ensures EndOk(p, DoTake(e))
  {
    TakeInv(p, e.st.value);
    var (s, g) := Take(e.st.value);
    if g.Some? {
      assert e.All() + [WindowUpdate(g.value)] == e.done + e.wire + (e.ctl + [WindowUpdate(g.value)]);
      RunOne(e.Start(), e.All(), WindowUpdate(g.value));
    }
  }

  /** OPEN is the first frame of a stream we open, and only that one. */
  lemma OpenIsFirst(e: End)
    requires e.Phase() != Bad && e.ctl != []
    ensures e.ctl[0].Open? <==> e.opener && e.Sent() == []
  {
    var mid := Run(e.Start(), e.Sent());
    RunAppend(e.Start(), e.Sent(), e.ctl);
    RunForward(e.Start(), e.Sent());
    assert Run(mid, e.ctl) == Run(Next(mid, e.ctl[0]), e.ctl[1..]);
    RunBad(e.ctl[1..]);
  }

  lemma SendControlOk(p: Params, e: End)
    requires EndOk(p, e) && e.ctl != []
    ensures EndOk(p, DoSendControl(e))
    ensures DoSendControl(e).All() == e.All()
  {
    var e' := DoSendControl(e);
    hide StreamInv, Stream.IsFinished;
    assert e.ctl == [e.ctl[0]] + e.ctl[1..];
    assert e'.All() == e.All();
    OpenIsFirst(e);
    if e.st.Some? {
      FlagsInv(p, e.st.value, e'.st.value);
      assert e'.Sent() != [];
    }
  }

  /** DATA overtakes queued control frames only when those are window updates,
      which is what a stream with data to send and its OPEN out has queued. */
  lemma SendDataOk(p: Params, e: End)
    requires EndOk(p, e) && e.st.Some? && e.st.value.outbox != [] && e.st.value.openSent
    ensures EndOk(p, DoSendData(e))
    ensures forall i | 0 <= i < |e.ctl| :: e.ctl[i].WindowUpdate?
    ensures Run(e.Start(), e.Sent()) == CanData
  {
    var s := e.st.value;
    PopOutboxInv(p, s);
    var e' := DoSendData(e);
    RunAppend(e.Start(), e.Sent(), e.ctl);
    var mid := Run(e.Start(), e.Sent());
    RunForward(e.Start(), e.Sent());
    RunForward(mid, e.ctl);
    assert mid == CanData;
    OnlyUpdates(e.ctl);
    var d := Data(s.outbox[0]);
    RunOne(e.Start(), e.Sent(), d);
    assert e.done + (e.wire + [d]) == e.Sent() + [d];
    RunAppend(e.Start(), e.Sent() + [d], e.ctl);
    if e'.ctl != e.ctl {
      assert e'.All() == (e.Sent() + [d] + e.ctl) + [Fin];
      RunOne(e.Start(), e.Sent() + [d] + e.ctl, Fin);
    } else {
      assert e'.All() == e.Sent() + [d] + e.ctl;
    }
  }

  lemma CloseOk(p: Params, e: End)
    requires EndOk(p, e)
    ensures EndOk(p, DoClose(e))
  {
    RunAppend(e.Start(), e.Sent(), e.ctl);
    if Run(e.Start(), e.Sent()) == Bad { RunBad(e.ctl); }
    assert DoClose(e).All() == e.Sent();
  }

  /** A change that leaves our own direction alone. */
  lemma PeerSideOk(p: Params, e: End, s: Stream)
    requires EndOk(p, e) && e.st.Some? && StreamInv(p, s)
    requires s.localOpen == e.st.value.localOpen && s.openSent == e.st.value.openSent
    requires s.outbox == e.st.value.outbox
    ensures EndOk(p, e.(st := Forget(s), fin := s.RemoteDrained()))
  {}

  lemma ReceiveOpenOk(p: Params, e: End, class_: Class)
    requires ParamsOk(p) && EndOk(p, e) && !e.known && !e.opener && !e.closed
    ensures EndOk(p, e.(st := Some(NewStream(class_, p.initialWindow, true)), known := true))
  {
    NewStreamInv(p, class_, true);
    assert e.All() == [];
  }

  lemma ReceiveDataOk(env: Env, p: Params, e: End, b: Body)
    requires ParamsOk(p) && EndOk(p, e) && !e.closed && TypeOf(b) == TData
    ensures EndOk(p, DoReceive(env, p, e, b))
  {
    if e.st.Some? && b.Data? {
      AcceptInv(p, e.st.value, 1, AsU32(|b.payload|), Dec(env, p.maxFrame, b.payload));
      var r := Accept(e.st.value, 1, AsU32(|b.payload|), Dec(env, p.maxFrame, b.payload), p.maxMessage);
      if r.Ok? {
        AcceptStaysOpen(e.st.value, 1, AsU32(|b.payload|), Dec(env, p.maxFrame, b.payload), p.maxMessage);
        PeerSideOk(p, e, r.value.0);
        assert !e.fin;
      }
      hide EndOk, Accept, Dec, StreamInv;
    }
  }

  lemma AcceptStaysOpen(s: Stream, id: StreamId, wire: u32, f: Frag, maxMessage: u32)
    ensures var r := Accept(s, id, wire, f, maxMessage); r.Ok? ==> s.remoteOpen && r.value.0.remoteOpen
  {}

  lemma ReceiveFinOk(env: Env, p: Params, e: End, b: Body)
    requires EndOk(p, e) && !e.closed && TypeOf(b) == TFin
    ensures EndOk(p, DoReceive(env, p, e, b))
  {
    if e.st.Some? && AcceptFin(e.st.value).Ok? { PeerSideOk(p, e, AcceptFin(e.st.value).value); }
  }

  lemma ReceiveUpdateOk(env: Env, p: Params, e: End, b: Body)
    requires EndOk(p, e) && !e.closed && TypeOf(b) == TWindowUpdate
    ensures EndOk(p, DoReceive(env, p, e, b))
  {
    if e.st.Some? && b.WindowUpdate? { PeerSideOk(p, e, Granted(e.st.value, b.credit).0); }
  }

  /** Whatever the peer sends. */
  lemma ReceiveOk(env: Env, p: Params, e: End, b: Body)
    requires ParamsOk(p) && EndOk(p, e)
    requires b.Open? ==> !e.known && !e.opener
    ensures EndOk(p, DoReceive(env, p, e, b))
  {
    if !e.closed {
      match TypeOf(b)
      case TOpen => if b.Open? { ReceiveOpenOk(p, e, b.class_); }
      case TData => ReceiveDataOk(env, p, e, b);
      case TFin => ReceiveFinOk(env, p, e, b);
      case TRst => if b.Rst? { GoneOk(p, e); }
      case TWindowUpdate => ReceiveUpdateOk(env, p, e, b);
      case _ =>
    }
    hide EndOk;
  }

  lemma GoneOk(p: Params, e: End)
    requires EndOk(p, e)
    ensures EndOk(p, e.(st := None))
  {}
}
