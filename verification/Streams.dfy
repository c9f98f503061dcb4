/** One stream at one end: its two half-open flags, buffers and windows. */
module Streams {
  import opened MuxTypes
  import opened Fragments
  import opened Flow

  datatype Stream = Stream(
    class_: Class, localOpen: bool, remoteOpen: bool, openSent: bool,
    outbox: seq<Bytes>, outboxBytes: nat,
    inbox: seq<(Bytes, u32)>, partial: Bytes, partialWire: u32,
    send: SendWin, recv: RecvWin, written: nat, wantsWritable: bool)
  {
    predicate RemoteDrained() { !remoteOpen && inbox == [] }
    predicate IsFinished() { !localOpen && outbox == [] && RemoteDrained() }
    function FreeCredit(): u32 { Max(send.credit - outboxBytes, 0) }
    function HeadLen(): Option<nat> { if outbox == [] then None else Some(5 + |outbox[0]|) }
  }

  function NewStream(class_: Class, window: u32, openSent: bool): Stream {
    Stream(class_, true, true, openSent, [], 0, [], [], 0, SendWin(window), RecvWin(window, window, 0), 0, false)
  }

  // ---------------------------------------------------------- transitions

  /** Credit `send` insists on before it accepts a message. */
  function SendCost(p: Params, len: nat): nat
    requires p.maxFrame >= 2
  { len + NFrags(len, p.maxFrame - 1) }

  function Enqueue(s: Stream, msg: Bytes, payloads: seq<Bytes>): Stream {
    s.(outbox := s.outbox + payloads, outboxBytes := s.outboxBytes + TotalBytes(payloads), written := s.written + |msg|)
  }

  /** The head of the outbox leaves. */
  function PopOutbox(s: Stream): Stream
    requires s.outbox != []
  {
    var n := |s.outbox[0]|;
    s.(outbox := s.outbox[1..], outboxBytes := Max(s.outboxBytes - n, 0), send := s.send.Consume(AsU32(n)))
  }

  /** A decoded DATA frame of `wire` payload bytes; the flag says the inbox was empty and now is not. */
  function Accept(s: Stream, id: StreamId, wire: u32, f: Frag, maxMessage: u32): Result<(Stream, bool), ProtocolError> {
    if !s.remoteOpen then Err(StateViolation) else
    match s.recv.OnData(wire)
    case None => Err(FlowControl(id))
    case Some(w) =>
      if |s.partial| + |f.data| > maxMessage then Err(MessageTooLarge(id)) else
      var partial, cost := s.partial + f.data, SaturatingAdd(s.partialWire, wire);
      if f.more then Ok((s.(recv := w, partial := partial, partialWire := cost), false))
      else Ok((s.(recv := w, partial := [], partialWire := 0, inbox := s.inbox + [(partial, cost)]), s.inbox == []))
  }

  function AcceptFin(s: Stream): Result<Stream, ProtocolError> {
    if !s.remoteOpen || s.partial != [] then Err(StateViolation) else Ok(s.(remoteOpen := false))
  }

  /** WINDOW_UPDATE: the flag says `Writable` is due, because `send` was refused
      and there is credit again. */
  function Granted(s: Stream, n: u32): (Stream, bool) {
    var s' := s.(send := s.send.Grant(n));
    if s.wantsWritable && s'.FreeCredit() > 0 then (s'.(wantsWritable := false), true) else (s', false)
  }

  /** Taking the front message: the stream after it and the WINDOW_UPDATE to queue. */
  function Take(s: Stream): (Stream, Option<u32>)
    requires s.inbox != []
  {
    var s' := s.(inbox := s.inbox[1..]);
    if s.remoteOpen then
      var (w, g) := s.recv.OnConsumed(s.inbox[0].1);
      (s'.(recv := w), g)
    else (s', None)
  }

  // ------------------------------------------------------------ invariant

  function InboxWire(inbox: seq<(Bytes, u32)>): nat {
    if inbox == [] then 0 else inbox[0].1 + InboxWire(inbox[1..])
  }

  function InboxMsgs(inbox: seq<(Bytes, u32)>): (r: seq<Bytes>)
    ensures |r| == |inbox|
  { if inbox == [] then [] else [inbox[0].0] + InboxMsgs(inbox[1..]) }

  /** What a stream keeps whatever its peer does. */
  predicate StreamInv(p: Params, s: Stream) {
    && s.outboxBytes == TotalBytes(s.outbox) <= s.send.credit
    && (forall i | 0 <= i < |s.outbox| :: 1 <= |s.outbox[i]| <= p.maxFrame)
    && s.recv.window == p.initialWindow
    && s.recv.consumed < s.recv.window / 2
    && (if s.remoteOpen
        then s.recv.remaining + s.recv.consumed + InboxWire(s.inbox) + s.partialWire == s.recv.window
        else s.recv.remaining + s.recv.consumed + InboxWire(s.inbox) + s.partialWire <= s.recv.window)
    && |s.partial| <= p.maxMessage
    && (forall i | 0 <= i < |s.inbox| :: |s.inbox[i].0| <= p.maxMessage)
  }

  lemma {:induction false} InboxAppend(inbox: seq<(Bytes, u32)>, m: (Bytes, u32))
    ensures InboxWire(inbox + [m]) == InboxWire(inbox) + m.1
    ensures InboxMsgs(inbox + [m]) == InboxMsgs(inbox) + [m.0]
  {
    if inbox == [] {
      assert inbox + [m] == [m];
      assert InboxWire([m]) == m.1 + InboxWire([m][1..]);
    } else {
      assert (inbox + [m])[1..] == inbox[1..] + [m];
      InboxAppend(inbox[1..], m);
    }
  }

  lemma NewStreamInv(p: Params, class_: Class, openSent: bool)
    requires ParamsOk(p)
    ensures StreamInv(p, NewStream(class_, p.initialWindow, openSent))
    ensures !NewStream(class_, p.initialWindow, openSent).IsFinished()
  {}

  /** Queueing a message that fits the free credit keeps every outbox byte covered by credit. */
  lemma EnqueueInv(env: Env, p: Params, s: Stream, msg: Bytes, stance: Compress)
    requires ParamsOk(p) && StreamInv(p, s)
    requires |msg| <= p.maxMessage && SendCost(p, |msg|) <= s.FreeCredit()
    ensures StreamInv(p, Enqueue(s, msg, Fragment(env, stance, s.class_, msg, p.maxFrame)))
  {
    var ps := Fragment(env, stance, s.class_, msg, p.maxFrame);
    FragmentReassembles(env, stance, s.class_, msg, p.maxFrame, p.maxMessage);
    TotalAppend(s.outbox, ps);
    forall i | 0 <= i < |s.outbox + ps| ensures 1 <= |(s.outbox + ps)[i]| <= p.maxFrame {
      if i >= |s.outbox| {
        assert Good(env, p.maxFrame, ps[i - |s.outbox|]);
      }
    }
  }

  /** Neither subtraction underflows, and free credit is untouched by transmission. */
  lemma PopOutboxInv(p: Params, s: Stream)
    requires StreamInv(p, s) && s.outbox != []
    ensures StreamInv(p, PopOutbox(s))
    ensures PopOutbox(s).send.credit == s.send.credit - |s.outbox[0]|
    ensures PopOutbox(s).outboxBytes == s.outboxBytes - |s.outbox[0]|
    ensures PopOutbox(s).FreeCredit() == s.FreeCredit()
  {
    assert TotalBytes(s.outbox) == |s.outbox[0]| + TotalBytes(s.outbox[1..]);
    assert AsU32(|s.outbox[0]|) == |s.outbox[0]|;
  }

  /** Whatever DATA a peer sends, an accepted frame stays inside the window and the message bound. */
  lemma AcceptInv(p: Params, s: Stream, id: StreamId, wire: u32, f: Frag)
    requires ParamsOk(p) && StreamInv(p, s)
    ensures var r := Accept(s, id, wire, f, p.maxMessage);
            r.Ok? ==> StreamInv(p, r.value.0)
                      && r.value.0.recv.remaining == s.recv.remaining - wire
                      && r.value.0.(inbox := [], partial := [], partialWire := 0, recv := s.recv)
                         == s.(inbox := [], partial := [], partialWire := 0)
  {
    var r := Accept(s, id, wire, f, p.maxMessage);
    if r.Ok? {
      assert s.partialWire + wire <= s.recv.window;
      InboxAppend(s.inbox, (s.partial + f.data, s.partialWire + wire));
    }
  }

  lemma TakeInv(p: Params, s: Stream)
    requires ParamsOk(p) && StreamInv(p, s) && s.inbox != []
    ensures var (s', g) := Take(s);
            && StreamInv(p, s')
            && s'.recv.remaining == s.recv.remaining + (if g.Some? then g.value else 0)
            && (g.Some? ==> g.value >= 1)
            && s'.(inbox := s.inbox, recv := s.recv) == s
  {
    assert InboxWire(s.inbox) == s.inbox[0].1 + InboxWire(s.inbox[1..]);
    if s.remoteOpen {
      ConsumeConserves(s.recv, InboxWire(s.inbox) + s.partialWire, s.inbox[0].1);
    }
  }

  /** A window never holds more messages than wire bytes, as every accepted frame costs at least one. */
  lemma {:induction false} InboxBounded(inbox: seq<(Bytes, u32)>)
    requires forall i | 0 <= i < |inbox| :: inbox[i].1 >= 1
    ensures |inbox| <= InboxWire(inbox)
  {
    if inbox != [] { InboxBounded(inbox[1..]); }
  }
}
