/** One visitor exchange: the response pumped from the origin task to the mux
    within its credit, and the request body pumped the other way. */
module Visitor {
  import opened MuxTypes

  const OUT_QUEUE := 4
  const REQ_BODY_QUEUE := 4
  const HEAD_COMPRESS := Never

  /** What the origin task produces, with its encoding, if it has one. A head also
      settles how the body after it may be compressed. */
  datatype OutMsg = Head(wire: Option<Bytes>, body: Compress) | BodyFrame(wire: Option<Bytes>) | End

  predicate Encodes(m: OutMsg) { m.End? || m.wire.Some? }
  predicate AllEncode(msgs: seq<OutMsg>) { forall i | 0 <= i < |msgs| :: Encodes(msgs[i]) }

  /** One message for the mux. */
  datatype Out = Out(bytes: Bytes, compress: Compress)

  datatype SendResult = Accepted | WouldBlock | Failed

  /** A message of the request body as the relay sent it: a chunk, trailers, or
      something that does not decode. */
  datatype ReqMsg = ReqFrame(data: Bytes) | Malformed

  // ------------------------------------------------------------ specification

  /** The messages of a response, in order, up to what does not encode. */
  function Outs(msgs: seq<OutMsg>, c: Compress): seq<Out>
    decreases |msgs|
  {
    if msgs == [] || !Encodes(msgs[0]) then [] else
    match msgs[0]
    case Head(h, body) => [Out(h.value, HEAD_COMPRESS)] + Outs(msgs[1..], body)
    case BodyFrame(f) => [Out(f.value, c)] + Outs(msgs[1..], c)
    case End => Outs(msgs[1..], c)
  }

  /** The stance in force after them. */
  function Stance(msgs: seq<OutMsg>, c: Compress): Compress
    decreases |msgs|
  {
    if msgs == [] then c else Stance(msgs[1..], if msgs[0].Head? then msgs[0].body else c)
  }

  /** The frames of a request body, up to what does not decode. */
  function Frames(msgs: seq<ReqMsg>): seq<Bytes> {
    if msgs == [] || msgs[0].Malformed? then [] else [msgs[0].data] + Frames(msgs[1..])
  }

  predicate AllDecode(msgs: seq<ReqMsg>) { forall i | 0 <= i < |msgs| :: msgs[i].ReqFrame? }

  /** A message by itself. */
  function OutOf(m: OutMsg, c: Compress): seq<Out> {
    if m.End? || m.wire.None? then [] else [Out(m.wire.value, if m.Head? then HEAD_COMPRESS else c)]
  }

  lemma {:induction false} OutsAppend(a: seq<OutMsg>, m: OutMsg, c: Compress)
    requires AllEncode(a)
    ensures Outs(a + [m], c) == Outs(a, c) + OutOf(m, Stance(a, c))
    ensures AllEncode(a + [m]) <==> Encodes(m)
    ensures Stance(a + [m], c) == if m.Head? then m.body else Stance(a, c)
    decreases |a|
  {
    if a == [] {
      assert a + [m] == [m] && [m][1..] == [];
    } else {
      assert (a + [m])[1..] == a[1..] + [m] && (a + [m])[|a|] == m;
      OutsAppend(a[1..], m, if a[0].Head? then a[0].body else c);
    }
  }

  lemma {:induction false} OutsPrefix(a: seq<OutMsg>, b: seq<OutMsg>, c: Compress)
    ensures Outs(a, c) <= Outs(a + b, c)
    decreases |a|
  {
    if a == [] {
      assert a + b == b;
    } else {
      assert (a + b)[1..] == a[1..] + b;
      OutsPrefix(a[1..], b, if a[0].Head? then a[0].body else c);
    }
  }

  lemma {:induction false} FramesAppend(a: seq<ReqMsg>, m: ReqMsg)
    ensures Frames(a + [m]) == if AllDecode(a) && m.ReqFrame? then Frames(a) + [m.data] else Frames(a)
    decreases |a|
  {
    if a == [] {
      assert a + [m] == [m] && [m][1..] == [];
    } else {
      assert (a + [m])[0] == a[0] && (a + [m])[1..] == a[1..] + [m];
      FramesAppend(a[1..], m);
      if AllDecode(a) {
        assert AllDecode(a[1..]);
      } else if a[0].ReqFrame? {
        assert !AllDecode(a[1..]) by {
          var i :| 0 <= i < |a| && !a[i].ReqFrame?;
          assert a[1..][i - 1] == a[i];
        }
      }
    }
  }

  // ----------------------------------------------------------------- the mux

  /** The stream as the exchange sees it: any message may be refused for now or
      for good, and always is once the stream was finished. */
  class Stream {
    ghost var handed: seq<Out>
    ghost var finishes: nat
    var sendClosed: bool
    var inbox: seq<ReqMsg>

    constructor ()
      ensures handed == [] && finishes == 0 && !sendClosed && inbox == []
    {
      handed, finishes := [], 0;
      sendClosed, inbox := false, [];
    }

    method RecvMsg() returns (m: Option<ReqMsg>)
      modifies this`inbox
      ensures if old(inbox) == [] then m == None && inbox == []
              else m == Some(old(inbox)[0]) && inbox == old(inbox)[1..]
    {
      if inbox == [] { return None; }
      m := Some(inbox[0]);
      inbox := inbox[1..];
    }

    method Send(m: Out) returns (r: SendResult)
      modifies this`handed
      ensures handed == if r == Accepted then old(handed) + [m] else old(handed)
      ensures sendClosed ==> r == Failed
    {
      if sendClosed { return Failed; }
      if {
        case true => r := Accepted; handed := handed + [m];
        case true => r := SendResult.WouldBlock;
        case true => r := Failed;
      }
    }

    method Finish()
      modifies this`finishes, this`sendClosed
      ensures handed == old(handed) && finishes == old(finishes) + 1 && sendClosed
    {
      finishes := finishes + 1;
      sendClosed := true;
    }
  }

  // ------------------------------------------------------------ the exchange

  class Exchange {
    const stream: Stream
    /** Still in the table of exchanges. */
    var inflight: bool
    // response direction
    var outRx: seq<OutMsg>
    var outSenderGone: bool
    var outHead: Option<Out>
    var pending: seq<Out>
    var outDone: bool
    var compress: Compress
    var finSent: bool
    // request direction
    var reqQueue: seq<Bytes>
    var reqReceiverGone: bool
    var reqOpen: bool
    var reqDone: bool
    var reqPaused: bool
    /** Held by a waiter for room toward the origin. */
    var parked: Option<Bytes>
    // history
    ghost var produced: seq<OutMsg>
    ghost var arrived: seq<ReqMsg>
    ghost var received: seq<Bytes>
    ghost var finished: bool

    ghost function Held(): seq<Out>
      reads this`outHead, this`pending
    { (if outHead.Some? then [outHead.value] else []) + pending }

    ghost function Taken(): seq<OutMsg>
      requires |outRx| <= |produced|
      reads this`outRx, this`produced
    { produced[..|produced| - |outRx|] }

    ghost function Parked(): seq<Bytes>
      reads this`parked
    { if parked.Some? then [parked.value] else [] }

    ghost predicate OutOk()
      reads this`outRx, this`outSenderGone, this`outHead, this`pending, this`outDone, this`finSent, this`produced,
            stream`handed, stream`finishes, stream`sendClosed
    {
      && |outRx| <= |produced| && produced == Taken() + outRx
      && (forall i | 0 <= i < |produced| - 1 :: !produced[i].End?)
      && (outHead.Some? ==> pending == []) && |pending| <= 1
      && stream.handed <= Outs(produced, Auto)
      && stream.finishes == (if finSent then 1 else 0) && (stream.sendClosed <==> finSent)
      && (outDone ==> outRx == [] && (outSenderGone || (produced != [] && produced[|produced| - 1].End?)))
      && (finSent ==> outDone && stream.handed == Outs(produced, Auto) && AllEncode(produced) && Held() == [])
    }

    /** While the exchange lives, what was taken from the origin was handed over or is held. */
    ghost predicate FlowOk()
      requires |outRx| <= |produced|
      reads this`outRx, this`outHead, this`pending, this`compress, this`produced, stream`handed
    {
      && stream.handed + Held() == Outs(Taken(), Auto) && compress == Stance(Taken(), Auto)
      && AllEncode(Taken())
    }

    ghost predicate ReqOk()
      reads this`reqQueue, this`reqReceiverGone, this`reqOpen, this`reqPaused, this`parked,
            this`arrived, this`received, this`finished
    {
      && |reqQueue| <= REQ_BODY_QUEUE
      && received <= Frames(arrived)
      && (reqReceiverGone ==> reqQueue == [])
      && (!reqReceiverGone ==> received + reqQueue + Parked() == Frames(arrived))
      && (parked.Some? ==> reqPaused)
      && (reqOpen ==> AllDecode(arrived) && !finished)
      && (!reqOpen ==> finished || !AllDecode(arrived))
    }

    ghost predicate Valid()
      reads this, stream`handed, stream`finishes, stream`sendClosed
    { OutOk() && (inflight ==> FlowOk()) && ReqOk() }

    constructor (s: Stream)
      requires s.handed == [] && s.finishes == 0 && !s.sendClosed
      ensures Valid() && inflight && stream == s && produced == [] && arrived == [] && received == []
    {
      stream := s;
      inflight, outRx, outSenderGone, outHead, pending := true, [], false, None, [];
      outDone, compress, finSent := false, Auto, false;
      reqQueue, reqReceiverGone, reqOpen, reqDone, reqPaused, parked := [], false, true, false, false, None;
      produced, arrived, received, finished := [], [], [], false;
    }

    // ---------------------------------------------------------- the origin task

    /** The origin task queues a message while there is room; `End` is its last. */
    method Produce(m: OutMsg)
      requires Valid() && |outRx| < OUT_QUEUE && !outSenderGone
      requires produced != [] ==> !produced[|produced| - 1].End?
      modifies this`outRx, this`produced
      ensures Valid() && produced == old(produced) + [m]
    {
      OutsPrefix(produced, [m], Auto);
      hide Outs, Stance, ReqOk;
      outRx, produced := outRx + [m], produced + [m];
      assert Taken() == old(Taken());
    }

    method DropSender()
      requires Valid()
      modifies this`outSenderGone
      ensures Valid() && outSenderGone
    { outSenderGone := true; }

    /** The origin task takes a request frame. */
    method TakeFrame() returns (f: Option<Bytes>)
      requires Valid()
      modifies this`reqQueue, this`received
      ensures Valid()
      ensures if old(reqQueue) == [] then f == None && received == old(received)
              else f == Some(old(reqQueue)[0]) && received == old(received) + [f.value]
    {
      hide OutOk, FlowOk, Frames, AllDecode;
      if reqQueue == [] { return None; }
      f := Some(reqQueue[0]);
      assert received + reqQueue + Parked() == (received + [reqQueue[0]]) + reqQueue[1..] + Parked();
      received, reqQueue := received + [reqQueue[0]], reqQueue[1..];
    }

    // ------------------------------------------------------------- the response

    /** A waiting head goes first. */
    method FlushHead() returns (clear: bool)
      requires Valid() && inflight
      modifies this`outHead, this`inflight, stream`handed
      ensures Valid() && (clear ==> inflight && outHead == None) && old(stream.handed) <= stream.handed
    {
      OutsPrefix(Taken(), outRx, Auto);
      hide Outs, Stance, ReqOk, AllEncode, Taken;
      if outHead.None? { return true; }
      var head := outHead.value;
      assert [head] + pending == [head];
      outHead := None;
      var r := stream.Send(head);
      match r {
        case Accepted => return true;
        case WouldBlock =>
          outHead := Some(head);
          return false;
        case Failed =>
          inflight := false;
          return false;
      }
    }

    method SendFront() returns (r: SendResult)
      requires Valid() && inflight && outHead == None && pending != []
      modifies this`pending, this`inflight, stream`handed
      ensures Valid() && (r == Accepted ==> inflight && pending == []) && old(stream.handed) <= stream.handed
    {
      OutsPrefix(Taken(), outRx, Auto);
      hide Outs, Stance, ReqOk, AllEncode, Taken;
      var m := pending[0];
      assert [] + pending == [m] && pending[1..] == [];
      r := stream.Send(m);
      if r == Accepted { pending := pending[1..]; }
      if r == Failed { inflight := false; }
    }

    /** Then the body frame that waits, if any. */
    method FlushBody() returns (clear: bool)
      requires Valid() && inflight && outHead == None
      modifies this`pending, this`inflight, stream`handed
      ensures Valid() && (clear ==> inflight && pending == []) && old(stream.handed) <= stream.handed
    {
      hide *;
      while pending != []
        invariant Valid() && inflight && old(stream.handed) <= stream.handed
        decreases |pending|
      {
        var r := SendFront();
        if r != Accepted { return false; }
      }
      return true;
    }

    /** A head or a body frame from the origin is put aside for the next turn; one
        that does not encode ends the exchange. */
    method Hold(m: OutMsg)
      requires Valid() && inflight && Held() == [] && outRx != [] && m == outRx[0] && !m.End?
      modifies this`outRx, this`compress, this`outHead, this`pending, this`inflight
      ensures Valid() && outRx == old(outRx)[1..] && inflight == m.wire.Some?
    {
      if m.wire.None? { Refuse(m); } else { Keep(m); }
    }

    method Refuse(m: OutMsg)
      requires Valid() && inflight && Held() == [] && outRx != [] && m == outRx[0] && !m.End? && m.wire.None?
      modifies this`outRx, this`compress, this`inflight
      ensures Valid() && outRx == old(outRx)[1..] && !inflight
    {
      TakeOne(produced, outRx);
      hide Outs, Stance, ReqOk, AllEncode;
      if m.Head? { compress := m.body; }
      outRx, inflight := outRx[1..], false;
    }

    method Keep(m: OutMsg)
      requires Valid() && inflight && Held() == [] && outRx != [] && m == outRx[0] && !m.End? && m.wire.Some?
      modifies this`outRx, this`compress, this`outHead, this`pending
      ensures Valid() && outRx == old(outRx)[1..]
    {
      ghost var before := Taken();
      TakeOne(produced, outRx);
      OutsAppend(before, m, Auto);
      hide Outs, Stance, ReqOk, AllEncode;
      outRx := outRx[1..];
      assert Taken() == before + [m] && Taken() + outRx == produced;
      assert stream.handed + [] == stream.handed;
      if m.Head? {
        compress := m.body;
        outHead := Some(Out(m.wire.value, HEAD_COMPRESS));
      } else {
        pending := [Out(m.wire.value, compress)];
      }
      assert Held() == OutOf(m, old(compress));
    }

    /** Nothing more comes from the origin and nothing waits: our side is finished. */
    method Complete()
      requires Valid() && inflight && Held() == [] && outRx == []
      requires outSenderGone || (produced != [] && produced[|produced| - 1].End?)
      modifies this`outDone, this`finSent, this`inflight, stream`finishes, stream`sendClosed
      ensures Valid() && finSent && old(stream.finishes) <= stream.finishes
    {
      assert Taken() == produced && stream.handed + [] == stream.handed;
      assert stream.handed == Outs(produced, Auto);
      hide Outs, Stance, ReqOk, AllEncode;
      outDone := true;
      if !finSent {
        stream.Finish();
        finSent := true;
      }
      assert Taken() == produced && Held() == [];
      if reqDone { inflight := false; }
    }

    method TakeEnd()
      requires Valid() && inflight && Held() == [] && outRx != [] && outRx[0].End?
      modifies this`outRx
      ensures Valid() && outRx == [] && Held() == [] && produced != [] && produced[|produced| - 1].End?
    {
      ghost var before := Taken();
      assert produced[|produced| - |outRx|] == outRx[0];
      outRx := outRx[1..];
      assert Taken() == before + [End] && Taken() + outRx == produced;
      OutsAppend(before, End, Auto);
      hide Outs, Stance, ReqOk;
      assert Outs(before, Auto) + [] == Outs(before, Auto);
    }

    /** Takes the next message from the origin; finishes the stream after the last. */
    method Pull() returns (again: bool)
      requires Valid() && inflight && Held() == []
      modifies this`outRx, this`compress, this`outHead, this`pending, this`outDone, this`finSent, this`inflight,
               stream`finishes, stream`sendClosed
      ensures Valid() && |outRx| <= |old(outRx)| && (again ==> inflight && |outRx| < |old(outRx)|)
      ensures old(stream.finishes) <= stream.finishes
    {
      hide *;
      if outRx != [] && !outRx[0].End? {
        Hold(outRx[0]);
        return inflight;
      } else if outRx != [] {
        TakeEnd();
      } else if !outSenderGone {
        return false;
      }
      Complete();
      return false;
    }

    /** Moves the response toward the relay as far as credit and the origin allow.
        What was handed over so far is a prefix of what the origin produced; the
        stream is finished at most once, and only when it was handed everything. A
        message that does not encode ends the exchange unfinished. */
    method PumpOut()
      requires Valid()
      modifies this`outRx, this`compress, this`outHead, this`pending, this`outDone, this`finSent, this`inflight,
               stream`handed, stream`finishes, stream`sendClosed
      ensures Valid()
      ensures old(stream.handed) <= stream.handed <= Outs(produced, Auto)
      ensures old(stream.finishes) <= stream.finishes <= 1
      ensures stream.finishes == 1 ==> stream.handed == Outs(produced, Auto) && AllEncode(produced)
      ensures !AllEncode(Taken()) ==> !inflight && stream.finishes == 0
    {
      hide ReqOk;
      if !inflight { return; }
      var again := true;
      while again
        invariant Valid() && (again ==> inflight)
        invariant old(stream.handed) <= stream.handed && old(stream.finishes) <= stream.finishes
        decreases |outRx|, again
      {
        var clear := FlushHead();
        if !clear { return; }
        clear := FlushBody();
        if !clear { return; }
        assert Held() == [];
        again := Pull();
      }
    }

    // -------------------------------------------------------------- the request

    /** One body message: queued toward the origin, or parked when there is no room. */
    method OnVisitorBody(msg: ReqMsg)
      requires Valid() && inflight && !reqPaused && !finished
      modifies this`reqQueue, this`reqOpen, this`reqDone, this`reqPaused, this`parked, this`arrived
      ensures Valid() && arrived == old(arrived) + [msg]
    {
      FramesAppend(arrived, msg);
      AllAppend(arrived, msg);
      hide Frames, AllDecode, OutOk, FlowOk;
      arrived := arrived + [msg];
      match msg {
        case Malformed =>
          reqDone := true;
          reqOpen := false;
        case ReqFrame(data) =>
          if !reqOpen { return; }
          if reqReceiverGone { return; }
          if |reqQueue| < REQ_BODY_QUEUE {
            assert received + (reqQueue + [data]) + [] == (received + reqQueue + []) + [data];
            reqQueue := reqQueue + [data];
          } else {
            assert received + reqQueue + [data] == (received + reqQueue + []) + [data];
            parked := Some(data);
            reqPaused := true;
          }
      }
    }

    /** Hands arrived messages on until the origin's queue is full. */
    method DrainStream()
      requires Valid() && (finished ==> stream.inbox == [])
      modifies this`reqQueue, this`reqOpen, this`reqDone, this`reqPaused, this`parked, this`arrived, stream`inbox
      ensures Valid() && arrived + stream.inbox == old(arrived + stream.inbox)
      ensures inflight && !reqPaused ==> stream.inbox == []
    {
      hide OutOk, FlowOk, ReqOk;
      while inflight && !reqPaused
        invariant Valid() && (finished ==> stream.inbox == [])
        invariant arrived + stream.inbox == old(arrived + stream.inbox)
        decreases |stream.inbox|
      {
        ghost var was := arrived + stream.inbox;
        var msg := stream.RecvMsg();
        if msg.None? { return; }
        assert was == (arrived + [msg.value]) + stream.inbox;
        OnVisitorBody(msg.value);
      }
    }

    /** The waiting task got room, or found the origin gone. */
    method ParkedSent()
      requires Valid() && parked.Some? && (|reqQueue| < REQ_BODY_QUEUE || reqReceiverGone)
      modifies this`reqQueue, this`parked
      ensures Valid() && parked == None
      ensures !reqReceiverGone ==> reqQueue == old(reqQueue) + [old(parked).value]
    {
      hide Frames, AllDecode, OutOk, FlowOk;
      if !reqReceiverGone {
        assert received + (reqQueue + [parked.value]) + [] == received + reqQueue + [parked.value];
        reqQueue := reqQueue + [parked.value];
      }
      parked := None;
    }

    /** Then it resumes the drain on the connection's own thread. */
    method Resume()
      requires Valid() && parked == None && (finished ==> stream.inbox == [])
      modifies this`reqQueue, this`reqOpen, this`reqDone, this`reqPaused, this`parked, this`arrived, stream`inbox
      ensures Valid() && arrived + stream.inbox == old(arrived + stream.inbox)
    {
      hide Frames, AllDecode, OutOk, FlowOk;
      if inflight { reqPaused := false; }
      DrainStream();
    }

    /** The relay finished its side; a frame that is still parked is not lost. */
    method OnFinished()
      requires Valid() && stream.inbox == []
      modifies this`reqDone, this`reqOpen, this`inflight, this`finished
      ensures Valid() && parked == old(parked)
    {
      if !inflight { return; }
      hide OutOk, FlowOk, Frames, AllDecode;
      reqDone, reqOpen, finished := true, false, true;
      if finSent { inflight := false; }
    }

    method OnReset()
      requires Valid()
      modifies this`inflight
      ensures Valid() && !inflight
    {
      hide OutOk, FlowOk, ReqOk;
      inflight := false;
    }

    /** The origin task ended: what was queued toward it is gone. */
    method DropReceiver()
      requires Valid()
      modifies this`reqReceiverGone, this`reqQueue
      ensures Valid() && reqReceiverGone
    {
      hide Frames, AllDecode, OutOk, FlowOk;
      reqReceiverGone, reqQueue := true, [];
    }

    /** When the relay finished and nothing is on the way, the origin has received
        every frame that decoded, in order. */
    lemma AllReceived()
      requires Valid() && !reqReceiverGone && reqQueue == [] && parked == None
      ensures received == Frames(arrived)
    {
      assert received + [] + [] == received;
    }
  }

  /** The taken part grows by the head of what is left. */
  lemma TakeOne(all: seq<OutMsg>, rx: seq<OutMsg>)
    requires 0 < |rx| <= |all| && all == all[..|all| - |rx|] + rx
    ensures all[..|all| - |rx[1..]|] == all[..|all| - |rx|] + [rx[0]]
    ensures all == all[..|all| - |rx[1..]|] + rx[1..]
  {
    var n := |all| - |rx|;
    assert all[n] == rx[0];
    assert rx == [rx[0]] + rx[1..];
  }

  lemma AllAppend(a: seq<ReqMsg>, m: ReqMsg)
    ensures AllDecode(a + [m]) <==> AllDecode(a) && m.ReqFrame?
  {
    if AllDecode(a + [m]) {
      assert (a + [m])[|a|] == m;
      forall i | 0 <= i < |a| ensures a[i].ReqFrame? { assert (a + [m])[i] == a[i]; }
    }
  }
}
