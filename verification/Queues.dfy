/** How many messages may queue on one stream, and when that is not bounded. */
module Queues {
  import opened MuxTypes
  import opened Fragments
  import opened Flow
  import opened Streams
  import opened Timing
  import opened Conn
  import opened SoloRun
  import opened Hostile
  import opened Runs
  import opened Scripts
  import opened Wakeups

  /** Every queued message is accounted for by at least one byte of the window. */
  predicate Costly(s: Stream) { forall i | 0 <= i < |s.inbox| :: s.inbox[i].1 >= 1 }

  /** The length of a DATA frame, if there is one, does not vanish in 32 bits. */
  predicate SizedFrame(a: Act, id: StreamId) {
    DataLen(a, id).Some? && DataLen(a, id).value > 0 ==> AsU32(DataLen(a, id).value) > 0
  }

  predicate Sized(acts: seq<Act>, id: StreamId) { forall i | 0 <= i < |acts| :: SizedFrame(acts[i], id) }

  lemma StepCostly(env: Env, x: Solo, a: Act, id: StreamId)
    requires SoloInv(x) && id != 0 && (id in x.c.streams ==> Costly(x.c.streams[id]))
    requires SizedFrame(a, id)
    ensures var x' := Step(env, x, a).0; id in x'.c.streams ==> Costly(x'.c.streams[id])
  {
    var x' := Step(env, x, a).0;
    hide SoloInv, Step, CreditStep, InboxStep, Costly;
    StepStep(env, x, a, id);
    ViewKnown(x, id);
    ViewKnown(x', id);
    if id in x'.c.streams {
      if id in x.c.streams {
        InboxCostly(a, id, x.c.streams[id], x'.c.streams[id]);
      } else {
        EmptyCostly(x'.c.streams[id]);
      }
    }
  }

  lemma EmptyCostly(s: Stream)
    ensures s.inbox == [] ==> Costly(s)
  {}

  lemma InboxCostly(a: Act, id: StreamId, s: Stream, t: Stream)
    requires Costly(s) && InboxStep(a, id, s, t) && SizedFrame(a, id)
    ensures Costly(t)
  {
    if t.inbox != s.inbox && |t.inbox| == |s.inbox| + 1 {
      forall i | 0 <= i < |t.inbox| ensures t.inbox[i].1 >= 1 {
        if i < |s.inbox| { assert t.inbox[i] == s.inbox[i]; }
      }
    }
  }

  lemma {:induction false} RunCostly(env: Env, x: Solo, acts: seq<Act>, id: StreamId)
    requires SoloInv(x) && id != 0 && (id in x.c.streams ==> Costly(x.c.streams[id])) && Sized(acts, id)
    ensures var x' := Exec(env, x, acts); id in x'.c.streams ==> Costly(x'.c.streams[id])
    decreases |acts|
  {
    if acts != [] {
      hide SoloInv, Step, Costly;
      assert SizedFrame(acts[0], id);
      StepCostly(env, x, acts[0], id);
      StepKeeps(env, x, acts[0]);
      assert forall i | 0 <= i < |acts| - 1 :: acts[1..][i] == acts[i + 1];
      RunCostly(env, Step(env, x, acts[0]).0, acts[1..], id);
    }
  }

  /** Against any peer that sends no frame of a multiple of four gigabytes, no
      stream ever has more messages queued than its window has bytes. */
  lemma QueueBounded(env: Env, cfg: Config, now: int, nonceS: Bytes, acts: seq<Act>, id: StreamId)
    requires id != 0 && Sized(acts, id)
    ensures var c := After(env, cfg, now, nonceS, acts).c;
            id in c.streams ==> c.params.Some? && |c.streams[id].inbox| <= c.params.value.initialWindow
  {
    StartKeeps(cfg, now, nonceS);
    assert Start(cfg, now, nonceS).c.streams == map[];
    hide SoloInv, Step;
    RunCostly(env, Start(cfg, now, nonceS), acts, id);
    BuffersBounded(env, cfg, now, nonceS, acts, id);
    var c := After(env, cfg, now, nonceS, acts).c;
    if id in c.streams { InboxBounded(c.streams[id].inbox); }
  }

  // -------------------------------------------------- frames of one length

  /** The same DATA frame received `n` times. */
  function Fed(env: Env, c: Conn, id: StreamId, b: Body, n: nat): Result<Conn, ProtocolError> {
    if n == 0 then Ok(c) else
    match Fed(env, c, id, b, n - 1)
    case Err(e) => Err(e)
    case Ok(c1) => OnData(env, c1, id, b)
  }

  /** Messages queued after `n` frames, if all were taken. */
  function QueuedBy(env: Env, c: Conn, id: StreamId, b: Body, n: nat): nat {
    match Fed(env, c, id, b, n)
    case Err(_) => 0
    case Ok(c1) => if id in c1.streams then |c1.streams[id].inbox| else 0
  }

  /** An open stream between two messages. */
  predicate Between(c: Conn, id: StreamId) {
    id in c.streams && c.streams[id].remoteOpen && c.streams[id].partial == [] && c.streams[id].partialWire == 0
  }

  /** A payload that is a message by itself, within the message bound. */
  predicate Whole(env: Env, p: Params, b: Body) {
    b.Data? &&
    match DecodeFrag(env, p.maxFrame, b.payload)
    case Ok(f) => !f.more && |f.data| <= p.maxMessage
    case Err(_) => false
  }

  lemma OneMore(env: Env, c: Conn, id: StreamId, b: Body)
    requires Between(c, id) && Whole(env, c.P(), b)
    ensures var (r, w) := (OnData(env, c, id, b), c.streams[id].recv);
            && (r.Ok? <==> AsU32(|b.payload|) <= w.remaining)
            && (r.Ok? ==> Between(r.value, id) && r.value.P() == c.P()
                          && |r.value.streams[id].inbox| == |c.streams[id].inbox| + 1
                          && r.value.streams[id].recv == w.(remaining := w.remaining - AsU32(|b.payload|)))
  {}

  /** What `n` such frames do: each queues a message, and each is charged its
      length in 32 bits. */
  lemma {:induction false} Flood(env: Env, c: Conn, id: StreamId, b: Body, n: nat)
    requires Between(c, id) && Whole(env, c.P(), b)
    ensures var (r, w, len) := (Fed(env, c, id, b, n), c.streams[id].recv, AsU32(|b.payload|));
            && (r.Ok? <==> n * len <= w.remaining)
            && (r.Ok? ==> Between(r.value, id) && r.value.P() == c.P()
                          && |r.value.streams[id].inbox| == |c.streams[id].inbox| + n
                          && r.value.streams[id].recv == w.(remaining := w.remaining - n * len))
  {
    if n > 0 {
      Flood(env, c, id, b, n - 1);
      var len := AsU32(|b.payload|);
      assert n * len == (n - 1) * len + len;
      var r := Fed(env, c, id, b, n - 1);
      if r.Ok? { OneMore(env, r.value, id, b); }
    }
  }

  /** Frames of one length keep a new stream's queue within the window, if and
      only if that length does not vanish in 32 bits. */
  lemma BoundIffSized(env: Env, c: Conn, id: StreamId, b: Body)
    requires Between(c, id) && Whole(env, c.P(), b)
    requires c.streams[id].inbox == [] && c.streams[id].recv.remaining == c.P().initialWindow
    ensures (forall n: nat :: QueuedBy(env, c, id, b, n) <= c.P().initialWindow) <==> |b.payload| % 0x1_0000_0000 != 0
  {
    var window: nat, len := c.P().initialWindow, AsU32(|b.payload|);
    hide QueuedBy, Whole, Between;
    forall n: nat
      ensures len > 0 ==> QueuedBy(env, c, id, b, n) <= window
      ensures len == 0 ==> QueuedBy(env, c, id, b, n) == n
    {
      QueuedIs(env, c, id, b, n);
      Multiples(n, len, window);
    }
    if len == 0 { assert QueuedBy(env, c, id, b, window + 1) == window + 1; }
  }

  lemma QueuedIs(env: Env, c: Conn, id: StreamId, b: Body, n: nat)
    requires Between(c, id) && Whole(env, c.P(), b) && c.streams[id].inbox == []
    ensures QueuedBy(env, c, id, b, n) == if n * AsU32(|b.payload|) <= c.streams[id].recv.remaining then n else 0
  {
    Flood(env, c, id, b, n);
    hide Fed, OnData, Whole;
  }

  lemma Multiples(n: nat, len: nat, window: nat)
    ensures len == 0 ==> n * len == 0
    ensures len > 0 && n * len <= window ==> n <= window
  {
    if len > 0 { assert n * len == n + n * (len - 1); }
  }

  // ------------------------------------------------------------- a whole run

  const FOUR_GIGABYTES := 0x1_0000_0000

  /** A payload of exactly four gigabytes is a message by itself under the largest
      message bound, and is charged nothing. */
  lemma OversizedIsFree(env: Env, p: Params, payload: Bytes)
    requires |payload| == FOUR_GIGABYTES && payload[0] == 0 && p.maxMessage == U32_MAX
    ensures Whole(env, p, Data(payload)) && AsU32(|payload|) == 0
  {
    assert payload[0] & !FLAGS_KNOWN == 0 && payload[0] & FLAG_COMPRESSED == 0 && payload[0] & FLAG_MORE == 0;
  }

  /** The peer of a client opens a stream and sends such a payload `n` times. */
  function FloodActs(now: int, p: Params, class_: Class, payload: Bytes, n: nat): seq<Act> {
    Greeting(now, p) + [Arrives(now, Frame(2, Open(class_)))] + Repeated(Arrives(now, Frame(2, Data(payload))), n)
  }

  function Repeated(a: Act, n: nat): seq<Act> { seq(n, _ => a) }

  lemma {:induction false} FloodRun(env: Env, x: Solo, now: int, payload: Bytes, n: nat)
    requires x.c.closed.None? && x.c.hs == Done && Between(x.c, 2) && Whole(env, x.c.P(), Data(payload)) && AsU32(|payload|) == 0
    ensures var x' := Exec(env, x, Repeated(Arrives(now, Frame(2, Data(payload))), n));
            2 in x'.c.streams && |x'.c.streams[2].inbox| == |x.c.streams[2].inbox| + n && x'.c.params == x.c.params
    decreases n
  {
    if n > 0 {
      var a := Arrives(now, Frame(2, Data(payload)));
      var c2 := Heard(x.c, now);
      OneMore(env, c2, 2, Data(payload));
      ArrivalStep(env, x, now, Frame(2, Data(payload)));
      assert Repeated(a, n)[1..] == Repeated(a, n - 1);
      hide OnData, Step;
      FloodRun(env, Step(env, x, a).0, now, payload, n - 1);
    }
  }

  lemma Opened(env: Env, x: Solo, now: int, class_: Class)
    requires x.c.closed.None? && x.c.hs == Done && x.c.role.Client? && x.c.lastPeer == 0 && class_ != Control
    ensures var c := Step(env, x, Arrives(now, Frame(2, Open(class_)))).0.c;
            && c.closed.None? && c.hs == Done && c.params == x.c.params
            && Between(c, 2) && c.streams[2].inbox == []
  {
    ArrivalStep(env, x, now, Frame(2, Open(class_)));
    assert OnStreamOpen(Heard(x.c, now), 2, Open(class_)).Ok?;
  }

  /** So in the run in which the peer opens a stream and sends it `n` times, `n`
      messages are queued, whatever the window and whatever `n`. */
  lemma QueueUnbounded(env: Env, cfg: Config, now: int, nonceS: Bytes, p: Params, class_: Class, payload: Bytes, n: nat)
    requires cfg.role.Client? && ParamsOk(p) && p.maxMessage == U32_MAX && class_ != Control
    requires |payload| == FOUR_GIGABYTES && payload[0] == 0
    ensures var c := After(env, cfg, now, nonceS, FloodActs(now, p, class_, payload, n)).c;
            c.params == Some(p) && 2 in c.streams && |c.streams[2].inbox| == n
  {
    var opening := Arrives(now, Frame(2, Open(class_)));
    var flood := Repeated(Arrives(now, Frame(2, Data(payload))), n);
    var x1 := After(env, cfg, now, nonceS, Greeting(now, p));
    var x2 := Step(env, x1, opening).0;
    Greeted(env, cfg, now, nonceS, p);
    Opened(env, x1, now, class_);
    OversizedIsFree(env, p, payload);
    hide Step, Exec, Whole, Start;
    ExecAppend(env, Start(cfg, now, nonceS), Greeting(now, p) + [opening], flood);
    ExecAppend(env, Start(cfg, now, nonceS), Greeting(now, p), [opening]);
    ExecOne(env, x1, opening);
    FloodRun(env, x2, now, payload, n);
  }
}
