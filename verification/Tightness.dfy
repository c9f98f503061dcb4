/** The bound on free credit is attained: the moves of a run that ends quiescent
    with exactly that much. */
module Tightness {
  import opened MuxTypes
  import opened Fragments
  import opened Flow
  import opened Streams
  import opened Conn
  import opened SoloRun
  import opened System
  import opened Theorems

  // ------------------------------------------------------------ one end, one step

  /** Open, with nothing queued but `priority`. */
  predicate Shell(c: Conn, hs: Hs, priority: seq<Frame>) {
    c.closed.None? && c.hs == hs && c.priority == priority && c.control == [] && c.active == {}
  }

  /** No stream yet. */
  predicate Blank(c: Conn) { c.streams == map[] && c.lastPeer == 0 && c.nextId == if c.role.Client? then 1 else 2 }

  /** What settles the handshake stays. */
  predicate SameSelf(c: Conn, d: Conn) {
    d.role == c.role && d.nonceS == c.nonceS && d.serverName == c.serverName && d.binding == c.binding
  }

  lemma Departs(env: Env, x: Solo, f: Frame)
    requires x.c.priority == [f]
    ensures var x' := Step(env, x, ATransmit(None)).0; x'.c == x.c.(priority := []) && x'.sent == x.sent + [f]
  {}

  lemma Challenged(env: Env, x: Solo, now: int, n: Bytes, o: Oracle)
    requires x.c.role.Client? && Shell(x.c, AwaitChallenge, []) && Blank(x.c) && o.signature.Ok?
    ensures var (x', err) := Step(env, x, ARecv(now, Framed(Frame(0, Challenge(n))), o));
            && err.None? && x'.sent == x.sent && Blank(x'.c) && SameSelf(x.c, x'.c)
            && Shell(x'.c, HelloSent, [Frame(0, Hello(MAX_VERSION, x.c.role.key, o.nonceC, o.signature.value))])
  {}

  lemma Greeted(env: Env, x: Solo, now: int, key: KeyId, nonceC: Bytes, sig: Bytes, o: Oracle)
    requires x.c.role.Server? && Shell(x.c, ChallengeSent, []) && Blank(x.c) && o.lookup.Some?
    requires env.verify(key, o.lookup.value, Transcript(x.c.nonceS, nonceC, x.c.serverName, x.c.binding), sig)
    ensures var (x', err) := Step(env, x, ARecv(now, Framed(Frame(0, Hello(MAX_VERSION, key, nonceC, sig))), o));
            && err.None? && x'.sent == x.sent && Blank(x'.c) && x'.c.params == Some(x.c.role.params)
            && x'.c.role == x.c.role
            && Shell(x'.c, Done, [Frame(0, Welcome(MAX_VERSION, x.c.role.params))])
  {}

  lemma Welcomed(env: Env, x: Solo, now: int, p: Params, o: Oracle)
    requires x.c.role.Client? && Shell(x.c, HelloSent, []) && Blank(x.c) && ParamsOk(p)
    ensures var (x', err) := Step(env, x, ARecv(now, Framed(Frame(0, Welcome(MAX_VERSION, p))), o));
            && err.None? && x'.sent == x.sent && Blank(x'.c) && x'.c.params == Some(p) && x'.c.role == x.c.role
            && Shell(x'.c, Done, [])
  {}

  /** A client that can send on stream 1, with nothing waiting. */
  predicate Sends(c: Conn, p: Params, credit: int) {
    && Shell(c, Done, []) && c.params == Some(p) && c.streams.Keys == {1}
    && var s := c.streams[1];
       s.openSent && s.localOpen && s.outbox == [] && s.outboxBytes == 0 && s.send.credit == credit
  }

  predicate Window(w: RecvWin, p: Params, remaining: int, consumed: int) {
    w.window == p.initialWindow && w.remaining == remaining && w.consumed == consumed
  }

  /** A server that waits on stream 1, having consumed so much without announcing it. */
  predicate Takes(c: Conn, p: Params, consumed: int) {
    && Shell(c, Done, []) && c.params == Some(p) && c.streams.Keys == {1}
    && var r := c.streams[1];
       && r.remoteOpen && r.inbox == [] && r.partial == [] && r.partialWire == 0
       && Window(r.recv, p, p.initialWindow - consumed, consumed)
  }

  lemma OpensFirst(env: Env, x: Solo, p: Params, class_: Class)
    requires x.c.role.Client? && Shell(x.c, Done, []) && Blank(x.c) && x.c.params == Some(p) && class_ != Control
    ensures var x1 := Step(env, x, AOpen(class_)).0;
            var x2 := Step(env, x1, ATransmit(Some(PickControl))).0;
            && x1.sent == x.sent && x2.sent == x.sent + [Frame(1, Open(class_))] && Sends(x2.c, p, p.initialWindow)
  {
    var x1 := Step(env, x, AOpen(class_)).0;
    assert x1.c.control == [Frame(1, Open(class_))] && x1.c.streams == map[1 := NewStream(class_, p.initialWindow, false)];
  }

  lemma OpenHeard(env: Env, x: Solo, now: int, p: Params, class_: Class, o: Oracle)
    requires x.c.role.Server? && Shell(x.c, Done, []) && Blank(x.c) && x.c.params == Some(p) && class_ != Control
    ensures var (x', err) := Step(env, x, ARecv(now, Framed(Frame(1, Open(class_))), o));
            err.None? && x'.sent == x.sent && Takes(x'.c, p, 0)
  {}

  // ------------------------------------------------------------ an empty message

  const EMPTY: Bytes := [0]

  lemma EmptyFragment(env: Env, stance: Compress, class_: Class, mf: nat)
    requires mf >= 2
    ensures Fragment(env, stance, class_, [], mf) == [EMPTY] && DecodeFrag(env, mf, EMPTY) == Ok(Frag(false, []))
  {
    var chunks: seq<Bytes> := [[]];
    assert Chunks([], mf - 1) == chunks;
    assert Payloads(env, stance, class_, chunks) ==
      [FragPayload(env, stance, class_, [], false)] + Payloads(env, stance, class_, chunks[1..]);
    assert FragPayload(env, stance, class_, [], false) == [0] + [] == EMPTY;
    FlagBits(false, false, 0);
    assert EMPTY[0] == 0 && EMPTY[1..] == [];
  }

  lemma EmptyCost(p: Params)
    requires p.maxFrame >= 2
    ensures SendCost(p, 0) == 1
  {
    var k := p.maxFrame - 1;
    assert (0 + k - 1) / k == 0;
  }

  lemma EmptyQueued(env: Env, s: Stream, stance: Compress, mf: nat)
    requires mf >= 2 && s.outbox == [] && s.outboxBytes == 0
    ensures Enqueue(s, [], Fragment(env, stance, s.class_, [], mf)) == s.(outbox := [EMPTY], outboxBytes := 1)
  {
    EmptyFragment(env, stance, s.class_, mf);
    hide Fragment;
    assert TotalBytes([EMPTY]) == 1 + TotalBytes([EMPTY][1..]);
  }

  lemma Enqueues(env: Env, x: Solo, p: Params, credit: int, stance: Compress)
    requires Sends(x.c, p, credit) && credit >= 1 && ParamsOk(p)
    ensures var x' := Step(env, x, ASend(1, [], stance)).0;
            && x'.sent == x.sent && x'.c.closed.None? && x'.c.hs == Done && x'.c.params == Some(p)
            && x'.c.priority == [] && x'.c.control == [] && x'.c.active == {1} && x'.c.streams.Keys == {1}
            && var s := x'.c.streams[1];
               s.openSent && s.localOpen && s.outbox == [EMPTY] && s.outboxBytes == 1 && s.send.credit == credit
  {
    EmptyCost(p);
    EmptyQueued(env, x.c.streams[1], if p.compressionAllowed then stance else Never, p.maxFrame);
    hide Fragment, SendCost, Enqueue;
  }

  lemma LeavesOne(env: Env, x: Solo, p: Params, credit: int)
    requires x.c.closed.None? && x.c.hs == Done && x.c.params == Some(p)
    requires x.c.priority == [] && x.c.control == [] && x.c.active == {1} && x.c.streams.Keys == {1}
    requires var s := x.c.streams[1];
             s.openSent && s.localOpen && s.outbox == [EMPTY] && s.outboxBytes == 1 && s.send.credit == credit >= 1
    ensures var x' := Step(env, x, ATransmit(Some(PickStream(1)))).0;
            x'.sent == x.sent + [Frame(1, Data(EMPTY))] && Sends(x'.c, p, credit - 1)
  {
    assert [EMPTY][1..] == [];
  }

  lemma Arrives(env: Env, x: Solo, now: int, p: Params, consumed: int, o: Oracle)
    requires Takes(x.c, p, consumed) && ParamsOk(p) && 0 <= consumed < p.initialWindow
    ensures var (x', err) := Step(env, x, ARecv(now, Framed(Frame(1, Data(EMPTY))), o));
            && err.None? && x'.sent == x.sent && Shell(x'.c, Done, []) && x'.c.params == Some(p) && x'.c.streams.Keys == {1}
            && var r := x'.c.streams[1];
               && r.remoteOpen && r.inbox == [([], 1)] && r.partial == [] && r.partialWire == 0
               && Window(r.recv, p, p.initialWindow - consumed - 1, consumed)
  {
    EmptyFragment(env, Never, Control, p.maxFrame);
    hide Fragment;
    var r := x.c.streams[1];
    assert r.partial + [] == [] && AsU32(1) == 1;
  }

  lemma Consumes(env: Env, x: Solo, p: Params, consumed: int)
    requires Shell(x.c, Done, []) && x.c.params == Some(p) && x.c.streams.Keys == {1}
    requires var r := x.c.streams[1];
             && r.remoteOpen && r.inbox == [([], 1)] && r.partial == [] && r.partialWire == 0
             && Window(r.recv, p, p.initialWindow - consumed - 1, consumed)
    requires 0 <= consumed && consumed + 1 < p.initialWindow / 2
    ensures var x' := Step(env, x, ATake(1)).0; x'.sent == x.sent && Takes(x'.c, p, consumed + 1)
  {
    assert x.c.streams[1].inbox[1..] == [];
  }

  // ------------------------------------------------------------------ the moves

  /** Who the client is, what it and the server answer, and the first stream's class. */
  datatype Script = Script(u: Setup, nonceC: Bytes, sig: Bytes, record: Bytes, class_: Class, stance: Compress)
  {
    function Signs(): Oracle { Oracle(nonceC, Ok(sig), None) }
    function Knows(): Oracle { Oracle([], Ok([]), Some(record)) }

    /** The server's key store takes the client's signature. */
    predicate Accepted(env: Env) {
      SetupOk(u) && class_ != Control
      && env.verify(u.client.role.key, record, Transcript(u.nonceS, nonceC, u.server.serverName, u.server.binding), sig)
    }

    function Handshake(): seq<Move> {
      [AtServer(ATransmit(None)), ToClient(u.nowC, Signs()), AtClient(ATransmit(None)), ToServer(u.nowS, Knows()),
       AtServer(ATransmit(None)), ToClient(u.nowC, Signs())]
    }

    function Opening(): seq<Move> {
      [AtClient(AOpen(class_)), AtClient(ATransmit(Some(PickControl))), ToServer(u.nowS, Knows())]
    }

    /** An empty message sent, transmitted, received and consumed. */
    function Round(): seq<Move> {
      [AtClient(ASend(1, [], stance)), AtClient(ATransmit(Some(PickStream(1)))), ToServer(u.nowS, Knows()), AtServer(ATake(1))]
    }

    function Rounds(n: nat): seq<Move> { if n == 0 then [] else Round() + Rounds(n - 1) }
  }

  lemma {:induction false} PlayAppend(env: Env, y: Sys, a: seq<Move>, b: seq<Move>)
    ensures Play(env, y, a + b) == Play(env, Play(env, y, a), b)
    decreases |a|
  {
    if a == [] {
      assert a + b == b;
    } else {
      assert (a + b)[1..] == a[1..] + b;
      PlayAppend(env, Make(env, y, a[0]), a[1..], b);
    }
  }

  /** Every frame transmitted has arrived. */
  predicate Settled(y: Sys) { y.byServer == |y.client.sent| && y.byClient == |y.server.sent| }

  /** `k` messages in. */
  predicate After(y: Sys, p: Params, k: nat) {
    Settled(y) && Sends(y.client.c, p, p.initialWindow - k) && Takes(y.server.c, p, k)
  }

  lemma Four(env: Env, y: Sys, a: Move, b: Move, c: Move, d: Move)
    ensures Play(env, y, [a, b, c, d]) == Make(env, Make(env, Make(env, Make(env, y, a), b), c), d)
  {
    hide Make;
    var (y1, y2, y3) := (Make(env, y, a), Make(env, Make(env, y, a), b), Make(env, Make(env, Make(env, y, a), b), c));
    assert [a, b, c, d][1..] == [b, c, d] && [b, c, d][1..] == [c, d] && [c, d][1..] == [d] && [d][1..] == [];
    assert Play(env, y3, [d]) == Make(env, y3, d);
    assert Play(env, y2, [c, d]) == Make(env, y3, d);
    assert Play(env, y1, [b, c, d]) == Make(env, y3, d);
  }

  lemma RoundOut(env: Env, y: Sys, t: Script, p: Params, k: nat)
    requires After(y, p, k) && ParamsOk(p) && k + 1 < p.initialWindow / 2
    ensures var y2 := Make(env, Make(env, y, t.Round()[0]), t.Round()[1]);
            && y2 == y.(client := y2.client) && y2.client.sent == y.client.sent + [Frame(1, Data(EMPTY))]
            && Sends(y2.client.c, p, p.initialWindow - k - 1)
  {
    Enqueues(env, y.client, p, p.initialWindow - k, t.stance);
    LeavesOne(env, Make(env, y, t.Round()[0]).client, p, p.initialWindow - k);
    hide Step, Sends, Takes;
  }

  lemma RoundIn(env: Env, y: Sys, t: Script, p: Params, k: nat)
    requires Takes(y.server.c, p, k) && ParamsOk(p) && k + 1 < p.initialWindow / 2
    requires |y.client.sent| == y.byServer + 1 && y.client.sent[y.byServer] == Frame(1, Data(EMPTY))
    ensures var y2 := Make(env, Make(env, y, t.Round()[2]), t.Round()[3]);
            && y2.client == y.client && y2.byClient == y.byClient && y2.byServer == y.byServer + 1
            && y2.server.sent == y.server.sent && Takes(y2.server.c, p, k + 1)
  {
    Arrives(env, y.server, t.u.nowS, p, k, t.Knows());
    Consumes(env, Make(env, y, t.Round()[2]).server, p, k);
    hide Step, Takes;
  }

  lemma OneRound(env: Env, y: Sys, t: Script, p: Params, k: nat)
    requires After(y, p, k) && ParamsOk(p) && k + 1 < p.initialWindow / 2
    ensures After(Play(env, y, t.Round()), p, k + 1)
  {
    Four(env, y, t.Round()[0], t.Round()[1], t.Round()[2], t.Round()[3]);
    RoundOut(env, y, t, p, k);
    hide Play, Make, Sends, Takes;
    RoundIn(env, Make(env, Make(env, y, t.Round()[0]), t.Round()[1]), t, p, k);
  }

  lemma RoundsAre(env: Env, y: Sys, t: Script, n: nat)
    ensures n == 0 ==> Play(env, y, t.Rounds(n)) == y
    ensures n > 0 ==> t.Rounds(n) == t.Round() + t.Rounds(n - 1)
  { hide Make; }

  lemma {:induction false} ManyRounds(env: Env, y: Sys, t: Script, p: Params, k: nat, n: nat)
    requires After(y, p, k) && ParamsOk(p) && k + n < p.initialWindow / 2
    ensures After(Play(env, y, t.Rounds(n)), p, k + n)
    decreases n
  {
    hide *;
    RoundsAre(env, y, t, n);
    if n > 0 {
      OneRound(env, y, t, p, k);
      PlayAppend(env, y, t.Round(), t.Rounds(n - 1));
      ManyRounds(env, Play(env, y, t.Round()), t, p, k + 1, n - 1);
    }
  }
  // --------------------------------------------------------------- the beginning

  /** Both ends after the handshake. */
  predicate Met(y: Sys, p: Params) {
    && Settled(y) && y.client.c.role.Client? && y.server.c.role.Server?
    && Shell(y.client.c, Done, []) && Blank(y.client.c) && y.client.c.params == Some(p)
    && Shell(y.server.c, Done, []) && Blank(y.server.c) && y.server.c.params == Some(p)
  }

  /** CHALLENGE and the HELLO that answers it are on their way. */
  predicate Asked(y: Sys, t: Script)
    requires SetupOk(t.u)
  {
    && Shell(y.server.c, ChallengeSent, []) && Blank(y.server.c) && SameSelf(New(t.u.server, t.u.nowS, t.u.nonceS), y.server.c)
    && y.client.c.role == t.u.client.role && Shell(y.client.c, HelloSent, []) && Blank(y.client.c)
    && y.byClient == 1 == |y.server.sent| && y.byServer == 0
    && y.client.sent == [Frame(0, Hello(MAX_VERSION, t.u.client.role.key, t.nonceC, t.sig))]
  }

  lemma Asks(env: Env, t: Script)
    requires t.Accepted(env)
    ensures Asked(Play(env, Begin(t.u), t.Handshake()[..3]), t)
  {
    var (y, ms) := (Begin(t.u), t.Handshake());
    Three(env, y, ms[0], ms[1], ms[2]);
    assert ms[..3] == [ms[0], ms[1], ms[2]];
    var y1 := Make(env, y, ms[0]);
    var y2 := Make(env, y1, ms[1]);
    hide Step, Play;
    Departs(env, y.server, Frame(0, Challenge(t.u.nonceS)));
    Challenged(env, y1.client, t.u.nowC, t.u.nonceS, t.Signs());
    Departs(env, y2.client, Frame(0, Hello(MAX_VERSION, t.u.client.role.key, t.nonceC, t.sig)));
  }

  lemma Meets(env: Env, t: Script, y: Sys)
    requires t.Accepted(env) && Asked(y, t)
    ensures Met(Play(env, y, t.Handshake()[3..]), Terms(t.u))
  {
    var (ms, p) := (t.Handshake(), Terms(t.u));
    NormalizedOk(t.u.server.role.params);
    Three(env, y, ms[3], ms[4], ms[5]);
    assert ms[3..] == [ms[3], ms[4], ms[5]];
    var y1 := Make(env, y, ms[3]);
    var y2 := Make(env, y1, ms[4]);
    hide Step, Play, Normalize;
    Greeted(env, y.server, t.u.nowS, t.u.client.role.key, t.nonceC, t.sig, t.Knows());
    Departs(env, y1.server, Frame(0, Welcome(MAX_VERSION, p)));
    Welcomed(env, y2.client, t.u.nowC, p, t.Signs());
  }

  lemma Opens(env: Env, t: Script, y: Sys, p: Params)
    requires Met(y, p) && t.class_ != Control
    ensures After(Play(env, y, t.Opening()), p, 0)
  {
    var ms := t.Opening();
    Three(env, y, ms[0], ms[1], ms[2]);
    var y1 := Make(env, y, ms[0]);
    var y2 := Make(env, y1, ms[1]);
    hide Step, Play, Sends, Takes;
    OpensFirst(env, y.client, p, t.class_);
    assert y2.client.sent[y2.byServer] == Frame(1, Open(t.class_));
    OpenHeard(env, y2.server, t.u.nowS, p, t.class_, t.Knows());
  }

  lemma Three(env: Env, y: Sys, a: Move, b: Move, c: Move)
    ensures Play(env, y, [a, b, c]) == Make(env, Make(env, Make(env, y, a), b), c)
  {
    hide Make;
    var (y1, y2) := (Make(env, y, a), Make(env, Make(env, y, a), b));
    assert [a, b, c][1..] == [b, c] && [b, c][1..] == [c] && [c][1..] == [];
    assert Play(env, y2, [c]) == Make(env, y2, c);
    assert Play(env, y1, [b, c]) == Make(env, y2, c);
  }

  // ------------------------------------------------------------------- attained

  lemma AfterIsQuiescent(y: Sys, p: Params, k: nat)
    requires After(y, p, k)
    ensures Quiescent(y, true, 1) && Sender(y, true).c.streams[1].FreeCredit() == Max(p.initialWindow - k, 0)
  {
    assert y.client.sent[y.byServer..] == [] && y.server.sent[y.byClient..] == [];
  }

  lemma Tightest(env: Env, t: Script, n: nat)
    requires t.Accepted(env) && n < Terms(t.u).initialWindow / 2
    ensures After(Reached(env, t.u, t.Handshake() + t.Opening() + t.Rounds(n)), Terms(t.u), n)
  {
    NormalizedOk(t.u.server.role.params);
    var (p, h, y) := (Terms(t.u), t.Handshake(), Begin(t.u));
    assert h == h[..3] + h[3..] && t.class_ != Control;
    hide *;
    Asks(env, t);
    var y1 := Play(env, y, h[..3]);
    Meets(env, t, y1);
    PlayAppend(env, y, h[..3], h[3..]);
    var y2 := Play(env, y, h);
    Opens(env, t, y2, p);
    PlayAppend(env, y, h, t.Opening());
    var y3 := Play(env, y, h + t.Opening());
    ManyRounds(env, y3, t, p, 0, n);
    PlayAppend(env, y, h + t.Opening(), t.Rounds(n));
    ReachedIs(env, t.u, h + t.Opening() + t.Rounds(n));
  }

  lemma ReachedIs(env: Env, u: Setup, moves: seq<Move>)
    ensures Reached(env, u, moves) == Play(env, Begin(u), moves)
  {}

  /** `NoStall` is exact: in the run in which the client opens a stream and half a
      window less one of empty messages pass, the direction is quiescent and exactly
      `Threshold` credit is free, whatever the configurations; so the next message
      that costs more is refused. */
  lemma ThresholdIsTight(env: Env, t: Script, msg: Bytes, stance: Compress)
    requires t.Accepted(env)
    ensures var w := Terms(t.u).initialWindow;
            var y := Reached(env, t.u, t.Handshake() + t.Opening() + t.Rounds(w / 2 - 1));
            && Quiescent(y, true, 1) && y.client.c.streams[1].FreeCredit() == Threshold(w)
            && (|msg| <= Terms(t.u).maxMessage ==>
                (Send(env, y.client.c, 1, msg, stance).1 == None <==> SendCost(Terms(t.u), |msg|) <= Threshold(w)))
  {
    var (p, w) := (Terms(t.u), Terms(t.u).initialWindow);
    NormalizedOk(t.u.server.role.params);
    var moves := t.Handshake() + t.Opening() + t.Rounds(w / 2 - 1);
    var y := Reached(env, t.u, moves);
    hide Reached, Normalize;
    Tightest(env, t, w / 2 - 1);
    AfterIsQuiescent(y, p, w / 2 - 1);
    assert Sends(y.client.c, p, w - (w / 2 - 1)) && Ready(y.client.c).None?;
    if |msg| <= p.maxMessage { SendAccepts(env, y.client.c, p, 1, msg, stance); }
  }
}
