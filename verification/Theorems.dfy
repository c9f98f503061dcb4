/** What an application may rely on, over every run of a client and a server.
    `up` is the direction from the client to the server. */
module Theorems {
  import opened MuxTypes
  import opened Fragments
  import opened Flow
  import opened Streams
  import opened Conn
  import opened Ends
  import opened SoloRun
  import opened Hostile
  import opened Runs
  import opened Handshake
  import opened Peers
  import opened System
  import Link

  function Sender(y: Sys, up: bool): Solo { if up then y.client else y.server }
  function Receiver(y: Sys, up: bool): Solo { if up then y.server else y.client }

  /** Frames of stream `id` handed to the transport and not delivered yet. */
  function InFlight(y: Sys, up: bool, id: StreamId): seq<Body> {
    var (x, rd) := (Sender(y, up), if up then y.byServer else y.byClient);
    if rd <= |x.sent| then Items(x.sent[rd..], id) else []
  }

  function Accepted(y: Sys, up: bool, id: StreamId): seq<Bytes> { Get(Sender(y, up).accepted, id) }
  function Returned(y: Sys, up: bool, id: StreamId): seq<Bytes> { Get(Receiver(y, up).delivered, id) }

  /** The receiving end still takes DATA on the stream, and the sending end tracks it. */
  predicate Flowing(y: Sys, up: bool, id: StreamId) {
    && id in Sender(y, up).c.streams && id in Receiver(y, up).c.streams
    && Receiver(y, up).c.streams[id].remoteOpen
  }

  /** The pair of ends of one stream in one direction. */
  function EndOf(y: Sys, up: bool, id: StreamId): End
    requires y.byServer <= |y.client.sent| && y.byClient <= |y.server.sent|
  { if up then View(y.client, y.byServer, id) else View(y.server, y.byClient, id) }

  lemma JoinedEnds(env: Env, p: Params, y: Sys, up: bool, id: StreamId)
    requires SysInv(env, p, y) && id != 0
    ensures y.byServer <= |y.client.sent| && y.byClient <= |y.server.sent|
    ensures var (ex, ey) := (EndOf(y, up, id), EndOf(y, !up, id));
            && EndOk(p, ex) && EndOk(p, ey) && Link.Linked(env, p, ex, ey) && Link.Linked(env, p, ey, ex)
  {
    assert Lane(env, p, y.client, y.byServer, y.server, y.byClient, id);
    EndOkAt(p, y.client, y.byServer, id);
    EndOkAt(p, y.server, y.byClient, id);
  }

  lemma SenderOk(env: Env, p: Params, y: Sys, up: bool)
    requires SysInv(env, p, y)
    ensures ParamsOk(p)
    ensures Sender(y, up).c.hs == Done ==> Sender(y, up).c.params == Some(p)
    ensures Sender(y, up).c.closed.Some? || Sender(y, up).c.hs != Done ==> Sender(y, up).c.streams == map[]
    ensures Sender(y, up).c.role.Client? != Receiver(y, up).c.role.Client?
  {
    assert ConnInv(Sender(y, up).c);
  }

  lemma BothEnds(env: Env, u: Setup, moves: seq<Move>, up: bool, id: StreamId) returns (ex: End, ey: End)
    requires SetupOk(u) && id != 0
    ensures var y := Reached(env, u, moves);
            && y.byServer <= |y.client.sent| && y.byClient <= |y.server.sent|
            && ex == EndOf(y, up, id) && ey == EndOf(y, !up, id)
    ensures ParamsOk(Terms(u))
    ensures EndOk(Terms(u), ex) && EndOk(Terms(u), ey)
    ensures Link.Linked(env, Terms(u), ex, ey) && Link.Linked(env, Terms(u), ey, ex)
    ensures var y := Reached(env, u, moves);
            && (Sender(y, up).c.hs == Done ==> Sender(y, up).c.params == Some(Terms(u)))
            && (Sender(y, up).c.closed.Some? || Sender(y, up).c.hs != Done ==> Sender(y, up).c.streams == map[])
            && Sender(y, up).c.role.Client? != Receiver(y, up).c.role.Client?
  {
    hide *;
    var y := Reached(env, u, moves);
    ReachedInv(env, u, moves);
    JoinedEnds(env, Terms(u), y, up, id);
    SenderOk(env, Terms(u), y, up);
    ex, ey := EndOf(y, up, id), EndOf(y, !up, id);
  }

  /** What the two ends of a direction are made of. */
  lemma Fields(y: Sys, up: bool, id: StreamId)
    requires y.byServer <= |y.client.sent| && y.byClient <= |y.server.sent|
    ensures var (x, z, ex, ey) := (Sender(y, up), Receiver(y, up), EndOf(y, up, id), EndOf(y, !up, id));
            && ex.st == (if id in x.c.streams then Some(x.c.streams[id]) else None)
            && ey.st == (if id in z.c.streams then Some(z.c.streams[id]) else None)
            && ex.wire == InFlight(y, up, id) && ey.wire == InFlight(y, !up, id)
            && ey.ctl == Items(z.c.control, id)
            && ex.accepted == Accepted(y, up, id) && ey.delivered == Returned(y, up, id)
            && (ey.fin <==> Finished(id) in z.elog) && (ey.closed <==> z.c.closed.Some?)
            && (Flowing(y, up, id) <==> ex.st.Some? && ey.st.Some? && ey.st.value.remoteOpen)
  {}

  // -------------------------------------------------------------- no accusation

  /** Two conforming ends never find a protocol error in each other's frames:
      not on resets, half-closes, crossing closes, refusals or late frames. */
  lemma NoAccusation(env: Env, u: Setup, moves: seq<Move>)
    requires SetupOk(u)
    ensures !Reached(env, u, moves).accused
  { ReachedInv(env, u, moves); }

  /** Once the client has finished the handshake the server has too, and they
      hold the same version, parameters and key; the parameters are the server's
      configuration clamped into the protocol's ranges. */
  lemma BothAgree(env: Env, u: Setup, moves: seq<Move>)
    requires SetupOk(u)
    ensures var (c, s) := (Reached(env, u, moves).client.c, Reached(env, u, moves).server.c);
            && (c.hs == Done ==>
                && s.hs == Done && c.key == s.key && c.version == s.version && c.params == s.params == Some(Terms(u))
                && c.version.Some? && MIN_VERSION <= c.version.value <= MAX_VERSION)
            && (s.hs == Done ==> s.key.Some? && s.key == c.key && s.params == Some(Terms(u)))
  { ReachedInv(env, u, moves); }

  // ----------------------------------------------------------------- messages

  /** What `recv_msg` returned is a prefix of what `send` accepted, in every run:
      whole messages, once, in order, however they were cut and compressed. */
  lemma ReturnedIsPrefix(env: Env, u: Setup, moves: seq<Move>, up: bool, id: StreamId)
    requires SetupOk(u) && id != 0
    ensures var y := Reached(env, u, moves); Returned(y, up, id) <= Accepted(y, up, id)
  {
    var ex, ey := BothEnds(env, u, moves, up, id);
    Fields(Reached(env, u, moves), up, id);
    hide *;
    GotPrefix(env, Terms(u), ex, ey);
  }

  lemma GotPrefix(env: Env, p: Params, ex: End, ey: End)
    requires Link.Linked(env, p, ex, ey)
    ensures ey.delivered <= ex.accepted
  {
    var rest := if ey.st.Some? then InboxMsgs(ey.st.value.inbox) else [];
    Link.PrefixTrans(ey.delivered, rest, ex.accepted);
  }

  /** Neither end has given up on a direction: the receiver has not seen its end,
      or is yet to see the OPEN, and the sender tracks it or has its FIN on the way. */
  predicate Underway(y: Sys, up: bool, id: StreamId) {
    var (x, z) := (Sender(y, up).c, Receiver(y, up).c);
    && z.closed.None?
    && (if id in z.streams then z.streams[id].remoteOpen else z.PeerParity(id) && !z.Known(id))
    && (id in x.streams || Link.HasFin(InFlight(y, up, id) + Items(x.control, id)))
  }

  /** What a receiver has of a message, and in whole messages. */
  function PartialOf(c: Conn, id: StreamId): Bytes { if id in c.streams then c.streams[id].partial else [] }
  function InboxOf(c: Conn, id: StreamId): seq<Bytes> { if id in c.streams then InboxMsgs(c.streams[id].inbox) else [] }
  function OutboxOf(c: Conn, id: StreamId): seq<Bytes> { if id in c.streams then c.streams[id].outbox else [] }

  /** While a direction is under way nothing is missing: accepted messages are
      those returned, those in the inbox, and those the partial message, the
      frames in flight and the outbox add up to. */
  lemma NothingMissing(env: Env, u: Setup, moves: seq<Move>, up: bool, id: StreamId)
    requires SetupOk(u) && id != 0 && Underway(Reached(env, u, moves), up, id)
    ensures var (y, mf) := (Reached(env, u, moves), Terms(u).maxFrame);
            var (x, z) := (Sender(y, up).c, Receiver(y, up).c);
            var queue := Link.Datas(InFlight(y, up, id)) + OutboxOf(x, id);
            && Accepted(y, up, id) == Returned(y, up, id) + InboxOf(z, id) + Msgs(env, mf, PartialOf(z, id), queue)
            && Left(env, mf, PartialOf(z, id), queue) == []
  {
    var y := Reached(env, u, moves);
    var ex, ey := BothEnds(env, u, moves, up, id);
    UnderwayFields(y, up, id);
    Fields(y, up, id);
    hide *;
    UnderwayMsgs(env, Terms(u), ex, ey);
  }

  lemma UnderwayFields(y: Sys, up: bool, id: StreamId)
    requires y.byServer <= |y.client.sent| && y.byClient <= |y.server.sent| && Underway(y, up, id)
    requires Sender(y, up).c.role.Client? != Receiver(y, up).c.role.Client?
    ensures var (ex, ey) := (EndOf(y, up, id), EndOf(y, !up, id));
            && Link.Live(ex, ey) && (ex.st.Some? || Link.HasFin(ex.wire + ex.ctl))
            && Link.Outbox(ex) == OutboxOf(Sender(y, up).c, id)
            && Link.Acc(ey) == PartialOf(Receiver(y, up).c, id)
            && Link.Got(ey) == ey.delivered + InboxOf(Receiver(y, up).c, id)
  {
    assert Sender(y, up).c.PeerParity(id) != Receiver(y, up).c.PeerParity(id);
  }

  lemma UnderwayMsgs(env: Env, p: Params, ex: End, ey: End)
    requires Link.Linked(env, p, ex, ey) && Link.Live(ex, ey) && (ex.st.Some? || Link.HasFin(ex.wire + ex.ctl))
    ensures var (mf, queue) := (p.maxFrame, Link.Datas(ex.wire) + Link.Outbox(ex));
            && ex.accepted == Link.Got(ey) + Msgs(env, mf, Link.Acc(ey), queue)
            && Left(env, mf, Link.Acc(ey), queue) == []
  {
    assert Link.Queued(ex) == Link.Datas(ex.wire) + Link.Outbox(ex);
  }

  /** `Finished` means everything: no message of the stream is outstanding. */
  lemma FinishedMeansAll(env: Env, u: Setup, moves: seq<Move>, up: bool, id: StreamId)
    requires SetupOk(u) && id != 0
    requires Finished(id) in Receiver(Reached(env, u, moves), up).elog
    ensures var y := Reached(env, u, moves); Returned(y, up, id) == Accepted(y, up, id)
  {
    var ex, ey := BothEnds(env, u, moves, up, id);
    Fields(Reached(env, u, moves), up, id);
  }

  /** Once the FIN arrived, the inbox holds all that is left. */
  lemma FinMeansInbox(env: Env, u: Setup, moves: seq<Move>, up: bool, id: StreamId)
    requires SetupOk(u) && id != 0
    requires var r := Receiver(Reached(env, u, moves), up).c; id in r.streams && !r.streams[id].remoteOpen
    ensures var y := Reached(env, u, moves);
            Accepted(y, up, id) == Returned(y, up, id) + InboxMsgs(Receiver(y, up).c.streams[id].inbox)
  {
    var ex, ey := BothEnds(env, u, moves, up, id);
    Fields(Reached(env, u, moves), up, id);
  }

  // ------------------------------------------------------------------- credit

  /** Credit is conserved across both ends and both queues, and within the
      receiver's window: no frame trips flow control and nothing saturates. */
  lemma CreditConserved(env: Env, u: Setup, moves: seq<Move>, up: bool, id: StreamId)
    requires SetupOk(u) && id != 0 && Flowing(Reached(env, u, moves), up, id)
    ensures var (y, w) := (Reached(env, u, moves), Terms(u).initialWindow);
            var (s, r) := (Sender(y, up).c.streams[id], Receiver(y, up).c.streams[id]);
            && r.recv.remaining == s.send.credit + TotalBytes(Link.Datas(InFlight(y, up, id)))
                 + Link.Updates(InFlight(y, !up, id) + Items(Receiver(y, up).c.control, id))
            && r.recv.remaining + r.recv.consumed + InboxWire(r.inbox) + r.partialWire == w
            && s.outboxBytes == TotalBytes(s.outbox) <= s.send.credit
            && w <= MAX_WINDOW
  {
    var ex, ey := BothEnds(env, u, moves, up, id);
    Fields(Reached(env, u, moves), up, id);
    hide *;
    FlowingCredit(env, Terms(u), ex, ey);
  }

  lemma FlowingCredit(env: Env, p: Params, ex: End, ey: End)
    requires ParamsOk(p) && EndOk(p, ex) && EndOk(p, ey) && Link.Linked(env, p, ex, ey)
    requires ex.st.Some? && ey.st.Some? && ey.st.value.remoteOpen
    ensures var (s, r) := (ex.st.value, ey.st.value);
            && r.recv.remaining == s.send.credit + TotalBytes(Link.Datas(ex.wire)) + Link.Updates(ey.wire + ey.ctl)
            && r.recv.remaining + r.recv.consumed + InboxWire(r.inbox) + r.partialWire == p.initialWindow <= MAX_WINDOW
            && s.outboxBytes == TotalBytes(s.outbox) <= s.send.credit
            && r.recv.consumed < p.initialWindow / 2
  {
    assert Link.Live(ex, ey);
  }

  /** A WINDOW_UPDATE at the head of the queue is added to the credit in full. */
  lemma GrantsAreExact(env: Env, u: Setup, moves: seq<Move>, up: bool, id: StreamId)
    requires SetupOk(u) && id != 0
    requires var y := Reached(env, u, moves);
             id in Sender(y, up).c.streams && InFlight(y, !up, id) != [] && InFlight(y, !up, id)[0].WindowUpdate?
    ensures var y := Reached(env, u, moves);
            var (s, n) := (Sender(y, up).c.streams[id], InFlight(y, !up, id)[0].credit);
            Granted(s, n).0.send.credit == s.send.credit + n <= Terms(u).initialWindow
  {
    var ex, ey := BothEnds(env, u, moves, up, id);
    Fields(Reached(env, u, moves), up, id);
    hide *;
    GrantFits(env, Terms(u), ex, ey);
  }

  lemma GrantFits(env: Env, p: Params, ex: End, ey: End)
    requires ParamsOk(p) && Link.Linked(env, p, ex, ey) && ex.st.Some? && ey.wire != [] && ey.wire[0].WindowUpdate?
    ensures var (s, n) := (ex.st.value, ey.wire[0].credit);
            Granted(s, n).0.send.credit == s.send.credit + n <= p.initialWindow
  {
    Link.HeadItems(ey.wire, ey.ctl);
  }

  // ----------------------------------------------------------------- no stall

  /** Everything queued was delivered and consumed, and every grant arrived. */
  predicate Quiescent(y: Sys, up: bool, id: StreamId) {
    && Flowing(y, up, id)
    && Sender(y, up).c.streams[id].outbox == []
    && InFlight(y, up, id) == [] && InFlight(y, !up, id) == []
    && Items(Receiver(y, up).c.control, id) == []
    && Receiver(y, up).c.streams[id].inbox == []
  }

  /** Half the window, rounded up, and one byte. */
  function Threshold(w: nat): nat { (w + 1) / 2 + 1 }

  /** A quiescent direction has at least `Threshold` credit free, so `send` takes
      any message that costs no more; the exact credit is the window less what
      was consumed and not announced yet. */
  lemma NoStall(env: Env, u: Setup, moves: seq<Move>, up: bool, id: StreamId, msg: Bytes, stance: Compress)
    requires SetupOk(u) && id != 0 && Quiescent(Reached(env, u, moves), up, id)
    ensures var (y, w) := (Reached(env, u, moves), Terms(u).initialWindow);
            var (c, r) := (Sender(y, up).c, Receiver(y, up).c.streams[id]);
            && c.streams[id].FreeCredit() == w - r.recv.consumed >= Threshold(w)
            && (|msg| <= Terms(u).maxMessage && c.streams[id].localOpen && SendCost(Terms(u), |msg|) <= Threshold(w)
                ==> Send(env, c, id, msg, stance).1 == None)
  {
    var y := Reached(env, u, moves);
    hide *;
    var ex, ey := BothEnds(env, u, moves, up, id);
    QuietFields(y, up, id);
    QuietCredit(env, Terms(u), ex, ey);
    if |msg| <= Terms(u).maxMessage { SendAccepts(env, Sender(y, up).c, Terms(u), id, msg, stance); }
  }

  lemma QuietFields(y: Sys, up: bool, id: StreamId)
    requires y.byServer <= |y.client.sent| && y.byClient <= |y.server.sent| && Quiescent(y, up, id)
    ensures var (x, z, ex, ey) := (Sender(y, up).c, Receiver(y, up).c, EndOf(y, up, id), EndOf(y, !up, id));
            && id in x.streams && id in z.streams && ex.st == Some(x.streams[id]) && ey.st == Some(z.streams[id])
            && ey.st.value.remoteOpen && ex.st.value.outbox == [] && ex.wire == [] && ey.wire == [] && ey.ctl == []
            && ey.st.value.inbox == []
  {
    Fields(y, up, id);
  }

  /** With nothing on its way no message is half received, and so no byte of one is held. */
  lemma QuietPartial(env: Env, p: Params, ex: End, ey: End)
    requires Link.Linked(env, p, ex, ey) && EndOk(p, ey) && ex.st.Some? && ey.st.Some? && ey.st.value.remoteOpen
    requires ex.st.value.outbox == [] && ex.wire == []
    ensures ey.st.value.partial == [] && ey.st.value.partialWire == 0
  {
    assert Link.Queued(ex) == [] && Link.Live(ex, ey);
    assert Left(env, p.maxFrame, ey.st.value.partial, []) == ey.st.value.partial;
  }

  lemma QuietCredit(env: Env, p: Params, ex: End, ey: End)
    requires ParamsOk(p) && EndOk(p, ex) && EndOk(p, ey) && Link.Linked(env, p, ex, ey)
    requires ex.st.Some? && ey.st.Some? && ey.st.value.remoteOpen
    requires ex.st.value.outbox == [] && ex.wire == [] && ey.wire == [] && ey.ctl == []
    requires ey.st.value.inbox == []
    ensures ex.st.value.FreeCredit() == p.initialWindow - ey.st.value.recv.consumed >= Threshold(p.initialWindow)
  {
    QuietPartial(env, p, ex, ey);
    FlowingCredit(env, p, ex, ey);
    assert ey.wire + ey.ctl == [];
  }

  lemma SendAccepts(env: Env, c: Conn, p: Params, id: StreamId, msg: Bytes, stance: Compress)
    requires ParamsOk(p) && (c.hs == Done ==> c.params == Some(p))
    requires c.closed.Some? || c.hs != Done ==> c.streams == map[]
    requires id in c.streams && |msg| <= p.maxMessage
    ensures Send(env, c, id, msg, stance).1 == None
            <==> c.streams[id].localOpen && SendCost(p, |msg|) <= c.streams[id].FreeCredit()
  {}

  /** A message that costs more than a whole window is refused in every state. */
  lemma TooDearForever(env: Env, u: Setup, moves: seq<Move>, up: bool, id: StreamId, msg: Bytes, stance: Compress)
    requires SetupOk(u) && id != 0
    requires SendCost(Terms(u), |msg|) > Terms(u).initialWindow
    ensures Send(env, Sender(Reached(env, u, moves), up).c, id, msg, stance).1.Some?
  {
    var c := Sender(Reached(env, u, moves), up).c;
    var ex, ey := BothEnds(env, u, moves, up, id);
    Fields(Reached(env, u, moves), up, id);
    hide *;
    CreditInWindow(env, Terms(u), ex, ey);
    if id in c.streams && |msg| <= Terms(u).maxMessage {
      SendAccepts(env, c, Terms(u), id, msg, stance);
    } else {
      SendRefuses(env, c, Terms(u), id, msg, stance);
    }
  }

  lemma CreditInWindow(env: Env, p: Params, ex: End, ey: End)
    requires Link.Linked(env, p, ex, ey) && ParamsOk(p)
    ensures ex.st.Some? ==> ex.st.value.FreeCredit() <= p.initialWindow
  {}

  lemma SendRefuses(env: Env, c: Conn, p: Params, id: StreamId, msg: Bytes, stance: Compress)
    requires c.hs == Done ==> c.params == Some(p)
    requires id !in c.streams || |msg| > p.maxMessage
    ensures Send(env, c, id, msg, stance).1.Some?
  {}

  /** On a stream just opened, `send` takes a message within `max_message` if and
      only if its cost fits the window. */
  lemma FreshAccepts(env: Env, c: Conn, p: Params, id: StreamId, class_: Class, openSent: bool, msg: Bytes, stance: Compress)
    requires ParamsOk(p) && c.params == Some(p) && Ready(c).None? && |msg| <= p.maxMessage
    requires id in c.streams && c.streams[id] == NewStream(class_, p.initialWindow, openSent)
    ensures Send(env, c, id, msg, stance).1 == None <==> SendCost(p, |msg|) <= p.initialWindow
  {}

  const DEFAULT_PARAMS := Params(16 * 1024, 512 * 1024, true, 1024 * 1024)

  /** The default parameters promise messages no window ever admits. */
  lemma DefaultsAdmitUnsendable(len: nat)
    requires DEFAULT_PARAMS.initialWindow <= len <= DEFAULT_PARAMS.maxMessage
    ensures ParamsOk(DEFAULT_PARAMS) && SendCost(DEFAULT_PARAMS, len) > DEFAULT_PARAMS.initialWindow
  {}
}
