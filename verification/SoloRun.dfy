/** One connection driven by any sequence of calls, with what it has sent and
    announced so far, and its projection to a single stream. */
module SoloRun {
  import opened MuxTypes
  import opened Fragments
  import opened Flow
  import opened Streams
  import opened Timing
  import opened Conn
  import opened Ends

  datatype Act =
    | AOpen(class_: Class) | ASend(id: StreamId, msg: Bytes, stance: Compress) | AFinish(id: StreamId)
    | AReset(id: StreamId, code: u32) | ATake(id: StreamId) | ASetClass(id: StreamId, class_: Class)
    | AClose(reason: CloseReason) | ATimeout(now: int, stillValid: bool)
    | ATransmit(pick: Option<Pick>) | ARecv(now: int, input: Input, oracle: Oracle) | APoll

  /** `sent` is every frame handed to the transport, `elog` every event ever queued. */
  datatype Solo = Solo(c: Conn, sent: seq<Frame>, elog: seq<Event>,
                       accepted: map<StreamId, seq<Bytes>>, delivered: map<StreamId, seq<Bytes>>)

  function Get(m: map<StreamId, seq<Bytes>>, id: StreamId): seq<Bytes> { if id in m then m[id] else [] }

  function Start(cfg: Config, now: int, nonceS: Bytes): Solo {
    Solo(New(cfg, now, nonceS), [], [], map[], map[])
  }

  function NewEvents(c: Conn, c': Conn): seq<Event> {
    if c.events <= c'.events then c'.events[|c.events|..] else []
  }

  function With(x: Solo, c: Conn): Solo { x.(c := c, elog := x.elog + NewEvents(x.c, c)) }

  ghost function Step(env: Env, x: Solo, a: Act): (Solo, Option<ProtocolError>) {
    var c := x.c;
    match a
    case AOpen(cl) => (With(x, OpenStream(c, cl).0), None)
    case ASend(id, msg, stance) =>
      var (c', r) := Send(env, c, id, msg, stance);
      (if r.None? then With(x, c').(accepted := x.accepted[id := Get(x.accepted, id) + [msg]]) else With(x, c'), None)
    case AFinish(id) => (With(x, Finish(c, id).0), None)
    case AReset(id, code) => (With(x, Reset(c, id, code).0), None)
    case ATake(id) =>
      var (c', r) := RecvMsg(c, id);
      (if r.Ok? then With(x, c').(delivered := x.delivered[id := Get(x.delivered, id) + [r.value]]) else With(x, c'), None)
    case ASetClass(id, cl) => (With(x, SetClass(c, id, cl).0), None)
    case AClose(reason) => (With(x, CloseInternal(c, reason, true)), None)
    case ATimeout(now, v) => (if c.timers.LoopSafe() then With(x, HandleTimeout(c, now, v)) else x, None)
    case ATransmit(pick) =>
      if c.priority == [] && !PickOk(c, pick) then (x, None) else
      var (c', f) := Transmit(c, pick);
      (if f.Some? then With(x, c').(sent := x.sent + [f.value]) else With(x, c'), None)
    case ARecv(now, input, o) =>
      var (c', r) := Recv(env, c, now, input, o);
      (With(x, c'), r)
    case APoll => (if c.events == [] then x else x.(c := c.(events := c.events[1..])), None)
  }

  /** A whole run. */
  ghost function Exec(env: Env, x: Solo, acts: seq<Act>): Solo
    decreases |acts|
  {
    if acts == [] then x else Exec(env, Step(env, x, acts[0]).0, acts[1..])
  }

  // -------------------------------------------------------------- projection

  function Items(fs: seq<Frame>, id: StreamId): seq<Body> {
    if fs == [] then [] else (if fs[0].id == id then [fs[0].body] else []) + Items(fs[1..], id)
  }

  lemma {:induction false} ItemsAppend(a: seq<Frame>, b: seq<Frame>, id: StreamId)
    ensures Items(a + b, id) == Items(a, id) + Items(b, id)
  {
    if a == [] {
      assert a + b == b;
    } else {
      assert (a + b)[1..] == a[1..] + b;
      ItemsAppend(a[1..], b, id);
    }
  }

  lemma ItemsOne(a: seq<Frame>, f: Frame, id: StreamId)
    ensures Items(a + [f], id) == if f.id == id then Items(a, id) + [f.body] else Items(a, id)
  {
    ItemsAppend(a, [f], id);
    assert [f][1..] == [];
    assert Items([f], id) == (if f.id == id then [f.body] else []) + Items([], id);
  }

  lemma ItemsHead(a: seq<Frame>, id: StreamId)
    requires a != []
    ensures Items(a, id) == (if a[0].id == id then [a[0].body] else []) + Items(a[1..], id)
    ensures a[0].id == id ==> Items(a, id) != [] && Items(a, id)[0] == a[0].body && Items(a, id)[1..] == Items(a[1..], id)
  {}

  function View(x: Solo, rd: nat, id: StreamId): End
    requires rd <= |x.sent|
  {
    End(!x.c.PeerParity(id), if id in x.c.streams then Some(x.c.streams[id]) else None, x.c.Known(id), x.c.closed.Some?,
        Items(x.sent[..rd], id), Items(x.sent[rd..], id), Items(x.c.control, id),
        Get(x.accepted, id), Get(x.delivered, id), Finished(id) in x.elog)
  }

  // --------------------------------------------------------------- invariant

  /** What may stand in the control queue. */
  predicate ControlOk(f: Frame) {
    if f.id == 0 then f.body.Ping? || f.body.Pong?
    else f.body.Fin? || f.body.Rst? || f.body.WindowUpdate? || (f.body.Open? && f.body.class_ != Control)
  }

  /** What bypasses the scheduler. */
  predicate PriorityOk(f: Frame) {
    f.id == 0 && (f.body.Challenge? || f.body.Hello? || f.body.Welcome? || f.body.Reject? || f.body.Goaway?)
  }

  /** What the connection keeps whatever its peer does, apart from the streams. */
  ghost predicate ConnInv(c: Conn) {
    && (match c.role case Client(_) => c.hs != ChallengeSent && c.nextId % 2 == 1
                     case Server(p) => ParamsOk(p) && (c.hs == ChallengeSent || c.hs == Done)
                                       && c.nextId >= 2 && c.nextId % 2 == 0)
    && (c.hs == Done ==> c.params.Some? && ParamsOk(c.params.value) && c.version.Some? && c.key.Some?)
    && (c.hs == HelloSent ==> c.key.Some?)
    && (c.hs != Done ==> c.nextId <= 2 && c.lastPeer == 0)
    && (c.timers.authenticated ==> c.hs == Done && c.closed.None?)
    && (c.hs != Done || c.closed.Some? ==> c.streams == map[] && c.control == [])
    && (c.lastPeer != 0 ==> c.PeerParity(c.lastPeer))
    && (forall id | id in c.streams :: id != 0 && c.Known(id) && c.streams[id].class_ != Control)
    && (forall id :: id in c.active <==> id in c.streams && c.streams[id].openSent && c.streams[id].outbox != [])
    && (forall i | 0 <= i < |c.control| :: ControlOk(c.control[i]))
    && (forall i | 0 <= i < |c.priority| :: PriorityOk(c.priority[i]))
  }

  // ------------------------------------------------- each call, stream by stream

  lemma NewEventsIs(c: Conn, c': Conn, d: seq<Event>)
    requires c'.events == c.events + d
    ensures NewEvents(c, c') == d
  {}

  /** What of a connection one stream sees. */
  datatype Side = Side(st: Option<Stream>, known: bool, closed: bool, ctl: seq<Body>)

  function SideOf(c: Conn, id: StreamId): Side {
    Side(if id in c.streams then Some(c.streams[id]) else None, c.Known(id), c.closed.Some?, Items(c.control, id))
  }

  lemma OpenSide(c: Conn, cl: Class, id: StreamId)
    requires !c.PeerParity(c.nextId)
    ensures var (c', r) := OpenStream(c, cl);
            && c'.events == c.events && c'.role == c.role
            && SideOf(c', id) == (if r == Ok(id)
                then SideOf(c, id).(st := Some(NewStream(cl, c.P().initialWindow, false)), known := true,
                                    ctl := Items(c.control, id) + [Open(cl)])
                else SideOf(c, id))
            && (r == Ok(id) ==> !c.Known(id) && !c.PeerParity(id) && Ready(c).None? && cl != Control)
  {
    ItemsOne(c.control, Frame(c.nextId, Open(cl)), id);
  }

  lemma FinishSide(c: Conn, fid: StreamId, id: StreamId)
    ensures var ((c', r), d) := (Finish(c, fid), SideOf(c, id));
            && c'.events == c.events && c'.role == c.role
            && if fid == id && r.None?
               then d.st.Some? && d.st.value.localOpen
                    && var s := d.st.value.(localOpen := false);
                       SideOf(c', id) == if s.outbox == [] then d.(st := Forget(s), ctl := d.ctl + [Fin])
                                         else d.(st := Some(s))
               else SideOf(c', id) == d
  {
    ItemsOne(c.control, Frame(fid, Fin), id);
  }

  lemma TakeSide(c: Conn, fid: StreamId, id: StreamId)
    ensures var ((c', r), d) := (RecvMsg(c, fid), SideOf(c, id));
            && c'.role == c.role
            && (r.Ok? ==> fid in c.streams && c.streams[fid].inbox != [] && r.value == c.streams[fid].inbox[0].0)
            && if r.Ok?
               then var (s, g) := Take(c.streams[fid]);
                    && c'.events == (if g.None? && s.RemoteDrained() then c.events + [Finished(fid)] else c.events)
                    && SideOf(c', id) == if fid != id then d
                         else if g.Some? then d.(st := Some(s), ctl := d.ctl + [WindowUpdate(g.value)])
                         else d.(st := Forget(s))
               else c' == c
  {
    var (c', r) := RecvMsg(c, fid);
    if r.Ok? && Take(c.streams[fid]).1.Some? {
      ItemsOne(c.control, Frame(fid, WindowUpdate(Take(c.streams[fid]).1.value)), id);
    }
  }

  lemma SendControlSide(c: Conn, id: StreamId)
    requires c.control != []
    ensures var (c', d, f) := (TransmitControl(c), SideOf(c, id), c.control[0]);
            && c'.events == c.events && c'.role == c.role
            && (f.id == id ==> d.ctl != [] && d.ctl[0] == f.body)
            && SideOf(c', id) == if f.id != id then d
                 else if f.body.Open? && d.st.Some?
                 then d.(st := Some(d.st.value.(openSent := true)), ctl := d.ctl[1..])
                 else d.(ctl := d.ctl[1..])
  {
    ItemsHead(c.control, id);
  }

  lemma SendDataSide(c: Conn, sid: StreamId, id: StreamId)
    requires sid in c.streams && c.streams[sid].outbox != []
    ensures var (c', d) := (TransmitData(c, sid), SideOf(c, id));
            && c'.events == c.events && c'.role == c.role
            && SideOf(c', id) == if sid != id then d
                 else var s := PopOutbox(d.st.value);
                      if s.outbox == [] && !s.localOpen then d.(st := Forget(s), ctl := d.ctl + [Fin])
                      else d.(st := Some(s))
  {
    ItemsOne(c.control, Frame(sid, Fin), id);
  }

  /** A projection is the connection's side plus the histories. */
  lemma ViewFrom(x: Solo, c': Conn, rd: nat, id: StreamId)
    requires rd <= |x.sent| && c'.role == x.c.role && x.c.events <= c'.events
    ensures var (v, d) := (View(With(x, c'), rd, id), SideOf(c', id));
            v == View(x, rd, id).(st := d.st, known := d.known, closed := d.closed, ctl := d.ctl,
                                  fin := Finished(id) in x.elog || Finished(id) in NewEvents(x.c, c'))
    ensures var (v, d) := (View(x, rd, id), SideOf(x.c, id));
            v.st == d.st && v.known == d.known && v.closed == d.closed && v.ctl == d.ctl
  {}

  lemma OpenView(env: Env, x: Solo, cl: Class, rd: nat, id: StreamId)
    requires !x.c.PeerParity(x.c.nextId) && rd <= |x.sent|
    ensures var (x', e, r) := (With(x, OpenStream(x.c, cl).0), View(x, rd, id), OpenStream(x.c, cl).1);
            && View(x', rd, id) == (if r == Ok(id) then DoOpen(e, cl, x.c.P().initialWindow) else e)
            && (r == Ok(id) ==> !e.known && e.opener && !e.closed && Ready(x.c).None? && cl != Control)
  {
    var c' := OpenStream(x.c, cl).0;
    OpenSide(x.c, cl, id);
    NewEventsIs(x.c, c', []);
    ViewFrom(x, c', rd, id);
  }

  lemma SendView(env: Env, x: Solo, sid: StreamId, msg: Bytes, stance: Compress, rd: nat, id: StreamId)
    requires rd <= |x.sent|
    ensures var ((c', r), e) := (Send(env, x.c, sid, msg, stance), View(x, rd, id));
            var v := View(With(x, c'), rd, id);
            && (sid != id || (r.Some? && r != Some(WouldBlock)) ==> v == e)
            && (sid == id && r == Some(WouldBlock) ==>
                  v == e || (e.st.Some? && v == e.(st := Some(e.st.value.(wantsWritable := true)))))
            && (sid == id && r.None? ==>
                  && e.st.Some? && e.st.value.localOpen && |msg| <= x.c.P().maxMessage && Ready(x.c).None?
                  && x.c.P().maxFrame >= 2 && SendCost(x.c.P(), |msg|) <= e.st.value.FreeCredit()
                  && var stance' := if x.c.P().compressionAllowed then stance else Never;
                     var s1 := Enqueue(e.st.value, msg, Fragment(env, stance', e.st.value.class_, msg, x.c.P().maxFrame));
                     v == e.(st := Some(s1.(class_ := Demote(s1, x.c.bulkThreshold)))))
  {
    var c' := Send(env, x.c, sid, msg, stance).0;
    NewEventsIs(x.c, c', []);
    ViewFrom(x, c', rd, id);
  }

  lemma FinishView(x: Solo, fid: StreamId, rd: nat, id: StreamId)
    requires rd <= |x.sent|
    ensures var ((c', r), e) := (Finish(x.c, fid), View(x, rd, id));
            if fid == id && r.None?
            then e.st.Some? && e.st.value.localOpen && View(With(x, c'), rd, id) == DoFinish(e)
            else View(With(x, c'), rd, id) == e
  {
    var c' := Finish(x.c, fid).0;
    FinishSide(x.c, fid, id);
    NewEventsIs(x.c, c', []);
    ViewFrom(x, c', rd, id);
  }

  lemma ResetView(x: Solo, fid: StreamId, code: u32, rd: nat, id: StreamId)
    requires rd <= |x.sent|
    ensures var ((c', r), e) := (Reset(x.c, fid, code), View(x, rd, id));
            if fid == id && r.None? then e.st.Some? && View(With(x, c'), rd, id) == DoReset(e, code)
            else View(With(x, c'), rd, id) == e
  {
    var c' := Reset(x.c, fid, code).0;
    ItemsOne(x.c.control, Frame(fid, Rst(code)), id);
    NewEventsIs(x.c, c', []);
    ViewFrom(x, c', rd, id);
  }

  lemma TakeView(x: Solo, fid: StreamId, rd: nat, id: StreamId)
    requires rd <= |x.sent|
    ensures var ((c', r), e) := (RecvMsg(x.c, fid), View(x, rd, id));
            if fid == id && r.Ok?
            then e.st.Some? && e.st.value.inbox != [] && r.value == e.st.value.inbox[0].0
                 && View(With(x, c'), rd, id).(delivered := e.delivered + [r.value]) == DoTake(e)
            else View(With(x, c'), rd, id) == e
  {
    if RecvMsg(x.c, fid).1.Ok? {
      TakenView(x, fid, rd, id);
      if fid == id {
        var s := Take(x.c.streams[id]).0;
        hide View, RecvMsg, Take;
        assert View(x, rd, id).st == Some(x.c.streams[id]) by { ViewFields(x, rd, id); }
      }
    } else {
      NewEventsIs(x.c, x.c, []);
    }
  }

  lemma ViewFields(x: Solo, rd: nat, id: StreamId)
    requires rd <= |x.sent|
    ensures View(x, rd, id).st == if id in x.c.streams then Some(x.c.streams[id]) else None
  {}

  lemma TakenView(x: Solo, fid: StreamId, rd: nat, id: StreamId)
    requires rd <= |x.sent| && RecvMsg(x.c, fid).1.Ok?
    ensures fid in x.c.streams && x.c.streams[fid].inbox != [] && RecvMsg(x.c, fid).1.value == x.c.streams[fid].inbox[0].0
    ensures var (e, v, (s, g)) := (View(x, rd, id), View(With(x, RecvMsg(x.c, fid).0), rd, id), Take(x.c.streams[fid]));
            if fid != id then v == e
            else if g.Some? then v == e.(st := Some(s), ctl := e.ctl + [WindowUpdate(g.value)])
            else v == e.(st := Forget(s), fin := e.fin || s.RemoteDrained())
  {
    var c' := RecvMsg(x.c, fid).0;
    TakeSide(x.c, fid, id);
    hide RecvMsg, Take;
    var (s, g) := Take(x.c.streams[fid]);
    NewEventsIs(x.c, c', if g.None? && s.RemoteDrained() then [Finished(fid)] else []);
    ViewFrom(x, c', rd, id);
  }

  lemma SetClassView(x: Solo, fid: StreamId, cl: Class, rd: nat, id: StreamId)
    requires rd <= |x.sent|
    ensures var (v, e) := (View(With(x, SetClass(x.c, fid, cl).0), rd, id), View(x, rd, id));
            v == e || (e.st.Some? && v == e.(st := Some(e.st.value.(class_ := cl))))
  {
    var c' := SetClass(x.c, fid, cl).0;
    NewEventsIs(x.c, c', []);
    ViewFrom(x, c', rd, id);
  }

  /** A call that leaves ids, streams and stream frames alone. */
  ghost predicate Quiet(c: Conn, c': Conn) {
    && c'.role == c.role && c'.streams == c.streams && c'.nextId == c.nextId && c'.lastPeer == c.lastPeer
    && c'.closed == c.closed && c.events <= c'.events
    && (forall id: StreamId | id != 0 :: Items(c'.control, id) == Items(c.control, id))
    && (forall e | e in NewEvents(c, c') :: !e.Finished?)
  }

  lemma QuietView(x: Solo, c': Conn, rd: nat, id: StreamId)
    requires Quiet(x.c, c') && id != 0 && rd <= |x.sent|
    ensures View(With(x, c'), rd, id) == View(x, rd, id)
  {}

  /** A call that ends the connection, possibly after queueing some events. */
  ghost predicate Ended(c: Conn, c': Conn) {
    && c'.role == c.role && c'.streams == map[] && c'.nextId == c.nextId && c'.lastPeer == c.lastPeer
    && c.closed.None? && c'.closed.Some? && c'.control == [] && c.events <= c'.events
    && (forall e | e in NewEvents(c, c') :: !e.Finished?)
  }

  lemma EndedView(x: Solo, c': Conn, rd: nat, id: StreamId)
    requires Ended(x.c, c') && rd <= |x.sent|
    ensures View(With(x, c'), rd, id) == DoClose(View(x, rd, id))
  {}

  lemma CloseEnds(c: Conn, reason: CloseReason, goaway: bool)
    requires c.closed.None?
    ensures Ended(c, CloseInternal(c, reason, goaway))
  {
    var c' := CloseInternal(c, reason, goaway);
    NewEventsIs(c, c', ResetEvents(SortedIds(c.streams.Keys)) + [ClosedEvent(reason)]);
  }

  /** `handle_timeout` never touches a stream except by ending the connection. */
  lemma {:induction false} TimeoutShape(c: Conn, now: int, v: bool)
    requires c.timers.LoopSafe()
    ensures var c' := TimeoutLoop(c, now, v); Quiet(c, c') || Ended(c, c')
    decreases Pending(c, now)
  {
    if c.closed.Some? || c.timers.Expiry(now).None? {
    } else {
      var e := c.timers.Expiry(now).value;
      var c1 := Fire(c, now, e, v);
      match e
      case Handshake => CloseEnds(c, CloseReason(CloseCode.Timeout, ""), true);
      case Idle => CloseEnds(c, CloseReason(CloseCode.Timeout, ""), true);
      case Reverify =>
        var valid := c.role.Server? && c.key.Some? ==> v;
        if valid {
          TimeoutShape(c1, now, v);
        } else {
          CloseEnds(c.(timers := c.timers.Rearm(now)), CloseReason(KeyRevoked, ""), true);
        }
      case Ping_ =>
        forall id: StreamId | id != 0 ensures Items(c1.control, id) == Items(c.control, id) {
          ItemsOne(c.control, Frame(0, Ping(c.pings + 1)), id);
        }
        TimeoutShape(c1, now, v);
    }
  }

  /** Handing `f` to the transport. */
  function Emit(x: Solo, c': Conn, f: Frame): Solo { With(x, c').(sent := x.sent + [f]) }

  lemma EmitView(x: Solo, c': Conn, f: Frame, rd: nat, id: StreamId)
    requires rd <= |x.sent| && c'.role == x.c.role && c'.events == x.c.events
    ensures var (e, d) := (View(x, rd, id), SideOf(c', id));
            && View(Emit(x, c', f), rd, id) ==
               e.(st := d.st, known := d.known, closed := d.closed, ctl := d.ctl,
                  wire := if f.id == id then e.wire + [f.body] else e.wire)
            && e.st == SideOf(x.c, id).st && e.ctl == SideOf(x.c, id).ctl
            && e.known == SideOf(x.c, id).known && e.closed == SideOf(x.c, id).closed
  {
    assert (x.sent + [f])[..rd] == x.sent[..rd];
    assert (x.sent + [f])[rd..] == x.sent[rd..] + [f];
    ItemsOne(x.sent[rd..], f, id);
    NewEventsIs(x.c, c', []);
  }

  lemma SendControlView(x: Solo, rd: nat, id: StreamId)
    requires rd <= |x.sent| && x.c.control != []
    ensures var (f, e) := (x.c.control[0], View(x, rd, id));
            && (f.id == id ==> e.ctl != [])
            && View(Emit(x, TransmitControl(x.c), f), rd, id) == if f.id == id then DoSendControl(e) else e
  {
    SendControlSide(x.c, id);
    EmitView(x, TransmitControl(x.c), x.c.control[0], rd, id);
  }

  lemma SendDataView(x: Solo, sid: StreamId, rd: nat, id: StreamId)
    requires rd <= |x.sent| && sid in x.c.streams && x.c.streams[sid].outbox != []
    ensures var (f, e) := (Frame(sid, Data(x.c.streams[sid].outbox[0])), View(x, rd, id));
            View(Emit(x, TransmitData(x.c, sid), f), rd, id) == if sid == id then DoSendData(e) else e
  {
    SendDataSide(x.c, sid, id);
    EmitView(x, TransmitData(x.c, sid), Frame(sid, Data(x.c.streams[sid].outbox[0])), rd, id);
  }

  /** What one transmitted frame is. */
  predicate Transmitted(c: Conn, pick: Option<Pick>, f: Frame) {
    if c.priority != [] then f == c.priority[0]
    else match pick
      case None => false
      case Some(PickControl) => c.control != [] && f == c.control[0]
      case Some(PickStream(id)) => id in c.streams && c.streams[id].outbox != [] && c.streams[id].openSent
                                   && f == Frame(id, Data(c.streams[id].outbox[0]))
  }

  lemma TransmitView(x: Solo, pick: Option<Pick>, rd: nat, id: StreamId)
    requires ConnInv(x.c) && id != 0 && rd <= |x.sent|
    requires x.c.priority != [] || PickOk(x.c, pick)
    ensures var ((c', f), e) := (Transmit(x.c, pick), View(x, rd, id));
            && (f.None? ==> c' == x.c)
            && (f.Some? ==> Transmitted(x.c, pick, f.value))
            && (f.Some? ==>
                var v := View(Emit(x, c', f.value), rd, id);
                (v == e || (e.ctl != [] && v == DoSendControl(e))
                 || (e.st.Some? && e.st.value.outbox != [] && e.st.value.openSent && v == DoSendData(e))))
  {
    if x.c.priority != [] {
      assert PriorityOk(x.c.priority[0]);
      EmitView(x, Transmit(x.c, pick).0, x.c.priority[0], rd, id);
    } else {
      match pick
      case None =>
      case Some(PickControl) => SendControlView(x, rd, id);
      case Some(PickStream(sid)) => SendDataView(x, sid, rd, id);
    }
  }

  /** An accepted stream frame is `DoReceive` on its stream; on the others it
      changes nothing, except that an OPEN makes every lower id of the peer's
      parity one that counts as opened. */
  lemma ReceiveView(env: Env, x: Solo, f: Frame, o: Oracle, rd: nat, id: StreamId)
    requires ConnInv(x.c) && x.c.closed.None? && f.id != 0 && id != 0 && rd <= |x.sent|
    requires Dispatch(env, x.c, f, o).Ok?
    ensures var (v, e) := (View(With(x, Dispatch(env, x.c, f, o).value), rd, id), View(x, rd, id));
            && (id == f.id ==> v == DoReceive(env, x.c.P(), e, f.body) && (f.body.Open? ==> !e.known && !e.opener))
            && (id != f.id ==> v == e || (!e.known && !e.opener && f.body.Open? && id < f.id && v == e.(known := true)))
  {
    match TypeOf(f.body)
    case TOpen => ReceiveOpenView(env, x, f, rd, id);
    case TData => ReceiveDataView(env, x, f, rd, id);
    case TFin => ReceiveFinView(env, x, f, rd, id);
    case TRst => ReceiveRstView(env, x, f, rd, id);
    case TWindowUpdate => ReceiveUpdateView(env, x, f, rd, id);
    case _ =>
  }

  lemma ReceiveOpenView(env: Env, x: Solo, f: Frame, rd: nat, id: StreamId)
    requires ConnInv(x.c) && f.id != 0 && id != 0 && rd <= |x.sent| && x.c.closed.None?
    requires OnStreamOpen(x.c, f.id, f.body).Ok?
    ensures f.body.Open?
    ensures var (v, e) := (View(With(x, OnStreamOpen(x.c, f.id, f.body).value), rd, id), View(x, rd, id));
            && (id == f.id ==> v == DoReceive(env, x.c.P(), e, f.body) && !e.known && !e.opener)
            && (id != f.id ==> v == e || (!e.known && !e.opener && id < f.id && v == e.(known := true)))
  {
    var c, c' := x.c, OnStreamOpen(x.c, f.id, f.body).value;
    NewEventsIs(c, c', c'.events[|c.events|..]);
    ViewFrom(x, c', rd, id);
  }

  lemma FinSide(c: Conn, fid: StreamId, id: StreamId)
    requires OnFin(c, fid).Ok? && fid in c.streams
    ensures var (c', d, s) := (OnFin(c, fid).value, SideOf(c, id), c.streams[fid].(remoteOpen := false));
            && c'.role == c.role && c'.closed == c.closed && c'.params == c.params && c'.control == c.control
            && c'.nextId == c.nextId && AcceptFin(c.streams[fid]) == Ok(s)
            && c'.events == (if s.inbox == [] then c.events + [Finished(fid)] else c.events)
            && SideOf(c', id) == if id != fid then d else d.(st := if s.inbox == [] then Forget(s) else Some(s))
  {}

  lemma ReceiveFinView(env: Env, x: Solo, f: Frame, rd: nat, id: StreamId)
    requires rd <= |x.sent| && x.c.closed.None?
    requires TypeOf(f.body) == TFin && OnFin(x.c, f.id).Ok?
    ensures var (v, e) := (View(With(x, OnFin(x.c, f.id).value), rd, id), View(x, rd, id));
            v == if id == f.id then DoReceive(env, x.c.P(), e, f.body) else e
  {
    var c, c' := x.c, OnFin(x.c, f.id).value;
    if f.id in c.streams {
      FinSide(c, f.id, id);
      hide OnFin;
      NewEventsIs(c, c', c'.events[|c.events|..]);
      ViewFrom(x, c', rd, id);
    } else {
      NewEventsIs(c, c, []);
    }
  }

  lemma ReceiveRstView(env: Env, x: Solo, f: Frame, rd: nat, id: StreamId)
    requires rd <= |x.sent| && x.c.closed.None?
    requires TypeOf(f.body) == TRst && OnRst(x.c, f.id, f.body).Ok?
    ensures var (v, e) := (View(With(x, OnRst(x.c, f.id, f.body).value), rd, id), View(x, rd, id));
            v == if id == f.id then DoReceive(env, x.c.P(), e, f.body) else e
  {
    var c, c' := x.c, OnRst(x.c, f.id, f.body).value;
    NewEventsIs(c, c', c'.events[|c.events|..]);
    ViewFrom(x, c', rd, id);
  }

  lemma ReceiveUpdateView(env: Env, x: Solo, f: Frame, rd: nat, id: StreamId)
    requires rd <= |x.sent| && x.c.closed.None?
    requires TypeOf(f.body) == TWindowUpdate && OnWindowUpdate(x.c, f.id, f.body).Ok?
    ensures var (v, e) := (View(With(x, OnWindowUpdate(x.c, f.id, f.body).value), rd, id), View(x, rd, id));
            v == if id == f.id then DoReceive(env, x.c.P(), e, f.body) else e
  {
    var c, c' := x.c, OnWindowUpdate(x.c, f.id, f.body).value;
    NewEventsIs(c, c', c'.events[|c.events|..]);
    ViewFrom(x, c', rd, id);
  }

  lemma ReceiveDataView(env: Env, x: Solo, f: Frame, rd: nat, id: StreamId)
    requires f.id != 0 && id != 0 && rd <= |x.sent| && x.c.closed.None?
    requires TypeOf(f.body) == TData && OnData(env, x.c, f.id, f.body).Ok?
    ensures var (v, e) := (View(With(x, OnData(env, x.c, f.id, f.body).value), rd, id), View(x, rd, id));
            v == if id == f.id then DoReceive(env, x.c.P(), e, f.body) else e
  {
    var c, c' := x.c, OnData(env, x.c, f.id, f.body).value;
    NewEventsIs(c, c', c'.events[|c.events|..]);
    ViewFrom(x, c', rd, id);
    assert DecodeFrag(env, c.P().maxFrame, f.body.payload) == Ok(Dec(env, c.P().maxFrame, f.body.payload));
  }
}
