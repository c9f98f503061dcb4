/** The invariant of one connection against any peer, and the calls of its own
    application and transport, each of which keeps it. */
module Hostile {
  import opened MuxTypes
  import opened Fragments
  import opened Flow
  import opened Streams
  import opened Timing
  import opened Conn
  import opened Ends
  import opened SoloRun

  // ------------------------------------------------------ ids leave in order

  function Opens(fs: seq<Frame>): seq<StreamId> {
    if fs == [] then [] else (if fs[0].body.Open? then [fs[0].id] else []) + Opens(fs[1..])
  }

  lemma {:induction false} OpensAppend(a: seq<Frame>, b: seq<Frame>)
    ensures Opens(a + b) == Opens(a) + Opens(b)
  {
    if a == [] {
      assert a + b == b;
    } else {
      assert (a + b)[1..] == a[1..] + b;
      OpensAppend(a[1..], b);
    }
  }

  lemma OpensOne(a: seq<Frame>, f: Frame)
    ensures Opens(a + [f]) == if f.body.Open? then Opens(a) + [f.id] else Opens(a)
  {
    OpensAppend(a, [f]);
    assert Opens([f]) == (if f.body.Open? then [f.id] else []) + Opens([f][1..]);
  }

  function FirstId(role: Role): nat { if role.Client? then 1 else 2 }

  /** The ids of our OPENs, sent then queued, are the odd (client) or even
      (server) numbers in order, without a gap. */
  predicate OpensOk(x: Solo) {
    var ids := Opens(x.sent) + Opens(x.c.control);
    && (forall i | 0 <= i < |ids| :: ids[i] == FirstId(x.c.role) + 2 * i)
    && (x.c.closed.None? ==> x.c.nextId == FirstId(x.c.role) + 2 * |ids|)
  }

  // ------------------------------------------------------------- life cycle

  /** `Finished` is announced once and nothing is `Readable` after it. */
  predicate EventsOk(es: seq<Event>) {
    forall i, j | 0 <= i < j < |es| && es[i].Finished? ::
      es[j] != es[i] && es[j] != Readable(es[i].id)
  }

  /** `Closed` is announced when the connection closes, and nothing after it. */
  predicate ClosedLast(es: seq<Event>, closed: bool) {
    && (forall i | 0 <= i < |es| - 1 :: !es[i].ClosedEvent?)
    && (closed <==> es != [] && es[|es| - 1].ClosedEvent?)
  }

  ghost predicate SoloInv(x: Solo) {
    && ConnInv(x.c)
    && (forall id: StreamId | id != 0 :: EndOk(x.c.P(), View(x, 0, id)))
    && OpensOk(x)
    && EventsOk(x.elog)
    && ClosedLast(x.elog, x.c.closed.Some?)
  }

  // -------------------------------------------------- quiet and closing steps

  lemma QuietInv(x: Solo, c': Conn)
    requires SoloInv(x) && Quiet(x.c, c') && ConnInv(c')
    requires x.c.hs == Done ==> c'.P() == x.c.P()
    requires Opens(c'.control) == Opens(x.c.control)
    requires forall e | e in NewEvents(x.c, c') :: !e.Readable? && !e.ClosedEvent?
    requires NewEvents(x.c, c') != [] ==> x.c.closed.None?
    ensures SoloInv(With(x, c'))
  {
    var x' := With(x, c');
    forall id: StreamId | id != 0 ensures EndOk(c'.P(), View(x', 0, id)) {
      QuietView(x, c', 0, id);
      assert EndOk(x.c.P(), View(x, 0, id));
    }
    QuietEvents(x.elog, NewEvents(x.c, c'), x.c.closed.Some?);
    hide EndOk, View, ConnInv, NewEvents;
  }

  /** Announcements that concern no stream. */
  lemma QuietEvents(es: seq<Event>, d: seq<Event>, closed: bool)
    requires EventsOk(es) && ClosedLast(es, closed) && (d != [] ==> !closed)
    requires forall e | e in d :: !e.Finished? && !e.Readable? && !e.ClosedEvent?
    ensures EventsOk(es + d) && ClosedLast(es + d, closed)
  {
    forall k | |es| <= k < |es + d| ensures (es + d)[k] == d[k - |es|] && (es + d)[k] in d {}
  }

  /** The announcements of a close: resets, then `Closed`, once and last. */
  predicate Farewell(d: seq<Event>) {
    d != [] && forall i | 0 <= i < |d| ::
      !d[i].Finished? && !d[i].Readable? && (d[i].ClosedEvent? <==> i == |d| - 1)
  }

  lemma CloseAnnounces(c: Conn, c1: Conn, pre: seq<Event>, reason: CloseReason, goaway: bool)
    requires c.closed.None?
    requires c1 == c.(timers := c1.timers, priority := c1.priority, events := c.events + pre)
    requires forall e | e in pre :: !e.Finished? && !e.Readable? && !e.ClosedEvent?
    ensures Farewell(NewEvents(c, CloseInternal(c1, reason, goaway)))
    ensures Ended(c, CloseInternal(c1, reason, goaway))
  {
    var c' := CloseInternal(c1, reason, goaway);
    var rs := ResetEvents(SortedIds(c1.streams.Keys));
    var d := pre + rs + [ClosedEvent(reason)];
    assert c'.events == c.events + d;
    NewEventsIs(c, c', d);
    forall i | 0 <= i < |d|
      ensures !d[i].Finished? && !d[i].Readable? && (d[i].ClosedEvent? <==> i == |d| - 1)
    {
      assert i < |pre| ==> d[i] in pre;
      assert |pre| <= i < |pre| + |rs| ==> d[i] == rs[i - |pre|];
    }
  }

  lemma EndedInv(x: Solo, c': Conn)
    requires SoloInv(x) && Ended(x.c, c') && ConnInv(c')
    requires x.c.hs == Done ==> c'.P() == x.c.P()
    requires Farewell(NewEvents(x.c, c'))
    ensures SoloInv(With(x, c'))
  {
    var x' := With(x, c');
    forall id: StreamId | id != 0 ensures EndOk(c'.P(), View(x', 0, id)) {
      EndedView(x, c', 0, id);
      assert EndOk(x.c.P(), View(x, 0, id));
      CloseOk(x.c.P(), View(x, 0, id));
    }
    var d := NewEvents(x.c, c');
    forall k | |x.elog| <= k < |x'.elog| ensures x'.elog[k] == d[k - |x.elog|] && x'.elog[k] in d {}
    forall i, j | 0 <= i < j < |x'.elog| && x'.elog[i].Finished?
      ensures x'.elog[j] != x'.elog[i] && x'.elog[j] != Readable(x'.elog[i].id)
    {
    }
    var ids, ids' := Opens(x.sent) + Opens(x.c.control), Opens(x.sent) + Opens(c'.control);
    assert c'.control == [] && Opens(c'.control) == [];
    forall i | 0 <= i < |ids'| ensures ids'[i] == FirstId(c'.role) + 2 * i { assert ids'[i] == ids[i]; }
  }

  lemma ClosedConnInv(c: Conn, reason: CloseReason, goaway: bool)
    requires ConnInv(c) && c.closed.None?
    ensures ConnInv(CloseInternal(c, reason, goaway))
  {}

  /** Closing, possibly after some announcements and a frame that bypasses the scheduler. */
  lemma CloseInv(x: Solo, c1: Conn, pre: seq<Event>, reason: CloseReason, goaway: bool)
    requires SoloInv(x) && ConnInv(c1) && x.c.closed.None?
    requires c1 == x.c.(timers := c1.timers, priority := c1.priority, events := x.c.events + pre)
    requires forall e | e in pre :: !e.Finished? && !e.Readable? && !e.ClosedEvent?
    ensures SoloInv(With(x, CloseInternal(c1, reason, goaway)))
    ensures Ended(x.c, CloseInternal(c1, reason, goaway))
  {
    CloseAnnounces(x.c, c1, pre, reason, goaway);
    ClosedConnInv(c1, reason, goaway);
    EndedInv(x, CloseInternal(c1, reason, goaway));
  }

  // ------------------------------------------------ the connection's own facts

  lemma OpenConn(c: Conn, cl: Class)
    requires ConnInv(c)
    ensures ConnInv(OpenStream(c, cl).0)
  {}

  lemma SendConn(env: Env, c: Conn, id: StreamId, msg: Bytes, stance: Compress)
    requires ConnInv(c)
    ensures ConnInv(Send(env, c, id, msg, stance).0)
  {
    if id in c.streams && Send(env, c, id, msg, stance).1.None? {
      var st := if c.P().compressionAllowed then stance else Never;
      assert |Fragment(env, st, c.streams[id].class_, msg, c.P().maxFrame)| >= 1;
    }
  }

  lemma FinishConn(c: Conn, id: StreamId)
    requires ConnInv(c)
    ensures ConnInv(Finish(c, id).0)
  {
    if Finish(c, id).1.None? {
      var s := c.streams[id].(localOpen := false);
      var c1 := c.(streams := c.streams[id := s]);
      assert s.class_ != Control && id != 0 && c.hs == Done && c.closed.None?;
      hide ConnInv;
      PutConn(c, id, s);
      if s.outbox == [] {
        PushConn(c1, id, Fin);
        ForgottenConn(PushControl(c1, id, Fin), id);
      }
    }
  }

  lemma ResetConn(c: Conn, id: StreamId, code: u32)
    requires ConnInv(c)
    ensures ConnInv(Reset(c, id, code).0)
  {}

  lemma PutConn(c: Conn, id: StreamId, s: Stream)
    requires ConnInv(c) && id in c.streams && s.class_ != Control
    requires s.outbox == c.streams[id].outbox && s.openSent == c.streams[id].openSent
    ensures ConnInv(c.(streams := c.streams[id := s]))
  {}

  lemma ForgetConn(c: Conn, id: StreamId)
    requires ConnInv(c)
    ensures ConnInv(FinishedOn(c, id))
  {}

  lemma TakeConn(c: Conn, id: StreamId)
    requires ConnInv(c)
    ensures ConnInv(RecvMsg(c, id).0)
  {
    if RecvMsg(c, id).1.Ok? {
      var (s, g) := Take(c.streams[id]);
      var c1 := c.(streams := c.streams[id := s]);
      assert s.class_ != Control && id != 0 && c.hs == Done && c.closed.None?;
      assert s.outbox == c.streams[id].outbox && s.openSent == c.streams[id].openSent;
      hide ConnInv, Take;
      PutConn(c, id, s);
      ForgetConn(c1, id);
      if g.Some? { PushConn(c1, id, WindowUpdate(g.value)); }
    }
  }

  lemma SetClassConn(c: Conn, id: StreamId, cl: Class)
    requires ConnInv(c)
    ensures ConnInv(SetClass(c, id, cl).0)
  {}

  lemma SendControlConn(c: Conn)
    requires ConnInv(c) && c.control != []
    ensures ConnInv(TransmitControl(c))
  {}

  lemma ForgottenConn(c: Conn, id: StreamId)
    requires ConnInv(c)
    ensures ConnInv(MaybeForget(c, id))
  {}

  lemma PopConn(c: Conn, id: StreamId)
    requires ConnInv(c) && id in c.streams && c.streams[id].outbox != []
    ensures var s := PopOutbox(c.streams[id]);
            ConnInv(c.(streams := c.streams[id := s], active := if s.outbox == [] then c.active - {id} else c.active))
  {}

  lemma PushConn(c: Conn, id: StreamId, body: Body)
    requires ConnInv(c) && ControlOk(Frame(id, body)) && c.hs == Done && c.closed.None?
    ensures ConnInv(PushControl(c, id, body))
  {}

  lemma SendDataConn(c: Conn, id: StreamId)
    requires ConnInv(c) && id in c.streams && c.streams[id].outbox != []
    ensures ConnInv(TransmitData(c, id))
  {
    var s := PopOutbox(c.streams[id]);
    var c1 := c.(streams := c.streams[id := s], active := if s.outbox == [] then c.active - {id} else c.active);
    assert id != 0 && c.hs == Done && c.closed.None?;
    hide ConnInv;
    PopConn(c, id);
    ForgottenConn(c1, id);
    PushConn(c1, id, Fin);
    ForgottenConn(PushControl(c1, id, Fin), id);
  }

  lemma OpenedConn(c: Conn, id: StreamId, b: Body)
    requires ConnInv(c) && c.hs == Done && c.closed.None? && id != 0 && OnStreamOpen(c, id, b).Ok?
    ensures ConnInv(OnStreamOpen(c, id, b).value)
  {}

  lemma DataConn(env: Env, c: Conn, id: StreamId, b: Body)
    requires ConnInv(c) && OnData(env, c, id, b).Ok?
    ensures ConnInv(OnData(env, c, id, b).value)
  {}

  lemma FinConn(c: Conn, id: StreamId)
    requires ConnInv(c) && OnFin(c, id).Ok?
    ensures ConnInv(OnFin(c, id).value)
  {
    if id in c.streams {
      var s := c.streams[id].(remoteOpen := false);
      assert s.class_ != Control;
      hide ConnInv;
      PutConn(c, id, s);
      ForgetConn(c.(streams := c.streams[id := s]), id);
    }
  }

  lemma RstConn(c: Conn, id: StreamId, b: Body)
    requires ConnInv(c) && OnRst(c, id, b).Ok?
    ensures ConnInv(OnRst(c, id, b).value)
  {}

  lemma UpdateConn(c: Conn, id: StreamId, b: Body)
    requires ConnInv(c) && OnWindowUpdate(c, id, b).Ok?
    ensures ConnInv(OnWindowUpdate(c, id, b).value)
  {}

  // ------------------------------------------------------------- touching one

  lemma TouchInv(x: Solo, x': Solo, d: seq<Event>)
    requires SoloInv(x) && ConnInv(x'.c) && x.c.closed.None? && x'.c.closed.None? && OpensOk(x')
    requires x'.elog == x.elog + d && |d| <= 1
    requires forall e | e in d :: !e.ClosedEvent?
    requires forall e | e in d && (e.Finished? || e.Readable?) :: Finished(e.id) !in x.elog
    requires forall id: StreamId | id != 0 :: EndOk(x'.c.P(), View(x', 0, id))
    ensures SoloInv(x')
  {
    if d != [] {
      assert d[0] in d && x'.elog == x.elog + [d[0]];
    }
    forall i, j | 0 <= i < j < |x'.elog| && x'.elog[i].Finished?
      ensures x'.elog[j] != x'.elog[i] && x'.elog[j] != Readable(x'.elog[i].id)
    {
      assert x'.elog[i] == x.elog[i];
      assert x.elog[i] in x.elog;
      assert x.elog[i] == Finished(x.elog[i].id);
    }
  }

  /** Control frames other than OPEN do not disturb the order of ids. */
  lemma PushedOpens(x: Solo, f: Frame)
    requires OpensOk(x) && !f.body.Open?
    ensures Opens(x.c.control + [f]) == Opens(x.c.control)
  { OpensOne(x.c.control, f); }

  // ------------------------------------------------------------ the API calls

  lemma OpenEnd(env: Env, x: Solo, cl: Class, id: StreamId)
    requires ConnInv(x.c) && EndOk(x.c.P(), View(x, 0, id))
    ensures EndOk(x.c.P(), View(With(x, OpenStream(x.c, cl).0), 0, id))
  {
    OpenView(env, x, cl, 0, id);
    if OpenStream(x.c, cl).1 == Ok(id) { OpenOk(x.c.P(), View(x, 0, id), cl); }
  }

  lemma OpenOrder(x: Solo, cl: Class)
    requires OpensOk(x)
    ensures OpensOk(With(x, OpenStream(x.c, cl).0))
  {
    var (c', r) := OpenStream(x.c, cl);
    if r.Ok? {
      OpensOne(x.c.control, Frame(r.value, Open(cl)));
      assert Opens(x.sent) + Opens(c'.control) == (Opens(x.sent) + Opens(x.c.control)) + [r.value];
    }
  }

  lemma OpenKeeps(env: Env, x: Solo, cl: Class)
    requires SoloInv(x)
    ensures SoloInv(With(x, OpenStream(x.c, cl).0))
  {
    var (c', r) := OpenStream(x.c, cl);
    var x' := With(x, c');
    NewEventsIs(x.c, c', []);
    OpenConn(x.c, cl);
    forall id: StreamId | id != 0 ensures EndOk(c'.P(), View(x', 0, id)) {
      assert EndOk(x.c.P(), View(x, 0, id));
      OpenEnd(env, x, cl, id);
    }
    OpenOrder(x, cl);
    SameEventsInv(x, x');
  }

  /** A call that announces nothing. */
  lemma SameEventsInv(x: Solo, x': Solo)
    requires SoloInv(x) && ConnInv(x'.c) && x.c.closed == x'.c.closed && OpensOk(x')
    requires x'.elog == x.elog
    requires forall id: StreamId | id != 0 :: EndOk(x'.c.P(), View(x', 0, id))
    ensures SoloInv(x')
  {}

  function Sent(env: Env, x: Solo, sid: StreamId, msg: Bytes, stance: Compress): Solo {
    var (c', r) := Send(env, x.c, sid, msg, stance);
    if r.None? then With(x, c').(accepted := x.accepted[sid := Get(x.accepted, sid) + [msg]]) else With(x, c')
  }

  /** Class and `wants_writable` do not matter to the invariant. */
  lemma PolicyEnd(p: Params, e: End, s: Stream)
    requires EndOk(p, e) && e.st.Some? && SameButPolicy(e.st.value, s)
    ensures EndOk(p, e.(st := Some(s)))
  {
    FlagsInv(p, e.st.value, s);
    hide StreamInv, Run, NoData;
  }

  lemma SendEnd(env: Env, x: Solo, sid: StreamId, msg: Bytes, stance: Compress, id: StreamId)
    requires ConnInv(x.c) && EndOk(x.c.P(), View(x, 0, id)) && id != 0
    ensures EndOk(x.c.P(), View(Sent(env, x, sid, msg, stance), 0, id))
  {
    var e, e' := View(x, 0, id), View(Sent(env, x, sid, msg, stance), 0, id);
    SentView(env, x, sid, msg, stance, 0, id);
    assert e.st.Some? ==> e.known && ParamsOk(x.c.P());
    hide ConnInv, Sent, View, DoSend, StreamInv;
    if e' != e {
      if Send(env, x.c, sid, msg, stance).1.None? {
        var stance' := if x.c.P().compressionAllowed then stance else Never;
        SendOk(env, x.c.P(), e, msg, stance', e'.st.value.class_);
      } else {
        hide EndOk;
        PolicyEnd(x.c.P(), e, e.st.value.(wantsWritable := true));
      }
    }
  }

  lemma SentView(env: Env, x: Solo, sid: StreamId, msg: Bytes, stance: Compress, rd: nat, id: StreamId)
    requires rd <= |x.sent|
    ensures var (r, e, v) := (Send(env, x.c, sid, msg, stance).1, View(x, rd, id), View(Sent(env, x, sid, msg, stance), rd, id));
            && (sid != id || (r.Some? && r != Some(WouldBlock)) ==> v == e)
            && (sid == id && r == Some(WouldBlock) ==>
                  v == e || (e.st.Some? && v == e.(st := Some(e.st.value.(wantsWritable := true)))))
            && (sid == id && r.None? ==>
                  && e.st.Some? && e.st.value.localOpen && |msg| <= x.c.P().maxMessage && Ready(x.c).None?
                  && x.c.P().maxFrame >= 2 && SendCost(x.c.P(), |msg|) <= e.st.value.FreeCredit()
                  && var stance' := if x.c.P().compressionAllowed then stance else Never;
                     v.st.Some?
                     && v == DoSend(e, msg, Fragment(env, stance', e.st.value.class_, msg, x.c.P().maxFrame), v.st.value.class_))
  {
    SendView(env, x, sid, msg, stance, rd, id);
    var x1, x' := With(x, Send(env, x.c, sid, msg, stance).0), Sent(env, x, sid, msg, stance);
    assert View(x', rd, id) == View(x1, rd, id).(accepted := Get(x'.accepted, id));
  }

  lemma SendOrder(env: Env, x: Solo, sid: StreamId, msg: Bytes, stance: Compress)
    requires OpensOk(x)
    ensures var x' := Sent(env, x, sid, msg, stance);
            x'.elog == x.elog && x'.c.closed == x.c.closed && x'.c.P() == x.c.P() && OpensOk(x')
  {
    SendFields(env, x.c, sid, msg, stance);
    hide Send;
    NewEventsIs(x.c, Send(env, x.c, sid, msg, stance).0, []);
  }

  lemma SendFields(env: Env, c: Conn, sid: StreamId, msg: Bytes, stance: Compress)
    ensures var c' := Send(env, c, sid, msg, stance).0;
            && c'.events == c.events && c'.closed == c.closed && c'.params == c.params && c'.role == c.role
            && c'.control == c.control && c'.nextId == c.nextId
  {}

  lemma SendKeeps(env: Env, x: Solo, sid: StreamId, msg: Bytes, stance: Compress)
    requires SoloInv(x)
    ensures SoloInv(Sent(env, x, sid, msg, stance))
  {
    var x' := Sent(env, x, sid, msg, stance);
    SendConn(env, x.c, sid, msg, stance);
    SendOrder(env, x, sid, msg, stance);
    forall id: StreamId | id != 0 ensures EndOk(x'.c.P(), View(x', 0, id)) {
      assert EndOk(x.c.P(), View(x, 0, id));
      SendEnd(env, x, sid, msg, stance, id);
    }
    SameEventsInv(x, x');
  }

  lemma FinishEnd(x: Solo, fid: StreamId, id: StreamId)
    requires ConnInv(x.c) && EndOk(x.c.P(), View(x, 0, id))
    ensures EndOk(x.c.P(), View(With(x, Finish(x.c, fid).0), 0, id))
  {
    FinishView(x, fid, 0, id);
    if fid == id && Finish(x.c, fid).1.None? { FinishOk(x.c.P(), View(x, 0, id)); }
  }

  lemma FinishLeaves(c: Conn, fid: StreamId)
    ensures var c' := Finish(c, fid).0;
            && c'.events == c.events && c'.closed == c.closed && c'.params == c.params && c'.nextId == c.nextId
            && c'.role == c.role && (c'.control == c.control || c'.control == c.control + [Frame(fid, Fin)])
  {}

  lemma FinishOrder(x: Solo, fid: StreamId)
    requires OpensOk(x)
    ensures var c' := Finish(x.c, fid).0;
            c'.events == x.c.events && c'.closed == x.c.closed && c'.P() == x.c.P() && OpensOk(With(x, c'))
  {
    var c' := Finish(x.c, fid).0;
    FinishLeaves(x.c, fid);
    hide Finish;
    NewEventsIs(x.c, c', []);
    PushedOpens(x, Frame(fid, Fin));
    assert Opens(c'.control) == Opens(x.c.control);
  }

  lemma FinishKeeps(x: Solo, fid: StreamId)
    requires SoloInv(x)
    ensures SoloInv(With(x, Finish(x.c, fid).0))
  {
    var x' := With(x, Finish(x.c, fid).0);
    FinishConn(x.c, fid);
    FinishOrder(x, fid);
    assert x'.elog == x.elog;
    forall id: StreamId | id != 0 ensures EndOk(x'.c.P(), View(x', 0, id)) {
      assert EndOk(x.c.P(), View(x, 0, id));
      FinishEnd(x, fid, id);
    }
    SameEventsInv(x, x');
  }

  lemma ResetEnd(x: Solo, fid: StreamId, code: u32, id: StreamId)
    requires ConnInv(x.c) && EndOk(x.c.P(), View(x, 0, id))
    ensures EndOk(x.c.P(), View(With(x, Reset(x.c, fid, code).0), 0, id))
  {
    ResetView(x, fid, code, 0, id);
    if fid == id && Reset(x.c, fid, code).1.None? { ResetOk(x.c.P(), View(x, 0, id), code); }
  }

  lemma ResetKeeps(x: Solo, fid: StreamId, code: u32)
    requires SoloInv(x)
    ensures SoloInv(With(x, Reset(x.c, fid, code).0))
  {
    var c' := Reset(x.c, fid, code).0;
    var x' := With(x, c');
    NewEventsIs(x.c, c', []);
    ResetConn(x.c, fid, code);
    forall id: StreamId | id != 0 ensures EndOk(c'.P(), View(x', 0, id)) {
      assert EndOk(x.c.P(), View(x, 0, id));
      ResetEnd(x, fid, code, id);
    }
    PushedOpens(x, Frame(fid, Rst(code)));
    SameEventsInv(x, x');
  }

  function Taken(x: Solo, fid: StreamId): Solo {
    var (c', r) := RecvMsg(x.c, fid);
    if r.Ok? then With(x, c').(delivered := x.delivered[fid := Get(x.delivered, fid) + [r.value]]) else With(x, c')
  }

  lemma TakeEnd(x: Solo, fid: StreamId, id: StreamId)
    requires ConnInv(x.c) && EndOk(x.c.P(), View(x, 0, id)) && RecvMsg(x.c, fid).1.Ok? && ParamsOk(x.c.P())
    ensures EndOk(x.c.P(), View(Taken(x, fid), 0, id))
  {
    var c' := RecvMsg(x.c, fid).0;
    TakeView(x, fid, 0, id);
    assert View(Taken(x, fid), 0, id) == View(With(x, c'), 0, id).(delivered := Get(Taken(x, fid).delivered, id));
    if id == fid { TakeOk(x.c.P(), View(x, 0, id)); }
  }

  function TakenEvents(x: Solo, fid: StreamId): seq<Event>
    requires RecvMsg(x.c, fid).1.Ok?
  {
    var (s, g) := Take(x.c.streams[fid]);
    if g.None? && s.RemoteDrained() then [Finished(fid)] else []
  }

  lemma TakeOrder(x: Solo, fid: StreamId)
    requires OpensOk(x) && RecvMsg(x.c, fid).1.Ok?
    ensures var x' := Taken(x, fid);
            && x'.elog == x.elog + TakenEvents(x, fid) && x'.c.closed == x.c.closed == None
            && x'.c.P() == x.c.P() && OpensOk(x')
  {
    TakeSide(x.c, fid, fid);
    NewEventsIs(x.c, RecvMsg(x.c, fid).0, TakenEvents(x, fid));
    var (s, g) := Take(x.c.streams[fid]);
    if g.Some? { PushedOpens(x, Frame(fid, WindowUpdate(g.value))); }
  }

  lemma TakeKeeps(x: Solo, fid: StreamId)
    requires SoloInv(x) && RecvMsg(x.c, fid).1.Ok?
    ensures SoloInv(Taken(x, fid))
  {
    var x' := Taken(x, fid);
    TakeConn(x.c, fid);
    TakeOrder(x, fid);
    forall id: StreamId | id != 0 ensures EndOk(x'.c.P(), View(x', 0, id)) {
      assert EndOk(x.c.P(), View(x, 0, id));
      TakeEnd(x, fid, id);
    }
    assert fid != 0;
    assert EndOk(x.c.P(), View(x, 0, fid)) && View(x, 0, fid).st == Some(x.c.streams[fid]);
    TouchInv(x, x', TakenEvents(x, fid));
  }

  lemma SetClassEnd(x: Solo, fid: StreamId, cl: Class, id: StreamId)
    requires ConnInv(x.c) && EndOk(x.c.P(), View(x, 0, id))
    ensures EndOk(x.c.P(), View(With(x, SetClass(x.c, fid, cl).0), 0, id))
  {
    var e, e' := View(x, 0, id), View(With(x, SetClass(x.c, fid, cl).0), 0, id);
    SetClassView(x, fid, cl, 0, id);
    hide *;
    if e' != e { PolicyEnd(x.c.P(), e, e.st.value.(class_ := cl)); }
  }

  lemma SetClassKeeps(x: Solo, fid: StreamId, cl: Class)
    requires SoloInv(x)
    ensures SoloInv(With(x, SetClass(x.c, fid, cl).0))
  {
    var c' := SetClass(x.c, fid, cl).0;
    var x' := With(x, c');
    NewEventsIs(x.c, c', []);
    SetClassConn(x.c, fid, cl);
    assert c'.P() == x.c.P() && OpensOk(x') && x'.elog == x.elog && c'.closed == x.c.closed;
    assert forall id: StreamId | id != 0 :: EndOk(x.c.P(), View(x, 0, id));
    hide SetClass, OpensOk, ConnInv, EndOk, View;
    forall id: StreamId | id != 0 ensures EndOk(c'.P(), View(x', 0, id)) { SetClassEnd(x, fid, cl, id); }
    SameEventsInv(x, x');
  }

  // ---------------------------------------------------------------- transmit

  lemma TransmitEnd(x: Solo, pick: Option<Pick>, id: StreamId)
    requires ConnInv(x.c) && EndOk(x.c.P(), View(x, 0, id)) && id != 0
    requires x.c.priority != [] || PickOk(x.c, pick)
    requires Transmit(x.c, pick).1.Some?
    ensures EndOk(x.c.P(), View(Emit(x, Transmit(x.c, pick).0, Transmit(x.c, pick).1.value), 0, id))
  {
    var e := View(x, 0, id);
    TransmitView(x, pick, 0, id);
    if e.ctl != [] { SendControlOk(x.c.P(), e); }
    if e.st.Some? && e.st.value.outbox != [] && e.st.value.openSent { SendDataOk(x.c.P(), e); }
  }

  /** Moving the head of the control queue to the transport keeps the order of ids. */
  lemma MovedOpens(sent: seq<Frame>, control: seq<Frame>)
    requires control != []
    ensures Opens(sent + [control[0]]) + Opens(control[1..]) == Opens(sent) + Opens(control)
  {
    OpensOne(sent, control[0]);
    var hd := if control[0].body.Open? then [control[0].id] else [];
    assert Opens(sent + [control[0]]) == Opens(sent) + hd;
    assert Opens(control) == hd + Opens(control[1..]);
  }

  lemma TransmitOrder(x: Solo, pick: Option<Pick>)
    requires OpensOk(x) && Transmit(x.c, pick).1.Some?
    requires x.c.priority != [] ==> !x.c.priority[0].body.Open?
    ensures var x' := Emit(x, Transmit(x.c, pick).0, Transmit(x.c, pick).1.value);
            Opens(x'.sent) + Opens(x'.c.control) == Opens(x.sent) + Opens(x.c.control)
  {
    var c := x.c;
    if c.priority != [] {
      OpensOne(x.sent, c.priority[0]);
    } else {
      match pick.value
      case PickControl =>
        MovedOpens(x.sent, c.control);
        assert TransmitControl(c).control == c.control[1..];
      case PickStream(id) =>
        OpensOne(x.sent, Frame(id, Data(c.streams[id].outbox[0])));
        PushedOpens(x, Frame(id, Fin));
        assert Opens(TransmitData(c, id).control) == Opens(c.control);
    }
  }

  lemma TransmitRest(x: Solo, pick: Option<Pick>)
    requires ConnInv(x.c) && Transmit(x.c, pick).1.Some?
    ensures var c' := Transmit(x.c, pick).0;
            ConnInv(c') && c'.role == x.c.role && c'.nextId == x.c.nextId && c'.events == x.c.events && c'.closed == x.c.closed && c'.P() == x.c.P()
  {
    if x.c.priority == [] {
      if pick == Some(PickControl) { SendControlConn(x.c); } else { SendDataConn(x.c, pick.value.id); }
    }
  }

  lemma TransmitKeeps(x: Solo, pick: Option<Pick>)
    requires SoloInv(x) && (x.c.priority != [] || PickOk(x.c, pick)) && Transmit(x.c, pick).1.Some?
    ensures SoloInv(Emit(x, Transmit(x.c, pick).0, Transmit(x.c, pick).1.value))
  {
    var (c', f) := Transmit(x.c, pick);
    TransmitRest(x, pick);
    assert x.c.priority != [] ==> PriorityOk(x.c.priority[0]);
    TransmitOrder(x, pick);
    NewEventsIs(x.c, c', []);
    var x' := Emit(x, c', f.value);
    forall id: StreamId | id != 0 ensures EndOk(c'.P(), View(x', 0, id)) {
      assert EndOk(x.c.P(), View(x, 0, id));
      TransmitEnd(x, pick, id);
    }
    SameEventsInv(x, x');
  }
}
