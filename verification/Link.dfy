/** Two ends of one stream and the frames between them: what holds in the
    direction from `x` to `y`. */
module Link {
  import opened MuxTypes
  import opened Fragments
  import opened Flow
  import opened Streams
  import opened Ends

  // -------------------------------------------------- frames in one direction

  function Datas(bs: seq<Body>): seq<Bytes> {
    if bs == [] then [] else (if bs[0].Data? then [bs[0].payload] else []) + Datas(bs[1..])
  }

  /** Credit announced by window updates. */
  function Updates(bs: seq<Body>): nat {
    if bs == [] then 0 else (if bs[0].WindowUpdate? then bs[0].credit else 0) + Updates(bs[1..])
  }

  predicate HasFin(bs: seq<Body>) { exists i | 0 <= i < |bs| :: bs[i].Fin? }

  lemma {:induction false} DatasAppend(a: seq<Body>, b: seq<Body>)
    ensures Datas(a + b) == Datas(a) + Datas(b)
    ensures Updates(a + b) == Updates(a) + Updates(b)
  {
    if a == [] {
      assert a + b == b;
    } else {
      assert (a + b)[0] == a[0] && (a + b)[1..] == a[1..] + b;
      DatasAppend(a[1..], b);
    }
  }

  lemma DatasOne(a: seq<Body>, b: Body)
    ensures Datas(a + [b]) == if b.Data? then Datas(a) + [b.payload] else Datas(a)
    ensures Updates(a + [b]) == Updates(a) + (if b.WindowUpdate? then b.credit else 0)
    ensures HasFin(a + [b]) <==> HasFin(a) || b.Fin?
  {
    DatasAppend(a, [b]);
    assert [b][1..] == [];
    assert (a + [b])[|a|] == b;
    assert forall i | 0 <= i < |a| :: (a + [b])[i] == a[i];
  }

  lemma {:induction false} NoDatas(bs: seq<Body>)
    requires NoData(bs)
    ensures Datas(bs) == []
  {
    if bs != [] { NoDatas(bs[1..]); }
  }

  // -------------------------------------------------- what the receiver holds

  /** The phase of everything `y` has consumed from `x`. */
  function Seen(ex: End): Phase { Run(ex.Start(), ex.done) }

  /** `y` will take DATA from `x`: it tracks the stream and has seen no FIN, or
      has yet to see the OPEN. */
  predicate Live(ex: End, ey: End) {
    !ey.closed && if ey.st.Some? then ey.st.value.remoteOpen else ex.opener && !ey.known
  }

  function Remaining(p: Params, ey: End): nat {
    if ey.st.Some? then ey.st.value.recv.remaining else p.initialWindow
  }

  function Acc(ey: End): Bytes { if ey.st.Some? then ey.st.value.partial else [] }

  /** Messages `y` has returned or can return now. */
  function Got(ey: End): seq<Bytes> {
    ey.delivered + if ey.st.Some? then InboxMsgs(ey.st.value.inbox) else []
  }

  function Outbox(ex: End): seq<Bytes> { if ex.st.Some? then ex.st.value.outbox else [] }

  /** DATA payloads on their way, in order. */
  function Queued(ex: End): seq<Bytes> { Datas(ex.wire) + Outbox(ex) }

  // ----------------------------------------------------------- the invariant

  predicate LinkPhase(ex: End, ey: End) {
    && ex.opener != ey.opener
    && (ex.opener ==> (ey.known ==> ex.done != []) && (!ey.closed && ex.done != [] ==> ey.known))
    && (ey.opener ==> (ex.known ==> ey.known))
    && (ey.st.Some? ==> Seen(ex) == if ey.st.value.remoteOpen then CanData else AfterFin)
    && (ey.fin ==> Rank(Seen(ex)) >= 2)
    && (ey.st.Some? && ey.st.value.partial == [] ==> ey.st.value.partialWire == 0)
  }

  /** Credit is conserved: what `y` will still take is what `x` may still send,
      plus what is in flight, plus what is announced and not yet heard. */
  predicate LinkCredit(p: Params, ex: End, ey: End) {
    && (ex.st.Some? ==>
        ex.st.value.send.credit + TotalBytes(Datas(ex.wire)) + Updates(ey.wire + ey.ctl) <= p.initialWindow)
    && (Live(ex, ey) ==>
        if ex.st.Some?
        then Remaining(p, ey) == ex.st.value.send.credit + TotalBytes(Datas(ex.wire)) + Updates(ey.wire + ey.ctl)
        else Remaining(p, ey) >= TotalBytes(Datas(ex.wire)))
  }

  /** Before `x` knows the stream nothing of this direction has happened. */
  predicate LinkFresh(p: Params, ex: End, ey: End) {
    !ex.known ==>
      && ex.accepted == [] && Updates(ey.wire + ey.ctl) == 0
      && (ey.st.Some? ==> ey.st.value.remoteOpen && ey.st.value.partial == []
                          && ey.st.value.recv.remaining == p.initialWindow)
  }

  /** Messages: what `x` accepted is what `y` got, then what the payloads on the
      way add up to; after a reset or close, a prefix of it. */
  predicate LinkMsgs(env: Env, p: Params, ex: End, ey: End) {
    var (mf, q) := (p.maxFrame, Queued(ex));
    && Got(ey) <= ex.accepted
    && (ey.st.Some? && !ey.st.value.remoteOpen ==> Got(ey) == ex.accepted)
    && (ey.fin ==> ey.delivered == ex.accepted)
    && (Live(ex, ey) ==>
        && Fits(env, mf, p.maxMessage, Acc(ey), q)
        && Got(ey) + Msgs(env, mf, Acc(ey), q) <= ex.accepted
        && (ex.st.Some? || HasFin(ex.wire + ex.ctl) ==>
            Got(ey) + Msgs(env, mf, Acc(ey), q) == ex.accepted && Left(env, mf, Acc(ey), q) == []))
  }

  /** Frames on the way are well formed. */
  predicate LinkWire(env: Env, p: Params, ex: End) {
    && (forall i | 0 <= i < |Queued(ex)| :: Good(env, p.maxFrame, Queued(ex)[i]))
    && (forall i | 0 <= i < |ex.wire| :: ex.wire[i].Open? ==> ex.wire[i].class_ != Control)
    && (forall i | 0 <= i < |ex.ctl| :: ex.ctl[i].Open? ==> ex.ctl[i].class_ != Control)
  }

  ghost predicate Linked(env: Env, p: Params, ex: End, ey: End) {
    LinkPhase(ex, ey) && LinkCredit(p, ex, ey) && LinkFresh(p, ex, ey) && LinkMsgs(env, p, ex, ey) && LinkWire(env, p, ex)
  }

  // ------------------------------------------------------------- what it says

  lemma PrefixTrans(a: seq<Bytes>, b: seq<Bytes>, c: seq<Bytes>)
    requires a + b <= c
    ensures a <= c
  {
    assert c[..|a| + |b|] == a + b;
    assert c[..|a|] == (a + b)[..|a|] == a;
  }

  /** Nothing of a stream's message history is in flight before it is opened. */
  lemma FreshLink(env: Env, p: Params, ex: End, ey: End)
    requires EndOk(p, ex) && EndOk(p, ey) && !ex.known && !ey.known && ex.opener != ey.opener
    ensures Linked(env, p, ex, ey)
  {
    assert ex.done == [] && ex.wire == [] && ex.ctl == [] && ey.done == [] && ey.wire == [] && ey.ctl == [];
    assert ey.wire + ey.ctl == [] && ex.wire + ex.ctl == [];
    assert Queued(ex) == [];
  }

  // -------------------------------------------- one end moves, as sender first

  predicate ClassesOk(bs: seq<Body>) { forall i | 0 <= i < |bs| :: bs[i].Open? ==> bs[i].class_ != Control }

  /** `x` keeps the stream, its outbox and its credit. */
  lemma SenderStays(env: Env, p: Params, ex: End, ey: End, e': End)
    requires Linked(env, p, ex, ey) && ex.st.Some? && e'.st.Some? && ClassesOk(e'.ctl)
    requires e' == ex.(st := e'.st, ctl := e'.ctl, delivered := e'.delivered, fin := e'.fin)
    requires e'.st.value.outbox == ex.st.value.outbox && e'.st.value.send == ex.st.value.send
    ensures Linked(env, p, e', ey)
  {
    assert Queued(e') == Queued(ex);
  }

  /** Queueing a frame other than OPEN. */
  lemma PushClasses(env: Env, p: Params, ex: End, b: Body)
    requires LinkWire(env, p, ex) && !b.Open?
    ensures ClassesOk(ex.ctl) && ClassesOk(ex.ctl + [b])
  {}

  /** `x` lets go of the stream; an unsent FIN means there was nothing unsent. */
  lemma SenderGone(env: Env, p: Params, ex: End, ey: End, e': End)
    requires Linked(env, p, ex, ey) && e'.st.None? && ClassesOk(e'.ctl)
    requires e' == ex.(st := None, ctl := e'.ctl, delivered := e'.delivered, fin := e'.fin, closed := e'.closed)
    requires HasFin(e'.wire + e'.ctl) ==> HasFin(ex.wire + ex.ctl) || (ex.st.Some? && ex.st.value.outbox == [])
    requires HasFin(e'.wire + e'.ctl) ==> Outbox(ex) == []
    ensures Linked(env, p, e', ey)
  {
    assert Queued(e') == Datas(ex.wire);
    assert forall i | 0 <= i < |Datas(ex.wire)| :: Datas(ex.wire)[i] == Queued(ex)[i];
    if Outbox(ex) == [] { assert Queued(ex) == Datas(ex.wire); }
    DroppedMsgs(env, p, ex, ey, e');
  }

  /** Dropping the outbox leaves a prefix of what was accepted on its way. */
  lemma DroppedMsgs(env: Env, p: Params, ex: End, ey: End, e': End)
    requires LinkMsgs(env, p, ex, ey) && e'.st.None?
    requires e' == ex.(st := None, ctl := e'.ctl, delivered := e'.delivered, fin := e'.fin, closed := e'.closed)
    requires HasFin(e'.wire + e'.ctl) ==> HasFin(ex.wire + ex.ctl) || (ex.st.Some? && ex.st.value.outbox == [])
    requires HasFin(e'.wire + e'.ctl) ==> Queued(e') == Queued(ex)
    requires Queued(e') == Datas(ex.wire)
    ensures LinkMsgs(env, p, e', ey)
  {
    var (mf, d, a) := (p.maxFrame, Datas(ex.wire), Acc(ey));
    ReassembleAppend(env, mf, p.maxMessage, a, d, Outbox(ex));
    if Live(ex, ey) {
      var (m, rest) := (Msgs(env, mf, a, d), Msgs(env, mf, Left(env, mf, a, d), Outbox(ex)));
      assert Got(ey) + (m + rest) == (Got(ey) + m) + rest;
      PrefixTrans(Got(ey) + m, rest, ex.accepted);
    }
  }

  // -------------------------------------------------- one end moves, as receiver

  /** `x` keeps what it holds of the stream. */
  lemma ReceiverStays(env: Env, p: Params, ey: End, ex: End, e': End)
    requires Linked(env, p, ey, ex) && ex.st.Some? && e'.st.Some?
    requires e' == ex.(st := e'.st, wire := e'.wire, ctl := e'.ctl, accepted := e'.accepted)
    requires Updates(e'.wire + e'.ctl) == Updates(ex.wire + ex.ctl)
    requires var (s, t) := (ex.st.value, e'.st.value);
             && t.recv == s.recv && t.inbox == s.inbox && t.remoteOpen == s.remoteOpen
             && t.partial == s.partial && t.partialWire == s.partialWire
    ensures Linked(env, p, ey, e')
  {}

  /** `x` lets go of the stream. */
  lemma ReceiverGone(env: Env, p: Params, ey: End, ex: End, e': End)
    requires Linked(env, p, ey, ex) && e'.st.None? && (ex.known || e'.closed)
    requires e' == ex.(st := None, wire := e'.wire, ctl := e'.ctl, accepted := e'.accepted, closed := e'.closed)
    requires Updates(e'.wire + e'.ctl) <= Updates(ex.wire + ex.ctl)
    requires ex.closed ==> e'.closed
    ensures Linked(env, p, ey, e')
  {
    if ex.st.Some? { PrefixTrans(ex.delivered, InboxMsgs(ex.st.value.inbox), ey.accepted); }
    assert Got(e') == ex.delivered;
  }

  // ------------------------------------------------------------ calls by `x`

  /** A change of `x`'s sending side that only touches policy fields. */
  lemma TweakKeeps(env: Env, p: Params, ex: End, ey: End, s: Stream)
    requires Linked(env, p, ex, ey) && Linked(env, p, ey, ex)
    requires ex.st.Some? && SameButPolicy(ex.st.value, s)
    ensures Linked(env, p, ex.(st := Some(s)), ey) && Linked(env, p, ey, ex.(st := Some(s)))
  {
    assert ClassesOk(ex.ctl);
    hide Linked;
    SenderStays(env, p, ex, ey, ex.(st := Some(s)));
    ReceiverStays(env, p, ey, ex, ex.(st := Some(s)));
  }

  lemma OpenKeeps(env: Env, p: Params, ex: End, ey: End, class_: Class)
    requires ParamsOk(p) && EndOk(p, ex) && EndOk(p, ey)
    requires Linked(env, p, ex, ey) && Linked(env, p, ey, ex)
    requires !ex.known && ex.opener && class_ != Control
    ensures Linked(env, p, DoOpen(ex, class_, p.initialWindow), ey)
    ensures Linked(env, p, ey, DoOpen(ex, class_, p.initialWindow))
  {
    var e' := DoOpen(ex, class_, p.initialWindow);
    assert ex.done == [] && ex.wire == [] && ex.ctl == [];
    assert !ey.known && ey.done == [] && ey.wire == [] && ey.ctl == [];
    assert ey.wire + ey.ctl == [];
    assert Queued(e') == [] && e'.ctl == [Open(class_)];
    DatasOne([], Open(class_));
    assert e'.wire + e'.ctl == [] + [Open(class_)];
    assert Queued(ey) == [];
  }

  lemma SendKeeps(env: Env, p: Params, ex: End, ey: End, msg: Bytes, stance: Compress, class_: Class)
    requires ParamsOk(p) && EndOk(p, ex)
    requires Linked(env, p, ex, ey) && Linked(env, p, ey, ex)
    requires ex.st.Some? && ex.st.value.localOpen && |msg| <= p.maxMessage && ex.known
    ensures var e' := DoSend(ex, msg, Fragment(env, stance, ex.st.value.class_, msg, p.maxFrame), class_);
            Linked(env, p, e', ey) && Linked(env, p, ey, e')
  {
    var ps := Fragment(env, stance, ex.st.value.class_, msg, p.maxFrame);
    var e' := DoSend(ex, msg, ps, class_);
    FragmentReassembles(env, stance, ex.st.value.class_, msg, p.maxFrame, p.maxMessage);
    NoFinYet(p, ex, ey);
    SendMsgs(env, p, ex, ey, msg, ps, e');
    SendWire(env, p, ex, ey, ps, e');
    hide Linked, EndOk;
    ReceiverStays(env, p, ey, ex, e');
  }

  lemma SendWire(env: Env, p: Params, ex: End, ey: End, ps: seq<Bytes>, e': End)
    requires Linked(env, p, ex, ey) && ex.st.Some? && e'.st.Some? && ex.known
    requires e' == ex.(st := e'.st, accepted := e'.accepted)
    requires e'.st.value.outbox == ex.st.value.outbox + ps && e'.st.value.send == ex.st.value.send
    requires forall i | 0 <= i < |ps| :: Good(env, p.maxFrame, ps[i])
    requires LinkMsgs(env, p, e', ey)
    ensures Linked(env, p, e', ey)
  {
    var q := Queued(ex);
    assert Queued(e') == q + ps;
    forall i | 0 <= i < |q + ps| ensures Good(env, p.maxFrame, (q + ps)[i]) {
      if i >= |q| { assert (q + ps)[i] == ps[i - |q|]; }
    }
  }

  /** While `x` may send, `y` has not seen its FIN. */
  lemma NoFinYet(p: Params, ex: End, ey: End)
    requires EndOk(p, ex) && ex.st.Some? && (ex.st.value.localOpen || ex.st.value.outbox != [])
    ensures Rank(Seen(ex)) <= 1 && !HasFin(ex.wire + ex.ctl)
  {
    assert ex.All() == ex.done + (ex.wire + ex.ctl);
    RunAppend(ex.Start(), ex.done, ex.wire + ex.ctl);
    RunForward(Seen(ex), ex.wire + ex.ctl);
    if HasFin(ex.wire + ex.ctl) { FinForward(Seen(ex), ex.wire + ex.ctl); }
  }

  lemma {:induction false} FinForward(ph: Phase, bs: seq<Body>)
    requires HasFin(bs)
    ensures Rank(Run(ph, bs)) >= 2
    decreases |bs|
  {
    RunForward(Next(ph, bs[0]), bs[1..]);
    if !bs[0].Fin? {
      var i :| 0 <= i < |bs| && bs[i].Fin?;
      assert bs[1..][i - 1].Fin?;
      FinForward(Next(ph, bs[0]), bs[1..]);
    }
  }

  lemma SendMsgs(env: Env, p: Params, ex: End, ey: End, msg: Bytes, ps: seq<Bytes>, e': End)
    requires LinkMsgs(env, p, ex, ey) && LinkPhase(ex, ey) && ex.st.Some? && Rank(Seen(ex)) <= 1
    requires e' == ex.(st := e'.st, accepted := ex.accepted + [msg]) && e'.st.Some?
    requires e'.st.value.outbox == ex.st.value.outbox + ps
    requires Msgs(env, p.maxFrame, [], ps) == [msg] && Left(env, p.maxFrame, [], ps) == []
    requires Fits(env, p.maxFrame, p.maxMessage, [], ps)
    ensures LinkMsgs(env, p, e', ey)
  {
    var mf, q := p.maxFrame, Queued(ex);
    assert Queued(e') == q + ps;
    ReassembleAppend(env, mf, p.maxMessage, Acc(ey), q, ps);
    if Live(ex, ey) {
      assert Got(ey) + (Msgs(env, mf, Acc(ey), q) + [msg]) == (Got(ey) + Msgs(env, mf, Acc(ey), q)) + [msg];
    }
  }

  /** Queueing FIN or RST. */
  lemma Queue(env: Env, p: Params, ex: End, ey: End, b: Body)
    requires Linked(env, p, ex, ey) && Linked(env, p, ey, ex) && ex.st.Some? && (b.Fin? || b.Rst?)
    ensures Linked(env, p, ex.(ctl := ex.ctl + [b]), ey) && Linked(env, p, ey, ex.(ctl := ex.ctl + [b]))
  {
    var e' := ex.(ctl := ex.ctl + [b]);
    PushClasses(env, p, ex, b);
    assert ex.wire + (ex.ctl + [b]) == (ex.wire + ex.ctl) + [b];
    DatasOne(ex.wire + ex.ctl, b);
    hide *;
    SenderStays(env, p, ex, ey, e');
    ReceiverStays(env, p, ey, ex, e');
  }

  /** Half-closing: the stream stays, or goes when nothing is left in it. */
  lemma HalfClose(env: Env, p: Params, ex: End, ey: End)
    requires Linked(env, p, ex, ey) && Linked(env, p, ey, ex) && ex.st.Some? && ex.known && ClassesOk(ex.ctl)
    ensures var s := ex.st.value.(localOpen := false);
            var e' := ex.(st := if s.outbox == [] then Forget(s) else Some(s));
            Linked(env, p, e', ey) && Linked(env, p, ey, e')
  {
    var s := ex.st.value.(localOpen := false);
    var e' := ex.(st := if s.outbox == [] then Forget(s) else Some(s));
    if e'.st.Some? {
      SenderStays(env, p, ex, ey, e');
      ReceiverStays(env, p, ey, ex, e');
    } else {
      SenderGone(env, p, ex, ey, e');
      ReceiverGone(env, p, ey, ex, e');
    }
  }

  lemma FinishKeeps(env: Env, p: Params, ex: End, ey: End)
    requires EndOk(p, ex) && Linked(env, p, ex, ey) && Linked(env, p, ey, ex)
    requires ex.st.Some? && ex.st.value.localOpen && ex.known
    ensures Linked(env, p, DoFinish(ex), ey) && Linked(env, p, ey, DoFinish(ex))
  {
    if ex.st.value.outbox == [] {
      PushClasses(env, p, ex, Fin);
      Queue(env, p, ex, ey, Fin);
      HalfClose(env, p, ex.(ctl := ex.ctl + [Fin]), ey);
    } else {
      HalfClose(env, p, ex, ey);
    }
  }

  lemma ResetKeeps(env: Env, p: Params, ex: End, ey: End, code: u32)
    requires EndOk(p, ex) && Linked(env, p, ex, ey) && Linked(env, p, ey, ex)
    requires ex.st.Some? && ex.known
    ensures Linked(env, p, DoReset(ex, code), ey) && Linked(env, p, ey, DoReset(ex, code))
  {
    var e' := DoReset(ex, code);
    PushClasses(env, p, ex, Rst(code));
    hide Linked;
    assert ex.wire + (ex.ctl + [Rst(code)]) == (ex.wire + ex.ctl) + [Rst(code)];
    DatasOne(ex.wire + ex.ctl, Rst(code));
    if ex.st.value.outbox != [] { NoFinYet(p, ex, ey); }
    SenderGone(env, p, ex, ey, e');
    ReceiverGone(env, p, ey, ex, e');
  }

  lemma CloseKeeps(env: Env, p: Params, ex: End, ey: End)
    requires EndOk(p, ex) && Linked(env, p, ex, ey) && Linked(env, p, ey, ex)
    ensures Linked(env, p, DoClose(ex), ey) && Linked(env, p, ey, DoClose(ex))
  {
    var e' := DoClose(ex);
    DatasAppend(ex.wire, ex.ctl);
    assert ClassesOk([]);
    hide Linked;
    assert e'.wire + e'.ctl == ex.wire;
    if HasFin(ex.wire) {
      var i :| 0 <= i < |ex.wire| && ex.wire[i].Fin?;
      assert (ex.wire + ex.ctl)[i].Fin?;
    }
    if ex.st.Some? && ex.st.value.outbox != [] { NoFinYet(p, ex, ey); }
    SenderGone(env, p, ex, ey, e');
    ReceiverGone(env, p, ey, ex, e');
  }

  lemma SendControlKeeps(env: Env, p: Params, ex: End, ey: End)
    requires Linked(env, p, ex, ey) && Linked(env, p, ey, ex) && NoData(ex.ctl) && ex.ctl != []
    ensures Linked(env, p, DoSendControl(ex), ey) && Linked(env, p, ey, DoSendControl(ex))
  {
    var e1 := ex.(wire := ex.wire + [ex.ctl[0]], ctl := ex.ctl[1..]);
    assert ex.ctl == [ex.ctl[0]] + ex.ctl[1..];
    assert e1.wire + e1.ctl == ex.wire + ex.ctl;
    DatasOne(ex.wire, ex.ctl[0]);
    assert Queued(e1) == Queued(ex);
    hide Linked, NoData, Updates, Datas, Queued, HasFin;
    SentControlLink(env, p, ex, ey, e1);
    ReceiverMoved(env, p, ey, ex, e1);
    if ex.ctl[0].Open? && ex.st.Some? { OpenOut(env, p, e1, ey); }
  }

  lemma OpenOut(env: Env, p: Params, ex: End, ey: End)
    requires Linked(env, p, ex, ey) && Linked(env, p, ey, ex) && ex.st.Some?
    ensures var e' := ex.(st := Some(ex.st.value.(openSent := true)));
            Linked(env, p, e', ey) && Linked(env, p, ey, e')
  {
    var e' := ex.(st := Some(ex.st.value.(openSent := true)));
    assert ClassesOk(e'.ctl);
    SenderStays(env, p, ex, ey, e');
    ReceiverStays(env, p, ey, ex, e');
  }

  lemma ReceiverMoved(env: Env, p: Params, ey: End, ex: End, e': End)
    requires Linked(env, p, ey, ex)
    requires e' == ex.(done := e'.done, wire := e'.wire, ctl := e'.ctl)
    requires Updates(e'.wire + e'.ctl) == Updates(ex.wire + ex.ctl)
    ensures Linked(env, p, ey, e')
  {}

  lemma SentControlLink(env: Env, p: Params, ex: End, ey: End, e': End)
    requires Linked(env, p, ex, ey) && ex.ctl != []
    requires e' == ex.(wire := ex.wire + [ex.ctl[0]], ctl := ex.ctl[1..])
    requires Queued(e') == Queued(ex) && Datas(e'.wire) == Datas(ex.wire) && e'.wire + e'.ctl == ex.wire + ex.ctl
    ensures Linked(env, p, e', ey)
  {
    forall i | 0 <= i < |e'.wire| ensures e'.wire[i].Open? ==> e'.wire[i].class_ != Control {
      if i == |ex.wire| { assert e'.wire[i] == ex.ctl[0]; }
    }
  }

  lemma SendDataKeeps(env: Env, p: Params, ex: End, ey: End)
    requires EndOk(p, ex) && Linked(env, p, ex, ey) && Linked(env, p, ey, ex) && ex.known
    requires ex.st.Some? && ex.st.value.outbox != []
    ensures Linked(env, p, DoSendData(ex), ey) && Linked(env, p, ey, DoSendData(ex))
  {
    var s := PopOutbox(ex.st.value);
    var e1 := ex.(st := Some(s), wire := ex.wire + [Data(ex.st.value.outbox[0])]);
    MovedData(env, p, ex, ey, e1);
    MovedDataBack(env, p, ex, ey, e1);
    hide EndOk, Updates, Datas;
    if s.outbox == [] && !s.localOpen {
      PushClasses(env, p, e1, Fin);
      Queue(env, p, e1, ey, Fin);
      assert s.(localOpen := false) == s;
      HalfClose(env, p, e1.(ctl := ex.ctl + [Fin]), ey);
    }
  }

  lemma MoveOne(a: seq<Bytes>, x: Bytes, b: seq<Bytes>)
    ensures (a + [x]) + b == a + ([x] + b)
  {}

  lemma MovedPayload(ex: End, e1: End)
    requires ex.st.Some? && ex.st.value.outbox != [] && e1.st.Some?
    requires e1.st.value.outbox == ex.st.value.outbox[1..]
    requires e1.wire == ex.wire + [Data(ex.st.value.outbox[0])]
    ensures Queued(e1) == Queued(ex)
    ensures TotalBytes(Datas(e1.wire)) == TotalBytes(Datas(ex.wire)) + |ex.st.value.outbox[0]|
  {
    var x, rest := ex.st.value.outbox[0], ex.st.value.outbox[1..];
    assert TotalBytes([x]) == |x| + TotalBytes([x][1..]);
    hide Datas, TotalBytes;
    DatasOne(ex.wire, Data(x));
    TotalAppend(Datas(ex.wire), [x]);
    assert ex.st.value.outbox == [x] + rest;
    MoveOne(Datas(ex.wire), x, rest);
  }

  /** The head of the outbox moves to the wire, with its credit. */
  lemma MovedData(env: Env, p: Params, ex: End, ey: End, e1: End)
    requires EndOk(p, ex) && Linked(env, p, ex, ey)
    requires ex.st.Some? && ex.st.value.outbox != []
    requires e1 == ex.(st := Some(PopOutbox(ex.st.value)), wire := ex.wire + [Data(ex.st.value.outbox[0])])
    ensures Linked(env, p, e1, ey)
  {
    hide Linked;
    PopOutboxInv(p, ex.st.value);
    MovedPayload(ex, e1);
    SentDataLink(env, p, ex, ey, e1);
  }

  lemma MovedDataBack(env: Env, p: Params, ex: End, ey: End, e1: End)
    requires Linked(env, p, ey, ex)
    requires ex.st.Some? && ex.st.value.outbox != []
    requires e1 == ex.(st := Some(PopOutbox(ex.st.value)), wire := ex.wire + [Data(ex.st.value.outbox[0])])
    ensures Linked(env, p, ey, e1)
  {
    DatasOne(ex.wire, Data(ex.st.value.outbox[0]));
    DatasAppend(ex.wire, ex.ctl);
    DatasAppend(e1.wire, ex.ctl);
    ReceiverStays(env, p, ey, ex, e1);
  }

  lemma SentDataLink(env: Env, p: Params, ex: End, ey: End, e1: End)
    requires Linked(env, p, ex, ey) && ex.st.Some? && e1.st.Some?
    requires e1 == ex.(st := e1.st, wire := e1.wire)
    requires Queued(e1) == Queued(ex)
    requires e1.st.value.send.credit + TotalBytes(Datas(e1.wire)) == ex.st.value.send.credit + TotalBytes(Datas(ex.wire))
    requires |e1.wire| == |ex.wire| + 1 && e1.wire[..|ex.wire|] == ex.wire && e1.wire[|ex.wire|].Data?
    ensures Linked(env, p, e1, ey)
  {
    hide Datas, TotalBytes, Updates, HasFin, Fits, Msgs, Left, Got, Good, Queued;
    forall i | 0 <= i < |e1.wire| ensures e1.wire[i].Open? ==> e1.wire[i].class_ != Control {
      if i < |ex.wire| { assert e1.wire[i] == ex.wire[i]; }
    }
    NewFin(ex.wire, ex.ctl, e1.wire);
  }

  /** A DATA frame in the middle is no FIN. */
  lemma NewFin(wire: seq<Body>, ctl: seq<Body>, wire': seq<Body>)
    requires |wire'| == |wire| + 1 && wire'[..|wire|] == wire && wire'[|wire|].Data?
    ensures HasFin(wire' + ctl) ==> HasFin(wire + ctl)
  {
    if HasFin(wire' + ctl) {
      var i :| 0 <= i < |wire' + ctl| && (wire' + ctl)[i].Fin?;
      assert (wire + ctl)[if i < |wire| then i else i - 1] == (wire' + ctl)[i];
    }
  }

  /** `x` after `recv_msg`, before a drained stream is let go. */
  function DoTakeFirst(ex: End): End
    requires ex.st.Some? && ex.st.value.inbox != []
  {
    var (t, g) := Take(ex.st.value);
    ex.(st := Some(t), delivered := ex.delivered + [ex.st.value.inbox[0].0],
        ctl := if g.Some? then ex.ctl + [WindowUpdate(g.value)] else ex.ctl)
  }

  lemma TakenGot(ex: End)
    requires ex.st.Some? && ex.st.value.inbox != []
    ensures Got(DoTakeFirst(ex)) == Got(ex)
    ensures var (e', g) := (DoTakeFirst(ex), Take(ex.st.value).1);
            Updates(e'.wire + e'.ctl) == Updates(ex.wire + ex.ctl) + (if g.Some? then g.value else 0)
  {
    var s := ex.st.value;
    var g := Take(s).1;
    var rest := InboxMsgs(s.inbox[1..]);
    assert InboxMsgs(s.inbox) == [s.inbox[0].0] + rest;
    hide InboxMsgs, Updates;
    assert (ex.delivered + [s.inbox[0].0]) + rest == ex.delivered + ([s.inbox[0].0] + rest);
    if g.Some? { PushedUpdate(ex.wire, ex.ctl, g.value); }
  }

  lemma PushedUpdate(wire: seq<Body>, ctl: seq<Body>, n: u32)
    ensures Updates(wire + (ctl + [WindowUpdate(n)])) == Updates(wire + ctl) + n
  {
    assert wire + (ctl + [WindowUpdate(n)]) == (wire + ctl) + [WindowUpdate(n)];
    DatasOne(wire + ctl, WindowUpdate(n));
  }

  lemma TakeKeeps(env: Env, p: Params, ex: End, ey: End)
    requires ParamsOk(p) && EndOk(p, ex) && Linked(env, p, ex, ey) && Linked(env, p, ey, ex) && ex.known
    requires ex.st.Some? && ex.st.value.inbox != []
    ensures Linked(env, p, DoTake(ex), ey) && Linked(env, p, ey, DoTake(ex))
  {
    var s := ex.st.value;
    var (t, g) := Take(s);
    TakeInv(p, s);
    TakenGot(ex);
    PushClasses(env, p, ex, WindowUpdate(if g.Some? then g.value else 0));
    assert !ex.closed && !ex.fin;
    hide Linked, EndOk, Got;
    var e1 := DoTakeFirst(ex);
    SenderStays(env, p, ex, ey, e1);
    TakenLink(env, p, ey, ex, e1, g);
    if t.RemoteDrained() { Drained(env, p, e1, ey); }
  }

  /** The last message is taken and the FIN was seen: the stream may go. */
  lemma Drained(env: Env, p: Params, ex: End, ey: End)
    requires Linked(env, p, ex, ey) && Linked(env, p, ey, ex)
    requires ex.st.Some? && ex.known && ex.st.value.RemoteDrained()
    ensures var e' := ex.(st := Forget(ex.st.value), fin := true);
            Linked(env, p, e', ey) && Linked(env, p, ey, e')
  {
    var e1, e' := ex.(fin := true), ex.(st := Forget(ex.st.value), fin := true);
    assert Got(ex) == ex.delivered;
    assert ClassesOk(ex.ctl);
    SenderStays(env, p, ex, ey, e1);
    assert Linked(env, p, ey, e1);
    if e'.st.None? {
      SenderGone(env, p, e1, ey, e');
      ReceiverGone(env, p, ey, e1, e');
    }
  }

  lemma TakenLink(env: Env, p: Params, ey: End, ex: End, e': End, g: Option<u32>)
    requires Linked(env, p, ey, ex) && ex.st.Some? && e'.st.Some? && !ex.closed && StreamInv(p, e'.st.value)
    requires e' == ex.(st := e'.st, delivered := e'.delivered, ctl := e'.ctl)
    requires var (s, t) := (ex.st.value, e'.st.value);
             && t.recv.remaining == s.recv.remaining + (if g.Some? then g.value else 0)
             && t.partial == s.partial && t.partialWire == s.partialWire
             && t.remoteOpen == s.remoteOpen && (g.Some? ==> s.remoteOpen)
    requires !ex.fin
    requires Updates(e'.wire + e'.ctl) == Updates(ex.wire + ex.ctl) + (if g.Some? then g.value else 0)
    requires Got(e') == Got(ex)
    ensures Linked(env, p, ey, e')
  {}

  // -------------------------------------------------- `y` receives from `x`

  /** `e'` is `ex` after the peer consumed `b`. */
  predicate Shift(ex: End, e': End, b: Body) {
    && e' == ex.(done := ex.done + [b], wire := e'.wire) && ex.known
    && Seen(e') == Next(Seen(ex), b) != Bad && (ex.done == [] <==> Seen(ex) == Init || (ex.done == [] && !ex.opener))
    && Queued(ex) == (if b.Data? then [b.payload] + Queued(e') else Queued(e'))
    && TotalBytes(Datas(ex.wire)) == (if b.Data? then |b.payload| else 0) + TotalBytes(Datas(e'.wire))
    && Updates(ex.wire + ex.ctl) == (if b.WindowUpdate? then b.credit else 0) + Updates(e'.wire + e'.ctl)
    && (HasFin(e'.wire + e'.ctl) ==> HasFin(ex.wire + ex.ctl))
    && (b.Fin? ==> HasFin(ex.wire + ex.ctl) && Queued(ex) == [])
    && |ex.wire| == |e'.wire| + 1 && ex.wire[0] == b && ex.wire[1..] == e'.wire
  }

  lemma {:induction false} AfterFinNoData(bs: seq<Body>)
    requires Run(AfterFin, bs) != Bad
    ensures Datas(bs) == []
    decreases |bs|
  {
    if bs != [] {
      RunBad(bs[1..]);
      if bs[0].Rst? { AfterRstNothing(bs[1..]); } else { AfterFinNoData(bs[1..]); }
    }
  }

  lemma AfterRstNothing(bs: seq<Body>)
    requires Run(AfterRst, bs) != Bad
    ensures bs == []
  {
    if bs != [] { RunBad(bs[1..]); }
  }

  lemma HeadDatas(wire: seq<Body>)
    requires wire != []
    ensures var (b, rest) := (wire[0], wire[1..]);
            && Datas(wire) == (if b.Data? then [b.payload] + Datas(rest) else Datas(rest))
            && TotalBytes(Datas(wire)) == (if b.Data? then |b.payload| else 0) + TotalBytes(Datas(rest))
  {
    var b, rest := wire[0], wire[1..];
    if b.Data? {
      TotalAppend([b.payload], Datas(rest));
      assert TotalBytes([b.payload]) == |b.payload| + TotalBytes([b.payload][1..]);
    } else {
      assert [] + Datas(rest) == Datas(rest);
    }
  }

  lemma HeadItems(wire: seq<Body>, ctl: seq<Body>)
    requires wire != []
    ensures var (b, rest) := (wire[0], wire[1..]);
            && Datas(wire) == (if b.Data? then [b.payload] + Datas(rest) else Datas(rest))
            && TotalBytes(Datas(wire)) == (if b.Data? then |b.payload| else 0) + TotalBytes(Datas(rest))
            && Updates(wire + ctl) == (if b.WindowUpdate? then b.credit else 0) + Updates(rest + ctl)
            && (HasFin(rest + ctl) ==> HasFin(wire + ctl))
            && (b.Fin? ==> HasFin(wire + ctl))
  {
    hide *;
    var b, rest := wire[0], wire[1..];
    HeadFirst(wire, ctl);
    HeadDatas(wire);
    HeadFin(b, rest + ctl);
    HeadUpdates(b, rest + ctl);
  }

  lemma HeadFirst(wire: seq<Body>, ctl: seq<Body>)
    requires wire != []
    ensures wire + ctl == [wire[0]] + (wire[1..] + ctl)
  {}

  lemma HeadUpdates(b: Body, rest: seq<Body>)
    ensures Updates([b] + rest) == (if b.WindowUpdate? then b.credit else 0) + Updates(rest)
  {
    assert ([b] + rest)[0] == b && ([b] + rest)[1..] == rest;
  }

  lemma HeadFin(b: Body, rest: seq<Body>)
    ensures HasFin([b] + rest) <==> b.Fin? || HasFin(rest)
  {
    assert forall i | 0 <= i < |rest| :: ([b] + rest)[i + 1] == rest[i];
    assert ([b] + rest)[0] == b;
  }

  lemma HeadPhase(ex: End)
    requires ex.Phase() != Bad && ex.wire != []
    ensures var e' := DoConsumed(ex);
            && Seen(e') == Next(Seen(ex), ex.wire[0]) != Bad
            && (ex.wire[0].Fin? ==> Datas(e'.wire) == [])
  {
    var b, e' := ex.wire[0], DoConsumed(ex);
    var all := e'.wire + e'.ctl;
    RunOne(ex.Start(), ex.done, b);
    assert ex.All() == (ex.done + [b]) + all by { assert ex.wire == [b] + ex.wire[1..]; }
    RunAppend(ex.Start(), ex.done + [b], all);
    if Seen(e') == Bad { RunBad(all); }
    if b.Fin? {
      RunAppend(AfterFin, e'.wire, e'.ctl);
      if Run(AfterFin, e'.wire) == Bad { RunBad(e'.ctl); }
      AfterFinNoData(e'.wire);
    }
  }

  lemma HeadSeen(p: Params, ex: End)
    requires EndOk(p, ex) && ex.wire != []
    ensures ex.known && (ex.done == [] <==> Seen(ex) == Init || (ex.done == [] && !ex.opener))
  {
    RunForward(ex.Start(), ex.done);
    assert ex.All() != [];
  }

  /** After a FIN nothing is left in the outbox. */
  lemma HeadQueued(p: Params, ex: End)
    requires EndOk(p, ex) && ex.wire != []
    ensures ex.wire[0].Fin? ==> Outbox(ex) == []
  {
    if ex.st.Some? && ex.st.value.outbox != [] {
      NoFinYet(p, ex, ex);
      assert (ex.wire + ex.ctl)[0] == ex.wire[0];
    }
  }

  lemma WireHead(p: Params, ex: End)
    requires EndOk(p, ex) && ex.wire != []
    ensures Shift(ex, DoConsumed(ex), ex.wire[0])
  {
    var b, e' := ex.wire[0], DoConsumed(ex);
    assert ex.Phase() != Bad;
    HeadItems(ex.wire, ex.ctl);
    HeadPhase(ex);
    HeadSeen(p, ex);
    HeadQueued(p, ex);
    hide Datas, TotalBytes, Updates, HasFin, StreamInv, EndOk, Run;
    if b.Data? {
      assert [b.payload] + (Datas(e'.wire) + Outbox(ex)) == ([b.payload] + Datas(e'.wire)) + Outbox(ex);
    }
  }

  lemma ShiftedWire(env: Env, p: Params, ex: End, e': End, b: Body)
    requires Shift(ex, e', b) && LinkWire(env, p, ex)
    ensures LinkWire(env, p, e')
  {
    forall i | 0 <= i < |Queued(e')| ensures Good(env, p.maxFrame, Queued(e')[i]) {
      var k := if b.Data? then i + 1 else i;
      assert Queued(e')[i] == Queued(ex)[k];
    }
    forall i | 0 <= i < |e'.wire| ensures e'.wire[i].Open? ==> e'.wire[i].class_ != Control {
      assert e'.wire[i] == ex.wire[i + 1];
    }
  }

  /** Consuming a frame that changes nothing at `y`, or arrives at a closed end. */
  lemma ConsumedQuietly(env: Env, p: Params, ex: End, ey: End, e': End, b: Body)
    requires Shift(ex, e', b) && Linked(env, p, ex, ey)
    requires ey.st.None? && (ey.closed || ey.known)
    ensures Linked(env, p, e', ey)
  {
    ShiftedWire(env, p, ex, e', b);
  }

  /** OPEN finds an id `y` has not seen. */
  lemma OpenArrives(env: Env, p: Params, ex: End, ey: End, e': End, b: Body)
    requires ParamsOk(p) && Shift(ex, e', b) && b.Open? && !ey.closed && EndOk(p, ey)
    requires Linked(env, p, ex, ey)
    ensures !ey.known && ex.opener && b.class_ != Control
    ensures Linked(env, p, e', DoReceive(env, p, ey, b))
  {
    var y' := DoReceive(env, p, ey, b);
    assert ex.done == [];
    ShiftedWire(env, p, ex, e', b);
    assert Got(y') == Got(ey);
  }

  lemma OpenArrivesBack(env: Env, p: Params, ex: End, ey: End, e': End, b: Body)
    requires ParamsOk(p) && Shift(ex, e', b) && b.Open? && !ey.closed && !ey.known && ex.opener && EndOk(p, ey)
    requires Linked(env, p, ey, ex)
    ensures Linked(env, p, DoReceive(env, p, ey, b), e')
  {
    var y' := DoReceive(env, p, ey, b);
    assert ey.done == [] && ey.wire == [] && ey.ctl == [];
    assert Queued(y') == [] && Got(e') == Got(ex) && Queued(ey) == [];
    assert Seen(y') == CanData;
  }

  /** DATA is accepted: the stream is open, the credit was granted, the message fits. */
  lemma DataArrives(env: Env, p: Params, ex: End, ey: End, e': End, b: Body)
    requires ParamsOk(p) && Shift(ex, e', b) && b.Data? && !ey.closed
    requires Linked(env, p, ex, ey)
    ensures Good(env, p.maxFrame, b.payload) && AsU32(|b.payload|) == |b.payload|
    ensures ey.st.Some? ==>
      Live(ex, ey) && Accept(ey.st.value, 1, |b.payload|, Dec(env, p.maxFrame, b.payload), p.maxMessage).Ok?
  {
    var q, m := Queued(ex), p.maxFrame;
    assert q != [] && q[0] == b.payload && Good(env, m, q[0]);
    if ey.st.Some? {
      TrackedData(ex, ey, b);
      assert Fits(env, m, p.maxMessage, Acc(ey), q) && Remaining(p, ey) >= |b.payload|;
      hide Queued, Datas, TotalBytes, Updates, Msgs, Left, HasFin;
    }
  }

  /** DATA comes while the receiving side is open. */
  lemma TrackedData(ex: End, ey: End, b: Body)
    requires LinkPhase(ex, ey) && Next(Seen(ex), b) != Bad && b.Data? && !ey.closed && ey.st.Some?
    ensures Live(ex, ey)
  {}

  lemma DataLinks(env: Env, p: Params, ex: End, ey: End, e': End, b: Body)
    requires ParamsOk(p) && Shift(ex, e', b) && b.Data? && !ey.closed && EndOk(p, ey)
    requires Linked(env, p, ex, ey) && ey.st.Some?
    ensures Linked(env, p, e', DoReceive(env, p, ey, b))
  {
    var f, y' := Dec(env, p.maxFrame, b.payload), DoReceive(env, p, ey, b);
    DataArrives(env, p, ex, ey, e', b);
    DataTaken(env, p, ey, b);
    ShiftedWire(env, p, ex, e', b);
    assert Queued(ex)[0] == b.payload && Queued(ex)[1..] == Queued(e');
    assert f.more ==> f.data != [];
    hide Fits, Msgs, Left, Good, EndOk, DoReceive, Accept, Datas, Updates, TotalBytes, HasFin, LinkWire, Got, Dec;
    DataPhase(ex, ey, e', y', b);
    hide Next, Seen, Rank;
    DataMsgs(env, p, ex, ey, e', y', f);
    DataCredit(p, ex, ey, e', y', b);
  }

  lemma DataPhase(ex: End, ey: End, e': End, y': End, b: Body)
    requires Shift(ex, e', b) && b.Data? && !ey.closed && LinkPhase(ex, ey) && Live(ex, ey) && ey.st.Some?
    requires y' == ey.(st := y'.st) && y'.st.Some? && y'.st.value.remoteOpen
    requires y'.st.value.partial == [] ==> y'.st.value.partialWire == 0
    ensures LinkPhase(e', y') && Live(e', y')
  {}

  lemma DataTaken(env: Env, p: Params, ey: End, b: Body)
    requires ParamsOk(p) && EndOk(p, ey) && ey.st.Some? && !ey.closed && b.Data? && AsU32(|b.payload|) == |b.payload|
    requires Accept(ey.st.value, 1, |b.payload|, Dec(env, p.maxFrame, b.payload), p.maxMessage).Ok?
    ensures var (y', f) := (DoReceive(env, p, ey, b), Dec(env, p.maxFrame, b.payload));
            && y'.st.Some? && y' == ey.(st := y'.st) && y'.st.value.remoteOpen
            && y'.st.value.recv.remaining == ey.st.value.recv.remaining - |b.payload|
            && Acc(y') == (if f.more then Acc(ey) + f.data else [])
            && Got(y') == (if f.more then Got(ey) else Got(ey) + [Acc(ey) + f.data])
            && ((f.more ==> f.data != []) && y'.st.value.partial == [] ==> y'.st.value.partialWire == 0)
  {
    var s, f := ey.st.value, Dec(env, p.maxFrame, b.payload);
    AcceptInv(p, s, 1, |b.payload|, f);
    InboxAppend(s.inbox, (s.partial + f.data, SaturatingAdd(s.partialWire, |b.payload|)));
  }

  lemma DataCredit(p: Params, ex: End, ey: End, e': End, y': End, b: Body)
    requires Shift(ex, e', b) && b.Data? && LinkCredit(p, ex, ey) && Live(ex, ey) && ey.st.Some?
    requires y' == ey.(st := y'.st) && y'.st.Some? && Live(e', y')
    requires y'.st.value.recv.remaining == ey.st.value.recv.remaining - |b.payload|
    ensures LinkCredit(p, e', y')
  {}

  lemma DataMsgs(env: Env, p: Params, ex: End, ey: End, e': End, y': End, f: Frag)
    requires LinkMsgs(env, p, ex, ey) && Live(ex, ey) && Live(e', y') && ey.st.Some? && y'.st.Some?
    requires !ey.fin && !y'.fin && e'.accepted == ex.accepted && (e'.st.Some? <==> ex.st.Some?)
    requires HasFin(e'.wire + e'.ctl) ==> HasFin(ex.wire + ex.ctl)
    requires Queued(ex) != [] && f == Dec(env, p.maxFrame, Queued(ex)[0]) && Queued(ex)[1..] == Queued(e')
    requires Acc(y') == (if f.more then Acc(ey) + f.data else [])
    requires Got(y') == (if f.more then Got(ey) else Got(ey) + [Acc(ey) + f.data])
    ensures LinkMsgs(env, p, e', y')
  {
    var mf, q, q' := p.maxFrame, Queued(ex), Queued(e');
    hide Queued, HasFin, Got, Acc, Dec;
    assert Msgs(env, mf, Acc(ey), q) ==
      if f.more then Msgs(env, mf, Acc(y'), q') else [Acc(ey) + f.data] + Msgs(env, mf, Acc(y'), q');
    assert Left(env, mf, Acc(ey), q) == Left(env, mf, Acc(y'), q');
    assert Got(ey) + Msgs(env, mf, Acc(ey), q) == Got(y') + Msgs(env, mf, Acc(y'), q');
    PrefixTrans(Got(y'), Msgs(env, mf, Acc(y'), q'), ex.accepted);
  }

  /** FIN arrives once, between messages, after everything `x` accepted. */
  lemma FinArrives(env: Env, p: Params, ex: End, ey: End, e': End)
    requires Shift(ex, e', Fin) && !ey.closed && ey.st.Some? && Linked(env, p, ex, ey)
    ensures AcceptFin(ey.st.value).Ok? && Got(ey) == ex.accepted
  {
    assert Live(ex, ey);
    assert Got(ey) + [] == Got(ey);
  }

  lemma FinLinks(env: Env, p: Params, ex: End, ey: End, e': End)
    requires Shift(ex, e', Fin) && !ey.closed && ey.known && ey.st.Some? && Linked(env, p, ex, ey)
    ensures Linked(env, p, e', DoReceive(env, p, ey, Fin))
  {
    FinArrives(env, p, ex, ey, e');
    ShiftedWire(env, p, ex, e', Fin);
    FinShape(env, p, ey);
    hide *;
    FinSeen(env, p, ex, ey, e', DoReceive(env, p, ey, Fin));
  }

  lemma FinShape(env: Env, p: Params, ey: End)
    requires !ey.closed && ey.st.Some? && AcceptFin(ey.st.value).Ok?
    ensures var y' := DoReceive(env, p, ey, Fin);
            && y' == ey.(st := y'.st, fin := y'.fin)
            && (y'.st.Some? ==> y'.st.value == ey.st.value.(remoteOpen := false))
            && (y'.st.None? || (y'.fin && !ey.fin) ==> ey.st.value.inbox == [])
  {}

  lemma FinSeen(env: Env, p: Params, ex: End, ey: End, e': End, y': End)
    requires Shift(ex, e', Fin) && ey.st.Some? && Linked(env, p, ex, ey) && LinkWire(env, p, e')
    requires Got(ey) == ex.accepted && ey.known
    requires y' == ey.(st := y'.st, fin := y'.fin)
    requires y'.st.Some? ==> y'.st.value == ey.st.value.(remoteOpen := false)
    requires y'.st.None? || (y'.fin && !ey.fin) ==> ey.st.value.inbox == []
    ensures Linked(env, p, e', y')
  {
    FinSeenMsgs(env, p, ex, ey, e', y');
    hide LinkMsgs, LinkWire, Got, Updates, HasFin, Datas, TotalBytes;
    assert Seen(e') == AfterFin;
  }

  lemma FinSeenMsgs(env: Env, p: Params, ex: End, ey: End, e': End, y': End)
    requires ey.st.Some? && Got(ey) == ex.accepted && ey.known && e'.accepted == ex.accepted
    requires y' == ey.(st := y'.st, fin := y'.fin)
    requires y'.st.Some? ==> y'.st.value == ey.st.value.(remoteOpen := false)
    requires y'.st.None? || (y'.fin && !ey.fin) ==> ey.st.value.inbox == []
    requires ey.fin ==> ey.delivered == ex.accepted
    ensures LinkMsgs(env, p, e', y')
  {
    assert InboxMsgs([]) == [];
    assert Got(y') == Got(ey);
  }

  /** RST drops the stream wherever it is. */
  lemma RstLinks(env: Env, p: Params, ex: End, ey: End, e': End, b: Body)
    requires Shift(ex, e', b) && !ey.closed && ey.known && ey.st.Some? && Linked(env, p, ex, ey)
    ensures Linked(env, p, e', ey.(st := None))
  {
    ShiftedWire(env, p, ex, e', b);
    PrefixTrans(ey.delivered, InboxMsgs(ey.st.value.inbox), ex.accepted);
    assert Got(ey.(st := None)) == ey.delivered;
  }

  lemma UpdateLinks(env: Env, p: Params, ex: End, ey: End, e': End, b: Body)
    requires Shift(ex, e', b) && b.WindowUpdate? && ey.st.Some? && Linked(env, p, ex, ey)
    ensures Linked(env, p, e', ey.(st := Some(Granted(ey.st.value, b.credit).0)))
  {
    var y' := ey.(st := Some(Granted(ey.st.value, b.credit).0));
    ShiftedWire(env, p, ex, e', b);
    assert Got(y') == Got(ey) && Acc(y') == Acc(ey);
  }

  lemma UpdateLinksBack(env: Env, p: Params, ex: End, ey: End, e': End, b: Body)
    requires ParamsOk(p) && Shift(ex, e', b) && b.WindowUpdate? && ey.st.Some? && ey.known && Linked(env, p, ey, ex)
    ensures Linked(env, p, ey.(st := Some(Granted(ey.st.value, b.credit).0)), e')
  {
    UpdateMsgsBack(env, p, ex, ey, e', b);
    UpdateCreditBack(p, ex, ey, e', b);
    var y' := ey.(st := Some(Granted(ey.st.value, b.credit).0));
    assert LinkPhase(y', e') && LinkFresh(p, y', e');
    hide *;
    assert Linked(env, p, y', e') by { LinkedIs(env, p, y', e'); }
  }

  lemma LinkedIs(env: Env, p: Params, ex: End, ey: End)
    requires LinkPhase(ex, ey) && LinkCredit(p, ex, ey) && LinkFresh(p, ex, ey) && LinkMsgs(env, p, ex, ey) && LinkWire(env, p, ex)
    ensures Linked(env, p, ex, ey)
  {
    hide LinkPhase, LinkCredit, LinkFresh, LinkMsgs, LinkWire;
  }

  lemma UpdateMsgsBack(env: Env, p: Params, ex: End, ey: End, e': End, b: Body)
    requires Shift(ex, e', b) && b.WindowUpdate? && ey.st.Some? && LinkMsgs(env, p, ey, ex) && LinkWire(env, p, ey)
    ensures var y' := ey.(st := Some(Granted(ey.st.value, b.credit).0)); LinkMsgs(env, p, y', e') && LinkWire(env, p, y')
  {
    var y' := ey.(st := Some(Granted(ey.st.value, b.credit).0));
    assert Queued(y') == Queued(ey) && Got(e') == Got(ex) && Acc(e') == Acc(ex);
    hide Queued, Got, Acc, Msgs, Left, Fits, HasFin, Good;
  }

  /** The credit leaves the wire and reaches `y`, whose window it does not overflow. */
  lemma UpdateCreditBack(p: Params, ex: End, ey: End, e': End, b: Body)
    requires ParamsOk(p) && Shift(ex, e', b) && b.WindowUpdate? && ey.st.Some? && LinkCredit(p, ey, ex)
    ensures LinkCredit(p, ey.(st := Some(Granted(ey.st.value, b.credit).0)), e')
  { hide Datas, TotalBytes; }

  // ------------------------------------------------------- any frame arrives

  /** `ey` takes `b` without complaint. */
  predicate Acceptable(env: Env, p: Params, ey: End, b: Body) {
    match b
    case Open(cl) => !ey.known && !ey.opener && cl != Control
    case Data(pl) =>
      && ey.known && Good(env, p.maxFrame, pl) && AsU32(|pl|) == |pl|
      && (ey.st.Some? ==> Accept(ey.st.value, 1, |pl|, Dec(env, p.maxFrame, pl), p.maxMessage).Ok?)
    case Fin => ey.known && (ey.st.Some? ==> AcceptFin(ey.st.value).Ok?)
    case Rst(_) => ey.known
    case WindowUpdate(_) => ey.known
    case _ => false
  }

  lemma KnownByThen(ex: End, ey: End, e': End, b: Body)
    requires LinkPhase(ex, ey) && Shift(ex, e', b) && !ey.closed
    ensures b.Open? || b.Data? || b.Fin? || b.Rst? || b.WindowUpdate?
    ensures !b.Open? ==> ey.known
  {
    if ex.opener && ex.done == [] { assert Seen(ex) == Init; }
  }

  lemma DataBack(env: Env, p: Params, ex: End, ey: End, e': End, y': End)
    requires Linked(env, p, ey, ex) && ey.st.Some? && y'.st.Some?
    requires e' == ex.(done := e'.done, wire := e'.wire) && Updates(e'.wire + e'.ctl) == Updates(ex.wire + ex.ctl)
    requires y' == ey.(st := y'.st) && y'.st.value.outbox == ey.st.value.outbox && y'.st.value.send == ey.st.value.send
    ensures Linked(env, p, y', e')
  {
    assert ClassesOk(ey.ctl);
    hide *;
    ReceiverMoved(env, p, ey, ex, e');
    SenderStays(env, p, ey, e', y');
  }

  lemma GoneBack(env: Env, p: Params, ex: End, ey: End, e': End, y': End)
    requires Linked(env, p, ey, ex) && EndOk(p, ey)
    requires e' == ex.(done := e'.done, wire := e'.wire) && Updates(e'.wire + e'.ctl) == Updates(ex.wire + ex.ctl)
    requires y' == ey.(st := None, fin := y'.fin)
    ensures Linked(env, p, y', e')
  {
    assert ClassesOk(ey.ctl);
    if ey.st.Some? && ey.st.value.outbox != [] { NoFinYet(p, ey, ex); }
    ReceiverMoved(env, p, ey, ex, e');
    hide Linked, EndOk, HasFin, Updates;
    SenderGone(env, p, ey, e', y');
  }

  lemma FinBack(env: Env, p: Params, ex: End, ey: End, e': End)
    requires Linked(env, p, ey, ex) && EndOk(p, ey) && ey.st.Some? && AcceptFin(ey.st.value).Ok? && !ey.closed
    requires e' == ex.(done := e'.done, wire := e'.wire) && Updates(e'.wire + e'.ctl) == Updates(ex.wire + ex.ctl)
    ensures Linked(env, p, DoReceive(env, p, ey, Fin), e')
  {
    var y' := DoReceive(env, p, ey, Fin);
    FinShape(env, p, ey);
    assert ClassesOk(ey.ctl);
    hide Linked, EndOk, Updates, DoReceive;
    if y'.st.None? {
      GoneBack(env, p, ex, ey, e', y');
    } else {
      ReceiverMoved(env, p, ey, ex, e');
      SenderStays(env, p, ey, e', y');
    }
  }

  lemma DataShape(env: Env, p: Params, ey: End, b: Body)
    requires !ey.closed && ey.st.Some? && b.Data?
    requires Accept(ey.st.value, 1, AsU32(|b.payload|), Dec(env, p.maxFrame, b.payload), p.maxMessage).Ok?
    ensures var y' := DoReceive(env, p, ey, b);
            && y'.st.Some? && y' == ey.(st := y'.st) && y'.st.value.outbox == ey.st.value.outbox
            && y'.st.value.send == ey.st.value.send
  {}

  /** Whatever frame heads the wire, the other end accepts it and both directions
      stay linked. */
  lemma Delivered(env: Env, p: Params, ex: End, ey: End)
    requires ParamsOk(p) && EndOk(p, ex) && EndOk(p, ey) && ex.wire != []
    requires Linked(env, p, ex, ey) && Linked(env, p, ey, ex)
    ensures !ey.closed ==> Acceptable(env, p, ey, ex.wire[0])
    ensures Linked(env, p, DoConsumed(ex), DoReceive(env, p, ey, ex.wire[0]))
    ensures Linked(env, p, DoReceive(env, p, ey, ex.wire[0]), DoConsumed(ex))
  {
    var b, e', y' := ex.wire[0], DoConsumed(ex), DoReceive(env, p, ey, ex.wire[0]);
    WireHead(p, ex);
    if ey.closed {
      assert ey.st.None? && y' == ey;
      ConsumedQuietly(env, p, ex, ey, e', b);
      ClosedBack(env, p, ex, ey, e');
    } else {
      KnownByThen(ex, ey, e', b);
      if b.Open? {
        OpenArrives(env, p, ex, ey, e', b);
        OpenArrivesBack(env, p, ex, ey, e', b);
      } else if ey.st.None? {
        ArrivesGone(env, p, ex, ey, e', b);
      } else {
        ArrivesTracked(env, p, ex, ey, e', b);
      }
    }
  }

  lemma ClosedBack(env: Env, p: Params, ex: End, ey: End, e': End)
    requires Linked(env, p, ey, ex) && ey.st.None?
    requires e' == ex.(done := e'.done, wire := e'.wire) && Updates(e'.wire + e'.ctl) <= Updates(ex.wire + ex.ctl)
    ensures Linked(env, p, ey, e')
  {}

  lemma ArrivesGone(env: Env, p: Params, ex: End, ey: End, e': End, b: Body)
    requires ParamsOk(p) && Shift(ex, e', b) && ey.st.None? && ey.known && !ey.closed && !b.Open?
    requires b.Data? || b.Fin? || b.Rst? || b.WindowUpdate?
    requires Linked(env, p, ex, ey) && Linked(env, p, ey, ex)
    ensures Acceptable(env, p, ey, b) && DoReceive(env, p, ey, b) == ey
    ensures Linked(env, p, e', ey) && Linked(env, p, ey, e')
  {
    if b.Data? { DataArrives(env, p, ex, ey, e', b); }
    assert Acceptable(env, p, ey, b) && DoReceive(env, p, ey, b) == ey;
    assert e' == ex.(done := e'.done, wire := e'.wire) && Updates(e'.wire + e'.ctl) <= Updates(ex.wire + ex.ctl);
    hide *;
    ConsumedQuietly(env, p, ex, ey, e', b);
    ClosedBack(env, p, ex, ey, e');
  }

  lemma ArrivesData(env: Env, p: Params, ex: End, ey: End, e': End, b: Body)
    requires ParamsOk(p) && Shift(ex, e', b) && ey.st.Some? && ey.known && !ey.closed && EndOk(p, ey) && b.Data?
    requires Linked(env, p, ex, ey) && Linked(env, p, ey, ex)
    ensures Acceptable(env, p, ey, b)
    ensures Linked(env, p, e', DoReceive(env, p, ey, b)) && Linked(env, p, DoReceive(env, p, ey, b), e')
  {
    DataArrives(env, p, ex, ey, e', b);
    DataShape(env, p, ey, b);
    hide *;
    DataLinks(env, p, ex, ey, e', b);
    DataBack(env, p, ex, ey, e', DoReceive(env, p, ey, b));
  }

  lemma ArrivesFin(env: Env, p: Params, ex: End, ey: End, e': End)
    requires Shift(ex, e', Fin) && ey.st.Some? && ey.known && !ey.closed && EndOk(p, ey)
    requires Linked(env, p, ex, ey) && Linked(env, p, ey, ex)
    ensures Acceptable(env, p, ey, Fin)
    ensures Linked(env, p, e', DoReceive(env, p, ey, Fin)) && Linked(env, p, DoReceive(env, p, ey, Fin), e')
  {
    FinArrives(env, p, ex, ey, e');
    hide *;
    FinLinks(env, p, ex, ey, e');
    FinBack(env, p, ex, ey, e');
  }

  lemma ArrivesTracked(env: Env, p: Params, ex: End, ey: End, e': End, b: Body)
    requires ParamsOk(p) && Shift(ex, e', b) && ey.st.Some? && ey.known && !ey.closed && EndOk(p, ey)
    requires b.Data? || b.Fin? || b.Rst? || b.WindowUpdate?
    requires Linked(env, p, ex, ey) && Linked(env, p, ey, ex)
    ensures Acceptable(env, p, ey, b)
    ensures Linked(env, p, e', DoReceive(env, p, ey, b)) && Linked(env, p, DoReceive(env, p, ey, b), e')
  {
    hide Linked, EndOk, Shift, Acceptable, DoReceive;
    match b
    case Data(_) => ArrivesData(env, p, ex, ey, e', b);
    case Fin => ArrivesFin(env, p, ex, ey, e');
    case Rst(_) => ArrivesRst(env, p, ex, ey, e', b);
    case WindowUpdate(_) => ArrivesUpdate(env, p, ex, ey, e', b);
  }

  lemma ArrivesRst(env: Env, p: Params, ex: End, ey: End, e': End, b: Body)
    requires Shift(ex, e', b) && ey.st.Some? && ey.known && !ey.closed && EndOk(p, ey) && b.Rst?
    requires Linked(env, p, ex, ey) && Linked(env, p, ey, ex)
    ensures Acceptable(env, p, ey, b)
    ensures Linked(env, p, e', DoReceive(env, p, ey, b)) && Linked(env, p, DoReceive(env, p, ey, b), e')
  {
    assert e' == ex.(done := e'.done, wire := e'.wire) && Updates(e'.wire + e'.ctl) == Updates(ex.wire + ex.ctl);
    assert DoReceive(env, p, ey, b) == ey.(st := None);
    assert Acceptable(env, p, ey, b);
    hide *;
    RstLinks(env, p, ex, ey, e', b);
    GoneBack(env, p, ex, ey, e', ey.(st := None));
  }

  lemma ArrivesUpdate(env: Env, p: Params, ex: End, ey: End, e': End, b: Body)
    requires ParamsOk(p) && Shift(ex, e', b) && ey.st.Some? && ey.known && !ey.closed && b.WindowUpdate?
    requires Linked(env, p, ex, ey) && Linked(env, p, ey, ex)
    ensures Acceptable(env, p, ey, b)
    ensures Linked(env, p, e', DoReceive(env, p, ey, b)) && Linked(env, p, DoReceive(env, p, ey, b), e')
  {
    assert DoReceive(env, p, ey, b) == ey.(st := Some(Granted(ey.st.value, b.credit).0));
    assert Acceptable(env, p, ey, b);
    hide *;
    UpdateLinks(env, p, ex, ey, e', b);
    UpdateLinksBack(env, p, ex, ey, e', b);
  }
}
