/** The last frames of a connection. Nothing here depends on the peer. */
module Goodbye {
  import opened MuxTypes
  import opened Timing
  import opened Conn
  import opened SoloRun

  /** Closed, with nothing left to send but priority frames. */
  predicate Leaving(c: Conn) { c.closed.Some? && c.control == [] && c.active == {} }

  predicate Parting(c: Conn) { Leaving(c) && c.priority == [Frame(0, Goaway(c.closed.value))] }

  // ------------------------------------------------------ how a close happens

  lemma {:induction false} TimeoutParts(c: Conn, now: int, v: bool)
    requires c.closed.None? && c.timers.LoopSafe()
    ensures var c' := TimeoutLoop(c, now, v); c'.closed.Some? ==> Parting(c')
    decreases Pending(c, now)
  {
    if c.timers.Expiry(now).Some? {
      var c1 := Fire(c, now, c.timers.Expiry(now).value, v);
      if c1.closed.None? {
        hide Fire;
        TimeoutParts(c1, now, v);
      }
    }
  }

  /** A frame with which the peer takes leave, or after which it is turned away. */
  predicate Dismissal(f: Frame) { f.id == 0 && (f.body.Goaway? || f.body.Reject? || f.body.Hello?) }

  /** What is left to send after a dismissal: what was, and a REJECT of our own. */
  predicate Dismissed(c: Conn, c': Conn) {
    && Leaving(c')
    && (c'.priority == c.priority
        || (|c'.priority| == |c.priority| + 1 && c'.priority[..|c.priority|] == c.priority
            && c'.priority[|c.priority|].id == 0 && c'.priority[|c.priority|].body.Reject?))
  }

  lemma HelloParts(env: Env, c: Conn, b: Body, o: Oracle)
    requires c.closed.None? && OnHello(env, c, b, o).Ok?
    ensures var c' := OnHello(env, c, b, o).value; c'.closed.Some? ==> Dismissed(c, c')
  {
    match Negotiate(b.version)
    case Err(code) => RejectParts(c, code, "unsupported protocol version");
    case Ok(v) =>
      RejectParts(c, UnknownKey, "unknown key");
      RejectParts(c, BadSignature, "signature verification failed");
      hide RejectWith;
  }

  lemma RejectParts(c: Conn, code: RejectCode, text: string)
    requires c.closed.None?
    ensures Dismissed(c, RejectWith(c, code, text))
  {}

  lemma StreamParts(env: Env, c: Conn, f: Frame, o: Oracle)
    requires f.id != 0 && Dispatch(env, c, f, o).Ok?
    ensures Dispatch(env, c, f, o).value.closed == c.closed
  {
    match TypeOf(f.body)
    case TData => assert OnData(env, c, f.id, f.body).value.closed == c.closed;
    case TFin => assert OnFin(c, f.id).value.closed == c.closed;
    case _ =>
  }

  lemma FrameParts(env: Env, c: Conn, f: Frame, o: Oracle)
    requires c.closed.None? && Dispatch(env, c, f, o).Ok?
    ensures var c' := Dispatch(env, c, f, o).value;
            c'.closed.Some? ==> if Dismissal(f) then Dismissed(c, c') else Parting(c')
  {
    if f.id != 0 {
      StreamParts(env, c, f, o);
    } else if TypeOf(f.body) == THello {
      HelloParts(env, c, f.body, o);
      hide OnHello;
    }
  }

  lemma RecvParts(env: Env, c: Conn, now: int, input: Input, o: Oracle)
    requires c.closed.None?
    ensures var c' := Recv(env, c, now, input, o).0;
            c'.closed.Some? ==> Parting(c') || (input.Framed? && Dismissal(input.frame) && Dismissed(c, c'))
  {
    var t := c.timers.Observe(now);
    if input.Framed? {
      var c2 := c.(timers := t.OnRecv(t.lastNow));
      if Dispatch(env, c2, input.frame, o).Ok? { FrameParts(env, c2, input.frame, o); }
      hide Dispatch;
    }
  }

  lemma OtherStaysOpen(env: Env, x: Solo, a: Act)
    requires x.c.closed.None? && !a.AClose? && !a.ATimeout? && !a.ARecv?
    ensures Step(env, x, a).0.c.closed.None?
  {
    match a
    case ATransmit(pick) => assert Transmit(x.c, pick).0.closed.None?;
    case ATake(id) => assert RecvMsg(x.c, id).0.closed.None?;
    case AFinish(id) => assert Finish(x.c, id).0.closed.None?;
    case _ =>
  }

  /** Whatever closes a connection (a call, a deadline, a revoked key, a signer that
      fails, anything the peer sends) leaves its GOAWAY, with the reason of the
      close, as the only frame to send; but for a GOAWAY or REJECT of the peer's,
      or a HELLO turned away. */
  lemma ClosingParts(env: Env, x: Solo, a: Act)
    requires x.c.closed.None? && Step(env, x, a).0.c.closed.Some?
    ensures var x' := Step(env, x, a).0;
            && x'.sent == x.sent
            && (Parting(x'.c) || (a.ARecv? && a.input.Framed? && Dismissal(a.input.frame) && Dismissed(x.c, x'.c)))
  {
    match a
    case AClose(_) =>
    case ATimeout(now, v) =>
      var c1 := x.c.(timers := x.c.timers.Observe(now));
      if x.c.timers.LoopSafe() {
        TimeoutParts(c1, c1.timers.lastNow, v);
        hide TimeoutLoop;
      }
    case ARecv(now, input, o) =>
      RecvParts(env, x.c, now, input, o);
      hide Recv;
    case _ => OtherStaysOpen(env, x, a);
  }

  // ---------------------------------------------------------- what is still sent

  lemma LeavingStep(env: Env, x: Solo, a: Act)
    requires Leaving(x.c)
    ensures var x' := Step(env, x, a).0;
            && Leaving(x'.c) && x'.c.closed == x.c.closed
            && (if a.ATransmit? && x.c.priority != []
                then x'.sent == x.sent + [x.c.priority[0]] && x'.c.priority == x.c.priority[1..]
                else x'.sent == x.sent && x'.c.priority == x.c.priority)
  {}

  /** How often the transport asks for a frame. */
  function Asked(acts: seq<Act>): nat {
    if acts == [] then 0 else (if acts[0].ATransmit? then 1 else 0) + Asked(acts[1..])
  }

  /** A closed connection sends its priority frames in order, as often as it is asked, and no other. */
  lemma {:induction false} LeavingRun(env: Env, x: Solo, acts: seq<Act>)
    requires Leaving(x.c)
    ensures Exec(env, x, acts).sent == x.sent + x.c.priority[..Min(Asked(acts), |x.c.priority|)]
    decreases |acts|
  {
    if acts != [] {
      LeavingStep(env, x, acts[0]);
      var x1, rest := Step(env, x, acts[0]).0, acts[1..];
      LeavingRun(env, x1, rest);
      hide Step, Leaving;
      if acts[0].ATransmit? && x.c.priority != [] {
        FirstOf(x.sent, x.c.priority, Min(Asked(rest), |x1.c.priority|));
      }
    }
  }

  lemma FirstOf(sent: seq<Frame>, fs: seq<Frame>, n: nat)
    requires n < |fs|
    ensures sent + fs[..n + 1] == sent + [fs[0]] + fs[1..][..n]
  {}

  /** From the step that closes the connection on, whatever is called or received,
      exactly one more frame is transmitted, the GOAWAY with the reason, as soon as
      the transport asks for one; after a dismissal, at most what was waiting and
      one REJECT. */
  lemma GoodbyeIsLast(env: Env, x: Solo, a: Act, acts: seq<Act>)
    requires x.c.closed.None? && Step(env, x, a).0.c.closed.Some?
    ensures var (x', y) := (Step(env, x, a).0, Exec(env, Step(env, x, a).0, acts));
            if Parting(x'.c)
            then y.sent == x.sent + if Asked(acts) > 0 then [Frame(0, Goaway(x'.c.closed.value))] else []
            else && a.ARecv? && a.input.Framed? && Dismissal(a.input.frame) && Dismissed(x.c, x'.c)
                 && y.sent == x.sent + x'.c.priority[..Min(Asked(acts), |x'.c.priority|)]
  {
    var x' := Step(env, x, a).0;
    ClosingParts(env, x, a);
    hide Step, Dismissed;
    assert Leaving(x'.c) by { if !Parting(x'.c) { DismissedLeaves(x.c, x'.c); } }
    LeavingRun(env, x', acts);
    assert x'.c.priority[..0] == [];
    if Parting(x'.c) { assert x'.c.priority[..1] == x'.c.priority; }
  }

  lemma DismissedLeaves(c: Conn, c': Conn)
    requires Dismissed(c, c')
    ensures Leaving(c')
  {}
}
