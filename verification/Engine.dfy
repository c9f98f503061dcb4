/** The connection object, method by method, against the functions of `Conn`. */
module Engine {
  import opened MuxTypes
  import opened Fragments
  import opened Flow
  import opened Streams
  import opened Timing
  import opened Spec = Conn
  import SoloRun
  import Hostile

  /** What the connection relies on of its scheduler: control frames leave in
      order, and a pick is never for something that is not there. Which backlogged
      flow is picked is left open. */
  class SchedTree {
    var control: seq<Frame>
    var active: set<StreamId>

    constructor ()
      ensures control == [] && active == {}
    {
      control := [];
      active := {};
    }

    method PushControl(f: Frame)
      modifies this`control
      ensures control == old(control) + [f]
    { control := control + [f]; }

    method ClearControl()
      modifies this`control
      ensures control == []
    { control := []; }

    method ActivateStream(id: StreamId)
      modifies this`active
      ensures active == old(active) + {id}
    { active := active + {id}; }

    method RemoveStream(id: StreamId)
      modifies this`active
      ensures active == old(active) - {id}
    { active := active - {id}; }

    /** Moves a stream between classes; it comes in anew if it has something to send. */
    method Reclass(id: StreamId, from: Class, to: Class, backlogged: bool)
      modifies this`active
      ensures active == if from == to then old(active) else if backlogged then old(active) + {id} else old(active) - {id}
    {
      if from == to { return; }
      RemoveStream(id);
      if backlogged { ActivateStream(id); }
    }

    method Choose() returns (pick: Option<Pick>)
      ensures match pick
              case None => control == [] && active == {}
              case Some(PickControl) => control != []
              case Some(PickStream(id)) => id in active
    {
      if {
        case control != [] => pick := Some(PickControl);
        case active != {} => var id :| id in active; pick := Some(PickStream(id));
        case control == [] && active == {} => pick := None;
      }
    }

    method PopControl() returns (f: Option<Frame>)
      modifies this`control
      ensures old(control) == [] ==> f == None && control == []
      ensures old(control) != [] ==> f == Some(old(control)[0]) && control == old(control)[1..]
    {
      if control == [] { return None; }
      f := Some(control[0]);
      control := control[1..];
    }

    /** Accounts for what was sent: a stream with nothing more to send goes idle. */
    method Served(id: StreamId, backlogged: bool)
      modifies this`active
      ensures active == if backlogged then old(active) else old(active) - {id}
    { if !backlogged { active := active - {id}; } }
  }

  /** Equal but for what is inside tracked streams: no difference to a close. */
  predicate SameShell(c: Conn, c': Conn) {
    c' == c.(streams := c'.streams) && c'.streams.Keys == c.streams.Keys
  }

  class Connection {
    const role: Role
    const serverName: string
    const binding: Option<Bytes>
    const bulkThreshold: Option<nat>
    const nonceS: Bytes
    const timers: Timers
    var sched: SchedTree
    var hs: Hs
    var key: Option<KeyId>
    var version: Option<nat>
    var params: Option<Params>
    var streams: map<StreamId, Stream>
    var nextId: StreamId
    var lastPeer: StreamId
    var priority: seq<Frame>
    var closed: Option<CloseReason>
    var events: seq<Event>
    var pings: nat

    ghost function State(): Conn
      reads this, sched, timers
    {
      Spec.Conn.Conn(role, serverName, binding, bulkThreshold, hs, nonceS, key, version, params, streams, nextId, lastPeer,
                sched.control, sched.active, priority, closed, timers.Value(), events, pings)
    }

    /** What every public call finds and leaves. */
    ghost predicate Valid()
      reads this, sched, timers
    { SoloRun.ConnInv(State()) && timers.Value().Armed() }

    constructor (cfg: Config, now: int, nonce: Bytes)
      ensures Valid() && fresh(sched) && fresh(timers)
      ensures State() == New(cfg, now, nonce)
    {
      role := if cfg.role.Server? then Server(Normalize(cfg.role.params)) else cfg.role;
      serverName, binding, bulkThreshold, nonceS := cfg.serverName, cfg.binding, cfg.bulkThreshold, nonce;
      timers := new Timers(now, HANDSHAKE_TIMEOUT, cfg.pingInterval, cfg.idleTimeout,
                           if cfg.role.Server? then cfg.reverify else None);
      sched := new SchedTree();
      hs := if cfg.role.Server? then ChallengeSent else AwaitChallenge;
      key, version, params := None, None, None;
      streams := map[];
      nextId, lastPeer := if cfg.role.Server? then 2 else 1, 0;
      priority := if cfg.role.Server? then [Frame(0, Challenge(nonce))] else [];
      closed := None;
      events := [];
      pings := 0;
    }

    // -------------------------------------------------------------- lifetimes

    method Queue(id: StreamId, body: Body)
      modifies sched
      ensures State() == PushControl(old(State()), id, body)
    { sched.PushControl(Frame(id, body)); }

    method Drop(id: StreamId)
      modifies this`streams, sched
      ensures State() == DropStream(old(State()), id)
    {
      if id in streams {
        streams := streams - {id};
        sched.RemoveStream(id);
      }
    }

    method Forget(id: StreamId)
      modifies this`streams, sched
      ensures State() == MaybeForget(old(State()), id)
    {
      if id in streams && streams[id].IsFinished() { Drop(id); }
    }

    method AnnounceFinished(id: StreamId)
      modifies this`streams, this`events, sched
      ensures State() == FinishedOn(old(State()), id)
    {
      events := events + [Finished(id)];
      Forget(id);
    }

    /** The tracked stream with the least id is reset. */
    method DropFirst()
      requires streams != map[]
      modifies this`streams, this`events, sched
      ensures sched.control == old(sched.control) && streams.Keys < old(streams).Keys
      ensures sched.active == old(sched.active) - (old(streams).Keys - streams.Keys)
      ensures events + ResetEvents(SortedIds(streams.Keys)) == old(events) + ResetEvents(SortedIds(old(streams).Keys))
    {
      hide SortedIds, ResetEvents, IsMin;
      ghost var keys := streams.Keys;
      HasMin(keys);
      var id: StreamId :| IsMin(id, streams.Keys);
      EventsFirst(keys, id);
      assert id in keys by { MinIn(keys, id); }
      Drop(id);
      assert streams.Keys == keys - {id} && keys - streams.Keys == {id};
      events := events + [ResetEvent(id, RST_CODE_CONNECTION_CLOSED)];
    }

    /** Every tracked stream is reset, lowest id first. */
    method DropAll()
      modifies this`streams, this`events, sched
      ensures streams == map[] && sched.control == old(sched.control)
      ensures events == old(events) + ResetEvents(SortedIds(old(streams).Keys))
      ensures sched.active == old(sched.active) - old(streams).Keys
    {
      hide SortedIds, ResetEvents;
      while streams != map[]
        invariant streams.Keys <= old(streams).Keys
        invariant events + ResetEvents(SortedIds(streams.Keys)) == old(events) + ResetEvents(SortedIds(old(streams).Keys))
        invariant sched.active == old(sched.active) - (old(streams).Keys - streams.Keys)
        invariant sched.control == old(sched.control)
        decreases streams.Keys
      {
        DropFirst();
      }
      NoEvents();
      assert streams.Keys == {};
    }

    /** Needs no more than that only tracked streams are backlogged, as a failing
        call may have left a stream half updated. */
    method CloseInternal(reason: CloseReason, goaway: bool)
      requires sched.active <= streams.Keys
      modifies this, sched, timers
      ensures State() == Spec.CloseInternal(old(State()), reason, goaway) && sched == old(sched)
    {
      if closed.Some? { return; }
      sched.ClearControl();
      if goaway { priority := [Frame(0, Goaway(reason))]; }
      DropAll();
      timers.Clear();
      closed := Some(reason);
      events := events + [ClosedEvent(reason)];
      assert sched.active == {};
    }

    // ------------------------------------------------------------------- time

    /** One expired deadline is dealt with. */
    method Fire(now: int, e: Expired, stillValid: bool)
      requires Valid() && timers.Value().LoopSafe() && closed.None? && timers.Value().Expiry(now) == Some(e)
      modifies this, sched, timers
      ensures State() == Spec.Fire(old(State()), now, e, stillValid) && sched == old(sched)
      ensures Valid() && timers.Value().LoopSafe() && Pending(State(), now) < Pending(old(State()), now)
    {
      FireConn(State(), now, e, stillValid);
      match e
      case Handshake => CloseInternal(CloseReason(CloseCode.Timeout, ""), true);
      case Idle => CloseInternal(CloseReason(CloseCode.Timeout, ""), true);
      case Reverify =>
        var valid := if role.Server? && key.Some? then stillValid else true;
        timers.Rearm(now);
        if !valid { CloseInternal(CloseReason(KeyRevoked, ""), true); }
      case Ping_ =>
        pings := pings + 1;
        timers.PingSent(pings);
        Queue(0, Ping(pings));
    }

    /** Fires every deadline that has passed. With a zero re-verification interval
        it need not return. */
    method HandleTimeout(now: int, stillValid: bool)
      requires Valid() && timers.Value().LoopSafe()
      modifies this, sched, timers
      ensures State() == Spec.HandleTimeout(old(State()), now, stillValid)
      ensures Valid() && sched == old(sched)
    {
      hide SoloRun.ConnInv;
      var clamped := timers.Observe(now);
      ghost var start := State();
      TimersConn(old(State()), timers.Value());
      while closed.None?
        invariant Valid() && timers.Value().LoopSafe() && sched == old(sched)
        invariant TimeoutLoop(State(), clamped, stillValid) == TimeoutLoop(start, clamped, stillValid)
        decreases Pending(State(), clamped)
      {
        var e := timers.Expiry(clamped);
        if e.None? { break; }
        Fire(clamped, e.value, stillValid);
      }
    }

    // --------------------------------------------------------------- transmit

    method OnOpenSent(id: StreamId)
      modifies this`streams, sched
      ensures State() == Spec.OnOpenSent(old(State()), id)
    {
      if id in streams {
        streams := streams[id := streams[id].(openSent := true)];
        if streams[id].HeadLen().Some? { sched.ActivateStream(id); }
      }
    }

    method TransmitControl() returns (f: Frame)
      requires sched.control != []
      modifies this`streams, sched
      ensures State() == Spec.TransmitControl(old(State())) && f == old(sched.control)[0]
    {
      var front := sched.PopControl();
      f := front.value;
      if f.body.Open? { OnOpenSent(f.id); }
    }

    method TransmitData(id: StreamId) returns (f: Frame)
      requires id in streams && streams[id].outbox != [] && id in sched.active
      modifies this`streams, sched
      ensures State() == Spec.TransmitData(old(State()), id)
      ensures f == Frame(id, Data(old(streams)[id].outbox[0]))
    {
      var s := streams[id];
      var payload := s.outbox[0];
      s := s.(outbox := s.outbox[1..], outboxBytes := Max(s.outboxBytes - |payload|, 0));
      s := s.(send := s.send.Consume(AsU32(|payload|)));
      streams := streams[id := s];
      f := Frame(id, Data(payload));
      sched.Served(id, s.HeadLen().Some?);
      if s.HeadLen().None? && !s.localOpen { Queue(id, Fin); }
      Forget(id);
    }

    /** At most one frame; `pick` is what the scheduler chose. */
    method PollTransmit() returns (f: Option<Frame>, ghost pick: Option<Pick>)
      requires Valid()
      modifies this, sched
      ensures old(priority) == [] ==> PickOk(old(State()), pick)
      ensures (State(), f) == Transmit(old(State()), pick)
      ensures Valid() && sched == old(sched)
    {
      ghost var was := State();
      pick := None;
      if priority != [] {
        f := Some(priority[0]);
        priority := priority[1..];
        PriorityConn(was);
        return;
      }
      var p := sched.Choose();
      pick := p;
      match p
      case None => return None, p;
      case Some(PickControl) =>
        Hostile.SendControlConn(was);
        var g := TransmitControl();
        f := Some(g);
      case Some(PickStream(id)) =>
        Hostile.SendDataConn(was, id);
        var g := TransmitData(id);
        f := Some(g);
    }

    /** The next announcement. */
    method PollEvent() returns (e: Option<Event>)
      requires Valid()
      modifies this`events
      ensures Valid()
      ensures old(events) == [] ==> e == None && State() == old(State())
      ensures old(events) != [] ==> e == Some(old(events)[0]) && State() == old(State()).(events := old(events)[1..])
    {
      if events == [] { return None; }
      e := Some(events[0]);
      events := events[1..];
    }

    // ---------------------------------------------------------------- receive

    /** Tracked, or known and gone; anything else is a violation. */
    method StreamMut(id: StreamId) returns (r: Result<bool, ProtocolError>)
      ensures r == if id in streams then Ok(true) else if State().Known(id) then Ok(false) else Err(BadStreamId(id))
    {
      if id in streams { return Ok(true); }
      var peerParity := (id % 2 == 1) == role.Server?;
      var known := if peerParity then id <= lastPeer else id < nextId;
      return if known then Ok(false) else Err(BadStreamId(id));
    }

    method OnChallenge(b: Body, o: Oracle) returns (err: Option<ProtocolError>)
      requires Valid()
      modifies this, sched, timers
      ensures sched == old(sched) && Answers(Spec.OnChallenge(old(State()), b, o), old(State()), State(), err)
    {
      if hs != AwaitChallenge || !role.Client? { return Some(StateViolation); }
      if !b.Challenge? { return Some(Decode(TChallenge)); }
      match o.signature {
        case Err(text) => CloseInternal(CloseReason(CloseCode.Rejected, text), true);
        case Ok(sig) =>
          key := Some(role.key);
          priority := priority + [Frame(0, Hello(MAX_VERSION, role.key, o.nonceC, sig))];
          hs := HelloSent;
      }
      return None;
    }

    method RejectPeer(code: RejectCode, text: string)
      requires Valid()
      modifies this, sched, timers
      ensures sched == old(sched) && State() == RejectWith(old(State()), code, text)
    {
      priority := priority + [Frame(0, Reject(code, text))];
      CloseInternal(CloseReason(CloseCode.Rejected, text), false);
    }

    method OnHello(env: Env, b: Body, o: Oracle) returns (err: Option<ProtocolError>)
      requires Valid()
      modifies this, sched, timers
      ensures sched == old(sched) && Answers(Spec.OnHello(env, old(State()), b, o), old(State()), State(), err)
    {
      if hs != ChallengeSent || !role.Server? { return Some(StateViolation); }
      if !b.Hello? { return Some(Decode(THello)); }
      match Negotiate(b.version) {
        case Err(code) => RejectPeer(code, "unsupported protocol version");
        case Ok(v) =>
          if o.lookup.None? {
            RejectPeer(UnknownKey, "unknown key");
          } else if !env.verify(b.key, o.lookup.value, Transcript(nonceS, b.nonceC, serverName, binding), b.sig) {
            RejectPeer(BadSignature, "signature verification failed");
          } else {
            priority := priority + [Frame(0, Welcome(v, role.params))];
            Authenticate(v, role.params, b.key);
          }
      }
      return None;
    }

    method Authenticate(v: nat, p: Params, k: KeyId)
      modifies this, timers
      ensures State() == FinishHandshake(old(State()), v, p, k) && sched == old(sched)
    {
      hs, version, params, key := Done, Some(v), Some(p), Some(k);
      timers.OnAuthenticated(timers.lastNow);
      events := events + [Authenticated(k, v)];
    }

    /** The client learns the frame size only now and rebuilds its scheduler. */
    method OnWelcome(b: Body) returns (err: Option<ProtocolError>)
      requires Valid()
      modifies this, timers
      ensures sched == old(sched) || fresh(sched)
      ensures Answers(Spec.OnWelcome(old(State()), b), old(State()), State(), err)
    {
      if !role.Client? || hs != HelloSent { return Some(StateViolation); }
      if !b.Welcome? { return Some(Decode(TWelcome)); }
      if !AcceptVersion(MAX_VERSION, b.chosen) { return Some(BadParams); }
      if b.params.initialWindow < MIN_WINDOW || b.params.initialWindow > MAX_WINDOW { return Some(BadParams); }
      if b.params.maxFrame < 2 { return Some(BadParams); }
      if b.params.maxMessage < MIN_MESSAGE { return Some(BadParams); }
      sched := new SchedTree();
      Authenticate(b.chosen, b.params, key.value);
      return None;
    }

    method OnReject(b: Body) returns (err: Option<ProtocolError>)
      requires Valid()
      modifies this, sched, timers
      ensures sched == old(sched) && Answers(Spec.OnReject(old(State()), b), old(State()), State(), err)
    {
      if !role.Client? || hs != HelloSent { return Some(StateViolation); }
      if !b.Reject? { return Some(Decode(TReject)); }
      events := events + [RejectedEvent(b.code, b.message)];
      CloseInternal(CloseReason(CloseCode.Rejected, b.message), false);
      return None;
    }

    method OnPing(b: Body) returns (err: Option<ProtocolError>)
      modifies sched
      ensures Answers(Spec.OnPing(old(State()), b), old(State()), State(), err)
    {
      if !b.Ping? { return Some(Decode(TPing)); }
      Queue(0, Pong(b.opaque_));
      return None;
    }

    method OnPong(b: Body) returns (err: Option<ProtocolError>)
      modifies timers
      ensures Answers(Spec.OnPong(old(State()), b), old(State()), State(), err)
    {
      if !b.Pong? { return Some(Decode(TPong)); }
      timers.OnPong(b.echo);
      return None;
    }

    method OnStreamOpen(id: StreamId, b: Body) returns (err: Option<ProtocolError>)
      requires params.Some?
      modifies this`streams, this`lastPeer, this`events
      ensures Answers(Spec.OnStreamOpen(old(State()), id, b), old(State()), State(), err)
    {
      if (id % 2 == 1) != role.Server? || id <= lastPeer { return Some(BadStreamId(id)); }
      if !b.Open? { return Some(Decode(TOpen)); }
      if b.class_ == Control { return Some(BadPolicy(id)); }
      streams := streams[id := NewStream(b.class_, params.value.initialWindow, true)];
      lastPeer := id;
      events := events + [StreamOpened(id, b.class_)];
      return None;
    }

    method OnData(env: Env, id: StreamId, b: Body) returns (err: Option<ProtocolError>)
      requires params.Some? && b.Data?
      modifies this`streams, this`events
      ensures Answers(Spec.OnData(env, old(State()), id, b), old(State()), State(), err)
    {
      var p := params.value;
      match DecodeFrag(env, p.maxFrame, b.payload) {
        case Err(BadFlags) => return Some(Decode(TData));
        case Err(BadBody) => return Some(Decompress(id));
        case Ok(f) =>
          var wire := AsU32(|b.payload|);
          var found := StreamMut(id);
          match found {
            case Err(e) => return Some(e);
            case Ok(false) => return None;
            case Ok(true) =>
          }
          err := Store(id, wire, f);
      }
    }

    /** The fragment joins the partial message; the last one completes it. */
    method Store(id: StreamId, wire: u32, f: Frag) returns (err: Option<ProtocolError>)
      requires params.Some? && id in streams
      modifies this`streams, this`events
      ensures match Accept(old(streams)[id], id, wire, f, params.value.maxMessage)
              case Err(e) => err == Some(e) && SameShell(old(State()), State())
              case Ok((s, readable)) =>
                && err == None && streams == old(streams)[id := s]
                && events == if readable then old(events) + [Readable(id)] else old(events)
    {
      var s := streams[id];
      if !s.remoteOpen { return Some(StateViolation); }
      if wire > s.recv.remaining { return Some(FlowControl(id)); }
      s := s.(recv := s.recv.(remaining := s.recv.remaining - wire));
      streams := streams[id := s];
      if |s.partial| + |f.data| > params.value.maxMessage { return Some(MessageTooLarge(id)); }
      s := s.(partial := s.partial + f.data, partialWire := SaturatingAdd(s.partialWire, wire));
      streams := streams[id := s];
      if f.more { return None; }
      var msg, cost, wasEmpty := s.partial, s.partialWire, s.inbox == [];
      s := s.(partial := [], partialWire := 0, inbox := s.inbox + [(msg, cost)]);
      streams := streams[id := s];
      if wasEmpty { events := events + [Readable(id)]; }
      return None;
    }

    method OnFin(id: StreamId) returns (err: Option<ProtocolError>)
      modifies this`streams, this`events, sched
      ensures Answers(Spec.OnFin(old(State()), id), old(State()), State(), err)
    {
      var found := StreamMut(id);
      match found {
        case Err(e) => return Some(e);
        case Ok(false) => return None;
        case Ok(true) =>
      }
      var s := streams[id];
      if !s.remoteOpen { return Some(StateViolation); }
      s := s.(remoteOpen := false);
      streams := streams[id := s];
      if s.partial != [] { return Some(StateViolation); }
      if s.inbox == [] { AnnounceFinished(id); }
      return None;
    }

    method OnRst(id: StreamId, b: Body) returns (err: Option<ProtocolError>)
      modifies this`streams, this`events, sched
      ensures Answers(Spec.OnRst(old(State()), id, b), old(State()), State(), err)
    {
      if !b.Rst? { return Some(Decode(TRst)); }
      var found := StreamMut(id);
      match found {
        case Err(e) => return Some(e);
        case Ok(false) => return None;
        case Ok(true) =>
      }
      Drop(id);
      events := events + [ResetEvent(id, b.rst)];
      return None;
    }

    method OnWindowUpdate(id: StreamId, b: Body) returns (err: Option<ProtocolError>)
      modifies this`streams, this`events
      ensures Answers(Spec.OnWindowUpdate(old(State()), id, b), old(State()), State(), err)
    {
      if !b.WindowUpdate? { return Some(Decode(TWindowUpdate)); }
      var found := StreamMut(id);
      match found {
        case Err(e) => return Some(e);
        case Ok(false) => return None;
        case Ok(true) =>
      }
      var s := streams[id];
      s := s.(send := s.send.Grant(b.credit));
      var credit := s.FreeCredit();
      if s.wantsWritable && credit > 0 {
        s := s.(wantsWritable := false);
        events := events + [Writable(id, credit)];
      }
      streams := streams[id := s];
      return None;
    }

    method DispatchConn(env: Env, f: Frame, o: Oracle) returns (err: Option<ProtocolError>)
      requires Valid() && f.id == 0
      modifies this, sched, timers
      ensures sched == old(sched) || fresh(sched)
      ensures Answers(Spec.Dispatch(env, old(State()), f, o), old(State()), State(), err)
    {
      match TypeOf(f.body)
      case TChallenge => err := OnChallenge(f.body, o);
      case THello => err := OnHello(env, f.body, o);
      case TWelcome => err := OnWelcome(f.body);
      case TReject => err := OnReject(f.body);
      case TGoaway =>
        if !f.body.Goaway? { return Some(Decode(TGoaway)); }
        CloseInternal(f.body.reason, false);
        err := None;
      case TPing => if hs != Done { err := Some(StateViolation); } else { err := OnPing(f.body); }
      case TPong => if hs != Done { err := Some(StateViolation); } else { err := OnPong(f.body); }
      case _ => err := Some(BadStreamId(0));
    }

    method DispatchStream(env: Env, f: Frame, o: Oracle) returns (err: Option<ProtocolError>)
      requires Valid() && f.id != 0
      modifies this`streams, this`events, this`lastPeer, sched
      ensures Answers(Spec.Dispatch(env, old(State()), f, o), old(State()), State(), err)
    {
      if hs != Done { return Some(StateViolation); }
      match TypeOf(f.body)
      case TOpen => err := OnStreamOpen(f.id, f.body);
      case TData =>
        if !f.body.Data? { return Some(Decode(TData)); }
        err := OnData(env, f.id, f.body);
      case TFin => err := OnFin(f.id);
      case TRst => err := OnRst(f.id, f.body);
      case TWindowUpdate => err := OnWindowUpdate(f.id, f.body);
      case _ => err := Some(StateViolation);
    }

    /** One transport message from the peer. An error means that the connection
        closed itself and owes the peer a GOAWAY. */
    method Recv(env: Env, now: int, input: Input, o: Oracle) returns (err: Option<ProtocolError>)
      requires Valid()
      modifies this, sched, timers
      ensures (State(), err) == Spec.Recv(env, old(State()), now, input, o)
      ensures Valid() && (sched == old(sched) || fresh(sched))
    {
      ghost var was := State();
      var clamped := timers.Observe(now);
      TimersConn(was, timers.Value());
      if closed.Some? { return None; }
      ghost var c1 := State();
      match input {
        case Short(n) => err := Fail(env, c1, Truncated(n));
        case UnknownType(n) => err := Fail(env, c1, UnknownFrameType(n));
        case Framed(f) =>
          timers.OnRecv(clamped);
          ghost var c2 := State();
          TimersConn(was, timers.Value());
          if f.id == 0 { err := DispatchConn(env, f, o); } else { err := DispatchStream(env, f, o); }
          if err.Some? { err := Fail(env, c2, err.value); } else { DispatchConnInv(env, c2, f, o); }
      }
    }

    method Fail(env: Env, ghost was: Conn, e: ProtocolError) returns (err: Option<ProtocolError>)
      requires SoloRun.ConnInv(was) && was.closed.None? && SameShell(was, State()) && was.timers.Armed()
      modifies this, sched, timers
      ensures (State(), err) == Spec.Fail(env, was, e) && sched == old(sched) && Valid()
    {
      hide SoloRun.ConnInv;
      ShellConn(was, State(), CloseReason(Protocol, env.describe(e)));
      CloseInternal(CloseReason(Protocol, env.describe(e)), true);
      return Some(e);
    }

    // ------------------------------------------------------------- stream API

    method Ready() returns (err: Option<StreamError>)
      ensures err == Spec.Ready(State())
    {
      if closed.Some? { return Some(Closed); }
      if hs != Done { return Some(NotAuthenticated); }
      return None;
    }

    method Open(class_: Class) returns (r: Result<StreamId, StreamError>)
      requires Valid()
      modifies this, sched
      ensures (State(), r) == OpenStream(old(State()), class_)
      ensures Valid() && sched == old(sched)
    {
      Hostile.OpenConn(State(), class_);
      var err := Ready();
      if err.Some? { return Err(err.value); }
      if class_ == Control { return Err(InvalidClass); }
      var id := nextId;
      if id + 2 > U32_MAX { return Err(Exhausted); }
      nextId := id + 2;
      streams := streams[id := NewStream(class_, params.value.initialWindow, false)];
      Queue(id, MuxTypes.Open(class_));
      return Ok(id);
    }

    /** Accepted whole or not at all. */
    method Send(env: Env, id: StreamId, msg: Bytes, compress: Compress) returns (err: Option<StreamError>)
      requires Valid()
      modifies this`streams, sched
      ensures (State(), err) == Spec.Send(env, old(State()), id, msg, compress)
      ensures Valid()
    {
      Hostile.SendConn(env, State(), id, msg, compress);
      assert hs == Done ==> params.Some? && params.value.maxFrame >= 2;
      hide Chunks, Payloads, Fragment, TotalBytes, ShouldCompress, SoloRun.ConnInv;
      err := Ready();
      if err.Some? { return; }
      var p := params.value;
      if |msg| > p.maxMessage { return Some(TooLarge(|msg|, p.maxMessage)); }
      if id !in streams { return Some(UnknownStream); }
      var s := streams[id];
      if !s.localOpen { return Some(SendClosed); }
      var chunkMax := p.maxFrame - 1;
      var frags := Max((|msg| + chunkMax - 1) / chunkMax, 1);
      assert |msg| + frags == SendCost(p, |msg|);
      hide SendCost, NFrags;
      if |msg| + frags > s.FreeCredit() {
        streams := streams[id := s.(wantsWritable := true)];
        return Some(WouldBlock);
      }
      var stance := if p.compressionAllowed then compress else Never;
      var s1 := Cut(env, s, msg, stance, chunkMax);
      Enter(id, s1.(written := s1.written + |msg|));
    }

    /** The stream goes back with its class settled and its backlog announced. */
    method Enter(id: StreamId, s: Stream)
      requires id in streams && streams[id].class_ == s.class_
      modifies this`streams, sched
      ensures var s2 := s.(class_ := Demote(s, bulkThreshold));
              State() == old(State()).(streams := old(streams)[id := s2],
                active := if s2.openSent && s2.outbox != [] then old(sched.active) + {id}
                          else if s2.class_ != s.class_ then old(sched.active) - {id} else old(sched.active))
    {
      var class_ := if s.class_ == Interactive && bulkThreshold.Some? && s.written > bulkThreshold.value
                    then Bulk else s.class_;
      var s2 := s.(class_ := class_);
      streams := streams[id := s2];
      var backlogged := s2.openSent && s2.HeadLen().Some?;
      if class_ != s.class_ {
        sched.Reclass(id, s.class_, class_, backlogged);
      } else if backlogged {
        sched.ActivateStream(id);
      }
    }

    /** Cuts the message and queues its payloads one by one. */
    method Cut(env: Env, s: Stream, msg: Bytes, stance: Compress, chunkMax: nat) returns (r: Stream)
      requires chunkMax >= 1
      ensures r.(written := s.written + |msg|) == Enqueue(s, msg, Fragment(env, stance, s.class_, msg, chunkMax + 1))
      ensures r.written == s.written
    {
      var chunks := Chunks(msg, chunkMax);
      ghost var all := Payloads(env, stance, s.class_, chunks);
      var outbox, bytes, i := s.outbox, s.outboxBytes, 0;
      assert all[..0] == [] && TotalBytes([]) == 0 && Fragment(env, stance, s.class_, msg, chunkMax + 1) == all;
      hide Payloads, TotalBytes, FragPayload, Chunks, Fragment;
      while i < |chunks|
        invariant i <= |chunks|
        invariant outbox == s.outbox + all[..i] && bytes == s.outboxBytes + TotalBytes(all[..i])
      {
        var payload := FragPayload(env, stance, s.class_, chunks[i], i < |chunks| - 1);
        PayloadAt(env, stance, s.class_, chunks, i);
        TotalNext(all, i);
        assert all[..i + 1] == all[..i] + [payload];
        outbox, bytes := outbox + [payload], bytes + |payload|;
        i := i + 1;
      }
      assert all[..|chunks|] == all;
      r := s.(outbox := outbox, outboxBytes := bytes);
    }

    /** Half-closes our direction; queued DATA still goes out first. */
    method Finish(id: StreamId) returns (err: Option<StreamError>)
      requires Valid()
      modifies this`streams, sched
      ensures (State(), err) == Spec.Finish(old(State()), id)
      ensures Valid()
    {
      Hostile.FinishConn(State(), id);
      err := Ready();
      if err.Some? { return; }
      if id !in streams { return Some(UnknownStream); }
      if !streams[id].localOpen { return Some(SendClosed); }
      streams := streams[id := streams[id].(localOpen := false)];
      if streams[id].outbox == [] {
        Queue(id, Fin);
        Forget(id);
      }
    }

    method Reset(id: StreamId, code: u32) returns (err: Option<StreamError>)
      requires Valid()
      modifies this`streams, sched
      ensures (State(), err) == Spec.Reset(old(State()), id, code)
      ensures Valid()
    {
      Hostile.ResetConn(State(), id, code);
      err := Ready();
      if err.Some? { return; }
      if id !in streams { return Some(UnknownStream); }
      Drop(id);
      Queue(id, Rst(code));
    }

    method RecvMsg(id: StreamId) returns (r: Result<Bytes, StreamError>)
      requires Valid()
      modifies this`streams, this`events, sched
      ensures (State(), r) == Spec.RecvMsg(old(State()), id)
      ensures Valid()
    {
      Hostile.TakeConn(State(), id);
      var err := Ready();
      if err.Some? { return Err(err.value); }
      if id !in streams { return Err(UnknownStream); }
      var s := streams[id];
      if s.inbox == [] { return Err(WouldBlock); }
      var (msg, wire) := s.inbox[0];
      s := s.(inbox := s.inbox[1..]);
      if s.remoteOpen {
        var (w, credit) := s.recv.OnConsumed(wire);
        streams := streams[id := s.(recv := w)];
        if credit.Some? { Queue(id, WindowUpdate(credit.value)); }
      } else {
        streams := streams[id := s];
        if s.inbox == [] { AnnounceFinished(id); }
      }
      return Ok(msg);
    }

    method SetClass(id: StreamId, class_: Class) returns (err: Option<StreamError>)
      requires Valid()
      modifies this`streams, sched
      ensures (State(), err) == Spec.SetClass(old(State()), id, class_)
      ensures Valid()
    {
      Hostile.SetClassConn(State(), id, class_);
      err := Ready();
      if err.Some? { return; }
      if class_ == Control { return Some(InvalidClass); }
      if id !in streams { return Some(UnknownStream); }
      var s := streams[id];
      if s.class_ != class_ {
        streams := streams[id := s.(class_ := class_)];
        sched.Reclass(id, s.class_, class_, s.openSent && s.HeadLen().Some?);
      }
    }

    method Close(reason: CloseReason)
      requires Valid()
      modifies this, sched, timers
      ensures State() == Spec.CloseInternal(old(State()), reason, true)
      ensures Valid() && sched == old(sched)
    {
      if closed.None? { Hostile.ClosedConnInv(State(), reason, true); }
      CloseInternal(reason, true);
    }
  }

  lemma {:induction false} PayloadAt(env: Env, stance: Compress, class_: Class, chunks: seq<Bytes>, i: nat)
    requires i < |chunks|
    ensures Payloads(env, stance, class_, chunks)[i] == FragPayload(env, stance, class_, chunks[i], i < |chunks| - 1)
  {
    if i > 0 { PayloadAt(env, stance, class_, chunks[1..], i - 1); }
  }

  lemma TotalNext(ps: seq<Bytes>, i: nat)
    requires i < |ps|
    ensures TotalBytes(ps[..i + 1]) == TotalBytes(ps[..i]) + |ps[i]|
  {
    assert ps[..i + 1] == ps[..i] + [ps[i]];
    TotalAppend(ps[..i], [ps[i]]);
    assert TotalBytes([ps[i]]) == |ps[i]| + TotalBytes([ps[i]][1..]);
  }

  /** A handler did what the specification says, or reported the violation it
      says having changed at most the insides of streams. */
  predicate Answers(want: Result<Conn, ProtocolError>, was: Conn, c: Conn, err: Option<ProtocolError>) {
    match want
    case Ok(c') => err == None && c == c'
    case Err(e) => err == Some(e) && SameShell(was, c)
  }

  lemma ShellConn(was: Conn, c: Conn, reason: CloseReason)
    requires SoloRun.ConnInv(was) && was.closed.None? && SameShell(was, c) && was.timers.Armed()
    ensures c.active <= c.streams.Keys
    ensures Spec.CloseInternal(c, reason, true) == Spec.CloseInternal(was, reason, true)
    ensures SoloRun.ConnInv(Spec.CloseInternal(was, reason, true))
    ensures Spec.CloseInternal(was, reason, true).timers.Armed()
  {}

  lemma DispatchConnInv(env: Env, c: Conn, f: Frame, o: Oracle)
    requires SoloRun.ConnInv(c) && c.closed.None? && c.timers.Armed() && Spec.Dispatch(env, c, f, o).Ok?
    ensures SoloRun.ConnInv(Spec.Dispatch(env, c, f, o).value)
    ensures Spec.Dispatch(env, c, f, o).value.timers.Armed()
  {
    hide SoloRun.ConnInv;
    if f.id == 0 {
      match TypeOf(f.body)
      case TChallenge => ChallengeConn(c, f.body, o);
      case THello => HelloConn(env, c, f.body, o);
      case _ => PlainConn(env, c, f, o);
    } else {
      StreamConn(env, c, f, o);
    }
  }

  lemma PlainConn(env: Env, c: Conn, f: Frame, o: Oracle)
    requires SoloRun.ConnInv(c) && c.closed.None? && c.timers.Armed() && Spec.Dispatch(env, c, f, o).Ok?
    requires f.id == 0 && TypeOf(f.body) != TChallenge && TypeOf(f.body) != THello
    ensures SoloRun.ConnInv(Spec.Dispatch(env, c, f, o).value)
    ensures Spec.Dispatch(env, c, f, o).value.timers.Armed()
  {}

  lemma StreamConn(env: Env, c: Conn, f: Frame, o: Oracle)
    requires SoloRun.ConnInv(c) && c.closed.None? && c.timers.Armed() && Spec.Dispatch(env, c, f, o).Ok? && f.id != 0
    ensures SoloRun.ConnInv(Spec.Dispatch(env, c, f, o).value)
    ensures Spec.Dispatch(env, c, f, o).value.timers == c.timers
  {
    hide SoloRun.ConnInv;
    match TypeOf(f.body)
    case TOpen => Hostile.OpenedConn(c, f.id, f.body);
    case TData => Hostile.DataConn(env, c, f.id, f.body);
    case TFin => Hostile.FinConn(c, f.id);
    case TRst => Hostile.RstConn(c, f.id, f.body);
    case TWindowUpdate => Hostile.UpdateConn(c, f.id, f.body);
    case _ =>
  }

  lemma ChallengeConn(c: Conn, b: Body, o: Oracle)
    requires SoloRun.ConnInv(c) && c.closed.None? && c.timers.Armed() && Spec.OnChallenge(c, b, o).Ok?
    ensures SoloRun.ConnInv(Spec.OnChallenge(c, b, o).value) && Spec.OnChallenge(c, b, o).value.timers.Armed()
  {}

  lemma HelloConn(env: Env, c: Conn, b: Body, o: Oracle)
    requires SoloRun.ConnInv(c) && c.closed.None? && c.timers.Armed() && Spec.OnHello(env, c, b, o).Ok?
    ensures SoloRun.ConnInv(Spec.OnHello(env, c, b, o).value) && Spec.OnHello(env, c, b, o).value.timers.Armed()
  {}

  lemma TimersConn(c: Conn, t: TimerState)
    requires SoloRun.ConnInv(c) && t.authenticated == c.timers.authenticated
    ensures SoloRun.ConnInv(c.(timers := t))
  {}

  lemma PriorityConn(c: Conn)
    requires SoloRun.ConnInv(c) && c.priority != []
    ensures SoloRun.ConnInv(c.(priority := c.priority[1..]))
  {}

  /** Dealing with a deadline keeps the connection valid and leaves one fewer to deal with. */
  lemma FireConn(c: Conn, now: int, e: Expired, v: bool)
    requires SoloRun.ConnInv(c) && c.closed.None? && c.timers.LoopSafe() && c.timers.Expiry(now) == Some(e)
    ensures var c' := Spec.Fire(c, now, e, v);
            SoloRun.ConnInv(c') && c'.timers.LoopSafe() && Pending(c', now) < Pending(c, now)
    ensures e == Reverify ==> SoloRun.ConnInv(c.(timers := c.timers.Rearm(now)))
  {
    match e
    case Handshake => Hostile.ClosedConnInv(c, CloseReason(CloseCode.Timeout, ""), true);
    case Idle => Hostile.ClosedConnInv(c, CloseReason(CloseCode.Timeout, ""), true);
    case Reverify =>
      TimersConn(c, c.timers.Rearm(now));
      Hostile.ClosedConnInv(c.(timers := c.timers.Rearm(now)), CloseReason(KeyRevoked, ""), true);
    case Ping_ => PingConn(c, now);
    hide SoloRun.ConnInv;
  }

  lemma PingConn(c: Conn, now: int)
    requires SoloRun.ConnInv(c) && c.closed.None? && Passed(c.timers.PingDue(), now)
    ensures SoloRun.ConnInv(Spec.Fire(c, now, Ping_, true))
  {
    var t := c.timers.(pingOutstanding := Some(c.pings + 1));
    TimersConn(c, t);
    var c1 := c.(timers := t, pings := c.pings + 1);
    assert SoloRun.ConnInv(c1);
    Hostile.PushConn(c1, 0, Ping(c.pings + 1));
    hide SoloRun.ConnInv;
  }

  /** The least id comes first. */
  lemma MinFirst(s: set<StreamId>, m: StreamId)
    requires IsMin(m, s)
    ensures SortedIds(s) == [m] + SortedIds(s - {m})
  {
    var k := SortedIds(s)[0];
    assert IsMin(k, s) && SortedIds(s) == [k] + SortedIds(s - {k});
    assert k == m;
  }

  lemma EventsFirst(s: set<StreamId>, m: StreamId)
    requires IsMin(m, s)
    ensures ResetEvents(SortedIds(s)) == [ResetEvent(m, RST_CODE_CONNECTION_CLOSED)] + ResetEvents(SortedIds(s - {m}))
  {
    MinFirst(s, m);
    assert ([m] + SortedIds(s - {m}))[1..] == SortedIds(s - {m});
  }

  lemma NoEvents()
    ensures ResetEvents(SortedIds({})) == []
  {}

  lemma MinIn(s: set<StreamId>, m: StreamId)
    requires IsMin(m, s)
    ensures m in s
  {}
}
