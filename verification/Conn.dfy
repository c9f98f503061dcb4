/** The connection state machine as functions on values: what every call of the
    `Connection` class computes. Randomness, signatures, key lookups and the
    scheduler's choice are arguments. */
module Conn {
  import opened MuxTypes
  import opened Fragments
  import opened Flow
  import opened Streams
  import opened Timing

  datatype Role = Client(key: KeyId) | Server(params: Params)
  datatype Hs = AwaitChallenge | ChallengeSent | HelloSent | Done

  /** What the outside answers during one `recv`. */
  datatype Oracle = Oracle(nonceC: Bytes, signature: Result<Bytes, string>, lookup: Option<Bytes>)

  datatype Conn = Conn(
    role: Role, serverName: string, binding: Option<Bytes>, bulkThreshold: Option<nat>,
    hs: Hs, nonceS: Bytes, key: Option<KeyId>, version: Option<nat>, params: Option<Params>,
    streams: map<StreamId, Stream>, nextId: StreamId, lastPeer: StreamId,
    control: seq<Frame>, active: set<StreamId>, priority: seq<Frame>,
    closed: Option<CloseReason>, timers: TimerState, events: seq<Event>, pings: nat)
  {
    /** The negotiated parameters. */
    function P(): Params {
      if params.Some? then params.value else Params(2, MIN_WINDOW, false, MIN_MESSAGE)
    }
    predicate PeerOpensOdd() { role.Server? }
    predicate PeerParity(id: StreamId) { (id % 2 == 1) == PeerOpensOdd() }
    /** The id was opened at some time. */
    predicate Known(id: StreamId) {
      if PeerParity(id) then id <= lastPeer else id < nextId
    }
  }

  // --------------------------------------------------------------- scheduler

  function PushControl(c: Conn, id: StreamId, body: Body): Conn {
    c.(control := c.control + [Frame(id, body)])
  }

  /** What the scheduler may pick: never nothing while something is queued. */
  predicate PickOk(c: Conn, pick: Option<Pick>) {
    match pick
    case None => c.control == [] && c.active == {}
    case Some(PickControl) => c.control != []
    case Some(PickStream(id)) => id in c.active
  }

  // -------------------------------------------------------- stream lifetimes

  function DropStream(c: Conn, id: StreamId): Conn {
    if id in c.streams then c.(streams := c.streams - {id}, active := c.active - {id}) else c
  }

  function MaybeForget(c: Conn, id: StreamId): Conn {
    if id in c.streams && c.streams[id].IsFinished() then DropStream(c, id) else c
  }

  function FinishedOn(c: Conn, id: StreamId): Conn {
    MaybeForget(c.(events := c.events + [Finished(id)]), id)
  }

  // ------------------------------------------------------------------- close

  predicate IsMin(m: StreamId, s: set<StreamId>) { m in s && forall x | x in s :: m <= x }

  lemma HasMin(s: set<StreamId>)
    requires s != {}
    ensures exists m: StreamId :: IsMin(m, s)
    decreases |s|
  {
    var x :| x in s;
    if s == {x} {
      assert IsMin(x, s);
    } else {
      var rest := s - {x};
      assert s == rest + {x};
      assert rest != {};
      HasMin(rest);
      var m: StreamId :| IsMin(m, rest);
      assert IsMin(if x <= m then x else m, s);
    }
  }

  ghost function SortedIds(s: set<StreamId>): (r: seq<StreamId>)
    decreases |s|
  {
    if s == {} then [] else
      HasMin(s);
      var m: StreamId :| IsMin(m, s);
      [m] + SortedIds(s - {m})
  }

  function ResetEvents(ids: seq<StreamId>): (r: seq<Event>)
    ensures |r| == |ids| && forall i | 0 <= i < |ids| :: r[i] == ResetEvent(ids[i], RST_CODE_CONNECTION_CLOSED)
  {
    if ids == [] then [] else [ResetEvent(ids[0], RST_CODE_CONNECTION_CLOSED)] + ResetEvents(ids[1..])
  }

  ghost function CloseInternal(c: Conn, reason: CloseReason, goaway: bool): Conn {
    if c.closed.Some? then c else
      c.(control := [], active := {}, streams := map[],
         priority := if goaway then [Frame(0, Goaway(reason))] else c.priority,
         timers := c.timers.Clear(), closed := Some(reason),
         events := c.events + ResetEvents(SortedIds(c.streams.Keys)) + [ClosedEvent(reason)])
  }

  ghost function Fail(env: Env, c: Conn, e: ProtocolError): (Conn, Option<ProtocolError>) {
    (CloseInternal(c, CloseReason(Protocol, env.describe(e)), true), Some(e))
  }

  // -------------------------------------------------------------------- time

  /** Rounds `handle_timeout` still has to run. */
  function Pending(c: Conn, now: int): nat {
    if c.closed.Some? then 0 else
      1 + (if Passed(c.timers.reverifyDue, now) then 1 else 0)
        + (if Passed(c.timers.PingDue(), now) then 1 else 0)
  }

  /** One round of the loop of `handle_timeout`, given what expired. */
  ghost function Fire(c: Conn, now: int, e: Expired, stillValid: bool): Conn {
    match e
    case Handshake => CloseInternal(c, CloseReason(CloseCode.Timeout, ""), true)
    case Idle => CloseInternal(c, CloseReason(CloseCode.Timeout, ""), true)
    case Reverify =>
      var valid := c.role.Server? && c.key.Some? ==> stillValid;
      var c1 := c.(timers := c.timers.Rearm(now));
      if valid then c1 else CloseInternal(c1, CloseReason(KeyRevoked, ""), true)
    case Ping_ =>
      PushControl(c.(pings := c.pings + 1, timers := c.timers.(pingOutstanding := Some(c.pings + 1))),
                  0, Ping(c.pings + 1))
  }

  ghost function TimeoutLoop(c: Conn, now: int, stillValid: bool): Conn
    requires c.timers.LoopSafe()
    decreases Pending(c, now)
  {
    if c.closed.Some? || c.timers.Expiry(now).None? then c
    else TimeoutLoop(Fire(c, now, c.timers.Expiry(now).value, stillValid), now, stillValid)
  }

  /** Each round leaves less to do. */
  lemma FireSafe(c: Conn, now: int, v: bool)
    requires c.timers.LoopSafe() && c.closed.None? && c.timers.Expiry(now).Some?
    ensures var c1 := Fire(c, now, c.timers.Expiry(now).value, v);
            c1.timers.LoopSafe() && Pending(c1, now) < Pending(c, now)
  {}

  ghost function HandleTimeout(c: Conn, now: int, stillValid: bool): Conn
    requires c.timers.LoopSafe()
  {
    var c1 := c.(timers := c.timers.Observe(now));
    TimeoutLoop(c1, c1.timers.lastNow, stillValid)
  }

  // ---------------------------------------------------------------- transmit

  function OnOpenSent(c: Conn, id: StreamId): Conn {
    if id !in c.streams then c else
      var s := c.streams[id].(openSent := true);
      c.(streams := c.streams[id := s], active := if s.outbox != [] then c.active + {id} else c.active)
  }

  function TransmitControl(c: Conn): Conn
    requires c.control != []
  {
    var c1 := c.(control := c.control[1..]);
    if c.control[0].body.Open? then OnOpenSent(c1, c.control[0].id) else c1
  }

  function TransmitData(c: Conn, id: StreamId): Conn
    requires id in c.streams && c.streams[id].outbox != []
  {
    var s := PopOutbox(c.streams[id]);
    var c1 := c.(streams := c.streams[id := s], active := if s.outbox == [] then c.active - {id} else c.active);
    var c2 := if s.outbox == [] && !s.localOpen then PushControl(c1, id, Fin) else c1;
    MaybeForget(c2, id)
  }

  function Transmit(c: Conn, pick: Option<Pick>): (Conn, Option<Frame>) {
    if c.priority != [] then (c.(priority := c.priority[1..]), Some(c.priority[0])) else
    match pick
    case None => (c, None)
    case Some(PickControl) =>
      if c.control == [] then (c, None) else (TransmitControl(c), Some(c.control[0]))
    case Some(PickStream(id)) =>
      if id !in c.streams || c.streams[id].outbox == [] then (c, None)
      else (TransmitData(c, id), Some(Frame(id, Data(c.streams[id].outbox[0]))))
  }

  // ----------------------------------------------------------------- receive

  ghost function Recv(env: Env, c: Conn, now: int, input: Input, o: Oracle): (Conn, Option<ProtocolError>) {
    var c1 := c.(timers := c.timers.Observe(now));
    if c.closed.Some? then (c1, None) else
    match input
    case Short(n) => Fail(env, c1, Truncated(n))
    case UnknownType(b) => Fail(env, c1, UnknownFrameType(b))
    case Framed(f) =>
      var c2 := c1.(timers := c1.timers.OnRecv(c1.timers.lastNow));
      match Dispatch(env, c2, f, o)
      case Ok(c3) => (c3, None)
      case Err(e) => Fail(env, c2, e)
  }

  /** The connection after one frame, or the violation it is. */
  ghost function Dispatch(env: Env, c: Conn, f: Frame, o: Oracle): Result<Conn, ProtocolError> {
    if f.id == 0 then
      match TypeOf(f.body)
      case TChallenge => OnChallenge(c, f.body, o)
      case THello => OnHello(env, c, f.body, o)
      case TWelcome => OnWelcome(c, f.body)
      case TReject => OnReject(c, f.body)
      case TGoaway => if f.body.Goaway? then Ok(CloseInternal(c, f.body.reason, false)) else Err(Decode(TGoaway))
      case TPing => if c.hs != Done then Err(StateViolation) else OnPing(c, f.body)
      case TPong => if c.hs != Done then Err(StateViolation) else OnPong(c, f.body)
      case _ => Err(BadStreamId(0))
    else if c.hs != Done then Err(StateViolation) else
      match TypeOf(f.body)
      case TOpen => OnStreamOpen(c, f.id, f.body)
      case TData => OnData(env, c, f.id, f.body)
      case TFin => OnFin(c, f.id)
      case TRst => OnRst(c, f.id, f.body)
      case TWindowUpdate => OnWindowUpdate(c, f.id, f.body)
      case _ => Err(StateViolation)
  }

  function PushPriority(c: Conn, body: Body): Conn { c.(priority := c.priority + [Frame(0, body)]) }

  ghost function OnChallenge(c: Conn, b: Body, o: Oracle): Result<Conn, ProtocolError> {
    if c.hs != AwaitChallenge || !c.role.Client? then Err(StateViolation)
    else if !b.Challenge? then Err(Decode(TChallenge))
    else match o.signature
      case Err(text) => Ok(CloseInternal(c, CloseReason(CloseCode.Rejected, text), true))
      case Ok(sig) =>
        Ok(PushPriority(c.(key := Some(c.role.key), hs := HelloSent),
                        Hello(MAX_VERSION, c.role.key, o.nonceC, sig)))
  }

  function Negotiate(clientMax: nat): Result<nat, RejectCode> {
    if clientMax < MIN_VERSION then Err(UnsupportedVersion(MIN_VERSION, MAX_VERSION))
    else Ok(Min(clientMax, MAX_VERSION))
  }

  predicate AcceptVersion(offered: nat, chosen: nat) {
    MIN_VERSION <= chosen <= MAX_VERSION && chosen <= offered
  }

  ghost function RejectWith(c: Conn, code: RejectCode, text: string): Conn {
    CloseInternal(PushPriority(c, Reject(code, text)), CloseReason(CloseCode.Rejected, text), false)
  }

  ghost function OnHello(env: Env, c: Conn, b: Body, o: Oracle): Result<Conn, ProtocolError> {
    if c.hs != ChallengeSent || !c.role.Server? then Err(StateViolation)
    else if !b.Hello? then Err(Decode(THello))
    else match Negotiate(b.version)
      case Err(code) => Ok(RejectWith(c, code, "unsupported protocol version"))
      case Ok(v) =>
        if o.lookup.None? then Ok(RejectWith(c, UnknownKey, "unknown key"))
        else if !env.verify(b.key, o.lookup.value, Transcript(c.nonceS, b.nonceC, c.serverName, c.binding), b.sig)
        then Ok(RejectWith(c, BadSignature, "signature verification failed"))
        else Ok(FinishHandshake(PushPriority(c, Welcome(v, c.role.params)), v, c.role.params, b.key))
  }

  function FinishHandshake(c: Conn, version: nat, params: Params, key: KeyId): Conn {
    c.(hs := Done, version := Some(version), params := Some(params), key := Some(key),
       timers := c.timers.OnAuthenticated(c.timers.lastNow),
       events := c.events + [Authenticated(key, version)])
  }

  /** WELCOME also rebuilds the scheduler. */
  function OnWelcome(c: Conn, b: Body): Result<Conn, ProtocolError> {
    if !c.role.Client? || c.hs != HelloSent then Err(StateViolation)
    else if !b.Welcome? then Err(Decode(TWelcome))
    else if !AcceptVersion(MAX_VERSION, b.chosen) || !ParamsOk(b.params) then Err(BadParams)
    else Ok(FinishHandshake(c.(control := [], active := {}), b.chosen, b.params,
                            if c.key.Some? then c.key.value else c.role.key))
  }

  ghost function OnReject(c: Conn, b: Body): Result<Conn, ProtocolError> {
    if !c.role.Client? || c.hs != HelloSent then Err(StateViolation)
    else if !b.Reject? then Err(Decode(TReject))
    else Ok(CloseInternal(c.(events := c.events + [RejectedEvent(b.code, b.message)]),
                          CloseReason(CloseCode.Rejected, b.message), false))
  }

  function OnPing(c: Conn, b: Body): Result<Conn, ProtocolError> {
    if b.Ping? then Ok(PushControl(c, 0, Pong(b.opaque_))) else Err(Decode(TPing))
  }

  function OnPong(c: Conn, b: Body): Result<Conn, ProtocolError> {
    if !b.Pong? then Err(Decode(TPong)) else
    Ok(c.(timers := c.timers.(pingOutstanding :=
         if c.timers.pingOutstanding == Some(b.echo) then None else c.timers.pingOutstanding)))
  }

  function OnStreamOpen(c: Conn, id: StreamId, b: Body): Result<Conn, ProtocolError> {
    if !c.PeerParity(id) || id <= c.lastPeer then Err(BadStreamId(id))
    else if !b.Open? then Err(Decode(TOpen))
    else if b.class_ == Control then Err(BadPolicy(id))
    else Ok(c.(streams := c.streams[id := NewStream(b.class_, c.P().initialWindow, true)],
               lastPeer := id, events := c.events + [StreamOpened(id, b.class_)]))
  }

  function OnData(env: Env, c: Conn, id: StreamId, b: Body): Result<Conn, ProtocolError> {
    if !b.Data? then Err(Decode(TData)) else
    match DecodeFrag(env, c.P().maxFrame, b.payload)
    case Err(BadFlags) => Err(Decode(TData))
    case Err(BadBody) => Err(Decompress(id))
    case Ok(f) =>
      if id !in c.streams then (if c.Known(id) then Ok(c) else Err(BadStreamId(id))) else
      match Accept(c.streams[id], id, AsU32(|b.payload|), f, c.P().maxMessage)
      case Err(e) => Err(e)
      case Ok((s, readable)) =>
        Ok(c.(streams := c.streams[id := s],
              events := if readable then c.events + [Readable(id)] else c.events))
  }

  function OnFin(c: Conn, id: StreamId): Result<Conn, ProtocolError> {
    if id !in c.streams then (if c.Known(id) then Ok(c) else Err(BadStreamId(id))) else
    match AcceptFin(c.streams[id])
    case Err(e) => Err(e)
    case Ok(s) =>
      var c1 := c.(streams := c.streams[id := s]);
      Ok(if s.inbox == [] then FinishedOn(c1, id) else c1)
  }

  function OnRst(c: Conn, id: StreamId, b: Body): Result<Conn, ProtocolError> {
    if !b.Rst? then Err(Decode(TRst)) else
    if id !in c.streams then (if c.Known(id) then Ok(c) else Err(BadStreamId(id))) else
    Ok(DropStream(c, id).(events := c.events + [ResetEvent(id, b.rst)]))
  }

  function OnWindowUpdate(c: Conn, id: StreamId, b: Body): Result<Conn, ProtocolError> {
    if !b.WindowUpdate? then Err(Decode(TWindowUpdate)) else
    if id !in c.streams then (if c.Known(id) then Ok(c) else Err(BadStreamId(id))) else
    var (s, writable) := Granted(c.streams[id], b.credit);
    Ok(c.(streams := c.streams[id := s],
          events := if writable then c.events + [Writable(id, s.FreeCredit())] else c.events))
  }

  // -------------------------------------------------------------- stream API

  function Ready(c: Conn): Option<StreamError> {
    if c.closed.Some? then Some(Closed) else if c.hs != Done then Some(NotAuthenticated) else None
  }

  function OpenStream(c: Conn, class_: Class): (Conn, Result<StreamId, StreamError>) {
    if Ready(c).Some? then (c, Err(Ready(c).value))
    else if class_ == Control then (c, Err(InvalidClass))
    else if c.nextId + 2 > U32_MAX then (c, Err(Exhausted))
    else
      var id := c.nextId;
      (PushControl(c.(nextId := id + 2, streams := c.streams[id := NewStream(class_, c.P().initialWindow, false)]),
                   id, Open(class_)), Ok(id))
  }

  function Demote(s: Stream, threshold: Option<nat>): Class {
    if s.class_ == Interactive && threshold.Some? && s.written > threshold.value then Bulk else s.class_
  }

  function Send(env: Env, c: Conn, id: StreamId, msg: Bytes, compress: Compress): (Conn, Option<StreamError>) {
    if Ready(c).Some? then (c, Ready(c))
    else if |msg| > c.P().maxMessage then (c, Some(TooLarge(|msg|, c.P().maxMessage)))
    else if id !in c.streams then (c, Some(UnknownStream))
    else if !c.streams[id].localOpen then (c, Some(SendClosed))
    else if c.P().maxFrame < 2 then (c, Some(WouldBlock)) // never so once authenticated
    else if SendCost(c.P(), |msg|) > c.streams[id].FreeCredit() then
      (c.(streams := c.streams[id := c.streams[id].(wantsWritable := true)]), Some(WouldBlock))
    else
      var stance := if c.P().compressionAllowed then compress else Never;
      var s := c.streams[id];
      var s1 := Enqueue(s, msg, Fragment(env, stance, s.class_, msg, c.P().maxFrame));
      var s2 := s1.(class_ := Demote(s1, c.bulkThreshold));
      (c.(streams := c.streams[id := s2],
          active := if s2.openSent && s2.outbox != [] then c.active + {id}
                    else if s2.class_ != s.class_ then c.active - {id} else c.active), None)
  }

  function Finish(c: Conn, id: StreamId): (Conn, Option<StreamError>) {
    if Ready(c).Some? then (c, Ready(c))
    else if id !in c.streams then (c, Some(UnknownStream))
    else if !c.streams[id].localOpen then (c, Some(SendClosed))
    else
      var c1 := c.(streams := c.streams[id := c.streams[id].(localOpen := false)]);
      if c.streams[id].outbox == [] then (MaybeForget(PushControl(c1, id, Fin), id), None) else (c1, None)
  }

  function Reset(c: Conn, id: StreamId, code: u32): (Conn, Option<StreamError>) {
    if Ready(c).Some? then (c, Ready(c))
    else if id !in c.streams then (c, Some(UnknownStream))
    else (PushControl(DropStream(c, id), id, Rst(code)), None)
  }

  function RecvMsg(c: Conn, id: StreamId): (Conn, Result<Bytes, StreamError>) {
    if Ready(c).Some? then (c, Err(Ready(c).value))
    else if id !in c.streams then (c, Err(UnknownStream))
    else if c.streams[id].inbox == [] then (c, Err(WouldBlock))
    else
      var (s, grant) := Take(c.streams[id]);
      var c1 := c.(streams := c.streams[id := s]);
      var c2 := if grant.Some? then PushControl(c1, id, WindowUpdate(grant.value))
                else if !s.remoteOpen && s.inbox == [] then FinishedOn(c1, id) else c1;
      (c2, Ok(c.streams[id].inbox[0].0))
  }

  function SetClass(c: Conn, id: StreamId, class_: Class): (Conn, Option<StreamError>) {
    if Ready(c).Some? then (c, Ready(c))
    else if class_ == Control then (c, Some(InvalidClass))
    else if id !in c.streams then (c, Some(UnknownStream))
    else if c.streams[id].class_ == class_ then (c, None)
    else
      var s := c.streams[id].(class_ := class_);
      (c.(streams := c.streams[id := s],
          active := if s.openSent && s.outbox != [] then c.active + {id} else c.active - {id}), None)
  }

  // ------------------------------------------------------------ construction

  function Normalize(p: Params): Params {
    p.(initialWindow := Max(Min(p.initialWindow, MAX_WINDOW), MIN_WINDOW),
       maxFrame := Max(p.maxFrame, 2), maxMessage := Max(p.maxMessage, MIN_MESSAGE))
  }

  datatype Config = Config(role: Role, serverName: string, binding: Option<Bytes>, bulkThreshold: Option<nat>,
                           pingInterval: nat, idleTimeout: nat, reverify: Option<nat>)

  function New(cfg: Config, now: int, nonceS: Bytes): Conn {
    var role := if cfg.role.Server? then Server(Normalize(cfg.role.params)) else cfg.role;
    Conn(role, cfg.serverName, cfg.binding, cfg.bulkThreshold,
         if role.Server? then ChallengeSent else AwaitChallenge,
         nonceS, None, None, None, map[], if role.Server? then 2 else 1, 0, [], {},
         if role.Server? then [Frame(0, Challenge(nonceS))] else [],
         None,
         NewTimers(now, HANDSHAKE_TIMEOUT, cfg.pingInterval, cfg.idleTimeout,
                   if role.Server? then cfg.reverify else None),
         [], 0)
  }
}
