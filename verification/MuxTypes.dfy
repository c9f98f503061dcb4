/** Vocabulary of the multiplexer: frames, events, errors and parameters.

    A payload encoded with postcard is a datatype value here; a payload that
    does not decode is `Undecodable`. DATA payloads stay bytes. */
module MuxTypes {
  type byte = bv8
  type Bytes = seq<byte>

  const U32_MAX := 0xFFFF_FFFF
  type u32 = x: int | 0 <= x <= U32_MAX
  type StreamId = u32

  const MIN_VERSION := 1
  const MAX_VERSION := 1
  const MIN_WINDOW := 64 * 1024
  const MAX_WINDOW := 4 * 1024 * 1024
  const MIN_MESSAGE := 16 * 1024
  const HANDSHAKE_TIMEOUT := 10_000
  const RST_CODE_CONNECTION_CLOSED: u32 := 0

  datatype Option<+T> = None | Some(value: T)
  datatype Result<+T, +E> = Ok(value: T) | Err(error: E)

  function Min(a: int, b: int): int { if a <= b then a else b }
  function Max(a: int, b: int): int { if a >= b then a else b }
  function SaturatingAdd(a: u32, b: u32): u32 { Min(a + b, U32_MAX) }
  function SaturatingSub(a: u32, b: u32): u32 { Max(a - b, 0) }
  /** The `as u32` cast of a length. */
  function AsU32(n: nat): u32 { n % 0x1_0000_0000 }

  datatype Class = Control | Realtime | Interactive | Bulk
  datatype Compress = Auto | Never
  datatype KeyId = Ed25519(bytes: Bytes) | P256(bytes: Bytes)
  datatype Params = Params(maxFrame: u32, initialWindow: u32, compressionAllowed: bool, maxMessage: u32)

  datatype CloseCode = KeyRevoked | Rejected | Superseded | Shutdown | Protocol | Timeout
  datatype CloseReason = CloseReason(code: CloseCode, message: string)
  datatype RejectCode = UnknownKey | UnsupportedVersion(min: nat, max: nat) | BadSignature

  datatype FrameType =
    | TChallenge | THello | TWelcome | TReject | TOpen | TData
    | TFin | TRst | TWindowUpdate | TPing | TPong | TGoaway

  /** What both ends sign. */
  datatype Transcript = Transcript(nonceS: Bytes, nonceC: Bytes, serverName: string, binding: Option<Bytes>)

  datatype Body =
    | Challenge(nonceS: Bytes)
    | Hello(version: nat, key: KeyId, nonceC: Bytes, sig: Bytes)
    | Welcome(chosen: nat, params: Params)
    | Reject(code: RejectCode, message: string)
    | Open(class_: Class)
    | Data(payload: Bytes)
    | Fin
    | Rst(rst: u32)
    | WindowUpdate(credit: u32)
    | Ping(opaque_: nat)
    | Pong(echo: nat)
    | Goaway(reason: CloseReason)
    | Undecodable(ty: FrameType)

  datatype Frame = Frame(id: StreamId, body: Body)

  /** One transport message as the receiver sees it. */
  datatype Input = Short(len: nat) | UnknownType(code: nat) | Framed(frame: Frame)

  function TypeOf(b: Body): FrameType {
    match b
    case Challenge(_) => TChallenge
    case Hello(_, _, _, _) => THello
    case Welcome(_, _) => TWelcome
    case Reject(_, _) => TReject
    case Open(_) => TOpen
    case Data(_) => TData
    case Fin => TFin
    case Rst(_) => TRst
    case WindowUpdate(_) => TWindowUpdate
    case Ping(_) => TPing
    case Pong(_) => TPong
    case Goaway(_) => TGoaway
    case Undecodable(ty) => ty
  }

  datatype ProtocolError =
    | Truncated(len: nat) | UnknownFrameType(code: nat) | Decode(ty: FrameType)
    | StateViolation | BadStreamId(id: StreamId) | FlowControl(id: StreamId)
    | MessageTooLarge(id: StreamId) | BadPolicy(id: StreamId) | Decompress(id: StreamId) | BadParams

  datatype StreamError =
    | NotAuthenticated | Closed | UnknownStream | SendClosed | WouldBlock
    | InvalidClass | Exhausted | TooLarge(len: nat, max: u32)

  datatype Event =
    | Authenticated(key: KeyId, version: nat)
    | RejectedEvent(code: RejectCode, message: string)
    | StreamOpened(id: StreamId, class_: Class)
    | Readable(id: StreamId)
    | Writable(id: StreamId, credit: u32)
    | Finished(id: StreamId)
    | ResetEvent(id: StreamId, rst: u32)
    | ClosedEvent(reason: CloseReason)

  datatype Pick = PickControl | PickStream(id: StreamId)

  /** The libraries the connection calls: zstd, the entropy probe, signature
      verification and error text. */
  datatype Libraries = Libraries(
    compress: Bytes -> Option<Bytes>,
    decompress: (Bytes, nat) -> Option<Bytes>,
    worthIt: Bytes -> bool,
    verify: (KeyId, Bytes, Transcript, Bytes) -> bool,
    describe: ProtocolError -> string)

  /** zstd undoes itself whenever the output cap allows it. */
  ghost predicate Faithful(l: Libraries) {
    forall x: Bytes, cap: nat ::
      l.compress(x).Some? && |x| <= cap ==> l.decompress(l.compress(x).value, cap) == Some(x)
  }

  /** Libraries of which no more than that is known. */
  type Env = l: Libraries | Faithful(l)
    ghost witness Libraries(_ => None, (_, _) => None, _ => false, (_, _, _, _) => false, _ => "")

  /** The ranges the client insists on in WELCOME. */
  predicate ParamsOk(p: Params) {
    MIN_WINDOW <= p.initialWindow <= MAX_WINDOW && p.maxFrame >= 2 && p.maxMessage >= MIN_MESSAGE
  }
}
