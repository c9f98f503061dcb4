/** The text form of a key and the wire form of a frame. */
module Codecs {
  import opened MuxTypes

  // ---------------------------------------------------------------- key texts

  const COLON: byte := 0x3a
  const P256_NAME: Bytes := [0x70, 0x32, 0x35, 0x36]
  const ED25519_NAME: Bytes := [0x65, 0x64, 0x32, 0x35, 0x35, 0x31, 0x39]

  /** The fixed sizes of the two kinds of key. */
  predicate KeyOk(k: KeyId) {
    match k case P256(b) => |b| == 33 case Ed25519(b) => |b| == 32
  }

  function Digit(n: byte): byte { if n < 10 then 0x30 + n else 0x61 + (n - 10) }

  function Hex(bytes: Bytes): (r: Bytes)
    ensures |r| == 2 * |bytes|
  {
    if bytes == [] then [] else [Digit(bytes[0] >> 4), Digit(bytes[0] & 0x0f)] + Hex(bytes[1..])
  }

  /** `Display`. */
  function Print(k: KeyId): Bytes {
    match k
    case P256(b) => P256_NAME + [COLON] + Hex(b)
    case Ed25519(b) => ED25519_NAME + [COLON] + Hex(b)
  }

  function Nibble(c: byte): Option<byte> {
    if 0x30 <= c <= 0x39 then Some(c - 0x30)
    else if 0x61 <= c <= 0x66 then Some(c - 0x61 + 10)
    else None
  }

  /** Pairs of digits; an odd tail never reaches it. */
  function UnHex(hex: Bytes): Option<Bytes> {
    if |hex| < 2 then Some([]) else
    match (Nibble(hex[0]), Nibble(hex[1]), UnHex(hex[2..]))
    case (Some(hi), Some(lo), Some(rest)) => Some([(hi << 4) | lo] + rest)
    case _ => None
  }

  /** Where the first colon is, or the length. */
  function ColonAt(text: Bytes): (i: nat)
    ensures i <= |text| && COLON !in text[..i] && (i < |text| ==> text[i] == COLON)
  {
    if text == [] || text[0] == COLON then 0 else
    var j := ColonAt(text[1..]);
    assert text[..1 + j] == [text[0]] + text[1..][..j];
    1 + j
  }

  /** `FromStr`. */
  function Parse(text: Bytes): Option<KeyId> {
    var i := ColonAt(text);
    if i == |text| then None else
    var (algorithm, hex) := (text[..i], text[i + 1..]);
    if |hex| % 2 != 0 then None else
    match UnHex(hex)
    case None => None
    case Some(bytes) =>
      if algorithm == P256_NAME then (if |bytes| == 33 then Some(P256(bytes)) else None)
      else if algorithm == ED25519_NAME then (if |bytes| == 32 then Some(Ed25519(bytes)) else None)
      else None
  }

  lemma DigitBack(n: byte)
    requires n < 16
    ensures Nibble(Digit(n)) == Some(n)
  {}

  lemma NibbleBack(c: byte)
    ensures Nibble(c).Some? ==> Nibble(c).value < 16 && Digit(Nibble(c).value) == c
  {}

  lemma SplitByte(b: byte)
    ensures b >> 4 < 16 && b & 0x0f < 16 && ((b >> 4) << 4) | (b & 0x0f) == b
  {}

  lemma JoinByte(hi: byte, lo: byte)
    requires hi < 16 && lo < 16
    ensures ((hi << 4) | lo) >> 4 == hi && ((hi << 4) | lo) & 0x0f == lo
  {}

  lemma {:induction false} HexBack(bytes: Bytes)
    ensures UnHex(Hex(bytes)) == Some(bytes)
  {
    if bytes != [] {
      var b, hex := bytes[0], Hex(bytes);
      SplitByte(b);
      DigitBack(b >> 4);
      DigitBack(b & 0x0f);
      HexBack(bytes[1..]);
      assert hex[2..] == Hex(bytes[1..]);
      assert [b] + bytes[1..] == bytes;
    }
  }

  lemma {:induction false} UnHexBack(hex: Bytes)
    requires |hex| % 2 == 0 && UnHex(hex).Some?
    ensures Hex(UnHex(hex).value) == hex && |UnHex(hex).value| == |hex| / 2
  {
    if |hex| >= 2 {
      UnHexBack(hex[2..]);
      NibbleBack(hex[0]);
      NibbleBack(hex[1]);
      var hi, lo := Nibble(hex[0]).value, Nibble(hex[1]).value;
      JoinByte(hi, lo);
      var bytes := UnHex(hex).value;
      assert bytes[1..] == UnHex(hex[2..]).value;
      assert hex == [hex[0], hex[1]] + hex[2..];
    }
  }

  /** The colon of a printed key is the first one. */
  lemma {:induction false} FirstColon(name: Bytes, rest: Bytes)
    requires COLON !in name
    ensures var text := name + [COLON] + rest;
            ColonAt(text) == |name| && text[..|name|] == name && text[|name| + 1..] == rest
    decreases |name|
  {
    var text := name + [COLON] + rest;
    if name != [] {
      assert name[0] in name;
      FirstColon(name[1..], rest);
      assert text[1..] == name[1..] + [COLON] + rest;
    }
  }

  /** Parsing inverts printing. */
  lemma PrintThenParse(k: KeyId)
    requires KeyOk(k)
    ensures Parse(Print(k)) == Some(k)
  {
    match k
    case P256(b) =>
      FirstColon(P256_NAME, Hex(b));
      HexBack(b);
    case Ed25519(b) =>
      FirstColon(ED25519_NAME, Hex(b));
      HexBack(b);
  }

  /** And accepts nothing but what is printed: lower case, exact length, the right name. */
  lemma ParseThenPrint(text: Bytes, k: KeyId)
    requires Parse(text) == Some(k)
    ensures KeyOk(k) && Print(k) == text
  {
    var i := ColonAt(text);
    UnHexBack(text[i + 1..]);
    hide ColonAt, Hex, UnHex;
    assert text == text[..i] + [COLON] + text[i + 1..];
  }

  /** So two keys print alike only if they are the same. */
  lemma PrintsDiffer(a: KeyId, b: KeyId)
    requires KeyOk(a) && KeyOk(b) && Print(a) == Print(b)
    ensures a == b
  {
    PrintThenParse(a);
    PrintThenParse(b);
  }

  // ------------------------------------------------------------------- frames

  const HEADER_LEN := 5

  datatype WireFrame = WireFrame(streamId: bv32, ty: FrameType, payload: Bytes)

  function Code(ty: FrameType): byte {
    match ty
    case TChallenge => 0x01 case THello => 0x02 case TWelcome => 0x03 case TReject => 0x04
    case TOpen => 0x05 case TData => 0x06 case TFin => 0x07 case TRst => 0x08
    case TWindowUpdate => 0x09 case TPing => 0x0a case TPong => 0x0b case TGoaway => 0x0c
  }

  function TypeOfCode(b: byte): Option<FrameType> {
    if b == 0x01 then Some(TChallenge) else if b == 0x02 then Some(THello) else if b == 0x03 then Some(TWelcome)
    else if b == 0x04 then Some(TReject) else if b == 0x05 then Some(TOpen) else if b == 0x06 then Some(TData)
    else if b == 0x07 then Some(TFin) else if b == 0x08 then Some(TRst) else if b == 0x09 then Some(TWindowUpdate)
    else if b == 0x0a then Some(TPing) else if b == 0x0b then Some(TPong) else if b == 0x0c then Some(TGoaway)
    else None
  }

  function BigEndian(x: bv32): (r: Bytes)
    ensures |r| == 4
  {
    [((x >> 24) & 0xff) as byte, ((x >> 16) & 0xff) as byte, ((x >> 8) & 0xff) as byte, (x & 0xff) as byte]
  }

  function FromBigEndian(a: byte, b: byte, c: byte, d: byte): bv32 {
    ((a as bv32) << 24) | ((b as bv32) << 16) | ((c as bv32) << 8) | (d as bv32)
  }

  function Encode(f: WireFrame): Bytes { BigEndian(f.streamId) + [Code(f.ty)] + f.payload }

  function ParseFrame(input: Bytes): Result<WireFrame, ProtocolError> {
    if |input| < HEADER_LEN then Err(Truncated(|input|)) else
    match TypeOfCode(input[4])
    case None => Err(UnknownFrameType(input[4] as nat))
    case Some(ty) => Ok(WireFrame(FromBigEndian(input[0], input[1], input[2], input[3]), ty, input[5..]))
  }

  class Buffer {
    var bytes: Bytes
    constructor () ensures bytes == [] { bytes := []; }

    method Extend(more: Bytes)
      modifies this
      ensures bytes == old(bytes) + more
    { bytes := bytes + more; }
  }

  /** Appends the frame to the caller's buffer, whatever is in it already. */
  method EncodeInto(f: WireFrame, buf: Buffer)
    modifies buf
    ensures buf.bytes == old(buf.bytes) + Encode(f)
  {
    buf.Extend(BigEndian(f.streamId));
    buf.Extend([Code(f.ty)]);
    buf.Extend(f.payload);
  }

  lemma WordBack(x: bv32)
    ensures var r := BigEndian(x); FromBigEndian(r[0], r[1], r[2], r[3]) == x
  {}

  lemma BytesBack(a: byte, b: byte, c: byte, d: byte)
    ensures BigEndian(FromBigEndian(a, b, c, d)) == [a, b, c, d]
  {}

  lemma CodeBack(ty: FrameType, b: byte)
    ensures TypeOfCode(Code(ty)) == Some(ty)
    ensures TypeOfCode(b).Some? ==> Code(TypeOfCode(b).value) == b
    ensures TypeOfCode(b).Some? <==> 1 <= b <= 12
  {}

  /** Parsing inverts encoding, for every frame. */
  lemma EncodeThenParse(f: WireFrame)
    ensures ParseFrame(Encode(f)) == Ok(f)
  {
    var e := Encode(f);
    WordBack(f.streamId);
    CodeBack(f.ty, 0);
    assert e[..4] == BigEndian(f.streamId);
    assert e[0] == BigEndian(f.streamId)[0] && e[1] == BigEndian(f.streamId)[1];
    assert e[2] == BigEndian(f.streamId)[2] && e[3] == BigEndian(f.streamId)[3];
    assert e[4] == Code(f.ty) && e[5..] == f.payload;
    hide BigEndian, FromBigEndian;
  }

  /** Re-encoding whatever parses gives the same bytes, and exactly the inputs of
      five bytes or more with a known type parse. */
  lemma ParseThenEncode(input: Bytes)
    ensures ParseFrame(input).Ok? ==> Encode(ParseFrame(input).value) == input
    ensures ParseFrame(input).Ok? <==> |input| >= HEADER_LEN && 1 <= input[4] <= 12
  {
    if |input| >= HEADER_LEN {
      CodeBack(TData, input[4]);
      if ParseFrame(input).Ok? {
        BytesBack(input[0], input[1], input[2], input[3]);
        var f := ParseFrame(input).value;
        assert Encode(f) == [input[0], input[1], input[2], input[3]] + [input[4]] + input[5..];
        hide BigEndian, FromBigEndian;
        assert input == [input[0], input[1], input[2], input[3]] + [input[4]] + input[5..];
      }
    }
  }
}
