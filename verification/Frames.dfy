/**
 The frames of the tunnel and their wire format (core-lib/src/frame.rs):
 one byte type, four bytes stream id (big-endian), payload.
 */
module Frames {
  import opened Basics
  import opened Utf8

  /** A stream id: a 32-bit unsigned integer. */
  type Id = n: int | 0 <= n < 0x1_0000_0000

  datatype Frame =
    | Hello(token: string)
    | Open(id: Id, dest: string)
    | OpenAck(id: Id, ok: bool)
    | Data(id: Id, bytes: Bytes)
    | Close(id: Id)

  datatype FrameError = TooShort | UnknownType(t: byte) | InvalidUtf8

  const TYPE_OPEN: byte := 0x01
  const TYPE_OPEN_ACK: byte := 0x02
  const TYPE_DATA: byte := 0x03
  const TYPE_CLOSE: byte := 0x04
  const TYPE_HELLO: byte := 0x10

  /** `u32::to_be_bytes`. */
  function BigEndian(n: Id): (b: Bytes)
    ensures |b| == 4
  {
    [n / 0x100_0000, n / 0x1_0000 % 256, n / 256 % 256, n % 256]
  }

  /** `u32::from_be_bytes`. */
  function FromBigEndian(b: Bytes): Id
    requires |b| == 4
  {
    var b0: int, b1: int, b2: int, b3: int := b[0], b[1], b[2], b[3];
    b0 * 0x100_0000 + b1 * 0x1_0000 + b2 * 256 + b3
  }

  lemma BigEndianRoundTrip(n: Id)
    ensures FromBigEndian(BigEndian(n)) == n
  {
    assert n / 256 / 256 == n / 0x1_0000;
    assert n / 0x1_0000 / 256 == n / 0x100_0000;
  }

  lemma BigEndianUnique(b: Bytes)
    requires |b| == 4
    ensures BigEndian(FromBigEndian(b)) == b
  {
    var n := FromBigEndian(b);
    var b0: int, b1: int, b2: int, b3: int := b[0], b[1], b[2], b[3];
    assert n == 256 * (b0 * 0x1_0000 + b1 * 256 + b2) + b3;
    assert n / 256 == b0 * 0x1_0000 + b1 * 256 + b2;
    assert n / 0x1_0000 == b0 * 256 + b1;
    assert n / 0x100_0000 == b0;
  }

  function TypeOf(f: Frame): byte {
    match f
    case Hello(_) => TYPE_HELLO
    case Open(_, _) => TYPE_OPEN
    case OpenAck(_, _) => TYPE_OPEN_ACK
    case Data(_, _) => TYPE_DATA
    case Close(_) => TYPE_CLOSE
  }

  function IdOf(f: Frame): Id {
    if f.Hello? then 0 else f.id
  }

  function PayloadOf(f: Frame): Bytes {
    match f
    case Hello(token) => ToBytes(token)
    case Open(_, dest) => ToBytes(dest)
    case OpenAck(_, ok) => [if ok then 0 else 1]
    case Data(_, bytes) => bytes
    case Close(_) => []
  }

  /** The bytes of a frame. */
  function Encode(f: Frame): Bytes {
    [TypeOf(f)] + BigEndian(IdOf(f)) + PayloadOf(f)
  }

  /** The stream id of a message, most significant byte first. */
  function IdAt(b: Bytes): Id
    requires |b| >= 5
  {
    var b1: int, b2: int, b3: int, b4: int := b[1], b[2], b[3], b[4];
    b1 * 0x100_0000 + b2 * 0x1_0000 + b3 * 0x100 + b4
  }

  /** The wire format, byte by byte: type, stream id, payload. */
  ghost predicate LaidOut(f: Frame, b: Bytes) {
    |b| >= 5
    && match f
       case Hello(token) => b[0] == 0x10 && IdAt(b) == 0 && b[5..] == ToBytes(token)
       case Open(id, dest) => b[0] == 0x01 && IdAt(b) == id && b[5..] == ToBytes(dest)
       case OpenAck(id, ok) => b[0] == 0x02 && IdAt(b) == id && b[5..] == [if ok then 0 else 1]
       case Data(id, bytes) => b[0] == 0x03 && IdAt(b) == id && b[5..] == bytes
       case Close(id) => b[0] == 0x04 && IdAt(b) == id && b[5..] == []
  }

  lemma EncodeIsLaidOut(f: Frame)
    ensures LaidOut(f, Encode(f))
  {
    var b := Encode(f);
    assert b[0] == TypeOf(f) && b[1..5] == BigEndian(IdOf(f)) && b[5..] == PayloadOf(f);
    assert b[1] == b[1..5][0] && b[2] == b[1..5][1] && b[3] == b[1..5][2] && b[4] == b[1..5][3];
    BigEndianRoundTrip(IdOf(f));
  }

  /** What any message means, from its bytes alone; the errors are for what is too short, unknown or not text. */
  lemma DecodeInNumbers(b: Bytes)
    ensures |b| < 5 ==> Decode(b) == Err(TooShort)
    ensures |b| >= 5 ==>
              && (b[0] == 0x10 ==>
                   match FromBytes(b[5..])
                   case Some(token) => Decode(b) == Ok(Hello(token))
                   case None => Decode(b) == Err(InvalidUtf8))
              && (b[0] == 0x01 ==>
                   match FromBytes(b[5..])
                   case Some(dest) => Decode(b) == Ok(Open(IdAt(b), dest))
                   case None => Decode(b) == Err(InvalidUtf8))
              && (b[0] == 0x02 ==> Decode(b) == if |b| == 5 then Err(TooShort) else Ok(OpenAck(IdAt(b), b[5] == 0)))
              && (b[0] == 0x03 ==> Decode(b) == Ok(Data(IdAt(b), b[5..])))
              && (b[0] == 0x04 ==> Decode(b) == Ok(Close(IdAt(b))))
              && (b[0] !in {0x01, 0x02, 0x03, 0x04, 0x10} ==> Decode(b) == Err(UnknownType(b[0])))
  {
    if |b| >= 5 {
      assert b[1..5][0] == b[1] && b[1..5][1] == b[2] && b[1..5][2] == b[3] && b[1..5][3] == b[4];
      assert FromBigEndian(b[1..5]) == IdAt(b);
    }
  }

  /** `Frame::encode`, filling a buffer step by step. */
  method EncodeFrame(f: Frame) returns (buf: Bytes)
    ensures buf == Encode(f) && Decode(buf) == Ok(f) && LaidOut(f, buf)
  {
    buf := [];
    match f {
      case Hello(token) =>
        buf := buf + [TYPE_HELLO];
        buf := buf + BigEndian(0);
        buf := buf + ToBytes(token);
      case Open(id, dest) =>
        buf := buf + [TYPE_OPEN];
        buf := buf + BigEndian(id);
        buf := buf + ToBytes(dest);
      case OpenAck(id, ok) =>
        buf := buf + [TYPE_OPEN_ACK];
        buf := buf + BigEndian(id);
        buf := buf + [if ok then 0 else 1];
      case Data(id, bytes) =>
        buf := buf + [TYPE_DATA];
        buf := buf + BigEndian(id);
        buf := buf + bytes;
      case Close(id) =>
        buf := buf + [TYPE_CLOSE];
        buf := buf + BigEndian(id);
    }
    assert buf == Encode(f);
    DecodeEncodeFrame(f);
    EncodeIsLaidOut(f);
  }

  /** `Frame::decode`. */
  function Decode(buf: Bytes): Result<Frame, FrameError> {
    if |buf| < 5 then Err(TooShort)
    else
      var t, id, payload := buf[0], FromBigEndian(buf[1..5]), buf[5..];
      if t == TYPE_HELLO then
        match FromBytes(payload)
        case None => Err(InvalidUtf8)
        case Some(token) => Ok(Hello(token))
      else if t == TYPE_OPEN then
        match FromBytes(payload)
        case None => Err(InvalidUtf8)
        case Some(dest) => Ok(Open(id, dest))
      else if t == TYPE_OPEN_ACK then
        if payload == [] then Err(TooShort) else Ok(OpenAck(id, payload[0] == 0))
      else if t == TYPE_DATA then Ok(Data(id, payload))
      else if t == TYPE_CLOSE then Ok(Close(id))
      else Err(UnknownType(t))
  }

  /** No frame is changed by the wire. */
  lemma DecodeEncodeFrame(f: Frame)
    ensures Decode(Encode(f)) == Ok(f)
  {
    var b := Encode(f);
    assert b[0] == TypeOf(f) && b[1..5] == BigEndian(IdOf(f)) && b[5..] == PayloadOf(f);
    BigEndianRoundTrip(IdOf(f));
    match f
    case Hello(token) => DecodeEncode(token);
    case Open(_, dest) => DecodeEncode(dest);
    case _ =>
  }

  lemma EncodeInjective(f: Frame, g: Frame)
    requires Encode(f) == Encode(g)
    ensures f == g
  {
    DecodeEncodeFrame(f);
    DecodeEncodeFrame(g);
  }

  /** The one way to write a frame: HELLO with id 0, one status byte of 0 or 1, nothing after CLOSE. */
  predicate Canonical(b: Bytes) {
    |b| >= 5
    && (b[0] == TYPE_HELLO ==> b[1..5] == [0, 0, 0, 0])
    && (b[0] == TYPE_OPEN_ACK ==> |b| == 6 && b[5] <= 1)
    && (b[0] == TYPE_CLOSE ==> |b| == 5)
  }

  /** A message that decodes is the encoding of its frame exactly when it is canonical. */
  lemma ReencodeIffCanonical(b: Bytes)
    requires Decode(b).Ok?
    ensures Encode(Decode(b).value) == b <==> Canonical(b)
  {
    var f := Decode(b).value;
    var e := Encode(f);
    assert e[0] == TypeOf(f) && e[1..5] == BigEndian(IdOf(f)) && e[5..] == PayloadOf(f);
    assert b == [b[0]] + b[1..5] + b[5..];
    BigEndianUnique(b[1..5]);
    assert BigEndian(0) == [0, 0, 0, 0];
    if f.Hello? || f.Open? {
      EncodeDecode(b[5..]);
    } else if f.OpenAck? && |b| == 6 {
      assert b[5..] == [b[5]];
    } else if f.Close? && |b| == 5 {
      assert b[5..] == [];
    }
  }
}
