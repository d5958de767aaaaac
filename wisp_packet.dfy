/** The Wisp packet codec: a type tag, a little-endian stream id, then a body
    whose layout depends on the type. Decoding consumes a byte buffer front to
    back and stops at the first error. */
module WispPacket {
  import opened Wrappers
  import opened BoundedInts
  import Utf8
  import opened WispErrors

  // ---------------------------------------------------------------------
  // Little-endian integers, as `put_u16_le`/`get_u16_le` and
  // `put_u32_le`/`get_u32_le` of the `bytes` crate write and read them.

  function U16Le(x: uint16): (r: seq<uint8>)
    ensures |r| == 2
  {
    [x % 0x100, x / 0x100]
  }

  function ReadU16Le(b: seq<uint8>): uint16
    requires |b| >= 2
  {
    b[0] as int + b[1] as int * 0x100
  }

  function U32Le(x: uint32): (r: seq<uint8>)
    ensures |r| == 4
  {
    [x % 0x100, (x / 0x100) % 0x100, (x / 0x1_0000) % 0x100, x / 0x100_0000]
  }

  function ReadU32Le(b: seq<uint8>): uint32
    requires |b| >= 4
  {
    b[0] as int + b[1] as int * 0x100 + b[2] as int * 0x1_0000 + b[3] as int * 0x100_0000
  }

  lemma U16LeInverse(x: uint16, b: seq<uint8>)
    requires |b| == 2
    ensures ReadU16Le(U16Le(x)) == x
    ensures U16Le(ReadU16Le(b)) == b
  {
  }

  lemma U32LeInverse(x: uint32, b: seq<uint8>)
    requires |b| == 4
    ensures ReadU32Le(U32Le(x)) == x
    ensures U32Le(ReadU32Le(b)) == b
  {
    var q1 := x / 0x100;
    var q2 := q1 / 0x100;
    assert x == q1 * 0x100 + x % 0x100;
    assert q1 == q2 * 0x100 + q1 % 0x100;
    assert x / 0x1_0000 == q2;
    assert x / 0x100_0000 == q2 / 0x100;
    var v := ReadU32Le(b);
    assert v / 0x100 == b[1] as int + b[2] as int * 0x100 + b[3] as int * 0x1_0000;
    assert v / 0x1_0000 == b[2] as int + b[3] as int * 0x100;
    assert v / 0x100_0000 == b[3];
  }

  // ---------------------------------------------------------------------
  // Stream types and close reasons.

  datatype StreamType = Tcp | Udp

  /** `stream_type as u8`. */
  function StreamTypeByte(t: StreamType): (b: uint8)
    ensures b == 0x01 || b == 0x02
  {
    match t
    case Tcp => 0x01
    case Udp => 0x02
  }

  /** `StreamType::try_from(u8)`. */
  function StreamTypeFromByte(b: uint8): (r: Result<StreamType, WispError>)
    ensures r.Ok? <==> b == 0x01 || b == 0x02
    ensures r.Ok? ==> StreamTypeByte(r.value) == b
    ensures r.Err? ==> r.error == InvalidStreamType
  {
    if b == 0x01 then Ok(Tcp)
    else if b == 0x02 then Ok(Udp)
    else Err(InvalidStreamType)
  }

  datatype CloseReason =
    | Unknown
    | Voluntary
    | Unexpected
    | ServerStreamInvalidInfo
    | ServerStreamUnreachable
    | ServerStreamConnectionTimedOut
    | ServerStreamConnectionRefused
    | ServerStreamTimedOut
    | ServerStreamBlockedAddress
    | ServerStreamThrottled
    | ClientUnexpected

  /** The eleven bytes that name a close reason. */
  const CLOSE_REASON_BYTES: set<uint8> :=
    {0x01, 0x02, 0x03, 0x41, 0x42, 0x43, 0x44, 0x47, 0x48, 0x49, 0x81}

  /** `reason as u8`. */
  function CloseReasonByte(r: CloseReason): (b: uint8)
    ensures b in CLOSE_REASON_BYTES
  {
    match r
    case Unknown => 0x01
    case Voluntary => 0x02
    case Unexpected => 0x03
    case ServerStreamInvalidInfo => 0x41
    case ServerStreamUnreachable => 0x42
    case ServerStreamConnectionTimedOut => 0x43
    case ServerStreamConnectionRefused => 0x44
    case ServerStreamTimedOut => 0x47
    case ServerStreamBlockedAddress => 0x48
    case ServerStreamThrottled => 0x49
    case ClientUnexpected => 0x81
  }

  /** `CloseReason::try_from(u8)`. An unknown byte is reported as
      `InvalidStreamType`, not `InvalidCloseReason`. */
  function CloseReasonFromByte(b: uint8): (r: Result<CloseReason, WispError>)
    ensures r.Ok? <==> b in CLOSE_REASON_BYTES
    ensures r.Ok? ==> CloseReasonByte(r.value) == b
    ensures r.Err? ==> r.error == InvalidStreamType
  {
    match b
    case 0x01 => Ok(Unknown)
    case 0x02 => Ok(Voluntary)
    case 0x03 => Ok(Unexpected)
    case 0x41 => Ok(ServerStreamInvalidInfo)
    case 0x42 => Ok(ServerStreamUnreachable)
    case 0x43 => Ok(ServerStreamConnectionTimedOut)
    case 0x44 => Ok(ServerStreamConnectionRefused)
    case 0x47 => Ok(ServerStreamTimedOut)
    case 0x48 => Ok(ServerStreamBlockedAddress)
    case 0x49 => Ok(ServerStreamThrottled)
    case 0x81 => Ok(ClientUnexpected)
    case _ => Err(InvalidStreamType)
  }

  lemma TagsRoundTrip(t: StreamType, c: CloseReason)
    ensures StreamTypeFromByte(StreamTypeByte(t)) == Ok(t)
    ensures CloseReasonFromByte(CloseReasonByte(c)) == Ok(c)
  {
  }

  // ---------------------------------------------------------------------
  // Packet bodies.

  datatype ConnectPacket = ConnectPacket(streamType: StreamType, destinationPort: uint16, destinationHostname: string)

  datatype ContinuePacket = ContinuePacket(bufferRemaining: uint32)

  datatype ClosePacket = ClosePacket(reason: CloseReason)

  datatype PacketType =
    | Connect(connect: ConnectPacket)
    | Data(data: seq<uint8>)
    | Continue(cont: ContinuePacket)
    | Close(close: ClosePacket)

  datatype Packet = Packet(streamId: uint32, packet: PacketType)

  /** `From<ConnectPacket> for Vec<u8>`. */
  function EncodeConnect(p: ConnectPacket): (r: seq<uint8>)
    ensures |r| == 3 + |Utf8.Encode(p.destinationHostname)|
    ensures DecodeConnect(r) == Ok(p)
  {
    var r := [StreamTypeByte(p.streamType)] + U16Le(p.destinationPort) + Utf8.Encode(p.destinationHostname);
    TagsRoundTrip(p.streamType, Unknown);
    assert r[1..3] == U16Le(p.destinationPort);
    U16LeInverse(p.destinationPort, r[1..3]);
    assert r[3..] == Utf8.Encode(p.destinationHostname);
    Utf8.RoundTrip(p.destinationHostname);
    r
  }

  /** `TryFrom<Bytes> for ConnectPacket`: stream type, port, then a hostname
      running to the end of the buffer. */
  function DecodeConnect(b: seq<uint8>): (r: Result<ConnectPacket, WispError>)
    ensures |b| < 3 ==> r == Err(PacketTooSmall)
    ensures |b| >= 3 && StreamTypeFromByte(b[0]).Err? ==> r == Err(InvalidStreamType)
    ensures |b| >= 3 && StreamTypeFromByte(b[0]).Ok? && Utf8.FromUtf8(b[3..]).Err? ==>
              r == Err(FromUtf8Error(Utf8.FromUtf8(b[3..]).error))
    ensures |b| >= 3 && StreamTypeFromByte(b[0]).Ok? && Utf8.FromUtf8(b[3..]).Ok? ==> r.Ok?
    ensures r.Ok? ==> |b| >= 3 && StreamTypeByte(r.value.streamType) == b[0]
                      && r.value.destinationPort == ReadU16Le(b[1..3])
                      && Utf8.FromUtf8(b[3..]) == Ok(r.value.destinationHostname)
  {
    if |b| < 3 then Err(PacketTooSmall)
    else
      match StreamTypeFromByte(b[0])
      case Err(e) => Err(e)
      case Ok(streamType) =>
        var port := ReadU16Le(b[1..3]);
        match Utf8.FromUtf8(b[3..])
        case Err(e) => Err(FromUtf8Error(e))
        case Ok(hostname) => Ok(ConnectPacket(streamType, port, hostname))
  }

  /** `From<ContinuePacket> for Vec<u8>`. */
  function EncodeContinue(p: ContinuePacket): (r: seq<uint8>)
    ensures |r| == 4
    ensures DecodeContinue(r) == Ok(p)
  {
    var r := U32Le(p.bufferRemaining);
    U32LeInverse(p.bufferRemaining, r);
    assert r[..4] == r;
    r
  }

  /** `TryFrom<Bytes> for ContinuePacket`: bytes after the first four are
      ignored. */
  function DecodeContinue(b: seq<uint8>): (r: Result<ContinuePacket, WispError>)
    ensures r.Err? <==> |b| < 4
    ensures r.Err? ==> r.error == PacketTooSmall
    ensures r.Ok? ==> r.value.bufferRemaining == ReadU32Le(b[..4])
  {
    if |b| < 4 then Err(PacketTooSmall) else Ok(ContinuePacket(ReadU32Le(b)))
  }

  /** `From<ClosePacket> for Vec<u8>`. */
  function EncodeClose(p: ClosePacket): (r: seq<uint8>)
    ensures |r| == 1
    ensures DecodeClose(r) == Ok(p)
  {
    TagsRoundTrip(Tcp, p.reason);
    [CloseReasonByte(p.reason)]
  }

  /** `TryFrom<Bytes> for ClosePacket`: one reason byte; bytes after it are
      ignored. */
  function DecodeClose(b: seq<uint8>): (r: Result<ClosePacket, WispError>)
    ensures |b| < 1 ==> r == Err(PacketTooSmall)
    ensures |b| >= 1 ==> (r.Ok? <==> b[0] in CLOSE_REASON_BYTES)
    ensures |b| >= 1 && r.Err? ==> r.error == InvalidStreamType
    ensures r.Ok? ==> CloseReasonByte(r.value.reason) == b[0]
  {
    if |b| < 1 then Err(PacketTooSmall)
    else
      match CloseReasonFromByte(b[0])
      case Err(e) => Err(e)
      case Ok(reason) => Ok(ClosePacket(reason))
  }

  /** `PacketType::as_u8`. */
  function PacketTypeByte(p: PacketType): (b: uint8)
    ensures 0x01 <= b <= 0x04
  {
    match p
    case Connect(_) => 0x01
    case Data(_) => 0x02
    case Continue(_) => 0x03
    case Close(_) => 0x04
  }

  /** `From<PacketType> for Vec<u8>`: the body alone. */
  function EncodeBody(p: PacketType): (r: seq<uint8>)
    ensures p.Connect? ==> DecodeConnect(r) == Ok(p.connect)
    ensures p.Data? ==> r == p.data
    ensures p.Continue? ==> DecodeContinue(r) == Ok(p.cont)
    ensures p.Close? ==> DecodeClose(r) == Ok(p.close)
  {
    match p
    case Connect(c) => EncodeConnect(c)
    case Data(d) => d
    case Continue(c) => EncodeContinue(c)
    case Close(c) => EncodeClose(c)
  }

  /** `From<Packet> for Vec<u8>`. */
  function Encode(p: Packet): (r: seq<uint8>)
    ensures |r| >= 5 && r[0] == PacketTypeByte(p.packet) && r[1..5] == U32Le(p.streamId)
    ensures r[5..] == EncodeBody(p.packet)
  {
    [PacketTypeByte(p.packet)] + U32Le(p.streamId) + EncodeBody(p.packet)
  }

  /** `TryFrom<Bytes> for Packet`. */
  function Decode(b: seq<uint8>): (r: Result<Packet, WispError>)
    ensures |b| < 5 ==> r == Err(PacketTooSmall)
    ensures |b| >= 5 && !(0x01 <= b[0] <= 0x04) ==> r == Err(InvalidPacketType)
    ensures r.Ok? ==> |b| >= 5 && PacketTypeByte(r.value.packet) == b[0]
                      && r.value.streamId == ReadU32Le(b[1..5])
    ensures |b| >= 5 && b[0] == 0x02 ==> r == Ok(Packet(ReadU32Le(b[1..5]), Data(b[5..])))
    ensures |b| >= 5 && b[0] == 0x01 ==> r == match DecodeConnect(b[5..])
                                               case Ok(c) => Ok(Packet(ReadU32Le(b[1..5]), Connect(c)))
                                               case Err(e) => Err(e)
    ensures |b| >= 5 && b[0] == 0x03 ==> r == match DecodeContinue(b[5..])
                                               case Ok(c) => Ok(Packet(ReadU32Le(b[1..5]), Continue(c)))
                                               case Err(e) => Err(e)
    ensures |b| >= 5 && b[0] == 0x04 ==> r == match DecodeClose(b[5..])
                                               case Ok(c) => Ok(Packet(ReadU32Le(b[1..5]), Close(c)))
                                               case Err(e) => Err(e)
    ensures |b| >= 5 && b[0] == 0x03 ==> (r.Err? <==> |b| < 9)
    ensures |b| >= 5 && b[0] == 0x04 ==> (r.Err? <==> |b| < 6 || b[5] !in CLOSE_REASON_BYTES)
  {
    if |b| < 5 then Err(PacketTooSmall)
    else
      var packetType := b[0];
      var streamId := ReadU32Le(b[1..5]);
      var body := b[5..];
      match packetType
      case 0x01 =>
        (match DecodeConnect(body)
         case Err(e) => Err(e)
         case Ok(c) => Ok(Packet(streamId, Connect(c))))
      case 0x02 => Ok(Packet(streamId, Data(body)))
      case 0x03 =>
        (match DecodeContinue(body)
         case Err(e) => Err(e)
         case Ok(c) => Ok(Packet(streamId, Continue(c))))
      case 0x04 =>
        (match DecodeClose(body)
         case Err(e) => Err(e)
         case Ok(c) => Ok(Packet(streamId, Close(c))))
      case _ => Err(InvalidPacketType)
  }

  // ---------------------------------------------------------------------
  // Laws.

  /** Size of the body the encoder emits: a Connect body is the stream-type
      byte, the port and the hostname's UTF-8 bytes. */
  function BodyLength(p: PacketType): nat {
    match p
    case Connect(c) => 3 + |Utf8.Encode(c.destinationHostname)|
    case Data(d) => |d|
    case Continue(_) => 4
    case Close(_) => 1
  }

  lemma EncodedLength(p: Packet)
    ensures |Encode(p)| == 5 + BodyLength(p.packet)
  {
  }

  /** Every packet survives an encode and a decode unchanged. */
  lemma RoundTrip(p: Packet)
    ensures Decode(Encode(p)) == Ok(p)
  {
    var b := Encode(p);
    U32LeInverse(p.streamId, b[1..5]);
  }

  /** Decoding then re-encoding gives back the input, except that the bytes
      after a Continue or Close body, which decoding ignores, are lost. */
  lemma DecodedReencodes(b: seq<uint8>)
    requires Decode(b).Ok?
    ensures var p := Decode(b).value;
            |Encode(p)| <= |b| && Encode(p) == b[..|Encode(p)|]
            && (p.packet.Connect? || p.packet.Data? ==> Encode(p) == b)
  {
    var p := Decode(b).value;
    U32LeInverse(0, b[1..5]);
    match p.packet
    case Connect(c) =>
      var body := b[5..];
      U16LeInverse(0, body[1..3]);
      Utf8.FromUtf8Inverse(body[3..], c.destinationHostname);
      assert EncodeBody(p.packet) == [body[0]] + body[1..3] + body[3..] == body;
      assert b == b[..1] + b[1..5] + b[5..];
    case Data(_) =>
      assert b == b[..1] + b[1..5] + b[5..];
    case Continue(c) =>
      U32LeInverse(0, b[5..9]);
      assert b[5..][..4] == b[5..9];
      assert b[..9] == b[..1] + b[1..5] + b[5..9];
    case Close(c) =>
      assert b[..6] == b[..1] + b[1..5] + [b[5]];
  }

  /** Bytes after a Continue or Close body do not change what is decoded. */
  lemma TrailingBytesIgnored(b: seq<uint8>, extra: seq<uint8>)
    requires Decode(b).Ok? && (Decode(b).value.packet.Continue? || Decode(b).value.packet.Close?)
    ensures Decode(b + extra) == Decode(b)
  {
    var c := b + extra;
    assert c[1..5] == b[1..5];
    if Decode(b).value.packet.Continue? {
      assert c[5..][..4] == b[5..][..4];
    } else {
      assert c[5..][0] == b[5..][0];
    }
  }

  /** The host of the worked example below is plain ASCII: one byte per
      character. */
  lemma ExampleHostBytes(host: string)
    requires host == "example.com"
    ensures Utf8.Encode(host) == [0x65, 0x78, 0x61, 0x6D, 0x70, 0x6C, 0x65, 0x2E, 0x63, 0x6F, 0x6D]
  {
    Utf8.EncodeAscii(host);
  }

  /** A worked instance of the Connect layout (stream 0, TCP, port 80, host
      "example.com"): its exact 19 bytes, and that they decode back. */
  lemma ExampleConnectPacket(host: string)
    requires host == "example.com"
    ensures Encode(Packet(0, Connect(ConnectPacket(Tcp, 80, host))))
            == [0x01, 0x00, 0x00, 0x00, 0x00, 0x01, 0x50, 0x00,
                0x65, 0x78, 0x61, 0x6D, 0x70, 0x6C, 0x65, 0x2E, 0x63, 0x6F, 0x6D]
    ensures Decode(Encode(Packet(0, Connect(ConnectPacket(Tcp, 80, host)))))
            == Ok(Packet(0, Connect(ConnectPacket(Tcp, 80, host))))
  {
    var p := Packet(0, Connect(ConnectPacket(Tcp, 80, host)));
    ExampleHostBytes(host);
    assert Encode(p) == [0x01] + [0, 0, 0, 0] + ([0x01] + [0x50, 0] + Utf8.Encode(host)) by {
      assert U32Le(0) == [0, 0, 0, 0];
      assert U16Le(80) == [0x50, 0];
    }
    RoundTrip(p);
  }
}
