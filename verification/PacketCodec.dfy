/** The length-prefixed packet format and its codec. */
module PacketCodec {
  import opened Bytes
  import opened Buffers

  const PROTOCOL_MAGIC: uint32 := 0x4E494D42
  const PROTOCOL_VERSION: uint16 := 1
  const MAX_BODY_LENGTH: uint32 := 1024 * 1024
  const HEADER_LENGTH: nat := 16

  type uint16 = n: int | 0 <= n < 0x1_0000
  type uint32 = n: int | 0 <= n < 0x1_0000_0000

  datatype Header = Header(magic: uint32, version: uint16, kind: uint16, sequenceId: uint32, bodyLength: uint32)

  datatype Packet = Packet(kind: uint16, sequenceId: uint32, body: seq<byte>)

  datatype ProtocolError = InvalidMagic | InvalidVersion | BodyTooLarge | InvalidMessageType

  datatype Result = Incomplete | Invalid(error: ProtocolError) | Ok(packet: Packet, used: nat)

  predicate IsValidMessageType(kind: uint16) {
    || 1001 <= kind <= 1006 || 1101 <= kind <= 1102 || 2001 <= kind <= 2002 || 2101 <= kind <= 2102
    || kind == 3001 || 4001 <= kind <= 4002 || 5001 <= kind <= 5002 || kind == 9001
  }

  /** The eighteen types of the protocol, one by one. */
  lemma MessageTypes(kind: uint16)
    ensures IsValidMessageType(kind) <==>
              kind in {1001, 1002, 1003, 1004, 1005, 1006, 1101, 1102, 2001, 2002, 2101, 2102, 3001, 4001, 4002, 5001,
                       5002, 9001}
  {
  }

  // ---------------------------------------------------------------- headers

  function EncodeHeader(h: Header): (s: seq<byte>)
    ensures |s| == HEADER_LENGTH
  {
    BigEndian(h.magic, 4) + BigEndian(h.version, 2) + BigEndian(h.kind, 2)
      + BigEndian(h.sequenceId, 4) + BigEndian(h.bodyLength, 4)
  }

  function ReadUint16(s: seq<byte>): uint16
    requires |s| == 2
  {
    ValueBound(s);
    SmallPowers();
    Value(s)
  }

  function ReadUint32(s: seq<byte>): uint32
    requires |s| == 4
  {
    ValueBound(s);
    SmallPowers();
    Value(s)
  }

  function DecodeHeader(s: seq<byte>): Header
    requires |s| >= HEADER_LENGTH
  {
    Header(ReadUint32(s[0..4]), ReadUint16(s[4..6]), ReadUint16(s[6..8]), ReadUint32(s[8..12]), ReadUint32(s[12..16]))
  }

  lemma Uint16RoundTrip(n: uint16)
    ensures ReadUint16(BigEndian(n, 2)) == n
  {
    SmallPowers();
    WriteRead(n, 2);
  }

  lemma Uint32RoundTrip(n: uint32)
    ensures ReadUint32(BigEndian(n, 4)) == n
  {
    SmallPowers();
    WriteRead(n, 4);
  }

  lemma HeaderRoundTrip(h: Header, rest: seq<byte>)
    ensures DecodeHeader(EncodeHeader(h) + rest) == h
  {
    var s := EncodeHeader(h) + rest;
    assert s[0..4] == BigEndian(h.magic, 4) && s[4..6] == BigEndian(h.version, 2);
    assert s[6..8] == BigEndian(h.kind, 2) && s[8..12] == BigEndian(h.sequenceId, 4);
    assert s[12..16] == BigEndian(h.bodyLength, 4);
    Uint32RoundTrip(h.magic);
    Uint16RoundTrip(h.version);
    Uint16RoundTrip(h.kind);
    Uint32RoundTrip(h.sequenceId);
    Uint32RoundTrip(h.bodyLength);
  }

  /** Every sixteen bytes are the encoding of what they decode to. */
  /** The number written with these bytes, highest first. */
  function Pair(a: int, b: int): int { 0x100 * a + b }

  function Quad(a: int, b: int, c: int, d: int): int { 0x100_0000 * a + 0x1_0000 * b + 0x100 * c + d }

  lemma TwoBytes(s: seq<byte>)
    requires |s| == 2
    ensures Value(s) == Pair(s[0], s[1])
  {
    assert s[..1] == [s[0]] && [s[0]][..0] == [];
    assert Value([s[0]]) == s[0];
  }

  lemma FourBytes(s: seq<byte>)
    requires |s| == 4
    ensures Value(s) == Quad(s[0], s[1], s[2], s[3])
  {
    assert s[..3][..2] == s[..2];
    TwoBytes(s[..2]);
    assert Value(s[..3]) == 256 * Value(s[..2]) + s[2];
  }

  /** Where each field stands. */
  lemma HeaderLayout(s: seq<byte>)
    requires |s| >= HEADER_LENGTH
    ensures DecodeHeader(s) == Header(Quad(s[0], s[1], s[2], s[3]), Pair(s[4], s[5]), Pair(s[6], s[7]),
                                      Quad(s[8], s[9], s[10], s[11]), Quad(s[12], s[13], s[14], s[15]))
  {
    FourBytes(s[0..4]);
    TwoBytes(s[4..6]);
    TwoBytes(s[6..8]);
    FourBytes(s[8..12]);
    FourBytes(s[12..16]);
  }

  lemma HeaderBytes(s: seq<byte>)
    requires |s| >= HEADER_LENGTH
    ensures EncodeHeader(DecodeHeader(s)) == s[..HEADER_LENGTH]
  {
    ReadWrite(s[0..4]);
    ReadWrite(s[4..6]);
    ReadWrite(s[6..8]);
    ReadWrite(s[8..12]);
    ReadWrite(s[12..16]);
    assert s[..16] == s[0..4] + s[4..6] + s[6..8] + s[8..12] + s[12..16];
  }

  // ---------------------------------------------------------------- packets

  datatype Verdict = Accepted | Rejected(error: ProtocolError)

  function ValidateHeader(h: Header): Verdict {
    if h.magic != PROTOCOL_MAGIC then Rejected(InvalidMagic)
    else if h.version != PROTOCOL_VERSION then Rejected(InvalidVersion)
    else if h.bodyLength > MAX_BODY_LENGTH then Rejected(BodyTooLarge)
    else if !IsValidMessageType(h.kind) then Rejected(InvalidMessageType)
    else Accepted
  }

  /** What encode accepts; it throws on anything else. */
  /** The whole protocol, byte by byte: the letters NIMB, version 1, a type, a sequence, and a body of at most
  a mebibyte; what is wrong first is what is reported. */
  lemma WireFormat(s: seq<byte>)
    requires |s| >= 16
    ensures var kind, sequence, length := Pair(s[6], s[7]), Quad(s[8], s[9], s[10], s[11]),
                                          Quad(s[12], s[13], s[14], s[15]);
            Decode(s) ==
            if s[..4] != [0x4E, 0x49, 0x4D, 0x42] then Invalid(InvalidMagic)
            else if s[4..6] != [0, 1] then Invalid(InvalidVersion)
            else if length > 1048576 then Invalid(BodyTooLarge)
            else if !IsValidMessageType(kind) then Invalid(InvalidMessageType)
            else if |s| < 16 + length then Incomplete
            else Ok(Packet(kind, sequence, s[16..16 + length]), 16 + length)
  {
    HeaderLayout(s);
    MagicBytes(s[0], s[1], s[2], s[3]);
    assert s[..4] == [s[0], s[1], s[2], s[3]] && s[4..6] == [s[4], s[5]];
  }

  lemma MagicBytes(a: byte, b: byte, c: byte, d: byte)
    ensures Quad(a, b, c, d) == PROTOCOL_MAGIC <==> [a, b, c, d] == [0x4E, 0x49, 0x4D, 0x42]
  {
    assert [a, b, c, d] == [0x4E, 0x49, 0x4D, 0x42] <==> a == 0x4E && b == 0x49 && c == 0x4D && d == 0x42;
  }

  predicate Encodable(p: Packet) {
    IsValidMessageType(p.kind) && |p.body| <= MAX_BODY_LENGTH
  }

  function HeaderOf(p: Packet): Header
    requires Encodable(p)
  {
    Header(PROTOCOL_MAGIC, PROTOCOL_VERSION, p.kind, p.sequenceId, |p.body|)
  }

  function Encode(p: Packet): (s: seq<byte>)
    requires Encodable(p)
    ensures |s| == HEADER_LENGTH + |p.body|
  {
    EncodeHeader(HeaderOf(p)) + p.body
  }

  /** One call of decode, on the readable bytes. */
  function Decode(s: seq<byte>): Result {
    if |s| < HEADER_LENGTH then Incomplete
    else
      var h := DecodeHeader(s);
      match ValidateHeader(h)
      case Rejected(error) => Invalid(error)
      case Accepted =>
        var used := HEADER_LENGTH + h.bodyLength;
        if |s| < used then Incomplete
        else Ok(Packet(h.kind, h.sequenceId, s[HEADER_LENGTH..used]), used)
  }

  lemma RoundTrip(p: Packet, rest: seq<byte>)
    requires Encodable(p)
    ensures Decode(Encode(p) + rest) == Ok(p, |Encode(p)|)
  {
    var s := Encode(p) + rest;
    assert s == EncodeHeader(HeaderOf(p)) + (p.body + rest);
    HeaderRoundTrip(HeaderOf(p), p.body + rest);
    assert s[HEADER_LENGTH..|Encode(p)|] == p.body;
  }

  /** Decode succeeds exactly on streams that begin with an encoded packet, and returns that one. */
  lemma DecodesOnlyEncodings(s: seq<byte>)
    ensures Decode(s).Ok? <==> exists p :: Encodable(p) && Encode(p) <= s
    ensures Decode(s).Ok? ==> var p := Decode(s).packet;
              Encodable(p) && Encode(p) == s[..Decode(s).used]
  {
    if Decode(s).Ok? {
      var p, used := Decode(s).packet, Decode(s).used;
      HeaderBytes(s);
      assert s[..used] == s[..HEADER_LENGTH] + s[HEADER_LENGTH..used];
      assert Encodable(p) && Encode(p) <= s;
    }
    if p :| Encodable(p) && Encode(p) <= s {
      assert s == Encode(p) + s[|Encode(p)|..];
      RoundTrip(p, s[|Encode(p)|..]);
    }
  }

  lemma StrictPrefixIncomplete(p: Packet, k: nat)
    requires Encodable(p) && k < |Encode(p)|
    ensures Decode(Encode(p)[..k]) == Incomplete
  {
    if k >= HEADER_LENGTH {
      var s := Encode(p)[..k];
      assert s == EncodeHeader(HeaderOf(p)) + s[HEADER_LENGTH..];
      HeaderRoundTrip(HeaderOf(p), s[HEADER_LENGTH..]);
    }
  }

  /** A verdict is not changed by the bytes that follow. */
  lemma VerdictStable(s: seq<byte>, t: seq<byte>)
    requires !Decode(s).Incomplete?
    ensures Decode(s + t) == Decode(s)
  {
    var u := s + t;
    assert u[0..4] == s[0..4] && u[4..6] == s[4..6] && u[6..8] == s[6..8] && u[8..12] == s[8..12] &&
           u[12..16] == s[12..16];
    if Decode(s).Ok? {
      assert u[HEADER_LENGTH..Decode(s).used] == s[HEADER_LENGTH..Decode(s).used];
    }
  }

  /** encode's result: bytes, or the exception it throws. */
  datatype Encoded = Encoded(bytes: seq<byte>) | InvalidArgument(what: string)

  /** PacketCodec::encode. What it returns is what decode gives back; it throws on everything else. */
  method EncodePacket(p: Packet) returns (r: Encoded)
    ensures r.Encoded? <==> Encodable(p)
    ensures r.Encoded? ==> r.bytes == Encode(p) && Decode(r.bytes) == Ok(p, |r.bytes|)
    ensures r.InvalidArgument? ==>
              r.what == if IsValidMessageType(p.kind) then "packet body too large" else "invalid message type"
  {
    if !IsValidMessageType(p.kind) {
      return InvalidArgument("invalid message type");
    }
    if |p.body| > MAX_BODY_LENGTH {
      return InvalidArgument("packet body too large");
    }
    var out := AppendBigEndian([], PROTOCOL_MAGIC, 4);
    out := AppendBigEndian(out, PROTOCOL_VERSION, 2);
    out := AppendBigEndian(out, p.kind, 2);
    out := AppendBigEndian(out, p.sequenceId, 4);
    out := AppendBigEndian(out, |p.body|, 4);
    assert out == EncodeHeader(HeaderOf(p));
    r := Encoded(out + p.body);
    RoundTrip(p, []);
    assert r.bytes + [] == r.bytes;
  }

  /** PacketCodec::decode on a buffer: consumes one packet, or everything when the header is bad. */
  method DecodeFrom(buffer: Buffer) returns (r: Result)
    requires buffer.Valid()
    modifies buffer
    ensures buffer.Valid() && buffer.data == old(buffer.data)
    ensures r == Decode(old(buffer.Contents()))
    ensures r.Incomplete? ==> buffer.Contents() == old(buffer.Contents())
    ensures r.Invalid? ==> buffer.Contents() == []
    ensures r.Ok? ==> buffer.Contents() == old(buffer.Contents())[r.used..]
  {
    var readable := buffer.ReadableBytes();
    if readable < HEADER_LENGTH {
      return Incomplete;
    }
    ghost var all := buffer.Contents();
    var bytes := buffer.Peek(HEADER_LENGTH);
    var header := DecodeHeader(bytes);
    SameHeader(all);
    var verdict := ValidateHeader(header);
    if verdict.Rejected? {
      buffer.RetrieveAll();
      return Invalid(verdict.error);
    }
    var length := HEADER_LENGTH + header.bodyLength;
    if readable < length {
      return Incomplete;
    }
    buffer.Retrieve(HEADER_LENGTH);
    var body := buffer.RetrieveAsString(header.bodyLength);
    r := Ok(Packet(header.kind, header.sequenceId, body), length);
  }

  lemma SameHeader(s: seq<byte>)
    requires |s| >= HEADER_LENGTH
    ensures DecodeHeader(s[..HEADER_LENGTH]) == DecodeHeader(s)
  {
    var u := s[..HEADER_LENGTH];
    assert u[0..4] == s[0..4] && u[4..6] == s[4..6] && u[6..8] == s[6..8] && u[8..12] == s[8..12] &&
           u[12..16] == s[12..16];
  }
}
