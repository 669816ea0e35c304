/** What a refused packet does to the raw stream behind it. */
module Refusal {
  import opened Bytes
  import opened Buffers
  import opened Streams
  import opened Transport
  import opened Gateway
  import opened Resync
  import P = PacketCodec

  lemma RouteAllRoutes(ps: seq<P.Packet>)
    ensures Routes(RouteAll(ps)) == |ps|
  {
    RoutedOfRouteAll(ps);
  }

  /** The continuation, under a limiter that grants enough. */
  lemma ResumesIff(ps: seq<P.Packet>, k: nat, m: nat, grants: nat, outputs: seq<Output>, status: Status,
                   left: seq<byte>)
    requires AllEncodable(ps) && k <= |EncodeAll(ps)| && m <= |ps| <= grants
    requires Finished(TcpStep, EncodeAll(ps)[k..], grants, outputs, status, left)
    ensures outputs == RouteAll(ps[m..]) && status.Drained? && left == [] <==> k == |EncodeAll(ps[..m])|
  {
    var d := Decode(TcpStep, EncodeAll(ps)[k..]);
    InStepIff(ps, k, m);
    RouteAllRoutes(ps[m..]);
    if Routes(d.outputs) <= grants { CutNothing(d.outputs, grants); }
  }

  method ReadRest(buffer: Buffer, rest: seq<byte>, grants: nat) returns (outputs: seq<Output>, status: Status)
    requires buffer.Valid() && buffer.Contents() == []
    modifies buffer, buffer.data
    ensures buffer.Valid() && Finished(TcpStep, rest, grants, outputs, status, buffer.Contents())
  {
    buffer.Append(rest);
    assert buffer.Contents() == rest;
    outputs, status := OnTcpMessage(buffer, grants);
  }

  lemma RestOfAll(read: seq<byte>, rest: seq<byte>)
    ensures (read + rest)[|read|..] == rest
  {
  }

  /** A refused read followed by the rest of the stream. The refused call drops every byte read so far, so
  what comes next is routed as the packets from the m-th on, all of them and nothing else, if and only if
  the bytes read up to the refusal are exactly the packets before the m-th. */
  method ReadOnAfterRefusal(buffer: Buffer, grants: nat, rest: seq<byte>, more: nat, ghost ps: seq<P.Packet>,
                            ghost m: nat)
    returns (refused: seq<Output>, outputs: seq<Output>, status: Status)
    requires buffer.Valid() && AllEncodable(ps) && buffer.written + rest == EncodeAll(ps) && m <= |ps| <= more
    requires Routes(Decode(TcpStep, buffer.Contents()).outputs) > grants
    modifies buffer, buffer.data
    ensures buffer.Valid() && refused == Cut(Decode(TcpStep, old(buffer.Contents())).outputs, grants)
    ensures outputs == RouteAll(ps[m..]) && status.Drained? && buffer.Contents() == [] <==>
            |old(buffer.written)| == |EncodeAll(ps[..m])|
  {
    ghost var read := buffer.written;
    refused, status := OnTcpMessage(buffer, grants);
    outputs, status := ReadRest(buffer, rest, more);
    RestOfAll(read, rest);
    ResumesIff(ps, |read|, m, more, outputs, status, buffer.Contents());
  }

  // ---------------------------------------------------------------- a stream thrown out of step

  lemma MagicBytes()
    ensures BigEndian(P.PROTOCOL_MAGIC, 4) == [0x4E, 0x49, 0x4D, 0x42] && BigEndian(P.PROTOCOL_VERSION, 2) == [0, 1]
  {
    assert BigEndian(0x4E, 1) == BigEndian(0, 0) + [0x4E];
    assert BigEndian(0x4E49, 2) == [0x4E, 0x49];
    assert BigEndian(0x4E494D, 3) == [0x4E, 0x49, 0x4D];
    assert BigEndian(0, 1) == [0];
  }

  lemma ShiftedMagic(s: seq<byte>)
    requires |s| == 4 && s == [0x49, 0x4D, 0x42, 0]
    ensures Value(s) == 0x494D4200
  {
    assert s[..3] == [0x49, 0x4D, 0x42];
    assert s[..3][..2] == [0x49, 0x4D];
    assert [0x49, 0x4D][..1] == [0x49];
    assert Value([0x49]) == 0x49;
    assert Value([0x49, 0x4D]) == 0x494D;
    assert Value([0x49, 0x4D, 0x42]) == 0x494D42;
  }

  /** A reader that has lost the first byte of a packet takes what follows for a bad header. */
  lemma OneByteLost(p: P.Packet, rest: seq<byte>)
    requires P.Encodable(p) && rest != []
    ensures Decode(TcpStep, P.Encode(p)[1..] + rest) == Closed([ErrorPacket(P.InvalidMagic)])
  {
    var s, w := P.Encode(p)[1..] + rest, P.Encode(p);
    MagicBytes();
    assert w[0..4] == BigEndian(P.PROTOCOL_MAGIC, 4) && w[4..6] == BigEndian(P.PROTOCOL_VERSION, 2);
    assert w[1] == 0x49 && w[2] == 0x4D && w[3] == 0x42 && w[4] == w[4..6][0] == 0;
    assert s[0..4] == [0x49, 0x4D, 0x42, 0];
    ShiftedMagic(s[0..4]);
    assert P.DecodeHeader(s).magic == 0x494D4200;
  }

  lemma ThreePings(p: P.Packet)
    requires P.Encodable(p)
    ensures AllEncodable([p, p, p]) && EncodeAll([p, p, p]) == P.Encode(p) + (P.Encode(p) + P.Encode(p))
  {
    NoPackets();
    assert [p, p, p] == [p] + ([p] + ([p] + []));
    Prepend(p, []);
    Prepend(p, [p] + []);
    Prepend(p, [p] + ([p] + []));
    assert P.Encode(p) + [] == P.Encode(p);
  }

  /** One packet and the first byte of the next are buffered when the limiter refuses: it drops both, and
  the two packets behind are not routed; their bytes are reported as a bad header. */
  lemma OutOfStep()
    ensures var p := P.Packet(1101, 0, []);
            && AllEncodable([p, p, p]) && |EncodeAll([p, p, p])| == 48
            && Routes(Decode(TcpStep, EncodeAll([p, p, p])[..17]).outputs) > 0
            && Decode(TcpStep, EncodeAll([p, p, p])[17..]) == Closed([ErrorPacket(P.InvalidMagic)])
  {
    var p := P.Packet(1101, 0, []);
    var w := P.Encode(p);
    ThreePings(p);
    var s := EncodeAll([p, p, p]);
    assert s[..17] == w + w[..1] && s[17..] == w[1..] + w;
    OneByteLost(p, w);
    P.RoundTrip(p, w[..1]);
    RoutesJoin([Routed(p)], Decode(TcpStep, s[..17][16..]).outputs);
    RoutesOne(Routed(p));
  }
}
