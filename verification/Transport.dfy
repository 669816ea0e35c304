/** What the gateway makes of a raw TCP stream and of a WebSocket stream. */
module Transport {
  import opened Bytes
  import opened Streams
  import P = PacketCodec
  import W = WebSocketFrame

  datatype Output =
    | Routed(packet: P.Packet)
    | Pong(payload: seq<byte>)
    | CloseFrame(reason: string)
    | ErrorPacket(error: P.ProtocolError)
    | RateLimited(sequenceId: P.uint32)

  // ---------------------------------------------------------------- one step

  function TcpStep(s: seq<byte>): Step<Output> {
    match P.Decode(s)
    case Incomplete => More
    case Invalid(error) => Stop([ErrorPacket(error)])
    case Ok(packet, used) => Taken([Routed(packet)], used)
  }

  lemma TcpStable()
    ensures Stable(TcpStep) && TcpStep([]).More?
  {
    forall s: seq<byte>, t: seq<byte> | !TcpStep(s).More? ensures TcpStep(s + t) == TcpStep(s) {
      P.VerdictStable(s, t);
    }
  }

  /** A binary frame's packets; what is left of its payload is dropped. */
  ghost function FrameStep(op: W.opcode, payload: seq<byte>, used: nat): Step<Output> {
    if op == W.PING then Taken([Pong(payload)], used)
    else if op == W.PONG then Taken([], used)
    else if op == W.CLOSE then Stop([CloseFrame("")])
    else if op != W.BINARY then Stop([CloseFrame("binary frame required")])
    else
      match Decode(TcpStep, payload)
      case Open(outputs, _) => Taken(outputs, used)
      case Closed(outputs) => Stop(outputs)
  }

  ghost function WebSocketStep(s: seq<byte>): Step<Output> {
    match W.Decode(s, true)
    case Incomplete => More
    case ProtocolError => Stop([CloseFrame("protocol error")])
    case Ok(op, _, payload, used) => FrameStep(op, payload, used)
  }

  /** What each first byte of a complete client frame leads to, section 5.2 of RFC 6455. */
  lemma FrameAnswers(s: seq<byte>)
    requires W.Decode(s, true).Ok?
    ensures var frame := W.Decode(s, true);
            && s[0] in {0x81, 0x82, 0x88, 0x89, 0x8A}
            && (s[0] == 0x81 ==> WebSocketStep(s) == Stop([CloseFrame("binary frame required")]))
            && (s[0] == 0x88 ==> WebSocketStep(s) == Stop([CloseFrame("")]))
            && (s[0] == 0x89 ==> WebSocketStep(s) == Taken([Pong(frame.payload)], frame.used))
            && (s[0] == 0x8A ==> WebSocketStep(s) == Taken([], frame.used))
            && (s[0] == 0x82 && frame.payload == [] ==> WebSocketStep(s) == Taken([], frame.used))
            && (s[0] >= 0x88 ==> |frame.payload| <= 125)
  {
    W.FirstByte(s, true);
  }

  lemma WebSocketStable()
    ensures Stable(WebSocketStep) && WebSocketStep([]).More?
  {
    forall s: seq<byte> | WebSocketStep(s).Taken? ensures 0 < WebSocketStep(s).used <= |s| {
      W.UsedBounds(s, true);
    }
    forall s: seq<byte>, t: seq<byte> | !WebSocketStep(s).More? ensures WebSocketStep(s + t) == WebSocketStep(s) {
      W.VerdictStable(s, t, true);
    }
  }

  // ---------------------------------------------------------------- packets over TCP

  ghost predicate AllEncodable(ps: seq<P.Packet>) {
    forall p :: p in ps ==> P.Encodable(p)
  }

  ghost function PacketWords(ps: seq<P.Packet>): (ws: seq<seq<byte>>)
    requires AllEncodable(ps)
  {
    seq(|ps|, i requires 0 <= i < |ps| => P.Encode(ps[i]))
  }

  /** The stream a sender of these packets writes. */
  ghost function EncodeAll(ps: seq<P.Packet>): seq<byte>
    requires AllEncodable(ps)
  {
    Concat(PacketWords(ps))
  }

  function RouteEach(ps: seq<P.Packet>): seq<seq<Output>> {
    seq(|ps|, i requires 0 <= i < |ps| => [Routed(ps[i])])
  }

  /** Each packet routed once, in order. */
  function RouteAll(ps: seq<P.Packet>): seq<Output> {
    Concat(RouteEach(ps))
  }

  lemma PacketIsWord(p: P.Packet)
    requires P.Encodable(p)
    ensures Word(TcpStep, P.Encode(p)) && TcpStep(P.Encode(p)).outputs == [Routed(p)]
  {
    var w := P.Encode(p);
    P.RoundTrip(p, []);
    assert w + [] == w;
    forall k | 0 <= k < |w| ensures TcpStep(w[..k]).More? {
      P.StrictPrefixIncomplete(p, k);
    }
  }

  lemma PacketsAreWords(ps: seq<P.Packet>)
    requires AllEncodable(ps)
    ensures Words(TcpStep, PacketWords(ps))
  {
    forall w | w in PacketWords(ps) ensures Word(TcpStep, w) {
      var i :| 0 <= i < |ps| && w == PacketWords(ps)[i];
      PacketIsWord(ps[i]);
    }
  }

  lemma PacketOutputs(ps: seq<P.Packet>)
    requires AllEncodable(ps)
    ensures Words(TcpStep, PacketWords(ps)) && WordOutputs(TcpStep, PacketWords(ps)) == RouteAll(ps)
  {
    PacketsAreWords(ps);
    forall i | 0 <= i < |ps| ensures TcpStep(PacketWords(ps)[i]) == Taken(RouteEach(ps)[i], |PacketWords(ps)[i]|) {
      PacketIsWord(ps[i]);
    }
    WordOutputsAre(TcpStep, PacketWords(ps), RouteEach(ps));
  }

  /** A receiver that has read any part of an encoded stream, in any chunks, has decoded exactly the
  first `n` packets, those that are complete, in order, and holds the beginning of the next one. */
  lemma EndToEnd(ps: seq<P.Packet>, chunks: seq<seq<byte>>) returns (n: nat, rest: seq<byte>)
    requires AllEncodable(ps) && Concat(chunks) <= EncodeAll(ps)
    ensures n <= |ps|
    ensures ArriveAll(TcpStep, chunks) == Open(RouteAll(ps[..n]), rest)
    ensures Concat(chunks) == EncodeAll(ps[..n]) + rest
    ensures if n < |ps| then rest < P.Encode(ps[n]) else rest == []
  {
    TcpStable();
    PacketsAreWords(ps);
    PartOfStream(TcpStep, PacketWords(ps), chunks);
    n := Complete(PacketWords(ps), |Concat(chunks)|);
    rest := RestOfStream(PacketWords(ps), Concat(chunks), n);
    assert PacketWords(ps)[..n] == PacketWords(ps[..n]);
    PacketOutputs(ps[..n]);
  }

  /** Everything sent has been read: every packet is decoded and nothing is left over. */
  lemma WholeStream(ps: seq<P.Packet>, chunks: seq<seq<byte>>)
    requires AllEncodable(ps) && Concat(chunks) == EncodeAll(ps)
    ensures ArriveAll(TcpStep, chunks) == Open(RouteAll(ps), [])
  {
    TcpStable();
    PacketOutputs(ps);
    WholeWords(TcpStep, PacketWords(ps), chunks);
  }

  // ---------------------------------------------------------------- packets over WebSocket

  /** What a well-behaved client sends: binary frames of whole packets, pings and pongs. */
  datatype ClientFrame =
    | Data(packets: seq<P.Packet>, key: seq<byte>)
    | PingFrame(payload: seq<byte>, key: seq<byte>)
    | PongFrame(payload: seq<byte>, key: seq<byte>)

  ghost predicate ValidFrame(f: ClientFrame) {
    && |f.key| == 4
    && match f
       case Data(packets, _) => AllEncodable(packets) && |EncodeAll(packets)| < UINT64_RANGE / 2
       case PingFrame(payload, _) => |payload| <= 125
       case PongFrame(payload, _) => |payload| <= 125
  }

  ghost predicate ValidFrames(fs: seq<ClientFrame>) {
    forall f :: f in fs ==> ValidFrame(f)
  }

  function OpOf(f: ClientFrame): W.opcode {
    match f
    case Data(_, _) => W.BINARY
    case PingFrame(_, _) => W.PING
    case PongFrame(_, _) => W.PONG
  }

  ghost function PayloadOf(f: ClientFrame): seq<byte>
    requires ValidFrame(f)
  {
    match f
    case Data(packets, _) => EncodeAll(packets)
    case PingFrame(payload, _) => payload
    case PongFrame(payload, _) => payload
  }

  ghost function FrameBytes(f: ClientFrame): seq<byte>
    requires ValidFrame(f)
  {
    W.Encode(OpOf(f), PayloadOf(f), W.Masked(f.key))
  }

  ghost function FrameWords(fs: seq<ClientFrame>): seq<seq<byte>>
    requires ValidFrames(fs)
  {
    seq(|fs|, i requires 0 <= i < |fs| => FrameBytes(fs[i]))
  }

  function Packets(fs: seq<ClientFrame>): seq<P.Packet> {
    if fs == [] then [] else (if fs[0].Data? then fs[0].packets else []) + Packets(fs[1..])
  }

  lemma {:induction false} PacketsEncodable(fs: seq<ClientFrame>)
    requires ValidFrames(fs)
    ensures AllEncodable(Packets(fs))
  {
    if fs != [] {
      assert ValidFrame(fs[0]);
      PacketsEncodable(fs[1..]);
    }
  }

  function FrameOutputs(f: ClientFrame): seq<Output> {
    match f
    case Data(packets, _) => RouteAll(packets)
    case PingFrame(payload, _) => [Pong(payload)]
    case PongFrame(_, _) => []
  }

  function ServeEach(fs: seq<ClientFrame>): seq<seq<Output>> {
    seq(|fs|, i requires 0 <= i < |fs| => FrameOutputs(fs[i]))
  }

  /** Each frame's packets routed and each ping answered, in the order sent. */
  function Served(fs: seq<ClientFrame>): seq<Output> {
    Concat(ServeEach(fs))
  }

  lemma FrameIsWord(f: ClientFrame)
    requires ValidFrame(f)
    ensures Word(WebSocketStep, FrameBytes(f)) && WebSocketStep(FrameBytes(f)).outputs == FrameOutputs(f)
  {
    var w := FrameBytes(f);
    W.RoundTrip(OpOf(f), PayloadOf(f), W.Masked(f.key), true, []);
    assert w + [] == w;
    forall k | 0 <= k < |w| ensures WebSocketStep(w[..k]).More? {
      W.StrictPrefixIncomplete(OpOf(f), PayloadOf(f), W.Masked(f.key), true, k);
    }
    if f.Data? {
      TcpStable();
      PacketOutputs(f.packets);
      DecodeWords(TcpStep, PacketWords(f.packets), []);
      assert PayloadOf(f) + [] == PayloadOf(f);
    }
  }

  lemma FramesAreWords(fs: seq<ClientFrame>)
    requires ValidFrames(fs)
    ensures Words(WebSocketStep, FrameWords(fs)) && WordOutputs(WebSocketStep, FrameWords(fs)) == Served(fs)
  {
    forall i | 0 <= i < |fs|
      ensures Word(WebSocketStep, FrameWords(fs)[i])
      ensures WebSocketStep(FrameWords(fs)[i]) == Taken(ServeEach(fs)[i], |FrameWords(fs)[i]|)
    {
      FrameIsWord(fs[i]);
    }
    WordOutputsAre(WebSocketStep, FrameWords(fs), ServeEach(fs));
  }

  /** The packets handed to the router. */
  ghost function RoutedPackets(outputs: seq<Output>): seq<P.Packet> {
    if outputs == [] then []
    else (if outputs[0].Routed? then [outputs[0].packet] else []) + RoutedPackets(outputs[1..])
  }

  lemma {:induction false} RoutedJoin(a: seq<Output>, b: seq<Output>)
    ensures RoutedPackets(a + b) == RoutedPackets(a) + RoutedPackets(b)
  {
    if a == [] {
      assert a + b == b;
    } else {
      assert (a + b)[1..] == a[1..] + b;
      RoutedJoin(a[1..], b);
    }
  }

  lemma {:induction false} RoutedOfRouteAll(ps: seq<P.Packet>)
    ensures RoutedPackets(RouteAll(ps)) == ps
  {
    if ps != [] {
      assert RouteEach(ps)[1..] == RouteEach(ps[1..]);
      RoutedOfRouteAll(ps[1..]);
    }
  }

  lemma {:induction false} ServedPackets(fs: seq<ClientFrame>)
    ensures RoutedPackets(Served(fs)) == Packets(fs)
  {
    if fs != [] {
      assert ServeEach(fs)[1..] == ServeEach(fs[1..]);
      RoutedJoin(FrameOutputs(fs[0]), Served(fs[1..]));
      ServedPackets(fs[1..]);
      if fs[0].Data? { RoutedOfRouteAll(fs[0].packets); }
    }
  }

  lemma WholeFrames(fs: seq<ClientFrame>, chunks: seq<seq<byte>>)
    requires ValidFrames(fs) && Concat(chunks) == Concat(FrameWords(fs))
    ensures ArriveAll(WebSocketStep, chunks) == Open(Served(fs), [])
  {
    WebSocketStable();
    FramesAreWords(fs);
    WholeWords(WebSocketStep, FrameWords(fs), chunks);
  }

  /** The same packets as a raw stream. */
  ghost function RawStream(fs: seq<ClientFrame>): seq<byte>
    requires ValidFrames(fs)
  {
    PacketsEncodable(fs);
    EncodeAll(Packets(fs))
  }

  /** Frames of whole packets with pings and pongs among them, cut into any chunks, hand the router
  the same packets as the raw stream of those packets cut into any chunks; every ping is answered. */
  lemma TransportEquivalence(fs: seq<ClientFrame>, wsChunks: seq<seq<byte>>, tcpChunks: seq<seq<byte>>)
    requires ValidFrames(fs) && Concat(wsChunks) == Concat(FrameWords(fs)) && Concat(tcpChunks) == RawStream(fs)
    ensures ArriveAll(WebSocketStep, wsChunks) == Open(Served(fs), [])
    ensures ArriveAll(TcpStep, tcpChunks) == Open(RouteAll(Packets(fs)), [])
    ensures RoutedPackets(Served(fs)) == RoutedPackets(RouteAll(Packets(fs))) == Packets(fs)
  {
    WholeFrames(fs, wsChunks);
    PacketsEncodable(fs);
    WholeStream(Packets(fs), tcpChunks);
    ServedPackets(fs);
    RoutedOfRouteAll(Packets(fs));
  }
}
