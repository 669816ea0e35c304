/** When a raw TCP stream is still in step after a refused packet has dropped what was buffered. */
module Resync {
  import opened Bytes
  import opened Streams
  import opened Transport
  import P = PacketCodec

  /** One turn of the decode loop takes one encoded packet off the stream, or none. */
  lemma FirstTurn(s: seq<byte>) returns (some: bool, p: P.Packet)
    requires Decode(TcpStep, s).Open?
    ensures some ==>
              && P.Encodable(p) && P.Encode(p) <= s
              && Decode(TcpStep, s) == After([Routed(p)], Decode(TcpStep, s[|P.Encode(p)|..]))
    ensures !some ==> Decode(TcpStep, s) == Open([], s)
  {
    some := TcpStep(s).Taken?;
    p := P.Packet(0, 0, []);
    if some {
      P.DecodesOnlyEncodings(s);
      p := P.Decode(s).packet;
    }
  }

  /** Whatever is decoded was encoded: the bytes consumed are the encodings of the packets routed. */
  lemma {:induction false} RoutedWereEncoded(s: seq<byte>) returns (ps: seq<P.Packet>)
    requires Decode(TcpStep, s).Open?
    ensures AllEncodable(ps) && Decode(TcpStep, s).outputs == RouteAll(ps)
    ensures s == EncodeAll(ps) + Decode(TcpStep, s).rest
    decreases |s|
  {
    var some, p := FirstTurn(s);
    if some {
      var w := P.Encode(p);
      var t := s[|w|..];
      var later := RoutedWereEncoded(t);
      ps := [p] + later;
      Prepend(p, later);
      Associate(w, EncodeAll(later), Decode(TcpStep, t).rest);
      assert s == w + t;
    } else {
      ps := [];
      NoPackets();
    }
  }

  lemma NoPackets()
    ensures AllEncodable([]) && EncodeAll([]) == [] && RouteAll([]) == []
  {
  }

  lemma Associate(a: seq<byte>, b: seq<byte>, c: seq<byte>)
    ensures a + (b + c) == (a + b) + c
  {
  }

  lemma Prepend(p: P.Packet, ps: seq<P.Packet>)
    requires P.Encodable(p) && AllEncodable(ps)
    ensures AllEncodable([p] + ps) && EncodeAll([p] + ps) == P.Encode(p) + EncodeAll(ps)
    ensures RouteAll([p] + ps) == [Routed(p)] + RouteAll(ps)
  {
    var all := [p] + ps;
    assert PacketWords(all)[1..] == PacketWords(ps) && PacketWords(all)[0] == P.Encode(p);
    assert RouteEach(all)[1..] == RouteEach(ps) && RouteEach(all)[0] == [Routed(p)];
  }

  lemma SplitStream(ps: seq<P.Packet>, m: nat)
    requires AllEncodable(ps) && m <= |ps|
    ensures EncodeAll(ps) == EncodeAll(ps[..m]) + EncodeAll(ps[m..])
  {
    ConcatJoin(PacketWords(ps[..m]), PacketWords(ps[m..]));
    assert PacketWords(ps) == PacketWords(ps[..m]) + PacketWords(ps[m..]);
  }

  /** From byte `k` on, the reader decodes the packets from the m-th on, all of them and nothing else, if
  and only if the first `k` bytes are exactly the packets before the m-th. So a refusal leaves the stream
  in step exactly when it drops whole packets. */
  lemma InStepIff(ps: seq<P.Packet>, k: nat, m: nat)
    requires AllEncodable(ps) && k <= |EncodeAll(ps)| && m <= |ps|
    ensures Decode(TcpStep, EncodeAll(ps)[k..]) == Open(RouteAll(ps[m..]), []) <==> k == |EncodeAll(ps[..m])|
  {
    var s := EncodeAll(ps)[k..];
    SplitStream(ps, m);
    if k == |EncodeAll(ps[..m])| {
      assert s == EncodeAll(ps[m..]);
      OneChunk(s);
      WholeStream(ps[m..], [s]);
    }
    if Decode(TcpStep, s) == Open(RouteAll(ps[m..]), []) {
      var qs := RoutedWereEncoded(s);
      RoutedOfRouteAll(qs);
      RoutedOfRouteAll(ps[m..]);
      assert s == EncodeAll(qs);
    }
  }

  lemma OneChunk(s: seq<byte>)
    ensures Concat([s]) == s && ArriveAll(TcpStep, [s]) == Decode(TcpStep, s)
  {
    TcpStable();
    assert [s][1..] == [];
    ChunkingIrrelevant(TcpStep, [s]);
  }
}
