/** A connection's input as the gateway handles it, read by read. */
module GatewaySession {
  import opened Bytes
  import opened Buffers
  import opened Streams
  import opened Transport
  import opened Gateway
  import P = PacketCodec

  const MAX_HANDSHAKE: nat := 8192
  const GET: seq<byte> := [0x47, 0x45, 0x54, 0x20]
  const HEADER_END: seq<byte> := [13, 10, 13, 10]

  predicate StartsWithGet(s: seq<byte>) {
    GET <= s
  }

  /** An empty line: CR LF CR LF. */
  predicate EmptyLineAt(s: seq<byte>, i: int) {
    0 <= i <= |s| - 4 && s[i] == 13 && s[i + 1] == 10 && s[i + 2] == 13 && s[i + 3] == 10
  }

  predicate FirstHeaderEnd(s: seq<byte>, pos: nat) {
    EmptyLineAt(s, pos) && forall i :: 0 <= i < pos ==> !EmptyLineAt(s, i)
  }

  predicate NoHeaderEnd(s: seq<byte>) {
    forall i :: 0 <= i <= |s| ==> !EmptyLineAt(s, i)
  }

  /** The first place where a request header ends, as std::string::find reports it. */
  method FindHeaderEnd(s: seq<byte>) returns (found: bool, pos: nat)
    ensures found ==> FirstHeaderEnd(s, pos)
    ensures found <==> !NoHeaderEnd(s)
  {
    pos := 0;
    while pos + 4 <= |s|
      invariant 0 <= pos <= |s|
      invariant forall i :: 0 <= i < pos ==> !EmptyLineAt(s, i)
    {
      assert s[pos..pos + 4] == [s[pos], s[pos + 1], s[pos + 2], s[pos + 3]];
      if s[pos..pos + 4] == HEADER_END {
        return true, pos;
      }
      pos := pos + 1;
    }
    found := false;
  }

  /** What the WebSocket handshake does to the input: wait, give up, or go on behind the header. */
  datatype Handshake = Waiting | TooLarge | Answered

  /** Decoding the chunks gives these outputs and leaves these bytes. */
  ghost predicate InStep(step: seq<byte> -> Step<Output>, chunks: seq<seq<byte>>, before: seq<Output>,
                         outputs: seq<Output>,
                         rest: seq<byte>)
  {
    var d := ArriveAll(step, chunks);
    d.Open? && outputs == before + d.outputs && rest == d.rest
  }

  ghost predicate Ended(step: seq<byte> -> Step<Output>, chunks: seq<seq<byte>>, before: seq<Output>,
                        outputs: seq<Output>)
  {
    var d := ArriveAll(step, chunks);
    d.Closed? && outputs == before + d.outputs
  }

  /** Whatever was refused before, this is what decoding the buffered bytes adds to the outputs: the
  unlimited outputs cut at the first refusal, and a close exactly if it gets as far as a bad stream. */
  ghost predicate Answers(step: seq<byte> -> Step<Output>, all: seq<byte>, grants: nat, was: seq<Output>,
                          outputs: seq<Output>,
                         closed: bool)
  {
    var d := Decode(step, all);
    outputs == was + Cut(d.outputs, grants) && (closed <==> d.Closed? && Routes(d.outputs) <= grants)
  }

  lemma NothingCut(step: seq<byte> -> Step<Output>, all: seq<byte>, grants: nat, more: seq<Output>, status: Status,
                   left: seq<byte>)
    requires Finished(step, all, grants, more, status, left) && !status.Refused?
    ensures Decode(step, all) == if status.Drained? then Open(more, left) else Closed(more)
  {
    CutNothing(Decode(step, all).outputs, grants);
  }

  lemma Associate(a: seq<Output>, b: seq<Output>, c: seq<Output>)
    ensures a + (b + c) == (a + b) + c
  {
  }

  lemma Continue(step: seq<byte> -> Step<Output>, chunks: seq<seq<byte>>, before: seq<Output>, outputs: seq<Output>,
                 rest: seq<byte>, chunk: seq<byte>, grants: nat, more: seq<Output>, status: Status, left: seq<byte>)
    requires InStep(step, chunks, before, outputs, rest)
    requires Finished(step, rest + chunk, grants, more, status, left) && !status.Refused?
    ensures status.Drained? ==> InStep(step, chunks + [chunk], before, outputs + more, left)
    ensures status.Failed? ==> Ended(step, chunks + [chunk], before, outputs + more)
  {
    NothingCut(step, rest + chunk, grants, more, status, left);
    ArriveOne(step, chunks, chunk);
    Associate(before, ArriveAll(step, chunks).outputs, more);
  }

  class Session {
    const input: Buffer
    var websocket: bool
    var closed: bool
    var outputs: seq<Output>
    /** What was read since the connection took its present form, and what was output before. */
    ghost var chunks: seq<seq<byte>>
    ghost var before: seq<Output>
    /** Some packet has been refused; the stream was found bad. */
    ghost var limited: bool
    ghost var failed: bool

    ghost function Step(): seq<byte> -> Step<Output>
      reads this
    {
      if websocket then WebSocketStep else TcpStep
    }

    ghost predicate Upgrading()
      requires input.Valid()
      reads this, input, input.data
    {
      !websocket && StartsWithGet(input.Contents())
    }

    /** While no packet was refused, the outputs, the buffer and the verdict are those of everything
    read so far, decoded at once. */
    ghost predicate Valid()
      reads this, input, input.data
    {
      && input.Valid() && (failed ==> closed)
      && (!closed && !limited && !Upgrading() ==> InStep(Step(), chunks, before, outputs, input.Contents()))
      && (!limited && failed ==> Ended(Step(), chunks, before, outputs))
    }

    constructor ()
      ensures Valid() && !websocket && !closed && !limited && outputs == [] && chunks == [] && before == []
      ensures fresh(input) && fresh(input.data)
    {
      input := new Buffer();
      websocket, closed, limited, failed := false, false, false, false;
      outputs, before, chunks := [], [], [];
    }

    /** handleRead and onMessage: `chunk` arrives, the limiter grants `grants` packets, and a complete
    handshake request is accepted or not. */
    method HandleRead(chunk: seq<byte>, grants: nat, acceptable: bool)
      requires Valid() && !closed
      requires |chunk| <= input.data.Length - input.writer
                        + (if input.data.Length - input.writer < EXTRA_SIZE then EXTRA_SIZE else 0)
      modifies this, input, input.data
      ensures Valid() && (input.data == old(input.data) || fresh(input.data))
      ensures old(websocket) ==> websocket && chunks == old(chunks) + [chunk] && before == old(before)
      ensures !old(websocket) && !StartsWithGet(old(input.Contents()) + chunk) ==>
                !websocket && chunks == old(chunks) + [chunk] && before == old(before)
      ensures old(websocket) || !StartsWithGet(old(input.Contents()) + chunk) ==>
                Answers(Step(), old(input.Contents()) + chunk, grants, old(outputs), outputs, closed)
    {
      ghost var rest := input.Contents();
      input.ReadFd(chunk, false);
      var isGet := LooksLikeGet();
      if !websocket && isGet {
        var r := TryHandshake(acceptable);
        if r.Answered? && acceptable {
          DecodeInput(grants, input.Contents(), []);
        }
      } else {
        DecodeInput(grants, chunk, rest);
      }
    }

    method LooksLikeGet() returns (b: bool)
      requires input.Valid()
      ensures b == StartsWithGet(input.Contents())
    {
      var readable := input.ReadableBytes();
      if readable < 4 { return false; }
      var front := input.Peek(4);
      b := front == GET;
    }

    method RunLoop(grants: nat) returns (more: seq<Output>, status: Status)
      requires input.Valid()
      modifies input
      ensures input.Valid() && input.data == old(input.data)
      ensures Finished(Step(), old(input.Contents()), grants, more, status, input.Contents())
    {
      if websocket {
        more, status := OnWebSocketMessage(input, grants);
      } else {
        more, status := OnTcpMessage(input, grants);
      }
    }

    /** The decode loop of the connection's form, on what is buffered. */
    method DecodeInput(grants: nat, ghost chunk: seq<byte>, ghost rest: seq<byte>)
      requires input.Valid() && !closed && !failed && !Upgrading() && input.Contents() == rest + chunk
      requires limited || InStep(Step(), chunks, before, outputs, rest)
      modifies this, input
      ensures Valid() && input.data == old(input.data)
      ensures websocket == old(websocket) && before == old(before) && chunks == old(chunks) + [chunk]
      ensures Answers(Step(), rest + chunk, grants, old(outputs), outputs, closed)
    {
      var more, status := RunLoop(grants);
      if !limited && !status.Refused? {
        Continue(Step(), chunks, before, outputs, rest, chunk, grants, more, status, input.Contents());
      }
      chunks := chunks + [chunk];
      outputs := outputs + more;
      closed, failed := status.Failed?, status.Failed?;
      limited := limited || status.Refused?;
    }

    /** tryHandleWebSocketHandshake; whether the request is acceptable is an input. */
    method TryHandshake(acceptable: bool) returns (r: Handshake)
      requires input.Valid() && !closed && !failed && Upgrading()
      modifies this, input
      ensures input.Valid() && input.data == old(input.data) && outputs == old(outputs) && limited == old(limited) &&
              !failed
      ensures r.Waiting? ==> input.Contents() == old(input.Contents()) && !websocket && !closed
      ensures r.Waiting? <==> NoHeaderEnd(old(input.Contents())) && |old(input.Contents())| <= 8192
      ensures r.TooLarge? <==> NoHeaderEnd(old(input.Contents())) && |old(input.Contents())| > 8192
      ensures r.TooLarge? ==> closed && input.Contents() == old(input.Contents())
      ensures r.Answered? ==> exists pos: nat ::
                FirstHeaderEnd(old(input.Contents()), pos) && input.Contents() == old(input.Contents())[pos + 4..]
      ensures r.Answered? ==> closed == !acceptable
      ensures r.Answered? && acceptable ==> websocket && chunks == [] && before == outputs
    {
      var readable := input.ReadableBytes();
      var request := input.Peek(readable);
      assert request == input.Contents();
      var found, pos := FindHeaderEnd(request);
      if !found {
        if readable > MAX_HANDSHAKE {
          closed := true;
          return TooLarge;
        }
        return Waiting;
      }
      input.Retrieve(pos + 4);
      r := Answered;
      if acceptable {
        websocket := true;
        chunks, before := [], outputs;
      } else {
        closed := true;
      }
    }
  }

  /** Nothing a sender of packets writes is mistaken for a WebSocket handshake. */
  lemma NeverLooksLikeGet(ps: seq<P.Packet>, chunks: seq<seq<byte>>, next: seq<byte>)
    requires AllEncodable(ps) && Concat(chunks) + next <= EncodeAll(ps)
    ensures var d := ArriveAll(TcpStep, chunks); d.Open? && !StartsWithGet(d.rest + next)
  {
    assert Concat(chunks) <= Concat(chunks) + next;
    var n, rest := EndToEnd(ps, chunks);
    NextBytes(ps, n, Concat(chunks), rest, next);
  }

  lemma NextBytes(ps: seq<P.Packet>, n: nat, read: seq<byte>, rest: seq<byte>, next: seq<byte>)
    requires AllEncodable(ps) && n <= |ps| && read == EncodeAll(ps[..n]) + rest && read + next <= EncodeAll(ps)
    ensures !StartsWithGet(rest + next)
  {
    assert PacketWords(ps)[..n] == PacketWords(ps[..n]);
    assert read + next == EncodeAll(ps[..n]) + (rest + next);
    BehindPrefix(PacketWords(ps), n, rest + next);
    if rest + next != [] { FirstByte(ps[n]); }
  }

  lemma BehindPrefix(words: seq<seq<byte>>, n: nat, tail: seq<byte>)
    requires n <= |words| && Concat(words[..n]) + tail <= Concat(words)
    requires n < |words| ==> words[n] != []
    ensures tail != [] ==> n < |words| && tail[0] == words[n][0]
  {
    ConcatJoin(words[..n], words[n..]);
    assert words == words[..n] + words[n..];
    var all, front, later := Concat(words), Concat(words[..n]), Concat(words[n..]);
    assert all == front + later;
    if tail != [] {
      assert tail[0] == (front + tail)[|front|] == all[|front|] == later[0];
    }
  }

  lemma FirstByte(p: P.Packet)
    requires P.Encodable(p)
    ensures P.Encode(p)[0] == 0x4E
  {
    var m := P.PROTOCOL_MAGIC;
    assert BigEndian(m, 4) == BigEndian(m / 256, 3) + [m % 256];
    assert BigEndian(m / 256, 3) == BigEndian(m / 256 / 256, 2) + [m / 256 % 256];
    assert BigEndian(m / 256 / 256, 2) == BigEndian(m / 256 / 256 / 256, 1) + [m / 256 / 256 % 256];
    assert BigEndian(m / 256 / 256 / 256, 1) == [0x4E];
  }
}
