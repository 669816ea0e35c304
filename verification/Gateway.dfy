/** The gateway's decode loops over a connection's input buffer. */
module Gateway {
  import opened Bytes
  import opened Buffers
  import opened Streams
  import opened Transport
  import P = PacketCodec
  import W = WebSocketFrame

  // ---------------------------------------------------------------- the rate limiter's effect

  ghost function Routes(outputs: seq<Output>): nat {
    |RoutedPackets(outputs)|
  }

  /** What is output when the limiter grants `grants` packets and then refuses one. */
  ghost function Cut(outputs: seq<Output>, grants: nat): seq<Output> {
    if outputs == [] then []
    else if outputs[0].Routed? then
      if grants == 0 then [RateLimited(outputs[0].packet.sequenceId)] else [outputs[0]] + Cut(outputs[1..], grants - 1)
    else [outputs[0]] + Cut(outputs[1..], grants)
  }

  lemma {:induction false} CutJoin(a: seq<Output>, b: seq<Output>, grants: nat)
    requires Routes(a) <= grants
    ensures Cut(a + b, grants) == a + Cut(b, grants - Routes(a))
  {
    if a == [] {
      assert a + b == b && a + Cut(b, grants) == Cut(b, grants);
    } else {
      assert (a + b)[1..] == a[1..] + b;
      CutJoin(a[1..], b, if a[0].Routed? then grants - 1 else grants);
    }
  }

  lemma {:induction false} CutEarly(a: seq<Output>, b: seq<Output>, grants: nat)
    requires Routes(a) > grants
    ensures Cut(a + b, grants) == Cut(a, grants)
  {
    assert (a + b)[0] == a[0] && (a + b)[1..] == a[1..] + b;
    if !a[0].Routed? { CutEarly(a[1..], b, grants); }
    else if grants > 0 { CutEarly(a[1..], b, grants - 1); }
  }

  /** A limiter that grants enough changes nothing. */
  lemma CutNothing(a: seq<Output>, grants: nat)
    requires Routes(a) <= grants
    ensures Cut(a, grants) == a
  {
    CutJoin(a, [], grants);
    assert a + [] == a;
  }

  lemma RoutesJoin(a: seq<Output>, b: seq<Output>)
    ensures Routes(a + b) == Routes(a) + Routes(b)
  {
    RoutedJoin(a, b);
  }

  lemma RoutesOne(o: Output)
    ensures Routes([o]) == if o.Routed? then 1 else 0
  {
    assert RoutedPackets([o]) == (if o.Routed? then [o.packet] else []) + RoutedPackets([]);
  }

  // ---------------------------------------------------------------- the loops

  datatype Status = Drained | Refused | Failed

  /** The outcome of a decode loop, given what unlimited decoding of the same bytes would do. */
  ghost predicate Outcome(d: Decoded<Output>, grants: nat, outputs: seq<Output>, status: Status) {
    && outputs == Cut(d.outputs, grants)
    && (status.Refused? <==> Routes(d.outputs) > grants)
    && (status.Failed? ==> d.Closed?)
    && (status.Drained? ==> d.Open?)
  }

  /** After some outputs within the grants, the rest decides. */
  lemma OutcomeAfter(done: seq<Output>, d: Decoded<Output>, grants: nat, outputs: seq<Output>, status: Status)
    requires Routes(done) <= grants && Outcome(d, grants - Routes(done), outputs, status)
    ensures Outcome(After(done, d), grants, done + outputs, status)
  {
    CutJoin(done, d.outputs, grants);
    RoutesJoin(done, d.outputs);
  }

  /** The decode loop has come from `all` to `now`, with `outputs` on the way. */
  ghost predicate Reached(step: seq<byte> -> Step<Output>, all: seq<byte>, outputs: seq<Output>, now: seq<byte>)
  {
    Decode(step, all) == After(outputs, Decode(step, now))
  }

  lemma ReachedStart(step: seq<byte> -> Step<Output>, all: seq<byte>)
    ensures Reached(step, all, [], all)
  {
    assert [] + Decode(step, all).outputs == Decode(step, all).outputs;
  }

  /** The end of a decode loop, in one place. */
  ghost predicate Finished(step: seq<byte> -> Step<Output>, all: seq<byte>, grants: nat, outputs: seq<Output>,
                           status: Status,
                           left: seq<byte>)
  {
    && Outcome(Decode(step, all), grants, outputs, status)
    && (status.Drained? ==> left == Decode(step, all).rest)
  }

  /** A decode loop under way. */
  ghost predicate Running(step: seq<byte> -> Step<Output>, all: seq<byte>, grants: nat, outputs: seq<Output>,
                          now: seq<byte>)
  {
    Reached(step, all, outputs, now) && Routes(outputs) <= grants
  }

  lemma Finish(step: seq<byte> -> Step<Output>, all: seq<byte>, outputs: seq<Output>, now: seq<byte>, grants: nat,
               last: seq<Output>, status: Status, left: seq<byte>)
    requires Running(step, all, grants, outputs, now)
    requires Finished(step, now, grants - Routes(outputs), last, status, left)
    ensures Finished(step, all, grants, outputs + last, status, left)
  {
    OutcomeAfter(outputs, Decode(step, now), grants, last, status);
  }

  lemma Advance(step: seq<byte> -> Step<Output>, all: seq<byte>, outputs: seq<Output>, now: seq<byte>, grants: nat,
                next: seq<Output>, end: seq<byte>)
    requires Running(step, all, grants, outputs, now) && Reached(step, now, next, end)
    requires Routes(next) <= grants - Routes(outputs)
    ensures Running(step, all, grants, outputs + next, end) && Routes(outputs + next) == Routes(outputs) + Routes(next)
  {
    AfterAfter(outputs, next, Decode(step, end));
    RoutesJoin(outputs, next);
  }

  /** One turn of the packet loop on its own. */
  method NextPacket(buffer: Buffer, left: nat) returns (outputs: seq<Output>, ends: bool, status: Status)
    requires buffer.Valid()
    modifies buffer
    ensures buffer.Valid() && buffer.data == old(buffer.data)
    ensures ends ==> Finished(TcpStep, old(buffer.Contents()), left, outputs, status, buffer.Contents())
    ensures !ends ==>
              && |buffer.Contents()| < |old(buffer.Contents())| && left > 0 && Routes(outputs) == 1
              && Reached(TcpStep, old(buffer.Contents()), outputs, buffer.Contents())
  {
    ghost var now := buffer.Contents();
    var r := P.DecodeFrom(buffer);
    match r
    case Incomplete =>
      return [], true, Drained;
    case Invalid(error) =>
      RoutesOne(ErrorPacket(error));
      return [ErrorPacket(error)], true, Failed;
    case Ok(packet, used) =>
      if left == 0 {
        RefuseNext(packet, Decode(TcpStep, now[used..]));
        return [RateLimited(packet.sequenceId)], true, Refused;
      }
      RoutesOne(Routed(packet));
      return [Routed(packet)], false, Drained;
  }

  /** One turn of the packet loop: the next packet routed, or how the loop ends. */
  method RouteOne(buffer: Buffer, grants: nat, outputs: seq<Output>, left: nat, ghost all: seq<byte>)
    returns (r: seq<Output>, ends: bool, status: Status)
    requires buffer.Valid() && Running(TcpStep, all, grants, outputs, buffer.Contents()) &&
             left == grants - Routes(outputs)
    modifies buffer
    ensures buffer.Valid() && buffer.data == old(buffer.data)
    ensures ends ==> Finished(TcpStep, all, grants, r, status, buffer.Contents())
    ensures !ends ==>
              && |buffer.Contents()| < |old(buffer.Contents())| && left > 0
              && Running(TcpStep, all, grants, r, buffer.Contents()) && left - 1 == grants - Routes(r)
  {
    ghost var now := buffer.Contents();
    var next;
    next, ends, status := NextPacket(buffer, left);
    if ends {
      Finish(TcpStep, all, outputs, now, grants, next, status, buffer.Contents());
    } else {
      Advance(TcpStep, all, outputs, now, grants, next, buffer.Contents());
    }
    r := outputs + next;
  }

  /** Routes the packets in a buffer until it runs short, a packet is refused or a header is bad. */
  method RoutePackets(buffer: Buffer, grants: nat) returns (outputs: seq<Output>, status: Status)
    requires buffer.Valid()
    modifies buffer
    ensures buffer.Valid() && buffer.data == old(buffer.data)
    ensures Finished(TcpStep, old(buffer.Contents()), grants, outputs, status, buffer.Contents())
  {
    ghost var all := buffer.Contents();
    ReachedStart(TcpStep, all);
    outputs := [];
    var left := grants;
    var readable := buffer.ReadableBytes();
    while readable >= P.HEADER_LENGTH
      invariant buffer.Valid() && buffer.data == old(buffer.data) && readable == |buffer.Contents()|
      invariant Running(TcpStep, all, grants, outputs, buffer.Contents()) && left == grants - Routes(outputs)
      decreases |buffer.Contents()|
    {
      var ends;
      outputs, ends, status := RouteOne(buffer, grants, outputs, left, all);
      if ends {
        return;
      }
      left := left - 1;
      readable := buffer.ReadableBytes();
    }
    FinishShort(all, outputs, buffer.Contents(), grants);
    status := Drained;
  }

  lemma FinishShort(all: seq<byte>, outputs: seq<Output>, now: seq<byte>, grants: nat)
    requires Running(TcpStep, all, grants, outputs, now) && |now| < P.HEADER_LENGTH
    ensures Finished(TcpStep, all, grants, outputs, Drained, now)
  {
    Finish(TcpStep, all, outputs, now, grants, [], Drained, now);
    assert outputs + [] == outputs;
  }

  lemma RefuseNext(packet: P.Packet, later: Decoded<Output>)
    ensures Outcome(After([Routed(packet)], later), 0, [RateLimited(packet.sequenceId)], Refused)
  {
    RoutesJoin([Routed(packet)], later.outputs);
  }

  /** onTcpMessage: a refused packet drops whatever is buffered behind it. */
  method OnTcpMessage(buffer: Buffer, grants: nat) returns (outputs: seq<Output>, status: Status)
    requires buffer.Valid()
    modifies buffer
    ensures buffer.Valid() && buffer.data == old(buffer.data)
    ensures Finished(TcpStep, old(buffer.Contents()), grants, outputs, status, buffer.Contents())
    ensures status.Refused? ==> buffer.Contents() == []
  {
    outputs, status := RoutePackets(buffer, grants);
    if status.Refused? {
      buffer.RetrieveAll();
    }
  }

  ghost function FrameResult(step: Step<Output>): Decoded<Output>
    requires !step.More?
  {
    if step.Taken? then Open(step.outputs, []) else Closed(step.outputs)
  }

  /** What one frame does; its packets are decoded in a buffer of their own. */
  method OnFrame(op: W.opcode, payload: seq<byte>, ghost used: nat, grants: nat)
    returns (outputs: seq<Output>, status: Status)
    ensures Outcome(FrameResult(FrameStep(op, payload, used)), grants, outputs, status)
  {
    if op == W.PING {
      RoutesOne(Pong(payload));
      return [Pong(payload)], Drained;
    }
    if op == W.PONG { return [], Drained; }
    RoutesOne(CloseFrame(""));
    if op == W.CLOSE { return [CloseFrame("")], Failed; }
    RoutesOne(CloseFrame("binary frame required"));
    if op != W.BINARY { return [CloseFrame("binary frame required")], Failed; }
    outputs, status := OnBinary(payload, grants);
  }

  method OnBinary(payload: seq<byte>, grants: nat) returns (outputs: seq<Output>, status: Status)
    ensures Outcome(Decode(TcpStep, payload), grants, outputs, status)
  {
    var packets := new Buffer();
    packets.Append(payload);
    assert packets.Contents() == payload;
    outputs, status := RoutePackets(packets, grants);
  }

  lemma FrameTurn(now: seq<byte>)
    ensures match W.Decode(now, true)
            case Incomplete => Decode(WebSocketStep, now) == Open([], now)
            case ProtocolError => Decode(WebSocketStep, now) == Closed([CloseFrame("protocol error")])
            case Ok(op, _, payload, used) =>
              WebSocketStep(now) == FrameStep(op, payload, used) && 0 < used <= |now|
  {
    if W.Decode(now, true).Ok? { W.UsedBounds(now, true); }
  }

  /** `rest` is what is behind some whole frames at the front of `all`. */
  ghost predicate OnFrameBoundary(all: seq<byte>, rest: seq<byte>)
    decreases |all|
  {
    || all == rest
    || (W.Decode(all, true).Ok? && var used := W.Decode(all, true).used;
        0 < used <= |all| && OnFrameBoundary(all[used..], rest))
  }

  lemma {:induction false} BoundaryOn(all: seq<byte>, mid: seq<byte>, rest: seq<byte>)
    requires OnFrameBoundary(all, mid) && OnFrameBoundary(mid, rest)
    ensures OnFrameBoundary(all, rest)
    decreases |all|
  {
    if all != mid { BoundaryOn(all[W.Decode(all, true).used..], mid, rest); }
  }

  lemma OneFrameOn(now: seq<byte>)
    requires W.Decode(now, true).Ok?
    ensures var used := W.Decode(now, true).used; 0 < used <= |now| && OnFrameBoundary(now, now[used..])
  {
    W.UsedBounds(now, true);
  }

  /** One turn of the frame loop on its own. */
  method NextFrame(buffer: Buffer, left: nat) returns (outputs: seq<Output>, ends: bool, status: Status)
    requires buffer.Valid()
    modifies buffer
    ensures buffer.Valid() && buffer.data == old(buffer.data)
    ensures ends ==> Finished(WebSocketStep, old(buffer.Contents()), left, outputs, status, buffer.Contents())
    ensures !ends ==>
              && |buffer.Contents()| < |old(buffer.Contents())| && Routes(outputs) <= left
              && Reached(WebSocketStep, old(buffer.Contents()), outputs, buffer.Contents())
    ensures (ends && status.Failed?) || OnFrameBoundary(old(buffer.Contents()), buffer.Contents())
  {
    ghost var now := buffer.Contents();
    var r := W.DecodeFrom(buffer);
    FrameTurn(now);
    if r.Ok? { OneFrameOn(now); }
    match r
    case Incomplete =>
      return [], true, Drained;
    case ProtocolError =>
      RoutesOne(CloseFrame("protocol error"));
      return [CloseFrame("protocol error")], true, Failed;
    case Ok(op, _, payload, used) =>
      outputs, status := OnFrame(op, payload, used, left);
      FrameOutcome(FrameStep(op, payload, used), now, left, outputs, status);
      ends := !status.Drained?;
  }

  /** One turn of the frame loop: the next frame served, or how the loop ends. */
  method ServeOne(buffer: Buffer, grants: nat, outputs: seq<Output>, left: nat, ghost all: seq<byte>)
    returns (r: seq<Output>, ends: bool, status: Status, routed: nat)
    requires buffer.Valid() && Running(WebSocketStep, all, grants, outputs, buffer.Contents())
    requires left == grants - Routes(outputs) && OnFrameBoundary(all, buffer.Contents())
    modifies buffer
    ensures buffer.Valid() && buffer.data == old(buffer.data)
    ensures ends ==> Finished(WebSocketStep, all, grants, r, status, buffer.Contents())
    ensures !ends ==>
              && |buffer.Contents()| < |old(buffer.Contents())| && routed <= left
              && Running(WebSocketStep, all, grants, r, buffer.Contents()) && left - routed == grants - Routes(r)
    ensures (ends && status.Failed?) || OnFrameBoundary(all, buffer.Contents())
  {
    ghost var now := buffer.Contents();
    var next;
    next, ends, status := NextFrame(buffer, left);
    routed := CountRouted(next);
    if !(ends && status.Failed?) { BoundaryOn(all, now, buffer.Contents()); }
    if ends {
      Finish(WebSocketStep, all, outputs, now, grants, next, status, buffer.Contents());
    } else {
      Advance(WebSocketStep, all, outputs, now, grants, next, buffer.Contents());
    }
    r := outputs + next;
  }

  /** onWebSocketMessage: a refused packet also drops the rest of its frame, and leaves the frames
  behind it in the buffer. Unless the connection failed, the buffer begins with a frame of the stream:
  a refusal does not throw the frames out of step. */
  method OnWebSocketMessage(buffer: Buffer, grants: nat) returns (outputs: seq<Output>, status: Status)
    requires buffer.Valid()
    modifies buffer
    ensures buffer.Valid() && buffer.data == old(buffer.data)
    ensures Finished(WebSocketStep, old(buffer.Contents()), grants, outputs, status, buffer.Contents())
    ensures !status.Failed? ==> OnFrameBoundary(old(buffer.Contents()), buffer.Contents())
  {
    ghost var all := buffer.Contents();
    ReachedStart(WebSocketStep, all);
    outputs := [];
    var left := grants;
    var readable := buffer.ReadableBytes();
    while readable > 0
      invariant buffer.Valid() && buffer.data == old(buffer.data) && readable == |buffer.Contents()|
      invariant Running(WebSocketStep, all, grants, outputs, buffer.Contents()) && left == grants - Routes(outputs)
      invariant OnFrameBoundary(all, buffer.Contents())
      decreases |buffer.Contents()|
    {
      var ends, routed;
      outputs, ends, status, routed := ServeOne(buffer, grants, outputs, left, all);
      if ends {
        return;
      }
      left := left - routed;
      readable := buffer.ReadableBytes();
    }
    Finish(WebSocketStep, all, outputs, buffer.Contents(), grants, [], Drained, buffer.Contents());
    assert outputs + [] == outputs;
    status := Drained;
  }

  /** How many packets were granted. */
  method CountRouted(outputs: seq<Output>) returns (n: nat)
    ensures n == Routes(outputs)
  {
    n := 0;
    for i := 0 to |outputs|
      invariant n == Routes(outputs[..i])
    {
      RoutesJoin(outputs[..i], [outputs[i]]);
      assert outputs[..i + 1] == outputs[..i] + [outputs[i]];
      RoutesOne(outputs[i]);
      if outputs[i].Routed? { n := n + 1; }
    }
    assert outputs[..|outputs|] == outputs;
  }

  /** One frame's outcome as part of the loop's. */
  lemma FrameOutcome(step: Step<Output>, now: seq<byte>, left: nat, served: seq<Output>, status: Status)
    requires WebSocketStep(now) == step && !step.More? && (step.Taken? ==> 0 < step.used <= |now|)
    requires Outcome(FrameResult(step), left, served, status)
    ensures !status.Drained? ==> Outcome(Decode(WebSocketStep, now), left, served, status)
    ensures status.Drained? ==>
              && step.Taken? && served == step.outputs && Routes(served) <= left
              && Reached(WebSocketStep, now, served, now[step.used..])
  {
    if status.Refused? {
      if step.Taken? {
        var later := Decode(WebSocketStep, now[step.used..]);
        CutEarly(step.outputs, later.outputs, left);
        RoutesJoin(step.outputs, later.outputs);
      }
    } else {
      CutNothing(step.outputs, left);
    }
  }
}
