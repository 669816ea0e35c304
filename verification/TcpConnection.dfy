/** Sending on a plain TCP connection: partial writes, write interest and half-close. */
module TcpConnections {
  import opened Bytes
  import opened Buffers
  import opened Streams
  import opened Transport
  import P = PacketCodec

  datatype State = Connecting | Connected | Disconnecting | Disconnected

  /** What a call of send reports: bytes taken, nothing for now, or a failure. */
  datatype SendResult = Wrote(n: nat) | WouldBlock | Fault

  class TcpConnection {
    var state: State
    var writing: bool
    const output: Buffer
    /** The bytes given to the kernel, the messages taken on, and whether the write side is shut. */
    ghost var kernel: seq<byte>
    ghost var accepted: seq<seq<byte>>
    ghost var halfClosed: bool

    /** The kernel's bytes and the pending ones are whole messages; write interest is on exactly while
    something is pending; behind a half-close nothing is pending unless the connection was closed. */
    ghost predicate Valid()
      reads this, output, output.data
    {
      && output.Valid()
      && kernel + output.Contents() == Concat(accepted)
      && (state.Disconnected? ==> !writing)
      && (!state.Disconnected? ==> (writing <==> output.Contents() != []))
      && (halfClosed ==> state.Disconnected? || output.Contents() == [])
    }

    constructor ()
      ensures Valid() && state == Connecting && !halfClosed && accepted == [] && kernel == []
      ensures fresh(output) && fresh(output.data)
    {
      state, writing := Connecting, false;
      output := new Buffer();
      kernel, accepted, halfClosed := [], [], false;
    }

    method ConnectEstablished()
      requires Valid() && state.Connecting?
      modifies this
      ensures Valid() && state == Connected
      ensures kernel == old(kernel) && accepted == old(accepted) && halfClosed == old(halfClosed)
    {
      state := Connected;
    }

    /** send, called on the loop thread. */
    method Send(message: seq<byte>, r: SendResult)
      requires Valid() && (r.Wrote? ==> r.n <= |message|) && (halfClosed ==> r.Fault?)
      modifies this, output, output.data
      ensures Valid() && state == old(state) && halfClosed == old(halfClosed)
      ensures output.data == old(output.data) || fresh(output.data)
      ensures !old(state).Connected? ==> kernel == old(kernel) && accepted == old(accepted)
      ensures var direct := !old(writing) && old(output.Contents()) == [];
              if !old(state).Connected? || (direct && r.Fault?) then
                accepted == old(accepted) && kernel == old(kernel) && output.Contents() == old(output.Contents())
              else
                && accepted == old(accepted) + [message]
                && kernel == old(kernel) + (if direct && r.Wrote? then message[..r.n] else [])
    {
      if state.Connected? {
        SendInLoop(message, r);
      }
    }

    /** sendInLoop: a message is taken on whole or not at all, and waits behind what is pending. After a
    half-close the kernel fails every send. */
    method SendInLoop(data: seq<byte>, r: SendResult)
      requires Valid() && (r.Wrote? ==> r.n <= |data|) && (halfClosed ==> r.Fault?)
      modifies this, output, output.data
      ensures Valid() && state == old(state) && halfClosed == old(halfClosed)
      ensures output.data == old(output.data) || fresh(output.data)
      ensures var direct := !old(writing) && old(output.Contents()) == [];
              if old(state).Disconnected? || (direct && r.Fault?) then
                accepted == old(accepted) && kernel == old(kernel) && output.Contents() == old(output.Contents())
              else
                && accepted == old(accepted) + [data]
                && kernel == old(kernel) + (if direct && r.Wrote? then data[..r.n] else [])
    {
      if state.Disconnected? {
        return;
      }
      ghost var pending := output.Contents();
      var nwrote, fault := 0, false;
      var readable := output.ReadableBytes();
      if !writing && readable == 0 {
        match r
        case Wrote(n) => nwrote := n;
        case WouldBlock =>
        case Fault => fault := true;
      }
      if !fault {
        kernel := kernel + data[..nwrote];
        accepted := accepted + [data];
        Accept(old(accepted), data, old(kernel), pending, nwrote);
        if nwrote < |data| {
          output.Append(data[nwrote..]);
          if !writing { writing := true; }
        }
      }
    }

    /** handleWrite: the kernel takes some of the pending bytes; when all are gone write interest goes
    off and a waiting shutdown is done. */
    method HandleWrite(r: SendResult)
      requires Valid() && (r.Wrote? ==> r.n <= |output.Contents()|)
      modifies this, output
      ensures Valid() && output.data == old(output.data) && state == old(state) && accepted == old(accepted)
      ensures kernel == old(kernel) + (if old(writing) && r.Wrote? then old(output.Contents())[..r.n] else [])
      ensures old(halfClosed) ==> halfClosed
      ensures halfClosed && !old(halfClosed) ==> state.Disconnecting? && kernel == Concat(accepted)
      ensures old(writing) && old(state).Disconnecting? && r.Wrote? && r.n == |old(output.Contents())| ==> halfClosed
    {
      if !writing {
        return;
      }
      var sent := TakePending(r);
      if |sent| > 0 {
        var readable := output.ReadableBytes();
        if readable == 0 {
          writing := false;
          if state.Disconnecting? {
            ShutdownInLoop();
          }
        }
      }
    }

    /** The kernel's share of handleWrite. */
    method TakePending(r: SendResult) returns (sent: seq<byte>)
      requires output.Valid() && kernel + output.Contents() == Concat(accepted)
      requires r.Wrote? ==> r.n <= |output.Contents()|
      modifies this`kernel, output
      ensures output.Valid() && output.data == old(output.data) && kernel + output.Contents() == Concat(accepted)
      ensures sent == (if r.Wrote? then old(output.Contents())[..r.n] else []) && kernel == old(kernel) + sent
      ensures output.Contents() == old(output.Contents())[|sent|..]
    {
      ghost var pending := output.Contents();
      sent := output.WriteFd(if r.Wrote? then r.n else 0, !r.Wrote?);
      assert sent == (sent + output.Contents())[..|sent|];
      assert output.Contents() == (sent + output.Contents())[|sent|..];
      assert kernel + (sent + output.Contents()) == kernel + sent + output.Contents();
      kernel := kernel + sent;
    }

    /** shutdown's first half, on the calling thread; true means shutdownInLoop is now due. */
    method BeginShutdown() returns (due: bool)
      requires Valid()
      modifies this`state
      ensures Valid() && due == old(state).Connected? && state == if due then Disconnecting else old(state)
    {
      due := state.Connected?;
      if due {
        state := Disconnecting;
      }
    }

    /** shutdownInLoop. The write side is shut only when nothing is pending, unless the connection was
    closed before the call ran. */
    method ShutdownInLoop()
      requires Valid()
      modifies this`halfClosed
      ensures Valid() && (halfClosed <==> old(halfClosed) || !writing)
      ensures halfClosed && !state.Disconnected? ==> kernel == Concat(accepted)
      ensures halfClosed ==> (kernel == Concat(accepted) <==> !state.Disconnected? || output.Contents() == [])
    {
      if !writing {
        halfClosed := true;
      }
      if output.Contents() != [] {
        assert |kernel + output.Contents()| > |kernel|;
      }
    }

    /** handleClose, also reached through forceCloseInLoop. */
    method HandleClose()
      requires Valid()
      modifies this
      ensures Valid() && state == Disconnected
      ensures kernel == old(kernel) && accepted == old(accepted) && halfClosed == old(halfClosed)
    {
      state := Disconnected;
      writing := false;
    }

    method ForceClose() returns (due: bool)
      requires Valid()
      modifies this`state
      ensures Valid() && due == (old(state).Connected? || old(state).Disconnecting?)
      ensures state == if due then Disconnecting else old(state)
    {
      due := state.Connected? || state.Disconnecting?;
      if due {
        state := Disconnecting;
      }
    }

    method ForceCloseInLoop()
      requires Valid()
      modifies this
      ensures Valid() && kernel == old(kernel) && accepted == old(accepted) && halfClosed == old(halfClosed)
      ensures state == if old(state).Connecting? then Connecting else Disconnected
    {
      if state.Connected? || state.Disconnecting? {
        HandleClose();
      }
    }
  }

  lemma Accept(accepted: seq<seq<byte>>, data: seq<byte>, kernel: seq<byte>, pending: seq<byte>, n: nat)
    requires kernel + pending == Concat(accepted) && n <= |data| && (n > 0 ==> pending == [])
    ensures kernel + data[..n] + (pending + data[n..]) == Concat(accepted + [data])
  {
    ConcatJoin(accepted, [data]);
    assert Concat([data]) == data;
    assert data == data[..n] + data[n..];
    if n > 0 {
      assert kernel + data[..n] + (pending + data[n..]) == kernel + pending + data;
    } else {
      assert kernel + data[..n] + (pending + data[n..]) == kernel + pending + data;
    }
  }

  /** A shutdown asked for before the connection is closed, but run after, shuts the write side with
  bytes still pending. */
  method LateShutdown() returns (c: TcpConnection)
    ensures c.Valid() && c.halfClosed && c.output.Contents() == [7] && c.kernel != Concat(c.accepted)
  {
    c := new TcpConnection();
    c.ConnectEstablished();
    c.SendInLoop([7], WouldBlock);
    assert c.accepted == [[7]] && Concat([[7]]) == [7] + Concat([]);
    assert c.output.Contents() == c.kernel + c.output.Contents();
    var due := c.BeginShutdown();
    c.HandleClose();
    c.ShutdownInLoop();
  }

  /** What a peer of the connection decodes: when every message is an encoded packet, any part of the
  kernel's bytes, read in any chunks, gives exactly the first packets, whole and in order. */
  lemma PeerDecodes(c: TcpConnection, ps: seq<P.Packet>, chunks: seq<seq<byte>>) returns (n: nat, rest: seq<byte>)
    requires c.Valid() && AllEncodable(ps) && c.accepted == PacketWords(ps) && Concat(chunks) <= c.kernel
    ensures n <= |ps| && ArriveAll(TcpStep, chunks) == Open(RouteAll(ps[..n]), rest)
    ensures if n < |ps| then rest < P.Encode(ps[n]) else rest == []
    ensures c.output.Contents() == [] && Concat(chunks) == c.kernel ==>
              ArriveAll(TcpStep, chunks) == Open(RouteAll(ps), [])
  {
    var all, pending := c.kernel, c.output.Contents();
    assert Concat(chunks) <= all <= all + pending;
    n, rest := EndToEnd(ps, chunks);
    if pending == [] && Concat(chunks) == all {
      assert all + pending == all;
      WholeStream(ps, chunks);
    }
  }
}
