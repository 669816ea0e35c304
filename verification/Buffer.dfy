/** The growing and sliding byte buffer. */
module Buffers {
  import opened Bytes

  const CHEAP_PREPEND: nat := 8
  const INITIAL_SIZE: nat := 1024
  const EXTRA_SIZE: nat := 65536

  /** std::copy into an array from elsewhere. */
  method CopyInto(dst: array<byte>, at: nat, src: seq<byte>)
    requires at + |src| <= dst.Length
    modifies dst
    ensures dst[..] == old(dst[..at]) + src + old(dst[at + |src|..])
  {
    for i := 0 to |src|
      invariant dst[at..at + i] == src[..i]
      invariant dst[..at] == old(dst[..at])
      invariant dst[at + i..] == old(dst[at + i..])
    {
      dst[at + i] := src[i];
    }
  }

  /** std::copy within one array, front to back, towards the front. */
  method SlideDown(a: array<byte>, from: nat, end: nat, to: nat)
    requires to <= from <= end <= a.Length
    modifies a
    ensures a[to..to + (end - from)] == old(a[from..end])
  {
    ghost var was := a[..];
    for i := 0 to end - from
      invariant a[to..to + i] == was[from..from + i]
      invariant forall k :: to + i <= k < a.Length ==> a[k] == was[k]
    {
      a[to + i] := a[from + i];
      assert a[to..to + i + 1] == a[to..to + i] + [a[to + i]];
      assert was[from..from + i + 1] == was[from..from + i] + [was[from + i]];
    }
  }

  class Buffer {
    var data: array<byte>
    var reader: nat
    var writer: nat
    /** Every byte ever put in, and every byte ever taken out or dropped. */
    ghost var written: seq<byte>
    ghost var taken: seq<byte>

    /** A first-in first-out byte queue. */
    ghost predicate Valid()
      reads this, data
    {
      && CHEAP_PREPEND <= reader <= writer <= data.Length
      && written == taken + data[reader..writer]
    }

    ghost function Contents(): seq<byte>
      requires Valid()
      reads this, data
    {
      data[reader..writer]
    }

    constructor ()
      ensures Valid() && fresh(data) && Contents() == [] && written == []
    {
      data := new byte[CHEAP_PREPEND + INITIAL_SIZE](_ => 0);
      reader, writer := CHEAP_PREPEND, CHEAP_PREPEND;
      written, taken := [], [];
    }

    method ReadableBytes() returns (n: nat)
      requires Valid()
      ensures n == |Contents()|
    {
      n := writer - reader;
    }

    method Peek(len: nat) returns (bytes: seq<byte>)
      requires Valid() && len <= |Contents()|
      ensures bytes == Contents()[..len]
    {
      bytes := data[reader..reader + len];
    }

    method Retrieve(len: nat)
      requires Valid() && len <= |Contents()|
      modifies this
      ensures Valid() && data == old(data)
      ensures Contents() == old(Contents())[len..]
      ensures taken == old(taken) + old(Contents())[..len] && written == old(written)
    {
      ghost var all := data[reader..writer];
      if len < writer - reader {
        taken := taken + all[..len];
        reader := reader + len;
        assert data[reader..writer] == all[len..];
        assert taken + all[len..] == old(taken) + (all[..len] + all[len..]);
      } else {
        RetrieveAll();
      }
    }

    method RetrieveAll()
      requires Valid()
      modifies this
      ensures Valid() && data == old(data) && Contents() == []
      ensures taken == old(taken) + old(Contents()) && written == old(written)
    {
      taken := taken + data[reader..writer];
      reader, writer := CHEAP_PREPEND, CHEAP_PREPEND;
    }

    method RetrieveAsString(len: nat) returns (bytes: seq<byte>)
      requires Valid() && len <= |Contents()|
      modifies this
      ensures Valid() && data == old(data)
      ensures bytes == old(Contents())[..len] && Contents() == old(Contents())[len..]
      ensures taken == old(taken) + bytes && written == old(written)
    {
      bytes := Peek(len);
      Retrieve(len);
    }

    method Append(bytes: seq<byte>)
      requires Valid()
      modifies this, data
      ensures Valid() && (data == old(data) || fresh(data))
      ensures Contents() == old(Contents()) + bytes
      ensures written == old(written) + bytes && taken == old(taken)
    {
      EnsureWritableBytes(|bytes|);
      FillTail(bytes);
    }

    /** Copies behind the writer index, then takes the bytes over. */
    method FillTail(bytes: seq<byte>)
      requires Valid() && writer + |bytes| <= data.Length
      modifies this, data
      ensures Valid() && data == old(data)
      ensures Contents() == old(Contents()) + bytes
      ensures written == old(written) + bytes && taken == old(taken)
    {
      ghost var before := data[reader..writer];
      CopyInto(data, writer, bytes);
      assert data[reader..writer] == before && data[writer..writer + |bytes|] == bytes;
      HasWritten(|bytes|);
    }

    /** Takes over bytes already stored behind the writer index. */
    method HasWritten(len: nat)
      requires Valid() && writer + len <= data.Length
      modifies this
      ensures Valid() && data == old(data)
      ensures Contents() == old(Contents()) + old(data[writer..writer + len])
      ensures written == old(written) + old(data[writer..writer + len]) && taken == old(taken)
    {
      written := written + data[writer..writer + len];
      assert data[reader..writer + len] == data[reader..writer] + data[writer..writer + len];
      writer := writer + len;
    }

    method EnsureWritableBytes(len: nat)
      requires Valid()
      modifies this, data
      ensures Valid() && (data == old(data) || fresh(data))
      ensures writer + len <= data.Length && Contents() == old(Contents())
      ensures written == old(written) && taken == old(taken)
    {
      if data.Length - writer < len {
        MakeSpace(len);
      }
    }

    method MakeSpace(len: nat)
      requires Valid() && data.Length - writer < len
      modifies this, data
      ensures Valid() && (data == old(data) || fresh(data))
      ensures writer + len <= data.Length && Contents() == old(Contents())
      ensures written == old(written) && taken == old(taken)
    {
      if data.Length - writer + reader < len + CHEAP_PREPEND {
        var grown := new byte[writer + len](_ => 0);
        ghost var all := data[..];
        CopyInto(grown, 0, data[..]);
        assert grown[reader..writer] == all[reader..writer];
        data := grown;
        return;
      }
      var readable := writer - reader;
      SlideDown(data, reader, writer, CHEAP_PREPEND);
      reader := CHEAP_PREPEND;
      writer := reader + readable;
    }

    /** readFd: `got` is what readv returned, at most what both segments hold; None is a failure.
    The kernel fills the buffer's tail first and the extra segment with the rest. */
    method ReadFd(got: seq<byte>, failed: bool)
      requires Valid()
      requires |got| <= data.Length - writer + (if data.Length - writer < EXTRA_SIZE then EXTRA_SIZE else 0)
      modifies this, data
      ensures Valid() && (data == old(data) || fresh(data))
      ensures Contents() == old(Contents()) + (if failed then [] else got)
      ensures written == old(written) + (if failed then [] else got) && taken == old(taken)
    {
      var writable := data.Length - writer;
      if failed {
      } else if |got| <= writable {
        FillTail(got);
      } else {
        FillTail(got[..writable]);
        assert got == got[..writable] + got[writable..];
        Append(got[writable..]);
      }
    }

    /** writeFd: the kernel takes the first `n` readable bytes, or fails. */
    method WriteFd(n: nat, failed: bool) returns (sent: seq<byte>)
      requires Valid() && n <= |Contents()|
      modifies this
      ensures Valid() && data == old(data)
      ensures sent + Contents() == old(Contents()) && |sent| == (if failed then 0 else n)
      ensures taken == old(taken) + sent && written == old(written)
    {
      if failed {
        return [];
      }
      sent := Peek(n);
      Retrieve(n);
    }
  }
}
