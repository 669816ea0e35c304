/** WebSocket frames, sections 5.2, 5.3 and 5.5 of RFC 6455, unfragmented only. */
module WebSocketFrame {
  import opened Bytes
  import opened Buffers

  const CONTINUATION: nat := 0
  const TEXT: nat := 1
  const BINARY: nat := 2
  const CLOSE: nat := 8
  const PING: nat := 9
  const PONG: nat := 10

  type opcode = n: nat | n < 16

  datatype Key = Unmasked | Masked(key: seq<byte>)

  datatype Result = Incomplete | ProtocolError | Ok(op: opcode, masked: bool, payload: seq<byte>, used: nat)

  predicate IsControl(op: opcode) {
    op == CLOSE || op == PING || op == PONG
  }

  predicate IsKnown(op: opcode) {
    op in {CONTINUATION, TEXT, BINARY, CLOSE, PING, PONG}
  }

  predicate ValidKey(key: Key) {
    key.Masked? ==> |key.key| == 4
  }

  function Mask(key: seq<byte>, p: seq<byte>): (r: seq<byte>)
    requires |key| == 4
    ensures |r| == |p|
  {
    seq(|p|, i requires 0 <= i < |p| => Xor(p[i], key[i % 4]))
  }

  lemma MaskTwice(key: seq<byte>, p: seq<byte>)
    requires |key| == 4
    ensures Mask(key, Mask(key, p)) == p
  {
    forall i | 0 <= i < |p| ensures Mask(key, Mask(key, p))[i] == p[i] {
      XorTwice(p[i], key[i % 4]);
    }
  }

  /** Masking turns over, in each byte, exactly the bits set in its byte of the key. */
  ghost predicate MaskedBy(key: seq<byte>, p: seq<byte>, r: seq<byte>) {
    |key| == 4 && |r| == |p| && forall i :: 0 <= i < |p| ==> Turns(p[i], key[i % 4], r[i])
  }

  lemma MaskTurns(key: seq<byte>, p: seq<byte>)
    requires |key| == 4
    ensures MaskedBy(key, p, Mask(key, p))
  {
    forall i | 0 <= i < |p| ensures Turns(p[i], key[i % 4], Mask(key, p)[i]) { XorTurns(p[i], key[i % 4]); }
  }

  // ---------------------------------------------------------------- the format

  /** The second byte and the extended length. */
  function LengthBytes(masked: bool, len: nat): (s: seq<byte>)
    ensures 1 <= |s| <= 9
  {
    var bit := if masked then 128 else 0;
    if len <= 125 then [bit + len]
    else if len <= 0xFFFF then [bit + 126] + BigEndian(len, 2)
    else [bit + 127] + BigEndian(len, 8)
  }

  function Encode(op: opcode, payload: seq<byte>, key: Key): seq<byte>
    requires ValidKey(key)
  {
    [128 + op] + LengthBytes(key.Masked?, |payload|)
      + (if key.Masked? then key.key + Mask(key.key, payload) else payload)
  }

  /** After the length: the mask key and the payload. */
  function DecodeBody(s: seq<byte>, op: opcode, masked: bool, len: nat, offset: nat): Result
    requires offset <= |s|
  {
    if IsControl(op) && len > 125 then ProtocolError
    else if masked then
      if |s| < offset + 4 then Incomplete
      else if len > |s| - (offset + 4) then Incomplete
      else Ok(op, masked, Mask(s[offset..offset + 4], s[offset + 4..offset + 4 + len]), offset + 4 + len)
    else if len > |s| - offset then Incomplete
    else Ok(op, masked, s[offset..offset + len], offset + len)
  }

  function DecodeLength(s: seq<byte>, op: opcode, masked: bool, short: nat): Result
    requires |s| >= 2
  {
    if short == 126 then
      if |s| < 4 then Incomplete else DecodeBody(s, op, masked, Value(s[2..4]), 4)
    else if short == 127 then
      if |s| < 10 then Incomplete
      else if Value(s[2..10]) >= UINT64_RANGE / 2 then ProtocolError
      else DecodeBody(s, op, masked, Value(s[2..10]), 10)
    else DecodeBody(s, op, masked, short, 2)
  }

  function Decode(s: seq<byte>, requireMask: bool): Result {
    if |s| < 2 then Incomplete
    else
      var op: opcode := s[0] % 16;
      if (s[0] / 16) % 8 != 0 || !IsKnown(op) then ProtocolError
      else if s[0] < 128 || op == CONTINUATION then ProtocolError
      else if requireMask && s[1] < 128 then ProtocolError
      else DecodeLength(s, op, s[1] >= 128, s[1] % 128)
  }

  // ---------------------------------------------------------------- round trip

  /** The first byte of an accepted frame tells its opcode; a control frame is short. */
  lemma FirstByte(s: seq<byte>, requireMask: bool)
    requires Decode(s, requireMask).Ok?
    ensures var frame := Decode(s, requireMask);
            && s[0] in {0x81, 0x82, 0x88, 0x89, 0x8A} && frame.op == s[0] - 0x80
            && (s[0] >= 0x88 ==> |frame.payload| <= 125)
  {
  }

  /** What a peer will take back as one frame. */
  predicate Sendable(op: opcode, payload: seq<byte>) {
    IsKnown(op) && op != CONTINUATION && (IsControl(op) ==> |payload| <= 125) && |payload| < UINT64_RANGE / 2
  }

  /** The bytes behind the length. */
  function Body(payload: seq<byte>, key: Key): seq<byte>
    requires ValidKey(key)
  {
    if key.Masked? then key.key + Mask(key.key, payload) else payload
  }

  lemma BodyDecodes(front: seq<byte>, op: opcode, payload: seq<byte>, key: Key, rest: seq<byte>)
    requires ValidKey(key) && (IsControl(op) ==> |payload| <= 125)
    ensures DecodeBody(front + Body(payload, key) + rest, op, key.Masked?, |payload|, |front|)
         == Ok(op, key.Masked?, payload, |front + Body(payload, key)|)
  {
    var s, n := front + Body(payload, key) + rest, |front|;
    if key.Masked? {
      assert s[n..n + 4] == key.key;
      assert s[n + 4..n + 4 + |payload|] == Mask(key.key, payload);
      MaskTwice(key.key, payload);
    } else {
      assert s[n..n + |payload|] == payload;
    }
  }

  /** A prefix that ends inside the body. */
  lemma BodyIncomplete(s: seq<byte>, op: opcode, masked: bool, len: nat, offset: nat)
    requires offset <= |s| < offset + (if masked then 4 else 0) + len
    requires IsControl(op) ==> len <= 125
    ensures DecodeBody(s, op, masked, len, offset) == Incomplete
  {
  }

  /** The length, as the decoder reads it from any stream that starts with the frame's head. */
  lemma LengthDecodes(s: seq<byte>, op: opcode, masked: bool, len: nat)
    requires len < UINT64_RANGE
    requires [128 + op] + LengthBytes(masked, len) <= s
    ensures DecodeLength(s, op, masked, s[1] % 128) ==
            if len >= UINT64_RANGE / 2 then ProtocolError
            else DecodeBody(s, op, masked, len, 1 + |LengthBytes(masked, len)|)
    ensures s[0] == 128 + op && (s[1] >= 128 <==> masked)
  {
    var head := [128 + op] + LengthBytes(masked, len);
    assert s[0] == head[0] && s[1] == head[1];
    if 125 < len <= 0xFFFF {
      ExtendedLength(s, head, len, 2);
    } else if len > 0xFFFF {
      ExtendedLength(s, head, len, 8);
    }
  }

  lemma ExtendedLength(s: seq<byte>, head: seq<byte>, len: nat, n: nat)
    requires head <= s && |head| == 2 + n && head[2..] == BigEndian(len, n)
    requires (n == 2 && len <= 0xFFFF) || (n == 8 && len < UINT64_RANGE)
    ensures Value(s[2..2 + n]) == len
  {
    assert s[2..2 + n] == head[2..];
    SmallPowers();
    WriteRead(len, n);
  }

  /** The head byte decides the opcode checks. */
  lemma HeadDecodes(s: seq<byte>, op: opcode, requireMask: bool)
    requires |s| >= 2 && s[0] == 128 + op && (requireMask ==> s[1] >= 128)
    ensures Decode(s, requireMask) ==
            if IsKnown(op) && op != CONTINUATION then DecodeLength(s, op, s[1] >= 128, s[1] % 128) else ProtocolError
  {
  }

  /** A frame comes back whole, whatever follows it, if and only if it is one a peer accepts. */
  lemma RoundTrip(op: opcode, payload: seq<byte>, key: Key, requireMask: bool, rest: seq<byte>)
    requires ValidKey(key) && (requireMask ==> key.Masked?) && |payload| < UINT64_RANGE
    ensures Decode(Encode(op, payload, key) + rest, requireMask)
            == Ok(op, key.Masked?, payload, |Encode(op, payload, key)|)
       <==> Sendable(op, payload)
  {
    var front := [128 + op] + LengthBytes(key.Masked?, |payload|);
    var s := Encode(op, payload, key) + rest;
    assert Encode(op, payload, key) == front + Body(payload, key);
    assert s == front + Body(payload, key) + rest;
    LengthDecodes(s, op, key.Masked?, |payload|);
    HeadDecodes(s, op, requireMask);
    if Sendable(op, payload) {
      BodyDecodes(front, op, payload, key, rest);
    }
  }

  /** No strict prefix of a frame is taken for a frame or for an error. */
  lemma StrictPrefixIncomplete(op: opcode, payload: seq<byte>, key: Key, requireMask: bool, k: nat)
    requires ValidKey(key) && (requireMask ==> key.Masked?) && Sendable(op, payload)
    requires k < |Encode(op, payload, key)|
    ensures Decode(Encode(op, payload, key)[..k], requireMask) == Incomplete
  {
    var front := [128 + op] + LengthBytes(key.Masked?, |payload|);
    var s := Encode(op, payload, key)[..k];
    if k >= 2 {
      assert s[0] == front[0] && s[1] == front[1];
      HeadDecodes(s, op, requireMask);
      if k >= |front| {
        assert front <= s;
        LengthDecodes(s, op, key.Masked?, |payload|);
        BodyIncomplete(s, op, key.Masked?, |payload|, |front|);
      }
    }
  }

  // ---------------------------------------------------------------- stability

  lemma BodyStable(s: seq<byte>, t: seq<byte>, op: opcode, masked: bool, len: nat, offset: nat)
    requires offset <= |s| && !DecodeBody(s, op, masked, len, offset).Incomplete?
    ensures DecodeBody(s + t, op, masked, len, offset) == DecodeBody(s, op, masked, len, offset)
  {
    var u := s + t;
    if DecodeBody(s, op, masked, len, offset).Ok? {
      if masked {
        assert u[offset..offset + 4] == s[offset..offset + 4];
        assert u[offset + 4..offset + 4 + len] == s[offset + 4..offset + 4 + len];
      } else {
        assert u[offset..offset + len] == s[offset..offset + len];
      }
    }
  }

  /** Ok and ProtocolError verdicts are not changed by the bytes that follow. */
  lemma VerdictStable(s: seq<byte>, t: seq<byte>, requireMask: bool)
    requires !Decode(s, requireMask).Incomplete?
    ensures Decode(s + t, requireMask) == Decode(s, requireMask)
  {
    var u := s + t;
    assert u[0] == s[0] && u[1] == s[1];
    var op: opcode, masked, short := s[0] % 16, s[1] >= 128, s[1] % 128;
    if short == 126 {
      if |s| >= 4 {
        assert u[2..4] == s[2..4];
        if !DecodeBody(s, op, masked, Value(s[2..4]), 4).Incomplete? { BodyStable(s, t, op, masked, Value(s[2..4]), 4);
                                                                       }
      }
    } else if short == 127 {
      if |s| >= 10 {
        assert u[2..10] == s[2..10];
        if !DecodeBody(s, op, masked, Value(s[2..10]),
                       10).Incomplete? { BodyStable(s, t, op, masked, Value(s[2..10]), 10); }
      }
    } else if !DecodeBody(s, op, masked, short, 2).Incomplete? {
      BodyStable(s, t, op, masked, short, 2);
    }
  }

  lemma UsedBounds(s: seq<byte>, requireMask: bool)
    requires Decode(s, requireMask).Ok?
    ensures 2 <= Decode(s, requireMask).used <= |s|
    ensures requireMask ==> Decode(s, requireMask).masked
    ensures IsControl(Decode(s, requireMask).op) ==> |Decode(s, requireMask).payload| <= 125
  {
  }

  /** What stands behind the length on the wire, and what of it is the payload. */
  ghost predicate WireBody(wire: seq<byte>, masked: bool, payload: seq<byte>) {
    if masked then |wire| == 4 + |payload| && MaskedBy(wire[..4], wire[4..], payload) else wire == payload
  }

  lemma BodyOnWire(s: seq<byte>, op: opcode, masked: bool, len: nat, offset: nat)
    requires offset <= |s| && DecodeBody(s, op, masked, len, offset).Ok?
    ensures var r := DecodeBody(s, op, masked, len, offset);
            offset <= r.used <= |s| && |r.payload| == len && WireBody(s[offset..r.used], masked, r.payload)
  {
    if masked {
      var wire := s[offset..offset + 4 + len];
      assert wire[..4] == s[offset..offset + 4] && wire[4..] == s[offset + 4..offset + 4 + len];
      MaskTurns(wire[..4], wire[4..]);
    }
  }

  /** The payload that is decoded, bit by bit, from the bytes it came in. */
  lemma PayloadOnWire(s: seq<byte>, requireMask: bool)
    requires Decode(s, requireMask).Ok?
    ensures var r := Decode(s, requireMask);
            var n := |r.payload| + (if r.masked then 4 else 0);
            2 <= r.used - n <= 10 && r.used <= |s| && WireBody(s[r.used - n..r.used], r.masked, r.payload)
  {
    var op: opcode, masked, short := s[0] % 16, s[1] >= 128, s[1] % 128;
    if short == 126 {
      BodyOnWire(s, op, masked, Value(s[2..4]), 4);
    } else if short == 127 {
      BodyOnWire(s, op, masked, Value(s[2..10]), 10);
    } else {
      BodyOnWire(s, op, masked, short, 2);
    }
  }

  // ---------------------------------------------------------------- the code

  /** The in-place unmasking loop. */
  method ApplyMask(payload: array<byte>, key: seq<byte>)
    requires |key| == 4
    modifies payload
    ensures payload[..] == Mask(key, old(payload[..])) && MaskedBy(key, old(payload[..]), payload[..])
  {
    MaskTurns(key, payload[..]);
    for i := 0 to payload.Length
      invariant forall k :: 0 <= k < i ==> payload[k] == Xor(old(payload[k]), key[k % 4])
      invariant forall k :: i <= k < payload.Length ==> payload[k] == old(payload[k])
    {
      payload[i] := Xor(payload[i], key[i % 4]);
    }
  }

  method EncodeHead(op: opcode, len: nat, masked: bool) returns (out: seq<byte>)
    ensures out == [128 + op] + LengthBytes(masked, len)
  {
    out := [128 + op];
    var bit := if masked then 128 else 0;
    if len <= 125 {
      out := out + [bit + len];
    } else if len <= 0xFFFF {
      out := AppendBigEndian(out + [bit + 126], len, 2);
    } else {
      out := AppendBigEndian(out + [bit + 127], len, 8);
    }
  }

  method EncodeFrame(op: opcode, payload: seq<byte>, key: Key) returns (out: seq<byte>)
    requires ValidKey(key)
    ensures out == Encode(op, payload, key) && |out| >= |payload|
    ensures key.Masked? ==> MaskedBy(key.key, payload, out[|out| - |payload|..])
  {
    if key.Masked? { MaskTurns(key.key, payload); }
    out := EncodeHead(op, |payload|, key.Masked?);
    if key.Unmasked? {
      return out + payload;
    }
    out := out + key.key;
    ghost var front := out;
    for i := 0 to |payload|
      invariant out == front + Mask(key.key, payload)[..i]
    {
      out := out + [Xor(payload[i], key.key[i % 4])];
    }
    assert front + Mask(key.key, payload) == [128 + op] + LengthBytes(true, |payload|)
           + (key.key + Mask(key.key, payload));
  }

  /** WebSocketFrameCodec::decode. */
  method DecodeFrame(data: seq<byte>, requireMask: bool) returns (r: Result)
    ensures r == Decode(data, requireMask)
    ensures r.Ok? ==>
              var n := |r.payload| + (if r.masked then 4 else 0);
              n <= r.used <= |data| && WireBody(data[r.used - n..r.used], r.masked, r.payload)
  {
    if Decode(data, requireMask).Ok? { PayloadOnWire(data, requireMask); }
    if |data| < 2 { return Incomplete; }
    var b0, b1 := data[0], data[1];
    var op: opcode := b0 % 16;
    if (b0 / 16) % 8 != 0 || !IsKnown(op) { return ProtocolError; }
    if b0 < 128 || op == CONTINUATION { return ProtocolError; }
    var masked := b1 >= 128;
    if requireMask && !masked { return ProtocolError; }
    var len: nat := b1 % 128;
    var offset := 2;
    if len == 126 {
      if |data| < 4 { return Incomplete; }
      len := ReadBigEndian(data[2..4]);
      offset := 4;
    } else if len == 127 {
      if |data| < 10 { return Incomplete; }
      len := ReadBigEndian(data[2..10]);
      offset := 10;
      if len >= UINT64_RANGE / 2 { return ProtocolError; }
    }
    r := DecodePayload(data, op, masked, len, offset);
  }

  method DecodePayload(data: seq<byte>, op: opcode, masked: bool, len: nat, offset: nat) returns (r: Result)
    requires offset <= |data|
    ensures r == DecodeBody(data, op, masked, len, offset)
  {
    if IsControl(op) && len > 125 { return ProtocolError; }
    var key: seq<byte> := [];
    var start := offset;
    if masked {
      if |data| < offset + 4 { return Incomplete; }
      key := data[offset..offset + 4];
      start := offset + 4;
    }
    if len > |data| - start { return Incomplete; }
    var payload := data[start..start + len];
    if masked {
      var a := new byte[len](i requires 0 <= i < len => payload[i]);
      assert a[..] == payload;
      ApplyMask(a, key);
      payload := a[..];
    }
    r := Ok(op, masked, payload, start + len);
  }

  /** WebSocketCodec::decodeFrame on a buffer of client bytes. */
  method DecodeFrom(buffer: Buffer) returns (r: Result)
    requires buffer.Valid()
    modifies buffer
    ensures buffer.Valid() && buffer.data == old(buffer.data)
    ensures r == Decode(old(buffer.Contents()), true)
    ensures r.Incomplete? ==> buffer.Contents() == old(buffer.Contents())
    ensures r.ProtocolError? ==> buffer.Contents() == []
    ensures r.Ok? ==> r.used <= |old(buffer.Contents())| && buffer.Contents() == old(buffer.Contents())[r.used..]
  {
    var readable := buffer.ReadableBytes();
    var bytes := buffer.Peek(readable);
    assert bytes == buffer.Contents();
    r := DecodeFrame(bytes, true);
    if r.ProtocolError? {
      buffer.RetrieveAll();
    } else if r.Ok? {
      UsedBounds(bytes, true);
      buffer.Retrieve(r.used);
    }
  }
}
