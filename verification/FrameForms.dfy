/** Exactly which streams decode as a WebSocket frame: also those whose length is written longer than
section 5.2 of RFC 6455 allows. */
module FrameForms {
  import opened Bytes
  import opened WebSocketFrame

  /** The three ways a length can be written. */
  datatype Form = Short | Medium | Long

  predicate Fits(form: Form, len: nat) {
    match form
    case Short => len <= 125
    case Medium => len <= 0xFFFF
    case Long => len < UINT64_RANGE / 2
  }

  /** The form section 5.2 of RFC 6455 requires. */
  function Minimal(len: nat): Form {
    if len <= 125 then Short else if len <= 0xFFFF then Medium else Long
  }

  function LengthAs(form: Form, masked: bool, len: nat): seq<byte>
    requires Fits(form, len)
  {
    var bit := if masked then 128 else 0;
    match form
    case Short => [bit + len]
    case Medium => [bit + 126] + BigEndian(len, 2)
    case Long => [bit + 127] + BigEndian(len, 8)
  }

  function HeadAs(form: Form, op: opcode, masked: bool, len: nat): (head: seq<byte>)
    requires Fits(form, len)
    ensures |head| >= 2 && head[0] == 128 + op
  {
    [128 + op] + LengthAs(form, masked, len)
  }

  function EncodeAs(form: Form, op: opcode, payload: seq<byte>, key: Key): seq<byte>
    requires ValidKey(key) && Fits(form, |payload|)
  {
    HeadAs(form, op, key.Masked?, |payload|) + Body(payload, key)
  }

  /** A frame a peer takes, in any form that holds its length. */
  predicate Acceptable(form: Form, op: opcode, payload: seq<byte>, key: Key, requireMask: bool) {
    ValidKey(key) && (requireMask ==> key.Masked?) && Sendable(op, payload) && Fits(form, |payload|)
  }

  ghost predicate BeginsWith(s: seq<byte>, requireMask: bool, form: Form, op: opcode, payload: seq<byte>, key: Key) {
    Acceptable(form, op, payload, key, requireMask) && EncodeAs(form, op, payload, key) <= s
  }

  /** The encoder's form is the minimal one, and no other form gives its bytes. */
  lemma MinimalIff(form: Form, op: opcode, payload: seq<byte>, key: Key)
    requires ValidKey(key) && Fits(form, |payload|)
    ensures EncodeAs(form, op, payload, key) == Encode(op, payload, key) <==> form == Minimal(|payload|)
  {
    var mine, his := EncodeAs(form, op, payload, key), Encode(op, payload, key);
    assert his == [128 + op] + LengthBytes(key.Masked?, |payload|) + Body(payload, key);
    assert mine[1] == LengthAs(form, key.Masked?, |payload|)[0] && his[1] == LengthBytes(key.Masked?, |payload|)[0];
  }

  // ---------------------------------------------------------------- every form decodes

  lemma ExtendedReads(s: seq<byte>, form: Form, op: opcode, masked: bool, len: nat, n: nat)
    requires form != Short && n == (if form == Medium then 2 else 8)
    requires Fits(form, len) && HeadAs(form, op, masked, len) <= s
    ensures |HeadAs(form, op, masked, len)| == 2 + n <= |s| && Value(s[2..2 + n]) == len
    ensures s[1] == (if masked then 128 else 0) + (if form == Medium then 126 else 127)
  {
    var head := HeadAs(form, op, masked, len);
    assert s[1] == head[1] && head[2..] == BigEndian(len, n);
    ExtendedLength(s, head, len, n);
  }

  lemma HeadReads(s: seq<byte>, form: Form, op: opcode, masked: bool, len: nat)
    requires Fits(form, len) && HeadAs(form, op, masked, len) <= s
    ensures s[0] == 128 + op && (s[1] >= 128 <==> masked)
    ensures DecodeLength(s, op, masked, s[1] % 128) == DecodeBody(s, op, masked, len, |HeadAs(form, op, masked, len)|)
  {
    var head := HeadAs(form, op, masked, len);
    assert s[0] == head[0] && s[1] == head[1];
    if form != Short { ExtendedReads(s, form, op, masked, len, if form == Medium then 2 else 8); }
  }

  lemma FormDecodes(form: Form, op: opcode, payload: seq<byte>, key: Key, requireMask: bool, rest: seq<byte>)
    requires Acceptable(form, op, payload, key, requireMask)
    ensures var frame := EncodeAs(form, op, payload, key);
            Decode(frame + rest, requireMask) == Ok(op, key.Masked?, payload, |frame|)
  {
    var head := HeadAs(form, op, key.Masked?, |payload|);
    var s := EncodeAs(form, op, payload, key) + rest;
    assert s == head + Body(payload, key) + rest;
    HeadReads(s, form, op, key.Masked?, |payload|);
    HeadDecodes(s, op, requireMask);
    BodyDecodes(head, op, payload, key, rest);
  }

  // ---------------------------------------------------------------- nothing else does

  lemma OpcodeRead(s: seq<byte>, requireMask: bool)
    requires Decode(s, requireMask).Ok?
    ensures var r := Decode(s, requireMask);
            && s[0] == 128 + r.op && IsKnown(r.op) && r.op != CONTINUATION && (requireMask ==> s[1] >= 128)
            && r == DecodeLength(s, r.op, s[1] >= 128, s[1] % 128)
  {
    UsedBounds(s, requireMask);
  }

  lemma ReadBack(s: seq<byte>, n: nat)
    requires |s| >= 2 + n && n in {2, 8}
    ensures BigEndian(Value(s[2..2 + n]), n) == s[2..2 + n] && (n == 2 ==> Value(s[2..4]) <= 0xFFFF)
  {
    ReadWrite(s[2..2 + n]);
    ValueBound(s[2..2 + n]);
    SmallPowers();
  }

  lemma ExtendedHead(s: seq<byte>, form: Form, op: opcode, masked: bool, n: nat)
    requires |s| >= 2 + n && s[0] == 128 + op && form != Short && n == (if form == Medium then 2 else 8)
    requires s[1] == (if masked then 128 else 0) + (if form == Medium then 126 else 127)
    requires Fits(form, Value(s[2..2 + n]))
    ensures HeadAs(form, op, masked, Value(s[2..2 + n])) == s[..2 + n]
  {
    ReadBack(s, n);
    assert s[..2 + n] == [s[0]] + ([s[1]] + s[2..2 + n]);
  }

  /** The length that was read, in the form it was written in. */
  lemma LengthWritten(s: seq<byte>, op: opcode, masked: bool) returns (form: Form, len: nat)
    requires |s| >= 2 && s[0] == 128 + op && (s[1] >= 128 <==> masked) && DecodeLength(s, op, masked, s[1] % 128).Ok?
    ensures Fits(form, len) && HeadAs(form, op, masked, len) <= s
    ensures DecodeLength(s, op, masked, s[1] % 128) == DecodeBody(s, op, masked, len, |HeadAs(form, op, masked, len)|)
  {
    if s[1] % 128 == 126 {
      form, len := Medium, Value(s[2..4]);
      ReadBack(s, 2);
      ExtendedHead(s, Medium, op, masked, 2);
    } else if s[1] % 128 == 127 {
      form, len := Long, Value(s[2..10]);
      ExtendedHead(s, Long, op, masked, 8);
    } else {
      form, len := Short, s[1] % 128;
      assert HeadAs(Short, op, masked, len) == s[..2];
    }
  }

  lemma BodyWritten(s: seq<byte>, op: opcode, masked: bool, len: nat, n: nat) returns (key: Key)
    requires n <= |s| && DecodeBody(s, op, masked, len, n).Ok?
    ensures ValidKey(key) && (key.Masked? <==> masked)
    ensures var r := DecodeBody(s, op, masked, len, n);
            |r.payload| == len && n <= r.used <= |s| && s[n..r.used] == Body(r.payload, key)
  {
    if masked {
      key := Masked(s[n..n + 4]);
      MaskTwice(key.key, s[n + 4..n + 4 + len]);
      assert s[n..n + 4 + len] == s[n..n + 4] + s[n + 4..n + 4 + len];
    } else {
      key := Unmasked;
    }
  }

  /** The frame behind its head. */
  lemma FrameWritten(s: seq<byte>, form: Form, op: opcode, masked: bool, len: nat, n: nat) returns (key: Key)
    requires Fits(form, len) && HeadAs(form, op, masked, len) <= s && n == |HeadAs(form, op, masked, len)|
    requires DecodeBody(s, op, masked, len, n).Ok?
    ensures var r := DecodeBody(s, op, masked, len, n);
            && ValidKey(key) && (key.Masked? <==> masked) && r.masked == masked && r.op == op
            && |r.payload| == len && r.used <= |s| && EncodeAs(form, op, r.payload, key) == s[..r.used]
            && (IsControl(op) ==> len <= 125)
  {
    key := BodyWritten(s, op, masked, len, n);
    var r := DecodeBody(s, op, masked, len, n);
    assert s[..r.used] == s[..n] + s[n..r.used];
  }

  /** What decodes was written in one of the forms. */
  lemma WrittenAs(s: seq<byte>, requireMask: bool) returns (form: Form, key: Key)
    requires Decode(s, requireMask).Ok?
    ensures var r := Decode(s, requireMask);
            && BeginsWith(s, requireMask, form, r.op, r.payload, key) && (key.Masked? <==> r.masked)
            && r.used <= |s| && EncodeAs(form, r.op, r.payload, key) == s[..r.used]
  {
    var r, masked := Decode(s, requireMask), s[1] >= 128;
    OpcodeRead(s, requireMask);
    var len;
    form, len := LengthWritten(s, r.op, masked);
    FitsAll(form, len);
    key := FrameWritten(s, form, r.op, masked, len, |HeadAs(form, r.op, masked, len)|);
  }

  lemma FitsAll(form: Form, len: nat)
    requires Fits(form, len)
    ensures len < UINT64_RANGE / 2
  {
  }

  lemma FrameDecodes(s: seq<byte>, requireMask: bool, form: Form, op: opcode, payload: seq<byte>, key: Key)
    requires BeginsWith(s, requireMask, form, op, payload, key)
    ensures Decode(s, requireMask) == Ok(op, key.Masked?, payload, |EncodeAs(form, op, payload, key)|)
  {
    var frame := EncodeAs(form, op, payload, key);
    assert s == frame + s[|frame|..];
    FormDecodes(form, op, payload, key, requireMask, s[|frame|..]);
  }

  // ---------------------------------------------------------------- theorems

  /** A stream decodes if and only if it begins with a frame a peer takes, in any form that holds its
  length. */
  lemma DecodesOnlyFrames(s: seq<byte>, requireMask: bool)
    ensures Decode(s, requireMask).Ok? <==>
            exists form, op, payload, key :: BeginsWith(s, requireMask, form, op, payload, key)
  {
    if Decode(s, requireMask).Ok? {
      var form, key := WrittenAs(s, requireMask);
    } else if exists form, op, payload, key :: BeginsWith(s, requireMask, form, op, payload, key) {
      var form, op, payload, key :| BeginsWith(s, requireMask, form, op, payload, key);
      FrameDecodes(s, requireMask, form, op, payload, key);
    }
  }

  /** The bytes taken are the encoder's if and only if the length was written in its minimal form. */
  lemma TakenIsEncoding(s: seq<byte>, requireMask: bool) returns (form: Form, key: Key)
    requires Decode(s, requireMask).Ok?
    ensures var r := Decode(s, requireMask);
            && BeginsWith(s, requireMask, form, r.op, r.payload, key) && r.used <= |s|
            && (s[..r.used] == Encode(r.op, r.payload, key) <==> form == Minimal(|r.payload|))
  {
    form, key := WrittenAs(s, requireMask);
    var r := Decode(s, requireMask);
    MinimalIff(form, r.op, r.payload, key);
  }

  /** A one-byte payload with its length in two bytes, which the standard forbids, is accepted. */
  lemma LongLengthAccepted()
    ensures Decode([130, 126, 0, 1, 7], false) == Ok(BINARY, false, [7], 5)
    ensures Encode(BINARY, [7], Unmasked) == [130, 1, 7]
  {
    var s: seq<byte> := [130, 126, 0, 1, 7];
    assert s[2..4] == [0, 1] && [0, 1][..1] == [0] && [0][..0] == [];
    assert Value([0]) == 0;
    assert Value(s[2..4]) == 1;
    assert s[4..5] == [7];
  }
}
