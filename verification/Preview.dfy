/** Cutting a conversation preview without splitting a character, section 3 of RFC 3629. */
module Preview {
  import opened Bytes
  import opened Streams

  predicate IsContinuation(b: byte) {
    b / 64 == 2
  }

  /** How many bytes a character with this lead byte has; 1 for every other byte. */
  function ExpectedLength(lead: byte): nat {
    if lead / 32 == 6 then 2 else if lead / 16 == 14 then 3 else if lead / 8 == 30 then 4 else 1
  }

  /** A lead byte and as many continuation bytes as it announces. */
  ghost predicate IsCharacter(c: seq<byte>) {
    && c != [] && !IsContinuation(c[0]) && |c| == ExpectedLength(c[0])
    && forall i :: 1 <= i < |c| ==> IsContinuation(c[i])
  }

  /** The encoding of a code point, after the table in section 3 of RFC 3629. */
  function Utf8(code: nat): (c: seq<byte>)
    requires code < 0x11_0000
  {
    if code < 0x80 then [code]
    else if code < 0x800 then [0xC0 + code / 64, 0x80 + code % 64]
    else if code < 0x1_0000 then [0xE0 + code / 4096, 0x80 + code / 64 % 64, 0x80 + code % 64]
    else [0xF0 + code / 0x4_0000, 0x80 + code / 4096 % 64, 0x80 + code / 64 % 64, 0x80 + code % 64]
  }

  /** Every encoded code point is a character, and has the length its lead byte announces. */
  lemma Utf8IsCharacter(code: nat)
    requires code < 0x11_0000
    ensures IsCharacter(Utf8(code))
  {
    var c := Utf8(code);
    assert forall i :: 1 <= i < |c| ==> 0x80 <= c[i] < 0xC0;
  }

  ghost predicate AllCharacters(cs: seq<seq<byte>>) {
    forall c :: c in cs ==> IsCharacter(c)
  }

  /** The last place at or before `end` that is not inside a run of continuation bytes. */
  function BackUp(value: seq<byte>, end: nat): (r: nat)
    requires end < |value|
    ensures r <= end
  {
    if end > 0 && IsContinuation(value[end]) then BackUp(value, end - 1) else end
  }

  function SafeLength(value: seq<byte>, maxLen: nat): (r: nat)
    ensures r <= maxLen && r <= |value|
  {
    if |value| <= maxLen then |value|
    else
      var end := BackUp(value, maxLen);
      if end == maxLen then end
      else if ExpectedLength(value[end]) > 1 &&
           end + ExpectedLength(value[end]) <= maxLen then end + ExpectedLength(value[end])
      else end
  }

  method Utf8SafePrefixLength(value: seq<byte>, maxLen: nat) returns (r: nat)
    ensures r == SafeLength(value, maxLen)
  {
    if |value| <= maxLen { return |value|; }
    var end := maxLen;
    while end > 0 && IsContinuation(value[end])
      invariant 0 <= end <= maxLen && BackUp(value, end) == BackUp(value, maxLen)
    {
      end := end - 1;
    }
    if end == maxLen { return end; }
    var lead := value[end];
    var expected := 1;
    if lead / 32 == 6 { expected := 2; }
    else if lead / 16 == 14 { expected := 3; }
    else if lead / 8 == 30 { expected := 4; }
    else { return end; }
    r := if end + expected <= maxLen then end + expected else end;
  }

  method BuildPreview(content: seq<byte>, maxLen: nat) returns (preview: seq<byte>)
    ensures preview == content[..SafeLength(content, maxLen)] && |preview| <= maxLen
  {
    if |content| <= maxLen { return content; }
    var n := Utf8SafePrefixLength(content, maxLen);
    preview := content[..n];
  }

  // ---------------------------------------------------------------- well-formed text

  /** Where the bytes of the n-th character are. */
  lemma CharacterAt(cs: seq<seq<byte>>, n: nat, k: nat)
    requires n < |cs| && k < |cs[n]|
    ensures |Concat(cs[..n])| + k < |Concat(cs)| && Concat(cs)[|Concat(cs[..n])| + k] == cs[n][k]
  {
    ConcatJoin(cs[..n], cs[n..]);
    assert cs == cs[..n] + cs[n..];
    assert cs[n..][0] == cs[n];
  }

  /** Backing up from inside a character stops at its lead byte. */
  lemma {:induction false} BackUpToLead(cs: seq<seq<byte>>, n: nat, k: nat)
    requires AllCharacters(cs) && n < |cs| && k < |cs[n]|
    ensures |Concat(cs[..n])| + k < |Concat(cs)|
    ensures BackUp(Concat(cs), |Concat(cs[..n])| + k) == |Concat(cs[..n])|
    decreases k
  {
    CharacterAt(cs, n, k);
    assert IsCharacter(cs[n]);
    if k > 0 { BackUpToLead(cs, n, k - 1); }
  }

  /** A text of whole characters is cut behind the last character that fits. */
  lemma CutsBetweenCharacters(cs: seq<seq<byte>>, maxLen: nat)
    requires AllCharacters(cs) && maxLen < |Concat(cs)|
    ensures SafeLength(Concat(cs), maxLen) == |Concat(cs[..Complete(cs, maxLen)])|
  {
    var n := Complete(cs, maxLen);
    assert cs[..|cs|] == cs;
    if n < |cs| {
      var start := |Concat(cs[..n])|;
      BackUpToLead(cs, n, maxLen - start);
      CharacterAt(cs, n, 0);
      assert IsCharacter(cs[n]);
    }
  }

  /** The preview of a text of whole characters is whole characters: the longest such prefix that fits. */
  lemma LongestWholePrefix(cs: seq<seq<byte>>, maxLen: nat) returns (n: nat)
    requires AllCharacters(cs)
    ensures n <= |cs| && Concat(cs)[..SafeLength(Concat(cs), maxLen)] == Concat(cs[..n]) && |Concat(cs[..n])| <= maxLen
    ensures forall m: nat :: m <= |cs| && |Concat(cs[..m])| <= maxLen ==> m <= n
  {
    var value := Concat(cs);
    if |value| <= maxLen {
      n := |cs|;
      assert cs[..n] == cs && value[..|value|] == value;
    } else {
      CutsBetweenCharacters(cs, maxLen);
      n := Complete(cs, maxLen);
      ConcatJoin(cs[..n], cs[n..]);
      assert cs == cs[..n] + cs[n..];
      forall m: nat | n < m <= |cs| ensures |Concat(cs[..m])| > maxLen { LongerIsTooLong(cs, n, m, maxLen); }
    }
  }

  lemma LongerIsTooLong(cs: seq<seq<byte>>, n: nat, m: nat, maxLen: nat)
    requires n < m <= |cs| && maxLen < |Concat(cs[..n])| + |cs[n]|
    ensures |Concat(cs[..m])| > maxLen
  {
    ConcatJoin(cs[..n], cs[n..m]);
    assert cs[..m] == cs[..n] + cs[n..m] && cs[n..m][0] == cs[n];
  }
}
