/** Bytes, big-endian numbers and exclusive or. */
module Bytes {

  type byte = b: int | 0 <= b < 256

  const UINT64_RANGE: nat := 0x1_0000_0000_0000_0000

  function Pow256(n: nat): (r: nat)
    ensures r > 0
  {
    if n == 0 then 1 else 256 * Pow256(n - 1)
  }

  function Value(s: seq<byte>): nat {
    if s == [] then 0 else 256 * Value(s[..|s| - 1]) + s[|s| - 1]
  }

  function BigEndian(value: nat, len: nat): (s: seq<byte>)
    ensures |s| == len
  {
    if len == 0 then [] else BigEndian(value / 256, len - 1) + [value % 256]
  }

  lemma {:induction false} ValueBound(s: seq<byte>)
    ensures Value(s) < Pow256(|s|)
  {
    if s != [] { ValueBound(s[..|s| - 1]); }
  }

  lemma {:induction false} WriteRead(value: nat, len: nat)
    requires value < Pow256(len)
    ensures Value(BigEndian(value, len)) == value
  {
    if len > 0 {
      WriteRead(value / 256, len - 1);
      var s := BigEndian(value, len);
      assert s[..|s| - 1] == BigEndian(value / 256, len - 1);
    }
  }

  lemma {:induction false} ReadWrite(s: seq<byte>)
    ensures BigEndian(Value(s), |s|) == s
  {
    if s != [] { ReadWrite(s[..|s| - 1]); }
  }

  /** value >> (8 * k). */
  function ShiftRight(value: nat, k: nat): nat {
    if k == 0 then value else ShiftRight(value, k - 1) / 256
  }

  /** appendBigEndian: pushes the bytes of `value`, highest first. */
  method AppendBigEndian(out: seq<byte>, value: nat, len: nat) returns (r: seq<byte>)
    ensures r == out + BigEndian(value, len)
  {
    r := out;
    for i := 0 to len
      invariant r == out + BigEndian(ShiftRight(value, len - i), i)
    {
      r := r + [ShiftRight(value, len - 1 - i) % 256];
    }
  }

  /** readBigEndian: a 64-bit accumulator shifted left a byte at a time. */
  method ReadBigEndian(data: seq<byte>) returns (value: nat)
    ensures value == Value(data) % UINT64_RANGE
    ensures |data| <= 8 ==> value == Value(data)
  {
    value := 0;
    for i := 0 to |data|
      invariant value == Value(data[..i]) % UINT64_RANGE
    {
      ShiftIn(Value(data[..i]), data[i]);
      assert data[..i + 1][..i] == data[..i];
      value := (value * 256 + data[i]) % UINT64_RANGE;
    }
    assert data[..|data|] == data;
    if |data| <= 8 {
      ValueBound(data);
      SmallPowers();
      Pow256Grows(|data|, 8);
    }
  }

  lemma ShiftIn(v: nat, b: byte)
    ensures ((v % UINT64_RANGE) * 256 + b) % UINT64_RANGE == (v * 256 + b) % UINT64_RANGE
  {
  }

  lemma {:induction false} Pow256Grows(m: nat, n: nat)
    requires m <= n
    ensures Pow256(m) <= Pow256(n)
  {
    if m < n { Pow256Grows(m, n - 1); }
  }

  lemma SmallPowers()
    ensures Pow256(1) == 0x100 && Pow256(2) == 0x1_0000 && Pow256(4) == 0x1_0000_0000
    ensures Pow256(8) == UINT64_RANGE
  {
    assert Pow256(3) == 0x100_0000;
    assert Pow256(6) == 0x1_0000_0000_0000;
  }

  /** Exclusive or of the low `n` bits. */
  function XorBits(a: nat, b: nat, n: nat): nat {
    if n == 0 then 0 else 2 * XorBits(a / 2, b / 2, n - 1) + (if a % 2 == b % 2 then 0 else 1)
  }

  function Pow2(n: nat): nat {
    if n == 0 then 1 else 2 * Pow2(n - 1)
  }

  lemma {:induction false} XorBitsTwice(a: nat, b: nat, n: nat)
    requires a < Pow2(n)
    ensures XorBits(XorBits(a, b, n), b, n) == a && XorBits(a, b, n) < Pow2(n)
  {
    if n > 0 { XorBitsTwice(a / 2, b / 2, n - 1); }
  }

  lemma Pow2OfEight()
    ensures Pow2(8) == 256
  {
    assert Pow2(4) == 16;
  }

  function Xor(a: byte, b: byte): (r: byte)
    ensures XorBits(r, b, 8) == a
  {
    Pow2OfEight();
    XorBitsTwice(a, b, 8);
    XorBits(a, b, 8)
  }

  /** Bit `k` of a number, counted from the lowest. */
  predicate Bit(n: nat, k: nat) {
    if k == 0 then n % 2 == 1 else Bit(n / 2, k - 1)
  }

  lemma {:induction false} XorBitsBit(a: nat, b: nat, n: nat, k: nat)
    requires k < n
    ensures Bit(XorBits(a, b, n), k) <==> (Bit(a, k) != Bit(b, k))
    decreases k
  {
    var low := if a % 2 == b % 2 then 0 else 1;
    assert XorBits(a, b, n) / 2 == XorBits(a / 2, b / 2, n - 1) && XorBits(a, b, n) % 2 == low;
    if k > 0 { XorBitsBit(a / 2, b / 2, n - 1, k - 1); }
  }

  /** `r` is `a` with exactly the bits turned over that are set in `key`. */
  predicate Turns(a: byte, key: byte, r: byte) {
    forall k: nat :: k < 8 ==> (Bit(r, k) <==> (Bit(a, k) != Bit(key, k)))
  }

  /** What exclusive or does to every bit. */
  lemma XorTurns(a: byte, key: byte)
    ensures Turns(a, key, Xor(a, key))
  {
    forall k: nat | k < 8 ensures Bit(Xor(a, key), k) <==> (Bit(a, k) != Bit(key, k)) { XorBitsBit(a, key, 8, k); }
  }

  /** Masking twice with the same key gives the byte back. */
  lemma XorTwice(a: byte, b: byte)
    ensures Xor(Xor(a, b), b) == a
  {
  }
}
