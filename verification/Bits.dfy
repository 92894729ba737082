/** Bytes bit by bit: exclusive or, leading zeros and common prefixes. */
module Bits {
  import opened Primitives

  function Pow2(k: nat): (p: nat)
    ensures p >= 1
  {
    if k == 0 then 1 else 2 * Pow2(k - 1)
  }

  /** The `n` bits of a number, the most significant one first. */
  function ToBits(n: nat, x: nat): (b: seq<bool>)
    requires x < Pow2(n)
    ensures |b| == n
  {
    if n == 0 then []
    else if x >= Pow2(n - 1) then [true] + ToBits(n - 1, x - Pow2(n - 1))
    else [false] + ToBits(n - 1, x)
  }

  function FromBits(b: seq<bool>): (x: nat)
    ensures x < Pow2(|b|)
  {
    if b == [] then 0 else (if b[0] then Pow2(|b| - 1) else 0) + FromBits(b[1..])
  }

  lemma {:induction false} ToFromBits(b: seq<bool>)
    ensures ToBits(|b|, FromBits(b)) == b
  {
    if b != [] {
      ToFromBits(b[1..]);
    }
  }

  lemma {:induction false} FromToBits(n: nat, x: nat)
    requires x < Pow2(n)
    ensures FromBits(ToBits(n, x)) == x
  {
    if n > 0 {
      FromToBits(n - 1, if x >= Pow2(n - 1) then x - Pow2(n - 1) else x);
    }
  }

  function ByteBits(x: byte): (b: seq<bool>)
    ensures |b| == 8
  {
    Pow2Of8();
    ToBits(8, x)
  }

  lemma Pow2Of8()
    ensures Pow2(8) == 256
  {
    assert Pow2(4) == 16;
  }

  function XorBits(a: seq<bool>, b: seq<bool>): (r: seq<bool>)
    requires |a| == |b|
    ensures |r| == |a|
  {
    seq(|a|, i requires 0 <= i < |a| => a[i] != b[i])
  }

  function Xor(x: byte, y: byte): (z: byte) {
    Pow2Of8();
    FromBits(XorBits(ByteBits(x), ByteBits(y)))
  }

  /** Masking twice restores the byte. */
  lemma XorInvolution(x: byte, m: byte)
    ensures Xor(Xor(x, m), m) == x
  {
    var a, b := ByteBits(x), ByteBits(m);
    ToFromBits(XorBits(a, b));
    assert XorBits(XorBits(a, b), b) == a;
    Pow2Of8();
    FromToBits(8, x);
  }

  /** How many of the leading bits are zero. */
  function Zeros(b: seq<bool>): nat {
    if b == [] || b[0] then 0 else 1 + Zeros(b[1..])
  }

  function LeadingZeros(x: byte): nat {
    Zeros(ByteBits(x))
  }

  /** How many leading bits two strings share. */
  function Shared(a: seq<bool>, b: seq<bool>): (n: nat)
    requires |a| == |b|
    ensures n <= |a| && a[..n] == b[..n] && (n < |a| ==> a[n] != b[n])
  {
    if a == [] || a[0] != b[0] then 0 else 1 + Shared(a[1..], b[1..])
  }

  lemma {:induction false} ZerosOfXor(a: seq<bool>, b: seq<bool>)
    requires |a| == |b|
    ensures Zeros(XorBits(a, b)) == Shared(a, b)
  {
    if a != [] {
      ZerosOfXor(a[1..], b[1..]);
      assert XorBits(a, b)[1..] == XorBits(a[1..], b[1..]);
    }
  }

  /** The leading zeros of an exclusive or count the shared leading bits. */
  lemma LeadingZerosOfXor(x: byte, y: byte)
    ensures LeadingZeros(Xor(x, y)) == Shared(ByteBits(x), ByteBits(y))
    ensures Xor(x, y) == 0 <==> x == y
    ensures x == y <==> Shared(ByteBits(x), ByteBits(y)) == 8
  {
    var a, b := ByteBits(x), ByteBits(y);
    ToFromBits(XorBits(a, b));
    ZerosOfXor(a, b);
    Pow2Of8();
    FromToBits(8, x);
    FromToBits(8, y);
    if Shared(a, b) == 8 {
      assert a == a[..8] && b == b[..8];
    }
    if x == y {
      AllFalse(XorBits(a, a));
    } else if Xor(x, y) == 0 {
      XorZero(a, b);
    }
  }

  lemma {:induction false} AllFalse(b: seq<bool>)
    requires forall i | 0 <= i < |b| :: !b[i]
    ensures FromBits(b) == 0
  {
    if b != [] {
      AllFalse(b[1..]);
    }
  }

  lemma {:induction false} XorZero(a: seq<bool>, b: seq<bool>)
    requires |a| == |b| && FromBits(XorBits(a, b)) == 0
    ensures a == b
  {
    if a != [] {
      assert XorBits(a, b)[1..] == XorBits(a[1..], b[1..]);
      XorZero(a[1..], b[1..]);
      assert a == [a[0]] + a[1..] && b == [b[0]] + b[1..];
    }
  }

  lemma TailConcat(a: seq<bool>, b: seq<bool>)
    requires a != []
    ensures (a + b)[0] == a[0] && (a + b)[1..] == a[1..] + b
  {
  }

  lemma {:induction false} SharedConcat(a: seq<bool>, b: seq<bool>, c: seq<bool>, d: seq<bool>)
    requires |a| == |b| && |c| == |d|
    ensures Shared(a + c, b + d) == if a == b then |a| + Shared(c, d) else Shared(a, b)
  {
    if a == [] {
      assert a + c == c && b + d == d;
    } else {
      SharedConcat(a[1..], b[1..], c, d);
      TailConcat(a, c);
      TailConcat(b, d);
      assert a == [a[0]] + a[1..] && b == [b[0]] + b[1..];
    }
  }
}
