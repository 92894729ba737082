/** Addresses and address ranges. Equality, hashing, matching and the codec of an address look at the
used part of its data only, so an address is that part. */
module Ranges {
  import opened Primitives
  import opened Bits

  const MAX_ADDRESS_LEN := 16

  type Address = a: Bytes | |a| <= MAX_ADDRESS_LEN witness []

  datatype Range = Range(base: Address, prefixLen: byte)

  function AddressBits(a: Bytes): (b: seq<bool>)
    ensures |b| == 8 * |a|
  {
    if a == [] then [] else ByteBits(a[0]) + AddressBits(a[1..])
  }

  /** A range contains the addresses of its length that start with its first `prefixLen` bits. */
  predicate Contains(r: Range, a: Address) {
    && |r.base| == |a|
    && r.prefixLen as int <= 8 * |a|
    && AddressBits(r.base)[..r.prefixLen as int] == AddressBits(a)[..r.prefixLen as int]
  }

  /** The byte-wise comparison of the program, with the early exit at the first different byte. The
      8-bit counter never overflows, as addresses have at most 128 bits. */
  method Matches(r: Range, a: Address) returns (m: bool)
    ensures m <==> Contains(r, a)
  {
    if |r.base| != |a| {
      return false;
    }
    var matchLen: byte := 0;
    var i := 0;
    ghost var shared := Shared(AddressBits(r.base), AddressBits(a));
    while i < |a|
      invariant 0 <= i <= |a|
      invariant matchLen as int == 8 * i
      invariant shared == 8 * i + Shared(AddressBits(r.base[i..]), AddressBits(a[i..]))
    {
      var x := Xor(a[i], r.base[i]);
      SharedByByte(r.base, a, i);
      matchLen := matchLen + LeadingZeros(x);
      if x != 0 {
        break;
      }
      i := i + 1;
    }
    SharedPrefix(AddressBits(r.base), AddressBits(a), r.prefixLen);
    m := matchLen >= r.prefixLen;
  }

  /** Byte by byte: the bits two equal bytes share, and then the rest, or those before the first
      difference. */
  lemma SharedByByte(a: Bytes, b: Bytes, i: nat)
    requires |a| == |b| && i < |a|
    ensures var x := Xor(b[i], a[i]);
            && (x == 0 ==> LeadingZeros(x) == 8)
            && Shared(AddressBits(a[i..]), AddressBits(b[i..]))
               == LeadingZeros(x) + if x == 0 then Shared(AddressBits(a[i + 1..]), AddressBits(b[i + 1..])) else 0
  {
    LeadingZerosOfXor(b[i], a[i]);
    SharedSymmetric(ByteBits(b[i]), ByteBits(a[i]));
    assert a[i..][1..] == a[i + 1..] && b[i..][1..] == b[i + 1..];
    SharedConcat(ByteBits(a[i]), ByteBits(b[i]), AddressBits(a[i + 1..]), AddressBits(b[i + 1..]));
    BitsDiffer(a[i], b[i]);
  }

  lemma BitsDiffer(x: byte, y: byte)
    ensures ByteBits(x) == ByteBits(y) <==> x == y
  {
    LeadingZerosOfXor(x, y);
    if ByteBits(x) == ByteBits(y) {
      SharedPrefix(ByteBits(x), ByteBits(y), 8);
    }
  }

  lemma {:induction false} SharedSymmetric(a: seq<bool>, b: seq<bool>)
    requires |a| == |b|
    ensures Shared(a, b) == Shared(b, a)
  {
    if a != [] && a[0] == b[0] {
      SharedSymmetric(a[1..], b[1..]);
    }
  }

  lemma SharedPrefix(a: seq<bool>, b: seq<bool>, n: nat)
    requires |a| == |b|
    ensures Shared(a, b) >= n <==> n <= |a| && a[..n] == b[..n]
  {
    var k := Shared(a, b);
    if n <= k {
      assert a[..n] == a[..k][..n] && b[..n] == b[..k][..n];
    } else if n <= |a| {
      assert a[..n][k] != b[..n][k];
    }
  }
}
