/** The laws assumed of the cryptographic primitives can be met together: here is a suite that obeys
them, so no theorem that assumes a lawful suite is empty. */
module Consistency {
  import opened Primitives
  import opened Wire
  import opened Negotiation
  import opened Handshake
  import CryptoCore

  /** A tag that names nonce and algorithm. */
  function Tag(a: Algorithm, n: nat): (t: Bytes)
    ensures |t| == TAG_LEN
  {
    Be(n, 12) + [match a case Aes128 => 1 case Aes256 => 2 case ChaCha20 => 3, 0, 0, 0]
  }

  function SealWith(a: Algorithm, n: nat, d: Bytes): Bytes {
    d + Tag(a, n)
  }

  function OpenWith(a: Algorithm, n: nat, c: Bytes): Option<Bytes> {
    if |c| >= TAG_LEN && c[|c| - TAG_LEN..] == Tag(a, n) then Some(c[..|c| - TAG_LEN]) else None
  }

  function Sealer(a: Algorithm): Aead {
    Aead((k: Key, n: nat, d: Bytes) => SealWith(a, n, d), (k: Key, n: nat, c: Bytes) => OpenWith(a, n, c))
  }

  function Unary(n: nat): (b: Bytes)
    ensures |b| == n
  {
    if n == 0 then [] else Unary(n - 1) + [0]
  }

  function Sum(a: PrivateKey, p: PublicKey): Key {
    Unary(a + |p|)
  }

  /** Keys whose length is a number; agreeing adds the numbers. */
  function Curve(): Dh {
    Dh(Unary, Sum)
  }

  lemma {:induction false} SumCommutes(a: PrivateKey, b: PrivateKey)
    ensures Sum(a, Unary(b)) == Sum(b, Unary(a))
  {
    assert a + |Unary(b)| == b + |Unary(a)|;
  }

  lemma TagsDiffer(a: Algorithm, n: nat, b: Algorithm, n': nat)
    requires n < SPACE && n' < SPACE && Tag(a, n) == Tag(b, n')
    ensures n == n'
  {
    assert Tag(a, n)[..12] == Be(n, 12) && Tag(b, n')[..12] == Be(n', 12);
    CryptoCore.Powers();
    ValueOfBe(n, 12);
    ValueOfBe(n', 12);
  }

  lemma OpenSealed(a: Algorithm, n: nat, b: Algorithm, n': nat, d: Bytes)
    ensures OpenWith(a, n, SealWith(a, n, d)) == Some(d)
    ensures a != b ==> OpenWith(a, n, SealWith(b, n', d)).None?
  {
    assert SealWith(a, n, d)[|d|..] == Tag(a, n) && SealWith(a, n, d)[..|d|] == d;
    assert SealWith(b, n', d)[|d|..] == Tag(b, n');
    assert a != b ==> Tag(a, n)[12] != Tag(b, n')[12];
  }

  lemma SealerLawful(a: Algorithm)
    ensures Sealer(a).Lawful()
  {
    forall n: nat, d: Bytes
      ensures OpenWith(a, n, SealWith(a, n, d)) == Some(d)
    {
      OpenSealed(a, n, a, n, d);
    }
    forall n: nat, d: Bytes, n': nat, d': Bytes | n < SPACE && n' < SPACE && n != n'
      ensures SealWith(a, n, d) != SealWith(a, n', d')
    {
      if SealWith(a, n, d) == SealWith(a, n', d') {
        assert SealWith(a, n, d)[|d|..] == Tag(a, n) && SealWith(a, n', d')[|d'|..] == Tag(a, n');
        TagsDiffer(a, n, a, n');
      }
    }
  }

  lemma CurveLawful()
    ensures Curve().Lawful()
  {
    forall a: PrivateKey, b: PrivateKey
      ensures Sum(a, Unary(b)) == Sum(b, Unary(a))
    {
      SumCommutes(a, b);
    }
  }

  lemma SealersApart(a: Algorithm, b: Algorithm)
    requires a != b
    ensures forall k: Key, n: nat, k': Key, n': nat, d: Bytes :: Sealer(a).open(k, n, Sealer(b).seal(k', n', d)).None?
  {
    forall n: nat, n': nat, d: Bytes
      ensures OpenWith(a, n, SealWith(b, n', d)).None?
    {
      OpenSealed(a, n, b, n', d);
    }
  }

  lemma LawsConsistent()
    ensures Suite(Curve(), Sealer).Lawful()
  {
    CurveLawful();
    forall a: Algorithm
      ensures Sealer(a).Lawful()
    {
      SealerLawful(a);
    }
    forall a: Algorithm, b: Algorithm | a != b
      ensures forall k: Key, n: nat, k': Key, n': nat, d: Bytes :: Sealer(a).open(k, n, Sealer(b).seal(k', n', d)).None?
    {
      SealersApart(a, b);
    }
  }
}
