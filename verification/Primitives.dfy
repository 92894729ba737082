/** Vocabulary shared by all modules: bytes, options and the idealised primitives.

The cryptographic primitives are foreign code, so they appear as function values that are
arbitrary except for the laws the protocol relies on. Every theorem that mentions a `Dh` or an
`Aead` therefore holds for each choice of functions obeying the stated law. */
module Primitives {

  type byte = x: int | 0 <= x < 256

  type Bytes = seq<byte>

  type PrivateKey = nat

  type PublicKey = Bytes

  type Key = Bytes

  datatype Option<+T> = None | Some(value: T)

  datatype Result<+T, +E> = Ok(value: T) | Err(error: E)

  /** Elliptic curve Diffie-Hellman: the public half of a private key and the agreement of a
      private key with a public one. */
  datatype Dh = Dh(pub: PrivateKey -> PublicKey, agree: (PrivateKey, PublicKey) -> Key) {

    /** Both ends compute the same secret (section 6.1 of RFC 7748). */
    ghost predicate Lawful() {
      forall a: PrivateKey, b: PrivateKey :: agree(a, pub(b)) == agree(b, pub(a))
    }
  }

  const TAG_LEN := 16

  /** 2^95, 2^96, 2^56 and 2^48: the upper nonce half, the nonce space, the part of a nonce that is
      transferred and the range of the random starting point. */
  const HALF: nat := 0x8000_0000_0000_0000_0000_0000
  const SPACE: nat := 0x1_0000_0000_0000_0000_0000_0000
  const WIRE: nat := 0x100_0000_0000_0000
  const START: nat := 0x1_0000_0000_0000

  /** Authenticated encryption of a byte string under a key and a nonce, the nonce given by its
      big-endian value. */
  datatype Aead = Aead(seal: (Key, nat, Bytes) -> Bytes, open: (Key, nat, Bytes) -> Option<Bytes>) {

    /** Opening succeeds exactly on what sealing under the same key and nonce produced. */
    ghost predicate Lawful() {
      && (forall k: Key, n: nat, d: Bytes :: |seal(k, n, d)| == |d| + TAG_LEN)
      && (forall k: Key, n: nat, d: Bytes :: open(k, n, seal(k, n, d)) == Some(d))
      && (forall k: Key, n: nat, c: Bytes :: open(k, n, c).Some? ==> c == seal(k, n, open(k, n, c).value))
      && (forall k: Key, n: nat, d: Bytes, n': nat, d': Bytes ::
            n < SPACE && n' < SPACE && n != n' ==> seal(k, n, d) != seal(k, n', d'))
    }
  }
}
