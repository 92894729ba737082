/** How a node recognises handshake messages of its own.

Every endpoint names its node by a salted hash: four bytes of salt and the first sixteen bytes of a
digest of salt and node id. The documentation promises that a message with the own node id closes the
connection. The code refuses a message if its salted hash is the endpoint's own, or if it passes a
second test that hashes the own node id with the salt of the message. */
module NodeIdentity {
  import opened Primitives
  import opened Wire
  import opened Negotiation
  import opened Handshake
  import HandshakePair
  import HandshakeProgress

  type Salt = b: Bytes | |b| == 4 witness [0, 0, 0, 0]

  type NodeId = b: Bytes | |b| == 16 witness [0, 0, 0, 0, 0, 0, 0, 0, 0, 0, 0, 0, 0, 0, 0, 0]

  type SaltedHash = b: Bytes | |b| == 20
    witness [0, 0, 0, 0, 0, 0, 0, 0, 0, 0, 0, 0, 0, 0, 0, 0, 0, 0, 0, 0]

  /** A digest has 32 bytes. */
  type Digest = b: Bytes | |b| == 32 witness seq(32, _ => 0)

  function Salted(digest: Bytes -> Digest, salt: Salt, id: NodeId): SaltedHash {
    salt + digest(salt + id)[..16]
  }

  /** The second test, as the program makes it: twenty bytes against all of a digest. */
  predicate SecondTest(digest: Bytes -> Digest, h: SaltedHash, id: NodeId) {
    h == digest(h[..4] + id)
  }

  predicate TakenForOwn(digest: Bytes -> Digest, own: SaltedHash, id: NodeId, h: SaltedHash) {
    h == own || SecondTest(digest, h, id)
  }

  /** It never holds. */
  lemma SecondTestNever(digest: Bytes -> Digest, h: SaltedHash, id: NodeId)
    ensures !SecondTest(digest, h, id)
  {
    assert |h| != |digest(h[..4] + id)|;
  }

  lemma SaltedDiffer(digest: Bytes -> Digest, salt: Salt, salt': Salt, id: NodeId)
    ensures Salted(digest, salt, id) == Salted(digest, salt', id) <==> salt == salt'
  {
    assert Salted(digest, salt, id)[..4] == salt && Salted(digest, salt', id)[..4] == salt';
  }

  lemma NumbersDiffer(h: Bytes, h': Bytes)
    requires |h| == |h'|
    ensures Value(h) == Value(h') <==> h == h'
  {
    BeOfValue(h);
    BeOfValue(h');
  }

  /** The handshake model refuses exactly what the two tests refuse, and of the messages of the own
      node exactly those with the own salt. */
  lemma RefusedExactly(suite: Suite, digest: Bytes -> Digest, id: NodeId, salt: Salt, salt': Salt, s: Init, m: Msg,
                       rnd: Random)
    requires s.Valid() && s.hash == Value(Salted(digest, salt, id)) && m.hash == Value(Salted(digest, salt', id))
    ensures Handle(suite, s, m, rnd).1 == Failed(ConnectedToSelf)
            <==> TakenForOwn(digest, Salted(digest, salt, id), id, Salted(digest, salt', id))
    ensures Handle(suite, s, m, rnd).1 == Failed(ConnectedToSelf) <==> salt == salt'
  {
    SecondTestNever(digest, Salted(digest, salt', id), id);
    SaltedDiffer(digest, salt, salt', id);
    NumbersDiffer(Salted(digest, salt, id), Salted(digest, salt', id));
    OnlyFirstTest(suite, s, m, rnd);
  }

  lemma OnlyFirstTest(suite: Suite, s: Init, m: Msg, rnd: Random)
    requires s.Valid()
    ensures Handle(suite, s, m, rnd).1 == Failed(ConnectedToSelf) <==> m.hash == s.hash
  {
  }

  /** The same for the message of any node: refused exactly if its salted hash is the own one. */
  lemma RefusedIfEqual(suite: Suite, digest: Bytes -> Digest, id: NodeId, own: SaltedHash, h: SaltedHash, s: Init, m: Msg,
                       rnd: Random)
    requires s.Valid() && s.hash == Value(own) && m.hash == Value(h)
    ensures Handle(suite, s, m, rnd).1 == Failed(ConnectedToSelf) <==> TakenForOwn(digest, own, id, h)
    ensures TakenForOwn(digest, own, id, h) <==> h == own
  {
    SecondTestNever(digest, h, id);
    NumbersDiffer(own, h);
    OnlyFirstTest(suite, s, m, rnd);
  }

  /** Two endpoints of one node. */
  function OneNode(digest: Bytes -> Digest, id: NodeId, salt: Salt, salt': Salt, payload: Bytes, algorithms: Algorithms)
    : HandshakePair.System
  {
    HandshakePair.System(
      HandshakePair.NewNode(Value(Salted(digest, salt, id)), payload, algorithms),
      HandshakePair.NewNode(Value(Salted(digest, salt', id)), payload, algorithms),
      {})
  }

  /** A node connects to itself: two endpoints of it with different salts can both succeed. */
  lemma OwnNodeConnects(suite: Suite, digest: Bytes -> Digest, id: NodeId, salt: Salt, salt': Salt, payload: Bytes,
                        algorithms: Algorithms, secret: PrivateKey, rnd: Random)
    requires suite.Lawful() && salt != salt' && !Select(algorithms, algorithms).NoCommon?
    ensures var s := OneNode(digest, id, salt, salt', payload, algorithms);
            HandshakePair.Initial(s) && HandshakeProgress.CanFinish(suite, s)
  {
    var s := OneNode(digest, id, salt, salt', payload, algorithms);
    SaltedDiffer(digest, salt, salt', id);
    NumbersDiffer(Salted(digest, salt, id), Salted(digest, salt', id));
    HandshakeProgress.HandshakeProgress(suite, s, [], secret, rnd);
  }
}
