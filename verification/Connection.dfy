/** The handshake hands over to the rotating session: whatever the handshake run was, what the two
endpoints hold afterwards is an initial state of `SessionPair`, so that the guarantees of both hold
for one connection from the first ping on. */
module Connection {
  import opened Primitives
  import Handshake
  import HandshakePair
  import Negotiation
  import SessionPair
  import Rotation
  import CoreState

  /** Rotated keys are cut to the key length of the algorithm, like the master key. */
  function Cut(dh: Dh, a: Negotiation.Algorithm): (r: Dh)
    ensures dh.Lawful() ==> r.Lawful()
  {
    Dh(dh.pub, (mine: PrivateKey, theirs: PublicKey) => Handshake.MasterKey(a, dh.agree(mine, theirs)))
  }

  /** The session of a responder and an initiator that have both succeeded. The responder starts the
      rotation; the payloads of the pong and the peng are the first two encryptions. */
  function SessionOf(dh: Dh, responder: Handshake.Keyed, initiator: Handshake.Keyed, secret: PrivateKey,
                     pong: Bytes, peng: Bytes): (s: SessionPair.System)
    requires responder.core.Valid() && initiator.core.Valid()
  {
    var (rot, first) := Rotation.Start(dh, true, secret);
    var master := responder.core.keys[0].key;
    SessionPair.System(
      SessionPair.Side(rot, responder.core, []),
      SessionPair.Side(Rotation.Start(dh, false, 0).0, initiator.core, []),
      {first.value},
      [SessionPair.Use(true, master, responder.core.keys[0].send, pong),
       SessionPair.Use(false, master, initiator.core.keys[0].send, peng)],
      {master})
  }

  /** The frame of a payload is the encryption recorded for it. */
  ghost predicate Recorded(suite: Handshake.Suite, a: Negotiation.Algorithm, box: Handshake.Box, use: SessionPair.Use,
                           half: bool) {
    && box.Sealed? && use.nonce == CoreState.Base(half) + box.frame.wire
    && box.frame.body == suite.aead(a).seal(use.key, use.nonce, use.data)
  }

  lemma SessionBegins(suite: Handshake.Suite, dh: Dh, responder: HandshakePair.Node, initiator: HandshakePair.Node,
                      net: set<Handshake.Msg>, secret: PrivateKey)
    requires suite.Lawful() && HandshakePair.Both(suite, initiator, responder, net)
    requires initiator.done.Some? && responder.done.Some? && initiator.done.value.isInitiator
    requires initiator.done.value.crypto.Some?
    ensures responder.done.value.crypto.Some? && !responder.done.value.isInitiator
    ensures var r, i := responder.done.value.crypto.value, initiator.done.value.crypto.value;
            && r.core.Valid() && i.core.Valid() && r.algorithm == i.algorithm
            && var s := SessionOf(dh, r, i, secret, responder.init.payload, initiator.init.payload);
               && SessionPair.Initial(dh, s, r.core.keys[0].key)
               && responder.pong.Some? && responder.pong.value.1.Pong? && initiator.peng.Some? && initiator.peng.value.Peng?
               && Recorded(suite, r.algorithm, responder.pong.value.1.box, s.ledger[0], r.core.half)
               && Recorded(suite, r.algorithm, initiator.peng.value.box, s.ledger[1], i.core.half)
  {
    HandshakePair.AgreementOf(suite, initiator, responder, net);
    var s := SessionOf(dh, responder.done.value.crypto.value, initiator.done.value.crypto.value, secret,
                       responder.init.payload, initiator.init.payload);
    assert s.a.rot == Rotation.Start(dh, true, secret).0;
    assert HandshakePair.Agreed(suite, initiator, responder, true) == HandshakePair.Agreed(suite, responder, initiator, false);
  }
}
