/** What two session objects deliver, from the first ping on: in every honest run the nonces an object
has seen and pinned go back to encryptions of its peer, so a message that one object sends is what the
other reads. */
module ObjectDelivery {
  import opened Primitives
  import opened Handshake
  import opened Negotiation
  import opened PeerCrypto
  import opened SessionRefinement
  import opened EndToEnd
  import opened ObjectRuns
  import CoreState
  import CryptoCore
  import SessionPair
  import SessionHistory
  import Delivery
  import HandshakePair
  import Interleaving

  // ---- Records only grow -----------------------------------------------------------------------

  lemma {:induction false} CountGrows(ledger: seq<SessionPair.Use>, more: seq<SessionPair.Use>, byA: bool, key: Key)
    ensures SessionHistory.Count(ledger, byA, key) <= SessionHistory.Count(ledger + more, byA, key)
    decreases |more|
  {
    if more == [] {
      assert ledger + more == ledger;
    } else {
      var n := |more| - 1;
      CountGrows(ledger, more[..n], byA, key);
      assert ledger + more == (ledger + more[..n]) + [more[n]];
      SessionHistory.CountAppend(ledger + more[..n], more[n], byA, key);
    }
  }

  lemma BudgetShrinks(ledger: seq<SessionPair.Use>, more: seq<SessionPair.Use>)
    requires SessionHistory.WithinBudget(ledger + more)
    ensures SessionHistory.WithinBudget(ledger)
  {
    forall byA: bool, key: Key
      ensures SessionHistory.Count(ledger, byA, key) <= HALF - START
    {
      CountGrows(ledger, more, byA, key);
      assert SessionHistory.Count(ledger + more, byA, key) <= HALF - START;
    }
  }

  lemma {:induction false} LedgerGrows(dh: Dh, aead: Aead, sys: SessionPair.System, acts: seq<SessionPair.Action>)
    requires SessionPair.Ready(sys)
    ensures sys.ledger <= SessionPair.RunFrom(dh, aead, sys, acts).ledger
    decreases |acts|
  {
    if acts != [] {
      LedgerGrows(dh, aead, sys, acts[..|acts| - 1]);
    }
  }

  lemma HeardLater(c: CoreState.Core, peer: bool, ledger: seq<SessionPair.Use>, later: seq<SessionPair.Use>)
    requires c.Valid() && Delivery.CoreHeard(c, peer, ledger) && ledger <= later
    ensures Delivery.CoreHeard(c, peer, later)
  {
    assert later == ledger + later[|ledger|..];
    Delivery.HeardGrows(c, peer, ledger, later[|ledger|..]);
  }

  // ---- Session actions -------------------------------------------------------------------------

  lemma TalkingCounts(suite: Suite, s: Interleaving.State, x: HandshakePair.Node, y: HandshakePair.Node, responder: bool)
    returns (master: Key)
    requires suite.Lawful() && Interleaving.Sound(s) && Interleaving.Phase(suite, s, x, y)
    requires SideFor(s, responder).Some? && SessionHistory.WithinBudget(s.ledger)
    ensures SessionHistory.Counting(SideFor(s, responder).value, responder, s.ledger, master)
  {
    var sys, acts :| Interleaving.Talking(suite, s, x, y, sys, acts);
    master := sys.ledger[0].key;
    SessionHistory.RunNonceInv(Interleaving.Curve(suite, s.h), suite.aead(Interleaving.Algo(s.h)), sys, acts, master);
  }

  /** An established side encrypts in its own half, as far as its sending nonce. */
  lemma SpeakerCounts(suite: Suite, s: Interleaving.State, responder: bool) returns (master: Key)
    requires suite.Lawful() && Interleaving.Sound(s) && Interleaving.Inv(suite, s)
    requires SideFor(s, responder).Some? && SessionHistory.WithinBudget(s.ledger)
    ensures SessionHistory.Counting(SideFor(s, responder).value, responder, s.ledger, master)
  {
    if s.h.a.pong.Some? {
      master := TalkingCounts(suite, s, s.h.a, s.h.b, responder);
    } else {
      master := TalkingCounts(suite, s, s.h.b, s.h.a, responder);
    }
  }

  lemma TalkHeard(suite: Suite, s: Interleaving.State, act: SessionPair.Action)
    requires suite.Lawful() && Interleaving.Sound(s) && Interleaving.Inv(suite, s)
    requires Interleaving.Enabled(suite, s, Interleaving.Talk(act)) && Fairly(suite, s, Interleaving.Talk(act))
    requires Delivery.Hearing(AsSystem(s)) && SessionHistory.WithinBudget(s.ledger)
    ensures Delivery.Hearing(AsSystem(Interleaving.TalkStep(suite, s, act)))
  {
    var master := SpeakerCounts(suite, s, act.byA);
    TalkIsStep(suite, s, act);
    Delivery.HeardStep(Interleaving.Curve(suite, s.h), suite.aead(Interleaving.Algo(s.h)), AsSystem(s), act, master);
  }

  // ---- Handshake actions -----------------------------------------------------------------------

  /** What an initiator brings from the handshake it has heard from the responder. */
  lemma InitiatorHeard(suite: Suite, s: Interleaving.State, x: HandshakePair.Node, y: HandshakePair.Node)
    requires Interleaving.Phase(suite, s, x, y) && Select(x.init.algorithms, y.init.algorithms).Use? && y.done.Some?
    ensures y.done.value.crypto.Some? && y.done.value.crypto.value.core.Valid()
    ensures Delivery.CoreHeard(y.done.value.crypto.value.core, true, s.ledger)
  {
    var sys, acts :| Interleaving.Talking(suite, s, x, y, sys, acts);
    var dh, aead := Interleaving.Curve(suite, s.h), suite.aead(Interleaving.Algo(s.h));
    Delivery.HeardInitially(dh, sys, sys.ledger[0].key);
    LedgerGrows(dh, aead, sys, acts);
    HeardLater(sys.b.core, true, sys.ledger, s.ledger);
  }

  /** So has a responder, from the initiator. */
  lemma ResponderHeard(suite: Suite, s: Interleaving.State, x: HandshakePair.Node, x': HandshakePair.Node,
                       y: HandshakePair.Node, secret: PrivateKey)
    requires suite.Lawful() && Interleaving.Phase(suite, s, x, y) && Select(x.init.algorithms, y.init.algorithms).Use?
    requires HandshakePair.Settings(x', y) && HandshakePair.Half(suite, x', y) && HandshakePair.Half(suite, y, x')
    requires Interleaving.Finishes(x, x') && HandshakePair.Extends(x, x') && y.done.Some?
    ensures x'.done.value.crypto.Some? && x'.done.value.crypto.value.core.Valid()
    ensures Delivery.CoreHeard(x'.done.value.crypto.value.core, false, s.ledger)
  {
    var sys, acts :| Interleaving.Talking(suite, s, x, y, sys, acts);
    var dh, aead := Interleaving.Curve(suite, s.h), suite.aead(Interleaving.Algo(s.h));
    assert Interleaving.Origin(suite, dh, x', y, sys);
    Interleaving.ReplacedOrigin(suite, dh, x', y, sys, secret);
    var sys' := Interleaving.Replaced(dh, sys, x'.done.value, secret);
    Delivery.HeardInitially(dh, sys', sys'.ledger[0].key);
    LedgerGrows(dh, aead, sys, acts);
    HeardLater(sys'.a.core, false, sys.ledger, s.ledger);
  }

  /** The side that a handshake action adds, if any, has heard its peer. */
  lemma AddedHeard(suite: Suite, s: Interleaving.State, h': HandshakePair.System, byA: bool, secret: PrivateKey)
    requires suite.Lawful() && Interleaving.Sound(s) && Interleaving.Proper(h') && Interleaving.Inv(suite, s)
    requires Interleaving.Moved(suite, s.h, h', byA)
    requires Interleaving.Completed(Interleaving.Node(s.h, byA), Interleaving.Node(h', byA))
    ensures var d := Interleaving.Node(h', byA).done.value;
            Delivery.CoreHeard(d.crypto.value.core, d.isInitiator, Interleaving.Greeted(suite, s, h', byA, secret).ledger)
  {
    var n, n', o := Interleaving.Node(s.h, byA), Interleaving.Node(h', byA), Interleaving.Node(s.h, !byA);
    var s' := Interleaving.Greeted(suite, s, h', byA, secret);
    Interleaving.PongsApart(suite, n', o);
    if n'.done.value.isInitiator {
      Interleaving.GreetedInv(suite, s, h', byA, secret);
      InitiatorHeard(suite, s', o, n');
    } else {
      ResponderHeard(suite, s, n, n', o, secret);
      HeardLater(n'.done.value.crypto.value.core, false, s.ledger, s'.ledger);
    }
  }

  lemma GreetedHeard(suite: Suite, s: Interleaving.State, h': HandshakePair.System, byA: bool, secret: PrivateKey)
    requires suite.Lawful() && Interleaving.Sound(s) && Interleaving.Proper(h') && Interleaving.Inv(suite, s)
    requires Interleaving.Moved(suite, s.h, h', byA) && Delivery.Hearing(AsSystem(s))
    ensures Delivery.Hearing(AsSystem(Interleaving.Greeted(suite, s, h', byA, secret)))
  {
    GreetedAdds(suite, s, h', byA, secret);
    if Interleaving.Completed(Interleaving.Node(s.h, byA), Interleaving.Node(h', byA)) {
      AddedHeard(suite, s, h', byA, secret);
    }
    HearingGrows(s, Interleaving.Greeted(suite, s, h', byA, secret), Interleaving.Node(h', byA));
  }

  /** One side may be new, the other is as it was. */
  lemma HearingGrows(s: Interleaving.State, s': Interleaving.State, n: HandshakePair.Node)
    requires Interleaving.Sound(s) && Interleaving.Sound(s') && Delivery.Hearing(AsSystem(s)) && s.ledger <= s'.ledger
    requires || (s'.responder == s.responder && s'.initiator == s.initiator)
             || (&& SideFor(s', !IsResponder(n)) == SideFor(s, !IsResponder(n)) && SideFor(s', IsResponder(n)).Some?
                 && Delivery.CoreHeard(SideFor(s', IsResponder(n)).value.core, !IsResponder(n), s'.ledger))
    ensures Delivery.Hearing(AsSystem(s'))
  {
    HeardLater(AsSystem(s).a.core, false, s.ledger, s'.ledger);
    HeardLater(AsSystem(s).b.core, true, s.ledger, s'.ledger);
  }

  // ---- Whole runs ------------------------------------------------------------------------------

  lemma EventHeard(suite: Suite, s: Interleaving.State, e: Interleaving.Happening)
    requires suite.Lawful() && Interleaving.Sound(s) && Interleaving.Inv(suite, s)
    requires Interleaving.Enabled(suite, s, e) && Fairly(suite, s, e)
    requires Delivery.Hearing(AsSystem(s)) && SessionHistory.WithinBudget(s.ledger)
    ensures Delivery.Hearing(AsSystem(Interleaving.Step(suite, s, e)))
  {
    match e
    case Greet(act, secret) =>
      Interleaving.GreetMoves(suite, s.h, act);
      GreetedHeard(suite, s, HandshakePair.Step(suite, s.h, act), act.byA, secret);
    case Talk(act) => TalkHeard(suite, s, act);
  }

  lemma {:induction false} RecordGrows(suite: Suite, s: Interleaving.State, hs: seq<Interleaving.Happening>)
    requires Interleaving.Sound(s) && Interleaving.Possible(suite, s, hs)
    ensures s.ledger <= Interleaving.RunFrom(suite, s, hs).ledger
    decreases |hs|
  {
    if hs != [] {
      RecordGrows(suite, Interleaving.Step(suite, s, hs[0]), hs[1..]);
    }
  }

  lemma BudgetBefore(suite: Suite, s: Interleaving.State, hs: seq<Interleaving.Happening>)
    requires Interleaving.Sound(s) && Interleaving.Possible(suite, s, hs)
    requires SessionHistory.WithinBudget(Interleaving.RunFrom(suite, s, hs).ledger)
    ensures SessionHistory.WithinBudget(s.ledger)
  {
    var later := Interleaving.RunFrom(suite, s, hs).ledger;
    RecordGrows(suite, s, hs);
    assert later == s.ledger + later[|s.ledger|..];
    BudgetShrinks(s.ledger, later[|s.ledger|..]);
  }

  lemma {:induction false} RunHeard(suite: Suite, s: Interleaving.State, hs: seq<Interleaving.Happening>)
    requires suite.Lawful() && Interleaving.Sound(s) && Interleaving.Inv(suite, s) && Honest(suite, s, hs)
    requires Delivery.Hearing(AsSystem(s)) && SessionHistory.WithinBudget(Interleaving.RunFrom(suite, s, hs).ledger)
    ensures Delivery.Hearing(AsSystem(Interleaving.RunFrom(suite, s, hs)))
    decreases |hs|
  {
    if hs != [] {
      BudgetBefore(suite, s, hs);
      EventHeard(suite, s, hs[0]);
      EventInv(suite, s, hs[0]);
      RunHeard(suite, Interleaving.Step(suite, s, hs[0]), hs[1..]);
    }
  }

  lemma EventInv(suite: Suite, s: Interleaving.State, e: Interleaving.Happening)
    requires suite.Lawful() && Interleaving.Sound(s) && Interleaving.Inv(suite, s) && Interleaving.Enabled(suite, s, e)
    ensures Interleaving.Inv(suite, Interleaving.Step(suite, s, e))
  {
    match e
    case Greet(act, secret) => Interleaving.GreetInv(suite, s, act, secret);
    case Talk(act) => Interleaving.TalkInv(suite, s, act);
  }

  lemma NobodyHeard(s: Interleaving.State)
    requires s.responder.None? && s.initiator.None?
    ensures SessionPair.Ready(AsSystem(s)) && Delivery.Hearing(AsSystem(s))
  {
  }

  lemma HeardFromStart(suite: Suite, s: Interleaving.State, hs: seq<Interleaving.Happening>)
    requires suite.Lawful() && Interleaving.Initial(s) && Interleaving.Sound(s) && Honest(suite, s, hs)
    requires SessionHistory.WithinBudget(Interleaving.RunFrom(suite, s, hs).ledger)
    ensures Delivery.Hearing(AsSystem(Interleaving.RunFrom(suite, s, hs)))
  {
    Interleaving.InitialInv(suite, s);
    NobodyHeard(s);
    RunHeard(suite, s, hs);
  }

  // ---- Delivery --------------------------------------------------------------------------------

  /** In an honest run the next frame of either established side is restored by the other exactly if
      its nonce is among the first 2^56 of its half. */
  lemma RunDelivers(suite: Suite, s: Interleaving.State, hs: seq<Interleaving.Happening>, fromResponder: bool, data: Bytes)
    requires suite.Lawful() && Interleaving.Initial(s) && Interleaving.Sound(s) && Honest(suite, s, hs)
    requires var r := Interleaving.RunFrom(suite, s, hs);
             SessionHistory.WithinBudget(r.ledger) && r.responder.Some? && r.initiator.Some?
    ensures var r := Interleaving.RunFrom(suite, s, hs);
            var sender, receiver := SideFor(r, fromResponder).value.core, SideFor(r, !fromResponder).value.core;
            var nonce, base := CoreState.NextNonce(sender), CoreState.Base(sender.half);
            var aead := suite.aead(Interleaving.Algo(r.h));
            var result := CoreState.Decrypt(aead, receiver, CoreState.Encrypt(aead, sender, data).1).1;
            && (result == Ok(data) <==> base <= nonce < base + WIRE)
            && (result.Ok? ==> result == Ok(data))
  {
    var r := Interleaving.RunFrom(suite, s, hs);
    var dh, aead := Interleaving.Curve(suite, r.h), suite.aead(Interleaving.Algo(r.h));
    HeardFromStart(suite, s, hs);
    var sys, acts, master := Interleaving.Projects(suite, s, hs);
    var t := SessionPair.RunFrom(dh, aead, sys, acts);
    SameSides(r, t);
    Delivery.DeliveredIfHeard(dh, aead, sys, acts, master, fromResponder, data);
  }

  lemma SameSides(s: Interleaving.State, t: SessionPair.System)
    requires Interleaving.Sound(s) && Delivery.Hearing(AsSystem(s))
    requires s.responder == Some(t.a) && s.initiator == Some(t.b) && s.ledger == t.ledger
    ensures SessionPair.Ready(t) && Delivery.Hearing(t)
    ensures SideFor(s, true) == Some(Delivery.SideOf(t, true)) && SideFor(s, false) == Some(Delivery.SideOf(t, false))
  {
  }

  /** Two encrypted objects that track a connection are its two sides, with one algorithm. */
  lemma BothSides(suite: Suite, w: World, me: bool)
    requires suite.Lawful() && Tracked(suite, w) && w.a.core.Some? && w.b.core.Some?
    ensures var x, y, responder := ObjectOf(w, me), ObjectOf(w, !me), IsResponder(Interleaving.Node(w.s.h, me));
            && Encrypted(x) && Encrypted(y) && Algo(x) == Algo(y) == Interleaving.Algo(w.s.h)
            && SideFor(w.s, responder).Some? && SideFor(w.s, responder).value.core == x.core.value.core
            && SideFor(w.s, !responder).Some? && SideFor(w.s, !responder).value.core == y.core.value.core
  {
    RolesApart(suite, w.s.h);
  }

  /** Whatever honest calls two new objects get, from the first ping on: when both are encrypted, a
      message that one sends is what the other reads, exactly if its nonce is among the first 2^56 of
      its half; else it is an error, never anything else. */
  lemma ObjectsDeliver(suite: Suite, w: World, events: seq<Exchange>, fromA: bool, t: byte, data: Bytes,
                       behind: Bytes, m: Option<Msg>, rnd: Random, secret: PrivateKey, start: nat)
    requires suite.Lawful() && NewWorld(w) && Tracked(suite, w) && HonestCalls(suite, w, events)
    requires SessionHistory.WithinBudget(Finally(suite, w, events).s.ledger) && t != MESSAGE_TYPE_ROTATION
    requires var r := Finally(suite, w, events); r.a.core.Some? && r.b.core.Some?
    ensures var r := Finally(suite, w, events);
            var x, y := ObjectOf(r, fromA), ObjectOf(r, !fromA);
            && Sound(x) && Sound(y)
            && var sent := SendMessage(suite, x, t, data).2;
               && sent.Some? && sent.value.Data? && |sent.value.bytes| >= CryptoCore.EXTRA_LEN + TAG_LEN
               && var got := HandleMessage(suite, y, sent.value.bytes, behind, m, rnd, secret, start);
                  var nonce, base := CoreState.NextNonce(x.core.value.core), CoreState.Base(x.core.value.core.half);
                  && (got.1 == Message(t) && got.2 == Some(Data(data)) <==> base <= nonce < base + WIRE)
                  && ((got.1 == Message(t) && got.2 == Some(Data(data))) || got.1 == Error)
  {
    var r := Finally(suite, w, events);
    var x, y := ObjectOf(r, fromA), ObjectOf(r, !fromA);
    ObjectsRun(suite, w, events);
    BothSides(suite, r, fromA);
    RunDelivers(suite, w.s, AllHappenings(suite, w, events), IsResponder(Interleaving.Node(r.s.h, fromA)), [t] + data);
    SentIsRead(suite, x, y, t, data, behind, m, rnd, secret, start);
  }
}
