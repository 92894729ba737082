/** Two session objects talking to each other. Their interleaved calls are a run of the pair model,
so what was proved there about sides holds for the objects, and a message sent by one is read by the
other.

What is assumed of the world is stated on bytes: ciphertexts are not forged and randomness is new.
That a rotation message which a session decodes was sent by its peer is derived. */
module EndToEnd {
  import opened Primitives
  import opened Handshake
  import opened Negotiation
  import opened PeerCrypto
  import opened SessionRefinement
  import CoreState
  import CryptoCore
  import Rotation
  import RotationCodec
  import SessionPair
  import SessionHistory
  import Delivery
  import Connection
  import HandshakePair
  import NodeInfo

  /** A call on one of the two sessions. */
  datatype Exchange = Exchange(byA: bool, call: Call)

  function NextSessions(suite: Suite, a: Session, b: Session, e: Exchange): (r: (Session, Session))
    requires Sound(a) && Sound(b) && Allowed(if e.byA then a else b, e.call)
    ensures Sound(r.0) && Sound(r.1)
  {
    if e.byA then (Do(suite, a, e.call).0, b) else (a, Do(suite, b, e.call).0)
  }

  /** Each call was allowed when it was made. */
  ghost predicate Exchanged(suite: Suite, a: Session, b: Session, events: seq<Exchange>)
    requires Sound(a) && Sound(b)
    decreases |events|
  {
    events == []
    || (Allowed(if events[0].byA then a else b, events[0].call)
        && Exchanged(suite, NextSessions(suite, a, b, events[0]).0, NextSessions(suite, a, b, events[0]).1, events[1..]))
  }

  function JointFinal(suite: Suite, a: Session, b: Session, events: seq<Exchange>): (r: (Session, Session))
    requires Sound(a) && Sound(b) && Exchanged(suite, a, b, events)
    ensures Sound(r.0) && Sound(r.1)
    decreases |events|
  {
    if events == [] then (a, b)
    else JointFinal(suite, NextSessions(suite, a, b, events[0]).0, NextSessions(suite, a, b, events[0]).1, events[1..])
  }

  /** Two encrypted sessions with one algorithm. */
  ghost predicate Connected(a: Session, b: Session) {
    Encrypted(a) && Encrypted(b) && Algo(a) == Algo(b)
  }

  lemma StaysConnected(suite: Suite, a: Session, b: Session, e: Exchange)
    requires Connected(a, b) && Allowed(if e.byA then a else b, e.call)
    ensures var (a', b') := NextSessions(suite, a, b, e); Connected(a', b') && Algo(a') == Algo(a)
  {
    CallRefines(suite, if e.byA then a else b, e.byA, e.call, []);
  }

  function JointActions(suite: Suite, a: Session, b: Session, events: seq<Exchange>): seq<SessionPair.Action>
    requires Connected(a, b) && Exchanged(suite, a, b, events)
    decreases |events|
  {
    if events == [] then []
    else
      StaysConnected(suite, a, b, events[0]);
      Actions(suite, if events[0].byA then a else b, events[0].byA, events[0].call)
      + JointActions(suite, NextSessions(suite, a, b, events[0]).0, NextSessions(suite, a, b, events[0]).1, events[1..])
  }

  // ---- Runs of one side and of the pair --------------------------------------------------------

  lemma ActionsMine(suite: Suite, s: Session, me: bool, c: Call)
    requires Encrypted(s) && Allowed(s, c)
    ensures forall i | 0 <= i < |Actions(suite, s, me, c)| :: Actions(suite, s, me, c)[i].byA == me
  {
  }

  lemma {:induction false} OneSide(dh: Dh, aead: Aead, sys: SessionPair.System, acts: seq<SessionPair.Action>, me: bool)
    requires SessionPair.Ready(sys) && forall i | 0 <= i < |acts| :: acts[i].byA == me
    ensures var r := SessionPair.RunFrom(dh, aead, sys, acts);
            && r.a == (if me then SideRun(dh, aead, sys.a, acts) else sys.a)
            && r.b == (if me then sys.b else SideRun(dh, aead, sys.b, acts))
    decreases |acts|
  {
    if acts != [] {
      var n := |acts| - 1;
      OneSide(dh, aead, sys, acts[..n], me);
      var side := if me then sys.a else sys.b;
      assert acts == acts[..n] + [acts[n]];
      RunConcat(dh, aead, side, acts[..n], [acts[n]]);
      RunOne(dh, aead, SideRun(dh, aead, side, acts[..n]), acts[n]);
    }
  }

  lemma {:induction false} RunFromConcat(dh: Dh, aead: Aead, sys: SessionPair.System, x: seq<SessionPair.Action>,
                                         y: seq<SessionPair.Action>)
    requires SessionPair.Ready(sys)
    ensures SessionPair.RunFrom(dh, aead, sys, x + y)
            == SessionPair.RunFrom(dh, aead, SessionPair.RunFrom(dh, aead, sys, x), y)
    decreases |y|
  {
    if y == [] {
      assert x + y == x;
    } else {
      var n := |y| - 1;
      assert (x + y)[..|x + y| - 1] == x + y[..n];
      RunFromConcat(dh, aead, sys, x, y[..n]);
    }
  }

  /** The system whose sides the two sessions are. */
  ghost predicate Represents(sys: SessionPair.System, a: Session, b: Session) {
    Connected(a, b) && sys.a == AsSide(a, sys.a.log) && sys.b == AsSide(b, sys.b.log)
  }

  lemma ExchangeRefines(suite: Suite, a: Session, b: Session, e: Exchange, sys: SessionPair.System)
    requires Represents(sys, a, b) && Allowed(if e.byA then a else b, e.call)
    ensures var acts := Actions(suite, if e.byA then a else b, e.byA, e.call);
            var r := SessionPair.RunFrom(Curve(suite, a), suite.aead(Algo(a)), sys, acts);
            Represents(r, NextSessions(suite, a, b, e).0, NextSessions(suite, a, b, e).1)
  {
    var s, log := if e.byA then a else b, if e.byA then sys.a.log else sys.b.log;
    StaysConnected(suite, a, b, e);
    CallRefines(suite, s, e.byA, e.call, log);
    ActionsMine(suite, s, e.byA, e.call);
    OneSide(Curve(suite, a), suite.aead(Algo(a)), sys, Actions(suite, s, e.byA, e.call), e.byA);
  }

  /** Every interleaving of calls on the two sessions is a run of the pair model. */
  lemma {:induction false} JointRefines(suite: Suite, a: Session, b: Session, events: seq<Exchange>, sys: SessionPair.System)
    requires Represents(sys, a, b) && Exchanged(suite, a, b, events)
    ensures var r := SessionPair.RunFrom(Curve(suite, a), suite.aead(Algo(a)), sys, JointActions(suite, a, b, events));
            var (a', b') := JointFinal(suite, a, b, events);
            Represents(r, a', b') && Algo(a') == Algo(a)
    decreases |events|
  {
    if events != [] {
      var e := events[0];
      var dh, aead := Curve(suite, a), suite.aead(Algo(a));
      var x := Actions(suite, if e.byA then a else b, e.byA, e.call);
      var (a1, b1) := NextSessions(suite, a, b, e);
      StaysConnected(suite, a, b, e);
      ExchangeRefines(suite, a, b, e, sys);
      JointRefines(suite, a1, b1, events[1..], SessionPair.RunFrom(dh, aead, sys, x));
      RunFromConcat(dh, aead, sys, x, JointActions(suite, a1, b1, events[1..]));
    }
  }

  // ---- Honest runs -----------------------------------------------------------------------------

  /** A text that is no rotation message: what the application sends, and the handshake payloads. */
  predicate Typed(data: Bytes) {
    data != [] && data[0] != MESSAGE_TYPE_ROTATION
  }

  ghost predicate RotationText(data: Bytes, sent: set<Rotation.Message>) {
    exists m :: m in sent && RotationCodec.Representable(m) && data == [MESSAGE_TYPE_ROTATION] + RotationCodec.Encode(m)
  }

  /** Everything sealed so far is a rotation message that was sent, or none. */
  ghost predicate Texts(sys: SessionPair.System) {
    forall i | 0 <= i < |sys.ledger| :: Typed(sys.ledger[i].data) || RotationText(sys.ledger[i].data, sys.sent)
  }

  /** What the world owes one call: a frame that opens was sealed by one of the two, private keys are
      new, nonces start low, and rotation messages fit their format. */
  ghost predicate HonestExchange(suite: Suite, sys: SessionPair.System, a: Session, b: Session, e: Exchange)
    requires Represents(sys, a, b)
  {
    var dh, aead := Curve(suite, a), suite.aead(Algo(a));
    match e.call
    case CallMessage(bytes, _, _, _, secret, start) =>
      && start < START
      && (forall m | m in sys.sent :: dh.agree(secret, m.propose) !in sys.derived)
      && (!IsInitMessage(bytes) && |bytes| >= CryptoCore.EXTRA_LEN ==>
            Delivery.Genuine(aead, sys, e.byA, CryptoCore.DecodeFrame(bytes)))
    case CallSecond(secret, start) =>
      && start < START
      && (forall m | m in SessionPair.Turn(dh, Delivery.SideOf(sys, e.byA), secret, start).1 ::
            RotationCodec.Representable(m))
    case _ => true
  }

  ghost predicate HonestRun(suite: Suite, sys: SessionPair.System, a: Session, b: Session, events: seq<Exchange>)
    requires Represents(sys, a, b) && Exchanged(suite, a, b, events)
    decreases |events|
  {
    events == []
    || (var e := events[0];
        ExchangeRefines(suite, a, b, e, sys);
        && HonestExchange(suite, sys, a, b, e)
        && HonestRun(suite, SessionPair.RunFrom(Curve(suite, a), suite.aead(Algo(a)), sys, ActionsOf(suite, a, b, e)),
                     NextSessions(suite, a, b, e).0, NextSessions(suite, a, b, e).1, events[1..]))
  }

  function ActionsOf(suite: Suite, a: Session, b: Session, e: Exchange): seq<SessionPair.Action>
    requires Connected(a, b) && Allowed(if e.byA then a else b, e.call)
  {
    Actions(suite, if e.byA then a else b, e.byA, e.call)
  }

  /** An action that is possible and takes no forged frame. */
  ghost predicate Fair(dh: Dh, aead: Aead, sys: SessionPair.System, act: SessionPair.Action)
    requires SessionPair.Ready(sys)
  {
    && SessionPair.Enabled(dh, sys, act)
    && (act.UseCore? && act.use.Open? ==> Delivery.Genuine(aead, sys, act.byA, act.use.frame))
  }

  ghost predicate FairRun(dh: Dh, aead: Aead, sys: SessionPair.System, acts: seq<SessionPair.Action>)
    requires SessionPair.Ready(sys)
  {
    forall i | 0 <= i < |acts| :: Fair(dh, aead, SessionPair.RunFrom(dh, aead, sys, acts[..i]), acts[i])
  }

  lemma FairIsPossible(dh: Dh, aead: Aead, sys: SessionPair.System, acts: seq<SessionPair.Action>)
    requires SessionPair.Ready(sys) && FairRun(dh, aead, sys, acts)
    ensures SessionPair.Possible(dh, aead, sys, acts) && Delivery.Authentic(dh, aead, sys, acts)
  {
    forall i | 0 <= i < |acts|
      ensures SessionPair.Enabled(dh, SessionPair.RunFrom(dh, aead, sys, acts[..i]), acts[i])
      ensures acts[i].UseCore? && acts[i].use.Open? ==>
                Delivery.Genuine(aead, SessionPair.RunFrom(dh, aead, sys, acts[..i]), acts[i].byA, acts[i].use.frame)
    {
      assert Fair(dh, aead, SessionPair.RunFrom(dh, aead, sys, acts[..i]), acts[i]);
    }
  }

  /** A fair run that leaves only proper texts sealed. */
  ghost predicate Good(dh: Dh, aead: Aead, sys: SessionPair.System, acts: seq<SessionPair.Action>)
    requires SessionPair.Ready(sys)
  {
    FairRun(dh, aead, sys, acts) && Texts(SessionPair.RunFrom(dh, aead, sys, acts))
  }

  lemma GoodNothing(dh: Dh, aead: Aead, sys: SessionPair.System)
    requires SessionPair.Ready(sys) && Texts(sys)
    ensures Good(dh, aead, sys, [])
  {
  }

  lemma GoodOne(dh: Dh, aead: Aead, sys: SessionPair.System, act: SessionPair.Action)
    requires SessionPair.Ready(sys) && Fair(dh, aead, sys, act) && Texts(SessionPair.Step(dh, aead, sys, act))
    ensures Good(dh, aead, sys, [act])
    ensures SessionPair.RunFrom(dh, aead, sys, [act]) == SessionPair.Step(dh, aead, sys, act)
  {
    assert [act][..0] == [];
  }

  lemma FairConcat(dh: Dh, aead: Aead, sys: SessionPair.System, x: seq<SessionPair.Action>, y: seq<SessionPair.Action>)
    requires SessionPair.Ready(sys) && FairRun(dh, aead, sys, x)
    requires FairRun(dh, aead, SessionPair.RunFrom(dh, aead, sys, x), y)
    ensures FairRun(dh, aead, sys, x + y)
  {
    forall i | 0 <= i < |x + y|
      ensures Fair(dh, aead, SessionPair.RunFrom(dh, aead, sys, (x + y)[..i]), (x + y)[i])
    {
      if i < |x| {
        TakeOfBoth(x, y, i);
      } else {
        TakeOfBoth(x, y, i);
        RunFromConcat(dh, aead, sys, x, y[..i - |x|]);
      }
    }
  }

  lemma TakeOfBoth(x: seq<SessionPair.Action>, y: seq<SessionPair.Action>, i: nat)
    requires i < |x + y|
    ensures (x + y)[..i] == if i < |x| then x[..i] else x + y[..i - |x|]
    ensures (x + y)[i] == if i < |x| then x[i] else y[i - |x|]
  {
  }

  lemma GoodConcat(dh: Dh, aead: Aead, sys: SessionPair.System, x: seq<SessionPair.Action>, y: seq<SessionPair.Action>)
    requires SessionPair.Ready(sys) && Good(dh, aead, sys, x)
    requires Good(dh, aead, SessionPair.RunFrom(dh, aead, sys, x), y)
    ensures Good(dh, aead, sys, x + y)
  {
    FairConcat(dh, aead, sys, x, y);
    RunFromConcat(dh, aead, sys, x, y);
  }

  // ---- Sealed texts ----------------------------------------------------------------------------

  /** Sealing a proper text keeps all texts proper. */
  lemma TextsSeal(dh: Dh, aead: Aead, sys: SessionPair.System, byA: bool, data: Bytes)
    requires SessionPair.Ready(sys) && Texts(sys) && (Typed(data) || RotationText(data, sys.sent))
    ensures Texts(SessionPair.Step(dh, aead, sys, Sealing(byA, data)))
  {
    var r := SessionPair.Step(dh, aead, sys, Sealing(byA, data));
    assert r.sent == sys.sent;
    forall i | 0 <= i < |r.ledger|
      ensures Typed(r.ledger[i].data) || RotationText(r.ledger[i].data, r.sent)
    {
      assert i < |sys.ledger| ==> r.ledger[i] == sys.ledger[i];
    }
  }

  /** So does everything that seals nothing. */
  lemma TextsOther(dh: Dh, aead: Aead, sys: SessionPair.System, act: SessionPair.Action)
    requires SessionPair.Ready(sys) && Texts(sys) && !(act.UseCore? && act.use.Seal?)
    ensures Texts(SessionPair.Step(dh, aead, sys, act))
  {
    var r := SessionPair.Step(dh, aead, sys, act);
    assert r.ledger == sys.ledger && sys.sent <= r.sent;
    forall i | 0 <= i < |r.ledger|
      ensures Typed(r.ledger[i].data) || RotationText(r.ledger[i].data, r.sent)
    {
      if !Typed(r.ledger[i].data) {
        var m :| m in sys.sent && RotationCodec.Representable(m)
                 && r.ledger[i].data == [MESSAGE_TYPE_ROTATION] + RotationCodec.Encode(m);
        assert m in r.sent;
      }
    }
  }

  /** A sealed text that is dispatched as a rotation message decodes to one that was sent. */
  lemma DecodedWasSent(sys: SessionPair.System, i: nat, behind: Bytes)
    requires Texts(sys) && i < |sys.ledger|
    requires var all := sys.ledger[i].data + behind; all != [] && all[0] == MESSAGE_TYPE_ROTATION
    ensures var m := RotationCodec.Decode((sys.ledger[i].data + behind)[1..]); m.Some? && m.value in sys.sent
  {
    var data := sys.ledger[i].data;
    assert !Typed(data);
    var m :| m in sys.sent && RotationCodec.Representable(m)
             && data == [MESSAGE_TYPE_ROTATION] + RotationCodec.Encode(m);
    assert (data + behind)[1..] == RotationCodec.Encode(m) + behind;
    RotationCodec.RoundTrip(m, behind);
  }

  // ---- Every call ------------------------------------------------------------------------------

  /** Deliveries are of sent messages: nothing else that opens is dispatched as a rotation message. */
  lemma FramePossible(suite: Suite, sys: SessionPair.System, s: Session, log: seq<Rotation.RotatedKey>, me: bool,
                      bytes: Bytes, behind: Bytes, secret: PrivateKey, start: nat)
    requires SessionPair.Ready(sys) && Texts(sys) && Encrypted(s) && Delivery.SideOf(sys, me) == AsSide(s, log)
    requires |bytes| >= CryptoCore.EXTRA_LEN + TAG_LEN && start < START
    requires forall m | m in sys.sent :: Curve(suite, s).agree(secret, m.propose) !in sys.derived
    requires Delivery.Genuine(suite.aead(Algo(s)), sys, me, CryptoCore.DecodeFrame(bytes))
    ensures Good(Curve(suite, s), suite.aead(Algo(s)), sys, FrameActions(suite, s, me, bytes, behind, secret, start))
  {
    var dh, aead, frame := Curve(suite, s), suite.aead(Algo(s)), CryptoCore.DecodeFrame(bytes);
    var open := SessionPair.UseCore(me, SessionPair.Open(frame));
    var result := CoreState.Decrypt(aead, s.core.value.core, frame).1;
    TextsOther(dh, aead, sys, open);
    GoodOne(dh, aead, sys, open);
    var rest := if result.Ok? then PlainActions(me, result.value, behind, secret, start) else [];
    var r := SessionPair.RunFrom(dh, aead, sys, [open]);
    if rest == [] {
      GoodNothing(dh, aead, r);
    } else {
      var i :| 0 <= i < |sys.ledger| && sys.ledger[i].data == result.value;
      DecodedWasSent(sys, i, behind);
      TextsOther(dh, aead, r, rest[0]);
      GoodOne(dh, aead, r, rest[0]);
      assert rest == [rest[0]];
    }
    GoodConcat(dh, aead, sys, [open], rest);
  }

  lemma SendPossible(dh: Dh, aead: Aead, sys: SessionPair.System, me: bool, data: Bytes)
    requires SessionPair.Ready(sys) && Texts(sys) && (Typed(data) || RotationText(data, sys.sent))
    ensures Good(dh, aead, sys, [Sealing(me, data)])
  {
    TextsSeal(dh, aead, sys, me, data);
    GoodOne(dh, aead, sys, Sealing(me, data));
  }

  lemma TurnPossible(suite: Suite, sys: SessionPair.System, s: Session, log: seq<Rotation.RotatedKey>, me: bool,
                     secret: PrivateKey, start: nat)
    requires SessionPair.Ready(sys) && Texts(sys) && Encrypted(s) && Delivery.SideOf(sys, me) == AsSide(s, log)
    requires start < START
    requires forall m | m in SessionPair.Turn(Curve(suite, s), AsSide(s, log), secret, start).1 ::
               RotationCodec.Representable(m)
    ensures Good(Curve(suite, s), suite.aead(Algo(s)), sys, TurnActions(suite, s, me, secret, start))
  {
    var dh, aead := Curve(suite, s), suite.aead(Algo(s));
    if s.rotateCounter + 1 < ROTATE_INTERVAL {
      GoodNothing(dh, aead, sys);
    } else {
      var turn := SessionPair.Rotate(me, secret, start);
      TextsOther(dh, aead, sys, turn);
      GoodOne(dh, aead, sys, turn);
      CycleTrimmed(suite, Algo(s), s.rotation.value, secret);
      var r := SessionPair.RunFrom(dh, aead, sys, [turn]);
      var out := Rotation.Cycle(suite.dh, s.rotation.value, secret).2;
      if out.Some? {
        var data := [MESSAGE_TYPE_ROTATION] + RotationCodec.Encode(out.value);
        assert out.value in r.sent;
        SendPossible(dh, aead, r, me, data);
        GoodConcat(dh, aead, sys, [turn], [Sealing(me, data)]);
      } else {
        GoodNothing(dh, aead, r);
        GoodConcat(dh, aead, sys, [turn], []);
      }
    }
  }

  lemma SecondPossible(suite: Suite, sys: SessionPair.System, s: Session, log: seq<Rotation.RotatedKey>, me: bool,
                       secret: PrivateKey, start: nat)
    requires SessionPair.Ready(sys) && Texts(sys) && Encrypted(s) && Delivery.SideOf(sys, me) == AsSide(s, log)
    requires start < START
    requires forall m | m in SessionPair.Turn(Curve(suite, s), AsSide(s, log), secret, start).1 ::
               RotationCodec.Representable(m)
    ensures Good(Curve(suite, s), suite.aead(Algo(s)), sys, SecondActions(suite, s, me, secret, start))
  {
    var dh, aead := Curve(suite, s), suite.aead(Algo(s));
    var tick := SessionPair.UseCore(me, SessionPair.Second);
    TextsOther(dh, aead, sys, tick);
    GoodOne(dh, aead, sys, tick);
    var r := SessionPair.RunFrom(dh, aead, sys, [tick]);
    if s.init.Some? && Second(s.init.value).2.Some? {
      GoodNothing(dh, aead, r);
      GoodConcat(dh, aead, sys, [tick], []);
    } else {
      var s1 := s.(core := Some(s.core.value.(core := CoreState.Tick(s.core.value.core))));
      assert Delivery.SideOf(r, me) == AsSide(s1, log);
      assert TurnActions(suite, s1, me, secret, start) == TurnActions(suite, s, me, secret, start);
      assert SessionPair.Turn(dh, AsSide(s1, log), secret, start).1 == SessionPair.Turn(dh, AsSide(s, log), secret, start).1;
      TurnPossible(suite, r, s1, log, me, secret, start);
      GoodConcat(dh, aead, sys, [tick], TurnActions(suite, s, me, secret, start));
    }
  }

  /** The actions of an honest call are possible, take no forged frame and seal proper texts. */
  lemma CallGood(suite: Suite, sys: SessionPair.System, o: Session, log: seq<Rotation.RotatedKey>, responder: bool, c: Call)
    requires SessionPair.Ready(sys) && Texts(sys) && Encrypted(o) && Allowed(o, c)
    requires Delivery.SideOf(sys, responder) == AsSide(o, log)
    requires c.CallMessage? && !IsInitMessage(c.bytes) ==>
               && c.start < START
               && (forall m | m in sys.sent :: Curve(suite, o).agree(c.secret, m.propose) !in sys.derived)
               && (|c.bytes| >= CryptoCore.EXTRA_LEN ==>
                     Delivery.Genuine(suite.aead(Algo(o)), sys, responder, CryptoCore.DecodeFrame(c.bytes)))
    requires c.CallSecond? ==>
               && c.start < START
               && forall m | m in SessionPair.Turn(Curve(suite, o), AsSide(o, log), c.secret, c.start).1 ::
                    RotationCodec.Representable(m)
    ensures Good(Curve(suite, o), suite.aead(Algo(o)), sys, Actions(suite, o, responder, c))
  {
    var dh, aead := Curve(suite, o), suite.aead(Algo(o));
    match c
    case CallInitialize(_) => GoodNothing(dh, aead, sys);
    case CallMessage(bytes, behind, _, _, secret, start) =>
      if bytes == [] || IsInitMessage(bytes) {
        GoodNothing(dh, aead, sys);
      } else {
        FramePossible(suite, sys, o, log, responder, bytes, behind, secret, start);
      }
    case CallSend(t, data) => SendPossible(dh, aead, sys, responder, [t] + data);
    case CallSecond(secret, start) => SecondPossible(suite, sys, o, log, responder, secret, start);
  }

  lemma ExchangePossible(suite: Suite, sys: SessionPair.System, a: Session, b: Session, e: Exchange)
    requires Represents(sys, a, b) && Texts(sys) && Allowed(if e.byA then a else b, e.call)
    requires HonestExchange(suite, sys, a, b, e)
    ensures Good(Curve(suite, a), suite.aead(Algo(a)), sys, ActionsOf(suite, a, b, e))
  {
    CallGood(suite, sys, if e.byA then a else b, Delivery.SideOf(sys, e.byA).log, e.byA, e.call);
  }

  /** Every honest interleaving of calls on the two sessions is a possible run of the pair model in
      which no forged frame is taken, and leads to the sessions' sides. */
  lemma {:induction false} JointPossible(suite: Suite, sys: SessionPair.System, a: Session, b: Session, events: seq<Exchange>)
    requires Represents(sys, a, b) && Texts(sys) && Exchanged(suite, a, b, events) && HonestRun(suite, sys, a, b, events)
    ensures var dh, aead := Curve(suite, a), suite.aead(Algo(a));
            var acts := JointActions(suite, a, b, events);
            var (a', b') := JointFinal(suite, a, b, events);
            && Good(dh, aead, sys, acts)
            && SessionPair.Possible(dh, aead, sys, acts) && Delivery.Authentic(dh, aead, sys, acts)
            && Represents(SessionPair.RunFrom(dh, aead, sys, acts), a', b') && Algo(a') == Algo(a)
    decreases |events|
  {
    var dh, aead := Curve(suite, a), suite.aead(Algo(a));
    JointRefines(suite, a, b, events, sys);
    if events == [] {
      GoodNothing(dh, aead, sys);
    } else {
      var e := events[0];
      var x := ActionsOf(suite, a, b, e);
      var r := SessionPair.RunFrom(dh, aead, sys, x);
      var (a1, b1) := NextSessions(suite, a, b, e);
      ExchangeRefines(suite, a, b, e, sys);
      StaysConnected(suite, a, b, e);
      ExchangePossible(suite, sys, a, b, e);
      JointPossible(suite, r, a1, b1, events[1..]);
      GoodConcat(dh, aead, sys, x, JointActions(suite, a1, b1, events[1..]));
    }
    FairIsPossible(dh, aead, sys, JointActions(suite, a, b, events));
  }

  // ---- From the handshake on -------------------------------------------------------------------

  /** The responder's first rotation message, which it encrypts as soon as the handshake is over. */
  function FirstSealing(suite: Suite, secret: PrivateKey): SessionPair.Action {
    Sealing(true, [MESSAGE_TYPE_ROTATION] + RotationCodec.Encode(Rotation.Start(suite.dh, true, secret).1.value))
  }

  /** What a success of the handshake makes of a session is a side of the initial system. */
  lemma EstablishRefines(suite: Suite, s: Session, init: Init, payload: Bytes, isInitiator: bool, out: Option<Msg>,
                         secret: PrivateKey)
    requires Sound(s) && !s.unencrypted && init.Valid() && init.crypto.Some?
    ensures var s' := Establish(suite, s, init, payload, isInitiator, out, secret).0;
            var k := init.crypto.value;
            var dh := Connection.Cut(suite.dh, k.algorithm);
            && s'.core.Some? && s'.rotation.Some? && Algo(s') == k.algorithm
            && var side := SessionPair.Side(Rotation.Start(dh, !isInitiator, secret).0, k.core, []);
               AsSide(s', []) == if isInitiator then side
                                 else SideRun(dh, suite.aead(k.algorithm), side, [FirstSealing(suite, secret)])
  {
    var k := init.crypto.value;
    var dh := Connection.Cut(suite.dh, k.algorithm);
    if !isInitiator {
      RunOne(dh, suite.aead(k.algorithm), SessionPair.Side(Rotation.Start(dh, true, secret).0, k.core, []),
             FirstSealing(suite, secret));
    }
  }

  /** A conversation of two session objects that have both finished their handshake: an initial system,
      the responder's first message, and any honest interleaving of calls. The handshake payloads are
      no rotation messages. `ObjectRuns` has the calls before that, too. */
  ghost predicate Conversation(suite: Suite, sys: SessionPair.System, master: Key, secret: PrivateKey,
                               a: Session, b: Session, events: seq<Exchange>) {
    && Connected(a, b) && Exchanged(suite, a, b, events)
    && var dh, aead := Curve(suite, a), suite.aead(Algo(a));
       && SessionPair.Initial(dh, sys, master) && sys.sent == {Rotation.Start(dh, true, secret).1.value}
       && Typed(sys.ledger[0].data) && Typed(sys.ledger[1].data)
       && RotationCodec.Representable(Rotation.Start(dh, true, secret).1.value)
       && var begun := SessionPair.RunFrom(dh, aead, sys, [FirstSealing(suite, secret)]);
          Represents(begun, a, b) && HonestRun(suite, begun, a, b, events)
  }

  /** All actions of a conversation. */
  function ConversationActions(suite: Suite, secret: PrivateKey, a: Session, b: Session, events: seq<Exchange>): seq<SessionPair.Action>
    requires Connected(a, b) && Exchanged(suite, a, b, events)
  {
    [FirstSealing(suite, secret)] + JointActions(suite, a, b, events)
  }

  /** The payload of a session is node information, which starts with the tag of the node id. */
  lemma PayloadTyped(n: NodeInfo.NodeInfo)
    ensures Typed(NodeInfo.Encode(n))
  {
    assert NodeInfo.Encode(n)[0] == NodeInfo.NODEID;
  }

  /** Every conversation is a possible run of the pair model without forgeries. */
  lemma ConversationPossible(suite: Suite, sys: SessionPair.System, master: Key, secret: PrivateKey,
                             a: Session, b: Session, events: seq<Exchange>)
    requires Conversation(suite, sys, master, secret, a, b, events)
    ensures var dh, aead := Curve(suite, a), suite.aead(Algo(a));
            var acts := ConversationActions(suite, secret, a, b, events);
            var (a', b') := JointFinal(suite, a, b, events);
            && SessionPair.Possible(dh, aead, sys, acts) && Delivery.Authentic(dh, aead, sys, acts)
            && Represents(SessionPair.RunFrom(dh, aead, sys, acts), a', b') && Algo(a') == Algo(a)
  {
    var dh, aead, first := Curve(suite, a), suite.aead(Algo(a)), FirstSealing(suite, secret);
    SendPossible(dh, aead, sys, true, first.use.data);
    JointPossible(suite, SessionPair.RunFrom(dh, aead, sys, [first]), a, b, events);
    GoodConcat(dh, aead, sys, [first], JointActions(suite, a, b, events));
    FairIsPossible(dh, aead, sys, ConversationActions(suite, secret, a, b, events));
    RunFromConcat(dh, aead, sys, [first], JointActions(suite, a, b, events));
  }

  // ---- How a conversation begins ---------------------------------------------------------------

  /** A message that completes the handshake of a session, in the given role, with this result. */
  ghost predicate Completes(suite: Suite, s: Session, m: Msg, rnd: Random, isInitiator: bool, k: Keyed) {
    && Safe(s) && !Established(s) && s.init.Some?
    && var (init, o, _) := Handle(suite, s.init.value, m, rnd);
       o.Success? && o.isInitiator == isInitiator && init.crypto == Some(k)
  }

  /** It does so for the session whose handshake an endpoint of the handshake model is. */
  lemma NodeCompletes(suite: Suite, s: Session, n: HandshakePair.Node, m: Msg, rnd: Random)
    requires Safe(s) && !Established(s) && s.init == Some(n.init) && n.done.None? && n.alive
    requires var n' := HandshakePair.Arrives(suite, n, m, rnd).0; n'.done.Some? && n'.done.value.crypto.Some?
    ensures var d := HandshakePair.Arrives(suite, n, m, rnd).0.done.value;
            Completes(suite, s, m, rnd, d.isInitiator, d.crypto.value)
  {
  }

  lemma EstablishedSides(suite: Suite, sa: Session, ma: Msg, ra: Random, ka: Keyed, sb: Session, mb: Msg, rb: Random,
                         kb: Keyed, secret: PrivateKey, unused: PrivateKey, pong: Bytes, peng: Bytes)
    requires Completes(suite, sa, ma, ra, false, ka) && Completes(suite, sb, mb, rb, true, kb)
    requires ka.algorithm == kb.algorithm && ka.core.Valid() && kb.core.Valid()
    ensures var a := HandleInitMessage(suite, sa, Some(ma), ra, secret).0;
            var b := HandleInitMessage(suite, sb, Some(mb), rb, unused).0;
            var dh, aead := Connection.Cut(suite.dh, ka.algorithm), suite.aead(ka.algorithm);
            var sys := Connection.SessionOf(dh, ka, kb, secret, pong, peng);
            && Connected(a, b) && Algo(a) == ka.algorithm
            && SessionPair.Ready(sys)
            && Represents(SessionPair.RunFrom(dh, aead, sys, [FirstSealing(suite, secret)]), a, b)
  {
    var dh, aead := Connection.Cut(suite.dh, ka.algorithm), suite.aead(ka.algorithm);
    InitMessageSafe(suite, sa, Some(ma), ra, secret);
    InitMessageSafe(suite, sb, Some(mb), rb, unused);
    var (ia, oa, outa) := Handle(suite, sa.init.value, ma, ra);
    var (ib, ob, outb) := Handle(suite, sb.init.value, mb, rb);
    EstablishRefines(suite, sa, ia, oa.peerPayload, false, outa, secret);
    EstablishRefines(suite, sb, ib, ob.peerPayload, true, outb, unused);
    OneSide(dh, aead, Connection.SessionOf(dh, ka, kb, secret, pong, peng), [FirstSealing(suite, secret)], true);
  }

  /** Endpoints `x` and `y` have finished as responder and initiator, with encryption. */
  ghost predicate HaveFinished(x: HandshakePair.Node, y: HandshakePair.Node) {
    && x.done.Some? && y.done.Some? && y.done.value.isInitiator
    && x.done.value.crypto.Some? && y.done.value.crypto.Some?
    && x.done.value.crypto.value.core.Valid() && y.done.value.crypto.value.core.Valid()
  }

  function SystemOf(suite: Suite, x: HandshakePair.Node, y: HandshakePair.Node, secret: PrivateKey): SessionPair.System
    requires HaveFinished(x, y)
  {
    var ka, kb := x.done.value.crypto.value, y.done.value.crypto.value;
    Connection.SessionOf(Connection.Cut(suite.dh, ka.algorithm), ka, kb, secret, x.init.payload, y.init.payload)
  }

  lemma BeginsFrom(suite: Suite, x: HandshakePair.Node, y: HandshakePair.Node, net: set<Msg>, sa: Session, ma: Msg, ra: Random,
                   sb: Session, mb: Msg, rb: Random, secret: PrivateKey, unused: PrivateKey)
    requires suite.Lawful() && HandshakePair.Both(suite, y, x, net) && HaveFinished(x, y)
    requires Completes(suite, sa, ma, ra, false, x.done.value.crypto.value)
    requires Completes(suite, sb, mb, rb, true, y.done.value.crypto.value)
    requires Typed(x.init.payload) && Typed(y.init.payload)
    requires RotationCodec.Representable(Rotation.Start(suite.dh, true, secret).1.value)
    ensures var a := HandleInitMessage(suite, sa, Some(ma), ra, secret).0;
            var b := HandleInitMessage(suite, sb, Some(mb), rb, unused).0;
            Conversation(suite, SystemOf(suite, x, y, secret), x.done.value.crypto.value.core.keys[0].key, secret, a, b, [])
  {
    var ka, kb := x.done.value.crypto.value, y.done.value.crypto.value;
    Connection.SessionBegins(suite, Connection.Cut(suite.dh, ka.algorithm), x, y, net, secret);
    EstablishedSides(suite, sa, ma, ra, ka, sb, mb, rb, kb, secret, unused, x.init.payload, y.init.payload);
  }

  /** After every handshake run in which both endpoints succeed with encryption, the two sessions that
      take over their results begin a conversation. */
  lemma ConversationBegins(suite: Suite, h: HandshakePair.System, greetings: seq<HandshakePair.Action>,
                           x: HandshakePair.Node, y: HandshakePair.Node, sa: Session, ma: Msg, ra: Random,
                           sb: Session, mb: Msg, rb: Random, secret: PrivateKey, unused: PrivateKey)
    requires suite.Lawful() && HandshakePair.Initial(h) && HandshakePair.Possible(suite, h, greetings)
    requires var r := HandshakePair.RunFrom(suite, h, greetings); (x == r.a && y == r.b) || (x == r.b && y == r.a)
    requires HaveFinished(x, y)
    requires Completes(suite, sa, ma, ra, false, x.done.value.crypto.value)
    requires Completes(suite, sb, mb, rb, true, y.done.value.crypto.value)
    requires Typed(x.init.payload) && Typed(y.init.payload)
    requires RotationCodec.Representable(Rotation.Start(suite.dh, true, secret).1.value)
    ensures var a := HandleInitMessage(suite, sa, Some(ma), ra, secret).0;
            var b := HandleInitMessage(suite, sb, Some(mb), rb, unused).0;
            Conversation(suite, SystemOf(suite, x, y, secret), x.done.value.crypto.value.core.keys[0].key, secret, a, b, [])
  {
    HandshakePair.RunInv(suite, h, greetings);
    BeginsFrom(suite, x, y, HandshakePair.RunFrom(suite, h, greetings).net, sa, ma, ra, sb, mb, rb, secret, unused);
  }

  // ---- What a conversation delivers ------------------------------------------------------------

  /** Whatever the two sessions have done, a message that one sends is what the other reads, exactly
      if its nonce is among the first 2^56 of its half; never is it anything else. */
  lemma MessageArrives(suite: Suite, sys: SessionPair.System, master: Key, first: PrivateKey,
                       a: Session, b: Session, events: seq<Exchange>, fromA: bool, t: byte, data: Bytes,
                       behind: Bytes, m: Option<Msg>, rnd: Random, secret: PrivateKey, start: nat)
    requires suite.Lawful() && Conversation(suite, sys, master, first, a, b, events)
    requires SessionHistory.WithinBudget(
               SessionPair.RunFrom(Curve(suite, a), suite.aead(Algo(a)), sys, ConversationActions(suite, first, a, b, events)).ledger)
    requires t != MESSAGE_TYPE_ROTATION
    ensures var (a', b') := JointFinal(suite, a, b, events);
            var (x, y) := if fromA then (a', b') else (b', a');
            && x.core.Some? && y.core.Some? && Sound(x) && Sound(y)
            && var sent := SendMessage(suite, x, t, data).2;
               && sent.Some? && sent.value.Data? && |sent.value.bytes| >= CryptoCore.EXTRA_LEN + TAG_LEN
               && var got := HandleMessage(suite, y, sent.value.bytes, behind, m, rnd, secret, start);
                  var nonce, base := CoreState.NextNonce(x.core.value.core), CoreState.Base(x.core.value.core.half);
                  && (got.1 == Message(t) && got.2 == Some(Data(data)) <==> base <= nonce < base + WIRE)
                  && ((got.1 == Message(t) && got.2 == Some(Data(data))) || got.1 == Error)
  {
    var dh, aead := Curve(suite, a), suite.aead(Algo(a));
    ConversationPossible(suite, sys, master, first, a, b, events);
    Delivery.AlwaysDelivered(dh, aead, sys, ConversationActions(suite, first, a, b, events), master, fromA, [t] + data);
    var (a', b') := JointFinal(suite, a, b, events);
    var (x, y) := if fromA then (a', b') else (b', a');
    SentIsRead(suite, x, y, t, data, behind, m, rnd, secret, start);
  }

  /** Sending and reading a message is sealing and opening its frame. */
  lemma SentIsRead(suite: Suite, x: Session, y: Session, t: byte, data: Bytes, behind: Bytes, m: Option<Msg>,
                   rnd: Random, secret: PrivateKey, start: nat)
    requires suite.Lawful() && Encrypted(x) && Encrypted(y) && Algo(x) == Algo(y) && t != MESSAGE_TYPE_ROTATION
    ensures var aead := suite.aead(Algo(x));
            var frame := CoreState.Encrypt(aead, x.core.value.core, [t] + data).1;
            var opening := CoreState.Decrypt(aead, y.core.value.core, frame).1;
            var sent := SendMessage(suite, x, t, data).2;
            && sent.Some? && sent.value.Data? && |sent.value.bytes| >= CryptoCore.EXTRA_LEN + TAG_LEN
            && var got := HandleMessage(suite, y, sent.value.bytes, behind, m, rnd, secret, start);
               && (opening == Ok([t] + data) ==> got.1 == Message(t) && got.2 == Some(Data(data)))
               && (opening.Err? ==> got.1 == Error)
  {
    var aead := suite.aead(Algo(x));
    var frame := CoreState.Encrypt(aead, x.core.value.core, [t] + data).1;
    CryptoCore.FrameBytesRoundTrip(frame);
    var b := CryptoCore.EncodeFrame(frame);
    assert b[0] == frame.slot;
    assert ([t] + data)[1..] == data && ([t] + data + behind)[0] == t;
  }
}
