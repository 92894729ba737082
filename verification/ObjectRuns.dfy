/** Two new session objects, from the first ping on. Whatever calls they get in whatever order, as long
as the world is honest, what they do is an interleaved run of handshake and session: each call is a few
of its events. So what holds for such runs holds for the objects, whether or not both ever finish. */
module ObjectRuns {
  import opened Primitives
  import opened Handshake
  import opened PeerCrypto
  import opened SessionRefinement
  import opened EndToEnd
  import CoreState
  import CryptoCore
  import Rotation
  import RotationCodec
  import SessionPair
  import SessionHistory
  import Delivery
  import HandshakePair
  import Interleaving

  // ---- What an object stands for ---------------------------------------------------------------

  /** A side nobody looks at. */
  const NOBODY: SessionPair.Side :=
    SessionPair.Side(Rotation.State(None, None, None, 0, false), CoreState.NewCore([], false, [], [0, 0, 0, 0]), [])

  function SideFor(s: Interleaving.State, responder: bool): Option<SessionPair.Side> {
    if responder then s.responder else s.initiator
  }

  /** The sessions as a pair; who has not finished is nobody. */
  function AsSystem(s: Interleaving.State): (r: SessionPair.System)
    ensures Interleaving.Sound(s) ==> SessionPair.Ready(r)
  {
    SessionPair.System(if s.responder.Some? then s.responder.value else NOBODY,
                       if s.initiator.Some? then s.initiator.value else NOBODY, s.sent, s.ledger, s.derived)
  }

  predicate IsResponder(n: HandshakePair.Node) {
    n.done.Some? && !n.done.value.isInitiator
  }

  /** The object of an endpoint: the handshake of that endpoint until it has finished, and the side of
      its role from then on. */
  ghost predicate Tracks(s: Interleaving.State, me: bool, o: Session) {
    var n := Interleaving.Node(s.h, me);
    if n.done.None? then o == NewSession(n.init)
    else
      && o.init == (if n.init.stage == Closing then None else Some(n.init))
      && if n.done.value.crypto.None? then o == Session(o.init, None, true, None, 0)
         else Encrypted(o) && Algo(o) == Interleaving.Algo(s.h) && Stands(s, IsResponder(n), o)
  }

  ghost predicate Stands(s: Interleaving.State, responder: bool, o: Session)
    requires Encrypted(o)
  {
    var side := SideFor(s, responder);
    side.Some? && side.value == AsSide(o, side.value.log)
  }

  /** Two objects and the connection they have. */
  datatype World = World(s: Interleaving.State, a: Session, b: Session)

  ghost predicate Tracked(suite: Suite, w: World) {
    && Interleaving.Sound(w.s) && Interleaving.Inv(suite, w.s)
    && Tracks(w.s, true, w.a) && Tracks(w.s, false, w.b)
    && Texts(AsSystem(w.s)) && Typed(w.s.h.a.init.payload) && Typed(w.s.h.b.init.payload)
  }

  lemma TracksSound(s: Interleaving.State, me: bool, o: Session)
    requires Interleaving.Sound(s) && Tracks(s, me, o)
    ensures Sound(o)
  {
  }

  // ---- The events of a call --------------------------------------------------------------------

  function Talks(acts: seq<SessionPair.Action>): seq<Interleaving.Happening>
    decreases |acts|
  {
    if acts == [] then [] else Talks(acts[..|acts| - 1]) + [Interleaving.Talk(acts[|acts| - 1])]
  }

  /** What a call does to the handshake, if there still is one. */
  function Greeting(me: bool, o: Session, c: Call): Option<(HandshakePair.Action, PrivateKey)> {
    if o.init.None? then None
    else
      match c
      case CallInitialize(secret) => Some((HandshakePair.Initiate(me, secret), 0))
      case CallMessage(b, _, m, rnd, secret, _) =>
        if b != [] && IsInitMessage(b) && m.Some? then Some((HandshakePair.Arrive(me, m.value, rnd), secret)) else None
      case CallSend(_, _) => None
      case CallSecond(_, _) => Some((HandshakePair.Wait(me), 0))
  }

  function Greetings(me: bool, o: Session, c: Call): seq<Interleaving.Happening> {
    match Greeting(me, o, c)
    case None => []
    case Some((act, secret)) => [Interleaving.Greet(act, secret)]
  }

  /** Whether a call completes the handshake of an object as responder, with encryption. */
  predicate Answered(suite: Suite, o: Session, c: Call)
    requires Sound(o)
  {
    && o.core.None? && o.init.Some? && c.CallMessage? && IsInitMessage(c.bytes) && c.m.Some?
    && var (init, outcome, _) := Handle(suite, o.init.value, c.m.value, c.rnd);
       outcome.Success? && !outcome.isInitiator && init.crypto.Some?
  }

  function Happenings(suite: Suite, n: HandshakePair.Node, me: bool, o: Session, c: Call): seq<Interleaving.Happening>
    requires Sound(o) && (o.core.Some? ==> Encrypted(o)) && Allowed(o, c)
  {
    if o.core.Some? then Talks(Actions(suite, o, IsResponder(n), c)) + Greetings(me, o, c)
    else Greetings(me, o, c) + if Answered(suite, o, c) then [Interleaving.Talk(FirstSealing(suite, c.secret))] else []
  }

  /** What the world owes one call. The object has not been given up; handshake messages are of the
      two endpoints, since signatures are not forged; a frame that opens was sealed by one of the two;
      private keys are new, nonces start low, and rotation messages fit their format. */
  ghost predicate HonestCall(suite: Suite, s: Interleaving.State, me: bool, o: Session, c: Call)
    requires Interleaving.Sound(s) && Tracks(s, me, o)
  {
    var n := Interleaving.Node(s.h, me);
    && n.alive
    && match c
       case CallMessage(bytes, _, m, _, secret, start) =>
         if IsInitMessage(bytes) then
           && (m.Some? ==> m.value in s.h.net)
           && RotationCodec.Representable(Rotation.Start(suite.dh, true, secret).1.value)
         else
           o.core.Some? ==>
             && start < START
             && (forall m' | m' in s.sent :: Curve(suite, o).agree(secret, m'.propose) !in s.derived)
             && (|bytes| >= CryptoCore.EXTRA_LEN ==>
                   Delivery.Genuine(suite.aead(Algo(o)), AsSystem(s), IsResponder(n), CryptoCore.DecodeFrame(bytes)))
       case CallSecond(secret, start) =>
         o.core.Some? ==>
           && start < START
           && forall m | m in SessionPair.Turn(Curve(suite, o), SideFor(s, IsResponder(n)).value, secret, start).1 ::
                RotationCodec.Representable(m)
       case _ => true
  }

  // ---- Runs in a row ---------------------------------------------------------------------------

  /** A frame that is taken was sealed by one of the two, or does not open. */
  ghost predicate Fairly(suite: Suite, s: Interleaving.State, e: Interleaving.Happening)
    requires Interleaving.Sound(s)
  {
    e.Talk? && e.act.UseCore? && e.act.use.Open? ==>
      Delivery.Genuine(suite.aead(Interleaving.Algo(s.h)), AsSystem(s), e.act.byA, e.act.use.frame)
  }

  /** A run in which no forged frame is taken. */
  ghost predicate Honest(suite: Suite, s: Interleaving.State, hs: seq<Interleaving.Happening>)
    requires Interleaving.Sound(s)
    ensures Honest(suite, s, hs) ==> Interleaving.Possible(suite, s, hs)
    decreases |hs|
  {
    hs == []
    || (Interleaving.Enabled(suite, s, hs[0]) && Fairly(suite, s, hs[0])
        && Honest(suite, Interleaving.Step(suite, s, hs[0]), hs[1..]))
  }

  lemma {:induction false} RunsConcat(suite: Suite, s: Interleaving.State, x: seq<Interleaving.Happening>,
                                      y: seq<Interleaving.Happening>)
    requires Interleaving.Sound(s) && Honest(suite, s, x)
    requires Honest(suite, Interleaving.RunFrom(suite, s, x), y)
    ensures Honest(suite, s, x + y)
    ensures Interleaving.RunFrom(suite, s, x + y) == Interleaving.RunFrom(suite, Interleaving.RunFrom(suite, s, x), y)
    decreases |x|
  {
    if x == [] {
      assert x + y == y;
    } else {
      assert (x + y)[0] == x[0] && (x + y)[1..] == x[1..] + y;
      RunsConcat(suite, Interleaving.Step(suite, s, x[0]), x[1..], y);
    }
  }

  lemma RunsOne(suite: Suite, s: Interleaving.State, e: Interleaving.Happening)
    requires Interleaving.Sound(s) && Interleaving.Enabled(suite, s, e) && Fairly(suite, s, e)
    ensures Honest(suite, s, [e]) && Interleaving.RunFrom(suite, s, [e]) == Interleaving.Step(suite, s, e)
  {
    assert [e][1..] == [];
  }

  // ---- Session actions -------------------------------------------------------------------------

  /** A session action of the connection is that action of the pair. */
  lemma TalkIsStep(suite: Suite, s: Interleaving.State, act: SessionPair.Action)
    requires Interleaving.Sound(s) && Interleaving.Speaker(s, act).Some?
    requires SessionPair.Enabled(Interleaving.Curve(suite, s.h), AsSystem(s), act)
    ensures Interleaving.Enabled(suite, s, Interleaving.Talk(act))
    ensures var s' := Interleaving.TalkStep(suite, s, act);
            && AsSystem(s')
               == SessionPair.Step(Interleaving.Curve(suite, s.h), suite.aead(Interleaving.Algo(s.h)), AsSystem(s), act)
            && s'.h == s.h && SideFor(s', act.byA).Some? && SideFor(s', !act.byA) == SideFor(s, !act.byA)
  {
  }

  lemma FairPrefix(dh: Dh, aead: Aead, sys: SessionPair.System, acts: seq<SessionPair.Action>, k: nat)
    requires SessionPair.Ready(sys) && k <= |acts| && FairRun(dh, aead, sys, acts)
    ensures FairRun(dh, aead, sys, acts[..k])
    ensures k < |acts| ==> Fair(dh, aead, SessionPair.RunFrom(dh, aead, sys, acts[..k]), acts[k])
  {
    forall i | 0 <= i < k
      ensures Fair(dh, aead, SessionPair.RunFrom(dh, aead, sys, acts[..k][..i]), acts[..k][i])
    {
      assert acts[..k][..i] == acts[..i];
    }
  }

  /** So are they in a row. */
  lemma {:induction false} TalksRun(suite: Suite, s: Interleaving.State, acts: seq<SessionPair.Action>, responder: bool)
    requires Interleaving.Sound(s) && SideFor(s, responder).Some?
    requires forall i | 0 <= i < |acts| :: acts[i].byA == responder
    requires FairRun(Interleaving.Curve(suite, s.h), suite.aead(Interleaving.Algo(s.h)), AsSystem(s), acts)
    ensures Honest(suite, s, Talks(acts))
    ensures var s' := Interleaving.RunFrom(suite, s, Talks(acts));
            && AsSystem(s')
               == SessionPair.RunFrom(Interleaving.Curve(suite, s.h), suite.aead(Interleaving.Algo(s.h)), AsSystem(s), acts)
            && s'.h == s.h && SideFor(s', responder).Some? && SideFor(s', !responder) == SideFor(s, !responder)
    decreases |acts|
  {
    if acts != [] {
      var n := |acts| - 1;
      var dh, aead := Interleaving.Curve(suite, s.h), suite.aead(Interleaving.Algo(s.h));
      FairPrefix(dh, aead, AsSystem(s), acts, n);
      TalksRun(suite, s, acts[..n], responder);
      var s1 := Interleaving.RunFrom(suite, s, Talks(acts[..n]));
      TalkIsStep(suite, s1, acts[n]);
      RunsOne(suite, s1, Interleaving.Talk(acts[n]));
      RunsConcat(suite, s, Talks(acts[..n]), [Interleaving.Talk(acts[n])]);
    }
  }

  /** A call on an encrypted object, as far as its side is concerned. */
  lemma TalksOfCall(suite: Suite, s: Interleaving.State, me: bool, o: Session, c: Call)
    requires Interleaving.Sound(s) && Tracks(s, me, o) && Texts(AsSystem(s))
    requires o.core.Some? && Allowed(o, c) && HonestCall(suite, s, me, o, c)
    ensures var responder := IsResponder(Interleaving.Node(s.h, me));
            var hs := Talks(Actions(suite, o, responder, c));
            && Honest(suite, s, hs)
            && var s', o' := Interleaving.RunFrom(suite, s, hs), Do(suite, o, c).0;
               && s'.h == s.h && Texts(AsSystem(s')) && SideFor(s', !responder) == SideFor(s, !responder)
               && Encrypted(o') && Algo(o') == Algo(o) && Stands(s', responder, o')
  {
    var responder := IsResponder(Interleaving.Node(s.h, me));
    var log, acts := SideFor(s, responder).value.log, Actions(suite, o, responder, c);
    var dh, aead := Curve(suite, o), suite.aead(Algo(o));
    CallGood(suite, AsSystem(s), o, log, responder, c);
    ActionsMine(suite, o, responder, c);
    TalksRun(suite, s, acts, responder);
    OneSide(dh, aead, AsSystem(s), acts, responder);
    CallRefines(suite, o, responder, c, log);
  }

  // ---- Handshake actions -----------------------------------------------------------------------

  function KeptInit(n: HandshakePair.Node): Option<Init> {
    if n.init.stage == Closing then None else Some(n.init)
  }

  /** The endpoint after what a call does to it. */
  function NodeAfter(suite: Suite, n: HandshakePair.Node, me: bool, o: Session, c: Call): HandshakePair.Node
    requires n.init.Valid()
  {
    match Greeting(me, o, c)
    case None => n
    case Some((act, _)) => HandshakePair.NodeStep(suite, n, act).0
  }

  /** An endpoint that has finished takes no message any more. */
  lemma LateMessage(suite: Suite, i: Init, m: Msg, rnd: Random)
    requires i.Valid() && i.stage == WaitingToClose
    ensures var (i', o, _) := Handle(suite, i, m, rnd); i' == i && !o.Success? && !o.Crash?
  {
  }

  /** What a call on an established object does to its handshake is what it does to the endpoint. */
  lemma InitFollows(suite: Suite, n: HandshakePair.Node, me: bool, o: Session, c: Call)
    requires Safe(o) && Established(o) && Allowed(o, c)
    requires n.init.Valid() && n.alive && n.done.Some? && o.init == KeptInit(n)
    requires n.init.stage == WaitingToClose || n.init.stage == Closing
    ensures Do(suite, o, c).0.init == KeptInit(NodeAfter(suite, n, me, o, c))
    ensures !Answered(suite, o, c)
  {
    if o.init.Some? && c.CallMessage? && c.m.Some? {
      LateMessage(suite, n.init, c.m.value, c.rnd);
    }
  }

  /** Nothing has happened to the result of an endpoint, nor anything at all to the other. */
  predicate Quiet(h: HandshakePair.System, h': HandshakePair.System, me: bool) {
    var n, n' := Interleaving.Node(h, me), Interleaving.Node(h', me);
    && n'.done == n.done && n'.init.payload == n.init.payload
    && Interleaving.Node(h', !me) == Interleaving.Node(h, !me) && Interleaving.Algo(h') == Interleaving.Algo(h)
  }

  /** A handshake action of an endpoint that has finished changes nothing else. */
  lemma LateGreeting(suite: Suite, s: Interleaving.State, act: HandshakePair.Action, secret: PrivateKey)
    requires suite.Lawful() && Interleaving.Sound(s) && HandshakePair.Inv(suite, s.h) && HandshakePair.Enabled(s.h, act)
    requires Interleaving.Node(s.h, act.byA).done.Some?
    ensures var s' := Interleaving.GreetStep(suite, s, act, secret);
            && s' == s.(h := s'.h)
            && Interleaving.Node(s'.h, act.byA) == HandshakePair.NodeStep(suite, Interleaving.Node(s.h, act.byA), act).0
            && Quiet(s.h, s'.h, act.byA)
  {
    Interleaving.GreetMoves(suite, s.h, act);
    Interleaving.UnmovedStep(suite, s, HandshakePair.Step(suite, s.h, act), act.byA, secret);
  }

  /** The two endpoints have different roles. */
  lemma RolesApart(suite: Suite, h: HandshakePair.System)
    requires suite.Lawful() && HandshakePair.Inv(suite, h) && h.a.done.Some? && h.b.done.Some?
    ensures IsResponder(h.a) != IsResponder(h.b)
  {
    HandshakePair.AgreementOf(suite, h.a, h.b, h.net);
  }

  /** Who has a result is waiting to close or closing. */
  lemma DoneStage(suite: Suite, h: HandshakePair.System, me: bool)
    requires HandshakePair.Inv(suite, h)
    ensures var n := Interleaving.Node(h, me);
            && (n.done.Some? ==> n.alive && (n.init.stage == WaitingToClose || n.init.stage == Closing))
            && (n.done.None? && n.alive ==> n.init.stage != WaitingToClose && n.init.stage != Closing)
  {
  }

  // ---- One call --------------------------------------------------------------------------------

  /** The connection has got to where the object is now, and the other one is as it was. */
  ghost predicate Arrived(s: Interleaving.State, s': Interleaving.State, me: bool, o: Session) {
    && Tracks(s', me, o) && Texts(AsSystem(s')) && Interleaving.Algo(s'.h) == Interleaving.Algo(s.h)
    && Interleaving.Node(s'.h, me).init.payload == Interleaving.Node(s.h, me).init.payload
    && var n := Interleaving.Node(s.h, !me);
       && Interleaving.Node(s'.h, !me) == n
       && (n.done.Some? ==> SideFor(s', IsResponder(n)) == SideFor(s, IsResponder(n)))
  }

  ghost predicate Leads(suite: Suite, s: Interleaving.State, hs: seq<Interleaving.Happening>, me: bool, o: Session) {
    && Interleaving.Sound(s) && Honest(suite, s, hs)
    && Arrived(s, Interleaving.RunFrom(suite, s, hs), me, o)
  }

  /** What an object that has finished is, its handshake apart. */
  ghost predicate Settled(s: Interleaving.State, me: bool, o: Session) {
    var n := Interleaving.Node(s.h, me);
    && n.done.Some?
    && if n.done.value.crypto.None? then o == Session(o.init, None, true, None, 0)
       else Encrypted(o) && Algo(o) == Interleaving.Algo(s.h) && Stands(s, IsResponder(n), o)
  }

  lemma LateLeads(suite: Suite, s: Interleaving.State, s': Interleaving.State, hs: seq<Interleaving.Happening>, me: bool,
                  o: Session)
    requires Interleaving.Sound(s) && Honest(suite, s, hs) && Interleaving.RunFrom(suite, s, hs) == s'
    requires s' == s.(h := s'.h) && Quiet(s.h, s'.h, me)
    requires Settled(s, me, o) && o.init == KeptInit(Interleaving.Node(s'.h, me)) && Texts(AsSystem(s))
    ensures Leads(suite, s, hs, me, o)
  {
  }

  lemma LeadsAfter(suite: Suite, s: Interleaving.State, x: seq<Interleaving.Happening>, y: seq<Interleaving.Happening>,
                   me: bool, o: Session)
    requires Interleaving.Sound(s) && Honest(suite, s, x)
    requires var s1 := Interleaving.RunFrom(suite, s, x);
             && s1.h == s.h && Leads(suite, s1, y, me, o)
             && var n := Interleaving.Node(s.h, !me);
                n.done.Some? ==> SideFor(s1, IsResponder(n)) == SideFor(s, IsResponder(n))
    ensures Leads(suite, s, x + y, me, o)
  {
    RunsConcat(suite, s, x, y);
  }

  /** An object that has finished, after the session part of a call: the handshake part follows. */
  lemma LateCall(suite: Suite, s: Interleaving.State, me: bool, o: Session, c: Call, o': Session)
    requires suite.Lawful() && Interleaving.Sound(s) && HandshakePair.Inv(suite, s.h) && Texts(AsSystem(s))
    requires Settled(s, me, o') && o'.init == KeptInit(NodeAfter(suite, Interleaving.Node(s.h, me), me, o, c))
    requires Greeting(me, o, c).Some? ==> HandshakePair.Enabled(s.h, Greeting(me, o, c).value.0)
    ensures Leads(suite, s, Greetings(me, o, c), me, o')
  {
    match Greeting(me, o, c)
    case None => LateLeads(suite, s, s, [], me, o');
    case Some((act, secret)) =>
      LateGreeting(suite, s, act, secret);
      RunsOne(suite, s, Interleaving.Greet(act, secret));
      LateLeads(suite, s, Interleaving.GreetStep(suite, s, act, secret), [Interleaving.Greet(act, secret)], me, o');
  }

  lemma HonestGreeting(suite: Suite, s: Interleaving.State, me: bool, o: Session, c: Call)
    requires Interleaving.Sound(s) && Tracks(s, me, o) && HonestCall(suite, s, me, o, c)
    ensures Interleaving.Node(s.h, me).alive
    ensures Greeting(me, o, c).Some? ==> HandshakePair.Enabled(s.h, Greeting(me, o, c).value.0)
  {
  }

  lemma LateInit(suite: Suite, s: Interleaving.State, me: bool, o: Session, c: Call)
    requires Interleaving.Sound(s) && HandshakePair.Inv(suite, s.h) && Tracks(s, me, o)
    requires Interleaving.Node(s.h, me).done.Some? && Sound(o) && Allowed(o, c)
    ensures Safe(o) && !Answered(suite, o, c)
    ensures Do(suite, o, c).0.init == KeptInit(NodeAfter(suite, Interleaving.Node(s.h, me), me, o, c))
  {
    DoneStage(suite, s.h, me);
    InitFollows(suite, Interleaving.Node(s.h, me), me, o, c);
  }

  /** A call on an encrypted object, its session part done. */
  lemma EncryptedLeads(suite: Suite, s: Interleaving.State, me: bool, o: Session, c: Call, o': Session,
                       talks: seq<Interleaving.Happening>)
    requires suite.Lawful() && Interleaving.Sound(s) && HandshakePair.Inv(suite, s.h)
    requires Interleaving.Node(s.h, me).done.Some? && Honest(suite, s, talks)
    requires var s1, n := Interleaving.RunFrom(suite, s, talks), Interleaving.Node(s.h, me);
             && s1.h == s.h && Texts(AsSystem(s1)) && SideFor(s1, !IsResponder(n)) == SideFor(s, !IsResponder(n))
             && Settled(s1, me, o') && o'.init == KeptInit(NodeAfter(suite, n, me, o, c))
    requires Greeting(me, o, c).Some? ==> HandshakePair.Enabled(s.h, Greeting(me, o, c).value.0)
    ensures Leads(suite, s, talks + Greetings(me, o, c), me, o')
  {
    LateCall(suite, Interleaving.RunFrom(suite, s, talks), me, o, c, o');
    if Interleaving.Node(s.h, !me).done.Some? {
      RolesApart(suite, s.h);
    }
    LeadsAfter(suite, s, talks, Greetings(me, o, c), me, o');
  }

  /** A call on an encrypted object. */
  lemma EncryptedCall(suite: Suite, s: Interleaving.State, me: bool, o: Session, c: Call)
    requires suite.Lawful() && Interleaving.Sound(s) && HandshakePair.Inv(suite, s.h) && Tracks(s, me, o) && Texts(AsSystem(s))
    requires o.core.Some? && Allowed(o, c) && HonestCall(suite, s, me, o, c)
    ensures Leads(suite, s, Happenings(suite, Interleaving.Node(s.h, me), me, o, c), me, Do(suite, o, c).0)
  {
    var n := Interleaving.Node(s.h, me);
    HonestGreeting(suite, s, me, o, c);
    TalksOfCall(suite, s, me, o, c);
    LateInit(suite, s, me, o, c);
    EncryptedLeads(suite, s, me, o, c, Do(suite, o, c).0, Talks(Actions(suite, o, IsResponder(n), c)));
  }

  /** A call on an object whose handshake ended without encryption. */
  lemma ClearCall(suite: Suite, s: Interleaving.State, me: bool, o: Session, c: Call)
    requires suite.Lawful() && Interleaving.Sound(s) && HandshakePair.Inv(suite, s.h) && Tracks(s, me, o) && Texts(AsSystem(s))
    requires o.unencrypted && o.core.None? && Sound(o) && Allowed(o, c) && HonestCall(suite, s, me, o, c)
    ensures Leads(suite, s, Happenings(suite, Interleaving.Node(s.h, me), me, o, c), me, Do(suite, o, c).0)
  {
    HonestGreeting(suite, s, me, o, c);
    LateInit(suite, s, me, o, c);
    ClearStays(suite, o, c);
    LateCall(suite, s, me, o, c, Do(suite, o, c).0);
    assert Greetings(me, o, c) + [] == Greetings(me, o, c);
  }

  lemma ClearStays(suite: Suite, o: Session, c: Call)
    requires Safe(o) && o.unencrypted && o == Session(o.init, None, true, None, 0) && Allowed(o, c)
    ensures var o' := Do(suite, o, c).0; o' == Session(o'.init, None, true, None, 0)
  {
    if o.init.Some? && o.init.value.stage == WaitingToClose && c.CallMessage? && c.m.Some? {
      LateMessage(suite, o.init.value, c.m.value, c.rnd);
    }
  }

  // ---- The call that finishes a handshake ------------------------------------------------------

  /** What a call on an object that is shaking hands does is what it does to the endpoint, until the
      handshake succeeds. */
  lemma HandshakeFollows(suite: Suite, n: HandshakePair.Node, me: bool, c: Call)
    requires n.init.Valid() && n.alive && n.done.None? && n.init.stage != WaitingToClose && n.init.stage != Closing
    requires Allowed(NewSession(n.init), c)
    ensures var o := NewSession(n.init);
            var n' := NodeAfter(suite, n, me, o, c);
            if n'.done.None? then Do(suite, o, c).0 == NewSession(n'.init) && !Answered(suite, o, c)
            else c.CallMessage? && Greeting(me, o, c).Some? && Succeeds(suite, n, n', c)
  {
  }

  /** The message of the call completes the handshake of the endpoint. */
  ghost predicate Succeeds(suite: Suite, n: HandshakePair.Node, n': HandshakePair.Node, c: Call)
    requires n.init.Valid()
  {
    && c.CallMessage? && IsInitMessage(c.bytes) && c.m.Some?
    && var (init, o, out) := Handle(suite, n.init, c.m.value, c.rnd);
       && o.Success? && n'.done == Some(HandshakePair.Done(o.isInitiator, o.peerPayload, init.crypto))
       && n'.init == init.(crypto := None)
  }

  /** An object that has taken over the result of an endpoint, as responder with its first message. */
  ghost predicate TakesOver(suite: Suite, n: HandshakePair.Node, o: Session, secret: PrivateKey) {
    && n.done.Some? && o.init == KeptInit(n)
    && var d := n.done.value;
       if d.crypto.None? then o == Session(o.init, None, true, None, 0)
       else
         && Encrypted(o) && Algo(o) == d.crypto.value.algorithm && d.crypto.value.core.Valid()
         && var dh := Curve(suite, o);
            var side := Interleaving.NewSide(dh, d, secret);
            AsSide(o, []) == if d.isInitiator then side
                             else SessionPair.SideStep(dh, suite.aead(Algo(o)), side, FirstSealing(suite, secret)).0
  }

  /** The object after that call. */
  lemma SucceedsEstablishes(suite: Suite, n: HandshakePair.Node, n': HandshakePair.Node, c: Call)
    requires n.init.Valid() && Succeeds(suite, n, n', c) && Allowed(NewSession(n.init), c)
    ensures TakesOver(suite, n', Do(suite, NewSession(n.init), c).0, c.secret)
    ensures Answered(suite, NewSession(n.init), c) <==> IsResponder(n') && n'.done.value.crypto.Some?
  {
    var o := NewSession(n.init);
    var (init, outcome, out) := Handle(suite, n.init, c.m.value, c.rnd);
    NewSafe(n.init);
    InitMessageSafe(suite, o, c.m, c.rnd, c.secret);
    if init.crypto.Some? {
      EstablishRefines(suite, o, init, outcome.peerPayload, outcome.isInitiator, out, c.secret);
      if !outcome.isInitiator {
        var o' := Do(suite, o, c).0;
        RunOne(Curve(suite, o'), suite.aead(Algo(o')), Interleaving.NewSide(Curve(suite, o'), n'.done.value, c.secret),
               FirstSealing(suite, c.secret));
      }
    }
  }

  /** The algorithm of a result is the one both endpoints select. */
  lemma ResultAlgorithm(suite: Suite, h: HandshakePair.System, me: bool)
    requires HandshakePair.Inv(suite, h)
    requires var n := Interleaving.Node(h, me); n.done.Some? && n.done.value.crypto.Some?
    ensures Interleaving.Node(h, me).done.value.crypto.value.algorithm == Interleaving.Algo(h)
  {
  }

  /** Payloads and the first message leave proper texts. */
  lemma TextsGreeted(suite: Suite, s: Interleaving.State, h': HandshakePair.System, byA: bool, secret: PrivateKey)
    requires Interleaving.Sound(s) && Interleaving.Proper(h') && Texts(AsSystem(s))
    requires Typed(Interleaving.Node(s.h, byA).init.payload)
    ensures Texts(AsSystem(Interleaving.Greeted(suite, s, h', byA, secret)))
  {
    var s' := Interleaving.Greeted(suite, s, h', byA, secret);
    var uses := Interleaving.Payload(Interleaving.Node(s.h, byA), Interleaving.Node(h', byA));
    assert s'.ledger == s.ledger + uses && s.sent <= s'.sent;
    forall i | 0 <= i < |s'.ledger|
      ensures Typed(s'.ledger[i].data) || RotationText(s'.ledger[i].data, s'.sent)
    {
      if i < |s.ledger| {
        assert s'.ledger[i] == AsSystem(s).ledger[i];
        RotationTextGrows(s'.ledger[i].data, s.sent, s'.sent);
      }
    }
  }

  lemma RotationTextGrows(data: Bytes, sent: set<Rotation.Message>, more: set<Rotation.Message>)
    requires sent <= more
    ensures RotationText(data, sent) ==> RotationText(data, more)
  {
    if RotationText(data, sent) {
      var m :| m in sent && RotationCodec.Representable(m) && data == [MESSAGE_TYPE_ROTATION] + RotationCodec.Encode(m);
      assert m in more;
    }
  }

  /** What a handshake action of an endpoint without a result leaves. */
  ghost predicate Progress(suite: Suite, s: Interleaving.State, s': Interleaving.State, me: bool, secret: PrivateKey)
    requires Interleaving.Sound(s)
  {
    var n' := Interleaving.Node(s'.h, me);
    && HandshakePair.Inv(suite, s'.h) && Texts(AsSystem(s')) && Interleaving.Algo(s'.h) == Interleaving.Algo(s.h)
    && n'.init.payload == Interleaving.Node(s.h, me).init.payload
    && Interleaving.Node(s'.h, !me) == Interleaving.Node(s.h, !me)
    && if n'.done.Some? && n'.done.value.crypto.Some? then
         && SideFor(s', IsResponder(n')) == Some(Interleaving.NewSide(Interleaving.Curve(suite, s.h), n'.done.value, secret))
         && SideFor(s', !IsResponder(n')) == SideFor(s, !IsResponder(n'))
         && (IsResponder(n') ==> Rotation.Start(suite.dh, true, secret).1.value in s'.sent)
       else s'.responder == s.responder && s'.initiator == s.initiator
  }

  /** What a handshake action adds to the record and to the sides. */
  lemma GreetedAdds(suite: Suite, s: Interleaving.State, h': HandshakePair.System, me: bool, secret: PrivateKey)
    requires Interleaving.Sound(s) && Interleaving.Proper(h')
    ensures var s', n' := Interleaving.Greeted(suite, s, h', me, secret), Interleaving.Node(h', me);
            && s'.h == h' && s.ledger <= s'.ledger
            && if Interleaving.Completed(Interleaving.Node(s.h, me), n') then
                 && SideFor(s', IsResponder(n')) == Some(Interleaving.NewSide(Interleaving.Curve(suite, s.h), n'.done.value, secret))
                 && SideFor(s', !IsResponder(n')) == SideFor(s, !IsResponder(n'))
                 && (IsResponder(n') ==> Rotation.Start(suite.dh, true, secret).1.value in s'.sent)
               else s'.responder == s.responder && s'.initiator == s.initiator
  {
  }

  lemma GreetedSides(suite: Suite, s: Interleaving.State, h': HandshakePair.System, me: bool, secret: PrivateKey)
    requires suite.Lawful() && Interleaving.Sound(s) && Interleaving.Proper(h') && Interleaving.Moved(suite, s.h, h', me)
    requires Interleaving.Node(s.h, me).done.None? && Texts(AsSystem(s)) && Typed(Interleaving.Node(s.h, me).init.payload)
    ensures Progress(suite, s, Interleaving.Greeted(suite, s, h', me, secret), me, secret)
  {
    TextsGreeted(suite, s, h', me, secret);
    GreetedAdds(suite, s, h', me, secret);
  }

  lemma EarlyGreeting(suite: Suite, s: Interleaving.State, act: HandshakePair.Action, secret: PrivateKey)
    requires suite.Lawful() && Interleaving.Sound(s) && HandshakePair.Inv(suite, s.h) && HandshakePair.Enabled(s.h, act)
    requires var n := Interleaving.Node(s.h, act.byA); n.done.None? && Typed(n.init.payload)
    requires Texts(AsSystem(s))
    ensures var s' := Interleaving.GreetStep(suite, s, act, secret);
            && Progress(suite, s, s', act.byA, secret)
            && Interleaving.Node(s'.h, act.byA) == HandshakePair.NodeStep(suite, Interleaving.Node(s.h, act.byA), act).0
  {
    Interleaving.GreetMoves(suite, s.h, act);
    GreetedSides(suite, s, HandshakePair.Step(suite, s.h, act), act.byA, secret);
  }

  /** No result yet, or one that nothing follows. */
  lemma ProgressArrives(suite: Suite, s: Interleaving.State, s': Interleaving.State, me: bool, secret: PrivateKey, o: Session)
    requires suite.Lawful() && Interleaving.Sound(s) && Progress(suite, s, s', me, secret) && Tracks(s', me, o)
    ensures Arrived(s, s', me, o)
  {
    if s'.h.a.done.Some? && s'.h.b.done.Some? {
      RolesApart(suite, s'.h);
    }
  }

  /** The responder seals its first rotation message. */
  lemma FirstTalk(suite: Suite, s: Interleaving.State, side: SessionPair.Side, secret: PrivateKey)
    requires Interleaving.Sound(s) && s.responder == Some(side) && Texts(AsSystem(s))
    requires var m := Rotation.Start(suite.dh, true, secret).1.value; m in s.sent && RotationCodec.Representable(m)
    ensures Interleaving.Enabled(suite, s, Interleaving.Talk(FirstSealing(suite, secret)))
    ensures var s' := Interleaving.TalkStep(suite, s, FirstSealing(suite, secret));
            var dh, aead := Interleaving.Curve(suite, s.h), suite.aead(Interleaving.Algo(s.h));
            && s'.h == s.h && Texts(AsSystem(s')) && s'.initiator == s.initiator
            && s'.responder == Some(SessionPair.SideStep(dh, aead, side, FirstSealing(suite, secret)).0)
  {
    var act, dh, aead := FirstSealing(suite, secret), Interleaving.Curve(suite, s.h), suite.aead(Interleaving.Algo(s.h));
    TalkIsStep(suite, s, act);
    TextsSeal(dh, aead, AsSystem(s), true, act.use.data);
  }

  /** A result that nothing follows: the object stands for the side it begins. */
  lemma QuietSuccess(suite: Suite, s: Interleaving.State, s': Interleaving.State, me: bool, o: Session, secret: PrivateKey)
    requires suite.Lawful() && Interleaving.Sound(s) && Progress(suite, s, s', me, secret)
    requires var n := Interleaving.Node(s'.h, me);
             TakesOver(suite, n, o, secret) && !(IsResponder(n) && n.done.value.crypto.Some?)
    ensures Arrived(s, s', me, o)
  {
    if Interleaving.Node(s'.h, me).done.value.crypto.Some? {
      ResultAlgorithm(suite, s'.h, me);
    }
    ProgressArrives(suite, s, s', me, secret, o);
  }

  /** A responder's result, with the message that follows it. */
  lemma SpokenSuccess(suite: Suite, s: Interleaving.State, s': Interleaving.State, me: bool, o: Session, secret: PrivateKey)
    requires suite.Lawful() && Interleaving.Sound(s) && Interleaving.Sound(s') && Progress(suite, s, s', me, secret)
    requires var n := Interleaving.Node(s'.h, me);
             TakesOver(suite, n, o, secret) && IsResponder(n) && n.done.value.crypto.Some?
    requires RotationCodec.Representable(Rotation.Start(suite.dh, true, secret).1.value)
    ensures Interleaving.Enabled(suite, s', Interleaving.Talk(FirstSealing(suite, secret)))
    ensures Arrived(s, Interleaving.TalkStep(suite, s', FirstSealing(suite, secret)), me, o)
  {
    ResultAlgorithm(suite, s'.h, me);
    FirstTalk(suite, s', s'.responder.value, secret);
    if s'.h.a.done.Some? && s'.h.b.done.Some? {
      RolesApart(suite, s'.h);
    }
  }

  /** What a handshake action and what follows it lead to. */
  lemma GreetingLeads(suite: Suite, s: Interleaving.State, e: Interleaving.Happening, secret: PrivateKey,
                      s': Interleaving.State, me: bool, o: Session, answered: bool)
    requires suite.Lawful() && Interleaving.Sound(s) && Honest(suite, s, [e]) && Interleaving.RunFrom(suite, s, [e]) == s'
    requires Progress(suite, s, s', me, secret)
    requires var n := Interleaving.Node(s'.h, me);
             if n.done.None? then o == NewSession(n.init) && !answered
             else TakesOver(suite, n, o, secret) && (answered <==> IsResponder(n) && n.done.value.crypto.Some?)
    requires answered ==> RotationCodec.Representable(Rotation.Start(suite.dh, true, secret).1.value)
    ensures Leads(suite, s, [e] + (if answered then [Interleaving.Talk(FirstSealing(suite, secret))] else []), me, o)
  {
    if answered {
      SpokenSuccess(suite, s, s', me, o, secret);
      ThenSpeaks(suite, s, e, s', me, o, secret);
    } else {
      assert [e] + [] == [e];
      QuietProgress(suite, s, s', me, o, secret);
    }
  }

  lemma QuietProgress(suite: Suite, s: Interleaving.State, s': Interleaving.State, me: bool, o: Session, secret: PrivateKey)
    requires suite.Lawful() && Interleaving.Sound(s) && Progress(suite, s, s', me, secret)
    requires var n := Interleaving.Node(s'.h, me);
             if n.done.None? then o == NewSession(n.init)
             else TakesOver(suite, n, o, secret) && !(IsResponder(n) && n.done.value.crypto.Some?)
    ensures Arrived(s, s', me, o)
  {
    if Interleaving.Node(s'.h, me).done.None? {
      ProgressArrives(suite, s, s', me, secret, o);
    } else {
      QuietSuccess(suite, s, s', me, o, secret);
    }
  }

  lemma ThenSpeaks(suite: Suite, s: Interleaving.State, e: Interleaving.Happening, s': Interleaving.State, me: bool, o: Session,
                   secret: PrivateKey)
    requires Interleaving.Sound(s) && Honest(suite, s, [e]) && Interleaving.RunFrom(suite, s, [e]) == s'
    requires Interleaving.Enabled(suite, s', Interleaving.Talk(FirstSealing(suite, secret)))
    requires Arrived(s, Interleaving.TalkStep(suite, s', FirstSealing(suite, secret)), me, o)
    ensures Leads(suite, s, [e] + [Interleaving.Talk(FirstSealing(suite, secret))], me, o)
  {
    var first := Interleaving.Talk(FirstSealing(suite, secret));
    RunsOne(suite, s', first);
    RunsConcat(suite, s, [e], [first]);
  }

  /** A call on an object that is shaking hands. */
  lemma EarlyCall(suite: Suite, s: Interleaving.State, me: bool, o: Session, c: Call)
    requires suite.Lawful() && Interleaving.Sound(s) && HandshakePair.Inv(suite, s.h) && Tracks(s, me, o) && Texts(AsSystem(s))
    requires Interleaving.Node(s.h, me).done.None? && Typed(Interleaving.Node(s.h, me).init.payload)
    requires Sound(o) && Allowed(o, c) && HonestCall(suite, s, me, o, c)
    ensures Leads(suite, s, Happenings(suite, Interleaving.Node(s.h, me), me, o, c), me, Do(suite, o, c).0)
  {
    var n := Interleaving.Node(s.h, me);
    HonestGreeting(suite, s, me, o, c);
    DoneStage(suite, s.h, me);
    HandshakeFollows(suite, n, me, c);
    var n' := NodeAfter(suite, n, me, o, c);
    if n'.done.Some? {
      SucceedsEstablishes(suite, n, n', c);
    }
    if Greeting(me, o, c).Some? {
      var (act, secret) := Greeting(me, o, c).value;
      EarlyLeads(suite, s, act, secret, Do(suite, o, c).0, Answered(suite, o, c));
    }
  }

  lemma EarlyLeads(suite: Suite, s: Interleaving.State, act: HandshakePair.Action, secret: PrivateKey, o: Session,
                   answered: bool)
    requires suite.Lawful() && Interleaving.Sound(s) && HandshakePair.Inv(suite, s.h) && HandshakePair.Enabled(s.h, act)
    requires var n := Interleaving.Node(s.h, act.byA); n.done.None? && Typed(n.init.payload)
    requires Texts(AsSystem(s))
    requires var n := HandshakePair.NodeStep(suite, Interleaving.Node(s.h, act.byA), act).0;
             if n.done.None? then o == NewSession(n.init) && !answered
             else TakesOver(suite, n, o, secret) && (answered <==> IsResponder(n) && n.done.value.crypto.Some?)
    requires answered ==> RotationCodec.Representable(Rotation.Start(suite.dh, true, secret).1.value)
    ensures Leads(suite, s, [Interleaving.Greet(act, secret)]
                            + (if answered then [Interleaving.Talk(FirstSealing(suite, secret))] else []), act.byA, o)
  {
    var e := Interleaving.Greet(act, secret);
    EarlyGreeting(suite, s, act, secret);
    RunsOne(suite, s, e);
    GreetingLeads(suite, s, e, secret, Interleaving.GreetStep(suite, s, act, secret), act.byA, o, answered);
  }

  // ---- All calls -------------------------------------------------------------------------------

  lemma CallLeads(suite: Suite, s: Interleaving.State, me: bool, o: Session, c: Call)
    requires suite.Lawful() && Interleaving.Sound(s) && HandshakePair.Inv(suite, s.h) && Tracks(s, me, o) && Texts(AsSystem(s))
    requires Typed(Interleaving.Node(s.h, me).init.payload)
    requires Sound(o) && Allowed(o, c) && HonestCall(suite, s, me, o, c)
    ensures Leads(suite, s, Happenings(suite, Interleaving.Node(s.h, me), me, o, c), me, Do(suite, o, c).0)
  {
    if Interleaving.Node(s.h, me).done.None? {
      EarlyCall(suite, s, me, o, c);
    } else if o.core.Some? {
      EncryptedCall(suite, s, me, o, c);
    } else {
      ClearCall(suite, s, me, o, c);
    }
  }

  function ObjectOf(w: World, byA: bool): Session {
    if byA then w.a else w.b
  }

  function ExchangeHappenings(suite: Suite, w: World, e: Exchange): seq<Interleaving.Happening>
    requires Tracked(suite, w) && Allowed(ObjectOf(w, e.byA), e.call)
  {
    TracksSound(w.s, e.byA, ObjectOf(w, e.byA));
    Happenings(suite, Interleaving.Node(w.s.h, e.byA), e.byA, ObjectOf(w, e.byA), e.call)
  }

  ghost predicate HonestNow(suite: Suite, w: World, e: Exchange)
    requires Tracked(suite, w)
  {
    Allowed(ObjectOf(w, e.byA), e.call) && HonestCall(suite, w.s, e.byA, ObjectOf(w, e.byA), e.call)
  }

  /** The other object still stands for what it stood for. */
  lemma OtherTracks(s: Interleaving.State, s': Interleaving.State, me: bool, o: Session, other: Session)
    requires Arrived(s, s', me, o) && Tracks(s, !me, other)
    ensures Tracks(s', !me, other)
  {
  }

  /** An honest call on either object. */
  lemma ExchangeLeads(suite: Suite, w: World, e: Exchange)
    requires suite.Lawful() && Tracked(suite, w) && HonestNow(suite, w, e)
    ensures Sound(w.a) && Sound(w.b)
    ensures var hs := ExchangeHappenings(suite, w, e);
            var (a, b) := NextSessions(suite, w.a, w.b, e);
            Honest(suite, w.s, hs) && Tracked(suite, World(Interleaving.RunFrom(suite, w.s, hs), a, b))
  {
    TracksSound(w.s, true, w.a);
    TracksSound(w.s, false, w.b);
    var hs, o := ExchangeHappenings(suite, w, e), ObjectOf(w, e.byA);
    CallLeads(suite, w.s, e.byA, o, e.call);
    Interleaving.RunInv(suite, w.s, hs);
    OtherTracks(w.s, Interleaving.RunFrom(suite, w.s, hs), e.byA, Do(suite, o, e.call).0, ObjectOf(w, !e.byA));
  }

  /** The objects after a call, and their connection after its events. */
  function After(suite: Suite, w: World, e: Exchange): (r: World)
    requires suite.Lawful() && Tracked(suite, w) && HonestNow(suite, w, e)
    ensures Tracked(suite, r)
  {
    ExchangeLeads(suite, w, e);
    World(Interleaving.RunFrom(suite, w.s, ExchangeHappenings(suite, w, e)),
          NextSessions(suite, w.a, w.b, e).0, NextSessions(suite, w.a, w.b, e).1)
  }

  /** Every call was allowed and the world was honest when it was made. */
  ghost predicate HonestCalls(suite: Suite, w: World, events: seq<Exchange>)
    requires suite.Lawful() && Tracked(suite, w)
    decreases |events|
  {
    events == [] || (HonestNow(suite, w, events[0]) && HonestCalls(suite, After(suite, w, events[0]), events[1..]))
  }

  function Finally(suite: Suite, w: World, events: seq<Exchange>): (r: World)
    requires suite.Lawful() && Tracked(suite, w) && HonestCalls(suite, w, events)
    ensures Tracked(suite, r)
    decreases |events|
  {
    if events == [] then w else Finally(suite, After(suite, w, events[0]), events[1..])
  }

  function AllHappenings(suite: Suite, w: World, events: seq<Exchange>): seq<Interleaving.Happening>
    requires suite.Lawful() && Tracked(suite, w) && HonestCalls(suite, w, events)
    decreases |events|
  {
    if events == [] then []
    else ExchangeHappenings(suite, w, events[0]) + AllHappenings(suite, After(suite, w, events[0]), events[1..])
  }

  /** Every honest interleaving of calls on two objects is an honest run of handshake and session, and
      leads to what the objects are then. */
  lemma {:induction false} ObjectsRun(suite: Suite, w: World, events: seq<Exchange>)
    requires suite.Lawful() && Tracked(suite, w) && HonestCalls(suite, w, events)
    ensures Honest(suite, w.s, AllHappenings(suite, w, events))
    ensures Interleaving.RunFrom(suite, w.s, AllHappenings(suite, w, events)) == Finally(suite, w, events).s
    decreases |events|
  {
    if events != [] {
      var w1 := After(suite, w, events[0]);
      ExchangeLeads(suite, w, events[0]);
      ObjectsRun(suite, w1, events[1..]);
      RunsConcat(suite, w.s, ExchangeHappenings(suite, w, events[0]), AllHappenings(suite, w1, events[1..]));
    }
  }

  /** Two new objects, nothing sent yet; their payloads are no rotation messages. */
  ghost predicate NewWorld(w: World) {
    && Interleaving.Initial(w.s) && w == World(w.s, NewSession(w.s.h.a.init), NewSession(w.s.h.b.init))
    && Typed(w.s.h.a.init.payload) && Typed(w.s.h.b.init.payload)
  }

  lemma ObjectsBegin(suite: Suite, w: World)
    requires NewWorld(w)
    ensures Tracked(suite, w)
  {
    Interleaving.InitialInv(suite, w.s);
  }

  /** Whatever honest calls two new objects get, from the first ping on and whether or not both finish:
      within the budget no two of their encryptions, handshake payloads included, share key and nonce. */
  lemma ObjectsNeverReuse(suite: Suite, w: World, events: seq<Exchange>)
    requires suite.Lawful() && NewWorld(w) && Tracked(suite, w) && HonestCalls(suite, w, events)
    requires SessionHistory.WithinBudget(Finally(suite, w, events).s.ledger)
    ensures SessionHistory.NoReuse(Finally(suite, w, events).s.ledger)
  {
    ObjectsRun(suite, w, events);
    Interleaving.NoReuseFromFirstPing(suite, w.s, AllHappenings(suite, w, events));
  }
}
