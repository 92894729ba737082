/** One connection from the first ping on. The initiator is established when it takes the pong and
speaks at once, while its peng may still be repeated or be lost for good; so handshake actions and
session actions of whichever end has finished are interleaved here. Every such run is a handshake run
together with a run of the session model, and so no key is used twice with one nonce in it. */
module Interleaving {
  import opened Primitives
  import opened Negotiation
  import opened Handshake
  import HandshakePair
  import SessionPair
  import SessionHistory
  import Recovery
  import Connection
  import Rotation
  import CoreState

  type Side = SessionPair.Side

  /** The two endpoints, the sessions of those that have finished, by role, and what is on record of
      the whole connection. */
  datatype State = State(
    h: HandshakePair.System,
    responder: Option<Side>,
    initiator: Option<Side>,
    sent: set<Rotation.Message>,
    ledger: seq<SessionPair.Use>,
    derived: set<Key>)

  /** `secret` is used if the handshake action completes a handshake. Session actions are by role:
      `byA` stands for the responder. */
  datatype Happening = Greet(hello: HandshakePair.Action, secret: PrivateKey) | Talk(act: SessionPair.Action)

  function Node(h: HandshakePair.System, byA: bool): HandshakePair.Node {
    if byA then h.a else h.b
  }

  /** What both ends select; the sessions run with the key agreement and the cipher of that choice. */
  function Selected(h: HandshakePair.System): Choice {
    Select(h.a.init.algorithms, h.b.init.algorithms)
  }

  function Algo(h: HandshakePair.System): Algorithm {
    if Selected(h).Use? then Selected(h).algorithm else Aes128
  }

  function Curve(suite: Suite, h: HandshakePair.System): Dh {
    Connection.Cut(suite.dh, Algo(h))
  }

  // ---- Steps -----------------------------------------------------------------------------------

  /** The payload encryption a handshake action makes, read off the core that made it. */
  function Payload(n: HandshakePair.Node, n': HandshakePair.Node): seq<SessionPair.Use>
    requires n'.init.Valid() && (n'.done.Some? && n'.done.value.crypto.Some? ==> n'.done.value.crypto.value.core.Valid())
  {
    if n.pong.None? && n'.pong.Some? && n'.init.crypto.Some? then
      [SealedUse(true, n'.init.crypto.value.core, n.init.payload)]
    else if n.peng.None? && n'.peng.Some? && n'.done.Some? && n'.done.value.crypto.Some? then
      [SealedUse(false, n'.done.value.crypto.value.core, n.init.payload)]
    else []
  }

  function SealedUse(byResponder: bool, core: CoreState.Core, data: Bytes): SessionPair.Use
    requires core.Valid()
  {
    SessionPair.Use(byResponder, core.keys[0].key, core.keys[0].send, data)
  }

  /** Whether the action completed a handshake with encryption. */
  predicate Completed(n: HandshakePair.Node, n': HandshakePair.Node) {
    n.done.None? && n'.done.Some? && n'.done.value.crypto.Some?
  }

  function NewSide(dh: Dh, d: HandshakePair.Done, secret: PrivateKey): Side
    requires d.crypto.Some?
  {
    SessionPair.Side(Rotation.Start(dh, !d.isInitiator, secret).0, d.crypto.value.core, [])
  }

  ghost predicate Sound(s: State) {
    && Proper(s.h)
    && (s.responder.Some? ==> s.responder.value.core.Valid()) && (s.initiator.Some? ==> s.initiator.value.core.Valid())
  }

  ghost predicate Proper(h: HandshakePair.System) {
    HandshakePair.Ready(h) && Delivered(h.a) && Delivered(h.b)
  }

  ghost predicate Delivered(n: HandshakePair.Node) {
    n.done.Some? && n.done.value.crypto.Some? ==> n.done.value.crypto.value.core.Valid()
  }

  lemma StepDelivered(suite: Suite, n: HandshakePair.Node, act: HandshakePair.Action)
    requires n.init.Valid() && Delivered(n)
    ensures Delivered(HandshakePair.NodeStep(suite, n, act).0)
  {
  }

  /** The handshake has got to `h'` by an action of one endpoint: what is on record then. */
  function Greeted(suite: Suite, s: State, h': HandshakePair.System, byA: bool, secret: PrivateKey): (r: State)
    requires Sound(s) && Proper(h')
    ensures Sound(r)
  {
    var n, n' := Node(s.h, byA), Node(h', byA);
    var uses := Payload(n, n');
    var dh := Curve(suite, s.h);
    var s1 := s.(h := h', ledger := s.ledger + uses, derived := s.derived + set u | u in uses :: u.key);
    if !Completed(n, n') then s1
    else if n'.done.value.isInitiator then s1.(initiator := Some(NewSide(dh, n'.done.value, secret)))
    else s1.(responder := Some(NewSide(dh, n'.done.value, secret)),
             sent := s.sent + {Rotation.Start(dh, true, secret).1.value})
  }

  function GreetStep(suite: Suite, s: State, act: HandshakePair.Action, secret: PrivateKey): (r: State)
    requires Sound(s)
    ensures Sound(r)
  {
    StepDelivered(suite, Node(s.h, act.byA), act);
    Greeted(suite, s, HandshakePair.Step(suite, s.h, act), act.byA, secret)
  }

  function Speaker(s: State, act: SessionPair.Action): Option<Side> {
    if act.byA then s.responder else s.initiator
  }

  function TalkStep(suite: Suite, s: State, act: SessionPair.Action): (r: State)
    requires Sound(s) && Speaker(s, act).Some?
    ensures Sound(r)
  {
    var dh, aead, side := Curve(suite, s.h), suite.aead(Algo(s.h)), Speaker(s, act).value;
    var (side', out) := SessionPair.SideStep(dh, aead, side, act);
    s.(responder := if act.byA then Some(side') else s.responder,
       initiator := if act.byA then s.initiator else Some(side'),
       sent := s.sent + out, ledger := s.ledger + SessionPair.Uses(side, act),
       derived := s.derived + SessionPair.Derives(dh, act))
  }

  ghost predicate Enabled(suite: Suite, s: State, e: Happening)
    requires Sound(s)
  {
    match e
    case Greet(act, _) => HandshakePair.Enabled(s.h, act)
    case Talk(act) =>
      && Speaker(s, act).Some?
      && (act.Deliver? ==>
            act.m in s.sent && act.start < START && Curve(suite, s.h).agree(act.secret, act.m.propose) !in s.derived)
      && (act.Rotate? ==> act.start < START)
  }

  function Step(suite: Suite, s: State, e: Happening): (r: State)
    requires Sound(s) && (e.Talk? ==> Speaker(s, e.act).Some?)
    ensures Sound(r)
  {
    match e
    case Greet(act, secret) => GreetStep(suite, s, act, secret)
    case Talk(act) => TalkStep(suite, s, act)
  }

  ghost predicate Initial(s: State) {
    HandshakePair.Initial(s.h) && s == State(s.h, None, None, {}, [], {})
  }

  /** Runs, each event possible when it happens. */
  ghost predicate Possible(suite: Suite, s: State, events: seq<Happening>)
    requires Sound(s)
    decreases |events|
  {
    events == [] || (Enabled(suite, s, events[0]) && Possible(suite, Step(suite, s, events[0]), events[1..]))
  }

  function RunFrom(suite: Suite, s: State, events: seq<Happening>): (r: State)
    requires Sound(s) && Possible(suite, s, events)
    ensures Sound(r)
    decreases |events|
  {
    if events == [] then s else RunFrom(suite, Step(suite, s, events[0]), events[1..])
  }

  // ---- The invariant ---------------------------------------------------------------------------

  /** The encryption behind a pong, as the history of both endpoints determines it. */
  ghost predicate PongOf(suite: Suite, x: HandshakePair.Node, y: HandshakePair.Node, u: SessionPair.Use) {
    && x.pong.Some? && y.ping.Some? && x.pong.value.1.Pong? && x.pong.value.1.box.Sealed?
    && Select(x.init.algorithms, y.init.algorithms).Use?
    && u == SessionPair.Use(
              true,
              MasterKey(Select(x.init.algorithms, y.init.algorithms).algorithm, HandshakePair.Agreed(suite, x, y, false)),
              CoreState.Base(x.init.hash > y.init.hash) + x.pong.value.1.box.frame.wire, x.init.payload)
  }

  /** Only the initiator has acted, and nothing was delivered to it. */
  predicate Solo(acts: seq<SessionPair.Action>) {
    forall i | 0 <= i < |acts| :: !acts[i].byA && !acts[i].Deliver?
  }

  ghost predicate Silent(s: State) {
    s == State(s.h, None, None, {}, [], {})
  }

  /** The responder `x` has answered, the initiator `y` has not finished. */
  ghost predicate Answered(suite: Suite, s: State, x: HandshakePair.Node, y: HandshakePair.Node) {
    && |s.ledger| == 1 && PongOf(suite, x, y, s.ledger[0])
    && s == State(s.h, None, None, {}, s.ledger, {s.ledger[0].key})
  }

  /** The session model starts from what the two endpoints hold. As long as the responder has not
      finished, its side stands for what it will be. */
  ghost predicate Origin(suite: Suite, dh: Dh, x: HandshakePair.Node, y: HandshakePair.Node, sys: SessionPair.System) {
    && |sys.ledger| == 2 && PongOf(suite, x, y, sys.ledger[0])
    && SessionPair.Initial(dh, sys, sys.ledger[0].key)
    && y.done.Some? && y.done.value.crypto.Some? && sys.b.core == y.done.value.crypto.value.core
    && sys.a.core.half == (x.init.hash > y.init.hash)
  }

  /** Where the session model has got to is where the connection is. */
  ghost predicate Reached(s: State, finished: bool, r: SessionPair.System, acts: seq<SessionPair.Action>) {
    && s.initiator == Some(r.b) && s.ledger == r.ledger && s.derived == r.derived
    && (if finished then s.responder == Some(r.a) && s.sent == r.sent
        else s.responder.None? && s.sent == {} && Solo(acts))
  }

  /** The session actions so far are a run of the session model from `sys`. */
  ghost predicate Talking(suite: Suite, s: State, x: HandshakePair.Node, y: HandshakePair.Node, sys: SessionPair.System,
                          acts: seq<SessionPair.Action>) {
    var dh, aead := Curve(suite, s.h), suite.aead(Algo(s.h));
    && Origin(suite, dh, x, y, sys) && SessionPair.Possible(dh, aead, sys, acts)
    && Reached(s, x.done.Some?, SessionPair.RunFrom(dh, aead, sys, acts), acts)
  }

  ghost predicate Phase(suite: Suite, s: State, x: HandshakePair.Node, y: HandshakePair.Node) {
    if !Select(x.init.algorithms, y.init.algorithms).Use? then Silent(s)
    else if y.done.None? then Answered(suite, s, x, y)
    else exists sys: SessionPair.System, acts: seq<SessionPair.Action> :: Talking(suite, s, x, y, sys, acts)
  }

  ghost predicate Inv(suite: Suite, s: State) {
    && HandshakePair.Inv(suite, s.h)
    && (if s.h.a.pong.Some? then Phase(suite, s, s.h.a, s.h.b)
        else if s.h.b.pong.Some? then Phase(suite, s, s.h.b, s.h.a)
        else Silent(s))
  }

  lemma InitialInv(suite: Suite, s: State)
    requires Initial(s)
    ensures Sound(s) && Inv(suite, s)
  {
    HandshakePair.InitialInv(suite, s.h);
  }

  // ---- Session actions -------------------------------------------------------------------------

  /** A lone initiator sends no rotation message, and its run does not depend on the responder. */
  lemma {:induction false} SoloSame(dh: Dh, aead: Aead, sys: SessionPair.System, sys': SessionPair.System,
                                    acts: seq<SessionPair.Action>)
    requires SessionPair.Ready(sys) && SessionPair.Ready(sys') && Solo(acts)
    requires sys.b == sys'.b && sys.b.rot == Rotation.Start(dh, false, 0).0
    requires sys.ledger == sys'.ledger && sys.derived == sys'.derived
    ensures var r, r' := SessionPair.RunFrom(dh, aead, sys, acts), SessionPair.RunFrom(dh, aead, sys', acts);
            && r'.b == r.b && r.b.rot == sys.b.rot && r'.a == sys'.a && r'.sent == sys'.sent
            && r'.ledger == r.ledger && r'.derived == r.derived
    ensures SessionPair.Possible(dh, aead, sys, acts) ==> SessionPair.Possible(dh, aead, sys', acts)
    decreases |acts|
  {
    if acts != [] {
      SoloSame(dh, aead, sys, sys', acts[..|acts| - 1]);
      SoloPossible(dh, aead, sys, sys', acts);
    }
  }

  lemma SoloPossible(dh: Dh, aead: Aead, sys: SessionPair.System, sys': SessionPair.System, acts: seq<SessionPair.Action>)
    requires SessionPair.Ready(sys) && SessionPair.Ready(sys') && Solo(acts)
    ensures SessionPair.Possible(dh, aead, sys, acts) ==> SessionPair.Possible(dh, aead, sys', acts)
  {
    if SessionPair.Possible(dh, aead, sys, acts) {
      forall i | 0 <= i < |acts|
        ensures SessionPair.Enabled(dh, SessionPair.RunFrom(dh, aead, sys', acts[..i]), acts[i])
      {
        assert SessionPair.Enabled(dh, SessionPair.RunFrom(dh, aead, sys, acts[..i]), acts[i]);
      }
    }
  }

  lemma TalkReached(suite: Suite, s: State, finished: bool, r: SessionPair.System, acts: seq<SessionPair.Action>,
                    act: SessionPair.Action)
    requires Sound(s) && SessionPair.Ready(r) && Reached(s, finished, r, acts) && Enabled(suite, s, Talk(act))
    requires !finished ==> r.b.rot == Rotation.Start(Curve(suite, s.h), false, 0).0
    ensures SessionPair.Enabled(Curve(suite, s.h), r, act)
    ensures Reached(TalkStep(suite, s, act), finished,
                    SessionPair.Step(Curve(suite, s.h), suite.aead(Algo(s.h)), r, act), acts + [act])
  {
  }

  lemma TalkKept(suite: Suite, s: State, x: HandshakePair.Node, y: HandshakePair.Node, sys: SessionPair.System,
                 acts: seq<SessionPair.Action>, act: SessionPair.Action)
    requires Sound(s) && Talking(suite, s, x, y, sys, acts) && Enabled(suite, s, Talk(act))
    ensures Talking(suite, TalkStep(suite, s, act), x, y, sys, acts + [act])
  {
    var dh, aead := Curve(suite, s.h), suite.aead(Algo(s.h));
    if x.done.None? {
      SoloSame(dh, aead, sys, sys, acts);
    }
    TalkReached(suite, s, x.done.Some?, SessionPair.RunFrom(dh, aead, sys, acts), acts, act);
    Recovery.Extend(dh, aead, sys, acts, act);
  }

  lemma TalkPhase(suite: Suite, s: State, x: HandshakePair.Node, y: HandshakePair.Node, act: SessionPair.Action)
    requires Sound(s) && Phase(suite, s, x, y) && Enabled(suite, s, Talk(act))
    ensures Phase(suite, TalkStep(suite, s, act), x, y)
  {
    var sys, acts :| Talking(suite, s, x, y, sys, acts);
    TalkKept(suite, s, x, y, sys, acts, act);
  }

  lemma TalkInv(suite: Suite, s: State, act: SessionPair.Action)
    requires Sound(s) && Inv(suite, s) && Enabled(suite, s, Talk(act))
    ensures Inv(suite, TalkStep(suite, s, act))
  {
    assert TalkStep(suite, s, act).h == s.h;
    if s.h.a.pong.Some? {
      TalkPhase(suite, s, s.h.a, s.h.b, act);
    } else if s.h.b.pong.Some? {
      TalkPhase(suite, s, s.h.b, s.h.a, act);
    }
  }

  // ---- Handshake actions -----------------------------------------------------------------------

  /** The four things a handshake action can do to the history of an endpoint: nothing, make the pong,
      make the peng and finish, or finish as responder. */
  predicate Unmoved(n: HandshakePair.Node, n': HandshakePair.Node) {
    n'.pong == n.pong && n'.peng == n.peng && n'.done == n.done
  }

  predicate Answers(n: HandshakePair.Node, n': HandshakePair.Node) {
    && n.pong.None? && n'.pong.Some? && n.peng.None? && n'.peng.None? && n.done.None? && n'.done.None?
    && n'.alive && n'.init.stage == StagePeng
  }

  predicate Opens(n: HandshakePair.Node, n': HandshakePair.Node) {
    && n.pong.None? && n'.pong.None? && n.peng.None? && n'.peng.Some? && n.done.None?
    && n'.done.Some? && n'.done.value.isInitiator
  }

  predicate Finishes(n: HandshakePair.Node, n': HandshakePair.Node) {
    && n.pong.Some? && n'.pong == n.pong && n.peng.None? && n'.peng.None? && n.done.None?
    && n'.done.Some? && !n'.done.value.isInitiator
  }

  lemma GreetShape(suite: Suite, n: HandshakePair.Node, o: HandshakePair.Node, net: set<Msg>, act: HandshakePair.Action)
    requires suite.Lawful() && HandshakePair.Both(suite, n, o, net) && (act.Arrive? ==> act.m in net)
    ensures var n' := HandshakePair.NodeStep(suite, n, act).0;
            Unmoved(n, n') || Answers(n, n') || Opens(n, n') || Finishes(n, n')
  {
    HandshakePair.NodeStepKept(suite, n, o, net, act);
    var n' := HandshakePair.NodeStep(suite, n, act).0;
    if n.alive && act.Arrive? {
      ArriveShape(suite, n, act.m, act.rnd);
    }
  }

  /** What the code alone says about an arrival. */
  lemma ArriveShape(suite: Suite, n: HandshakePair.Node, m: Msg, rnd: Random)
    requires n.init.Valid()
    ensures var n' := HandshakePair.Arrives(suite, n, m, rnd).0;
            || Unmoved(n, n')
            || (n'.pong.Some? && n'.peng == n.peng && n'.done == n.done && n'.init.stage == StagePeng
                && n.init.stage != StagePeng && n'.alive)
            || (n'.pong == n.pong && n'.done.Some? && n'.done.value.isInitiator && n.init.stage == StagePong)
            || (n'.pong == n.pong && n'.peng == n.peng && n'.done.Some? && !n'.done.value.isInitiator
                && n.init.stage == StagePeng)
  {
  }

  /** A phase does not look at anything a quiet action changes. */
  lemma PhaseKept(suite: Suite, s: State, s': State, x: HandshakePair.Node, x': HandshakePair.Node,
                  y: HandshakePair.Node, y': HandshakePair.Node)
    requires Phase(suite, s, x, y) && x.pong.Some? && y.ping.Some?
    requires s' == s.(h := s'.h) && Algo(s'.h) == Algo(s.h)
    requires HandshakePair.Extends(x, x') && Unmoved(x, x') && HandshakePair.Extends(y, y') && Unmoved(y, y')
    ensures Phase(suite, s', x', y')
  {
    if Select(x.init.algorithms, y.init.algorithms).Use? && y.done.Some? {
      var sys, acts :| Talking(suite, s, x, y, sys, acts);
      assert Talking(suite, s', x', y', sys, acts);
    }
  }

  /** The pong is made: its encryption is the first on record. */
  lemma AnswerKept(suite: Suite, s: State, s': State, x: HandshakePair.Node, x': HandshakePair.Node, y: HandshakePair.Node)
    requires Sound(s) && Silent(s) && Answers(x, x') && HandshakePair.Extends(x, x')
    requires HandshakePair.Half(suite, x', y) && y.done.None?
    requires s' == s.(h := s'.h, ledger := s.ledger + Payload(x, x'), derived := s.derived + set u | u in Payload(x, x') :: u.key)
    ensures Phase(suite, s', x', y)
  {
    var choice := Select(x'.init.algorithms, y.init.algorithms);
    if choice.Use? {
      var u := Payload(x, x')[0];
      assert s'.ledger == [u] && s'.derived == {u.key};
    } else {
      assert s'.ledger == [] && s'.derived == {};
    }
  }

  /** The core the responder will have, as far as the session model looks at it. */
  function StandIn(core: CoreState.Core, u: SessionPair.Use): CoreState.Core
    requires core.Valid()
  {
    CoreState.Core(core.keys[0 := CoreState.Slot(u.key, u.nonce, 0, 0, 0)], 0, !core.half)
  }

  /** A session whose responder is yet to finish. */
  function Begun(dh: Dh, k: Keyed, pong: SessionPair.Use, peng: Bytes): SessionPair.System
    requires k.core.Valid()
  {
    Connection.SessionOf(dh, Keyed(k.algorithm, StandIn(k.core, pong)), k, 0, pong.data, peng)
  }

  lemma BegunOrigin(suite: Suite, dh: Dh, x: HandshakePair.Node, y: HandshakePair.Node, u: SessionPair.Use)
    requires suite.Lawful() && HandshakePair.Settings(x, y) && HandshakePair.Half(suite, x, y) && HandshakePair.Half(suite, y, x)
    requires PongOf(suite, x, y, u)
    requires y.done.Some? && y.done.value.isInitiator && y.done.value.crypto.Some?
    ensures var k := y.done.value.crypto.value;
            && k.core.Valid()
            && var sys := Begun(dh, k, u, y.init.payload);
               && Origin(suite, dh, x, y, sys)
               && sys.ledger == [u, SealedUse(false, k.core, y.init.payload)] && sys.derived == {u.key}
  {
    assert HandshakePair.Agreed(suite, x, y, false) == HandshakePair.Agreed(suite, y, x, true);
    var k := y.done.value.crypto.value;
    var sys := Begun(dh, k, u, y.init.payload);
    assert sys.a.rot == Rotation.Start(dh, true, 0).0;
  }

  /** What the initiator's finishing puts on record is the beginning of that session. */
  lemma OpenReached(dh: Dh, s: State, s': State, y: HandshakePair.Node, y': HandshakePair.Node, secret: PrivateKey)
    requires Opens(y, y') && y'.init.Valid() && y'.init.payload == y.init.payload
    requires y'.done.value.crypto.Some? && y'.done.value.crypto.value.core.Valid()
    requires |s.ledger| == 1 && s.ledger[0].byA && s == State(s.h, None, None, {}, s.ledger, {s.ledger[0].key})
    requires s' == s.(h := s'.h, ledger := s.ledger + Payload(y, y'),
                      derived := s.derived + set u | u in Payload(y, y') :: u.key,
                      initiator := Some(NewSide(dh, y'.done.value, secret)))
    requires y'.done.value.crypto.value.core.keys[0].key == s.ledger[0].key
    ensures Reached(s', false, Begun(dh, y'.done.value.crypto.value, s.ledger[0], y'.init.payload), [])
  {
    var k := y'.done.value.crypto.value;
    assert Payload(y, y') == [SealedUse(false, k.core, y.init.payload)];
    assert s'.derived == {s.ledger[0].key};
  }

  /** The initiator finishes: its session begins. */
  lemma OpenKept(suite: Suite, s: State, s': State, x: HandshakePair.Node, y: HandshakePair.Node, y': HandshakePair.Node,
                 secret: PrivateKey)
    requires suite.Lawful() && Sound(s) && Phase(suite, s, x, y) && x.pong.Some? && y.ping.Some?
    requires HandshakePair.Settings(x, y') && HandshakePair.Half(suite, x, y') && HandshakePair.Half(suite, y', x)
    requires Opens(y, y') && HandshakePair.Extends(y, y') && x.done.None?
    requires Algo(s'.h) == Algo(s.h)
    requires Select(x.init.algorithms, y.init.algorithms).Use? ==>
               Algo(s.h) == Select(x.init.algorithms, y.init.algorithms).algorithm
    requires s' == (var s1 := s.(h := s'.h, ledger := s.ledger + Payload(y, y'),
                                 derived := s.derived + set u | u in Payload(y, y') :: u.key);
                    if Completed(y, y') then s1.(initiator := Some(NewSide(Curve(suite, s.h), y'.done.value, secret)))
                    else s1)
    ensures Phase(suite, s', x, y')
  {
    var choice := Select(x.init.algorithms, y.init.algorithms);
    if choice.Use? {
      var u := s.ledger[0];
      var dh := Curve(suite, s.h);
      BegunOrigin(suite, dh, x, y', u);
      OpenReached(dh, s, s', y, y', secret);
      OpenTalking(suite, s', x, y', Begun(dh, y'.done.value.crypto.value, u, y'.init.payload));
    } else {
      assert s'.ledger == [] && s'.derived == {};
    }
  }

  lemma OpenTalking(suite: Suite, s: State, x: HandshakePair.Node, y: HandshakePair.Node, sys: SessionPair.System)
    requires Origin(suite, Curve(suite, s.h), x, y, sys) && x.done.None? && Reached(s, false, sys, [])
    ensures Talking(suite, s, x, y, sys, [])
  {
  }

  /** The responder finishes: its side takes the place that was kept for it. */
  lemma FinishKept(suite: Suite, s: State, s': State, x: HandshakePair.Node, x': HandshakePair.Node, y: HandshakePair.Node,
                   secret: PrivateKey)
    requires suite.Lawful() && Sound(s) && Phase(suite, s, x, y) && y.ping.Some?
    requires HandshakePair.Settings(x', y) && HandshakePair.Half(suite, x', y) && HandshakePair.Half(suite, y, x')
    requires Finishes(x, x') && HandshakePair.Extends(x, x') && y.done.Some?
    requires Algo(s'.h) == Algo(s.h)
    requires s' == (var s1 := s.(h := s'.h);
                    var dh := Curve(suite, s.h);
                    if Completed(x, x') then s1.(responder := Some(NewSide(dh, x'.done.value, secret)),
                                                 sent := s.sent + {Rotation.Start(dh, true, secret).1.value})
                    else s1)
    ensures Phase(suite, s', x', y)
  {
    if Select(x.init.algorithms, y.init.algorithms).Use? {
      var sys, acts :| Talking(suite, s, x, y, sys, acts);
      ReplacedOrigin(suite, Curve(suite, s.h), x', y, sys, secret);
      FinishTalking(suite, s, s', x, x', y, secret, sys, acts);
    }
  }

  lemma FinishTalking(suite: Suite, s: State, s': State, x: HandshakePair.Node, x': HandshakePair.Node,
                      y: HandshakePair.Node, secret: PrivateKey, sys: SessionPair.System, acts: seq<SessionPair.Action>)
    requires Sound(s) && Talking(suite, s, x, y, sys, acts) && x.done.None?
    requires x'.done.Some? && x'.done.value.crypto.Some? && Algo(s'.h) == Algo(s.h)
    requires var dh := Curve(suite, s.h);
             && Origin(suite, dh, x', y, Replaced(dh, sys, x'.done.value, secret))
             && s' == s.(h := s'.h, responder := Some(NewSide(dh, x'.done.value, secret)),
                         sent := s.sent + {Rotation.Start(dh, true, secret).1.value})
    ensures Talking(suite, s', x', y, Replaced(Curve(suite, s.h), sys, x'.done.value, secret), acts)
  {
    var dh, aead := Curve(suite, s.h), suite.aead(Algo(s.h));
    SoloSame(dh, aead, sys, Replaced(dh, sys, x'.done.value, secret), acts);
  }

  /** The session with the responder as it finished. */
  function Replaced(dh: Dh, sys: SessionPair.System, d: HandshakePair.Done, secret: PrivateKey): SessionPair.System
    requires d.crypto.Some?
  {
    sys.(a := NewSide(dh, d, secret), sent := {Rotation.Start(dh, true, secret).1.value})
  }

  lemma ReplacedOrigin(suite: Suite, dh: Dh, x: HandshakePair.Node, y: HandshakePair.Node, sys: SessionPair.System,
                       secret: PrivateKey)
    requires HandshakePair.Settings(x, y) && HandshakePair.Half(suite, x, y) && HandshakePair.Half(suite, y, x)
    requires x.done.Some? && !x.done.value.isInitiator && Origin(suite, dh, x, y, sys)
    ensures x.done.value.crypto.Some? && x.done.value.crypto.value.core.Valid()
    ensures Origin(suite, dh, x, y, Replaced(dh, sys, x.done.value, secret))
  {
    assert Replaced(dh, sys, x.done.value, secret).a.rot == Rotation.Start(dh, true, secret).0;
  }

  /** No answer, no result. */
  lemma NothingDone(suite: Suite, x: HandshakePair.Node, y: HandshakePair.Node)
    requires HandshakePair.Half(suite, x, y) && x.pong.None? && y.pong.None?
    ensures x.done.None?
  {
  }

  /** What every handshake action leaves, seen from the acting endpoint. */
  ghost predicate Moved(suite: Suite, h: HandshakePair.System, h': HandshakePair.System, byA: bool) {
    var n, n', o := Node(h, byA), Node(h', byA), Node(h, !byA);
    && HandshakePair.Inv(suite, h') && Node(h', !byA) == o && Algo(h') == Algo(h)
    && HandshakePair.Extends(n, n') && HandshakePair.Settings(n', o)
    && HandshakePair.Half(suite, n', o) && HandshakePair.Half(suite, o, n')
    && (Unmoved(n, n') || Answers(n, n') || Opens(n, n') || Finishes(n, n'))
  }

  lemma GreetMoves(suite: Suite, h: HandshakePair.System, act: HandshakePair.Action)
    requires suite.Lawful() && Proper(h) && HandshakePair.Inv(suite, h) && HandshakePair.Enabled(h, act)
    ensures var h' := HandshakePair.Step(suite, h, act); Proper(h') && Moved(suite, h, h', act.byA)
  {
    StepDelivered(suite, Node(h, act.byA), act);
    GreetShape(suite, Node(h, act.byA), Node(h, !act.byA), h.net, act);
    HandshakePair.StepInv(suite, h, act);
    HandshakePair.NodeStepKept(suite, Node(h, act.byA), Node(h, !act.byA), h.net, act);
  }

  lemma UnmovedStep(suite: Suite, s: State, h': HandshakePair.System, byA: bool, secret: PrivateKey)
    requires Sound(s) && Proper(h') && Unmoved(Node(s.h, byA), Node(h', byA))
    ensures Greeted(suite, s, h', byA, secret) == s.(h := h')
  {
    assert s.ledger + [] == s.ledger && s.derived + {} == s.derived;
  }

  lemma UnmovedInv(suite: Suite, s: State, s': State, byA: bool)
    requires Inv(suite, s) && s' == s.(h := s'.h) && Moved(suite, s.h, s'.h, byA)
    requires Unmoved(Node(s.h, byA), Node(s'.h, byA))
    ensures Inv(suite, s')
  {
    var n, n', o := Node(s.h, byA), Node(s'.h, byA), Node(s.h, !byA);
    if n.pong.Some? {
      PongHeard(suite, n, o);
      PhaseKept(suite, s, s', n, n', o, o);
    } else if o.pong.Some? {
      PongHeard(suite, o, n);
      PhaseKept(suite, s, s', o, o, n, n');
    }
    PongsApart(suite, n, o);
  }

  lemma PongHeard(suite: Suite, x: HandshakePair.Node, y: HandshakePair.Node)
    requires HandshakePair.Half(suite, x, y) && x.pong.Some?
    ensures y.ping.Some?
  {
  }

  lemma PongsApart(suite: Suite, x: HandshakePair.Node, y: HandshakePair.Node)
    requires HandshakePair.Settings(x, y) && HandshakePair.Half(suite, x, y) && HandshakePair.Half(suite, y, x)
    ensures !(x.pong.Some? && y.pong.Some?)
  {
  }

  lemma AnswersInv(suite: Suite, s: State, h': HandshakePair.System, byA: bool, secret: PrivateKey)
    requires Sound(s) && Proper(h') && Inv(suite, s) && Moved(suite, s.h, h', byA)
    requires Answers(Node(s.h, byA), Node(h', byA))
    ensures Inv(suite, Greeted(suite, s, h', byA, secret))
  {
    var s' := Greeted(suite, s, h', byA, secret);
    var x, x', y := Node(s.h, byA), Node(h', byA), Node(s.h, !byA);
    PongsApart(suite, x', y);
    NothingDone(suite, y, x);
    AnswerKept(suite, s, s', x, x', y);
  }

  lemma OpensInv(suite: Suite, s: State, h': HandshakePair.System, byA: bool, secret: PrivateKey)
    requires suite.Lawful() && Sound(s) && Proper(h') && Inv(suite, s) && Moved(suite, s.h, h', byA)
    requires Opens(Node(s.h, byA), Node(h', byA))
    ensures Inv(suite, Greeted(suite, s, h', byA, secret))
  {
    var s' := Greeted(suite, s, h', byA, secret);
    var y, y', x := Node(s.h, byA), Node(h', byA), Node(s.h, !byA);
    OpenKept(suite, s, s', x, y, y', secret);
  }

  lemma FinishesStep(suite: Suite, s: State, h': HandshakePair.System, byA: bool, secret: PrivateKey)
    requires Sound(s) && Proper(h') && Finishes(Node(s.h, byA), Node(h', byA))
    ensures var x, x' := Node(s.h, byA), Node(h', byA);
            var s1, dh := s.(h := h'), Curve(suite, s.h);
            Greeted(suite, s, h', byA, secret)
            == if Completed(x, x') then s1.(responder := Some(NewSide(dh, x'.done.value, secret)),
                                            sent := s.sent + {Rotation.Start(dh, true, secret).1.value})
               else s1
  {
    assert s.ledger + [] == s.ledger && s.derived + {} == s.derived;
  }

  lemma FinishesInv(suite: Suite, s: State, h': HandshakePair.System, byA: bool, secret: PrivateKey)
    requires suite.Lawful() && Sound(s) && Proper(h') && Inv(suite, s) && Moved(suite, s.h, h', byA)
    requires Finishes(Node(s.h, byA), Node(h', byA))
    ensures Inv(suite, Greeted(suite, s, h', byA, secret))
  {
    var s' := Greeted(suite, s, h', byA, secret);
    var x, x', y := Node(s.h, byA), Node(h', byA), Node(s.h, !byA);
    FinishesStep(suite, s, h', byA, secret);
    PongHeard(suite, x', y);
    PongsApart(suite, x', y);
    FinishKept(suite, s, s', x, x', y, secret);
  }

  lemma GreetInv(suite: Suite, s: State, act: HandshakePair.Action, secret: PrivateKey)
    requires suite.Lawful() && Sound(s) && Inv(suite, s) && HandshakePair.Enabled(s.h, act)
    ensures Inv(suite, GreetStep(suite, s, act, secret))
  {
    GreetMoves(suite, s.h, act);
    GreetedInv(suite, s, HandshakePair.Step(suite, s.h, act), act.byA, secret);
  }

  lemma GreetedInv(suite: Suite, s: State, h': HandshakePair.System, byA: bool, secret: PrivateKey)
    requires suite.Lawful() && Sound(s) && Proper(h') && Inv(suite, s) && Moved(suite, s.h, h', byA)
    ensures Inv(suite, Greeted(suite, s, h', byA, secret))
  {
    var n, n' := Node(s.h, byA), Node(h', byA);
    if Unmoved(n, n') {
      UnmovedStep(suite, s, h', byA, secret);
      UnmovedInv(suite, s, s.(h := h'), byA);
    } else if Answers(n, n') {
      AnswersInv(suite, s, h', byA, secret);
    } else if Opens(n, n') {
      OpensInv(suite, s, h', byA, secret);
    } else {
      FinishesInv(suite, s, h', byA, secret);
    }
  }

  lemma {:induction false} RunInv(suite: Suite, s: State, events: seq<Happening>)
    requires suite.Lawful() && Sound(s) && Inv(suite, s) && Possible(suite, s, events)
    ensures Inv(suite, RunFrom(suite, s, events))
    decreases |events|
  {
    if events != [] {
      match events[0] {
        case Greet(act, secret) => GreetInv(suite, s, act, secret);
        case Talk(act) => TalkInv(suite, s, act);
      }
      RunInv(suite, Step(suite, s, events[0]), events[1..]);
    }
  }

  /** Every interleaved run is, once the initiator has finished, a run of the session model from an
      initial state; before that at most one payload has been encrypted. */
  lemma Projects(suite: Suite, s: State, events: seq<Happening>)
    returns (sys: SessionPair.System, acts: seq<SessionPair.Action>, master: Key)
    requires suite.Lawful() && Initial(s) && Sound(s) && Possible(suite, s, events)
    ensures var r := RunFrom(suite, s, events);
            var dh, aead := Curve(suite, r.h), suite.aead(Algo(r.h));
            if r.initiator.None? then r.responder.None? && |r.ledger| <= 1
            else
              && SessionPair.Initial(dh, sys, master) && SessionPair.Possible(dh, aead, sys, acts)
              && var t := SessionPair.RunFrom(dh, aead, sys, acts);
                 r.initiator == Some(t.b) && (r.responder.Some? ==> r.responder == Some(t.a)) && r.ledger == t.ledger
  {
    RunInv(suite, s, events);
    var r := RunFrom(suite, s, events);
    sys, acts, master :| true;
    if r.initiator.Some? {
      var (x, y) := if r.h.a.pong.Some? then (r.h.a, r.h.b) else (r.h.b, r.h.a);
      sys, acts :| Talking(suite, r, x, y, sys, acts);
      master := sys.ledger[0].key;
    }
  }

  /** Over every interleaving of handshake and session actions within the budget, from the first ping
      on and whether or not the responder ever finishes, no two encryptions share key and nonce. */
  lemma NoReuseFromFirstPing(suite: Suite, s: State, events: seq<Happening>)
    requires suite.Lawful() && Initial(s) && Sound(s) && Possible(suite, s, events)
    requires SessionHistory.WithinBudget(RunFrom(suite, s, events).ledger)
    ensures SessionHistory.NoReuse(RunFrom(suite, s, events).ledger)
  {
    var sys, acts, master := Projects(suite, s, events);
    var r := RunFrom(suite, s, events);
    if r.initiator.Some? {
      SessionHistory.NonceNeverReused(Curve(suite, r.h), suite.aead(Algo(r.h)), sys, acts, master);
    }
  }
}
