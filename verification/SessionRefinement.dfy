/** The session object refines an endpoint of the pair model: every call on an encrypted session does
to its rotation state and its key ring what a few actions of `SessionPair` do to a side. So the
guarantees proved for pairs of sides are guarantees about the objects of the program. */
module SessionRefinement {
  import opened Primitives
  import opened Handshake
  import opened Negotiation
  import opened PeerCrypto
  import CoreState
  import CryptoCore
  import Rotation
  import RotationCodec
  import SessionPair
  import Connection

  /** The object keeps the agreed secret in full and cuts it when the key is installed; a side keeps
      the cut key. */
  function Trim(a: Algorithm, rot: Rotation.State): Rotation.State {
    match rot.pending
    case None => rot
    case Some((key, confirm)) => rot.(pending := Some((MasterKey(a, key), confirm)))
  }

  function TrimKey(a: Algorithm, k: Option<Rotation.RotatedKey>): Option<Rotation.RotatedKey> {
    match k
    case None => None
    case Some(x) => Some(x.(key := MasterKey(a, x.key)))
  }

  ghost predicate Encrypted(s: Session) {
    Safe(s) && s.core.Some? && s.rotation.Some?
  }

  function Algo(s: Session): Algorithm
    requires s.core.Some?
  {
    s.core.value.algorithm
  }

  function Curve(suite: Suite, s: Session): Dh
    requires s.core.Some?
  {
    Connection.Cut(suite.dh, Algo(s))
  }

  /** The side a session stands for, given the keys it has installed so far. */
  function AsSide(s: Session, log: seq<Rotation.RotatedKey>): SessionPair.Side
    requires s.core.Some? && s.rotation.Some?
  {
    SessionPair.Side(Trim(Algo(s), s.rotation.value), s.core.value.core, log)
  }

  function SideRun(dh: Dh, aead: Aead, side: SessionPair.Side, acts: seq<SessionPair.Action>): (r: SessionPair.Side)
    requires side.core.Valid()
    ensures r.core.Valid()
    decreases |acts|
  {
    if acts == [] then side else SideRun(dh, aead, SessionPair.SideStep(dh, aead, side, acts[0]).0, acts[1..])
  }

  // ---- The actions of a call -------------------------------------------------------------------

  /** An authentic rotation message is delivered; everything else leaves the rotation alone. */
  function PlainActions(me: bool, data: Bytes, behind: Bytes, secret: PrivateKey, start: nat): seq<SessionPair.Action> {
    var all := data + behind;
    if all == [] || all[0] != MESSAGE_TYPE_ROTATION then []
    else
      match RotationCodec.Decode(all[1..])
      case None => []
      case Some(m) => [SessionPair.Deliver(me, m, secret, start)]
  }

  function FrameActions(suite: Suite, s: Session, me: bool, b: Bytes, behind: Bytes, secret: PrivateKey, start: nat)
    : seq<SessionPair.Action>
    requires s.core.Some? && s.core.value.core.Valid() && |b| >= CryptoCore.EXTRA_LEN + TAG_LEN
  {
    var frame := CryptoCore.DecodeFrame(b);
    [SessionPair.UseCore(me, SessionPair.Open(frame))]
    + match CoreState.Decrypt(suite.aead(Algo(s)), s.core.value.core, frame).1
      case Err(_) => []
      case Ok(data) => PlainActions(me, data, behind, secret, start)
  }

  /** Every 120th second the endpoint takes its turn, and a message it emits is encrypted. */
  function TurnActions(suite: Suite, s: Session, me: bool, secret: PrivateKey, start: nat): seq<SessionPair.Action>
    requires s.rotation.Some?
  {
    if s.rotateCounter + 1 < ROTATE_INTERVAL then []
    else
      [SessionPair.Rotate(me, secret, start)]
      + match Rotation.Cycle(suite.dh, s.rotation.value, secret).2
        case None => []
        case Some(m) => [Sealing(me, [MESSAGE_TYPE_ROTATION] + RotationCodec.Encode(m))]
  }

  function Sealing(me: bool, data: Bytes): SessionPair.Action {
    SessionPair.UseCore(me, SessionPair.Seal(data))
  }

  /** A second in which the handshake repeats its last message does not rotate. */
  function SecondActions(suite: Suite, s: Session, me: bool, secret: PrivateKey, start: nat): seq<SessionPair.Action>
    requires s.rotation.Some? && (s.init.Some? ==> s.init.value.Valid())
  {
    [SessionPair.UseCore(me, SessionPair.Second)]
    + if s.init.Some? && Second(s.init.value).2.Some? then [] else TurnActions(suite, s, me, secret, start)
  }

  function Actions(suite: Suite, s: Session, me: bool, c: Call): seq<SessionPair.Action>
    requires Encrypted(s) && Allowed(s, c)
  {
    match c
    case CallInitialize(_) => []
    case CallMessage(b, behind, _, _, secret, start) =>
      if b == [] || IsInitMessage(b) then [] else FrameActions(suite, s, me, b, behind, secret, start)
    case CallSend(t, data) => [Sealing(me, [t] + data)]
    case CallSecond(secret, start) => SecondActions(suite, s, me, secret, start)
  }

  // ---- Refinement ------------------------------------------------------------------------------

  /** A session after some actions stands for the side after them. */
  ghost predicate Follows(dh: Dh, aead: Aead, side: SessionPair.Side, acts: seq<SessionPair.Action>, s: Session) {
    && side.core.Valid() && s.core.Some? && s.rotation.Some?
    && var r := SideRun(dh, aead, side, acts);
       r == AsSide(s, r.log)
  }

  lemma ProcessTrimmed(suite: Suite, a: Algorithm, rot: Rotation.State, m: Rotation.Message, secret: PrivateKey)
    ensures var (rot', k) := Rotation.Process(suite.dh, rot, m, secret);
            Rotation.Process(Connection.Cut(suite.dh, a), Trim(a, rot), m, secret) == (Trim(a, rot'), TrimKey(a, k))
  {
  }

  lemma CycleTrimmed(suite: Suite, a: Algorithm, rot: Rotation.State, secret: PrivateKey)
    ensures var (rot', k, out) := Rotation.Cycle(suite.dh, rot, secret);
            Rotation.Cycle(Connection.Cut(suite.dh, a), Trim(a, rot), secret) == (Trim(a, rot'), TrimKey(a, k), out)
  {
  }

  /** Handing a key to the core of the object is handing the cut key to the side. */
  lemma InstallRefines(s: Session, rot: Rotation.State, k: Option<Rotation.RotatedKey>, start: nat,
                       log: seq<Rotation.RotatedKey>)
    requires Sound(s) && s.core.Some? && s.rotation.Some?
    ensures Install(s.(rotation := Some(rot)), k, start).Some?
    ensures var s' := Install(s.(rotation := Some(rot)), k, start).value;
            var side := SessionPair.Install(AsSide(s, log), Trim(Algo(s), rot), TrimKey(Algo(s), k), start);
            && s'.core.Some? && s'.rotation.Some? && Algo(s') == Algo(s)
            && side == AsSide(s', side.log)
  {
  }

  lemma PlainRefines(suite: Suite, s: Session, me: bool, data: Bytes, behind: Bytes, secret: PrivateKey, start: nat,
                     log: seq<Rotation.RotatedKey>)
    requires Encrypted(s)
    ensures var s' := HandlePlain(suite, s, data, behind, secret, start).0;
            Follows(Curve(suite, s), suite.aead(Algo(s)), AsSide(s, log), PlainActions(me, data, behind, secret, start), s')
  {
    var all := data + behind;
    if all != [] && all[0] == MESSAGE_TYPE_ROTATION && RotationCodec.Decode(all[1..]).Some? {
      var m := RotationCodec.Decode(all[1..]).value;
      ProcessTrimmed(suite, Algo(s), s.rotation.value, m, secret);
      var (rot, k) := Rotation.Process(suite.dh, s.rotation.value, m, secret);
      InstallRefines(s, rot, k, start, log);
      RunOne(Curve(suite, s), suite.aead(Algo(s)), AsSide(s, log), SessionPair.Deliver(me, m, secret, start));
    }
  }

  lemma RunOne(dh: Dh, aead: Aead, side: SessionPair.Side, act: SessionPair.Action)
    requires side.core.Valid()
    ensures SideRun(dh, aead, side, [act]) == SessionPair.SideStep(dh, aead, side, act).0
  {
    assert [act][1..] == [];
  }

  lemma RunFirst(dh: Dh, aead: Aead, side: SessionPair.Side, act: SessionPair.Action, acts: seq<SessionPair.Action>)
    requires side.core.Valid()
    ensures SideRun(dh, aead, side, [act] + acts)
            == SideRun(dh, aead, SessionPair.SideStep(dh, aead, side, act).0, acts)
  {
    assert ([act] + acts)[1..] == acts;
  }

  lemma FrameRefines(suite: Suite, s: Session, me: bool, b: Bytes, behind: Bytes, m: Option<Msg>, rnd: Random,
                     secret: PrivateKey, start: nat, log: seq<Rotation.RotatedKey>)
    requires Encrypted(s) && |b| >= CryptoCore.EXTRA_LEN + TAG_LEN && !IsInitMessage(b)
    ensures var s' := HandleMessage(suite, s, b, behind, m, rnd, secret, start).0;
            Follows(Curve(suite, s), suite.aead(Algo(s)), AsSide(s, log),
                    FrameActions(suite, s, me, b, behind, secret, start), s')
  {
    var dh, aead, frame := Curve(suite, s), suite.aead(Algo(s)), CryptoCore.DecodeFrame(b);
    var (core, result) := CoreState.Decrypt(aead, s.core.value.core, frame);
    var s1 := s.(core := Some(s.core.value.(core := core)));
    var rest := if result.Ok? then PlainActions(me, result.value, behind, secret, start) else [];
    RunFirst(dh, aead, AsSide(s, log), SessionPair.UseCore(me, SessionPair.Open(frame)), rest);
    assert AsSide(s1, log) == SessionPair.SideStep(dh, aead, AsSide(s, log),
                                                   SessionPair.UseCore(me, SessionPair.Open(frame))).0;
    if result.Ok? {
      PlainRefines(suite, s1, me, result.value, behind, secret, start, log);
    }
  }

  lemma TurnRefines(suite: Suite, s: Session, me: bool, secret: PrivateKey, start: nat, log: seq<Rotation.RotatedKey>)
    requires Encrypted(s)
    ensures var s' := RotateSecond(suite, s, secret, start).0;
            Follows(Curve(suite, s), suite.aead(Algo(s)), AsSide(s, log), TurnActions(suite, s, me, secret, start), s')
  {
    if s.rotateCounter + 1 >= ROTATE_INTERVAL {
      var dh, aead, side := Curve(suite, s), suite.aead(Algo(s)), AsSide(s, log);
      CycleTrimmed(suite, Algo(s), s.rotation.value, secret);
      var (rot, k, out) := Rotation.Cycle(suite.dh, s.rotation.value, secret);
      var s0 := s.(rotateCounter := 0);
      InstallRefines(s0, rot, k, start, log);
      var turn := SessionPair.Rotate(me, secret, start);
      if out.None? {
        RunOne(dh, aead, side, turn);
      } else {
        var seal := Sealing(me, [MESSAGE_TYPE_ROTATION] + RotationCodec.Encode(out.value));
        RunFirst(dh, aead, side, turn, [seal]);
        RunOne(dh, aead, SessionPair.SideStep(dh, aead, side, turn).0, seal);
      }
    }
  }

  lemma SecondRefines(suite: Suite, s: Session, me: bool, secret: PrivateKey, start: nat, log: seq<Rotation.RotatedKey>)
    requires Encrypted(s)
    ensures var s' := EverySecond(suite, s, secret, start).0;
            Follows(Curve(suite, s), suite.aead(Algo(s)), AsSide(s, log), SecondActions(suite, s, me, secret, start), s')
  {
    var dh, aead, side := Curve(suite, s), suite.aead(Algo(s)), AsSide(s, log);
    var tick := SessionPair.UseCore(me, SessionPair.Second);
    var s1 := s.(core := Some(s.core.value.(core := CoreState.Tick(s.core.value.core))));
    var rest := if s.init.Some? && Second(s.init.value).2.Some? then [] else TurnActions(suite, s, me, secret, start);
    RunFirst(dh, aead, side, tick, rest);
    assert AsSide(s1, log) == SessionPair.SideStep(dh, aead, side, tick).0;
    if s.init.None? {
      TurnRefines(suite, s1, me, secret, start, log);
    } else {
      var (init, o, out) := Second(s.init.value);
      var s2 := s1.(init := if init.stage == Closing then None else Some(init));
      if out.None? {
        TurnRefines(suite, s2, me, secret, start, log);
      }
    }
  }

  /** The handshake of an established session touches neither core nor rotation. */
  lemma HandshakeApart(suite: Suite, s: Session, m: Option<Msg>, rnd: Random, secret: PrivateKey)
    requires Encrypted(s)
    ensures var s' := HandleInitMessage(suite, s, m, rnd, secret).0; s'.core == s.core && s'.rotation == s.rotation
  {
  }

  /** Every call on an encrypted session is a sequence of actions of its side. */
  lemma CallRefines(suite: Suite, s: Session, me: bool, c: Call, log: seq<Rotation.RotatedKey>)
    requires Encrypted(s) && Allowed(s, c)
    ensures var s' := Do(suite, s, c).0;
            && Encrypted(s') && Algo(s') == Algo(s)
            && Follows(Curve(suite, s), suite.aead(Algo(s)), AsSide(s, log), Actions(suite, s, me, c), s')
  {
    DoSafe(suite, s, c);
    match c
    case CallInitialize(secret) =>
    case CallMessage(b, behind, m, rnd, secret, start) =>
      if b != [] && !IsInitMessage(b) {
        FrameRefines(suite, s, me, b, behind, m, rnd, secret, start, log);
      } else {
        HandshakeApart(suite, s, m, rnd, secret);
      }
    case CallSend(t, data) =>
      RunOne(Curve(suite, s), suite.aead(Algo(s)), AsSide(s, log), Sealing(me, [t] + data));
    case CallSecond(secret, start) => SecondRefines(suite, s, me, secret, start, log);
  }

  function AllActions(suite: Suite, s: Session, me: bool, calls: seq<Call>): seq<SessionPair.Action>
    requires Encrypted(s) && Calls(suite, s, calls)
    decreases |calls|
  {
    if calls == [] then []
    else
      CallRefines(suite, s, me, calls[0], []);
      Actions(suite, s, me, calls[0]) + AllActions(suite, Do(suite, s, calls[0]).0, me, calls[1..])
  }

  lemma {:induction false} RunConcat(dh: Dh, aead: Aead, side: SessionPair.Side, x: seq<SessionPair.Action>,
                                     y: seq<SessionPair.Action>)
    requires side.core.Valid()
    ensures SideRun(dh, aead, side, x + y) == SideRun(dh, aead, SideRun(dh, aead, side, x), y)
    decreases |x|
  {
    if x == [] {
      assert x + y == y;
    } else {
      assert (x + y)[1..] == x[1..] + y;
      RunConcat(dh, aead, SessionPair.SideStep(dh, aead, side, x[0]).0, x[1..], y);
    }
  }

  /** Every sequence of calls on an encrypted session is a sequence of actions of its side. */
  lemma {:induction false} SessionRefines(suite: Suite, s: Session, me: bool, calls: seq<Call>,
                                          log: seq<Rotation.RotatedKey>)
    requires Encrypted(s) && Calls(suite, s, calls)
    ensures var s' := Final(suite, s, calls);
            && Encrypted(s') && Algo(s') == Algo(s)
            && Follows(Curve(suite, s), suite.aead(Algo(s)), AsSide(s, log), AllActions(suite, s, me, calls), s')
    decreases |calls|
  {
    if calls != [] {
      var dh, aead, side := Curve(suite, s), suite.aead(Algo(s)), AsSide(s, log);
      var s1 := Do(suite, s, calls[0]).0;
      CallRefines(suite, s, me, calls[0], log);
      CallRefines(suite, s, me, calls[0], []);
      var x := Actions(suite, s, me, calls[0]);
      var log1 := SideRun(dh, aead, side, x).log;
      SessionRefines(suite, s1, me, calls[1..], log1);
      RunConcat(dh, aead, side, x, AllActions(suite, s1, me, calls[1..]));
    }
  }
}
