/** The session object (`PeerCrypto`) that runs the handshake, then owns the core and the rotation.

Handshake messages enter parsed; `None` stands for one that does not parse, verify or come from a
trusted peer. All other messages are bytes. */
module PeerCrypto {
  import opened Primitives
  import opened Handshake
  import CoreState
  import CryptoCore
  import Rotation
  import RotationCodec

  const INIT_MESSAGE_FIRST_BYTE: byte := 0xff
  const MESSAGE_TYPE_ROTATION: byte := 0x10
  const ROTATE_INTERVAL := 120

  datatype Session = Session(
    init: Option<Init>,
    rotation: Option<Rotation.State>,
    unencrypted: bool,
    core: Option<Keyed>,
    rotateCounter: nat)

  /** What a call reports. `Malformed` is an authentic message without even a type byte of its own. */
  datatype Answer =
    | Message(msgType: byte)
    | Initialized(payload: Bytes)
    | InitializedWithReply(payload: Bytes)
    | Reply
    | Nothing
    | Error
    | Malformed

  /** What a call leaves in the buffer to be sent. */
  datatype Packet = Greeting(m: Msg) | Data(bytes: Bytes)

  /** What handling a message or a second returns: the state, the answer, and what is to be sent. */
  type Effect = (Session, Answer, Option<Packet>)

  function NewSession(init: Init): Session {
    Session(Some(init), None, false, None, 0)
  }

  predicate IsInitMessage(b: Bytes) {
    b != [] && b[0] == INIT_MESSAGE_FIRST_BYTE
  }

  function Greet(out: Option<Msg>): Option<Packet> {
    if out.Some? then Some(Greeting(out.value)) else None
  }

  ghost predicate Sound(s: Session) {
    && (s.init.Some? ==> s.init.value.Valid())
    && (s.core.Some? ==> s.core.value.core.Valid())
  }

  /** Encrypts a message under the session's core; an unencrypted session leaves it as it is. */
  function EncryptMessage(suite: Suite, s: Session, data: Bytes): (r: Option<(Session, Bytes)>)
    requires Sound(s)
    ensures r.Some? ==> Sound(r.value.0)
  {
    if s.unencrypted then Some((s, data))
    else
      match s.core
      case None => None
      case Some(k) =>
        var (core, frame) := CoreState.Encrypt(suite.aead(k.algorithm), k.core, data);
        Some((s.(core := Some(k.(core := core))), CryptoCore.EncodeFrame(frame)))
  }

  /** Encrypts and sends, or reports that there is no core yet. */
  function Post(suite: Suite, s: Session, data: Bytes, answer: Answer): (r: Effect)
    requires Sound(s)
    ensures Sound(r.0)
  {
    match EncryptMessage(suite, s, data)
    case None => (s, Error, None)
    case Some((s', bytes)) => (s', answer, Some(Data(bytes)))
  }

  function Initialize(suite: Suite, s: Session, secret: PrivateKey): (r: Effect)
    requires Sound(s)
    ensures Sound(r.0)
  {
    if s.init.None? || s.init.value.stage != StagePing then (s, Error, None)
    else
      var (init, m) := SendPing(suite, s.init.value, secret);
      (s.(init := Some(init)), Reply, Some(Greeting(m)))
  }

  /** The handshake has succeeded: take its core, start the rotation, and as responder speak first. */
  function Establish(suite: Suite, s: Session, init: Init, payload: Bytes, isInitiator: bool, out: Option<Msg>,
                     secret: PrivateKey): (r: Effect)
    requires Sound(s) && init.Valid()
    ensures Sound(r.0)
  {
    var kept := if init.stage == Closing then None else Some(init.(crypto := None));
    match init.crypto
    case None =>
      var s1 := s.(core := None, unencrypted := true, init := kept);
      (s1, if isInitiator then InitializedWithReply(payload) else Initialized(payload), Greet(out))
    case Some(k) =>
      var (rot, first) := Rotation.Start(suite.dh, !isInitiator, secret);
      var s1 := s.(core := Some(k), init := kept, rotation := Some(rot));
      if isInitiator then (s1, InitializedWithReply(payload), Greet(out))
      else
        Post(suite, s1, [MESSAGE_TYPE_ROTATION] + RotationCodec.Encode(first.value), InitializedWithReply(payload))
  }

  function HandleInitMessage(suite: Suite, s: Session, m: Option<Msg>, rnd: Random, secret: PrivateKey): (r: Effect)
    requires Sound(s)
    ensures Sound(r.0)
  {
    if s.init.None? || m.None? then (s, Error, None)
    else
      var (init, o, out) := Handle(suite, s.init.value, m.value, rnd);
      match o
      case Continue => (s.(init := Some(init)), Reply, Greet(out))
      case Success(payload, isInitiator) => Establish(suite, s, init, payload, isInitiator, out, secret)
      case Failed(_) => (s.(init := Some(init)), Error, None)
      case Crash => (s.(init := Some(init)), Error, None)
  }

  /** Hands an emitted key to the core, cut to the key length of its algorithm. */
  function Install(s: Session, key: Option<Rotation.RotatedKey>, start: nat): (r: Option<Session>)
    requires Sound(s)
    ensures r.Some? ==> Sound(r.value)
  {
    match (key, s.core)
    case (None, _) => Some(s)
    case (Some(_), None) => None
    case (Some(x), Some(k)) =>
      Some(s.(core := Some(k.(core := CoreState.RotateKey(k.core, MasterKey(k.algorithm, x.key), x.id, x.useForSending,
                                                          start)))))
  }

  function HandleRotateMessage(suite: Suite, s: Session, data: Bytes, secret: PrivateKey, start: nat): (r: Effect)
    requires Sound(s)
    ensures Sound(r.0)
  {
    if s.unencrypted then (s, Nothing, None)
    else if s.rotation.None? then (s, Error, None)
    else
      match RotationCodec.Decode(data)
      case None => (s, Error, None)
      case Some(m) =>
        var (rot, key) := Rotation.Process(suite.dh, s.rotation.value, m, secret);
        var s1 := s.(rotation := Some(rot));
        match Install(s1, key, start)
        case None => (s1, Error, None)
        case Some(s2) => (s2, Nothing, None)
  }

  /** Dispatch on the type byte of a decrypted message. `behind` is what lies behind the message in
      the buffer: the program reads the type byte, and a rotation message, without regard to where
      the message ends. */
  function HandlePlain(suite: Suite, s: Session, data: Bytes, behind: Bytes, secret: PrivateKey, start: nat): (r: Effect)
    requires Sound(s)
    ensures Sound(r.0)
  {
    var all := data + behind;
    if all != [] && all[0] == MESSAGE_TYPE_ROTATION then HandleRotateMessage(suite, s, all[1..], secret, start)
    else if data == [] then (s, Malformed, None)
    else (s, Message(data[0]), Some(Data(data[1..])))
  }

  function HandleMessage(suite: Suite, s: Session, b: Bytes, behind: Bytes, m: Option<Msg>, rnd: Random,
                         secret: PrivateKey, start: nat): (r: Effect)
    requires Sound(s)
    requires s.core.Some? && !s.unencrypted && b != [] && !IsInitMessage(b) ==>
               |b| >= CryptoCore.EXTRA_LEN + TAG_LEN
    ensures Sound(r.0)
  {
    if b == [] then (s, Error, None)
    else if IsInitMessage(b) then HandleInitMessage(suite, s, m, rnd, secret)
    else if s.unencrypted then HandlePlain(suite, s, b, behind, secret, start)
    else
      match s.core
      case None => (s, Error, None)
      case Some(k) =>
        var (core, result) := CoreState.Decrypt(suite.aead(k.algorithm), k.core, CryptoCore.DecodeFrame(b));
        var s1 := s.(core := Some(k.(core := core)));
        match result
        case Err(_) => (s1, Error, None)
        case Ok(data) => HandlePlain(suite, s1, data, behind, secret, start)
  }

  function SendMessage(suite: Suite, s: Session, msgType: byte, data: Bytes): (r: Effect)
    requires Sound(s) && msgType != MESSAGE_TYPE_ROTATION
    ensures Sound(r.0)
  {
    Post(suite, s, [msgType] + data, Nothing)
  }

  /** The rotation part of a second. */
  function RotateSecond(suite: Suite, s: Session, secret: PrivateKey, start: nat): (r: Effect)
    requires Sound(s)
    ensures Sound(r.0)
  {
    match s.rotation
    case None => (s, Nothing, None)
    case Some(rot) =>
      if s.rotateCounter + 1 < ROTATE_INTERVAL then (s.(rotateCounter := s.rotateCounter + 1), Nothing, None)
      else
        var (rot', key, out) := Rotation.Cycle(suite.dh, rot, secret);
        var s1 := s.(rotation := Some(rot'), rotateCounter := 0);
        match Install(s1, key, start)
        case None => (s1, Error, None)
        case Some(s2) =>
          if out.None? then (s2, Nothing, None)
          else Post(suite, s2, [MESSAGE_TYPE_ROTATION] + RotationCodec.Encode(out.value), Reply)
  }

  function EverySecond(suite: Suite, s: Session, secret: PrivateKey, start: nat): (r: Effect)
    requires Sound(s)
    ensures Sound(r.0)
  {
    var s1 := if s.core.Some? then s.(core := Some(s.core.value.(core := CoreState.Tick(s.core.value.core)))) else s;
    match s1.init
    case None => RotateSecond(suite, s1, secret, start)
    case Some(i) =>
      var (init, o, out) := Second(i);
      if o.Failed? then (s1.(init := Some(init)), Error, None)
      else
        var s2 := s1.(init := if init.stage == Closing then None else Some(init));
        if out.Some? then (s2, Reply, Greet(out)) else RotateSecond(suite, s2, secret, start)
  }

  /** The object as the program keeps it. The handshake, the rotation and the core it owns are held
      by value; their own classes are proved to follow the functions used here. */
  class PeerCrypto {
    const suite: Suite
    var init: Option<Init>
    var rotation: Option<Rotation.State>
    var unencrypted: bool
    var core: Option<Keyed>
    var rotateCounter: nat

    function View(): Session
      reads this
    {
      Session(init, rotation, unencrypted, core, rotateCounter)
    }

    constructor (suite: Suite, init: Init)
      ensures View() == NewSession(init) && this.suite == suite
    {
      this.suite, this.init := suite, Some(init);
      rotation, unencrypted, core, rotateCounter := None, false, None, 0;
    }

    method Start(secret: PrivateKey) returns (answer: Answer, out: Option<Packet>)
      requires Sound(View())
      modifies this
      ensures (View(), answer, out) == Initialize(suite, old(View()), secret)
    {
      if init.None? || init.value.stage != StagePing {
        return Error, None;
      }
      var (i, m) := SendPing(suite, init.value, secret);
      init := Some(i);
      return Reply, Some(Greeting(m));
    }

    method Encrypt(data: Bytes) returns (bytes: Option<Bytes>)
      requires Sound(View())
      modifies this
      ensures match EncryptMessage(suite, old(View()), data)
              case None => View() == old(View()) && bytes.None?
              case Some((s, b)) => View() == s && bytes == Some(b)
    {
      if unencrypted {
        return Some(data);
      }
      if core.None? {
        return None;
      }
      var (c, frame) := CoreState.Encrypt(suite.aead(core.value.algorithm), core.value.core, data);
      core := Some(core.value.(core := c));
      return Some(CryptoCore.EncodeFrame(frame));
    }

    method OnInitMessage(m: Option<Msg>, rnd: Random, secret: PrivateKey) returns (answer: Answer, out: Option<Packet>)
      requires Sound(View())
      modifies this
      ensures (View(), answer, out) == HandleInitMessage(suite, old(View()), m, rnd, secret)
    {
      if init.None? || m.None? {
        return Error, None;
      }
      var (i, o, reply) := Handle(suite, init.value, m.value, rnd);
      init := Some(i);
      if !o.Success? {
        return if o.Continue? then Reply else Error, if o.Continue? then Greet(reply) else None;
      }
      core := i.crypto;
      init := if i.stage == Closing then None else Some(i.(crypto := None));
      if core.None? {
        unencrypted := true;
        return if o.isInitiator then InitializedWithReply(o.peerPayload) else Initialized(o.peerPayload), Greet(reply);
      }
      var (rot, first) := Rotation.Start(suite.dh, !o.isInitiator, secret);
      rotation := Some(rot);
      if o.isInitiator {
        return InitializedWithReply(o.peerPayload), Greet(reply);
      }
      var bytes := Encrypt([MESSAGE_TYPE_ROTATION] + RotationCodec.Encode(first.value));
      if bytes.None? {
        return Error, None;
      }
      return InitializedWithReply(o.peerPayload), Some(Data(bytes.value));
    }

    method InstallKey(key: Option<Rotation.RotatedKey>, start: nat) returns (ok: bool)
      requires Sound(View())
      modifies this
      ensures ok == Install(old(View()), key, start).Some?
      ensures View() == if ok then Install(old(View()), key, start).value else old(View())
    {
      if key.None? {
        return true;
      }
      if core.None? {
        return false;
      }
      var k, x := core.value, key.value;
      core := Some(k.(core := CoreState.RotateKey(k.core, MasterKey(k.algorithm, x.key), x.id, x.useForSending, start)));
      return true;
    }

    method OnPlain(data: Bytes, behind: Bytes, secret: PrivateKey, start: nat)
      returns (answer: Answer, out: Option<Packet>)
      requires Sound(View())
      modifies this
      ensures (View(), answer, out) == HandlePlain(suite, old(View()), data, behind, secret, start)
    {
      var all := data + behind;
      if all == [] || all[0] != MESSAGE_TYPE_ROTATION {
        return if data == [] then Malformed else Message(data[0]), if data == [] then None else Some(Data(data[1..]));
      }
      if unencrypted {
        return Nothing, None;
      }
      var m := RotationCodec.Decode(all[1..]);
      if rotation.None? || m.None? {
        return Error, None;
      }
      var (rot, key) := Rotation.Process(suite.dh, rotation.value, m.value, secret);
      rotation := Some(rot);
      var ok := InstallKey(key, start);
      return if ok then Nothing else Error, None;
    }

    method OnMessage(b: Bytes, behind: Bytes, m: Option<Msg>, rnd: Random, secret: PrivateKey, start: nat)
      returns (answer: Answer, out: Option<Packet>)
      requires Sound(View())
      requires core.Some? && !unencrypted && b != [] && !IsInitMessage(b) ==> |b| >= CryptoCore.EXTRA_LEN + TAG_LEN
      modifies this
      ensures (View(), answer, out) == HandleMessage(suite, old(View()), b, behind, m, rnd, secret, start)
    {
      if b == [] {
        return Error, None;
      }
      if IsInitMessage(b) {
        answer, out := OnInitMessage(m, rnd, secret);
        return;
      }
      var data := b;
      if !unencrypted {
        if core.None? {
          return Error, None;
        }
        var k := core.value;
        var (c, result) := CoreState.Decrypt(suite.aead(k.algorithm), k.core, CryptoCore.DecodeFrame(b));
        core := Some(k.(core := c));
        if result.Err? {
          return Error, None;
        }
        data := result.value;
      }
      answer, out := OnPlain(data, behind, secret, start);
    }

    method Send(msgType: byte, data: Bytes) returns (answer: Answer, out: Option<Packet>)
      requires Sound(View()) && msgType != MESSAGE_TYPE_ROTATION
      modifies this
      ensures (View(), answer, out) == SendMessage(suite, old(View()), msgType, data)
    {
      var bytes := Encrypt([msgType] + data);
      if bytes.None? {
        return Error, None;
      }
      return Nothing, Some(Data(bytes.value));
    }

    method OnSecond(secret: PrivateKey, start: nat) returns (answer: Answer, out: Option<Packet>)
      requires Sound(View())
      modifies this
      ensures (View(), answer, out) == EverySecond(suite, old(View()), secret, start)
    {
      if core.Some? {
        core := Some(core.value.(core := CoreState.Tick(core.value.core)));
      }
      if init.Some? {
        var (i, o, reply) := Second(init.value);
        init := Some(i);
        if o.Failed? {
          return Error, None;
        }
        if i.stage == Closing {
          init := None;
        }
        if reply.Some? {
          return Reply, Greet(reply);
        }
      }
      answer, out := OnRotation(secret, start);
    }

    method OnRotation(secret: PrivateKey, start: nat) returns (answer: Answer, out: Option<Packet>)
      requires Sound(View())
      modifies this
      ensures (View(), answer, out) == RotateSecond(suite, old(View()), secret, start)
    {
      if rotation.None? {
        return Nothing, None;
      }
      rotateCounter := rotateCounter + 1;
      if rotateCounter < ROTATE_INTERVAL {
        return Nothing, None;
      }
      rotateCounter := 0;
      var (rot, key, m) := Rotation.Cycle(suite.dh, rotation.value, secret);
      rotation := Some(rot);
      var ok := InstallKey(key, start);
      if !ok {
        return Error, None;
      }
      if m.None? {
        return Nothing, None;
      }
      var bytes := Encrypt([MESSAGE_TYPE_ROTATION] + RotationCodec.Encode(m.value));
      if bytes.None? {
        return Error, None;
      }
      return Reply, Some(Data(bytes.value));
    }
  }

  // ---- Safety ----------------------------------------------------------------------------------

  predicate Established(s: Session) {
    s.core.Some? || s.unencrypted
  }

  /** A session is encrypted or unencrypted, never both; it rotates exactly if it is encrypted; and
      once established its handshake can no longer succeed or time out. */
  ghost predicate Safe(s: Session) {
    && Sound(s)
    && !(s.core.Some? && s.unencrypted)
    && (s.rotation.Some? <==> s.core.Some?)
    && (Established(s) && s.init.Some? ==> s.init.value.stage == WaitingToClose || s.init.value.stage == Closing)
    && s.rotateCounter < ROTATE_INTERVAL
  }

  /** One call on a session, with the randomness it may use. */
  datatype Call =
    | CallInitialize(secret: PrivateKey)
    | CallMessage(bytes: Bytes, behind: Bytes, m: Option<Msg>, rnd: Random, secret: PrivateKey, start: nat)
    | CallSend(msgType: byte, data: Bytes)
    | CallSecond(secret: PrivateKey, start: nat)

  ghost predicate Allowed(s: Session, c: Call) {
    match c
    case CallMessage(b, _, _, _, _, _) =>
      s.core.Some? && !s.unencrypted && b != [] && !IsInitMessage(b) ==> |b| >= CryptoCore.EXTRA_LEN + TAG_LEN
    case CallSend(t, _) => t != MESSAGE_TYPE_ROTATION
    case _ => true
  }

  function Do(suite: Suite, s: Session, c: Call): (r: Effect)
    requires Sound(s) && Allowed(s, c)
    ensures Sound(r.0)
  {
    match c
    case CallInitialize(secret) => Initialize(suite, s, secret)
    case CallMessage(b, behind, m, rnd, secret, start) => HandleMessage(suite, s, b, behind, m, rnd, secret, start)
    case CallSend(t, data) => SendMessage(suite, s, t, data)
    case CallSecond(secret, start) => EverySecond(suite, s, secret, start)
  }

  /** Established sessions stay established the way they are. */
  ghost predicate Stays(s: Session, s': Session) {
    && (s.core.Some? ==> s'.core.Some? && s'.core.value.algorithm == s.core.value.algorithm)
    && (s.unencrypted ==> s'.unencrypted)
  }

  lemma InitMessageSafe(suite: Suite, s: Session, m: Option<Msg>, rnd: Random, secret: PrivateKey)
    requires Safe(s)
    ensures var s' := HandleInitMessage(suite, s, m, rnd, secret).0; Safe(s') && Stays(s, s')
  {
  }

  lemma PlainSafe(suite: Suite, s: Session, data: Bytes, behind: Bytes, secret: PrivateKey, start: nat)
    requires Safe(s)
    ensures var s' := HandlePlain(suite, s, data, behind, secret, start).0; Safe(s') && Stays(s, s')
  {
  }

  lemma RotateSafe(suite: Suite, s: Session, secret: PrivateKey, start: nat)
    requires Safe(s)
    ensures var (s', answer, _) := RotateSecond(suite, s, secret, start); Safe(s') && Stays(s, s') && !answer.Error?
  {
  }

  lemma SecondSafe(suite: Suite, s: Session, secret: PrivateKey, start: nat)
    requires Safe(s)
    ensures var (s', answer, _) := EverySecond(suite, s, secret, start);
            Safe(s') && Stays(s, s') && (Established(s) ==> !answer.Error?)
  {
    var s1 := if s.core.Some? then s.(core := Some(s.core.value.(core := CoreState.Tick(s.core.value.core)))) else s;
    if s1.init.Some? {
      var (init, o, out) := Second(s1.init.value);
      RotateSafe(suite, s1.(init := if init.stage == Closing then None else Some(init)), secret, start);
    } else {
      RotateSafe(suite, s1, secret, start);
    }
  }

  lemma DoSafe(suite: Suite, s: Session, c: Call)
    requires Safe(s) && Allowed(s, c)
    ensures var (s', answer, _) := Do(suite, s, c);
            && Safe(s') && Stays(s, s')
            && (Established(s) && c.CallSecond? ==> !answer.Error?)
            && (Established(s) && c.CallSend? ==> !answer.Error?)
  {
    match c
    case CallInitialize(secret) =>
    case CallMessage(b, behind, m, rnd, secret, start) =>
      InitMessageSafe(suite, s, m, rnd, secret);
      if !s.unencrypted && s.core.Some? && b != [] && !IsInitMessage(b) {
        var k := s.core.value;
        var (core, result) := CoreState.Decrypt(suite.aead(k.algorithm), k.core, CryptoCore.DecodeFrame(b));
        if result.Ok? {
          PlainSafe(suite, s.(core := Some(k.(core := core))), result.value, behind, secret, start);
        }
      } else {
        PlainSafe(suite, s, b, behind, secret, start);
      }
    case CallSend(_, _) =>
    case CallSecond(secret, start) => SecondSafe(suite, s, secret, start);
  }

  /** Sequences of calls, each allowed when it is made. */
  ghost predicate Calls(suite: Suite, s: Session, calls: seq<Call>)
    requires Sound(s)
    decreases |calls|
  {
    calls == [] || (Allowed(s, calls[0]) && Calls(suite, Do(suite, s, calls[0]).0, calls[1..]))
  }

  function Final(suite: Suite, s: Session, calls: seq<Call>): (r: Session)
    requires Sound(s) && Calls(suite, s, calls)
    ensures Sound(r)
    decreases |calls|
  {
    if calls == [] then s else Final(suite, Do(suite, s, calls[0]).0, calls[1..])
  }

  /** Over every sequence of calls a safe session stays safe, an encrypted one never falls back to
      the clear and keeps its algorithm, and an unencrypted one stays so; from then on neither a
      second nor sending a message ever reports an error. */
  lemma {:induction false} SessionSafety(suite: Suite, s: Session, calls: seq<Call>)
    requires Safe(s) && Calls(suite, s, calls)
    ensures Safe(Final(suite, s, calls)) && Stays(s, Final(suite, s, calls))
    ensures Established(s) ==>
              forall c | Allowed(Final(suite, s, calls), c) && (c.CallSecond? || c.CallSend?) ::
                !Do(suite, Final(suite, s, calls), c).1.Error?
    decreases |calls|
  {
    if calls == [] {
      forall c | Allowed(s, c) && (c.CallSecond? || c.CallSend?)
        ensures Established(s) ==> !Do(suite, s, c).1.Error?
      {
        DoSafe(suite, s, c);
      }
    } else {
      DoSafe(suite, s, calls[0]);
      SessionSafety(suite, Do(suite, s, calls[0]).0, calls[1..]);
    }
  }

  /** A new session is safe. */
  lemma NewSafe(init: Init)
    requires init.Valid()
    ensures Safe(NewSession(init)) && !Established(NewSession(init))
  {
  }

  /** What an encrypted session sends for data and rotation is never taken for a handshake message:
      its first byte is the number of a key slot. */
  lemma NeverMistaken(suite: Suite, s: Session, c: Call)
    requires Safe(s) && Allowed(s, c) && s.core.Some?
    requires !c.CallMessage?
    ensures var out := Do(suite, s, c).2;
            out.Some? && out.value.Data? ==> !IsInitMessage(out.value.bytes) && out.value.bytes[0] < 4
  {
  }

  /** The responder's first rotation message, too. */
  lemma FirstNeverMistaken(suite: Suite, s: Session, m: Option<Msg>, rnd: Random, secret: PrivateKey)
    requires Safe(s)
    ensures var out := HandleInitMessage(suite, s, m, rnd, secret).2;
            out.Some? && out.value.Data? ==> !IsInitMessage(out.value.bytes) && out.value.bytes[0] < 4
  {
  }
}
