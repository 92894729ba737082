/** The three-way handshake of one endpoint (`InitState`): ping, pong, peng.

Messages are the parsed, signature-checked ones; a message that does not parse or verify changes
nothing and is not modelled. Salted node id hashes are compared as numbers. The second test for
a message of the own node never holds; it is in `NodeIdentity`. */
module Handshake {
  import opened Primitives
  import opened Negotiation
  import CoreState

  const MAX_FAILED_RETRIES := 120
  const CLOSE_TIME := 60

  datatype Stage = StagePing | StagePong | StagePeng | WaitingToClose | Closing

  /** A payload as sent: in the clear, or as a frame of the negotiated core. */
  datatype Box = Clear(data: Bytes) | Sealed(frame: CoreState.Frame)

  datatype Msg =
    | Ping(hash: nat, pub: PublicKey, algorithms: Algorithms)
    | Pong(hash: nat, pub: PublicKey, algorithms: Algorithms, box: Box)
    | Peng(hash: nat, box: Box)
  {
    function Stage(): Stage {
      if Ping? then StagePing else if Pong? then StagePong else StagePeng
    }
  }

  /** The core of a connection together with the algorithm its keys are for. */
  datatype Keyed = Keyed(algorithm: Algorithm, core: CoreState.Core)

  /** The randomness one message reception may use. */
  datatype Random = Random(secret: PrivateKey, dummy: Key, starts: CoreState.Starts)

  datatype Fatal = ConnectedToSelf | InvalidFirstStage | NoCommonAlgorithm | PayloadNotDecrypted | Timeout

  /** `Crash` stands for the one unwrap of the program that its types do not justify. */
  datatype Outcome =
    | Continue
    | Success(peerPayload: Bytes, isInitiator: bool)
    | Failed(error: Fatal)
    | Crash

  datatype Init = Init(
    hash: nat,
    payload: Bytes,
    algorithms: Algorithms,
    secret: Option<PrivateKey>,
    stage: Stage,
    closeTime: nat,
    last: Option<Msg>,
    crypto: Option<Keyed>,
    failedRetries: nat)
  {
    ghost predicate Valid() {
      crypto.Some? ==> crypto.value.core.Valid()
    }
  }

  datatype Suite = Suite(dh: Dh, aead: Algorithm -> Aead) {
    /** The primitives are ideal, and a frame of one algorithm never opens under another. */
    ghost predicate Lawful() {
      && dh.Lawful()
      && (forall a: Algorithm :: aead(a).Lawful())
      && (forall a: Algorithm, b: Algorithm, k: Key, n: nat, k': Key, n': nat, d: Bytes ::
            a != b ==> aead(a).open(k, n, aead(b).seal(k', n', d)).None?)
    }
  }

  function NewInit(hash: nat, payload: Bytes, algorithms: Algorithms): Init {
    Init(hash, payload, algorithms, None, StagePing, CLOSE_TIME, None, None, 0)
  }

  function KeyLength(a: Algorithm): nat {
    if a.Aes128? then 16 else 32
  }

  /** The key of an algorithm is the leading part of the agreed secret. */
  function MasterKey(a: Algorithm, secret: Key): Key {
    if KeyLength(a) <= |secret| then secret[..KeyLength(a)] else secret
  }

  function MakeCore(suite: Suite, choice: Choice, mine: PrivateKey, theirs: PublicKey, half: bool, rnd: Random)
    : (r: Option<Keyed>)
    ensures r.Some? ==> r.value.core.Valid()
  {
    match choice
    case Use(a) =>
      Some(Keyed(a, CoreState.NewCore(MasterKey(a, suite.dh.agree(mine, theirs)), half, rnd.dummy, rnd.starts)))
    case _ => None
  }

  /** The own payload, encrypted if there is a core, and the core afterwards. */
  function SealPayload(suite: Suite, crypto: Option<Keyed>, payload: Bytes): (r: (Option<Keyed>, Box))
    requires crypto.Some? ==> crypto.value.core.Valid()
    ensures r.0.Some? ==> r.0.value.core.Valid()
  {
    match crypto
    case None => (None, Clear(payload))
    case Some(k) =>
      var (core, frame) := CoreState.Encrypt(suite.aead(k.algorithm), k.core, payload);
      (Some(k.(core := core)), Sealed(frame))
  }

  function OpenPayload(suite: Suite, crypto: Option<Keyed>, box: Box): (r: (Option<Keyed>, Option<Bytes>))
    requires crypto.Some? ==> crypto.value.core.Valid()
    ensures r.0.Some? ==> r.0.value.core.Valid()
  {
    match (crypto, box)
    case (None, Clear(data)) => (None, Some(data))
    case (Some(k), Sealed(frame)) =>
      var (core, result) := CoreState.Decrypt(suite.aead(k.algorithm), k.core, frame);
      (Some(k.(core := core)), if result.Ok? then Some(result.value) else None)
    case (_, _) => (crypto, None)
  }

  function SendPing(suite: Suite, s: Init, secret: PrivateKey): (r: (Init, Msg)) {
    var m := Ping(s.hash, suite.dh.pub(secret), s.algorithms);
    (s.(secret := Some(secret), last := Some(m), stage := StagePong), m)
  }

  function AcceptPing(suite: Suite, s: Init, m: Msg, rnd: Random): (r: (Init, Outcome, Option<Msg>))
    requires s.Valid() && m.Ping?
    ensures r.0.Valid()
  {
    var choice := Select(s.algorithms, m.algorithms);
    if choice.NoCommon? then (s, Failed(NoCommonAlgorithm), None)
    else
      var made := MakeCore(suite, choice, rnd.secret, m.pub, s.hash > m.hash, rnd);
      var (crypto, box) := SealPayload(suite, if made.Some? then made else s.crypto, s.payload);
      var reply := Pong(s.hash, suite.dh.pub(rnd.secret), s.algorithms, box);
      (s.(crypto := crypto, last := Some(reply), stage := StagePeng), Continue, Some(reply))
  }

  function AcceptPong(suite: Suite, s: Init, m: Msg, rnd: Random): (r: (Init, Outcome, Option<Msg>))
    requires s.Valid() && m.Pong?
    ensures r.0.Valid()
  {
    if s.secret.None? then (s, Crash, None)
    else
      var s1 := s.(secret := None);
      var choice := Select(s.algorithms, m.algorithms);
      if choice.NoCommon? then (s1, Failed(NoCommonAlgorithm), None)
      else
        var made := MakeCore(suite, choice, s.secret.value, m.pub, s.hash > m.hash, rnd);
        var (opening, data) := OpenPayload(suite, if made.Some? then made else s.crypto, m.box);
        if data.None? then (s1.(crypto := opening), Failed(PayloadNotDecrypted), None)
        else
          var (crypto, box) := SealPayload(suite, opening, s.payload);
          var reply := Peng(s.hash, box);
          (s1.(crypto := crypto, last := Some(reply), stage := WaitingToClose, closeTime := CLOSE_TIME),
           Success(data.value, true), Some(reply))
  }

  function AcceptPeng(suite: Suite, s: Init, m: Msg): (r: (Init, Outcome, Option<Msg>))
    requires s.Valid() && m.Peng?
    ensures r.0.Valid()
  {
    var (crypto, data) := OpenPayload(suite, s.crypto, m.box);
    if data.None? then (s.(crypto := crypto), Failed(PayloadNotDecrypted), None)
    else (s.(crypto := crypto, stage := Closing), Success(data.value, false), None)
  }

  /** A message of the expected stage. */
  function Accept(suite: Suite, s: Init, m: Msg, rnd: Random): (r: (Init, Outcome, Option<Msg>))
    requires s.Valid()
    ensures r.0.Valid()
  {
    var s1 := s.(failedRetries := 0);
    match m
    case Ping(_, _, _) => AcceptPing(suite, s1, m, rnd)
    case Pong(_, _, _, _) => AcceptPong(suite, s1, m, rnd)
    case Peng(_, _) => AcceptPeng(suite, s1, m)
  }

  /** Reception of a message: new state, outcome and reply. */
  function Handle(suite: Suite, s: Init, m: Msg, rnd: Random): (r: (Init, Outcome, Option<Msg>))
    requires s.Valid()
    ensures r.0.Valid()
  {
    if m.hash == s.hash then (s, Failed(ConnectedToSelf), None)
    else if m.Stage() == s.stage then Accept(suite, s, m, rnd)
    else if s.stage == StagePong && m.Ping? then
      if m.hash > s.hash then Accept(suite, s.(stage := StagePing, last := None, secret := None), m, rnd)
      else (s, Continue, None)
    else if s.stage == Closing then (s, Continue, None)
    else if s.last.Some? then (s, Continue, s.last)
    else (s, Failed(InvalidFirstStage), None)
  }

  /** One second: retransmission, timeout or the countdown to closing. */
  function Second(s: Init): (r: (Init, Outcome, Option<Msg>))
    requires s.Valid()
    ensures r.0.Valid()
  {
    if s.stage == WaitingToClose then
      (if s.closeTime == 0 then s.(stage := Closing) else s.(closeTime := s.closeTime - 1), Continue, None)
    else if s.stage == Closing then (s, Continue, None)
    else if s.failedRetries < MAX_FAILED_RETRIES then
      (s.(failedRetries := s.failedRetries + 1), Continue, s.last)
    else (s.(stage := Closing), Failed(Timeout), None)
  }

  /** The endpoint as the program keeps it: fields updated and taken in place. */
  class InitState {
    const hash: nat
    const payload: Bytes
    const algorithms: Algorithms
    var secret: Option<PrivateKey>
    var stage: Stage
    var closeTime: nat
    var last: Option<Msg>
    var crypto: Option<Keyed>
    var failedRetries: nat

    function View(): Init
      reads this
    {
      Init(hash, payload, algorithms, secret, stage, closeTime, last, crypto, failedRetries)
    }

    constructor (hash: nat, payload: Bytes, algorithms: Algorithms)
      ensures View() == NewInit(hash, payload, algorithms)
    {
      this.hash, this.payload, this.algorithms := hash, payload, algorithms;
      secret, stage, closeTime, last, crypto, failedRetries := None, StagePing, CLOSE_TIME, None, None, 0;
    }

    method SendFirst(suite: Suite, newSecret: PrivateKey) returns (out: Msg)
      modifies this
      ensures (View(), out) == SendPing(suite, old(View()), newSecret)
    {
      secret := Some(newSecret);
      out := Ping(hash, suite.dh.pub(newSecret), algorithms);
      last := Some(out);
      stage := StagePong;
    }

    method EverySecond() returns (outcome: Outcome, out: Option<Msg>)
      requires View().Valid()
      modifies this
      ensures (View(), outcome, out) == Second(old(View()))
    {
      outcome, out := Continue, None;
      if stage == WaitingToClose {
        if closeTime == 0 {
          stage := Closing;
        } else {
          closeTime := closeTime - 1;
        }
      } else if stage != Closing {
        if failedRetries < MAX_FAILED_RETRIES {
          failedRetries := failedRetries + 1;
          out := last;
        } else {
          stage := Closing;
          outcome := Failed(Timeout);
        }
      }
    }

    method HandleInit(suite: Suite, m: Msg, rnd: Random) returns (outcome: Outcome, out: Option<Msg>)
      requires View().Valid()
      modifies this
      ensures (View(), outcome, out) == Handle(suite, old(View()), m, rnd)
    {
      if m.hash == hash {
        return Failed(ConnectedToSelf), None;
      }
      if m.Stage() != stage {
        if stage == StagePong && m.Ping? {
          if m.hash > hash {
            stage := StagePing;
            last := None;
            secret := None;
          } else {
            return Continue, None;
          }
        } else if stage == Closing {
          return Continue, None;
        } else if last.Some? {
          return Continue, last;
        } else {
          return Failed(InvalidFirstStage), None;
        }
      }
      failedRetries := 0;
      match m
      case Ping(_, _, _) => outcome, out := TakePing(suite, m, rnd);
      case Pong(_, _, _, _) => outcome, out := TakePong(suite, m, rnd);
      case Peng(_, _) => outcome, out := TakePeng(suite, m);
    }

    method TakePing(suite: Suite, m: Msg, rnd: Random) returns (outcome: Outcome, out: Option<Msg>)
      requires View().Valid() && m.Ping?
      modifies this
      ensures (View(), outcome, out) == AcceptPing(suite, old(View()), m, rnd)
    {
      var choice := Select(algorithms, m.algorithms);
      if choice.NoCommon? {
        return Failed(NoCommonAlgorithm), None;
      }
      if choice.Use? {
        crypto := MakeCore(suite, choice, rnd.secret, m.pub, hash > m.hash, rnd);
      }
      var (sealing, box) := SealPayload(suite, crypto, payload);
      crypto := sealing;
      last := Some(Pong(hash, suite.dh.pub(rnd.secret), algorithms, box));
      stage := StagePeng;
      return Continue, last;
    }

    method TakePong(suite: Suite, m: Msg, rnd: Random) returns (outcome: Outcome, out: Option<Msg>)
      requires View().Valid() && m.Pong?
      modifies this
      ensures (View(), outcome, out) == AcceptPong(suite, old(View()), m, rnd)
    {
      if secret.None? {
        return Crash, None;
      }
      var mine := secret.value;
      secret := None;
      var choice := Select(algorithms, m.algorithms);
      if choice.NoCommon? {
        return Failed(NoCommonAlgorithm), None;
      }
      if choice.Use? {
        crypto := MakeCore(suite, choice, mine, m.pub, hash > m.hash, rnd);
      }
      var (opening, data) := OpenPayload(suite, crypto, m.box);
      crypto := opening;
      if data.None? {
        return Failed(PayloadNotDecrypted), None;
      }
      var (sealing, box) := SealPayload(suite, crypto, payload);
      crypto := sealing;
      last := Some(Peng(hash, box));
      stage := WaitingToClose;
      closeTime := CLOSE_TIME;
      return Success(data.value, true), last;
    }

    method TakePeng(suite: Suite, m: Msg) returns (outcome: Outcome, out: Option<Msg>)
      requires View().Valid() && m.Peng?
      modifies this
      ensures (View(), outcome, out) == AcceptPeng(suite, old(View()), m)
    {
      var (opening, data) := OpenPayload(suite, crypto, m.box);
      crypto := opening;
      if data.None? {
        return Failed(PayloadNotDecrypted), None;
      }
      stage := Closing;
      return Success(data.value, false), None;
    }
  }

  // ---- One endpoint on its own -----------------------------------------------------------------

  /** What may happen to one endpoint: a message arrives or a second passes. */
  datatype Event = Arrival(m: Msg, rnd: Random) | Tick | Open(secret: PrivateKey)

  /** One event; the ping is sent only while nothing has happened yet. */
  function EventStep(suite: Suite, s: Init, e: Event): (r: (Init, Outcome))
    requires s.Valid()
    ensures r.0.Valid()
  {
    match e
    case Arrival(m, rnd) => var (s', o, _) := Handle(suite, s, m, rnd); (s', o)
    case Tick => var (s', o, _) := Second(s); (s', o)
    case Open(secret) => (if s.stage == StagePing then SendPing(suite, s, secret).0 else s, Continue)
  }

  function After(suite: Suite, s: Init, events: seq<Event>): (r: Init)
    requires s.Valid()
    ensures r.Valid()
    decreases |events|
  {
    if events == [] then s
    else
      var n := |events| - 1;
      EventStep(suite, After(suite, s, events[..n]), events[n]).0
  }

  function OutcomeOf(suite: Suite, s: Init, events: seq<Event>, i: nat): Outcome
    requires s.Valid() && i < |events|
  {
    EventStep(suite, After(suite, s, events[..i]), events[i]).1
  }

  // ---- Success happens once --------------------------------------------------------------------

  ghost predicate Finished(s: Init) {
    s.stage == WaitingToClose || s.stage == Closing
  }

  lemma SuccessFinishes(suite: Suite, s: Init, e: Event)
    requires s.Valid()
    ensures EventStep(suite, s, e).1.Success? ==> !Finished(s) && Finished(EventStep(suite, s, e).0)
    ensures Finished(s) ==> Finished(EventStep(suite, s, e).0)
  {
  }

  lemma {:induction false} FinishedStays(suite: Suite, s: Init, events: seq<Event>, i: nat)
    requires s.Valid() && i <= |events|
    requires Finished(After(suite, s, events[..i]))
    ensures Finished(After(suite, s, events))
    decreases |events|
  {
    if i == |events| {
      assert events[..i] == events;
    } else {
      var n := |events| - 1;
      assert events[..n][..i] == events[..i];
      FinishedStays(suite, s, events[..n], i);
      SuccessFinishes(suite, After(suite, s, events[..n]), events[n]);
    }
  }

  /** An endpoint reports success at most once, whatever happens to it. */
  lemma SuccessOnce(suite: Suite, s: Init, events: seq<Event>, i: nat, j: nat)
    requires s.Valid() && i < j < |events|
    requires OutcomeOf(suite, s, events, i).Success?
    ensures !OutcomeOf(suite, s, events, j).Success?
  {
    assert events[..i + 1][..i] == events[..i];
    SuccessFinishes(suite, After(suite, s, events[..i]), events[i]);
    assert After(suite, s, events[..i + 1]) == EventStep(suite, After(suite, s, events[..i]), events[i]).0;
    assert events[..j][..i + 1] == events[..i + 1];
    FinishedStays(suite, s, events[..j], i + 1);
    SuccessFinishes(suite, After(suite, s, events[..j]), events[j]);
  }

  // ---- Termination -----------------------------------------------------------------------------

  /** No message was fatal. The caller discards an endpoint that meets a fatal message. */
  ghost predicate Unharmed(suite: Suite, s: Init, events: seq<Event>)
    requires s.Valid()
    decreases |events|
  {
    events == [] ||
      var n := |events| - 1;
      var o := EventStep(suite, After(suite, s, events[..n]), events[n]).1;
      Unharmed(suite, s, events[..n]) && (events[n].Arrival? ==> !o.Failed? && !o.Crash?)
  }

  /** The seconds an endpoint can still spend before it closes. */
  function Patience(s: Init): int {
    match s.stage
    case StagePing => 2 * MAX_FAILED_RETRIES + 1 - s.failedRetries
    case StagePong => 2 * MAX_FAILED_RETRIES + 1 - s.failedRetries
    case StagePeng => MAX_FAILED_RETRIES + 1 - s.failedRetries
    case WaitingToClose => s.closeTime + 1
    case Closing => 0
  }

  ghost predicate Bounded(s: Init) {
    s.Valid() && s.failedRetries <= MAX_FAILED_RETRIES && s.closeTime <= CLOSE_TIME
  }

  /** No message buys time, and every second costs some. */
  lemma PatienceShrinks(suite: Suite, s: Init, e: Event)
    requires Bounded(s)
    ensures var (s', o) := EventStep(suite, s, e);
            (e.Arrival? ==> !o.Failed? && !o.Crash?) ==>
              && Bounded(s')
              && (s'.stage == Closing || 1 <= Patience(s') <= Patience(s) - if e.Tick? then 1 else 0)
  {
  }

  function Ticks(events: seq<Event>): nat
    decreases |events|
  {
    if events == [] then 0
    else Ticks(events[..|events| - 1]) + if events[|events| - 1].Tick? then 1 else 0
  }

  lemma {:induction false} PatienceAfter(suite: Suite, s: Init, events: seq<Event>)
    requires Bounded(s) && Unharmed(suite, s, events)
    ensures var r := After(suite, s, events);
            Bounded(r) && (r.stage == Closing || Patience(r) <= Patience(s) - Ticks(events))
    decreases |events|
  {
    if events != [] {
      var n := |events| - 1;
      PatienceAfter(suite, s, events[..n]);
      var r := After(suite, s, events[..n]);
      PatienceShrinks(suite, r, events[n]);
    }
  }

  /** Whatever messages arrive, an endpoint that meets no fatal message is closing after 241
      seconds, and after 61 once it only waits for its peng to get through. */
  lemma HandshakeTerminates(suite: Suite, s: Init, events: seq<Event>)
    requires Bounded(s) && Unharmed(suite, s, events)
    requires Ticks(events) >= if s.stage == WaitingToClose then 61 else 241
    ensures After(suite, s, events).stage == Closing
  {
    PatienceAfter(suite, s, events);
  }

  /** The seconds an endpoint can spend when nothing arrives. */
  function Silence(s: Init): int {
    match s.stage
    case WaitingToClose => s.closeTime + 1
    case Closing => 0
    case _ => MAX_FAILED_RETRIES + 1 - s.failedRetries
  }

  lemma {:induction false} SilenceAfter(suite: Suite, s: Init, events: seq<Event>)
    requires Bounded(s) && forall e | e in events :: !e.Arrival?
    ensures var r := After(suite, s, events);
            Bounded(r) && (r.stage == Closing || Silence(r) <= Silence(s) - Ticks(events))
    decreases |events|
  {
    if events != [] {
      SilenceAfter(suite, s, events[..|events| - 1]);
    }
  }

  /** With no messages at all an endpoint closes within 121 seconds. */
  lemma SilentTimeout(suite: Suite, s: Init, events: seq<Event>)
    requires Bounded(s) && (forall e | e in events :: !e.Arrival?) && Ticks(events) >= 121
    ensures After(suite, s, events).stage == Closing
  {
    SilenceAfter(suite, s, events);
  }
}
