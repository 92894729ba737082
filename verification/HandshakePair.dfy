/** Two endpoints shaking hands over a network that drops, duplicates, delays, reorders and reflects
messages. The network is the set of every handshake message sent; signatures are ideal, so nothing
else is ever accepted. */
module HandshakePair {
  import opened Primitives
  import opened Negotiation
  import opened Handshake
  import CoreState

  /** What an endpoint that succeeded hands to its session. */
  datatype Done = Done(isInitiator: bool, peerPayload: Bytes, crypto: Option<Keyed>)

  /** An endpoint with its history: whether the caller still keeps it, its result, and the ping,
      pong and peng it has made, with the private keys behind them. */
  datatype Node = Node(
    init: Init,
    alive: bool,
    done: Option<Done>,
    ping: Option<(PrivateKey, Msg)>,
    pong: Option<(PrivateKey, Msg)>,
    peng: Option<Msg>)

  datatype System = System(a: Node, b: Node, net: set<Msg>)

  datatype Action =
    | Initiate(byA: bool, secret: PrivateKey)
    | Arrive(byA: bool, m: Msg, rnd: Random)
    | Wait(byA: bool)

  // ---- Steps -----------------------------------------------------------------------------------

  /** The caller gives up the endpoint: after any fatal error, unless the endpoint has handed over its
      result before and belongs to an established peer. */
  predicate Discarded(n: Node, o: Outcome) {
    o.Crash? || (o.Failed? && n.done.None?)
  }

  function Reply(out: Option<Msg>): set<Msg> {
    if out.Some? then {out.value} else {}
  }

  function Initiates(suite: Suite, n: Node, secret: PrivateKey): (Node, set<Msg>) {
    if n.init.stage == StagePing then
      var (init, m) := SendPing(suite, n.init, secret);
      (n.(init := init, ping := Some((secret, m))), {m})
    else (n, {})
  }

  function Arrives(suite: Suite, n: Node, m: Msg, rnd: Random): (Node, set<Msg>)
    requires n.init.Valid()
  {
    var (init, o, out) := Handle(suite, n.init, m, rnd);
    var n1 := n.(alive := !Discarded(n, o), init := init);
    (if o.Success? then
       n1.(init := init.(crypto := None), done := Some(Done(o.isInitiator, o.peerPayload, init.crypto)),
           peng := if o.isInitiator then out else n.peng)
     else if init.stage == StagePeng && n.init.stage != StagePeng && out.Some? then
       n1.(pong := Some((rnd.secret, out.value)))
     else n1,
     Reply(out))
  }

  function Waits(n: Node): (Node, set<Msg>)
    requires n.init.Valid()
  {
    var (init, o, out) := Second(n.init);
    (n.(init := init, alive := !o.Failed?), Reply(out))
  }

  function NodeStep(suite: Suite, n: Node, act: Action): (r: (Node, set<Msg>))
    requires n.init.Valid()
    ensures r.0.init.Valid()
  {
    if !n.alive then (n, {})
    else
      match act
      case Initiate(_, secret) => Initiates(suite, n, secret)
      case Arrive(_, m, rnd) => Arrives(suite, n, m, rnd)
      case Wait(_) => Waits(n)
  }

  ghost predicate Ready(s: System) {
    s.a.init.Valid() && s.b.init.Valid()
  }

  ghost predicate Enabled(s: System, act: Action) {
    act.Arrive? ==> act.m in s.net
  }

  function Step(suite: Suite, s: System, act: Action): (r: System)
    requires Ready(s)
    ensures Ready(r)
  {
    var (n, out) := NodeStep(suite, if act.byA then s.a else s.b, act);
    System(if act.byA then n else s.a, if act.byA then s.b else n, s.net + out)
  }

  function NewNode(hash: nat, payload: Bytes, algorithms: Algorithms): Node {
    Node(NewInit(hash, payload, algorithms), true, None, None, None, None)
  }

  /** Two new endpoints with different hashes. */
  ghost predicate Initial(s: System) {
    && s.a == NewNode(s.a.init.hash, s.a.init.payload, s.a.init.algorithms)
    && s.b == NewNode(s.b.init.hash, s.b.init.payload, s.b.init.algorithms)
    && s.a.init.hash != s.b.init.hash
    && s.net == {}
  }

  function RunFrom(suite: Suite, s: System, acts: seq<Action>): (r: System)
    requires Ready(s)
    ensures Ready(r)
    decreases |acts|
  {
    if acts == [] then s else Step(suite, RunFrom(suite, s, acts[..|acts| - 1]), acts[|acts| - 1])
  }

  /** A run: only messages that have been sent arrive. */
  ghost predicate Possible(suite: Suite, s: System, acts: seq<Action>)
    requires Ready(s)
  {
    forall i | 0 <= i < |acts| :: Enabled(RunFrom(suite, s, acts[..i]), acts[i])
  }

  // ---- Cores and frames ------------------------------------------------------------------------

  /** A handshake core: it encrypts under slot 0, has pinned nothing and has hardly been used. */
  ghost predicate CoreFor(c: CoreState.Core, key: Key, half: bool) {
    && c.Valid() && c.current == 0 && c.half == half
    && c.keys[0].key == key
    && (forall i | 0 <= i < 4 :: c.keys[i].min == 0 && c.keys[i].nextMin == 0 && (i > 0 ==> c.keys[i].seen == 0))
    && CoreState.Base(half) <= c.keys[0].send <= CoreState.Base(half) + START
  }

  ghost predicate CryptoFor(c: Option<Keyed>, choice: Choice, secret: Key, half: bool) {
    match choice
    case Unencrypted => c.None?
    case Use(a) => c.Some? && c.value.algorithm == a && CoreFor(c.value.core, MasterKey(a, secret), half)
    case NoCommon => false
  }

  ghost predicate BoxFor(suite: Suite, box: Box, choice: Choice, secret: Key, half: bool, data: Bytes) {
    match choice
    case Unencrypted => box == Clear(data)
    case Use(a) =>
      && box.Sealed? && box.frame.slot == 0 && 1 <= box.frame.wire <= START
      && box.frame.body == suite.aead(a).seal(MasterKey(a, secret), CoreState.Base(half) + box.frame.wire, data)
    case NoCommon => false
  }

  /** The core's sending nonce is the one the box was sealed with. */
  ghost predicate Spent(c: Option<Keyed>, box: Box, half: bool) {
    c.Some? ==>
      && c.value.core.Valid() && box.Sealed? && box.frame.wire >= 1
      && c.value.core.keys[0].send == CoreState.Base(half) + box.frame.wire
  }

  /** The largest nonce the core has seen. */
  function Seen(c: Option<Keyed>): nat
    requires c.Some? ==> c.value.core.Valid()
  {
    if c.Some? then c.value.core.keys[0].seen else 0
  }

  /** The core has opened nothing, or just the given box of its peer. */
  ghost predicate Heard(c: Option<Keyed>, box: Box, half: bool) {
    c.Some? ==>
      && c.value.core.Valid() && box.Sealed?
      && (Seen(c) == 0 || Seen(c) == CoreState.Base(!half) + box.frame.wire)
  }

  /** Sealing with a core that has not sealed a frame yet. */
  lemma SealFirst(suite: Suite, crypto: Option<Keyed>, choice: Choice, secret: Key, half: bool, data: Bytes)
    requires CryptoFor(crypto, choice, secret, half)
    requires crypto.Some? ==> crypto.value.core.keys[0].send < CoreState.Base(half) + START
    ensures var (crypto', box) := SealPayload(suite, crypto, data);
            && CryptoFor(crypto', choice, secret, half) && Spent(crypto', box, half)
            && BoxFor(suite, box, choice, secret, half, data) && Seen(crypto') == Seen(crypto)
  {
    if crypto.Some? {
      CoreState.EarlyNonce(crypto.value.core);
    }
  }

  lemma MakeFresh(suite: Suite, choice: Choice, mine: PrivateKey, theirs: PublicKey, half: bool, rnd: Random)
    requires !choice.NoCommon?
    ensures var crypto := MakeCore(suite, choice, mine, theirs, half, rnd);
            && CryptoFor(crypto, choice, suite.dh.agree(mine, theirs), half) && Seen(crypto) == 0
            && (crypto.Some? ==> crypto.value.core.keys[0].send < CoreState.Base(half) + START)
  {
  }

  /** The first payload a fresh core seals. */
  lemma SealFresh(suite: Suite, choice: Choice, mine: PrivateKey, theirs: PublicKey, half: bool, rnd: Random,
                  data: Bytes)
    requires !choice.NoCommon?
    ensures var (crypto, box) := SealPayload(suite, MakeCore(suite, choice, mine, theirs, half, rnd), data);
            && CryptoFor(crypto, choice, suite.dh.agree(mine, theirs), half) && Spent(crypto, box, half)
            && BoxFor(suite, box, choice, suite.dh.agree(mine, theirs), half, data) && Seen(crypto) == 0
  {
    MakeFresh(suite, choice, mine, theirs, half, rnd);
    SealFirst(suite, MakeCore(suite, choice, mine, theirs, half, rnd), choice, suite.dh.agree(mine, theirs), half, data);
  }

  /** A core opens what the core of the same key and the other half sealed. */
  lemma OpenMatching(suite: Suite, crypto: Option<Keyed>, box: Box, choice: Choice, secret: Key, half: bool, data: Bytes)
    requires suite.Lawful()
    requires CryptoFor(crypto, choice, secret, half) && BoxFor(suite, box, choice, secret, !half, data)
    ensures var (crypto', opened') := OpenPayload(suite, crypto, box);
            && opened' == Some(data)
            && CryptoFor(crypto', choice, secret, half)
            && (crypto.Some? ==> Seen(crypto') == Seen(crypto) || Seen(crypto') == CoreState.Base(!half) + box.frame.wire)
            && (crypto.Some? ==> crypto'.value.core.keys[0].send == crypto.value.core.keys[0].send)
  {
  }

  /** A core of another algorithm opens nothing. */
  lemma OpenForeign(suite: Suite, crypto: Option<Keyed>, box: Box, a: Algorithm, b: Algorithm, secret: Key, secret': Key,
                    half: bool, half': bool, data: Bytes)
    requires suite.Lawful() && a != b
    requires CryptoFor(crypto, Use(a), secret, half) && BoxFor(suite, box, Use(b), secret', half', data)
    ensures OpenPayload(suite, crypto, box).1.None?
  {
  }

  // ---- The invariant ---------------------------------------------------------------------------

  /** What `x` has sent is what its configuration and the history of `y` determine. */
  ghost predicate History(suite: Suite, x: Node, y: Node) {
    && x.init.Valid()
    && (x.ping.Some? ==> x.ping.value.1 == Ping(x.init.hash, suite.dh.pub(x.ping.value.0), x.init.algorithms))
    && (x.pong.Some? ==>
          && x.peng.None? && y.ping.Some?
          && (x.ping.Some? ==> y.init.hash > x.init.hash)
          && x.pong.value.1.Pong?
          && x.pong.value.1
             == Pong(x.init.hash, suite.dh.pub(x.pong.value.0), x.init.algorithms, x.pong.value.1.box)
          && BoxFor(suite, x.pong.value.1.box, Select(x.init.algorithms, y.init.algorithms),
                    suite.dh.agree(x.pong.value.0, suite.dh.pub(y.ping.value.0)),
                    x.init.hash > y.init.hash, x.init.payload))
    && (x.peng.Some? ==>
          && x.pong.None? && x.ping.Some? && y.pong.Some? && x.done.Some?
          && x.peng.value.Peng? && x.peng.value.hash == x.init.hash
          && Select(x.init.algorithms, y.init.algorithms) == Select(y.init.algorithms, x.init.algorithms)
          && BoxFor(suite, x.peng.value.box, Select(x.init.algorithms, y.init.algorithms),
                    suite.dh.agree(x.ping.value.0, suite.dh.pub(y.pong.value.0)),
                    x.init.hash > y.init.hash, x.init.payload))
  }

  /** The secret an endpoint has agreed on as responder, or as initiator. */
  function Agreed(suite: Suite, x: Node, y: Node, initiator: bool): Key
    requires if initiator then x.ping.Some? && y.pong.Some? else x.pong.Some? && y.ping.Some?
  {
    if initiator then suite.dh.agree(x.ping.value.0, suite.dh.pub(y.pong.value.0))
    else suite.dh.agree(x.pong.value.0, suite.dh.pub(y.ping.value.0))
  }

  /** A live endpoint is in the state its history calls for. */
  ghost predicate Current(suite: Suite, x: Node, y: Node) {
    x.alive ==>
      match x.init.stage
      case StagePing =>
        && x.ping.None? && x.pong.None? && x.peng.None? && x.done.None?
        && x.init.last.None? && x.init.crypto.None?
      case StagePong =>
        && x.ping.Some? && x.pong.None? && x.peng.None? && x.done.None?
        && x.init.secret == Some(x.ping.value.0) && x.init.last == Some(x.ping.value.1) && x.init.crypto.None?
      case StagePeng =>
        && x.pong.Some? && y.ping.Some? && x.done.None? && x.init.last == Some(x.pong.value.1)
        && CryptoFor(x.init.crypto, Select(x.init.algorithms, y.init.algorithms), Agreed(suite, x, y, false),
                     x.init.hash > y.init.hash)
        && x.pong.value.1.Pong? && Spent(x.init.crypto, x.pong.value.1.box, x.init.hash > y.init.hash)
        && Seen(x.init.crypto) == 0
      case WaitingToClose => x.peng.Some? && x.done.Some? && x.init.last == x.peng
      case Closing => x.done.Some?
  }

  /** A result was earned by a completed exchange, and an endpoint that has one is never discarded. */
  ghost predicate Earned(suite: Suite, x: Node, y: Node) {
    x.done.Some? ==>
      && x.alive && (x.init.stage == WaitingToClose || x.init.stage == Closing)
      && x.done.value.peerPayload == y.init.payload
      && (if x.done.value.isInitiator then x.peng.Some? && x.ping.Some? && y.pong.Some?
          else x.pong.Some? && y.ping.Some? && y.peng.Some?)
      && CryptoFor(x.done.value.crypto, Select(x.init.algorithms, y.init.algorithms),
                   Agreed(suite, x, y, x.done.value.isInitiator), x.init.hash > y.init.hash)
      && (if x.done.value.isInitiator then x.peng.value.Peng? else x.pong.value.1.Pong?)
      && Spent(x.done.value.crypto, if x.done.value.isInitiator then x.peng.value.box else x.pong.value.1.box,
               x.init.hash > y.init.hash)
      && (if x.done.value.isInitiator then y.pong.value.1.Pong? else y.peng.value.Peng?)
      && Heard(x.done.value.crypto, if x.done.value.isInitiator then y.pong.value.1.box else y.peng.value.box,
               x.init.hash > y.init.hash)
  }

  predicate SentBy(x: Node, m: Msg) {
    || (x.ping.Some? && m == x.ping.value.1)
    || (x.pong.Some? && m == x.pong.value.1)
    || (x.peng.Some? && m == x.peng.value)
  }

  ghost predicate Half(suite: Suite, x: Node, y: Node) {
    History(suite, x, y) && Current(suite, x, y) && Earned(suite, x, y)
  }

  ghost predicate Settings(x: Node, y: Node) {
    x.init.hash != y.init.hash
  }

  ghost predicate Both(suite: Suite, x: Node, y: Node, net: set<Msg>) {
    && Settings(x, y) && Half(suite, x, y) && Half(suite, y, x)
    && forall m :: m in net <==> SentBy(x, m) || SentBy(y, m)
  }

  /** `x'` is `x` with possibly more history. */
  ghost predicate Extends(x: Node, x': Node) {
    && x'.init.hash == x.init.hash && x'.init.payload == x.init.payload && x'.init.algorithms == x.init.algorithms
    && (x.ping.Some? ==> x'.ping == x.ping)
    && (x.pong.Some? ==> x'.pong == x.pong)
    && (x.peng.Some? ==> x'.peng == x.peng)
  }

  /** More history of the peer invalidates nothing. */
  lemma HalfExtends(suite: Suite, y: Node, x: Node, x': Node)
    requires Half(suite, y, x) && Extends(x, x')
    ensures Half(suite, y, x')
  {
  }

  /** What a step must establish for the endpoint taking it. */
  ghost predicate Kept(suite: Suite, x: Node, y: Node, r: (Node, set<Msg>)) {
    && Half(suite, r.0, y) && Extends(x, r.0)
    && (forall m | m in r.1 :: SentBy(r.0, m))
    && (forall m | SentBy(r.0, m) :: SentBy(x, m) || m in r.1)
  }

  lemma InitiateHalf(suite: Suite, x: Node, y: Node, secret: PrivateKey)
    requires Half(suite, x, y) && x.alive
    ensures var (x', out) := Initiates(suite, x, secret);
            Kept(suite, x, y, (x', out))
  {
  }

  /** Counters do not matter. */
  lemma CountersApart(suite: Suite, x: Node, y: Node, failedRetries: nat, closeTime: nat)
    requires Half(suite, x, y)
    ensures Half(suite, x.(init := x.init.(failedRetries := failedRetries, closeTime := closeTime)), y)
  {
  }

  lemma ClosingKept(suite: Suite, x: Node, y: Node, alive: bool)
    requires Half(suite, x, y) && (if alive then x.init.stage == WaitingToClose && x.alive else x.done.None?)
    ensures Half(suite, x.(alive := alive, init := x.init.(stage := Closing)), y)
  {
  }

  lemma WaitHalf(suite: Suite, x: Node, y: Node)
    requires Half(suite, x, y) && x.alive
    ensures Kept(suite, x, y, Waits(x))
  {
    var init := Second(x.init).0;
    CountersApart(suite, x, y, init.failedRetries, init.closeTime);
    if init.stage == Closing && x.init.stage != Closing {
      ClosingKept(suite, x, y, x.init.stage == WaitingToClose);
    } else if x.init.last.Some? && x.init.stage != Closing {
      LastSent(suite, x, y);
    }
  }

  /** Not of the expected stage, nor a ping that outranks the own one, or the own message. */
  predicate Unexpected(s: Init, m: Msg) {
    m.hash == s.hash || (m.Stage() != s.stage && !(m.Ping? && s.stage == StagePong && m.hash > s.hash))
  }

  /** Such a message leaves the endpoint as it is, at most with its last message repeated, or has it
      given up. */
  lemma UnexpectedIgnored(suite: Suite, x: Node, m: Msg, rnd: Random)
    requires x.init.Valid() && x.alive && Unexpected(x.init, m)
    ensures || Arrives(suite, x, m, rnd) == (x, {})
            || (x.init.last.Some? && x.init.stage != Closing && Arrives(suite, x, m, rnd) == (x, {x.init.last.value}))
            || (x.done.None? && Arrives(suite, x, m, rnd) == (x.(alive := false), {}))
  {
  }

  lemma UnexpectedKept(suite: Suite, x: Node, y: Node, m: Msg, rnd: Random)
    requires Half(suite, x, y) && x.alive && Unexpected(x.init, m)
    ensures Kept(suite, x, y, Arrives(suite, x, m, rnd))
  {
    UnexpectedIgnored(suite, x, m, rnd);
    if x.init.last.Some? && x.init.stage != Closing {
      LastSent(suite, x, y);
    }
    if x.done.None? {
      DiscardedKept(suite, x, y, x.init);
    }
  }

  lemma LastSent(suite: Suite, x: Node, y: Node)
    requires Half(suite, x, y) && x.alive && x.init.last.Some? && x.init.stage != Closing
    ensures SentBy(x, x.init.last.value)
  {
  }

  /** The answer to a ping, and the state it leaves. */
  lemma PingAnswered(suite: Suite, s: Init, m: Msg, rnd: Random)
    requires m.Ping? && s.crypto.None?
    ensures var choice := Select(s.algorithms, m.algorithms);
            var (s', o, out) := AcceptPing(suite, s, m, rnd);
            if choice.NoCommon? then s' == s && o == Failed(NoCommonAlgorithm) && out.None?
            else
              && o.Continue? && out.Some? && out.value.Pong?
              && out.value == Pong(s.hash, suite.dh.pub(rnd.secret), s.algorithms, out.value.box)
              && s' == s.(crypto := s'.crypto, last := out, stage := StagePeng)
              && CryptoFor(s'.crypto, choice, suite.dh.agree(rnd.secret, m.pub), s.hash > m.hash)
              && Spent(s'.crypto, out.value.box, s.hash > m.hash) && Seen(s'.crypto) == 0
              && BoxFor(suite, out.value.box, choice, suite.dh.agree(rnd.secret, m.pub), s.hash > m.hash, s.payload)
  {
    var choice := Select(s.algorithms, m.algorithms);
    if !choice.NoCommon? {
      SealFresh(suite, choice, rnd.secret, m.pub, s.hash > m.hash, rnd, s.payload);
    }
  }

  lemma PingKept(suite: Suite, x: Node, y: Node, m: Msg, rnd: Random)
    requires Settings(x, y) && Half(suite, x, y) && Half(suite, y, x) && x.alive
    requires y.ping.Some? && m == y.ping.value.1
    requires x.init.stage == StagePing || (x.init.stage == StagePong && m.hash > x.init.hash)
    ensures Kept(suite, x, y, Arrives(suite, x, m, rnd))
  {
    var s := x.init.(stage := StagePing, last := None, secret := if x.init.stage == StagePing then x.init.secret else None,
                     failedRetries := 0);
    var (init, o, out) := AcceptPing(suite, s, m, rnd);
    PingAnswered(suite, s, m, rnd);
    assert Handle(suite, x.init, m, rnd) == (init, o, out);
    if o.Continue? {
      assert Arrives(suite, x, m, rnd) == (x.(init := init, pong := Some((rnd.secret, out.value))), {out.value});
    }
  }

  /** The initiator opens the responder's payload exactly when both chose the same algorithm. */
  lemma PongOpens(suite: Suite, x: Node, y: Node, rnd: Random)
    requires suite.Lawful() && Settings(x, y) && History(suite, x, y) && History(suite, y, x)
    requires x.ping.Some? && y.pong.Some? && !Select(x.init.algorithms, y.init.algorithms).NoCommon?
    ensures var m := y.pong.value.1;
            var choice := Select(x.init.algorithms, y.init.algorithms);
            var half := x.init.hash > y.init.hash;
            var made := MakeCore(suite, choice, x.ping.value.0, m.pub, half, rnd);
            var (crypto, data) := OpenPayload(suite, made, m.box);
            && (data.Some? <==> choice == Select(y.init.algorithms, x.init.algorithms))
            && (data.Some? ==>
                  && data.value == y.init.payload
                  && CryptoFor(crypto, choice, Agreed(suite, x, y, true), half) && Heard(crypto, m.box, half)
                  && (crypto.Some? ==> crypto.value.core.keys[0].send < CoreState.Base(half) + START))
  {
    var m := y.pong.value.1;
    var choice := Select(x.init.algorithms, y.init.algorithms);
    var choice' := Select(y.init.algorithms, x.init.algorithms);
    var half := x.init.hash > y.init.hash;
    var made := MakeCore(suite, choice, x.ping.value.0, m.pub, half, rnd);
    MakeFresh(suite, choice, x.ping.value.0, m.pub, half, rnd);
    SelectionDefined(x.init.algorithms, y.init.algorithms);
    var secret := Agreed(suite, x, y, true);
    assert secret == Agreed(suite, y, x, false);
    if choice == choice' {
      OpenMatching(suite, made, m.box, choice, secret, half, y.init.payload);
    } else {
      OpenForeign(suite, made, m.box, choice.algorithm, choice'.algorithm, secret, secret, half, !half, y.init.payload);
    }
  }

  /** The answer to a pong, and the state it leaves. */
  lemma PongAnswered(suite: Suite, x: Node, y: Node, s: Init, rnd: Random)
    requires suite.Lawful() && Settings(x, y) && History(suite, x, y) && History(suite, y, x)
    requires x.ping.Some? && y.pong.Some? && x.done.None?
    requires s.hash == x.init.hash && s.payload == x.init.payload && s.algorithms == x.init.algorithms
    requires s.secret == Some(x.ping.value.0) && s.crypto.None?
    ensures var choice := Select(s.algorithms, y.init.algorithms);
            var half := s.hash > y.init.hash;
            var (s', o, out) := AcceptPong(suite, s, y.pong.value.1, rnd);
            if choice.NoCommon? || choice != Select(y.init.algorithms, s.algorithms) then
              && o.Failed? && Discarded(x, o) && out.None?
              && s' == s.(secret := None, crypto := s'.crypto)
            else
              && o == Success(y.init.payload, true) && out.Some? && out.value.Peng? && out.value.hash == s.hash
              && s' == s.(secret := None, crypto := s'.crypto, last := out, stage := WaitingToClose,
                          closeTime := CLOSE_TIME)
              && CryptoFor(s'.crypto, choice, Agreed(suite, x, y, true), half) && Spent(s'.crypto, out.value.box, half)
              && Heard(s'.crypto, y.pong.value.1.box, half)
              && BoxFor(suite, out.value.box, choice, Agreed(suite, x, y, true), half, s.payload)
  {
    var m := y.pong.value.1;
    var choice := Select(s.algorithms, m.algorithms);
    if !choice.NoCommon? {
      var half := s.hash > y.init.hash;
      PongOpens(suite, x, y, rnd);
      var (crypto, data) := OpenPayload(suite, MakeCore(suite, choice, x.ping.value.0, m.pub, half, rnd), m.box);
      if data.Some? {
        SealFirst(suite, crypto, choice, Agreed(suite, x, y, true), half, s.payload);
      }
    }
  }

  /** `x'` is `x` after taking the pong of `y` and making its peng. */
  ghost predicate Succeeded(suite: Suite, x: Node, x': Node, y: Node)
    requires x.ping.Some? && y.pong.Some? && y.pong.value.1.Pong?
  {
    var choice := Select(x.init.algorithms, y.init.algorithms);
    var half := x.init.hash > y.init.hash;
    var secret := Agreed(suite, x, y, true);
    && x'.done.Some? && x'.peng.Some?
    && x' == x.(done := x'.done, peng := x'.peng, init := x'.init)
    && x'.peng.value.Peng? && x'.peng.value.hash == x.init.hash
    && x'.init == x.init.(failedRetries := 0, secret := None, crypto := None, last := x'.peng,
                          stage := WaitingToClose, closeTime := CLOSE_TIME)
    && x'.done.value.isInitiator && x'.done.value.peerPayload == y.init.payload
    && CryptoFor(x'.done.value.crypto, choice, secret, half)
    && Spent(x'.done.value.crypto, x'.peng.value.box, half)
    && Heard(x'.done.value.crypto, y.pong.value.1.box, half)
    && BoxFor(suite, x'.peng.value.box, choice, secret, half, x.init.payload)
  }

  /** What an accepted pong makes of an endpoint: discarded if the two ends chose differently, else
      an initiator that has succeeded. */
  lemma PongTaken(suite: Suite, x: Node, y: Node, m: Msg, rnd: Random)
    requires suite.Lawful() && Settings(x, y) && Half(suite, x, y) && Half(suite, y, x) && x.alive
    requires y.pong.Some? && m == y.pong.value.1 && x.init.stage == StagePong
    ensures var choice := Select(x.init.algorithms, y.init.algorithms);
            var (x', out) := Arrives(suite, x, m, rnd);
            if choice.NoCommon? || choice != Select(y.init.algorithms, x.init.algorithms) then
              && !x'.alive && x' == x.(alive := false, init := x'.init) && out == {}
              && x'.init == x.init.(failedRetries := 0, secret := None, crypto := x'.init.crypto) && x'.init.Valid()
            else
              Succeeded(suite, x, x', y) && out == {x'.peng.value}
  {
    PongAnswered(suite, x, y, x.init.(failedRetries := 0), rnd);
  }

  lemma SucceededKept(suite: Suite, x: Node, x': Node, y: Node)
    requires Half(suite, x, y) && x.alive && x.init.stage == StagePong && y.pong.Some? && y.pong.value.1.Pong?
    requires Select(x.init.algorithms, y.init.algorithms) == Select(y.init.algorithms, x.init.algorithms)
    requires Succeeded(suite, x, x', y)
    ensures Kept(suite, x, y, (x', {x'.peng.value}))
  {
  }

  lemma DiscardedKept(suite: Suite, x: Node, y: Node, init: Init)
    requires Half(suite, x, y) && x.done.None? && init.Valid()
    requires init.hash == x.init.hash && init.payload == x.init.payload && init.algorithms == x.init.algorithms
    ensures Kept(suite, x, y, (x.(alive := false, init := init), {}))
  {
  }

  lemma PongKept(suite: Suite, x: Node, y: Node, m: Msg, rnd: Random)
    requires suite.Lawful() && Settings(x, y) && Half(suite, x, y) && Half(suite, y, x) && x.alive
    requires y.pong.Some? && m == y.pong.value.1 && x.init.stage == StagePong
    ensures Kept(suite, x, y, Arrives(suite, x, m, rnd))
  {
    PongTaken(suite, x, y, m, rnd);
    var x' := Arrives(suite, x, m, rnd).0;
    if x'.alive {
      SucceededKept(suite, x, x', y);
    } else {
      DiscardedKept(suite, x, y, x'.init);
    }
  }

  /** What the peng makes of a responder. */
  lemma PengTaken(suite: Suite, x: Node, y: Node, m: Msg, rnd: Random)
    requires suite.Lawful() && Settings(x, y) && Half(suite, x, y) && Half(suite, y, x) && x.alive
    requires y.peng.Some? && m == y.peng.value && x.init.stage == StagePeng
    ensures var choice := Select(x.init.algorithms, y.init.algorithms);
            var half := x.init.hash > y.init.hash;
            var (x', out) := Arrives(suite, x, m, rnd);
            && out == {} && x'.done.Some? && x' == x.(done := x'.done, init := x'.init)
            && x'.init == x.init.(failedRetries := 0, crypto := None, stage := Closing)
            && !x'.done.value.isInitiator && x'.done.value.peerPayload == y.init.payload
            && CryptoFor(x'.done.value.crypto, choice, Agreed(suite, x, y, false), half)
            && Spent(x'.done.value.crypto, x.pong.value.1.box, half) && Heard(x'.done.value.crypto, m.box, half)
  {
    var choice := Select(x.init.algorithms, y.init.algorithms);
    var secret := Agreed(suite, x, y, false);
    assert secret == Agreed(suite, y, x, true);
    OpenMatching(suite, x.init.crypto, m.box, choice, secret, x.init.hash > y.init.hash, y.init.payload);
  }

  lemma PengKept(suite: Suite, x: Node, y: Node, m: Msg, rnd: Random)
    requires suite.Lawful() && Settings(x, y) && Half(suite, x, y) && Half(suite, y, x) && x.alive
    requires y.peng.Some? && m == y.peng.value && x.init.stage == StagePeng
    ensures Kept(suite, x, y, Arrives(suite, x, m, rnd))
  {
    PengTaken(suite, x, y, m, rnd);
  }

  lemma ArriveKept(suite: Suite, x: Node, y: Node, net: set<Msg>, m: Msg, rnd: Random)
    requires suite.Lawful() && Both(suite, x, y, net) && x.alive && m in net
    ensures Kept(suite, x, y, Arrives(suite, x, m, rnd))
  {
    if Unexpected(x.init, m) {
      UnexpectedKept(suite, x, y, m, rnd);
    } else if m.Ping? && (x.init.stage == StagePing || (x.init.stage == StagePong && m.hash > x.init.hash)) {
      PingKept(suite, x, y, m, rnd);
    } else if m.Pong? && x.init.stage == StagePong {
      PongKept(suite, x, y, m, rnd);
    } else {
      PengKept(suite, x, y, m, rnd);
    }
  }

  lemma NodeStepKept(suite: Suite, x: Node, y: Node, net: set<Msg>, act: Action)
    requires suite.Lawful() && Both(suite, x, y, net) && (act.Arrive? ==> act.m in net)
    ensures Kept(suite, x, y, NodeStep(suite, x, act))
  {
    if x.alive {
      match act
      case Initiate(_, secret) => InitiateHalf(suite, x, y, secret);
      case Arrive(_, m, rnd) => ArriveKept(suite, x, y, net, m, rnd);
      case Wait(_) => WaitHalf(suite, x, y);
    }
  }

  lemma BothStep(suite: Suite, x: Node, y: Node, net: set<Msg>, act: Action)
    requires suite.Lawful() && Both(suite, x, y, net) && (act.Arrive? ==> act.m in net)
    ensures var (x', out) := NodeStep(suite, x, act);
            Both(suite, x', y, net + out) && Both(suite, y, x', net + out)
  {
    NodeStepKept(suite, x, y, net, act);
    var (x', out) := NodeStep(suite, x, act);
    HalfExtends(suite, y, x, x');
    assert forall m :: SentBy(x, m) ==> SentBy(x', m);
  }

  ghost predicate Inv(suite: Suite, s: System) {
    Both(suite, s.a, s.b, s.net) && Both(suite, s.b, s.a, s.net)
  }

  lemma StepInv(suite: Suite, s: System, act: Action)
    requires suite.Lawful() && Inv(suite, s) && Enabled(s, act)
    ensures Inv(suite, Step(suite, s, act))
  {
    if act.byA {
      BothStep(suite, s.a, s.b, s.net, act);
    } else {
      BothStep(suite, s.b, s.a, s.net, act);
    }
  }

  lemma PossiblePrefix(suite: Suite, s: System, acts: seq<Action>, k: nat)
    requires Ready(s) && k <= |acts| && Possible(suite, s, acts)
    ensures Possible(suite, s, acts[..k])
  {
    forall i | 0 <= i < k
      ensures Enabled(RunFrom(suite, s, acts[..k][..i]), acts[..k][i])
    {
      assert acts[..k][..i] == acts[..i];
    }
  }

  lemma InitialInv(suite: Suite, s: System)
    requires Initial(s)
    ensures Inv(suite, s)
  {
  }

  lemma {:induction false} RunInv(suite: Suite, s: System, acts: seq<Action>)
    requires suite.Lawful() && Initial(s) && Possible(suite, s, acts)
    ensures Inv(suite, RunFrom(suite, s, acts))
    decreases |acts|
  {
    if acts == [] {
      InitialInv(suite, s);
    } else {
      var n := |acts| - 1;
      PossiblePrefix(suite, s, acts, n);
      RunInv(suite, s, acts[..n]);
      StepInv(suite, RunFrom(suite, s, acts[..n]), acts[n]);
    }
  }

  // ---- What the handshake promises -------------------------------------------------------------

  /** The two results fit together. */
  ghost predicate Agreement(suite: Suite, x: Node, y: Node)
    requires x.done.Some? && y.done.Some?
  {
    var i, r := x.done.value, y.done.value;
    && i.isInitiator != r.isInitiator
    && i.peerPayload == y.init.payload && r.peerPayload == x.init.payload
    && (i.crypto.None? <==> r.crypto.None?)
    && (i.crypto.Some? ==>
          && i.crypto.value.core.Valid() && r.crypto.value.core.Valid()
          && i.crypto.value.algorithm == r.crypto.value.algorithm
          && i.crypto.value.core.half != r.crypto.value.core.half
          && i.crypto.value.core.current == r.crypto.value.core.current == 0
          && i.crypto.value.core.keys[0].key == r.crypto.value.core.keys[0].key)
  }

  lemma AgreementOf(suite: Suite, x: Node, y: Node, net: set<Msg>)
    requires suite.Lawful() && Both(suite, x, y, net) && x.done.Some? && y.done.Some?
    ensures Agreement(suite, x, y)
  {
    if x.done.value.isInitiator {
      assert Agreed(suite, x, y, true) == Agreed(suite, y, x, false);
    } else {
      assert Agreed(suite, y, x, true) == Agreed(suite, x, y, false);
    }
  }

  /** Over every schedule: if both ends report success, exactly one of them is the initiator, each
      has the other's payload, and both are unencrypted or hold the same master key of the same
      algorithm with opposite nonce halves. */
  lemma HandshakeAgreement(suite: Suite, s: System, acts: seq<Action>)
    requires suite.Lawful() && Initial(s) && Possible(suite, s, acts)
    ensures var r := RunFrom(suite, s, acts);
            r.a.done.Some? && r.b.done.Some? ==> Agreement(suite, r.a, r.b)
  {
    RunInv(suite, s, acts);
    var r := RunFrom(suite, s, acts);
    if r.a.done.Some? && r.b.done.Some? {
      AgreementOf(suite, r.a, r.b, r.net);
    }
  }

  /** Opening from both sides at once: never do both answer, never do both complete as initiators,
      an endpoint that had pinged answers only if its hash is the lower one, and a live endpoint
      expecting a pong still holds the private key of its ping, so no message can crash it. */
  lemma SimultaneousOpen(suite: Suite, s: System, acts: seq<Action>, m: Msg, rnd: Random)
    requires suite.Lawful() && Initial(s) && Possible(suite, s, acts)
    ensures var r := RunFrom(suite, s, acts);
            && !(r.a.pong.Some? && r.b.pong.Some?)
            && !(r.a.peng.Some? && r.b.peng.Some?)
            && (r.a.ping.Some? && r.a.pong.Some? ==> r.a.init.hash < r.b.init.hash)
            && (r.b.ping.Some? && r.b.pong.Some? ==> r.b.init.hash < r.a.init.hash)
            && (r.a.alive ==> NoCrash(suite, r.a, m, rnd))
            && (r.b.alive ==> NoCrash(suite, r.b, m, rnd))
  {
    RunInv(suite, s, acts);
    var r := RunFrom(suite, s, acts);
    OpenOnce(suite, r.a, r.b, r.net, m, rnd);
    OpenOnce(suite, r.b, r.a, r.net, m, rnd);
  }

  lemma OpenOnce(suite: Suite, x: Node, y: Node, net: set<Msg>, m: Msg, rnd: Random)
    requires Both(suite, x, y, net)
    ensures !(x.pong.Some? && y.pong.Some?) && !(x.peng.Some? && y.peng.Some?)
    ensures x.alive ==> NoCrash(suite, x, m, rnd)
  {
  }

  ghost predicate NoCrash(suite: Suite, x: Node, m: Msg, rnd: Random)
    requires x.init.Valid()
  {
    && (x.init.stage == StagePong ==> x.init.secret.Some?)
    && !Handle(suite, x.init, m, rnd).1.Crash?
  }

  /** What can go wrong for an endpoint that is still kept: its own message comes back, there is no
      common algorithm, or the two ends rank a tie differently. */
  lemma FailureCauses(suite: Suite, s: System, acts: seq<Action>, m: Msg, rnd: Random, ofA: bool)
    requires suite.Lawful() && Initial(s) && Possible(suite, s, acts)
    requires var r := RunFrom(suite, s, acts); m in r.net && (if ofA then r.a else r.b).alive
    ensures var r := RunFrom(suite, s, acts);
            var (x, y) := if ofA then (r.a, r.b) else (r.b, r.a);
            var o := Handle(suite, x.init, m, rnd).1;
            o.Failed? ==>
              || (o.error.ConnectedToSelf? && m.hash == x.init.hash)
              || (o.error.NoCommonAlgorithm? && Select(x.init.algorithms, y.init.algorithms).NoCommon?)
              || (o.error.PayloadNotDecrypted?
                  && Select(x.init.algorithms, y.init.algorithms) != Select(y.init.algorithms, x.init.algorithms))
  {
    RunInv(suite, s, acts);
    var r := RunFrom(suite, s, acts);
    if ofA {
      FailureOf(suite, r.a, r.b, r.net, m, rnd);
    } else {
      FailureOf(suite, r.b, r.a, r.net, m, rnd);
    }
  }

  lemma FailureOf(suite: Suite, x: Node, y: Node, net: set<Msg>, m: Msg, rnd: Random)
    requires suite.Lawful() && Both(suite, x, y, net) && m in net && x.alive
    ensures var o := Handle(suite, x.init, m, rnd).1;
            o.Failed? ==>
              || (o.error.ConnectedToSelf? && m.hash == x.init.hash)
              || (o.error.NoCommonAlgorithm? && Select(x.init.algorithms, y.init.algorithms).NoCommon?)
              || (o.error.PayloadNotDecrypted?
                  && Select(x.init.algorithms, y.init.algorithms) != Select(y.init.algorithms, x.init.algorithms))
  {
    if m.hash != x.init.hash {
      if m.Pong? && x.init.stage == StagePong {
        PongFailure(suite, x, y, x.init.(failedRetries := 0), rnd);
      } else if m.Peng? && x.init.stage == StagePeng {
        PengOpens(suite, x, y);
      }
    }
  }

  lemma PongFailure(suite: Suite, x: Node, y: Node, s: Init, rnd: Random)
    requires suite.Lawful() && Settings(x, y) && History(suite, x, y) && History(suite, y, x)
    requires x.ping.Some? && y.pong.Some? && y.pong.value.1.Pong?
    requires s.hash == x.init.hash && s.payload == x.init.payload && s.algorithms == x.init.algorithms
    requires s.secret == Some(x.ping.value.0) && s.crypto.None?
    ensures var o := AcceptPong(suite, s, y.pong.value.1, rnd).1;
            o.Failed? ==>
              && o.error.PayloadNotDecrypted?
              && Select(x.init.algorithms, y.init.algorithms) != Select(y.init.algorithms, x.init.algorithms)
  {
    SelectionDefined(x.init.algorithms, y.init.algorithms);
    PongOpens(suite, x, y, rnd);
  }

  lemma PengOpens(suite: Suite, x: Node, y: Node)
    requires suite.Lawful() && Settings(x, y) && Half(suite, x, y) && Half(suite, y, x) && x.alive
    requires y.peng.Some? && x.init.stage == StagePeng
    ensures y.peng.value.Peng? && OpenPayload(suite, x.init.crypto, y.peng.value.box).1 == Some(y.init.payload)
  {
    assert Agreed(suite, x, y, false) == Agreed(suite, y, x, true);
    OpenMatching(suite, x.init.crypto, y.peng.value.box, Select(x.init.algorithms, y.init.algorithms),
                 Agreed(suite, x, y, false), x.init.hash > y.init.hash, y.init.payload);
  }
}
