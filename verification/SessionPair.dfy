/** Two established endpoints rotating their keys over a network that drops, duplicates, delays,
reorders and reflects messages.

Endpoint `a` is the one that starts the rotation. The network is the set of every rotation message
ever sent: each step may deliver any of them to either endpoint. */
module SessionPair {
  import opened Primitives
  import Rotation
  import CoreState

  type Message = Rotation.Message
  type RotatedKey = Rotation.RotatedKey

  /** One endpoint: its rotation state, its key ring and the keys it has installed so far. */
  datatype Side = Side(rot: Rotation.State, core: CoreState.Core, log: seq<RotatedKey>)

  /** One encryption: by whom, under which key and nonce, and of what. */
  datatype Use = Use(byA: bool, key: Key, nonce: nat, data: Bytes)

  /** `derived` collects the master key and every key an endpoint computed for a new proposal. */
  datatype System = System(a: Side, b: Side, sent: set<Message>, ledger: seq<Use>, derived: set<Key>)

  /** The inputs of a step that the environment chooses: whose turn, and the randomness. Frames may
      be anything; rotation messages are authenticated, so only sent ones arrive. */
  datatype Action =
    | Deliver(byA: bool, m: Message, secret: PrivateKey, start: nat)
    | Rotate(byA: bool, secret: PrivateKey, start: nat)
    | UseCore(byA: bool, use: CoreUse)

  /** Encrypting, decrypting, or a second passing. */
  datatype CoreUse = Seal(data: Bytes) | Open(frame: CoreState.Frame) | Second

  // ---- Steps -----------------------------------------------------------------------------------

  /** What handing an emitted key to the core does. */
  function Install(s: Side, rot: Rotation.State, k: Option<RotatedKey>, start: nat): Side
    requires s.core.Valid()
  {
    match k
    case None => s.(rot := rot)
    case Some(k) => Side(rot, CoreState.RotateKey(s.core, k.key, k.id, k.useForSending, start), s.log + [k])
  }

  function Receive(dh: Dh, s: Side, m: Message, secret: PrivateKey, start: nat): Side
    requires s.core.Valid()
  {
    var (rot, k) := Rotation.Process(dh, s.rot, m, secret);
    Install(s, rot, k, start)
  }

  function Turn(dh: Dh, s: Side, secret: PrivateKey, start: nat): (Side, set<Message>)
    requires s.core.Valid()
  {
    var (rot, k, out) := Rotation.Cycle(dh, s.rot, secret);
    (Install(s, rot, k, start), if out.Some? then {out.value} else {})
  }

  function CurrentKey(s: Side): Key
    requires s.core.Valid()
  {
    s.core.keys[s.core.current].key
  }

  ghost predicate Ready(s: System) {
    s.a.core.Valid() && s.b.core.Valid()
  }

  /** Randomness is well formed, and a key agreed with a newly created private key is new. */
  ghost predicate Enabled(dh: Dh, s: System, act: Action) {
    match act
    case Deliver(_, m, secret, start) => m in s.sent && start < START && dh.agree(secret, m.propose) !in s.derived
    case Rotate(_, secret, start) => start < START
    case UseCore(_, _) => true
  }

  function CoreStep(aead: Aead, c: CoreState.Core, use: CoreUse): (r: CoreState.Core)
    requires c.Valid()
    ensures r.Valid()
  {
    match use
    case Seal(data) => CoreState.Encrypt(aead, c, data).0
    case Open(frame) => CoreState.Decrypt(aead, c, frame).0
    case Second => CoreState.Tick(c)
  }

  /** The acting side after an action, and the messages it sends. */
  function SideStep(dh: Dh, aead: Aead, s: Side, act: Action): (r: (Side, set<Message>))
    requires s.core.Valid()
    ensures r.0.core.Valid()
  {
    match act
    case Deliver(_, m, secret, start) => (Receive(dh, s, m, secret, start), {})
    case Rotate(_, secret, start) => Turn(dh, s, secret, start)
    case UseCore(_, use) => (s.(core := CoreStep(aead, s.core, use)), {})
  }

  /** The encryptions an action makes. */
  function Uses(s: Side, act: Action): seq<Use>
    requires s.core.Valid()
  {
    match act
    case UseCore(byA, Seal(data)) => [Use(byA, CurrentKey(s), CoreState.NextNonce(s.core), data)]
    case _ => []
  }

  /** The keys an action computes from a newly created private key. */
  function Derives(dh: Dh, act: Action): set<Key> {
    match act
    case Deliver(_, m, secret, _) => {dh.agree(secret, m.propose)}
    case _ => {}
  }

  function Step(dh: Dh, aead: Aead, s: System, act: Action): (r: System)
    requires Ready(s)
    ensures Ready(r)
  {
    var side := if act.byA then s.a else s.b;
    var (side', out) := SideStep(dh, aead, side, act);
    System(if act.byA then side' else s.a, if act.byA then s.b else side',
           s.sent + out, s.ledger + Uses(side, act), s.derived + Derives(dh, act))
  }

  /** The two sides right after the handshake: one master key, opposite nonce halves, and one
      encryption each, of the payload in the pong and the peng. */
  ghost predicate Initial(dh: Dh, s: System, master: Key) {
    && (exists secret: PrivateKey ::
          && s.a.rot == Rotation.Start(dh, true, secret).0
          && s.sent == {Rotation.Start(dh, true, secret).1.value})
    && s.b.rot == Rotation.Start(dh, false, 0).0
    && s.a.log == [] && s.b.log == []
    && NewSession(s.a.core, master) && NewSession(s.b.core, master)
    && Unpinned(s.a.core, s.b.core.keys[0].send) && Unpinned(s.b.core, s.a.core.keys[0].send)
    && s.a.core.half != s.b.core.half
    && |s.ledger| == 2
    && s.ledger[0] == Use(true, master, s.a.core.keys[0].send, s.ledger[0].data)
    && s.ledger[1] == Use(false, master, s.b.core.keys[0].send, s.ledger[1].data)
    && s.derived == {master}
  }

  ghost predicate NewSession(c: CoreState.Core, master: Key) {
    && c.Valid() && c.current == 0 && c.keys[0].key == master
    && CoreState.Base(c.half) < c.keys[0].send <= CoreState.Base(c.half) + START
  }

  /** Nothing is pinned, and at most the peer's payload has been opened. */
  ghost predicate Unpinned(c: CoreState.Core, heard: nat)
    requires c.Valid()
  {
    forall i | 0 <= i < 4 ::
      c.keys[i].min == 0 && c.keys[i].nextMin == 0 && (c.keys[i].seen == 0 || (i == 0 && c.keys[i].seen == heard))
  }

  function RunFrom(dh: Dh, aead: Aead, s: System, acts: seq<Action>): (r: System)
    requires Ready(s)
    ensures Ready(r)
    decreases |acts|
  {
    if acts == [] then s else Step(dh, aead, RunFrom(dh, aead, s, acts[..|acts| - 1]), acts[|acts| - 1])
  }

  /** A run: every action was possible when it was taken. */
  ghost predicate Possible(dh: Dh, aead: Aead, s: System, acts: seq<Action>)
    requires Ready(s)
  {
    forall i | 0 <= i < |acts| :: Enabled(dh, RunFrom(dh, aead, s, acts[..i]), acts[i])
  }

  // ---- The rotation invariant ------------------------------------------------------------------

  /** The last message an endpoint sent, as it would retransmit it. */
  function Last(dh: Dh, s: Rotation.State): Message
    requires s.proposed.Some?
  {
    Rotation.Message(s.messageId, dh.pub(s.proposed.value),
                     if s.confirmed.Some? then Some(s.confirmed.value.0) else None)
  }

  ghost predicate Confirmed(s: Rotation.State) {
    if s.messageId < 2 then s.confirmed.None?
    else s.confirmed.Some? && s.confirmed.value.1 == s.messageId
  }

  /** The handshakes in progress. `hi` has sent the newest message; `lo` has answered it with a
      pending key, or still waits for it. */
  ghost predicate Phases(dh: Dh, hi: Side, lo: Side) {
    && hi.rot.messageId == lo.rot.messageId + 1
    && Confirmed(hi.rot) && Confirmed(lo.rot)
    && hi.rot.pending.None? && hi.rot.proposed.Some?
    && (lo.rot.pending.Some? ==>
          && lo.rot.proposed.None?
          && dh.agree(hi.rot.proposed.value, lo.rot.pending.value.1) == lo.rot.pending.value.0)
    && (lo.rot.pending.None? ==> (lo.rot.proposed.Some? <==> hi.rot.messageId >= 2))
    && (lo.rot.proposed.Some? ==>
          && |hi.log| > 0
          && dh.agree(lo.rot.proposed.value, hi.rot.confirmed.value.0) == hi.log[|hi.log| - 1].key)
  }

  /** What is on the network: the newest message is `hi`'s, the one before it is `lo`'s as long as
      `lo` may still retransmit it, and one id never names two messages. */
  ghost predicate Network(dh: Dh, hi: Side, lo: Side, sent: set<Message>)
    requires hi.rot.proposed.Some?
  {
    && (forall m | m in sent :: 1 <= m.id <= hi.rot.messageId)
    && (forall m | m in sent && m.id == hi.rot.messageId :: m == Last(dh, hi.rot))
    && (lo.rot.proposed.Some? ==> forall m | m in sent && m.id == lo.rot.messageId :: m == Last(dh, lo.rot))
    && (forall m, m' | m in sent && m' in sent && m.id == m'.id :: m == m')
  }

  /** The highest id an endpoint has installed a key for (0 or 1: none yet). */
  function Level(s: Side): nat {
    if s.rot.pending.Some? then s.rot.messageId + 1 else s.rot.messageId
  }

  /** An endpoint installs ids 2, 3, 4, ... in order, each once; it sends with those its peer numbered. */
  ghost predicate Installs(s: Side) {
    && |s.log| == (if Level(s) < 2 then 0 else Level(s) - 1)
    && forall i | 0 <= i < |s.log| ::
         s.log[i].id == i + 2 && s.log[i].useForSending == !SameParity(i, s.rot.messageId)
  }

  predicate SameParity(x: nat, y: nat) {
    x % 2 == y % 2
  }

  /** The slower endpoint's keys are the first keys of the faster one. */
  ghost predicate Agreement(hi: Side, lo: Side) {
    && |lo.log| <= |hi.log|
    && forall i | 0 <= i < |lo.log| :: lo.log[i].key == hi.log[i].key
  }

  /** The id of the key an endpoint encrypts with. */
  function SendingId(s: Side): nat {
    var id := if s.rot.pending.Some? then s.rot.messageId + 1
              else if s.rot.messageId == 0 then 0 else s.rot.messageId - 1;
    if id < 2 then 0 else id
  }

  /** The ring holds the last four installed keys, and the master key until id 4 replaces it. */
  ghost predicate Slots(core: CoreState.Core, log: seq<RotatedKey>, master: Key) {
    && core.Valid()
    && (forall i | 0 <= i < |log| && |log| - 4 <= i :: core.keys[(i + 2) % 4].key == log[i].key)
    && (|log| < 3 ==> core.keys[0].key == master)
  }

  ghost predicate Ring(s: Side, master: Key) {
    && Slots(s.core, s.log, master)
    && s.core.current == SendingId(s) % 4
  }

  ghost predicate Oriented(dh: Dh, hi: Side, lo: Side, sent: set<Message>) {
    && Phases(dh, hi, lo)
    && Network(dh, hi, lo, sent)
    && Installs(hi) && Installs(lo)
    && Agreement(hi, lo)
  }

  /** One of the two is ahead, and both rings are in order. */
  ghost predicate Balanced(dh: Dh, x: Side, y: Side, sent: set<Message>, master: Key) {
    && Ring(x, master) && Ring(y, master)
    && (Oriented(dh, x, y, sent) || Oriented(dh, y, x, sent))
  }

  ghost predicate Inv(dh: Dh, s: System, master: Key) {
    && s.a.rot.messageId % 2 == 1 && s.b.rot.messageId % 2 == 0
    && Balanced(dh, s.a, s.b, s.sent, master)
  }

  // ---- Preservation ----------------------------------------------------------------------------

  lemma InitialInv(dh: Dh, s: System, master: Key)
    requires Initial(dh, s, master)
    ensures Inv(dh, s, master)
  {
    assert Oriented(dh, s.a, s.b, s.sent);
  }

  /** The endpoint that spoke last ignores everything on the network. */
  lemma ReceiveHi(dh: Dh, hi: Side, lo: Side, sent: set<Message>, m: Message, secret: PrivateKey, start: nat)
    requires Oriented(dh, hi, lo, sent) && hi.core.Valid() && m in sent
    ensures Receive(dh, hi, m, secret, start) == hi
  {
  }

  lemma ReceiveLo(dh: Dh, hi: Side, lo: Side, sent: set<Message>, m: Message, secret: PrivateKey, start: nat)
    requires dh.Lawful() && Oriented(dh, hi, lo, sent) && lo.core.Valid() && m in sent
    ensures Oriented(dh, hi, Receive(dh, lo, m, secret, start), sent)
  {
    if m.id > lo.rot.messageId {
      assert m == Last(dh, hi.rot);
      assert dh.agree(hi.rot.proposed.value, dh.pub(secret)) == dh.agree(secret, dh.pub(hi.rot.proposed.value));
    } else {
      assert Receive(dh, lo, m, secret, start) == lo;
    }
  }

  lemma TimeoutApart(dh: Dh, hi: Side, lo: Side, sent: set<Message>)
    requires Oriented(dh, hi, lo, sent)
    ensures Oriented(dh, hi.(rot := hi.rot.(timeout := true)), lo, sent)
  {
  }

  lemma ResentKept(dh: Dh, hi: Side, lo: Side, sent: set<Message>)
    requires Oriented(dh, hi, lo, sent)
    ensures Oriented(dh, hi, lo, sent + {Last(dh, hi.rot)})
  {
  }

  lemma RotateHi(dh: Dh, hi: Side, lo: Side, sent: set<Message>, secret: PrivateKey, start: nat)
    requires Oriented(dh, hi, lo, sent) && hi.core.Valid()
    ensures var (side, out) := Turn(dh, hi, secret, start);
            Oriented(dh, side, lo, sent + out)
  {
    if hi.rot.timeout {
      assert Turn(dh, hi, secret, start) == (hi, {Last(dh, hi.rot)});
      ResentKept(dh, hi, lo, sent);
    } else {
      assert sent + {} == sent;
      TimeoutApart(dh, hi, lo, sent);
    }
  }

  lemma InstallsPending(dh: Dh, s: Side, secret: PrivateKey, start: nat)
    requires s.core.Valid() && Installs(s) && s.rot.pending.Some? && s.rot.proposed.None?
    ensures Installs(Turn(dh, s, secret, start).0)
  {
    assert (s.rot.messageId + 2) % 2 == s.rot.messageId % 2;
  }

  /** Taking a turn with a pending key makes the slower endpoint the faster one. */
  lemma RotatePending(dh: Dh, hi: Side, lo: Side, sent: set<Message>, secret: PrivateKey, start: nat)
    requires Oriented(dh, hi, lo, sent) && lo.core.Valid() && lo.rot.pending.Some?
    ensures var (side, out) := Turn(dh, lo, secret, start);
            Oriented(dh, side, hi, sent + out)
  {
    InstallsPending(dh, lo, secret, start);
    var (side, out) := Turn(dh, lo, secret, start);
    assert out == {Last(dh, side.rot)};
    assert Phases(dh, side, hi);
  }

  lemma RotateWaiting(dh: Dh, hi: Side, lo: Side, sent: set<Message>, secret: PrivateKey, start: nat)
    requires Oriented(dh, hi, lo, sent) && lo.core.Valid() && lo.rot.pending.None?
    ensures var (side, out) := Turn(dh, lo, secret, start);
            Oriented(dh, hi, side, sent + out)
  {
  }

  lemma SlotsInstall(core: CoreState.Core, log: seq<RotatedKey>, k: RotatedKey, start: nat, master: Key)
    requires Slots(core, log, master) && k.id == |log| + 2
    ensures Slots(CoreState.RotateKey(core, k.key, k.id, k.useForSending, start), log + [k], master)
  {
    var core' := CoreState.RotateKey(core, k.key, k.id, k.useForSending, start);
    forall i | 0 <= i < |log| && |log| + 1 - 4 <= i
      ensures core'.keys[(i + 2) % 4].key == log[i].key
    {
      SlotsDiffer(i + 2, k.id);
    }
  }

  lemma SlotsDiffer(x: nat, y: nat)
    requires x < y < x + 4
    ensures x % 4 != y % 4
  {
  }

  lemma RingReceive(dh: Dh, hi: Side, lo: Side, sent: set<Message>, m: Message, secret: PrivateKey, start: nat,
                    master: Key)
    requires Oriented(dh, hi, lo, sent) && Ring(lo, master) && m in sent
    ensures Ring(Receive(dh, lo, m, secret, start), master)
  {
    var (rot, k) := Rotation.Process(dh, lo.rot, m, secret);
    if k.Some? {
      SlotsInstall(lo.core, lo.log, k.value, start, master);
    }
  }

  lemma RingRotate(dh: Dh, s: Side, secret: PrivateKey, start: nat, master: Key)
    requires Ring(s, master) && Installs(s)
    requires s.rot.pending.Some? ==> s.rot.proposed.None?
    ensures Ring(Turn(dh, s, secret, start).0, master)
  {
    var (rot, k, out) := Rotation.Cycle(dh, s.rot, secret);
    if k.Some? {
      SlotsInstall(s.core, s.log, k.value, start, master);
    }
  }

  /** Sealing, opening and ageing change nonces only. */
  ghost predicate SameKeys(c: CoreState.Core, c': CoreState.Core) {
    && c.Valid() && c'.Valid()
    && c'.current == c.current && c'.half == c.half
    && forall i | 0 <= i < 4 :: c'.keys[i].key == c.keys[i].key
  }

  lemma CoreStepKeys(aead: Aead, c: CoreState.Core, use: CoreUse)
    requires c.Valid()
    ensures SameKeys(c, CoreStep(aead, c, use))
  {
  }

  /** The rotation does not depend on nonces. */
  lemma BalancedCore(dh: Dh, x: Side, y: Side, sent: set<Message>, core: CoreState.Core, master: Key)
    requires Balanced(dh, x, y, sent, master) && SameKeys(x.core, core)
    ensures Balanced(dh, x.(core := core), y, sent, master)
  {
    var x' := x.(core := core);
    assert Oriented(dh, x, y, sent) ==> Oriented(dh, x', y, sent);
    assert Oriented(dh, y, x, sent) ==> Oriented(dh, y, x', sent);
  }

  lemma BalancedReceive(dh: Dh, x: Side, y: Side, sent: set<Message>, m: Message, secret: PrivateKey, start: nat,
                        master: Key)
    requires dh.Lawful() && Balanced(dh, x, y, sent, master) && m in sent
    ensures var x' := Receive(dh, x, m, secret, start);
            Balanced(dh, x', y, sent, master) && x'.rot.messageId == x.rot.messageId
  {
    if Oriented(dh, x, y, sent) {
      ReceiveHi(dh, x, y, sent, m, secret, start);
    } else {
      ReceiveLo(dh, y, x, sent, m, secret, start);
      RingReceive(dh, y, x, sent, m, secret, start, master);
    }
  }

  lemma BalancedTurn(dh: Dh, x: Side, y: Side, sent: set<Message>, secret: PrivateKey, start: nat, master: Key)
    requires Balanced(dh, x, y, sent, master)
    ensures var (x', out) := Turn(dh, x, secret, start);
            Balanced(dh, x', y, sent + out, master) && x'.rot.messageId % 2 == x.rot.messageId % 2
  {
    RingRotate(dh, x, secret, start, master);
    if Oriented(dh, x, y, sent) {
      RotateHi(dh, x, y, sent, secret, start);
    } else if x.rot.pending.Some? {
      RotatePending(dh, y, x, sent, secret, start);
    } else {
      RotateWaiting(dh, y, x, sent, secret, start);
    }
  }

  lemma BalancedStep(dh: Dh, aead: Aead, x: Side, y: Side, sent: set<Message>, act: Action, master: Key)
    requires dh.Lawful() && Balanced(dh, x, y, sent, master)
    requires act.Deliver? ==> act.m in sent
    ensures var (x', out) := SideStep(dh, aead, x, act);
            Balanced(dh, x', y, sent + out, master) && x'.rot.messageId % 2 == x.rot.messageId % 2
  {
    match act
    case Deliver(_, m, secret, start) =>
      BalancedReceive(dh, x, y, sent, m, secret, start, master);
      assert sent + {} == sent;
    case Rotate(_, secret, start) => BalancedTurn(dh, x, y, sent, secret, start, master);
    case UseCore(_, use) =>
      CoreStepKeys(aead, x.core, use);
      BalancedCore(dh, x, y, sent, CoreStep(aead, x.core, use), master);
      assert sent + {} == sent;
  }

  lemma StepInv(dh: Dh, aead: Aead, s: System, act: Action, master: Key)
    requires dh.Lawful() && Inv(dh, s, master) && Enabled(dh, s, act)
    ensures Inv(dh, Step(dh, aead, s, act), master)
  {
    if act.byA {
      BalancedStep(dh, aead, s.a, s.b, s.sent, act, master);
    } else {
      BalancedStep(dh, aead, s.b, s.a, s.sent, act, master);
    }
  }

  lemma {:induction false} RunInv(dh: Dh, aead: Aead, s: System, acts: seq<Action>, master: Key)
    requires dh.Lawful() && Initial(dh, s, master) && Possible(dh, aead, s, acts)
    ensures Inv(dh, RunFrom(dh, aead, s, acts), master)
    decreases |acts|
  {
    if acts == [] {
      InitialInv(dh, s, master);
    } else {
      var n := |acts| - 1;
      assert forall i | 0 <= i < n :: acts[..n][..i] == acts[..i];
      RunInv(dh, aead, s, acts[..n], master);
      StepInv(dh, aead, RunFrom(dh, aead, s, acts[..n]), acts[n], master);
    }
  }

  // ---- What the rotation promises --------------------------------------------------------------

  /** In every reachable state the ids are in lockstep, an endpoint never has both a pending key and
      an open proposal, and it has installed the ids 2, 3, ... once each and in order. */
  lemma Lockstep(dh: Dh, aead: Aead, s: System, acts: seq<Action>, master: Key)
    requires dh.Lawful() && Initial(dh, s, master) && Possible(dh, aead, s, acts)
    ensures var r := RunFrom(dh, aead, s, acts);
            && r.a.rot.messageId % 2 == 1 && r.b.rot.messageId % 2 == 0
            && (r.a.rot.messageId == r.b.rot.messageId + 1 || r.b.rot.messageId == r.a.rot.messageId + 1)
            && !(r.a.rot.pending.Some? && r.a.rot.proposed.Some?)
            && !(r.b.rot.pending.Some? && r.b.rot.proposed.Some?)
            && (forall i | 0 <= i < |r.a.log| :: r.a.log[i].id == i + 2)
            && (forall i | 0 <= i < |r.b.log| :: r.b.log[i].id == i + 2)
  {
    RunInv(dh, aead, s, acts, master);
  }

  /** Keys with the same id are equal on both sides and exactly one side sends with them; that side
      emits its copy only after the other has emitted its own. */
  ghost predicate KeysAgree(x: Side, y: Side) {
    && (forall i, j | 0 <= i < |x.log| && 0 <= j < |y.log| && x.log[i].id == y.log[j].id ::
          x.log[i].key == y.log[j].key && x.log[i].useForSending != y.log[j].useForSending)
    && SendsAfter(x, y) && SendsAfter(y, x)
  }

  ghost predicate SendsAfter(x: Side, y: Side) {
    forall i | 0 <= i < |x.log| && x.log[i].useForSending ::
      exists j :: 0 <= j < |y.log| && y.log[j].id == x.log[i].id
  }

  lemma KeysAgreeOriented(hi: Side, lo: Side)
    requires Installs(hi) && Installs(lo) && Agreement(hi, lo)
    requires hi.rot.messageId == lo.rot.messageId + 1 && hi.rot.pending.None?
    ensures KeysAgree(hi, lo) && KeysAgree(lo, hi)
  {
    forall i | 0 <= i < |lo.log|
      ensures lo.log[i].id == hi.log[i].id && lo.log[i].useForSending != hi.log[i].useForSending
    {
    }
    forall i | 0 <= i < |hi.log| && hi.log[i].useForSending
      ensures i < |lo.log|
    {
      assert !SameParity(i, hi.rot.messageId);
    }
  }

  lemma KeysAgreeInv(dh: Dh, s: System, master: Key)
    requires Inv(dh, s, master)
    ensures KeysAgree(s.a, s.b)
  {
    if Oriented(dh, s.a, s.b, s.sent) {
      KeysAgreeOriented(s.a, s.b);
    } else {
      KeysAgreeOriented(s.b, s.a);
    }
  }

  /** Key agreement over every run; it rests on all copies of a message being equal. */
  lemma KeyAgreement(dh: Dh, aead: Aead, s: System, acts: seq<Action>, master: Key)
    requires dh.Lawful() && Initial(dh, s, master) && Possible(dh, aead, s, acts)
    ensures var r := RunFrom(dh, aead, s, acts);
            && KeysAgree(r.a, r.b)
            && (forall m, m' | m in r.sent && m' in r.sent && m.id == m'.id :: m == m')
  {
    RunInv(dh, aead, s, acts, master);
    KeysAgreeInv(dh, RunFrom(dh, aead, s, acts), master);
  }

  /** The key each side encrypts with is held by the other side in the slot its frames name. */
  lemma CurrentKeyHeld(dh: Dh, aead: Aead, s: System, acts: seq<Action>, master: Key)
    requires dh.Lawful() && Initial(dh, s, master) && Possible(dh, aead, s, acts)
    ensures var r := RunFrom(dh, aead, s, acts);
            && r.b.core.keys[r.a.core.current].key == CurrentKey(r.a)
            && r.a.core.keys[r.b.core.current].key == CurrentKey(r.b)
  {
    RunInv(dh, aead, s, acts, master);
    var r := RunFrom(dh, aead, s, acts);
    if Oriented(dh, r.a, r.b, r.sent) {
      Held(dh, r.a, r.b, r.sent, master);
    } else {
      Held(dh, r.b, r.a, r.sent, master);
    }
  }

  lemma Held(dh: Dh, hi: Side, lo: Side, sent: set<Message>, master: Key)
    requires Oriented(dh, hi, lo, sent) && Ring(hi, master) && Ring(lo, master)
    ensures lo.core.keys[hi.core.current].key == CurrentKey(hi) == KeyOf(hi.log, SendingId(hi), master)
    ensures hi.core.keys[lo.core.current].key == CurrentKey(lo) == KeyOf(lo.log, SendingId(lo), master)
  {
    SlotOf(hi.core, hi.log, SendingId(hi), master);
    SlotOf(lo.core, lo.log, SendingId(hi), master);
    SlotOf(lo.core, lo.log, SendingId(lo), master);
    SlotOf(hi.core, hi.log, SendingId(lo), master);
  }

  /** Whether the key with an id has been installed and not yet been replaced by id + 4. */
  ghost predicate Live(log: seq<RotatedKey>, id: nat) {
    if id == 0 then |log| < 3 else 2 <= id < |log| + 2 < id + 5
  }

  lemma SlotOf(core: CoreState.Core, log: seq<RotatedKey>, id: nat, master: Key)
    requires Slots(core, log, master) && Live(log, id)
    ensures core.keys[id % 4].key == KeyOf(log, id, master)
  {
    if id != 0 {
      assert core.keys[(id - 2 + 2) % 4].key == log[id - 2].key;
    }
  }

  /** The key with a given id; id 0 is the master key. */
  function KeyOf(log: seq<RotatedKey>, id: nat, master: Key): Key {
    if id < 2 || id - 2 >= |log| then master else log[id - 2].key
  }
}
