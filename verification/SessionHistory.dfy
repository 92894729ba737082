/** Consequences of the rotation invariant over whole runs: frames stay readable while keys rotate,
and no key is ever used twice with one nonce. */
module SessionHistory {
  import opened Primitives
  import opened SessionPair
  import CoreState
  import Rotation

  // ---- Readability -----------------------------------------------------------------------------

  lemma StepGrows(dh: Dh, aead: Aead, s: System, act: Action)
    requires Ready(s)
    ensures var r := Step(dh, aead, s, act);
            && s.a.log <= r.a.log && s.b.log <= r.b.log
            && r.a.core.half == s.a.core.half && r.b.core.half == s.b.core.half
  {
  }

  lemma {:induction false} LogsGrow(dh: Dh, aead: Aead, s: System, acts: seq<Action>, k: nat)
    requires Ready(s) && k <= |acts|
    ensures RunFrom(dh, aead, s, acts[..k]).a.log <= RunFrom(dh, aead, s, acts).a.log
    ensures RunFrom(dh, aead, s, acts[..k]).b.log <= RunFrom(dh, aead, s, acts).b.log
    decreases |acts|
  {
    if k == |acts| {
      assert acts[..k] == acts;
    } else {
      var n := |acts| - 1;
      LogsGrow(dh, aead, s, acts[..n], k);
      assert acts[..n][..k] == acts[..k];
      StepGrows(dh, aead, RunFrom(dh, aead, s, acts[..n]), acts[n]);
    }
  }

  lemma PossiblePrefix(dh: Dh, aead: Aead, s: System, acts: seq<Action>, k: nat)
    requires Ready(s) && k <= |acts| && Possible(dh, aead, s, acts)
    ensures Possible(dh, aead, s, acts[..k])
  {
    forall i | 0 <= i < k
      ensures Enabled(dh, RunFrom(dh, aead, s, acts[..k][..i]), acts[..k][i])
    {
      assert acts[..k][..i] == acts[..i];
    }
  }

  /** A key an endpoint was sending with after `k` actions is still in its peer's ring at any later
      point, in the slot its frames name, unless the peer has since installed id + 4. */
  lemma KeyStays(dh: Dh, aead: Aead, s: System, acts: seq<Action>, k: nat, master: Key, fromA: bool)
    requires dh.Lawful() && Initial(dh, s, master) && Possible(dh, aead, s, acts) && k <= |acts|
    ensures var past := RunFrom(dh, aead, s, acts[..k]);
            var now := RunFrom(dh, aead, s, acts);
            var sender := if fromA then past.a else past.b;
            var holder := if fromA then now.b else now.a;
            (forall x | x in holder.log :: x.id != SendingId(sender) + 4) ==>
              holder.core.keys[sender.core.current].key == CurrentKey(sender)
  {
    var r := RunFrom(dh, aead, s, acts[..k]);
    var now := RunFrom(dh, aead, s, acts);
    PossiblePrefix(dh, aead, s, acts, k);
    RunInv(dh, aead, s, acts[..k], master);
    RunInv(dh, aead, s, acts, master);
    LogsGrow(dh, aead, s, acts, k);
    if fromA {
      StillHeld(dh, r.a, r.b, now.b, r.sent, master);
    } else {
      StillHeld(dh, r.b, r.a, now.a, r.sent, master);
    }
  }

  lemma StillHeld(dh: Dh, x: Side, y: Side, y': Side, sent: set<Message>, master: Key)
    requires Balanced(dh, x, y, sent, master)
    requires Installs(y') && Ring(y', master) && y.log <= y'.log
    ensures (forall l | l in y'.log :: l.id != SendingId(x) + 4) ==>
              y'.core.keys[x.core.current].key == CurrentKey(x)
  {
    if Oriented(dh, x, y, sent) {
      Held(dh, x, y, sent, master);
    } else {
      Held(dh, y, x, sent, master);
    }
    var id := SendingId(x);
    if |y'.log| + 2 > id + 4 {
      assert y'.log[id + 2] in y'.log;
    } else {
      SlotOf(x.core, x.log, id, master);
      SlotOf(y'.core, y'.log, id, master);
    }
  }

  lemma {:induction false} HalvesConstant(dh: Dh, aead: Aead, s: System, acts: seq<Action>)
    requires Ready(s)
    ensures RunFrom(dh, aead, s, acts).a.core.half == s.a.core.half
    ensures RunFrom(dh, aead, s, acts).b.core.half == s.b.core.half
    decreases |acts|
  {
    if acts != [] {
      var n := |acts| - 1;
      HalvesConstant(dh, aead, s, acts[..n]);
      StepGrows(dh, aead, RunFrom(dh, aead, s, acts[..n]), acts[n]);
    }
  }

  /** In every reachable state a frame sealed by either side is restored by the other exactly while
      its nonce is among the first 2^56 of its half and not pinned; nothing else is ever restored. */
  lemma DataDelivered(dh: Dh, aead: Aead, s: System, acts: seq<Action>, master: Key, fromA: bool, data: Bytes)
    requires dh.Lawful() && aead.Lawful() && Initial(dh, s, master) && Possible(dh, aead, s, acts)
    ensures var r := RunFrom(dh, aead, s, acts);
            var (sender, receiver) := if fromA then (r.a.core, r.b.core) else (r.b.core, r.a.core);
            var nonce := CoreState.NextNonce(sender);
            var base := CoreState.Base(sender.half);
            var result := CoreState.Decrypt(aead, receiver, CoreState.Encrypt(aead, sender, data).1).1;
            && (result == Ok(data) <==> base <= nonce < base + WIRE && receiver.keys[sender.current].min <= nonce)
            && (result.Ok? ==> result == Ok(data))
  {
    var r := RunFrom(dh, aead, s, acts);
    CurrentKeyHeld(dh, aead, s, acts, master);
    HalvesConstant(dh, aead, s, acts);
    if fromA {
      CoreState.FrameRoundTrip(aead, r.a.core, r.b.core, data);
    } else {
      CoreState.FrameRoundTrip(aead, r.b.core, r.a.core, data);
    }
  }

  // ---- Nonce uniqueness ------------------------------------------------------------------------

  /** How often a side has encrypted under a key. */
  function Count(ledger: seq<Use>, byA: bool, key: Key): nat
    decreases |ledger|
  {
    if ledger == [] then 0
    else
      var u := ledger[|ledger| - 1];
      Count(ledger[..|ledger| - 1], byA, key) + if u.byA == byA && u.key == key then 1 else 0
  }

  /** No side has encrypted more than 2^95 - 2^48 times under one key. */
  ghost predicate WithinBudget(ledger: seq<Use>) {
    forall byA: bool, key: Key :: Count(ledger, byA, key) <= HALF - START
  }

  ghost predicate NoReuse(ledger: seq<Use>) {
    forall i, j | 0 <= i < j < |ledger| :: ledger[i].key != ledger[j].key || ledger[i].nonce != ledger[j].nonce
  }

  /** All keys agreed on are different, and so is the one waiting to be confirmed. */
  ghost predicate FreshKeys(hi: Side, lo: Side, derived: set<Key>, master: Key) {
    && master in derived
    && (forall i | 0 <= i < |hi.log| :: hi.log[i].key in derived && hi.log[i].key != master)
    && (forall i, j | 0 <= i < j < |hi.log| :: hi.log[i].key != hi.log[j].key)
    && (lo.rot.pending.Some? ==>
          && lo.rot.pending.value.0 in derived && lo.rot.pending.value.0 != master
          && forall i | 0 <= i < |hi.log| :: hi.log[i].key != lo.rot.pending.value.0)
  }

  /** A side's encryptions are under keys it installed, in its own half, and not beyond its sending
      nonce; the sending nonce is the random start plus the number of encryptions. */
  ghost predicate Counting(s: Side, byA: bool, ledger: seq<Use>, master: Key)
    requires s.core.Valid()
  {
    var base := CoreState.Base(s.core.half);
    var send := s.core.keys[s.core.current].send;
    var count := Count(ledger, byA, CurrentKey(s));
    && base + count <= send < base + START + count
    && (forall i | 0 <= i < |ledger| && ledger[i].byA == byA ::
          && base <= ledger[i].nonce < base + HALF
          && (ledger[i].key == CurrentKey(s) ==> ledger[i].nonce <= send)
          && (ledger[i].key == master || exists j :: 0 <= j < |s.log| && ledger[i].key == s.log[j].key))
  }

  ghost predicate Fresh(x: Side, y: Side, derived: set<Key>, master: Key) {
    if x.rot.messageId > y.rot.messageId then FreshKeys(x, y, derived, master) else FreshKeys(y, x, derived, master)
  }

  lemma CountAppend(ledger: seq<Use>, u: Use, byA: bool, key: Key)
    ensures Count(ledger + [u], byA, key)
         == Count(ledger, byA, key) + if u.byA == byA && u.key == key then 1 else 0
  {
    assert (ledger + [u])[..|ledger|] == ledger;
  }

  lemma {:induction false} CountNone(ledger: seq<Use>, byA: bool, key: Key)
    requires forall i | 0 <= i < |ledger| && ledger[i].byA == byA :: ledger[i].key != key
    ensures Count(ledger, byA, key) == 0
    decreases |ledger|
  {
    if ledger != [] {
      CountNone(ledger[..|ledger| - 1], byA, key);
    }
  }

  lemma FreshReceive(dh: Dh, x: Side, y: Side, sent: set<Message>, m: Message, secret: PrivateKey, start: nat,
                     derived: set<Key>, master: Key)
    requires Balanced(dh, x, y, sent, master) && Fresh(x, y, derived, master)
    requires m in sent && dh.agree(secret, m.propose) !in derived
    ensures Fresh(Receive(dh, x, m, secret, start), y, derived + {dh.agree(secret, m.propose)}, master)
  {
  }

  lemma FreshTurn(dh: Dh, x: Side, y: Side, sent: set<Message>, secret: PrivateKey, start: nat,
                  derived: set<Key>, master: Key)
    requires Balanced(dh, x, y, sent, master) && Fresh(x, y, derived, master)
    ensures Fresh(Turn(dh, x, secret, start).0, y, derived, master)
  {
  }

  /** The key a delivered confirmation installs has never been used by the side installing it. */
  lemma CountingReceive(dh: Dh, x: Side, y: Side, sent: set<Message>, m: Message, secret: PrivateKey, start: nat,
                        byA: bool, ledger: seq<Use>, derived: set<Key>, master: Key)
    requires Balanced(dh, x, y, sent, master) && Fresh(x, y, derived, master) && Counting(x, byA, ledger, master)
    requires m in sent && start < START
    ensures Counting(Receive(dh, x, m, secret, start), byA, ledger, master)
  {
    var (rot, k) := Rotation.Process(dh, x.rot, m, secret);
    if k.Some? {
      var x' := Receive(dh, x, m, secret, start);
      assert k.value.key == y.log[|x.log|].key;
      assert CurrentKey(x') == k.value.key;
      CountNone(ledger, byA, k.value.key);
      forall j | 0 <= j < |x.log|
        ensures x'.log[j] == x.log[j]
      {
      }
    }
  }

  lemma CountingTurn(dh: Dh, x: Side, y: Side, sent: set<Message>, secret: PrivateKey, start: nat,
                     byA: bool, ledger: seq<Use>, master: Key)
    requires Balanced(dh, x, y, sent, master) && Counting(x, byA, ledger, master)
    ensures Counting(Turn(dh, x, secret, start).0, byA, ledger, master)
  {
    var (rot, k, out) := Rotation.Cycle(dh, x.rot, secret);
    if k.Some? {
      var x' := Turn(dh, x, secret, start).0;
      SlotsDiffer(SendingId(x), k.value.id);
      assert x'.core.keys[x'.core.current] == x.core.keys[x.core.current];
      forall j | 0 <= j < |x.log|
        ensures x'.log[j] == x.log[j]
      {
      }
    }
  }

  lemma CountingOpen(aead: Aead, x: Side, use: CoreUse, byA: bool, ledger: seq<Use>, master: Key)
    requires x.core.Valid() && !use.Seal? && Counting(x, byA, ledger, master)
    ensures Counting(x.(core := CoreStep(aead, x.core, use)), byA, ledger, master)
  {
    var c := CoreStep(aead, x.core, use);
    assert c.keys[c.current].send == x.core.keys[x.core.current].send;
    assert c.keys[c.current].key == x.core.keys[x.core.current].key;
  }

  /** Within the budget the next nonce is one more than the last and stays in the side's half. */
  lemma CountingSeal(aead: Aead, x: Side, data: Bytes, byA: bool, ledger: seq<Use>, master: Key)
    requires x.core.Valid() && Counting(x, byA, ledger, master)
    requires CurrentKey(x) == master || exists j :: 0 <= j < |x.log| && CurrentKey(x) == x.log[j].key
    requires Count(ledger, byA, CurrentKey(x)) < HALF - START
    ensures var u := Use(byA, CurrentKey(x), CoreState.NextNonce(x.core), data);
            && Counting(x.(core := CoreState.Encrypt(aead, x.core, data).0), byA, ledger + [u], master)
            && u.nonce == x.core.keys[x.core.current].send + 1
            && CoreState.Base(x.core.half) <= u.nonce < CoreState.Base(x.core.half) + HALF
  {
    var u := Use(byA, CurrentKey(x), CoreState.NextNonce(x.core), data);
    CountAppend(ledger, u, byA, CurrentKey(x));
    assert u.nonce == x.core.keys[x.core.current].send + 1;
  }

  /** A side's own bookkeeping does not see what the other side encrypts. */
  lemma CountingOther(y: Side, byA: bool, ledger: seq<Use>, u: Use, master: Key)
    requires y.core.Valid() && Counting(y, byA, ledger, master) && u.byA != byA
    ensures Counting(y, byA, ledger + [u], master)
  {
    CountAppend(ledger, u, byA, CurrentKey(y));
  }

  /** A nonce one beyond the side's last one clashes with no earlier encryption of either side. */
  lemma NoReuseSeal(x: Side, y: Side, byA: bool, ledger: seq<Use>, data: Bytes, master: Key)
    requires x.core.Valid() && y.core.Valid() && x.core.half != y.core.half
    requires Counting(x, byA, ledger, master) && Counting(y, !byA, ledger, master) && NoReuse(ledger)
    requires Count(ledger, byA, CurrentKey(x)) < HALF - START
    ensures NoReuse(ledger + [Use(byA, CurrentKey(x), CoreState.NextNonce(x.core), data)])
  {
    assert CoreState.NextNonce(x.core) == x.core.keys[x.core.current].send + 1;
  }

  ghost predicate NonceInv(s: System, master: Key)
    requires Ready(s)
  {
    && Fresh(s.a, s.b, s.derived, master)
    && Counting(s.a, true, s.ledger, master) && Counting(s.b, false, s.ledger, master)
    && NoReuse(s.ledger)
  }

  lemma OwnKey(dh: Dh, x: Side, y: Side, sent: set<Message>, master: Key)
    requires Balanced(dh, x, y, sent, master)
    ensures CurrentKey(x) == master || exists j :: 0 <= j < |x.log| && CurrentKey(x) == x.log[j].key
  {
    SlotOf(x.core, x.log, SendingId(x), master);
  }

  /** One action of side `x` keeps the bookkeeping of both sides. */
  lemma SideNonces(dh: Dh, aead: Aead, x: Side, y: Side, sent: set<Message>, act: Action,
                   ledger: seq<Use>, derived: set<Key>, master: Key)
    requires Balanced(dh, x, y, sent, master) && Fresh(x, y, derived, master) && x.core.half != y.core.half
    requires Counting(x, act.byA, ledger, master) && Counting(y, !act.byA, ledger, master) && NoReuse(ledger)
    requires act.Deliver? ==> act.m in sent && act.start < START && dh.agree(act.secret, act.m.propose) !in derived
    requires act.UseCore? && act.use.Seal? ==> Count(ledger, act.byA, CurrentKey(x)) < HALF - START
    ensures var x' := SideStep(dh, aead, x, act).0;
            var ledger' := ledger + Uses(x, act);
            && Fresh(x', y, derived + Derives(dh, act), master)
            && Counting(x', act.byA, ledger', master) && Counting(y, !act.byA, ledger', master)
            && NoReuse(ledger')
  {
    match act
    case Deliver(byA, m, secret, start) =>
      FreshReceive(dh, x, y, sent, m, secret, start, derived, master);
      CountingReceive(dh, x, y, sent, m, secret, start, byA, ledger, derived, master);
      assert ledger + [] == ledger;
    case Rotate(byA, secret, start) =>
      FreshTurn(dh, x, y, sent, secret, start, derived, master);
      CountingTurn(dh, x, y, sent, secret, start, byA, ledger, master);
      assert ledger + [] == ledger && derived + {} == derived;
    case UseCore(byA, use) =>
      assert ledger + [] == ledger && derived + {} == derived;
      if use.Seal? {
        OwnKey(dh, x, y, sent, master);
        CountingSeal(aead, x, use.data, byA, ledger, master);
        CountingOther(y, !byA, ledger, Use(byA, CurrentKey(x), CoreState.NextNonce(x.core), use.data), master);
        NoReuseSeal(x, y, byA, ledger, use.data, master);
      } else {
        CountingOpen(aead, x, use, byA, ledger, master);
      }
  }

  /** An encryption within the budget of the step it is made in. */
  lemma SealBudget(dh: Dh, aead: Aead, s: System, act: Action)
    requires Ready(s) && act.UseCore? && act.use.Seal? && WithinBudget(Step(dh, aead, s, act).ledger)
    ensures Count(s.ledger, act.byA, CurrentKey(if act.byA then s.a else s.b)) < HALF - START
  {
    var x := if act.byA then s.a else s.b;
    CountAppend(s.ledger, Uses(x, act)[0], act.byA, CurrentKey(x));
    assert Count(Step(dh, aead, s, act).ledger, act.byA, CurrentKey(x)) <= HALF - START;
  }

  lemma FreshSwap(x: Side, y: Side, derived: set<Key>, master: Key)
    requires Fresh(x, y, derived, master) && x.rot.messageId != y.rot.messageId
    ensures Fresh(y, x, derived, master)
  {
  }

  lemma IdsApart(dh: Dh, s: System, master: Key)
    requires Inv(dh, s, master)
    ensures s.a.rot.messageId != s.b.rot.messageId && Balanced(dh, s.b, s.a, s.sent, master)
  {
  }

  /** One action of side `x` keeps all keys different. */
  lemma SideFresh(dh: Dh, aead: Aead, x: Side, y: Side, sent: set<Message>, act: Action, derived: set<Key>, master: Key)
    requires Balanced(dh, x, y, sent, master) && Fresh(x, y, derived, master)
    requires act.Deliver? ==> act.m in sent && dh.agree(act.secret, act.m.propose) !in derived
    ensures Fresh(SideStep(dh, aead, x, act).0, y, derived + Derives(dh, act), master)
  {
    match act
    case Deliver(_, m, secret, start) => FreshReceive(dh, x, y, sent, m, secret, start, derived, master);
    case Rotate(_, secret, start) =>
      FreshTurn(dh, x, y, sent, secret, start, derived, master);
      assert derived + {} == derived;
    case UseCore(_, _) =>
      assert derived + {} == derived;
  }

  lemma StepFresh(dh: Dh, aead: Aead, s: System, act: Action, master: Key)
    requires dh.Lawful() && Inv(dh, s, master) && Fresh(s.a, s.b, s.derived, master) && Enabled(dh, s, act)
    ensures var s' := Step(dh, aead, s, act); Fresh(s'.a, s'.b, s'.derived, master)
  {
    if act.byA {
      SideFresh(dh, aead, s.a, s.b, s.sent, act, s.derived, master);
    } else {
      var s' := Step(dh, aead, s, act);
      StepInv(dh, aead, s, act, master);
      IdsApart(dh, s, master);
      IdsApart(dh, s', master);
      FreshSwap(s.a, s.b, s.derived, master);
      SideFresh(dh, aead, s.b, s.a, s.sent, act, s.derived, master);
      FreshSwap(s'.b, s'.a, s'.derived, master);
    }
  }

  /** Over every run all keys agreed on are different. */
  lemma {:induction false} RunFresh(dh: Dh, aead: Aead, s: System, acts: seq<Action>, master: Key)
    requires dh.Lawful() && Initial(dh, s, master) && Possible(dh, aead, s, acts)
    ensures var r := RunFrom(dh, aead, s, acts); Fresh(r.a, r.b, r.derived, master)
    decreases |acts|
  {
    if acts != [] {
      var n := |acts| - 1;
      PossiblePrefix(dh, aead, s, acts, n);
      RunFresh(dh, aead, s, acts[..n], master);
      RunInv(dh, aead, s, acts[..n], master);
      StepFresh(dh, aead, RunFrom(dh, aead, s, acts[..n]), acts[n], master);
    }
  }

  lemma StepNonceInv(dh: Dh, aead: Aead, s: System, act: Action, master: Key)
    requires Inv(dh, s, master) && NonceInv(s, master) && s.a.core.half != s.b.core.half && Enabled(dh, s, act)
    requires Inv(dh, Step(dh, aead, s, act), master) && WithinBudget(Step(dh, aead, s, act).ledger)
    ensures NonceInv(Step(dh, aead, s, act), master)
  {
    if act.UseCore? && act.use.Seal? {
      SealBudget(dh, aead, s, act);
    }
    if act.byA {
      SideNonces(dh, aead, s.a, s.b, s.sent, act, s.ledger, s.derived, master);
    } else {
      var s' := Step(dh, aead, s, act);
      IdsApart(dh, s, master);
      IdsApart(dh, s', master);
      FreshSwap(s.a, s.b, s.derived, master);
      SideNonces(dh, aead, s.b, s.a, s.sent, act, s.ledger, s.derived, master);
      FreshSwap(s'.b, s'.a, s'.derived, master);
    }
  }

  lemma BudgetPrefix(dh: Dh, aead: Aead, s: System, act: Action)
    requires Ready(s) && WithinBudget(Step(dh, aead, s, act).ledger)
    ensures WithinBudget(s.ledger)
  {
    var ledger := Step(dh, aead, s, act).ledger;
    forall byA: bool, key: Key
      ensures Count(s.ledger, byA, key) <= HALF - START
    {
      if act.UseCore? && act.use.Seal? {
        CountAppend(s.ledger, ledger[|s.ledger|], byA, key);
        assert ledger == s.ledger + [ledger[|s.ledger|]];
      } else {
        assert ledger == s.ledger;
      }
      assert Count(ledger, byA, key) <= HALF - START;
    }
  }

  lemma InitialNonceInv(dh: Dh, s: System, master: Key)
    requires Initial(dh, s, master)
    ensures NonceInv(s, master)
  {
    var u, v := s.ledger[0], s.ledger[1];
    assert s.ledger == [u] + [v] && [] + [u] == [u];
    CountAppend([], u, true, master);
    CountAppend([u], v, true, master);
    CountAppend([], u, false, master);
    CountAppend([u], v, false, master);
  }

  lemma {:induction false} RunNonceInv(dh: Dh, aead: Aead, s: System, acts: seq<Action>, master: Key)
    requires dh.Lawful() && Initial(dh, s, master) && Possible(dh, aead, s, acts)
    requires WithinBudget(RunFrom(dh, aead, s, acts).ledger)
    ensures NonceInv(RunFrom(dh, aead, s, acts), master)
    decreases |acts|
  {
    if acts == [] {
      InitialNonceInv(dh, s, master);
    } else {
      var n := |acts| - 1;
      var r := RunFrom(dh, aead, s, acts[..n]);
      BudgetPrefix(dh, aead, r, acts[n]);
      PossiblePrefix(dh, aead, s, acts, n);
      RunNonceInv(dh, aead, s, acts[..n], master);
      RunInv(dh, aead, s, acts[..n], master);
      HalvesConstant(dh, aead, s, acts[..n]);
      StepInv(dh, aead, r, acts[n], master);
      StepNonceInv(dh, aead, r, acts[n], master);
    }
  }

  /** Over every run within the budget, no two encryptions of the session, by either side and under
      whatever key, share both key and nonce (section 3.1 of RFC 5116). */
  lemma NonceNeverReused(dh: Dh, aead: Aead, s: System, acts: seq<Action>, master: Key)
    requires dh.Lawful() && Initial(dh, s, master) && Possible(dh, aead, s, acts)
    requires WithinBudget(RunFrom(dh, aead, s, acts).ledger)
    ensures NoReuse(RunFrom(dh, aead, s, acts).ledger)
  {
    RunNonceInv(dh, aead, s, acts, master);
  }
}
