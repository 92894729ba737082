/** What arrives when ciphertexts cannot be forged: every frame within the window, and never a frame
at its own sender. */
module Delivery {
  import opened Primitives
  import opened SessionPair
  import opened SessionHistory
  import CoreState
  import Rotation

  function SideOf(s: System, byA: bool): Side {
    if byA then s.a else s.b
  }

  /** A frame off the wire, and if it opens, one that one of the two sides has sealed: under this
      key and nonce, from this plain text. */
  ghost predicate Genuine(aead: Aead, s: System, byA: bool, frame: CoreState.Frame)
    requires Ready(s)
  {
    var core := SideOf(s, byA).core;
    var result := CoreState.Decrypt(aead, core, frame).1;
    && frame.wire < WIRE
    && (result.Ok? ==>
          exists i :: && 0 <= i < |s.ledger| && s.ledger[i].data == result.value
                      && s.ledger[i].key == core.keys[frame.slot % 4].key
                      && s.ledger[i].nonce == CoreState.Deduced(core.half, frame.wire))
  }

  /** A run in which all frames are genuine. */
  ghost predicate Authentic(dh: Dh, aead: Aead, s: System, acts: seq<Action>)
    requires Ready(s)
  {
    forall i | 0 <= i < |acts| && acts[i].UseCore? && acts[i].use.Open? ::
      Genuine(aead, RunFrom(dh, aead, s, acts[..i]), acts[i].byA, acts[i].use.frame)
  }

  // ---- What a slot has heard -------------------------------------------------------------------

  ghost predicate Used(ledger: seq<Use>, byA: bool, key: Key, nonce: nat) {
    exists i :: 0 <= i < |ledger| && ledger[i].byA == byA && ledger[i].key == key && ledger[i].nonce == nonce
  }

  /** The nonces a slot has seen and pinned go back to encryptions of the peer under its key. */
  ghost predicate SlotHeard(slot: CoreState.Slot, peer: bool, ledger: seq<Use>) {
    && slot.seen < SPACE
    && (slot.seen == 0 || Used(ledger, peer, slot.key, slot.seen))
    && (slot.nextMin <= 1 || Used(ledger, peer, slot.key, slot.nextMin - 1))
    && (slot.min <= 1 || Used(ledger, peer, slot.key, slot.min - 1))
  }

  ghost predicate CoreHeard(c: CoreState.Core, peer: bool, ledger: seq<Use>)
    requires c.Valid()
  {
    forall i | 0 <= i < 4 :: SlotHeard(c.keys[i], peer, ledger)
  }

  lemma UsedGrows(ledger: seq<Use>, more: seq<Use>, byA: bool, key: Key, nonce: nat)
    requires Used(ledger, byA, key, nonce)
    ensures Used(ledger + more, byA, key, nonce)
  {
    var i :| 0 <= i < |ledger| && ledger[i].byA == byA && ledger[i].key == key && ledger[i].nonce == nonce;
    assert (ledger + more)[i] == ledger[i];
  }

  lemma HeardGrows(c: CoreState.Core, peer: bool, ledger: seq<Use>, more: seq<Use>)
    requires c.Valid() && CoreHeard(c, peer, ledger)
    ensures CoreHeard(c, peer, ledger + more)
  {
    forall i | 0 <= i < 4
      ensures SlotHeard(c.keys[i], peer, ledger + more)
    {
      var slot := c.keys[i];
      assert SlotHeard(slot, peer, ledger);
      if slot.seen != 0 {
        UsedGrows(ledger, more, peer, slot.key, slot.seen);
      }
      if slot.nextMin > 1 {
        UsedGrows(ledger, more, peer, slot.key, slot.nextMin - 1);
      }
      if slot.min > 1 {
        UsedGrows(ledger, more, peer, slot.key, slot.min - 1);
      }
    }
  }

  lemma HeardInstall(c: CoreState.Core, key: Key, id: nat, useForSending: bool, start: nat, peer: bool, ledger: seq<Use>)
    requires c.Valid() && CoreHeard(c, peer, ledger)
    ensures CoreHeard(CoreState.RotateKey(c, key, id, useForSending, start), peer, ledger)
  {
    var c' := CoreState.RotateKey(c, key, id, useForSending, start);
    forall i | 0 <= i < 4
      ensures SlotHeard(c'.keys[i], peer, ledger)
    {
      assert SlotHeard(c.keys[i], peer, ledger);
    }
  }

  lemma HeardTick(c: CoreState.Core, peer: bool, ledger: seq<Use>)
    requires c.Valid() && CoreHeard(c, peer, ledger)
    ensures CoreHeard(CoreState.Tick(c), peer, ledger)
  {
    forall i | 0 <= i < 4
      ensures SlotHeard(CoreState.Tick(c).keys[i], peer, ledger)
    {
      TickHeard(c.keys[i], peer, ledger);
    }
  }

  lemma TickHeard(slot: CoreState.Slot, peer: bool, ledger: seq<Use>)
    requires SlotHeard(slot, peer, ledger)
    ensures SlotHeard(CoreState.TickSlot(slot), peer, ledger)
  {
  }

  /** The own encryptions are in the own half, so what opens was sealed by the peer. */
  lemma OpenedFromPeer(aead: Aead, s: System, byA: bool, frame: CoreState.Frame, master: Key)
    requires Ready(s) && Counting(SideOf(s, byA), byA, s.ledger, master) && Genuine(aead, s, byA, frame)
    requires CoreState.Decrypt(aead, SideOf(s, byA).core, frame).1.Ok?
    ensures var core := SideOf(s, byA).core;
            var nonce := CoreState.Deduced(core.half, frame.wire);
            Used(s.ledger, !byA, core.keys[frame.slot % 4].key, nonce) && nonce < SPACE
  {
  }

  lemma HeardOpen(aead: Aead, s: System, byA: bool, frame: CoreState.Frame, master: Key)
    requires Ready(s) && Counting(SideOf(s, byA), byA, s.ledger, master) && Genuine(aead, s, byA, frame)
    requires CoreHeard(SideOf(s, byA).core, !byA, s.ledger)
    ensures CoreHeard(CoreState.Decrypt(aead, SideOf(s, byA).core, frame).0, !byA, s.ledger)
  {
    var c := SideOf(s, byA).core;
    var (c', result) := CoreState.Decrypt(aead, c, frame);
    if result.Ok? {
      OpenedFromPeer(aead, s, byA, frame, master);
    }
    forall i | 0 <= i < 4
      ensures SlotHeard(c'.keys[i], !byA, s.ledger)
    {
      assert SlotHeard(c.keys[i], !byA, s.ledger);
    }
  }

  lemma HeardSeal(aead: Aead, c: CoreState.Core, data: Bytes, peer: bool, ledger: seq<Use>)
    requires c.Valid() && CoreHeard(c, peer, ledger)
    ensures CoreHeard(CoreState.Encrypt(aead, c, data).0, peer, ledger)
  {
    var c' := CoreState.Encrypt(aead, c, data).0;
    forall i | 0 <= i < 4
      ensures SlotHeard(c'.keys[i], peer, ledger)
    {
      assert SlotHeard(c.keys[i], peer, ledger);
    }
  }

  ghost predicate Hearing(s: System)
    requires Ready(s)
  {
    CoreHeard(s.a.core, false, s.ledger) && CoreHeard(s.b.core, true, s.ledger)
  }

  /** The acting side, before its own encryption is recorded. */
  lemma HeardActing(dh: Dh, aead: Aead, s: System, act: Action, master: Key)
    requires Ready(s) && Hearing(s) && Counting(SideOf(s, act.byA), act.byA, s.ledger, master)
    requires act.UseCore? && act.use.Open? ==> Genuine(aead, s, act.byA, act.use.frame)
    ensures CoreHeard(SideStep(dh, aead, SideOf(s, act.byA), act).0.core, !act.byA, s.ledger)
  {
    var side := SideOf(s, act.byA);
    match act
    case Deliver(_, m, secret, start) =>
      var k := Rotation.Process(dh, side.rot, m, secret).1;
      if k.Some? {
        HeardInstall(side.core, k.value.key, k.value.id, k.value.useForSending, start, !act.byA, s.ledger);
      }
    case Rotate(_, secret, start) =>
      var k := Rotation.Cycle(dh, side.rot, secret).1;
      if k.Some? {
        HeardInstall(side.core, k.value.key, k.value.id, k.value.useForSending, start, !act.byA, s.ledger);
      }
    case UseCore(byA, use) =>
      match use
      case Seal(data) => HeardSeal(aead, side.core, data, !byA, s.ledger);
      case Open(frame) => HeardOpen(aead, s, byA, frame, master);
      case Second => HeardTick(side.core, !byA, s.ledger);
  }

  lemma HeardStep(dh: Dh, aead: Aead, s: System, act: Action, master: Key)
    requires Ready(s) && Hearing(s) && Counting(SideOf(s, act.byA), act.byA, s.ledger, master)
    requires act.UseCore? && act.use.Open? ==> Genuine(aead, s, act.byA, act.use.frame)
    ensures Hearing(Step(dh, aead, s, act))
  {
    HeardActing(dh, aead, s, act, master);
    var side, other := SideOf(s, act.byA), SideOf(s, !act.byA);
    HeardGrows(SideStep(dh, aead, side, act).0.core, !act.byA, s.ledger, Uses(side, act));
    HeardGrows(other.core, act.byA, s.ledger, Uses(side, act));
  }

  lemma HeardInitially(dh: Dh, s: System, master: Key)
    requires Initial(dh, s, master)
    ensures Hearing(s)
  {
    assert Used(s.ledger, true, master, s.a.core.keys[0].send) by { assert s.ledger[0].byA; }
    assert Used(s.ledger, false, master, s.b.core.keys[0].send) by { assert !s.ledger[1].byA; }
  }

  lemma AuthenticPrefix(dh: Dh, aead: Aead, s: System, acts: seq<Action>, k: nat)
    requires Ready(s) && k <= |acts| && Authentic(dh, aead, s, acts)
    ensures Authentic(dh, aead, s, acts[..k])
  {
    forall i | 0 <= i < k && acts[..k][i].UseCore? && acts[..k][i].use.Open?
      ensures Genuine(aead, RunFrom(dh, aead, s, acts[..k][..i]), acts[..k][i].byA, acts[..k][i].use.frame)
    {
      assert acts[..k][..i] == acts[..i];
    }
  }

  lemma {:induction false} RunHearing(dh: Dh, aead: Aead, s: System, acts: seq<Action>, master: Key)
    requires dh.Lawful() && Initial(dh, s, master) && Possible(dh, aead, s, acts) && Authentic(dh, aead, s, acts)
    requires WithinBudget(RunFrom(dh, aead, s, acts).ledger)
    ensures Hearing(RunFrom(dh, aead, s, acts))
    decreases |acts|
  {
    if acts == [] {
      HeardInitially(dh, s, master);
    } else {
      var n := |acts| - 1;
      var r := RunFrom(dh, aead, s, acts[..n]);
      BudgetPrefix(dh, aead, r, acts[n]);
      PossiblePrefix(dh, aead, s, acts, n);
      AuthenticPrefix(dh, aead, s, acts, n);
      RunHearing(dh, aead, s, acts[..n], master);
      RunNonceInv(dh, aead, s, acts[..n], master);
      HeardStep(dh, aead, r, acts[n], master);
    }
  }

  // ---- Delivery --------------------------------------------------------------------------------

  /** What the peer has pinned is never beyond the next nonce. */
  lemma NotPinned(sender: Side, receiver: Side, fromA: bool, ledger: seq<Use>, master: Key)
    requires sender.core.Valid() && receiver.core.Valid()
    requires Counting(sender, fromA, ledger, master) && CoreHeard(receiver.core, fromA, ledger)
    requires receiver.core.keys[sender.core.current].key == CurrentKey(sender)
    ensures receiver.core.keys[sender.core.current].min <= sender.core.keys[sender.core.current].send + 1
  {
    assert SlotHeard(receiver.core.keys[sender.core.current], fromA, ledger);
  }

  /** In every reachable state of a run without forgeries the next frame of either side is restored
      by the other exactly if its nonce is among the first 2^56 of its half, which is so for the
      first 2^56 - 2^48 encryptions under a key. */
  lemma AlwaysDelivered(dh: Dh, aead: Aead, s: System, acts: seq<Action>, master: Key, fromA: bool, data: Bytes)
    requires dh.Lawful() && aead.Lawful() && Initial(dh, s, master)
    requires Possible(dh, aead, s, acts) && Authentic(dh, aead, s, acts)
    requires WithinBudget(RunFrom(dh, aead, s, acts).ledger)
    ensures var r := RunFrom(dh, aead, s, acts);
            var (sender, receiver) := (SideOf(r, fromA), SideOf(r, !fromA));
            var nonce, base := CoreState.NextNonce(sender.core), CoreState.Base(sender.core.half);
            var result := CoreState.Decrypt(aead, receiver.core, CoreState.Encrypt(aead, sender.core, data).1).1;
            && (result == Ok(data) <==> base <= nonce < base + WIRE)
            && (result.Ok? ==> result == Ok(data))
            && (Count(r.ledger, fromA, CurrentKey(sender)) < WIRE - START ==> result == Ok(data))
  {
    RunHearing(dh, aead, s, acts, master);
    DeliveredIfHeard(dh, aead, s, acts, master, fromA, data);
  }

  /** The same wherever what has been seen and pinned goes back to the peer's encryptions. */
  lemma DeliveredIfHeard(dh: Dh, aead: Aead, s: System, acts: seq<Action>, master: Key, fromA: bool, data: Bytes)
    requires dh.Lawful() && aead.Lawful() && Initial(dh, s, master) && Possible(dh, aead, s, acts)
    requires WithinBudget(RunFrom(dh, aead, s, acts).ledger) && Hearing(RunFrom(dh, aead, s, acts))
    ensures var r := RunFrom(dh, aead, s, acts);
            var (sender, receiver) := (SideOf(r, fromA), SideOf(r, !fromA));
            var nonce, base := CoreState.NextNonce(sender.core), CoreState.Base(sender.core.half);
            var result := CoreState.Decrypt(aead, receiver.core, CoreState.Encrypt(aead, sender.core, data).1).1;
            && (result == Ok(data) <==> base <= nonce < base + WIRE)
            && (result.Ok? ==> result == Ok(data))
            && (Count(r.ledger, fromA, CurrentKey(sender)) < WIRE - START ==> result == Ok(data))
  {
    var r := RunFrom(dh, aead, s, acts);
    var (sender, receiver) := (SideOf(r, fromA), SideOf(r, !fromA));
    RunNonceInv(dh, aead, s, acts, master);
    CurrentKeyHeld(dh, aead, s, acts, master);
    NotPinned(sender, receiver, fromA, r.ledger, master);
    DataDelivered(dh, aead, s, acts, master, fromA, data);
    NextInWindow(sender.core);
  }

  lemma NextInWindow(c: CoreState.Core)
    requires c.Valid() && CoreState.Base(c.half) <= c.keys[c.current].send < CoreState.Base(c.half) + HALF
    ensures var nonce, base := CoreState.NextNonce(c), CoreState.Base(c.half);
            && (base <= nonce < base + WIRE ==> nonce == c.keys[c.current].send + 1)
            && (c.keys[c.current].send + 1 < base + WIRE ==> nonce == c.keys[c.current].send + 1)
  {
  }

  // ---- Delayed frames --------------------------------------------------------------------------

  /** The frame an action seals. */
  function SealedBy(dh: Dh, aead: Aead, s: System, acts: seq<Action>, k: nat): CoreState.Frame
    requires Ready(s) && k < |acts| && acts[k].UseCore? && acts[k].use.Seal?
  {
    CoreState.Encrypt(aead, SideOf(RunFrom(dh, aead, s, acts[..k]), acts[k].byA).core, acts[k].use.data).1
  }

  /** The frame opens under no key of the core but the one it was sealed with. */
  ghost predicate OnlyUnder(aead: Aead, key: Key, frame: CoreState.Frame, core: CoreState.Core)
    requires core.Valid()
  {
    forall i: nat, n: nat | i < 4 && core.keys[i].key != key :: aead.open(core.keys[i].key, n, frame.body).None?
  }

  /** The newest of the installed ids that share a slot with `id`, once `id` + 4 is installed. */
  lemma Successor(top: nat, id: nat) returns (next: nat)
    requires top >= id + 4
    ensures id + 4 <= next <= top < next + 4 && next % 4 == id % 4
  {
    next := top - (top - id) % 4;
    assert (top - id) % 4 + 4 * ((top - id) / 4) == top - id;
    assert next == id + 4 * ((top - id) / 4);
  }

  /** Once its peer has installed the id four higher, the slot of a key holds another one. */
  lemma Overwritten(x: Side, y: Side, z: Side, derived: set<Key>, id: nat, master: Key)
    requires x.log <= z.log && Fresh(y, z, derived, master) && Ring(y, master) && Installs(y)
    requires if y.rot.messageId > z.rot.messageId then Agreement(y, z) else Agreement(z, y)
    requires |y.log| + 1 >= id + 4 && (id == 0 || 2 <= id < |x.log| + 2)
    ensures y.core.keys[id % 4].key != KeyOf(x.log, id, master)
  {
    var next := Successor(|y.log| + 1, id);
    assert y.core.keys[(next - 2 + 2) % 4].key == y.log[next - 2].key;
  }

  /** The same over a run. */
  lemma Replaced(dh: Dh, aead: Aead, s: System, acts: seq<Action>, k: nat, master: Key, fromA: bool)
    requires dh.Lawful() && Initial(dh, s, master) && Possible(dh, aead, s, acts) && k <= |acts|
    requires var sender := SideOf(RunFrom(dh, aead, s, acts[..k]), fromA);
             exists l :: l in SideOf(RunFrom(dh, aead, s, acts), !fromA).log && l.id == SendingId(sender) + 4
    ensures var sender := SideOf(RunFrom(dh, aead, s, acts[..k]), fromA);
            SideOf(RunFrom(dh, aead, s, acts), !fromA).core.keys[sender.core.current].key != CurrentKey(sender)
  {
    var past, now := RunFrom(dh, aead, s, acts[..k]), RunFrom(dh, aead, s, acts);
    PossiblePrefix(dh, aead, s, acts, k);
    RunInv(dh, aead, s, acts[..k], master);
    RunInv(dh, aead, s, acts, master);
    RunFresh(dh, aead, s, acts, master);
    LogsGrow(dh, aead, s, acts, k);
    IdsApart(dh, now, master);
    FreshSwap(now.a, now.b, now.derived, master);
    var x, y, z := SideOf(past, fromA), SideOf(now, !fromA), SideOf(now, fromA);
    SendingKey(dh, past, fromA, master);
    Overwritten(x, y, z, now.derived, SendingId(x), master);
  }

  lemma SendingKey(dh: Dh, s: System, byA: bool, master: Key)
    requires Inv(dh, s, master)
    ensures var x := SideOf(s, byA);
            && x.core.Valid() && x.core.current == SendingId(x) % 4
            && CurrentKey(x) == KeyOf(x.log, SendingId(x), master)
            && (SendingId(x) == 0 || 2 <= SendingId(x) < |x.log| + 2)
  {
    if Oriented(dh, s.a, s.b, s.sent) {
      Held(dh, s.a, s.b, s.sent, master);
    } else {
      Held(dh, s.b, s.a, s.sent, master);
    }
  }

  /** A key an endpoint was sending with is in the slot of its peer that frames sealed with it name
      exactly until the peer installs the id four higher. */
  lemma HeldExactly(dh: Dh, aead: Aead, s: System, acts: seq<Action>, k: nat, master: Key, fromA: bool)
    requires dh.Lawful() && Initial(dh, s, master) && Possible(dh, aead, s, acts) && k <= |acts|
    ensures var sender := SideOf(RunFrom(dh, aead, s, acts[..k]), fromA);
            var receiver := SideOf(RunFrom(dh, aead, s, acts), !fromA);
            && sender.core.half != receiver.core.half
            && (receiver.core.keys[sender.core.current].key == CurrentKey(sender)
                <==> forall l | l in receiver.log :: l.id != SendingId(sender) + 4)
  {
    HalvesConstant(dh, aead, s, acts[..k]);
    HalvesConstant(dh, aead, s, acts);
    KeyStays(dh, aead, s, acts, k, master, fromA);
    var sender := SideOf(RunFrom(dh, aead, s, acts[..k]), fromA);
    if exists l :: l in SideOf(RunFrom(dh, aead, s, acts), !fromA).log && l.id == SendingId(sender) + 4 {
      Replaced(dh, aead, s, acts, k, master, fromA);
    }
  }

  /** A delayed frame. Whatever has happened since it was sealed, and however many keys have been
      changed: the peer restores it exactly as long as it has not installed the id four above the one
      the frame was sealed with, if the nonce is among the first 2^56 of its half and not pinned; and
      it never makes anything else of it, provided frames do not open under other keys. */
  lemma DelayedDelivered(dh: Dh, aead: Aead, s: System, acts: seq<Action>, master: Key, k: nat)
    requires dh.Lawful() && aead.Lawful() && Initial(dh, s, master) && Possible(dh, aead, s, acts)
    requires k < |acts| && acts[k].UseCore? && acts[k].use.Seal?
    requires OnlyUnder(aead, CurrentKey(SideOf(RunFrom(dh, aead, s, acts[..k]), acts[k].byA)),
                       SealedBy(dh, aead, s, acts, k), SideOf(RunFrom(dh, aead, s, acts), !acts[k].byA).core)
    ensures var sender := SideOf(RunFrom(dh, aead, s, acts[..k]), acts[k].byA);
            var receiver := SideOf(RunFrom(dh, aead, s, acts), !acts[k].byA);
            var nonce, base := CoreState.NextNonce(sender.core), CoreState.Base(sender.core.half);
            var result := CoreState.Decrypt(aead, receiver.core, SealedBy(dh, aead, s, acts, k)).1;
            && (result == Ok(acts[k].use.data)
                <==> && (forall l | l in receiver.log :: l.id != SendingId(sender) + 4)
                     && base <= nonce < base + WIRE && receiver.core.keys[sender.core.current].min <= nonce)
            && (result.Ok? ==> result == Ok(acts[k].use.data))
  {
    var fromA := acts[k].byA;
    var sender := SideOf(RunFrom(dh, aead, s, acts[..k]), fromA);
    var receiver := SideOf(RunFrom(dh, aead, s, acts), !fromA);
    HeldExactly(dh, aead, s, acts, k, master, fromA);
    OpensWhileHeld(aead, sender.core, receiver.core, acts[k].use.data);
  }

  lemma OpensWhileHeld(aead: Aead, sender: CoreState.Core, receiver: CoreState.Core, data: Bytes)
    requires aead.Lawful() && sender.Valid() && receiver.Valid() && sender.half != receiver.half
    requires OnlyUnder(aead, sender.keys[sender.current].key, CoreState.Encrypt(aead, sender, data).1, receiver)
    ensures var nonce, base := CoreState.NextNonce(sender), CoreState.Base(sender.half);
            var result := CoreState.Decrypt(aead, receiver, CoreState.Encrypt(aead, sender, data).1).1;
            && (result == Ok(data)
                <==> && receiver.keys[sender.current].key == sender.keys[sender.current].key
                     && base <= nonce < base + WIRE && receiver.keys[sender.current].min <= nonce)
            && (result.Ok? ==> result == Ok(data))
  {
    if receiver.keys[sender.current].key == sender.keys[sender.current].key {
      CoreState.FrameRoundTrip(aead, sender, receiver, data);
    }
  }

  // ---- Reflection ------------------------------------------------------------------------------

  lemma {:induction false} BudgetAt(dh: Dh, aead: Aead, s: System, acts: seq<Action>, k: nat)
    requires Ready(s) && k <= |acts| && WithinBudget(RunFrom(dh, aead, s, acts).ledger)
    ensures WithinBudget(RunFrom(dh, aead, s, acts[..k]).ledger)
    decreases |acts|
  {
    if k == |acts| {
      assert acts[..k] == acts;
    } else {
      var n := |acts| - 1;
      BudgetPrefix(dh, aead, RunFrom(dh, aead, s, acts[..n]), acts[n]);
      BudgetAt(dh, aead, s, acts[..n], k);
      assert acts[..n][..k] == acts[..k];
    }
  }

  /** Over every run within the budget: a frame sealed at any point is never accepted by its own
      sender at any later point, provided frames do not open under other keys of the session. */
  lemma NeverReflected(dh: Dh, aead: Aead, s: System, acts: seq<Action>, master: Key, k: nat)
    requires dh.Lawful() && aead.Lawful() && Initial(dh, s, master) && Possible(dh, aead, s, acts)
    requires WithinBudget(RunFrom(dh, aead, s, acts).ledger)
    requires k < |acts| && acts[k].UseCore? && acts[k].use.Seal?
    requires OnlyUnder(aead, CurrentKey(SideOf(RunFrom(dh, aead, s, acts[..k]), acts[k].byA)),
                       SealedBy(dh, aead, s, acts, k), SideOf(RunFrom(dh, aead, s, acts), acts[k].byA).core)
    ensures CoreState.Decrypt(aead, SideOf(RunFrom(dh, aead, s, acts), acts[k].byA).core,
                              SealedBy(dh, aead, s, acts, k)).1.Err?
  {
    var byA := acts[k].byA;
    var past, now := RunFrom(dh, aead, s, acts[..k]), RunFrom(dh, aead, s, acts);
    PossiblePrefix(dh, aead, s, acts, k);
    BudgetAt(dh, aead, s, acts, k);
    RunNonceInv(dh, aead, s, acts[..k], master);
    HalvesConstant(dh, aead, s, acts[..k]);
    HalvesConstant(dh, aead, s, acts);
    SealWithin(dh, aead, s, acts, k);
    RunInv(dh, aead, s, acts[..k], master);
    OwnKeyOf(dh, past, byA, master);
    CountingSeal(aead, SideOf(past, byA), acts[k].use.data, byA, past.ledger, master);
    Reflected(aead, SideOf(past, byA).core, SideOf(now, byA).core, acts[k].use.data);
  }

  lemma OwnKeyOf(dh: Dh, s: System, byA: bool, master: Key)
    requires Inv(dh, s, master)
    ensures var x := SideOf(s, byA);
            x.core.Valid() && (CurrentKey(x) == master || exists j :: 0 <= j < |x.log| && CurrentKey(x) == x.log[j].key)
  {
    if byA {
      OwnKey(dh, s.a, s.b, s.sent, master);
    } else {
      OwnKey(dh, s.b, s.a, s.sent, master);
    }
  }

  /** The encryption itself is within the budget. */
  lemma SealWithin(dh: Dh, aead: Aead, s: System, acts: seq<Action>, k: nat)
    requires Ready(s) && k < |acts| && acts[k].UseCore? && acts[k].use.Seal?
    requires WithinBudget(RunFrom(dh, aead, s, acts).ledger)
    ensures var past := RunFrom(dh, aead, s, acts[..k]);
            Count(past.ledger, acts[k].byA, CurrentKey(SideOf(past, acts[k].byA))) < HALF - START
  {
    var past := RunFrom(dh, aead, s, acts[..k]);
    var side := SideOf(past, acts[k].byA);
    BudgetAt(dh, aead, s, acts, k + 1);
    assert acts[..k + 1][..k] == acts[..k];
    CountAppend(past.ledger, Uses(side, acts[k])[0], acts[k].byA, CurrentKey(side));
    assert Count(RunFrom(dh, aead, s, acts[..k + 1]).ledger, acts[k].byA, CurrentKey(side)) <= HALF - START;
  }

  lemma Reflected(aead: Aead, sender: CoreState.Core, later: CoreState.Core, data: Bytes)
    requires aead.Lawful() && sender.Valid() && later.Valid() && later.half == sender.half
    requires CoreState.Base(sender.half) <= CoreState.NextNonce(sender) < CoreState.Base(sender.half) + HALF
    requires OnlyUnder(aead, sender.keys[sender.current].key, CoreState.Encrypt(aead, sender, data).1, later)
    ensures CoreState.Decrypt(aead, later, CoreState.Encrypt(aead, sender, data).1).1.Err?
  {
    if later.keys[sender.current].key == sender.keys[sender.current].key {
      CoreState.ReflectionRejected(aead, sender, later, data);
    }
  }
}
