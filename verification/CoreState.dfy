/** The crypto core of one endpoint on values: a ring of four keys, each with its own sending nonce
and its own pinned minimum. Nonces are given by their big-endian value; `CryptoCore` refines this
to bytes. */
module CoreState {
  import opened Primitives

  datatype Slot = Slot(key: Key, send: nat, min: nat, nextMin: nat, seen: nat)

  datatype Core = Core(keys: seq<Slot>, current: nat, half: bool) {
    ghost predicate Valid() {
      && |keys| == 4
      && current < 4
    }
  }

  /** A message on the wire: the slot used, the low 56 bits of the nonce, the sealed data. */
  datatype Frame = Frame(slot: nat, wire: nat, body: Bytes)

  datatype Failure = OldNonce | NotAuthentic

  /** The value of a nonce that has only the half bit set. */
  function Base(half: bool): nat {
    if half then HALF else 0
  }

  function NewSlot(key: Key, half: bool, start: nat): Slot {
    Slot(key, Base(half) + start, 0, 0, 0)
  }

  /** Random starting points for four sending nonces. */
  type Starts = s: seq<nat> | |s| == 4 && forall i | 0 <= i < 4 :: s[i] < START witness [0, 0, 0, 0]

  /** A core whose slot 0 holds the master key and whose other slots hold a dummy key. */
  function NewCore(key: Key, half: bool, dummy: Key, starts: Starts): (c: Core)
    ensures c.Valid()
  {
    Core([NewSlot(key, half, starts[0]), NewSlot(dummy, half, starts[1]),
          NewSlot(dummy, half, starts[2]), NewSlot(dummy, half, starts[3])], 0, half)
  }

  function NextNonce(c: Core): nat
    requires c.Valid()
  {
    (c.keys[c.current].send + 1) % SPACE
  }

  /** Near the start of its half a nonce is transferred as its distance from there. */
  lemma EarlyNonce(c: Core)
    requires c.Valid() && Base(c.half) <= c.keys[c.current].send < Base(c.half) + START
    ensures NextNonce(c) == c.keys[c.current].send + 1 && NextNonce(c) % WIRE == NextNonce(c) - Base(c.half)
  {
  }

  function Encrypt(aead: Aead, c: Core, data: Bytes): (r: (Core, Frame))
    requires c.Valid()
    ensures r.0.Valid()
  {
    var key := c.keys[c.current];
    var nonce := NextNonce(c);
    (c.(keys := c.keys[c.current := key.(send := nonce)]),
     Frame(c.current, nonce % WIRE, aead.seal(key.key, nonce, data)))
  }

  /** The nonce a receiver deduces: the seven transferred bytes and the opposite of its own half. */
  function Deduced(half: bool, wire: nat): nat {
    Base(!half) + wire
  }

  /** One slot accepts or refuses a sealed body under a nonce. */
  function Receive(aead: Aead, s: Slot, nonce: nat, body: Bytes): (r: (Slot, Result<Bytes, Failure>)) {
    if nonce < s.min then
      (s, Err(OldNonce))
    else
      match aead.open(s.key, nonce, body)
      case None => (s, Err(NotAuthentic))
      case Some(data) => (if s.seen < nonce then s.(seen := nonce) else s, Ok(data))
  }

  function Decrypt(aead: Aead, c: Core, f: Frame): (r: (Core, Result<Bytes, Failure>))
    requires c.Valid()
    ensures r.0.Valid()
  {
    var i := f.slot % 4;
    var (slot, result) := Receive(aead, c.keys[i], Deduced(c.half, f.wire), f.body);
    (c.(keys := c.keys[i := slot]), result)
  }

  function RotateKey(c: Core, key: Key, id: nat, useForSending: bool, start: nat): (r: Core)
    requires c.Valid()
    ensures r.Valid()
  {
    Core(c.keys[id % 4 := NewSlot(key, c.half, start)], if useForSending then id % 4 else c.current, c.half)
  }

  function TickSlot(s: Slot): Slot {
    s.(min := s.nextMin, nextMin := (s.seen + 1) % SPACE)
  }

  function Tick(c: Core): (r: Core)
    requires c.Valid()
    ensures r.Valid()
  {
    c.(keys := [TickSlot(c.keys[0]), TickSlot(c.keys[1]), TickSlot(c.keys[2]), TickSlot(c.keys[3])])
  }

  /** Two cores that can talk: opposite halves, and the receiver holds the sender's current key in
      the slot the sender names. */
  ghost predicate Paired(sender: Core, receiver: Core) {
    && sender.Valid() && receiver.Valid()
    && sender.half != receiver.half
    && receiver.keys[sender.current].key == sender.keys[sender.current].key
  }

  lemma WrongNonce(aead: Aead, key: Key, nonce: nat, other: nat, data: Bytes)
    requires aead.Lawful()
    requires nonce < SPACE && other < SPACE && nonce != other
    ensures aead.open(key, other, aead.seal(key, nonce, data)).None?
  {
  }

  // ---- Frame round trip ------------------------------------------------------------------------

  /** A frame reaches its peer intact exactly while the five untransferred bytes of its nonce are
      the deduced ones and the nonce is not pinned as old. */
  lemma FrameRoundTrip(aead: Aead, sender: Core, receiver: Core, data: Bytes)
    requires aead.Lawful()
    requires Paired(sender, receiver)
    ensures var nonce := NextNonce(sender);
            var frame := Encrypt(aead, sender, data).1;
            var result := Decrypt(aead, receiver, frame).1;
            && (result == Ok(data)
                <==> Base(sender.half) <= nonce < Base(sender.half) + WIRE
                     && receiver.keys[sender.current].min <= nonce)
            && (result.Ok? ==> result == Ok(data))
  {
    var nonce := NextNonce(sender);
    var body := aead.seal(sender.keys[sender.current].key, nonce, data);
    var deduced := Deduced(receiver.half, nonce % WIRE);
    assert deduced == nonce <==> Base(sender.half) <= nonce < Base(sender.half) + WIRE by {
      WireWindow(nonce, sender.half);
    }
    if deduced != nonce {
      WrongNonce(aead, sender.keys[sender.current].key, nonce, deduced, data);
    }
  }

  /** The nonce a peer deduces equals the nonce used exactly when the nonce lies in the first 2^56
      values of the sender's half. */
  lemma WireWindow(nonce: nat, half: bool)
    ensures Deduced(!half, nonce % WIRE) == nonce <==> Base(half) <= nonce < Base(half) + WIRE
  {
    assert HALF % WIRE == 0;
    var q := nonce / WIRE;
    assert nonce == q * WIRE + nonce % WIRE;
    assert HALF == (HALF / WIRE) * WIRE;
  }

  /** A frame sent back to its sender is not accepted as long as its slot still holds the key. */
  lemma ReflectionRejected(aead: Aead, sender: Core, later: Core, data: Bytes)
    requires aead.Lawful()
    requires sender.Valid() && later.Valid() && later.half == sender.half
    requires later.keys[sender.current].key == sender.keys[sender.current].key
    requires Base(sender.half) <= NextNonce(sender) < Base(sender.half) + HALF
    ensures Decrypt(aead, later, Encrypt(aead, sender, data).1).1.Err?
  {
    var nonce := NextNonce(sender);
    WrongNonce(aead, sender.keys[sender.current].key, nonce, Deduced(later.half, nonce % WIRE), data);
  }

  /** A frame with a nonce in the first 2^56 values of its half is restored by an unpinned peer. */
  lemma FramePrompt(aead: Aead, sender: Core, receiver: Core, data: Bytes)
    requires aead.Lawful()
    requires Paired(sender, receiver)
    requires Base(sender.half) <= sender.keys[sender.current].send < Base(sender.half) + WIRE - 1
    requires receiver.keys[sender.current].min <= sender.keys[sender.current].send
    ensures Decrypt(aead, receiver, Encrypt(aead, sender, data).1).1 == Ok(data)
  {
    FrameRoundTrip(aead, sender, receiver, data);
  }

  /** The core after a number of encryptions. */
  function EncryptMany(aead: Aead, c: Core, data: seq<Bytes>): (r: Core)
    requires c.Valid()
    ensures r.Valid() && r.current == c.current && r.half == c.half
    ensures forall i | 0 <= i < 4 :: r.keys[i].key == c.keys[i].key
    decreases |data|
  {
    if data == [] then c else Encrypt(aead, EncryptMany(aead, c, data[..|data| - 1]), data[|data| - 1]).0
  }

  lemma {:induction false} SendNonceAfter(aead: Aead, c: Core, data: seq<Bytes>)
    requires c.Valid()
    requires c.keys[c.current].send + |data| < SPACE
    ensures EncryptMany(aead, c, data).keys[c.current].send == c.keys[c.current].send + |data|
    decreases |data|
  {
    if data != [] {
      SendNonceAfter(aead, c, data[..|data| - 1]);
    }
  }

  /** Over the life of a key: after any n earlier encryptions under a freshly installed key, frame
      n + 1 is restored by an unpinned peer as long as n + 1 is within 2^56 - 2^48. */
  lemma FrameLifetime(aead: Aead, sender: Core, receiver: Core, earlier: seq<Bytes>, data: Bytes)
    requires aead.Lawful()
    requires Paired(sender, receiver)
    requires Base(sender.half) <= sender.keys[sender.current].send < Base(sender.half) + START
    requires |earlier| < WIRE - START
    requires receiver.keys[sender.current].min <= sender.keys[sender.current].send
    ensures Decrypt(aead, receiver, Encrypt(aead, EncryptMany(aead, sender, earlier), data).1).1 == Ok(data)
  {
    var s := EncryptMany(aead, sender, earlier);
    SendNonceAfter(aead, sender, earlier);
    FramePrompt(aead, s, receiver, data);
  }
}
