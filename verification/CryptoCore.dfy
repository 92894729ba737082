/** The crypto core as the program runs it: nonces of twelve bytes incremented in place, a ring of
four keys overwritten in place, and messages sealed and opened inside their buffer. Each method is
proved to do what `CoreState` says on values. */
module CryptoCore {
  import opened Primitives
  import opened Wire
  import CoreState

  const EXTRA_LEN := 8

  type Nonce = n: Bytes | |n| == 12 witness [0, 0, 0, 0, 0, 0, 0, 0, 0, 0, 0, 0]

  const ZERO: Nonce := [0, 0, 0, 0, 0, 0, 0, 0, 0, 0, 0, 0]

  lemma Powers()
    ensures Pow256(0) == 1 && Pow256(1) == 256 && Pow256(2) == 0x1_0000 && Pow256(4) == 0x1_0000_0000
    ensures Pow256(7) == WIRE && Pow256(8) == 0x1_0000_0000_0000_0000
    ensures Pow256(12) == SPACE && 128 * Pow256(11) == HALF
  {
    assert Pow256(1) == 256;
    assert Pow256(2) == 0x1_0000;
    assert Pow256(3) == 0x100_0000;
    assert Pow256(4) == 0x1_0000_0000;
    assert Pow256(5) == 0x100_0000_0000;
    assert Pow256(6) == 0x1_0000_0000_0000;
    assert Pow256(7) == 0x100_0000_0000_0000;
    assert Pow256(8) == 0x1_0000_0000_0000_0000;
    assert Pow256(9) == 0x100_0000_0000_0000_0000;
    assert Pow256(10) == 0x1_0000_0000_0000_0000_0000;
    assert Pow256(11) == 0x100_0000_0000_0000_0000_0000;
  }

  // ---- Nonces ----------------------------------------------------------------------------------

  lemma {:induction false} ValueZeros(b: Bytes)
    requires forall i | 0 <= i < |b| :: b[i] == 0
    ensures Value(b) == 0
    decreases |b|
  {
    if b != [] {
      ValueZeros(b[..|b| - 1]);
    }
  }

  /** Adding one with a carry that runs from the last byte to the front. */
  function Succ(b: Bytes): (r: Bytes)
    ensures |r| == |b|
    decreases |b|
  {
    if b == [] then []
    else
      var n := |b| - 1;
      var last: int := b[n];
      if last < 255 then b[..n] + [last + 1] else Succ(b[..n]) + [0]
  }

  lemma {:induction false} SuccValue(b: Bytes)
    ensures Value(Succ(b)) == if Value(b) + 1 == Pow256(|b|) then 0 else Value(b) + 1
    decreases |b|
  {
    if b != [] {
      var n := |b| - 1;
      SuccValue(b[..n]);
      ValueBound(b[..n]);
      assert Succ(b)[..n] == if b[n] < 255 then b[..n] else Succ(b[..n]);
    }
  }

  /** The in-place increment. */
  method Increment(n: array<byte>)
    modifies n
    ensures n[..] == Succ(old(n[..]))
  {
    ghost var before := n[..];
    var i := n.Length;
    assert before[..i] == before;
    while i > 0
      invariant 0 <= i <= n.Length
      invariant n[..i] == before[..i]
      invariant Succ(before) == Succ(before[..i]) + n[i..]
    {
      var num: int := n[i - 1];
      num := (num + 1) % 256;
      n[i - 1] := num;
      assert before[..i][..i - 1] == before[..i - 1];
      if num > 0 {
        assert n[..] == Succ(before);
        break;
      }
      i := i - 1;
    }
  }

  /** Incrementing adds one to the big-endian number, modulo the nonce space. */
  method Incremented(n: Nonce) returns (r: Nonce)
    ensures Value(r) == (Value(n) + 1) % SPACE
  {
    var a := new byte[12](i requires 0 <= i < 12 => n[i]);
    assert a[..] == n;
    Increment(a);
    r := a[..];
    SuccValue(n);
    ValueBound(n);
    Powers();
  }

  /** The nonce a receiver deduces: its msb, four zero bytes, and the seven transferred bytes. */
  lemma DeducedValue(msb: byte, wire: Bytes)
    requires |wire| == 7 && (msb == 0 || msb == 128)
    ensures Value([msb, 0, 0, 0, 0] + wire) == (if msb == 0 then 0 else HALF) + Value(wire)
  {
    ValueConcat([msb, 0, 0, 0, 0], wire);
    ValueConcat([msb], [0, 0, 0, 0]);
    ValueZeros([0, 0, 0, 0]);
    assert [msb, 0, 0, 0, 0] == [msb] + [0, 0, 0, 0];
    Powers();
  }

  /** The seven transferred bytes are the nonce modulo 2^56. */
  lemma WireValue(n: Nonce)
    ensures Value(n[5..]) == Value(n) % WIRE && n[5..] == Be(Value(n) % WIRE, 7)
  {
    assert n == n[..5] + n[5..];
    ValueConcat(n[..5], n[5..]);
    ValueBound(n[5..]);
    Powers();
    LowPart(Value(n[..5]), Value(n[5..]));
    BeOfValue(n[5..]);
  }

  lemma LowPart(high: nat, low: nat)
    requires low < WIRE
    ensures (high * WIRE + low) % WIRE == low
  {
  }

  // ---- Frames ----------------------------------------------------------------------------------

  function EncodeFrame(f: CoreState.Frame): Bytes
    requires f.slot < 256
  {
    [f.slot] + Be(f.wire, 7) + f.body
  }

  function DecodeFrame(b: Bytes): CoreState.Frame
    requires |b| >= EXTRA_LEN
  {
    CoreState.Frame(b[0], Value(b[1..8]), b[8..])
  }

  lemma FrameBytesRoundTrip(f: CoreState.Frame)
    requires f.slot < 256 && f.wire < WIRE
    ensures DecodeFrame(EncodeFrame(f)) == f
  {
    var b := EncodeFrame(f);
    Powers();
    assert b[1..8] == Be(f.wire, 7);
    ValueOfBe(f.wire, 7);
    assert b[8..] == f.body;
  }

  // ---- The buffer ------------------------------------------------------------------------------

  class MsgBuffer {
    const buffer: array<byte>
    var start: nat
    var end: nat

    ghost predicate Valid()
      reads this
    {
      start <= end <= buffer.Length
    }

    function Message(): Bytes
      requires Valid()
      reads this, buffer
    {
      buffer[start..end]
    }

    constructor (spaceBefore: nat)
      requires spaceBefore <= 65535
      ensures Valid() && fresh(buffer) && buffer.Length == 65535
      ensures start == end == spaceBefore
    {
      buffer := new byte[65535](_ => 0);
      start, end := spaceBefore, spaceBefore;
    }
  }

  /** Copies bytes into an array. */
  method WriteAt(a: array<byte>, at: nat, data: Bytes)
    requires at + |data| <= a.Length
    modifies a
    ensures a[at..at + |data|] == data
    ensures forall i | (0 <= i < at || at + |data| <= i < a.Length) :: a[i] == old(a[i])
  {
    forall i | 0 <= i < |data| { a[at + i] := data[i]; }
  }

  // ---- The core --------------------------------------------------------------------------------

  datatype CryptoKey = CryptoKey(key: Key, sendNonce: Nonce, minNonce: Nonce, nextMinNonce: Nonce, seenNonce: Nonce) {
    function View(): CoreState.Slot {
      CoreState.Slot(key, Value(sendNonce), Value(minNonce), Value(nextMinNonce), Value(seenNonce))
    }
  }

  /** A key with a random starting point in its owner's half. */
  function NewKey(key: Key, half: bool, random: Bytes): (k: CryptoKey)
    requires |random| == 6
    ensures k.View() == CoreState.NewSlot(key, half, Value(random))
  {
    StartValue(half, random);
    ValueZeros(ZERO);
    CryptoKey(key, StartNonce(half, random), ZERO, ZERO, ZERO)
  }

  /** The half bit, five zero bytes and the random ones. */
  function StartNonce(half: bool, random: Bytes): Nonce
    requires |random| == 6
  {
    [if half then 128 else 0, 0, 0, 0, 0] + ([0] + random)
  }

  lemma StartValue(half: bool, random: Bytes)
    requires |random| == 6
    ensures Value(StartNonce(half, random)) == CoreState.Base(half) + Value(random)
  {
    DeducedValue(if half then 128 else 0, [0] + random);
    ValueConcat([0], random);
  }

  class CryptoCore {
    const aead: Aead
    const nonceHalf: bool
    const keys: array<CryptoKey>
    var currentKey: nat

    ghost predicate Valid()
      reads this
    {
      keys.Length == 4 && currentKey < 4
    }

    ghost function View(): (c: CoreState.Core)
      requires Valid()
      reads this, keys
      ensures c.Valid()
    {
      CoreState.Core([keys[0].View(), keys[1].View(), keys[2].View(), keys[3].View()], currentKey, nonceHalf)
    }

    constructor (aead: Aead, key: Key, nonceHalf: bool, dummy: Key, random: seq<Bytes>)
      requires |random| == 4 && forall i | 0 <= i < 4 :: |random[i]| == 6
      ensures Valid() && fresh(keys)
      ensures forall i | 0 <= i < 4 :: Value(random[i]) < START
      ensures View() == CoreState.NewCore(key, nonceHalf, dummy, [Value(random[0]), Value(random[1]),
                                                                  Value(random[2]), Value(random[3])])
    {
      this.aead, this.nonceHalf := aead, nonceHalf;
      forall i | 0 <= i < 4
        ensures Value(random[i]) < START
      {
        ValueBound(random[i]);
        assert Pow256(6) == START by { Powers(); assert Pow256(7) == 256 * Pow256(6); }
      }
      currentKey := 0;
      keys := new CryptoKey[4](i requires 0 <= i < 4 => NewKey(if i == 0 then key else dummy, nonceHalf, random[i]));
    }

    /** Moves the sending nonce of the current key on. */
    method Advance() returns (nonce: Nonce)
      requires Valid()
      modifies keys
      ensures Valid() && Value(nonce) == CoreState.NextNonce(old(View()))
      ensures var c := old(View());
              View() == c.(keys := c.keys[c.current := c.keys[c.current].(send := Value(nonce))])
    {
      var key := keys[currentKey];
      nonce := Incremented(key.sendNonce);
      keys[currentKey] := key.(sendNonce := nonce);
    }

    /** Seals the message of a buffer in place: eight bytes in front for slot and nonce, sixteen
        behind for the tag. */
    method Encrypt(buf: MsgBuffer)
      requires Valid() && aead.Lawful() && buf.Valid()
      requires buf.start >= EXTRA_LEN && buf.end + TAG_LEN <= buf.buffer.Length
      modifies buf, buf.buffer, keys
      ensures Valid() && buf.Valid() && currentKey == old(currentKey)
      ensures buf.start == old(buf.start) - EXTRA_LEN && buf.end == old(buf.end) + TAG_LEN
      ensures View() == CoreState.Encrypt(aead, old(View()), old(buf.Message())).0
      ensures buf.Message() == EncodeFrame(CoreState.Encrypt(aead, old(View()), old(buf.Message())).1)
      ensures forall i | (0 <= i < buf.start || buf.end <= i < buf.buffer.Length) :: buf.buffer[i] == old(buf.buffer[i])
    {
      var dataStart, data := buf.start, buf.Message();
      buf.start := dataStart - EXTRA_LEN;
      buf.end := buf.end + TAG_LEN;
      var key := keys[currentKey].key;
      var nonce := Advance();
      WireValue(nonce);
      var cipher := aead.seal(key, Value(nonce), data);
      var extra: Bytes := [currentKey] + nonce[5..];
      WriteAt(buf.buffer, buf.start, extra + cipher);
    }

    method DecryptWithKey(i: nat, nonce: Nonce, body: Bytes) returns (result: Result<Bytes, CoreState.Failure>)
      requires Valid() && i < 4
      modifies keys
      ensures var (slot, r) := CoreState.Receive(aead, old(View()).keys[i], Value(nonce), body);
              View() == old(View()).(keys := old(View()).keys[i := slot]) && result == r
    {
      var key := keys[i];
      LessIsNumeric(nonce, key.minNonce);
      if Less(nonce, key.minNonce) {
        return Err(CoreState.OldNonce);
      }
      var plain := aead.open(key.key, Value(nonce), body);
      if plain.None? {
        return Err(CoreState.NotAuthentic);
      }
      LessIsNumeric(key.seenNonce, nonce);
      if Less(key.seenNonce, nonce) {
        keys[i] := key.(seenNonce := nonce);
      }
      return Ok(plain.value);
    }

    /** Opens the message of a buffer in place. On failure what lies in the message is unspecified;
        the buffer's limits move all the same. */
    method Decrypt(buf: MsgBuffer) returns (result: Option<CoreState.Failure>)
      requires Valid() && aead.Lawful() && buf.Valid()
      requires |buf.Message()| >= EXTRA_LEN + TAG_LEN
      modifies buf, buf.buffer, keys
      ensures Valid() && buf.Valid() && currentKey == old(currentKey)
      ensures buf.start == old(buf.start) + EXTRA_LEN && buf.end == old(buf.end) - TAG_LEN
      ensures var (core, r) := CoreState.Decrypt(aead, old(View()), DecodeFrame(old(buf.Message())));
              && View() == core
              && (result.None? <==> r.Ok?) && (r.Ok? ==> buf.Message() == r.value) && (r.Err? ==> result == Some(r.error))
      ensures forall i | (0 <= i < buf.start || buf.end <= i < buf.buffer.Length) :: buf.buffer[i] == old(buf.buffer[i])
    {
      var m := buf.Message();
      var wire := m[1..8];
      var nonce: Nonce := [if nonceHalf then 0 else 128, 0, 0, 0, 0] + wire;
      DeducedValue(if nonceHalf then 0 else 128, wire);
      var r := DecryptWithKey(m[0] % 4, nonce, m[8..]);
      buf.start := buf.start + EXTRA_LEN;
      buf.end := buf.end - TAG_LEN;
      if r.Err? {
        return Some(r.error);
      }
      var data := r.value;
      WriteAt(buf.buffer, buf.start, data);
      return None;
    }

    method RotateKey(key: Key, id: nat, useForSending: bool, random: Bytes)
      requires Valid() && |random| == 6
      modifies this, keys
      ensures Valid()
      ensures View() == CoreState.RotateKey(old(View()), key, id, useForSending, Value(random))
    {
      keys[id % 4] := NewKey(key, nonceHalf, random);
      if useForSending {
        currentKey := id % 4;
      }
    }

    method EverySecond()
      requires Valid()
      modifies keys
      ensures Valid() && currentKey == old(currentKey)
      ensures View() == CoreState.Tick(old(View()))
    {
      ghost var before := keys[..];
      for i := 0 to 4
        invariant forall j | i <= j < 4 :: keys[j] == before[j]
        invariant forall j | 0 <= j < i :: keys[j].View() == CoreState.TickSlot(before[j].View())
      {
        var key := keys[i];
        var next := Incremented(key.seenNonce);
        keys[i] := key.(minNonce := key.nextMinNonce, nextMinNonce := next);
      }
    }
  }

  /** Sealing in one core and opening in its peer restores payload, start and length of the buffer,
      exactly while the nonce can be deduced and is not pinned. */
  method Transfer(sender: CryptoCore, receiver: CryptoCore, buf: MsgBuffer) returns (failure: Option<CoreState.Failure>)
    requires sender.Valid() && receiver.Valid() && sender.aead == receiver.aead && sender.aead.Lawful()
    requires sender.keys != receiver.keys
    requires CoreState.Paired(sender.View(), receiver.View())
    requires buf.Valid() && buf.start >= EXTRA_LEN && buf.end + TAG_LEN <= buf.buffer.Length
    modifies buf, buf.buffer, sender.keys, receiver.keys
    ensures buf.Valid() && buf.start == old(buf.start) && buf.end == old(buf.end)
    ensures failure.None? ==> buf.Message() == old(buf.Message())
    ensures failure.None? <==>
              var nonce, base := old(CoreState.NextNonce(sender.View())), CoreState.Base(sender.nonceHalf);
              base <= nonce < base + WIRE && old(receiver.View().keys[sender.currentKey].min) <= nonce
  {
    ghost var s, r, data := sender.View(), receiver.View(), buf.Message();
    ghost var frame := CoreState.Encrypt(sender.aead, s, data).1;
    sender.Encrypt(buf);
    FrameBytesRoundTrip(frame);
    CoreState.FrameRoundTrip(sender.aead, s, r, data);
    failure := receiver.Decrypt(buf);
  }
}
