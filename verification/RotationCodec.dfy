/** The bytes of a rotation message. */
module RotationCodec {
  import opened Primitives
  import opened Wire
  import opened Rotation

  /** A length byte and the bytes themselves; the length is truncated to a byte. */
  function WriteKey(key: PublicKey): Bytes {
    [|key| % 256] + key
  }

  function Encode(m: Message): Bytes {
    Be(m.id, 8) + WriteKey(m.propose) + (if m.confirm.Some? then WriteKey(m.confirm.value) else [0])
  }

  /** Reads a length byte and that many bytes; returns the key and the rest. */
  function ReadKey(b: Bytes): Option<(PublicKey, Bytes)> {
    if b == [] || |b| < 1 + b[0] as int then None
    else Some((b[1..1 + b[0] as int], b[1 + b[0] as int..]))
  }

  function Decode(b: Bytes): Option<Message> {
    if |b| < 8 then None
    else
      match ReadKey(b[8..])
      case None => None
      case Some((propose, rest)) =>
        match ReadKey(rest)
        case None => None
        case Some((confirm, _)) =>
          Some(Message(Value(b[..8]), propose, if confirm == [] then None else Some(confirm)))
  }

  lemma ReadWritten(key: PublicKey, rest: Bytes)
    requires |key| < 256
    ensures ReadKey(WriteKey(key) + rest) == Some((key, rest))
  {
    var b := WriteKey(key) + rest;
    assert b[0] == |key|;
    assert b[1..1 + |key|] == key && b[1 + |key|..] == rest;
  }

  /** The messages the format can carry: ids of 64 bits, keys of at most 255 bytes, and no empty
      confirmation. */
  ghost predicate Representable(m: Message) {
    && m.id < Pow256(8) && |m.propose| < 256
    && (m.confirm.Some? ==> 0 < |m.confirm.value| < 256)
  }

  /** The parts of a string made of three and a rest. */
  lemma Behind(a: Bytes, b: Bytes, c: Bytes, rest: Bytes)
    ensures var s := a + b + c + rest; s[..|a|] == a && s[|a|..] == b + (c + rest)
  {
  }

  /** Decoding what starts with an encoding, part by part. */
  lemma DecodeParts(b: Bytes, id: Bytes, propose: PublicKey, confirm: PublicKey, rest: Bytes)
    requires |id| == 8 && |propose| < 256 && |confirm| < 256
    requires b == id + WriteKey(propose) + WriteKey(confirm) + rest
    ensures Decode(b) == Some(Message(Value(id), propose, if confirm == [] then None else Some(confirm)))
  {
    Behind(id, WriteKey(propose), WriteKey(confirm), rest);
    ReadWritten(propose, WriteKey(confirm) + rest);
    ReadWritten(confirm, rest);
  }

  /** A message survives the wire, whatever follows it, exactly if it is representable. */
  lemma RoundTrip(m: Message, rest: Bytes)
    ensures Representable(m) <==> Decode(Encode(m) + rest) == Some(m)
  {
    var b := Encode(m) + rest;
    if Representable(m) {
      var confirm := if m.confirm.Some? then m.confirm.value else [];
      ValueOfBe(m.id, 8);
      DecodeParts(b, Be(m.id, 8), m.propose, confirm, rest);
    } else if Decode(b) == Some(m) {
      DecodedRepresentable(b);
    }
  }

  lemma DecodedRepresentable(b: Bytes)
    requires Decode(b).Some?
    ensures Representable(Decode(b).value)
  {
    ValueBound(b[..8]);
  }

  /** A key that is cut off is not read; one that is not is read with what is left of the rest. */
  lemma ReadCut(key: PublicKey, rest: Bytes, n: nat)
    requires |key| < 256 && n <= 1 + |key| + |rest|
    ensures ReadKey((WriteKey(key) + rest)[..n])
            == if n < 1 + |key| then None else Some((key, rest[..n - 1 - |key|]))
  {
    var b := (WriteKey(key) + rest)[..n];
    if n >= 1 + |key| {
      assert b == WriteKey(key) + rest[..n - 1 - |key|];
      ReadWritten(key, rest[..n - 1 - |key|]);
    } else if n > 0 {
      assert b[0] == |key|;
    }
  }

  lemma CutBehind(a: Bytes, b: Bytes, c: Bytes, n: nat)
    requires |a| <= n <= |a| + |b| + |c|
    ensures (a + b + c)[..n][|a|..] == (b + c)[..n - |a|]
  {
  }

  lemma KeysCut(propose: PublicKey, confirm: PublicKey, n: nat)
    requires |propose| < 256 && |confirm| < 256 && n < 2 + |propose| + |confirm|
    ensures var r := ReadKey((WriteKey(propose) + WriteKey(confirm))[..n]);
            r.None? || ReadKey(r.value.1).None?
  {
    ReadCut(propose, WriteKey(confirm), n);
    if n >= 1 + |propose| {
      assert WriteKey(confirm) + [] == WriteKey(confirm);
      ReadCut(confirm, [], n - 1 - |propose|);
    }
  }

  /** Every strict prefix of an encoding is rejected. */
  lemma PrefixRejected(m: Message, n: nat)
    requires Representable(m) && n < |Encode(m)|
    ensures Decode(Encode(m)[..n]).None?
  {
    var confirm := if m.confirm.Some? then m.confirm.value else [];
    if n >= 8 {
      CutBehind(Be(m.id, 8), WriteKey(m.propose), WriteKey(confirm), n);
      KeysCut(m.propose, confirm, n - 8);
    }
  }
}
