/** Beacons: a peer list, masked with a keystream that a shared key determines, as base-62 text.

The hash function is foreign code and arbitrary here. The block counter of the keystream is a byte
that wraps around. */
module Beacon {
  import opened Primitives
  import opened Wire
  import opened Bits
  import opened Sockets
  import opened Base62

  type Digest = b: Bytes | |b| == 64 witness seq(64, _ => 0)

  const TYPE_DATA: byte := 2
  const TYPE_SEED: byte := 3

  datatype Serializer = Serializer(hash: Bytes -> Digest, key: Bytes) {

    function Keystream(kind: byte, seed: byte, block: byte): Digest {
      hash([kind, seed, block] + key)
    }

    /** The byte that masks position `i`: 16 bytes of each block are used. */
    function MaskByte(seed: byte, i: nat): byte {
      Keystream(TYPE_DATA, seed, Rem(Quot(i, 16), 256))[Rem(i, 16)]
    }

    function Masked(data: Bytes, seed: byte): (r: Bytes)
      ensures |r| == |data|
    {
      seq(|data|, i requires 0 <= i < |data| => Xor(data[i], MaskByte(seed, i)))
    }

    function SeedMask(): byte {
      Keystream(TYPE_SEED, 0, 0)[0]
    }

    /** The masked data and the masked seed, which also is a checksum. */
    function Encrypt(data: Bytes): Bytes {
      var seed := hash(data)[0];
      Masked(data, seed) + [Xor(seed, SeedMask())]
    }

    function Decrypt(data: Bytes): Option<Bytes> {
      if data == [] then None
      else
        var n := |data| - 1;
        var seed := Xor(data[n], SeedMask());
        var plain := Masked(data[..n], seed);
        if seed == hash(plain)[0] then Some(plain) else None
    }

    /** Masking is its own inverse. */
    lemma MaskTwice(data: Bytes, seed: byte)
      ensures Masked(Masked(data, seed), seed) == data
    {
      forall i | 0 <= i < |data|
        ensures Masked(Masked(data, seed), seed)[i] == data[i]
      {
        XorInvolution(data[i], MaskByte(seed, i));
      }
    }

    lemma DecryptEncrypted(data: Bytes)
      ensures Decrypt(Encrypt(data)) == Some(data)
    {
      var seed := hash(data)[0];
      assert Encrypt(data)[..|data|] == Masked(data, seed);
      XorInvolution(seed, SeedMask());
      MaskTwice(data, seed);
    }

    /** What is accepted is exactly what encryption produces. */
    lemma DecryptExact(data: Bytes, plain: Bytes)
      ensures Decrypt(data) == Some(plain) <==> data == Encrypt(plain)
    {
      DecryptEncrypted(plain);
      if Decrypt(data) == Some(plain) {
        var n := |data| - 1;
        MaskTwice(data[..n], Xor(data[n], SeedMask()));
        XorInvolution(data[n], SeedMask());
        assert data == data[..n] + [data[n]];
      }
    }
  }

  // ---- Peer lists ------------------------------------------------------------------------------

  /** Hour, number of IPv4 addresses, IPv4 addresses, IPv6 addresses; the number is truncated to a byte. */
  function Pack(hour: u16, peers: seq<SocketAddr>): Bytes {
    WriteU16(hour) + [Rem(|Only(false, peers)|, 256)] + Addresses(peers)
  }

  function Addresses(peers: seq<SocketAddr>): Bytes {
    WriteAll(Only(false, peers)) + WriteAll(Only(true, peers))
  }

  /** The test of the program: both wrapping differences exceed the time to live. */
  predicate Expired(past: u16, now: u16, ttl: u16) {
    (now - past) % 65536 > ttl && (past - now) % 65536 > ttl
  }

  /** An hour is accepted exactly if some step of at most `ttl` hours, either way around the 16-bit
      clock, leads from it to the current hour. */
  lemma TtlExact(past: u16, now: u16, ttl: u16)
    ensures !Expired(past, now, ttl) <==> exists k: int :: -(ttl as int) <= k <= ttl && Shift(past, k) == now
  {
    if (now - past) % 65536 <= ttl {
      assert Shift(past, (now - past) % 65536) == now;
    } else if (past - now) % 65536 <= ttl {
      assert Shift(past, -((past - now) % 65536)) == now;
    }
  }

  /** The hour `k` hours after another one. */
  function Shift(hour: u16, k: int): u16 {
    (hour + k) % 65536
  }

  /** The announced IPv4 addresses fit, and what remains is a whole number of IPv6 addresses. */
  predicate Whole(n: byte, b: Bytes) {
    6 * n as int <= |b| && Rem(|b| - 6 * n as int, 18) == 0
  }

  function UnpackPeers(n: byte, b: Bytes): seq<SocketAddr> {
    if Whole(n, b)
    then ParseAddrs(false, b[..6 * n as int]) + ParseAddrs(true, b[6 * n as int..])
    else []
  }

  function Unpack(data: Bytes, ttl: Option<u16>, now: u16): seq<SocketAddr>
    requires |data| >= 3
  {
    if ttl.Some? && Expired(ReadU16(data[..2]), now, ttl.value) then [] else UnpackPeers(data[2], data[3..])
  }

  function Encode(s: Serializer, hour: u16, peers: seq<SocketAddr>): string {
    ToText(s.Encrypt(Pack(hour, peers)))
  }

  /** The peers in a data string; the program stops at a character that is no digit. */
  function Decode(s: Serializer, text: string, ttl: Option<u16>, now: u16): seq<SocketAddr>
    requires FromText(text).Ok?
  {
    Open(s, FromText(text).value, ttl, now)
  }

  function Open(s: Serializer, data: Bytes, ttl: Option<u16>, now: u16): seq<SocketAddr> {
    if |data| < 4 then []
    else
      match s.Decrypt(data)
      case None => []
      case Some(plain) => Unpack(plain, ttl, now)
  }

  /** IPv4 peers first, then IPv6 ones, without flow information and scope. */
  function Listed(peers: seq<SocketAddr>): seq<SocketAddr> {
    PlainAll(Only(false, peers)) + PlainAll(Only(true, peers))
  }

  lemma {:induction false} RemMultiple(k: nat, m: nat)
    requires m > 0
    ensures Rem(k * m, m) == 0
  {
    if k > 0 {
      RemMultiple(k - 1, m);
      assert k * m == (k - 1) * m + m;
    }
  }

  lemma UnpackWritten(peers: seq<SocketAddr>)
    requires |Only(false, peers)| <= 255
    ensures UnpackPeers(|Only(false, peers)|, Addresses(peers)) == Listed(peers)
  {
    var v4, v6 := Only(false, peers), Only(true, peers);
    UnpackKinds(v4, WriteAll(v4), v6, WriteAll(v6));
  }

  lemma UnpackKinds(v4: seq<SocketAddr>, a: Bytes, v6: seq<SocketAddr>, b: Bytes)
    requires |v4| <= 255 && a == WriteAll(v4) && b == WriteAll(v6)
    requires forall i | 0 <= i < |v4| :: v4[i].V4?
    requires forall i | 0 <= i < |v6| :: v6[i].V6?
    ensures UnpackPeers(|v4|, a + b) == PlainAll(v4) + PlainAll(v6)
  {
    WriteAllSize(v4, false);
    WriteAllSize(v6, true);
    UnpackBytes(|v4|, a, |v6|, b);
    ParseWritten(v4, false);
    ParseWritten(v6, true);
  }

  lemma UnpackBytes(n4: byte, a: Bytes, n6: nat, b: Bytes)
    requires |a| == 6 * n4 as int && |b| == n6 * 18
    ensures UnpackPeers(n4, a + b) == ParseAddrs(false, a) + ParseAddrs(true, b)
  {
    assert (a + b)[..|a|] == a && (a + b)[|a|..] == b;
    RemMultiple(n6, 18);
  }

  /** A whole number of addresses gives that number of addresses, all of the wanted kind. */
  lemma {:induction false} ParseCount(v6: bool, b: Bytes, k: nat)
    requires |b| == k * Size(v6)
    ensures |ParseAddrs(v6, b)| == k && forall i | 0 <= i < k :: ParseAddrs(v6, b)[i].V6? == v6
    decreases k
  {
    if k > 0 {
      CountDown(k, Size(v6));
      ParseCount(v6, b[Size(v6)..], k - 1);
    }
  }

  lemma CountDown(n: nat, size: nat)
    requires n > 0
    ensures n * size == size + (n - 1) * size
  {
  }

  /** A list of IPv4 addresses followed by IPv6 ones splits in one way only. */
  lemma KindsUnique(a: seq<SocketAddr>, b: seq<SocketAddr>, v4: seq<SocketAddr>, v6: seq<SocketAddr>)
    requires a + b == v4 + v6
    requires forall i | 0 <= i < |a| :: !a[i].V6?
    requires forall i | 0 <= i < |v4| :: !v4[i].V6?
    requires forall i | 0 <= i < |b| :: b[i].V6?
    requires forall i | 0 <= i < |v6| :: v6[i].V6?
    ensures |a| == |v4| && |b| == |v6|
  {
    KindAt(a, b);
    KindAt(v4, v6);
    var all, i := a + b, if |a| < |v4| then |a| else |v4|;
    assert i < |all| ==> (all[i].V6? <==> i >= |a|) && (all[i].V6? <==> i >= |v4|);
  }

  lemma KindAt(v4: seq<SocketAddr>, v6: seq<SocketAddr>)
    requires forall i | 0 <= i < |v4| :: !v4[i].V6?
    requires forall i | 0 <= i < |v6| :: v6[i].V6?
    ensures forall i | 0 <= i < |v4 + v6| :: (v4 + v6)[i].V6? <==> i >= |v4|
  {
  }

  /** Only their own number of bytes, with their own count in front, unpacks to some peers. */
  lemma UnpackedSize(n: byte, b: Bytes, v4: seq<SocketAddr>, v6: seq<SocketAddr>)
    requires forall i | 0 <= i < |v4| :: !v4[i].V6?
    requires forall i | 0 <= i < |v6| :: v6[i].V6?
    requires |v4| + |v6| > 0 && UnpackPeers(n, b) == v4 + v6
    ensures n as int == |v4| && |b| == |v4| * 6 + |v6| * 18
  {
    var k := 6 * n as int;
    QuotRem(|b| - k, 18);
    var m := Quot(|b| - k, 18);
    ParseCount(false, b[..k], n);
    ParseCount(true, b[k..], m);
    KindsUnique(ParseAddrs(false, b[..k]), ParseAddrs(true, b[k..]), v4, v6);
  }

  /** So bytes of another length, or with another count, never unpack to a list that is not empty. */
  lemma OthersLose(n: byte, b: Bytes, peers: seq<SocketAddr>)
    requires peers != []
    requires n as int != |Only(false, peers)| || |b| != |Addresses(peers)|
    ensures UnpackPeers(n, b) != Listed(peers)
  {
    ListedKinds(peers);
    if UnpackPeers(n, b) == Listed(peers) {
      UnpackedSize(n, b, PlainAll(Only(false, peers)), PlainAll(Only(true, peers)));
    }
  }

  lemma ListedKinds(peers: seq<SocketAddr>)
    ensures var v4, v6 := PlainAll(Only(false, peers)), PlainAll(Only(true, peers));
            && |v4| == |Only(false, peers)| && |v6| == |Only(true, peers)|
            && |Addresses(peers)| == |v4| * 6 + |v6| * 18
            && (forall i | 0 <= i < |v4| :: !v4[i].V6?) && (forall i | 0 <= i < |v6| :: v6[i].V6?)
            && (peers != [] ==> |v4| + |v6| > 0)
  {
    PlainKind(Only(false, peers), false);
    PlainKind(Only(true, peers), true);
    PlainSize(Only(false, peers));
    PlainSize(Only(true, peers));
    WriteAllSize(Only(false, peers), false);
    WriteAllSize(Only(true, peers), true);
  }

  lemma {:induction false} PlainSize(s: seq<SocketAddr>)
    ensures |PlainAll(s)| == |s|
  {
    if s != [] {
      PlainSize(s[1..]);
    }
  }

  lemma UnpackPacked(hour: u16, peers: seq<SocketAddr>, ttl: Option<u16>, now: u16)
    ensures |Pack(hour, peers)| >= 3
    ensures Unpack(Pack(hour, peers), ttl, now)
            == if ttl.Some? && Expired(hour, now, ttl.value) then []
               else UnpackPeers(Rem(|Only(false, peers)|, 256), Addresses(peers))
  {
    var data := Pack(hour, peers);
    assert data[..2] == WriteU16(hour) && data[2] == Rem(|Only(false, peers)|, 256) && data[3..] == Addresses(peers);
    U16RoundTrip(hour);
  }

  /** Whatever is packed comes back to the unpacker, unless the masked data starts with a zero byte,
      which base-62 text does not keep. */
  lemma Carried(s: Serializer, hour: u16, peers: seq<SocketAddr>, ttl: Option<u16>, now: u16)
    requires s.Encrypt(Pack(hour, peers))[0] != 0
    ensures FromText(Encode(s, hour, peers)).Ok?
    ensures Decode(s, Encode(s, hour, peers), ttl, now)
            == if ttl.Some? && Expired(hour, now, ttl.value) then []
               else UnpackPeers(Rem(|Only(false, peers)|, 256), Addresses(peers))
  {
    var plain := Pack(hour, peers);
    BytesRoundTrip(s.Encrypt(plain));
    s.DecryptEncrypted(plain);
    UnpackPacked(hour, peers, ttl, now);
  }

  /** The text carries the masked data exactly if that does not start with a zero byte. */
  lemma CarriedExact(s: Serializer, hour: u16, peers: seq<SocketAddr>)
    ensures FromText(Encode(s, hour, peers)) == Ok(s.Encrypt(Pack(hour, peers)))
            <==> s.Encrypt(Pack(hour, peers))[0] != 0
  {
    var data := s.Encrypt(Pack(hour, peers));
    BytesRoundTrip(data);
    StripShorter(data[1..]);
  }

  lemma {:induction false} StripShorter(s: seq<int>)
    ensures |Strip(s)| <= |s|
  {
    if s != [] {
      StripShorter(s[1..]);
    }
  }

  /** Whatever the hash and the key: masked data that starts with a zero byte loses its peers. */
  lemma ZeroByteLoses(s: Serializer, hour: u16, peers: seq<SocketAddr>, ttl: Option<u16>, now: u16)
    requires s.Encrypt(Pack(hour, peers))[0] == 0 && peers != []
    ensures FromText(Encode(s, hour, peers)).Ok?
    ensures Decode(s, Encode(s, hour, peers), ttl, now) != Listed(peers)
  {
    var data := s.Encrypt(Pack(hour, peers));
    BytesRoundTrip(data);
    StripShorter(data[1..]);
    ShorterLoses(s, FromText(Encode(s, hour, peers)).value, hour, peers, ttl, now);
  }

  /** So does any shorter string of bytes. */
  lemma ShorterLoses(s: Serializer, data: Bytes, hour: u16, peers: seq<SocketAddr>, ttl: Option<u16>, now: u16)
    requires |data| <= |Pack(hour, peers)| && peers != []
    ensures Open(s, data, ttl, now) != Listed(peers)
  {
    ListedKinds(peers);
    if |data| >= 4 && s.Decrypt(data).Some? {
      var plain := s.Decrypt(data).value;
      OthersLose(plain[2], plain[3..], peers);
    }
  }

  /** No peers come back as no peers, whatever happens on the way. */
  lemma NoneListed(s: Serializer, hour: u16, ttl: Option<u16>, now: u16)
    ensures FromText(Encode(s, hour, [])).Ok? && Decode(s, Encode(s, hour, []), ttl, now) == Listed([]) == []
  {
    var data := s.Encrypt(Pack(hour, []));
    if data[0] == 0 {
      BytesRoundTrip(data);
      StripShorter(data[1..]);
    } else {
      Carried(s, hour, [], ttl, now);
      UnpackWritten([]);
    }
  }

  /** For every key, hour and peer list: decoding gives back the peers, IPv4 ones first, exactly if
      there are none, or the masked data does not start with a zero byte, a byte can count the IPv4
      ones and the beacon is not expired. */
  lemma RoundTripExact(s: Serializer, hour: u16, peers: seq<SocketAddr>, ttl: Option<u16>, now: u16)
    ensures FromText(Encode(s, hour, peers)).Ok?
    ensures Decode(s, Encode(s, hour, peers), ttl, now) == Listed(peers)
            <==> || peers == []
                 || (&& s.Encrypt(Pack(hour, peers))[0] != 0 && |Only(false, peers)| <= 255
                     && (ttl.Some? ==> !Expired(hour, now, ttl.value)))
  {
    if peers == [] {
      NoneListed(s, hour, ttl, now);
    } else if s.Encrypt(Pack(hour, peers))[0] == 0 {
      ZeroByteLoses(s, hour, peers, ttl, now);
    } else {
      Carried(s, hour, peers, ttl, now);
      ListedKinds(peers);
      if |Only(false, peers)| <= 255 {
        UnpackWritten(peers);
      } else {
        OthersLose(Rem(|Only(false, peers)|, 256), Addresses(peers), peers);
      }
    }
  }

  /** An expired beacon gives no peers. */
  lemma ExpiredEmpty(s: Serializer, hour: u16, peers: seq<SocketAddr>, ttl: u16, now: u16)
    requires s.Encrypt(Pack(hour, peers))[0] != 0 && Expired(hour, now, ttl)
    ensures FromText(Encode(s, hour, peers)).Ok? && Decode(s, Encode(s, hour, peers), Some(ttl), now) == []
  {
    Carried(s, hour, peers, Some(ttl), now);
  }

  // ---- The loops of the program ----------------------------------------------------------------

  /** Masks a byte array in place. */
  method MaskWithKeystream(s: Serializer, data: array<byte>, seed: byte)
    modifies data
    ensures data[..] == s.Masked(old(data[..]), seed)
  {
    var iter: byte := 0;
    var mask := s.Keystream(TYPE_DATA, seed, iter);
    var pos := 0;
    for i := 0 to data.Length
      invariant pos == Rem(i, 16) && iter == Rem(Quot(i, 16), 256) && mask == s.Keystream(TYPE_DATA, seed, iter)
      invariant forall j | 0 <= j < i :: data[j] == Xor(old(data[j]), s.MaskByte(seed, j))
      invariant forall j | i <= j < data.Length :: data[j] == old(data[j])
    {
      data[i] := Xor(data[i], mask[pos]);
      QuotNext(i, 16);
      pos := pos + 1;
      if pos == 16 {
        QuotNext(Quot(i, 16), 256);
        pos := 0;
        iter := if iter == 255 then 0 else iter + 1;
        mask := s.Keystream(TYPE_DATA, seed, iter);
      }
    }
  }

  method EncryptData(s: Serializer, data: Bytes) returns (r: Bytes)
    ensures r == s.Encrypt(data)
  {
    var seed := s.hash(data)[0];
    var a := new byte[|data|](i requires 0 <= i < |data| => data[i]);
    assert a[..] == data;
    MaskWithKeystream(s, a, seed);
    r := a[..] + [Xor(seed, s.Keystream(TYPE_SEED, 0, 0)[0])];
  }

  method DecryptData(s: Serializer, data: Bytes) returns (r: Option<Bytes>)
    ensures r == s.Decrypt(data)
  {
    if data == [] {
      return None;
    }
    var n := |data| - 1;
    var seed := Xor(data[n], s.Keystream(TYPE_SEED, 0, 0)[0]);
    var a := new byte[n](i requires 0 <= i < n => data[i]);
    assert a[..] == data[..n];
    MaskWithKeystream(s, a, seed);
    r := if seed == s.hash(a[..])[0] then Some(a[..]) else None;
  }

  method PeerlistEncode(s: Serializer, hour: u16, peers: seq<SocketAddr>) returns (text: string)
    ensures text == Encode(s, hour, peers)
  {
    var v4, v6 := Split(peers);
    RemIsTruncation(|v4|);
    var data := WriteU16(hour) + [|v4| % 256];
    ghost var head := data;
    data := AppendAddrs(data, v4);
    data := AppendAddrs(data, v6);
    Assoc(head, WriteAll(v4), WriteAll(v6));
    data := EncryptData(s, data);
    text := ToBase62(data);
  }

  lemma RemIsTruncation(n: nat)
    ensures Rem(n, 256) == n % 256
  {
    QuotIsDivision(n, 256);
  }

  method AppendAddrs(data: Bytes, addrs: seq<SocketAddr>) returns (r: Bytes)
    ensures r == data + WriteAll(addrs)
  {
    r := data;
    for i := 0 to |addrs|
      invariant r + WriteAll(addrs[i..]) == data + WriteAll(addrs)
    {
      assert addrs[i..][1..] == addrs[i + 1..];
      Assoc(r, WriteAddr(addrs[i]), WriteAll(addrs[i + 1..]));
      r := r + WriteAddr(addrs[i]);
    }
    assert r + [] == r;
  }

  /** Reads a number of addresses of one kind from a position on; the length check in the loop never fails. */
  method TakeAddrs(data: Bytes, start: nat, v6: bool, count: nat) returns (peers: seq<SocketAddr>)
    requires start + count * Size(v6) <= |data|
    ensures peers == ParseAddrs(v6, data[start..start + count * Size(v6)])
  {
    peers := [];
    var pos := start;
    ghost var end := start + count * Size(v6);
    ghost var rest := data[start..end];
    for i := 0 to count
      invariant start <= pos <= end && rest == data[pos..end] && |rest| == (count - i) * Size(v6)
      invariant peers + ParseAddrs(v6, rest) == ParseAddrs(v6, data[start..end])
    {
      CountDown(count - i, Size(v6));
      assert |data| >= pos + Size(v6);
      var dat := data[pos..pos + Size(v6)];
      assert rest[..Size(v6)] == dat && rest[Size(v6)..] == data[pos + Size(v6)..end];
      pos, rest := pos + Size(v6), rest[Size(v6)..];
      var port := ReadU16(dat[Size(v6) - 2..]);
      var addr := if v6 then V6(dat[..16], port, 0, 0) else V4(dat[..4], port);
      Glue(peers, addr, ParseAddrs(v6, rest));
      peers := peers + [addr];
    }
    assert peers + [] == peers;
  }

  lemma Glue(a: seq<SocketAddr>, x: SocketAddr, b: seq<SocketAddr>)
    ensures a + ([x] + b) == (a + [x]) + b
  {
  }

  method PeerlistDecode(s: Serializer, text: string, ttl: Option<u16>, now: u16) returns (peers: seq<SocketAddr>)
    requires FromText(text).Ok?
    ensures peers == Decode(s, text, ttl, now)
  {
    var bytes := FromBase62(text);
    if |bytes.value| < 4 {
      return [];
    }
    var data := DecryptData(s, bytes.value);
    if data.None? {
      return [];
    }
    peers := UnpackData(data.value, ttl, now);
  }

  method UnpackData(data: Bytes, ttl: Option<u16>, now: u16) returns (peers: seq<SocketAddr>)
    requires |data| >= 3
    ensures peers == Unpack(data, ttl, now)
  {
    var past := ReadU16(data[..2]);
    if ttl.Some? && (now - past) % 65536 > ttl.value && (past - now) % 65536 > ttl.value {
      return [];
    }
    peers := UnpackAddrs(data);
  }

  method UnpackAddrs(data: Bytes) returns (peers: seq<SocketAddr>)
    requires |data| >= 3
    ensures peers == UnpackPeers(data[2], data[3..])
  {
    var n: int := data[2];
    if n * 6 > |data| - 3 {
      return [];
    }
    var left := |data| - 3 - n * 6;
    QuotIsDivision(left, 18);
    if left % 18 > 0 {
      return [];
    }
    var v4 := TakeAddrs(data, 3, false, n);
    var v6 := TakeAddrs(data, 3 + n * 6, true, left / 18);
    assert data[3..] == data[3..3 + n * 6] + data[3 + n * 6..3 + n * 6 + left];
    UnpackBytes(data[2], data[3..3 + n * 6], left / 18, data[3 + n * 6..3 + n * 6 + left]);
    peers := v4 + v6;
  }
}
