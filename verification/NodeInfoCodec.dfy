/** Node information is written into a message buffer, part lengths being patched in afterwards, and
read by loops over a limited reader. */
module NodeInfoCodec {
  import opened Primitives
  import opened Wire
  import opened Ranges
  import opened Sockets
  import opened NodeInfo
  import CryptoCore

  // ---- Writing ---------------------------------------------------------------------------------

  /** A position in a buffer; writing overwrites what is there. */
  class Cursor {
    const data: array<byte>
    const base: nat
    var pos: nat

    ghost predicate Valid()
      reads this
    {
      base <= pos <= data.Length
    }

    /** What has been written from the start of the cursor up to its position. */
    ghost function Written(): Bytes
      requires Valid()
      reads this, data
    {
      data[base..pos]
    }

    /** The bytes in front of the cursor's start. */
    ghost function Before(): Bytes
      requires Valid()
      reads this, data
    {
      data[..base]
    }

    constructor (data: array<byte>, base: nat)
      requires base <= data.Length
      ensures Valid() && this.data == data && this.base == base && Written() == [] && Before() == data[..base]
    {
      this.data, this.base, pos := data, base, base;
    }

    /** Writes at the position and moves it. */
    method Write(b: Bytes)
      requires Valid() && pos + |b| <= data.Length
      modifies this, data
      ensures Valid() && pos == old(pos) + |b|
      ensures data[old(pos)..pos] == b
      ensures forall i | 0 <= i < data.Length && !(old(pos) <= i < pos) :: data[i] == old(data[i])
      ensures Written() == old(Written()) + b && Before() == old(Before())
    {
      CryptoCore.WriteAt(data, pos, b);
      pos := pos + |b|;
    }

    /** Tag and a length of zero, to be patched. */
    method BeginPart(tag: byte) returns (start: nat)
      requires Valid() && pos + 3 <= data.Length
      modifies this, data
      ensures Valid() && start == pos == old(pos) + 3
      ensures Written() == old(Written()) + [tag, 0, 0]
      ensures Before() == old(Before())
    {
      Write([tag]);
      Write(WriteU16(0));
      start := pos;
    }

    /** Goes back to write the length of what follows `start`, then to the end again. */
    method EndPart(start: nat, ghost before: Bytes, ghost tag: byte, ghost content: Bytes)
      requires Valid() && Written() == before + [tag, 0, 0] + content
      requires start == base + |before| + 3
      modifies this, data
      ensures Valid() && pos == old(pos)
      ensures Written() == before + Part(tag, content)
      ensures Before() == old(Before())
    {
      var end := pos;
      ghost var was := Written();
      pos := start - 2;
      Write(WriteU16(end - start));
      pos := end;
      ghost var k := |before| + 1;
      assert Written()[k] == data[base + k] && Written()[k + 1] == data[base + k + 1];
      Patched(was, Written(), before, tag, content, WriteU16(|content|));
    }
  }

  /** Overwriting the two bytes behind the tag of a part. */
  lemma Patched(was: Bytes, now: Bytes, before: Bytes, tag: byte, content: Bytes, patch: Bytes)
    requires was == before + [tag, 0, 0] + content && |now| == |was| && |patch| == 2
    requires forall i | 0 <= i < |was| && i != |before| + 1 && i != |before| + 2 :: now[i] == was[i]
    requires now[|before| + 1] == patch[0] && now[|before| + 2] == patch[1]
    ensures now == before + ([tag] + patch + content)
  {
    var k := |before| + 1;
    assert now[..k] == before + [tag];
    assert now[k..k + 2] == patch;
    assert now[k + 2..] == content;
    assert now == now[..k] + now[k..k + 2] + now[k + 2..];
  }

  /** Splits an address list and drops the last ones until at most seven of each kind are left. */
  method SplitList(addrs: seq<SocketAddr>) returns (v4: seq<SocketAddr>, v6: seq<SocketAddr>)
    ensures v4 == UpTo7(Only(false, addrs)) && v6 == UpTo7(Only(true, addrs))
  {
    v4, v6 := Split(addrs);
    while |v4| >= 8
      invariant v4 <= Only(false, addrs)
      invariant |v4| >= 7 || v4 == Only(false, addrs)
    {
      v4 := v4[..|v4| - 1];
    }
    while |v6| >= 8
      invariant v6 <= Only(true, addrs)
      invariant |v6| >= 7 || v6 == Only(true, addrs)
    {
      v6 := v6[..|v6| - 1];
    }
  }

  method PutAddrs(c: Cursor, addrs: seq<SocketAddr>)
    requires c.Valid() && c.pos + |WriteAll(addrs)| <= c.data.Length
    modifies c, c.data
    ensures c.Valid() && c.Written() == old(c.Written()) + WriteAll(addrs)
    ensures c.pos == old(c.pos) + |WriteAll(addrs)|
    ensures c.Before() == old(c.Before())
  {
    ghost var all := c.Written() + WriteAll(addrs);
    for i := 0 to |addrs|
      invariant c.Valid() && c.Written() + WriteAll(addrs[i..]) == all
      invariant c.Before() == old(c.Before())
    {
      assert addrs[i..][1..] == addrs[i + 1..];
      Assoc(c.Written(), WriteAddr(addrs[i]), WriteAll(addrs[i + 1..]));
      assert c.base + |all| <= c.data.Length;
      c.Write(WriteAddr(addrs[i]));
    }
    assert c.Written() + [] == c.Written();
  }

  method PutList(c: Cursor, v6: seq<SocketAddr>, v4: seq<SocketAddr>)
    requires c.Valid() && c.pos + |WriteAll(v6)| + |WriteAll(v4)| <= c.data.Length
    modifies c, c.data
    ensures c.Valid() && c.Written() == old(c.Written()) + (WriteAll(v6) + WriteAll(v4))
    ensures c.pos == old(c.pos) + |WriteAll(v6) + WriteAll(v4)|
    ensures c.Before() == old(c.Before())
  {
    ghost var before := c.Written();
    PutAddrs(c, v6);
    assert c.pos == c.base + |c.Written()|;
    PutAddrs(c, v4);
    Assoc(before, WriteAll(v6), WriteAll(v4));
  }

  method PutPeer(c: Cursor, p: PeerInfo)
    requires c.Valid() && c.pos + |WritePeer(p)| <= c.data.Length
    modifies c, c.data
    ensures c.Valid() && c.Written() == old(c.Written()) + WritePeer(p)
    ensures c.pos == old(c.pos) + |WritePeer(p)|
    ensures c.Before() == old(c.Before())
  {
    var v4, v6 := SplitList(p.addrs);
    var flags := |v6| * 8 + |v4|;
    if p.nodeId.Some? {
      flags := flags + 0x80;
    }
    PutFlagged(c, flags, p.nodeId, v6, v4);
  }

  method PutFlagged(c: Cursor, flags: byte, id: Option<NodeId>, v6: seq<SocketAddr>, v4: seq<SocketAddr>)
    requires c.Valid() && c.pos + 1 + |WriteId(id)| + |WriteAll(v6)| + |WriteAll(v4)| <= c.data.Length
    modifies c, c.data
    ensures c.Valid()
    ensures c.Written() == old(c.Written()) + (([flags] + WriteId(id)) + (WriteAll(v6) + WriteAll(v4)))
    ensures c.pos == old(c.pos) + 1 + |WriteId(id)| + |WriteAll(v6)| + |WriteAll(v4)|
    ensures c.Before() == old(c.Before())
  {
    PutHead(c, flags, id);
    PutList(c, v6, v4);
    Assoc(old(c.Written()), [flags] + WriteId(id), WriteAll(v6) + WriteAll(v4));
  }

  method PutHead(c: Cursor, flags: byte, id: Option<NodeId>)
    requires c.Valid() && c.pos + 1 + |WriteId(id)| <= c.data.Length
    modifies c, c.data
    ensures c.Valid() && c.Written() == old(c.Written()) + ([flags] + WriteId(id))
    ensures c.pos == old(c.pos) + |[flags] + WriteId(id)|
    ensures c.Before() == old(c.Before())
  {
    c.Write([flags]);
    if id.Some? {
      c.Write(id.value);
    }
    assert c.Written() == old(c.Written()) + ([flags] + WriteId(id));
  }

  method PutOwnAddrs(c: Cursor, addrs: seq<SocketAddr>)
    requires c.Valid() && c.pos + |WriteAddrs(addrs)| <= c.data.Length
    modifies c, c.data
    ensures c.Valid() && c.Written() == old(c.Written()) + WriteAddrs(addrs)
    ensures c.pos == old(c.pos) + |WriteAddrs(addrs)|
    ensures c.Before() == old(c.Before())
  {
    var v4, v6 := SplitList(addrs);
    var flags := |v6| * 8 + |v4|;
    ghost var list := WriteAll(v6) + WriteAll(v4);
    assert WriteAddrs(addrs) == [flags] + list;
    c.Write([flags]);
    PutList(c, v6, v4);
    Assoc(old(c.Written()), [flags], list);
  }

  method PutPeers(c: Cursor, peers: seq<PeerInfo>)
    requires c.Valid() && c.pos + |WritePeers(peers)| <= c.data.Length
    modifies c, c.data
    ensures c.Valid() && c.Written() == old(c.Written()) + WritePeers(peers)
    ensures c.pos == old(c.pos) + |WritePeers(peers)|
    ensures c.Before() == old(c.Before())
  {
    ghost var all := c.Written() + WritePeers(peers);
    for i := 0 to |peers|
      invariant c.Valid() && c.Written() + WritePeers(peers[i..]) == all
      invariant c.Before() == old(c.Before())
    {
      assert peers[i..][1..] == peers[i + 1..];
      Assoc(c.Written(), WritePeer(peers[i]), WritePeers(peers[i + 1..]));
      assert c.base + |all| <= c.data.Length;
      PutPeer(c, peers[i]);
    }
    assert c.Written() + [] == c.Written();
  }

  method PutClaim(c: Cursor, r: Range)
    requires c.Valid() && c.pos + |WriteClaim(r)| <= c.data.Length
    modifies c, c.data
    ensures c.Valid() && c.Written() == old(c.Written()) + WriteClaim(r)
    ensures c.pos == old(c.pos) + |WriteClaim(r)|
    ensures c.Before() == old(c.Before())
  {
    c.Write([|r.base|]);
    c.Write(r.base);
    c.Write([r.prefixLen]);
    assert c.Written() == old(c.Written()) + WriteClaim(r);
  }

  method PutClaims(c: Cursor, claims: seq<Range>)
    requires c.Valid() && c.pos + |WriteClaims(claims)| <= c.data.Length
    modifies c, c.data
    ensures c.Valid() && c.Written() == old(c.Written()) + WriteClaims(claims)
    ensures c.pos == old(c.pos) + |WriteClaims(claims)|
    ensures c.Before() == old(c.Before())
  {
    ghost var all := c.Written() + WriteClaims(claims);
    for i := 0 to |claims|
      invariant c.Valid() && c.Written() + WriteClaims(claims[i..]) == all
      invariant c.Before() == old(c.Before())
    {
      assert claims[i..][1..] == claims[i + 1..];
      Assoc(c.Written(), WriteClaim(claims[i]), WriteClaims(claims[i + 1..]));
      assert c.base + |all| <= c.data.Length;
      PutClaim(c, claims[i]);
    }
    assert c.Written() + [] == c.Written();
  }

  /** The three kinds of list part: each writes its tag, its content and patches the length. */
  method PutPeersPart(c: Cursor, peers: seq<PeerInfo>)
    requires c.Valid() && c.pos + |Part(PEERS, WritePeers(peers))| <= c.data.Length
    modifies c, c.data
    ensures c.Valid() && c.Written() == old(c.Written()) + Part(PEERS, WritePeers(peers))
    ensures c.pos == old(c.pos) + |Part(PEERS, WritePeers(peers))|
    ensures c.Before() == old(c.Before())
  {
    ghost var before := c.Written();
    var start := c.BeginPart(PEERS);
    PutPeers(c, peers);
    c.EndPart(start, before, PEERS, WritePeers(peers));
  }

  method PutClaimsPart(c: Cursor, claims: seq<Range>)
    requires c.Valid() && c.pos + |Part(CLAIMS, WriteClaims(claims))| <= c.data.Length
    modifies c, c.data
    ensures c.Valid() && c.Written() == old(c.Written()) + Part(CLAIMS, WriteClaims(claims))
    ensures c.pos == old(c.pos) + |Part(CLAIMS, WriteClaims(claims))|
    ensures c.Before() == old(c.Before())
  {
    ghost var before := c.Written();
    var start := c.BeginPart(CLAIMS);
    PutClaims(c, claims);
    c.EndPart(start, before, CLAIMS, WriteClaims(claims));
  }

  method PutAddrsPart(c: Cursor, addrs: seq<SocketAddr>)
    requires c.Valid() && c.pos + |Part(ADDRS, WriteAddrs(addrs))| <= c.data.Length
    modifies c, c.data
    ensures c.Valid() && c.Written() == old(c.Written()) + Part(ADDRS, WriteAddrs(addrs))
    ensures c.pos == old(c.pos) + |Part(ADDRS, WriteAddrs(addrs))|
    ensures c.Before() == old(c.Before())
  {
    ghost var before := c.Written();
    var start := c.BeginPart(ADDRS);
    PutOwnAddrs(c, addrs);
    c.EndPart(start, before, ADDRS, WriteAddrs(addrs));
  }

  /** The parts of fixed size. */
  method PutBytesPart(c: Cursor, tag: byte, content: Bytes)
    requires c.Valid() && c.pos + |Part(tag, content)| <= c.data.Length
    modifies c, c.data
    ensures c.Valid() && c.Written() == old(c.Written()) + Part(tag, content)
    ensures c.pos == old(c.pos) + |Part(tag, content)|
    ensures c.Before() == old(c.Before())
  {
    ghost var before := c.Written();
    var start := c.BeginPart(tag);
    c.Write(content);
    c.EndPart(start, before, tag, content);
  }

  method PutTimeout(c: Cursor, timeout: Option<u16>)
    requires c.Valid() && c.pos + |Timeout(timeout)| <= c.data.Length
    modifies c, c.data
    ensures c.Valid() && c.Written() == old(c.Written()) + Timeout(timeout)
    ensures c.pos == old(c.pos) + |Timeout(timeout)|
    ensures c.Before() == old(c.Before())
  {
    if timeout.Some? {
      PutBytesPart(c, PEER_TIMEOUT, WriteU16(timeout.value));
    }
  }

  method PutFront(c: Cursor, n: NodeInfo, ghost front: Bytes)
    requires c.Valid() && front == Front(n) && c.pos + |front| <= c.data.Length
    modifies c, c.data
    ensures c.Valid() && c.Before() == old(c.Before())
    ensures c.Written() == old(c.Written()) + front && c.pos == old(c.pos) + |front|
  {
    ghost var w, a := c.Written(), Part(NODEID, n.nodeId);
    ghost var p, r := Part(PEERS, WritePeers(n.peers)), Part(CLAIMS, WriteClaims(n.claims));
    PutBytesPart(c, NODEID, n.nodeId);
    PutPeersPart(c, n.peers);
    PutClaimsPart(c, n.claims);
    Assoc3(w, a, p, r);
  }

  method PutBack(c: Cursor, n: NodeInfo, ghost back: Bytes)
    requires c.Valid() && back == Back(n) && c.pos + |back| <= c.data.Length
    modifies c, c.data
    ensures c.Valid() && c.Before() == old(c.Before())
    ensures c.Written() == old(c.Written()) + back && c.pos == old(c.pos) + |back|
  {
    ghost var w, t, a := c.Written(), Timeout(n.timeout), Part(ADDRS, WriteAddrs(n.addrs));
    PutTimeout(c, n.timeout);
    PutAddrsPart(c, n.addrs);
    c.Write([END]);
    Assoc3(w, t, a, [END]);
  }

  method PutAll(c: Cursor, n: NodeInfo, ghost front: Bytes, ghost back: Bytes)
    requires c.Valid() && front == Front(n) && back == Back(n) && c.pos + |front| + |back| <= c.data.Length
    requires c.Written() == []
    modifies c, c.data
    ensures c.Valid() && c.Before() == old(c.Before()) && c.Written() == front + back
  {
    PutFront(c, n, front);
    NothingBefore(front);
    PutBack(c, n, back);
  }

  lemma NothingBefore(b: Bytes)
    ensures [] + b == b
  {
  }

  /** Replaces the message of a buffer by the encoding. The program stops if it does not fit. */
  method EncodeInto(n: NodeInfo, buffer: CryptoCore.MsgBuffer)
    requires buffer.Valid() && buffer.start + |Encode(n)| <= buffer.buffer.Length
    modifies buffer`end, buffer.buffer
    ensures buffer.Valid() && buffer.Message() == Encode(n)
    ensures buffer.buffer[..buffer.start] == old(buffer.buffer[..buffer.start])
  {
    EncodeParts(n, buffer, Front(n), Back(n));
  }

  method EncodeParts(n: NodeInfo, buffer: CryptoCore.MsgBuffer, ghost front: Bytes, ghost back: Bytes)
    requires buffer.Valid() && front == Front(n) && back == Back(n)
    requires buffer.start + |front| + |back| <= buffer.buffer.Length
    modifies buffer`end, buffer.buffer
    ensures buffer.Valid() && buffer.Message() == front + back
    ensures buffer.buffer[..buffer.start] == old(buffer.buffer[..buffer.start])
  {
    var c := new Cursor(buffer.buffer, buffer.start);
    PutAll(c, n, front, back);
    buffer.end := c.pos;
  }

  // ---- Reading ---------------------------------------------------------------------------------

  /** A method found what a reading of the format gives. */
  ghost predicate Found<T(!new)>(r: Option<T>, now: Source, spec: Parsed<T, Source>) {
    match spec
    case Failed => r.None?
    case Got(v, rest) => r == Some(v) && now == rest
  }

  /** A reader over the message, with the number of bytes the current part may still use. */
  class Reader {
    const data: Bytes
    var pos: nat
    var limit: nat

    ghost predicate Valid()
      reads this
    {
      pos <= |data|
    }

    ghost function View(): Source
      requires Valid()
      reads this
    {
      Source(data[pos..], limit)
    }

    constructor (data: Bytes)
      ensures Valid() && this.data == data && View() == Source(data, |data|)
    {
      this.data, pos, limit := data, 0, |data|;
    }

    method ReadExact(k: nat) returns (r: Option<Bytes>)
      requires Valid()
      modifies this
      ensures Valid() && Found(r, View(), Read(old(View()), k))
    {
      if k > limit || k > |data| - pos {
        return None;
      }
      r := Some(data[pos..pos + k]);
      assert data[pos..][..k] == data[pos..pos + k] && data[pos..][k..] == data[pos + k..];
      pos, limit := pos + k, limit - k;
    }
  }

  /** Reading in two steps is reading at once. */
  lemma ReadTwice(src: Source, j: nat, k: nat)
    ensures Read(src, j + k)
            == match Read(src, j)
               case Failed => Failed
               case Got(a, src1) =>
                 match Read(src1, k)
                 case Failed => Failed
                 case Got(b, src2) => Got(a + b, src2)
  {
    var b := src.bytes;
    if j + k <= |b| {
      assert b[..j + k] == b[..j] + b[j..][..k] && b[j + k..] == b[j..][k..];
    }
  }

  function GotAddr(v6: bool, r: Parsed<Bytes, Source>): Parsed<SocketAddr, Source>
    requires r.Got? ==> |r.value| == Size(v6)
  {
    match r
    case Failed => Failed
    case Got(b, src) => Got(MakeAddr(v6, b), src)
  }

  method GetAddr(rd: Reader, v6: bool) returns (r: Option<SocketAddr>)
    requires rd.Valid()
    modifies rd
    ensures rd.Valid() && Found(r, rd.View(), GotAddr(v6, Read(old(rd.View()), Size(v6))))
  {
    var k := if v6 then 16 else 4;
    ReadTwice(rd.View(), k, 2);
    var ip := rd.ReadExact(k);
    if ip.None? {
      return None;
    }
    var port := rd.ReadExact(2);
    if port.None? {
      return None;
    }
    ghost var b := ip.value + port.value;
    assert b[..k] == ip.value && b[k..] == port.value;
    r := Some(if v6 then V6(ip.value, ReadU16(port.value), 0, 0) else V4(ip.value, ReadU16(port.value)));
  }

  function Prepend<T>(s: seq<T>, r: Parsed<seq<T>, Source>): Parsed<seq<T>, Source> {
    match r
    case Failed => Failed
    case Got(t, src) => Got(s + t, src)
  }

  lemma PrependMore<T>(s: seq<T>, x: T, r: Parsed<seq<T>, Source>)
    ensures Prepend(s + [x], r) == Prepend(s, Prepend([x], r))
  {
    if r.Got? {
      assert s + [x] + r.value == s + ([x] + r.value);
    }
  }

  lemma PrependNone<T>(s: seq<T>, src: Source, r: Parsed<seq<T>, Source>)
    ensures Prepend(s, Got([], src)) == Got(s, src) && Prepend([], r) == r
  {
    assert s + [] == s;
    if r.Got? {
      assert [] + r.value == r.value;
    }
  }

  /** A number of addresses, one after the other. */
  ghost function ReadMany(src: Source, v6: bool, n: nat): Parsed<seq<SocketAddr>, Source>
    decreases n
  {
    if n == 0 then Got([], src)
    else
      match GotAddr(v6, Read(src, Size(v6)))
      case Failed => Failed
      case Got(a, src1) => Prepend([a], ReadMany(src1, v6, n - 1))
  }

  ghost function GotAddrs(v6: bool, r: Parsed<Bytes, Source>): Parsed<seq<SocketAddr>, Source> {
    match r
    case Failed => Failed
    case Got(b, src) => Got(ParseAddrs(v6, b), src)
  }

  lemma {:induction false} ReadManyAtOnce(src: Source, v6: bool, n: nat)
    ensures ReadMany(src, v6, n) == GotAddrs(v6, Read(src, n * Size(v6)))
    decreases n
  {
    var k := Size(v6);
    if n == 0 {
      assert src.bytes[0..] == src.bytes;
    } else {
      assert n * k == k + (n - 1) * k;
      ReadTwice(src, k, (n - 1) * k);
      if Read(src, k).Got? {
        var a, src1 := Read(src, k).value, Read(src, k).rest;
        ReadManyAtOnce(src1, v6, n - 1);
        if Read(src1, (n - 1) * k).Got? {
          var b := Read(src1, (n - 1) * k).value;
          assert (a + b)[..k] == a && (a + b)[k..] == b;
        }
      }
    }
  }

  method GetAddrs(rd: Reader, v6: bool, n: nat) returns (r: Option<seq<SocketAddr>>)
    requires rd.Valid()
    modifies rd
    ensures rd.Valid() && Found(r, rd.View(), ReadMany(old(rd.View()), v6, n))
  {
    var addrs: seq<SocketAddr> := [];
    PrependNone(addrs, rd.View(), ReadMany(rd.View(), v6, n));
    for i := 0 to n
      invariant rd.Valid() && ReadMany(old(rd.View()), v6, n) == Prepend(addrs, ReadMany(rd.View(), v6, n - i))
    {
      ghost var src := rd.View();
      var a := GetAddr(rd, v6);
      if a.None? {
        return None;
      }
      PrependMore(addrs, a.value, ReadMany(rd.View(), v6, n - i - 1));
      addrs := addrs + [a.value];
    }
    PrependNone(addrs, rd.View(), ReadMany(rd.View(), v6, 0));
    r := Some(addrs);
  }

  /** The two kinds in turn make up the list. */
  ghost function InTurn(src: Source, n6: nat, n4: nat): Parsed<seq<SocketAddr>, Source> {
    match ReadMany(src, true, n6)
    case Failed => Failed
    case Got(v6, src1) => Prepend(v6, ReadMany(src1, false, n4))
  }

  lemma BothKinds(src: Source, n6: nat, n4: nat)
    ensures match Read(src, n6 * 18 + n4 * 6)
            case Failed => InTurn(src, n6, n4).Failed?
            case Got(b, src2) =>
              InTurn(src, n6, n4) == Got(ParseAddrs(true, b[..n6 * 18]) + ParseAddrs(false, b[n6 * 18..]), src2)
  {
    var j, k := n6 * 18, n4 * 6;
    ReadTwice(src, j, k);
    ReadManyAtOnce(src, true, n6);
    if Read(src, j).Got? {
      var a, src1 := Read(src, j).value, Read(src, j).rest;
      ReadManyAtOnce(src1, false, n4);
      if Read(src1, k).Got? {
        var b := Read(src1, k).value;
        assert (a + b)[..j] == a && (a + b)[j..] == b;
      }
    }
  }

  lemma ListInTurn(src: Source, flags: byte)
    ensures ReadList(src, flags) == InTurn(src, Count6(flags), Count4(flags))
  {
    BothKinds(src, Count6(flags), Count4(flags));
  }

  method GetList(rd: Reader, flags: byte) returns (r: Option<seq<SocketAddr>>)
    requires rd.Valid()
    modifies rd
    ensures rd.Valid() && Found(r, rd.View(), ReadList(old(rd.View()), flags))
  {
    ListInTurn(rd.View(), flags);
    FlagBits(flags);
    var v6 := GetAddrs(rd, true, flags / 8 % 8);
    if v6.None? {
      return None;
    }
    var v4 := GetAddrs(rd, false, flags % 8);
    if v4.None? {
      return None;
    }
    r := Some(v6.value + v4.value);
  }

  lemma FlagBits(flags: byte)
    ensures Count6(flags) == flags / 8 % 8 && Count4(flags) == flags % 8
  {
    QuotIsDivision(flags, 8);
    QuotIsDivision(flags / 8, 8);
  }

  method GetPeer(rd: Reader) returns (r: Option<PeerInfo>)
    requires rd.Valid()
    modifies rd
    ensures rd.Valid() && Found(r, rd.View(), ReadPeer(old(rd.View())))
  {
    var head := GetHead(rd);
    if head.None? {
      return None;
    }
    var addrs := GetList(rd, head.value.0);
    if addrs.None? {
      return None;
    }
    r := Some(PeerInfo(head.value.1, addrs.value));
  }

  method GetHead(rd: Reader) returns (r: Option<(byte, Option<NodeId>)>)
    requires rd.Valid()
    modifies rd
    ensures rd.Valid() && Found(r, rd.View(), ReadHead(old(rd.View())))
  {
    var flags := rd.ReadExact(1);
    if flags.None? {
      return None;
    }
    if flags.value[0] < 0x80 {
      return Some((flags.value[0], None));
    }
    var id := rd.ReadExact(16);
    if id.None? {
      return None;
    }
    r := Some((flags.value[0], Some(id.value)));
  }

  method GetPeers(rd: Reader) returns (r: Option<seq<PeerInfo>>)
    requires rd.Valid()
    modifies rd
    ensures rd.Valid() && Found(r, rd.View(), ReadPeers(old(rd.View())))
  {
    var peers: seq<PeerInfo> := [];
    PrependNone(peers, rd.View(), ReadPeers(rd.View()));
    while rd.limit > 0
      invariant rd.Valid() && ReadPeers(old(rd.View())) == Prepend(peers, ReadPeers(rd.View()))
      decreases rd.limit
    {
      var p := GetPeer(rd);
      if p.None? {
        return None;
      }
      PrependMore(peers, p.value, ReadPeers(rd.View()));
      peers := peers + [p.value];
    }
    PrependNone(peers, rd.View(), ReadPeers(rd.View()));
    r := Some(peers);
  }

  method GetClaim(rd: Reader) returns (r: Option<Range>)
    requires rd.Valid()
    modifies rd
    ensures rd.Valid() && Found(r, rd.View(), ReadClaim(old(rd.View())))
  {
    var len := rd.ReadExact(1);
    if len.None? || len.value[0] > 16 {
      return None;
    }
    var base := rd.ReadExact(len.value[0]);
    if base.None? {
      return None;
    }
    var prefix := rd.ReadExact(1);
    if prefix.None? {
      return None;
    }
    r := Some(Range(base.value, prefix.value[0]));
  }

  method GetClaims(rd: Reader) returns (r: Option<seq<Range>>)
    requires rd.Valid()
    modifies rd
    ensures rd.Valid() && Found(r, rd.View(), ReadClaims(old(rd.View())))
  {
    var claims: seq<Range> := [];
    PrependNone(claims, rd.View(), ReadClaims(rd.View()));
    while rd.limit > 0
      invariant rd.Valid() && ReadClaims(old(rd.View())) == Prepend(claims, ReadClaims(rd.View()))
      decreases rd.limit
    {
      var c := GetClaim(rd);
      if c.None? {
        return None;
      }
      PrependMore(claims, c.value, ReadClaims(rd.View()));
      claims := claims + [c.value];
    }
    PrependNone(claims, rd.View(), ReadClaims(rd.View()));
    r := Some(claims);
  }

  method GetPart(rd: Reader, tag: byte, parts: Parts) returns (r: Option<Parts>)
    requires rd.Valid()
    modifies rd
    ensures rd.Valid() && Found(r, rd.View(), ReadPart(tag, old(rd.View()), parts))
  {
    if tag == PEERS {
      var peers := GetPeers(rd);
      r := if peers.None? then None else Some(parts.(peers := peers.value));
    } else if tag == CLAIMS {
      var claims := GetClaims(rd);
      r := if claims.None? then None else Some(parts.(claims := claims.value));
    } else if tag == PEER_TIMEOUT {
      var b := rd.ReadExact(2);
      r := if b.None? then None else Some(parts.(timeout := Some(ReadU16(b.value))));
    } else if tag == NODEID {
      var b := rd.ReadExact(16);
      r := if b.None? then None else Some(parts.(nodeId := Some(b.value)));
    } else if tag == ADDRS {
      var addrs := GetOwnAddrs(rd);
      r := if addrs.None? then None else Some(parts.(addrs := addrs.value));
    } else {
      var b := rd.ReadExact(rd.limit);
      r := if b.None? then None else Some(parts);
    }
  }

  method GetOwnAddrs(rd: Reader) returns (r: Option<seq<SocketAddr>>)
    requires rd.Valid()
    modifies rd
    ensures rd.Valid() && Found(r, rd.View(), ReadOwnAddrs(old(rd.View())))
  {
    var flags := rd.ReadExact(1);
    if flags.None? {
      return None;
    }
    r := GetList(rd, flags.value[0]);
  }

  /** The message a byte string holds, if it holds one. */
  function Decoded(b: Bytes): Option<NodeInfo> {
    if Decode(b).Failed? then None else Some(Decode(b).value)
  }

  method DecodeFrom(b: Bytes) returns (r: Option<NodeInfo>)
    ensures r == Decoded(b)
  {
    var parts := NONE;
    var pos := 0;
    assert b[0..] == b;
    while pos < |b| && b[pos] != END
      invariant pos <= |b|
      invariant ReadParts(b, NONE) == ReadParts(b[pos..], parts)
    {
      if |b| - pos < 3 {
        return None;
      }
      assert b[pos..][3..] == b[pos + 3..] && b[pos..][1..3] == b[pos + 1..pos + 3];
      ghost var src := Source(b[pos + 3..], ReadU16(b[pos + 1..pos + 3]));
      var p, next, left := NextPart(b, pos, parts);
      if p.None? {
        return None;
      }
      assert src.Leads(left);
      parts, pos := p.value, next;
    }
    if pos == |b| || parts.nodeId.None? {
      return None;
    }
    r := Some(NodeInfo(parts.nodeId.value, parts.peers, parts.claims, parts.timeout, parts.addrs));
  }

  /** Reads the part at a position and returns where its reader stopped. */
  method NextPart(b: Bytes, pos: nat, parts: Parts) returns (p: Option<Parts>, next: nat, ghost left: Source)
    requires pos + 3 <= |b|
    ensures Found(p, left, ReadPart(b[pos], Source(b[pos + 3..], ReadU16(b[pos + 1..pos + 3])), parts))
    ensures next <= |b| && left.bytes == b[next..]
  {
    var rd := new Reader(b);
    rd.pos, rd.limit := pos + 3, ReadU16(b[pos + 1..pos + 3]);
    p := GetPart(rd, b[pos], parts);
    next, left := rd.pos, rd.View();
  }
}
