/** The node information message: a sequence of tagged parts with 16-bit lengths, closed by an end
marker. The reader of a part may stop before the announced length is used up, in which case the next
part is read from where it stopped, so the format is described by readers on a limited source. */
module NodeInfo {
  import opened Primitives
  import opened Wire
  import opened Ranges
  import opened Sockets

  type NodeId = b: Bytes | |b| == 16 witness [0, 0, 0, 0, 0, 0, 0, 0, 0, 0, 0, 0, 0, 0, 0, 0]

  datatype PeerInfo = PeerInfo(nodeId: Option<NodeId>, addrs: seq<SocketAddr>)

  datatype NodeInfo = NodeInfo(
    nodeId: NodeId, peers: seq<PeerInfo>, claims: seq<Range>, timeout: Option<u16>, addrs: seq<SocketAddr>)

  const END: byte := 0
  const PEERS: byte := 1
  const CLAIMS: byte := 2
  const PEER_TIMEOUT: byte := 3
  const NODEID: byte := 4
  const ADDRS: byte := 5

  // ---- Writing ---------------------------------------------------------------------------------

  function UpTo7(s: seq<SocketAddr>): (r: seq<SocketAddr>)
    ensures |r| <= 7
  {
    if |s| <= 7 then s else s[..7]
  }

  function Flags(addrs: seq<SocketAddr>, hasId: bool): byte {
    |UpTo7(Only(true, addrs))| * 8 + |UpTo7(Only(false, addrs))| + if hasId then 128 else 0
  }

  function WriteList(addrs: seq<SocketAddr>): Bytes {
    WriteAll(UpTo7(Only(true, addrs))) + WriteAll(UpTo7(Only(false, addrs)))
  }

  function WriteId(id: Option<NodeId>): Bytes {
    if id.Some? then id.value else []
  }

  function WritePeer(p: PeerInfo): Bytes {
    [Flags(p.addrs, p.nodeId.Some?)] + WriteId(p.nodeId) + WriteList(p.addrs)
  }

  function WritePeers(s: seq<PeerInfo>): Bytes {
    if s == [] then [] else WritePeer(s[0]) + WritePeers(s[1..])
  }

  function WriteClaim(r: Range): Bytes {
    [|r.base|] + r.base + [r.prefixLen]
  }

  function WriteClaims(s: seq<Range>): Bytes {
    if s == [] then [] else WriteClaim(s[0]) + WriteClaims(s[1..])
  }

  function WriteAddrs(addrs: seq<SocketAddr>): Bytes {
    [Flags(addrs, false)] + WriteList(addrs)
  }

  /** Tag, 16-bit length and content. */
  function Part(tag: byte, content: Bytes): Bytes {
    [tag] + WriteU16(|content|) + content
  }

  function Timeout(timeout: Option<u16>): Bytes {
    if timeout.Some? then Part(PEER_TIMEOUT, WriteU16(timeout.value)) else []
  }

  function Front(n: NodeInfo): Bytes {
    Part(NODEID, n.nodeId) + Part(PEERS, WritePeers(n.peers)) + Part(CLAIMS, WriteClaims(n.claims))
  }

  function Back(n: NodeInfo): Bytes {
    Timeout(n.timeout) + Part(ADDRS, WriteAddrs(n.addrs)) + [END]
  }

  function Encode(n: NodeInfo): Bytes {
    Front(n) + Back(n)
  }

  /** The message fits the 65535 bytes of a message buffer. */
  ghost predicate Fits(n: NodeInfo) {
    |Encode(n)| <= 65535
  }

  // ---- Reading ---------------------------------------------------------------------------------

  /** A reading fails, or gives a value and what is left. */
  datatype Parsed<+T, +R> = Failed | Got(value: T, rest: R)

  /** What is left to read: the bytes, and how many of them the current part may still use. */
  datatype Source = Source(bytes: Bytes, limit: nat) {
    /** The same source with more bytes behind. */
    function More(t: Bytes): Source {
      Source(bytes + t, limit)
    }

    /** `later` is this source after some reading. */
    predicate Leads(later: Source) {
      |bytes| - |later.bytes| == limit - later.limit >= 0
    }
  }

  function Read(src: Source, k: nat): (r: Parsed<Bytes, Source>)
    ensures r.Got? ==> |r.value| == k && src.Leads(r.rest) && r.rest.limit == src.limit - k
  {
    if k <= |src.bytes| && k <= src.limit
    then Got(src.bytes[..k], Source(src.bytes[k..], src.limit - k))
    else Failed
  }

  /** The low three bits of the flags count the IPv4 addresses, the next three the IPv6 ones. */
  function Count4(flags: byte): nat {
    Rem(flags, 8)
  }

  function Count6(flags: byte): nat {
    Rem(Quot(flags, 8), 8)
  }

  function ListSize(flags: byte): nat {
    Count6(flags) * 18 + Count4(flags) * 6
  }

  /** IPv6 addresses come first. */
  function ParseList(flags: byte, b: Bytes): seq<SocketAddr>
    requires |b| == ListSize(flags)
  {
    ParseAddrs(true, b[..Count6(flags) * 18]) + ParseAddrs(false, b[Count6(flags) * 18..])
  }

  function ReadList(src: Source, flags: byte): (r: Parsed<seq<SocketAddr>, Source>)
    ensures r.Got? ==> src.Leads(r.rest)
  {
    match Read(src, ListSize(flags))
    case Failed => Failed
    case Got(b, src1) => Got(ParseList(flags, b), src1)
  }

  function ReadId(src: Source, flags: byte): (r: Parsed<Option<NodeId>, Source>)
    ensures r.Got? ==> src.Leads(r.rest)
  {
    if flags < 128 then Got(None, src)
    else
      match Read(src, 16)
      case Failed => Failed
      case Got(id, src1) => Got(Some(id), src1)
  }

  function ReadHead(src: Source): (r: Parsed<(byte, Option<NodeId>), Source>)
    ensures r.Got? ==> src.Leads(r.rest) && r.rest.limit < src.limit
  {
    match Read(src, 1)
    case Failed => Failed
    case Got(flags, src1) =>
      match ReadId(src1, flags[0])
      case Failed => Failed
      case Got(id, src2) => Got((flags[0], id), src2)
  }

  function ReadPeer(src: Source): (r: Parsed<PeerInfo, Source>)
    ensures r.Got? ==> src.Leads(r.rest) && r.rest.limit < src.limit
  {
    match ReadHead(src)
    case Failed => Failed
    case Got((flags, id), src1) =>
      match ReadList(src1, flags)
      case Failed => Failed
      case Got(addrs, src2) => Got(PeerInfo(id, addrs), src2)
  }

  /** Peers are read until the part is used up. */
  function ReadPeers(src: Source): (r: Parsed<seq<PeerInfo>, Source>)
    ensures r.Got? ==> src.Leads(r.rest)
    decreases src.limit
  {
    if src.limit == 0 then Got([], src)
    else
      match ReadPeer(src)
      case Failed => Failed
      case Got(p, src1) =>
        match ReadPeers(src1)
        case Failed => Failed
        case Got(s, src2) => Got([p] + s, src2)
  }

  function ReadClaim(src: Source): (r: Parsed<Range, Source>)
    ensures r.Got? ==> src.Leads(r.rest) && r.rest.limit < src.limit
  {
    match Read(src, 1)
    case Failed => Failed
    case Got(len, src1) =>
      if len[0] > 16 then Failed
      else
        match Read(src1, len[0])
        case Failed => Failed
        case Got(base, src2) =>
          match Read(src2, 1)
          case Failed => Failed
          case Got(prefix, src3) => Got(Range(base, prefix[0]), src3)
  }

  function ReadClaims(src: Source): (r: Parsed<seq<Range>, Source>)
    ensures r.Got? ==> src.Leads(r.rest)
    decreases src.limit
  {
    if src.limit == 0 then Got([], src)
    else
      match ReadClaim(src)
      case Failed => Failed
      case Got(c, src1) =>
        match ReadClaims(src1)
        case Failed => Failed
        case Got(s, src2) => Got([c] + s, src2)
  }

  /** The parts met so far; a repeated part replaces the earlier one. */
  datatype Parts = Parts(
    nodeId: Option<NodeId>, peers: seq<PeerInfo>, claims: seq<Range>, timeout: Option<u16>, addrs: seq<SocketAddr>)

  const NONE := Parts(None, [], [], None, [])

  function ReadTimeout(src: Source): (r: Parsed<u16, Source>)
    ensures r.Got? ==> src.Leads(r.rest)
  {
    match Read(src, 2)
    case Failed => Failed
    case Got(b, src1) =>
      Got(ReadU16(b), src1)
  }

  function ReadOwnAddrs(src: Source): (r: Parsed<seq<SocketAddr>, Source>)
    ensures r.Got? ==> src.Leads(r.rest)
  {
    match Read(src, 1)
    case Failed => Failed
    case Got(flags, src1) => ReadList(src1, flags[0])
  }

  /** One part; unknown ones are skipped. */
  function ReadPart(tag: byte, src: Source, parts: Parts): (r: Parsed<Parts, Source>)
    ensures r.Got? ==> src.Leads(r.rest)
  {
    if tag == PEERS then
      match ReadPeers(src)
      case Failed => Failed
      case Got(peers, src1) => Got(parts.(peers := peers), src1)
    else if tag == CLAIMS then
      match ReadClaims(src)
      case Failed => Failed
      case Got(claims, src1) => Got(parts.(claims := claims), src1)
    else if tag == PEER_TIMEOUT then
      match ReadTimeout(src)
      case Failed => Failed
      case Got(timeout, src1) => Got(parts.(timeout := Some(timeout)), src1)
    else if tag == NODEID then
      match Read(src, 16)
      case Failed => Failed
      case Got(id, src1) => Got(parts.(nodeId := Some(id)), src1)
    else if tag == ADDRS then
      match ReadOwnAddrs(src)
      case Failed => Failed
      case Got(addrs, src1) => Got(parts.(addrs := addrs), src1)
    else
      match Read(src, src.limit)
      case Failed => Failed
      case Got(_, src1) => Got(parts, src1)
  }

  /** Parts up to the end marker; the bytes behind the marker are not looked at. */
  function ReadParts(b: Bytes, parts: Parts): (r: Parsed<Parts, Bytes>)
    decreases |b|
  {
    if b == [] then Failed
    else if b[0] == END then Got(parts, b[1..])
    else if |b| < 3 then Failed
    else
      match ReadPart(b[0], Source(b[3..], ReadU16(b[1..3])), parts)
      case Failed => Failed
      case Got(parts1, src) => ReadParts(src.bytes, parts1)
  }

  /** The node information and what follows it; a message without a node id is rejected. */
  function Decode(b: Bytes): Parsed<NodeInfo, Bytes> {
    match ReadParts(b, NONE)
    case Failed => Failed
    case Got(p, rest) =>
      if p.nodeId.None? then Failed
      else Got(NodeInfo(p.nodeId.value, p.peers, p.claims, p.timeout, p.addrs), rest)
  }

  // ---- Round trip ------------------------------------------------------------------------------

  /** What the format keeps of an address list: the first seven IPv6 addresses, then the first seven
      IPv4 ones. */
  function Kept(addrs: seq<SocketAddr>): seq<SocketAddr> {
    PlainAll(UpTo7(Only(true, addrs))) + PlainAll(UpTo7(Only(false, addrs)))
  }

  function KeptPeers(peers: seq<PeerInfo>): (r: seq<PeerInfo>)
    ensures |r| == |peers|
    ensures forall i | 0 <= i < |r| :: r[i] == peers[i].(addrs := Kept(peers[i].addrs))
  {
    if peers == [] then [] else [peers[0].(addrs := Kept(peers[0].addrs))] + KeptPeers(peers[1..])
  }

  function Normal(n: NodeInfo): NodeInfo {
    n.(peers := KeptPeers(n.peers), addrs := Kept(n.addrs))
  }

  lemma ReadExactly(b: Bytes, rest: Bytes, limit: nat)
    requires |b| <= limit
    ensures Read(Source(b + rest, limit), |b|) == Got(b, Source(rest, limit - |b|))
  {
    assert (b + rest)[..|b|] == b && (b + rest)[|b|..] == rest;
  }

  lemma FlagsCount(n6: nat, n4: nat, high: nat)
    requires n6 < 8 && n4 < 8 && high < 2
    ensures Count6(high * 128 + n6 * 8 + n4) == n6 && Count4(high * 128 + n6 * 8 + n4) == n4
  {
    var flags := high * 128 + n6 * 8 + n4;
    QuotIsDivision(flags, 8);
    QuotIsDivision(flags / 8, 8);
  }

  lemma ParseWrittenList(addrs: seq<SocketAddr>, hasId: bool)
    ensures |WriteList(addrs)| == ListSize(Flags(addrs, hasId))
    ensures ParseList(Flags(addrs, hasId), WriteList(addrs)) == Kept(addrs)
  {
    var v6, v4 := UpTo7(Only(true, addrs)), UpTo7(Only(false, addrs));
    FlagsCount(|v6|, |v4|, if hasId then 1 else 0);
    ParseWrittenKinds(Flags(addrs, hasId), v6, v4);
  }

  lemma ParseWrittenKinds(flags: byte, v6: seq<SocketAddr>, v4: seq<SocketAddr>)
    requires Count6(flags) == |v6| && Count4(flags) == |v4|
    requires forall i | 0 <= i < |v6| :: v6[i].V6?
    requires forall i | 0 <= i < |v4| :: v4[i].V4?
    ensures |WriteAll(v6) + WriteAll(v4)| == ListSize(flags)
    ensures ParseList(flags, WriteAll(v6) + WriteAll(v4)) == PlainAll(v6) + PlainAll(v4)
  {
    var a, b := WriteAll(v6), WriteAll(v4);
    WriteAllSize(v6, true);
    WriteAllSize(v4, false);
    assert (a + b)[..|a|] == a && (a + b)[|a|..] == b;
    ParseWritten(v6, true);
    ParseWritten(v4, false);
  }

  lemma ReadWrittenId(id: Option<NodeId>, flags: byte, rest: Bytes, limit: nat)
    requires id.Some? <==> flags >= 128
    requires |WriteId(id)| <= limit
    ensures ReadId(Source(WriteId(id) + rest, limit), flags) == Got(id, Source(rest, limit - |WriteId(id)|))
  {
    assert WriteId(None) + rest == rest;
    ReadExactly(WriteId(id), rest, limit);
  }

  lemma ReadHeadBytes(flags: byte, id: Option<NodeId>, rest: Bytes, limit: nat)
    requires id.Some? <==> flags >= 128
    requires 1 + |WriteId(id)| <= limit
    ensures ReadHead(Source([flags] + WriteId(id) + rest, limit))
            == Got((flags, id), Source(rest, limit - 1 - |WriteId(id)|))
  {
    Assoc([flags], WriteId(id), rest);
    ReadExactly([flags], WriteId(id) + rest, limit);
    ReadWrittenId(id, flags, rest, limit - 1);
  }

  lemma ReadListBytes(flags: byte, list: Bytes, rest: Bytes, limit: nat)
    requires |list| == ListSize(flags) && |list| <= limit
    ensures ReadList(Source(list + rest, limit), flags) == Got(ParseList(flags, list), Source(rest, limit - |list|))
  {
    ReadExactly(list, rest, limit);
  }

  lemma ReadPeerBytes(flags: byte, id: Option<NodeId>, list: Bytes, rest: Bytes, limit: nat)
    requires id.Some? <==> flags >= 128
    requires |list| == ListSize(flags)
    requires 1 + |WriteId(id)| + |list| <= limit
    ensures ReadPeer(Source([flags] + WriteId(id) + list + rest, limit))
            == Got(PeerInfo(id, ParseList(flags, list)), Source(rest, limit - 1 - |WriteId(id)| - |list|))
  {
    Assoc([flags] + WriteId(id), list, rest);
    ReadHeadBytes(flags, id, list + rest, limit);
    ReadListBytes(flags, list, rest, limit - 1 - |WriteId(id)|);
  }

  lemma ReadWrittenPeer(p: PeerInfo, rest: Bytes, limit: nat)
    requires |WritePeer(p)| <= limit
    ensures ReadPeer(Source(WritePeer(p) + rest, limit))
            == Got(p.(addrs := Kept(p.addrs)), Source(rest, limit - |WritePeer(p)|))
  {
    ParseWrittenList(p.addrs, p.nodeId.Some?);
    ReadPeerBytes(Flags(p.addrs, p.nodeId.Some?), p.nodeId, WriteList(p.addrs), rest, limit);
  }

  lemma {:induction false} ReadWrittenPeers(s: seq<PeerInfo>, rest: Bytes)
    ensures ReadPeers(Source(WritePeers(s) + rest, |WritePeers(s)|)) == Got(KeptPeers(s), Source(rest, 0))
  {
    if s == [] {
      assert WritePeers(s) + rest == rest;
    } else {
      var tail := WritePeers(s[1..]);
      assert WritePeers(s) + rest == WritePeer(s[0]) + (tail + rest);
      ReadWrittenPeer(s[0], tail + rest, |WritePeers(s)|);
      ReadWrittenPeers(s[1..], rest);
    }
  }

  lemma ReadWrittenClaim(r: Range, rest: Bytes, limit: nat)
    requires |WriteClaim(r)| <= limit
    ensures ReadClaim(Source(WriteClaim(r) + rest, limit)) == Got(r, Source(rest, limit - |WriteClaim(r)|))
  {
    var len: Bytes, prefix: Bytes := [|r.base|], [r.prefixLen];
    assert WriteClaim(r) + rest == len + (r.base + (prefix + rest));
    ReadExactly(len, r.base + (prefix + rest), limit);
    ReadExactly(r.base, prefix + rest, limit - 1);
    ReadExactly(prefix, rest, limit - 1 - |r.base|);
  }

  lemma {:induction false} ReadWrittenClaims(s: seq<Range>, rest: Bytes)
    ensures ReadClaims(Source(WriteClaims(s) + rest, |WriteClaims(s)|)) == Got(s, Source(rest, 0))
  {
    if s == [] {
      assert WriteClaims(s) + rest == rest;
    } else {
      var tail := WriteClaims(s[1..]);
      assert WriteClaims(s) + rest == WriteClaim(s[0]) + (tail + rest);
      ReadWrittenClaim(s[0], tail + rest, |WriteClaims(s)|);
      ReadWrittenClaims(s[1..], rest);
      assert [s[0]] + s[1..] == s;
    }
  }

  /** A part whose content is read completely is followed by the next part. */
  lemma PartRead(tag: byte, content: Bytes, rest: Bytes, parts: Parts, parts1: Parts)
    requires tag != END && |content| < 65536
    requires ReadPart(tag, Source(content + rest, |content|), parts) == Got(parts1, Source(rest, 0))
    ensures ReadParts(Part(tag, content) + rest, parts) == ReadParts(rest, parts1)
  {
    var b := Part(tag, content) + rest;
    assert b[0] == tag && b[1..3] == WriteU16(|content|) && b[3..] == content + rest;
    U16RoundTrip(|content|);
  }

  lemma NodeIdRead(id: NodeId, rest: Bytes, parts: Parts)
    ensures ReadParts(Part(NODEID, id) + rest, parts) == ReadParts(rest, parts.(nodeId := Some(id)))
  {
    ReadExactly(id, rest, 16);
    PartRead(NODEID, id, rest, parts, parts.(nodeId := Some(id)));
  }

  lemma PeersRead(s: seq<PeerInfo>, rest: Bytes, parts: Parts)
    requires |WritePeers(s)| < 65536
    ensures ReadParts(Part(PEERS, WritePeers(s)) + rest, parts) == ReadParts(rest, parts.(peers := KeptPeers(s)))
  {
    ReadWrittenPeers(s, rest);
    PartRead(PEERS, WritePeers(s), rest, parts, parts.(peers := KeptPeers(s)));
  }

  lemma ClaimsRead(s: seq<Range>, rest: Bytes, parts: Parts)
    requires |WriteClaims(s)| < 65536
    ensures ReadParts(Part(CLAIMS, WriteClaims(s)) + rest, parts) == ReadParts(rest, parts.(claims := s))
  {
    ReadWrittenClaims(s, rest);
    PartRead(CLAIMS, WriteClaims(s), rest, parts, parts.(claims := s));
  }

  lemma TimeoutRead(timeout: Option<u16>, rest: Bytes, parts: Parts)
    requires parts.timeout.None?
    ensures ReadParts(Timeout(timeout) + rest, parts) == ReadParts(rest, parts.(timeout := timeout))
  {
    if timeout.None? {
      assert Timeout(timeout) + rest == rest;
    } else {
      var b := WriteU16(timeout.value);
      U16RoundTrip(timeout.value);
      ReadExactly(b, rest, 2);
      PartRead(PEER_TIMEOUT, b, rest, parts, parts.(timeout := timeout));
    }
  }

  lemma ReadOwnBytes(flags: byte, list: Bytes, rest: Bytes)
    requires |list| == ListSize(flags)
    ensures ReadOwnAddrs(Source([flags] + list + rest, 1 + |list|)) == Got(ParseList(flags, list), Source(rest, 0))
  {
    assert [flags] + list + rest == [flags] + (list + rest);
    ReadExactly([flags], list + rest, 1 + |list|);
    ReadListBytes(flags, list, rest, |list|);
  }

  lemma AddrsRead(addrs: seq<SocketAddr>, rest: Bytes, parts: Parts)
    requires |WriteAddrs(addrs)| < 65536
    ensures ReadParts(Part(ADDRS, WriteAddrs(addrs)) + rest, parts) == ReadParts(rest, parts.(addrs := Kept(addrs)))
  {
    ParseWrittenList(addrs, false);
    ReadOwnBytes(Flags(addrs, false), WriteList(addrs), rest);
    PartRead(ADDRS, WriteAddrs(addrs), rest, parts, parts.(addrs := Kept(addrs)));
  }

  lemma BackRead(n: NodeInfo, rest: Bytes, parts: Parts)
    requires |WriteAddrs(n.addrs)| < 65536 && parts.timeout.None?
    ensures ReadParts(Back(n) + rest, parts) == Got(parts.(timeout := n.timeout, addrs := Kept(n.addrs)), rest)
  {
    var timeout, addrs, end := Timeout(n.timeout), Part(ADDRS, WriteAddrs(n.addrs)), [END] + rest;
    Assoc(timeout + addrs, [END], rest);
    Assoc(timeout, addrs, end);
    TimeoutRead(n.timeout, addrs + end, parts);
    AddrsRead(n.addrs, end, parts.(timeout := n.timeout));
    EndRead(rest, parts.(timeout := n.timeout, addrs := Kept(n.addrs)));
  }

  lemma EndRead(rest: Bytes, parts: Parts)
    ensures ReadParts([END] + rest, parts) == Got(parts, rest)
  {
    assert ([END] + rest)[1..] == rest;
  }

  lemma FrontRead(n: NodeInfo, rest: Bytes)
    requires |WritePeers(n.peers)| < 65536 && |WriteClaims(n.claims)| < 65536
    ensures ReadParts(Front(n) + rest, NONE)
            == ReadParts(rest, NONE.(nodeId := Some(n.nodeId), peers := KeptPeers(n.peers), claims := n.claims))
  {
    var id := Part(NODEID, n.nodeId);
    var peers, claims := Part(PEERS, WritePeers(n.peers)), Part(CLAIMS, WriteClaims(n.claims));
    Assoc(id + peers, claims, rest);
    Assoc(id, peers, claims + rest);
    var p1 := NONE.(nodeId := Some(n.nodeId));
    NodeIdRead(n.nodeId, peers + (claims + rest), NONE);
    PeersRead(n.peers, claims + rest, p1);
    ClaimsRead(n.claims, rest, p1.(peers := KeptPeers(n.peers)));
  }

  /** What fits the buffer is decoded to what the format keeps of it, whatever follows. */
  lemma RoundTrip(n: NodeInfo, rest: Bytes)
    requires Fits(n)
    ensures Decode(Encode(n) + rest) == Got(Normal(n), rest)
  {
    Assoc(Front(n), Back(n), rest);
    FrontRead(n, Back(n) + rest);
    BackRead(n, rest, NONE.(nodeId := Some(n.nodeId), peers := KeptPeers(n.peers), claims := n.claims));
  }

  // ---- Prefixes --------------------------------------------------------------------------------

  /** More bytes behind do not change a reading that succeeds. */
  ghost predicate Stable<T(!new)>(small: Parsed<T, Source>, large: Parsed<T, Source>, t: Bytes) {
    small.Got? ==> large == Got(small.value, small.rest.More(t))
  }

  lemma ReadStable(src: Source, k: nat, t: Bytes)
    ensures Stable(Read(src, k), Read(src.More(t), k), t)
  {
    if Read(src, k).Got? {
      assert (src.bytes + t)[..k] == src.bytes[..k] && (src.bytes + t)[k..] == src.bytes[k..] + t;
    }
  }

  lemma HeadStable(src: Source, t: Bytes)
    ensures Stable(ReadHead(src), ReadHead(src.More(t)), t)
  {
    ReadStable(src, 1, t);
    if Read(src, 1).Got? {
      ReadStable(Read(src, 1).rest, 16, t);
    }
  }

  lemma PeerStable(src: Source, t: Bytes)
    ensures Stable(ReadPeer(src), ReadPeer(src.More(t)), t)
  {
    HeadStable(src, t);
    if ReadHead(src).Got? {
      ReadStable(ReadHead(src).rest, ListSize(ReadHead(src).value.0), t);
    }
  }

  lemma {:induction false} PeersStable(src: Source, t: Bytes)
    ensures Stable(ReadPeers(src), ReadPeers(src.More(t)), t)
    decreases src.limit
  {
    if src.limit > 0 {
      PeerStable(src, t);
      if ReadPeer(src).Got? {
        PeersStable(ReadPeer(src).rest, t);
      }
    }
  }

  lemma ClaimStable(src: Source, t: Bytes)
    ensures Stable(ReadClaim(src), ReadClaim(src.More(t)), t)
  {
    ReadStable(src, 1, t);
    if Read(src, 1).Got? {
      var len, src1 := Read(src, 1).value, Read(src, 1).rest;
      ReadStable(src1, len[0], t);
      if Read(src1, len[0]).Got? {
        ReadStable(Read(src1, len[0]).rest, 1, t);
      }
    }
  }

  lemma {:induction false} ClaimsStable(src: Source, t: Bytes)
    ensures Stable(ReadClaims(src), ReadClaims(src.More(t)), t)
    decreases src.limit
  {
    if src.limit > 0 {
      ClaimStable(src, t);
      if ReadClaim(src).Got? {
        ClaimsStable(ReadClaim(src).rest, t);
      }
    }
  }

  lemma OwnAddrsStable(src: Source, t: Bytes)
    ensures Stable(ReadOwnAddrs(src), ReadOwnAddrs(src.More(t)), t)
  {
    ReadStable(src, 1, t);
    if Read(src, 1).Got? {
      ReadStable(Read(src, 1).rest, ListSize(Read(src, 1).value[0]), t);
    }
  }

  lemma PartStable(tag: byte, src: Source, parts: Parts, t: Bytes)
    ensures Stable(ReadPart(tag, src, parts), ReadPart(tag, src.More(t), parts), t)
  {
    if tag == PEERS {
      PeersStable(src, t);
    } else if tag == CLAIMS {
      ClaimsStable(src, t);
    } else if tag == ADDRS {
      OwnAddrsStable(src, t);
    } else {
      ReadStable(src, if tag == PEER_TIMEOUT then 2 else if tag == NODEID then 16 else src.limit, t);
    }
  }

  /** A decoding that succeeds is not changed by what follows: all of it is left over. */
  lemma {:induction false} TailIgnored(b: Bytes, parts: Parts, t: Bytes)
    requires ReadParts(b, parts).Got?
    ensures ReadParts(b + t, parts) == Got(ReadParts(b, parts).value, ReadParts(b, parts).rest + t)
    decreases |b|
  {
    var c := b + t;
    if b[0] == END {
      assert c[1..] == b[1..] + t;
    } else {
      var src := Source(b[3..], ReadU16(b[1..3]));
      assert c[1..3] == b[1..3] && c[3..] == b[3..] + t;
      PartStable(b[0], src, parts, t);
      var parts1, src1 := ReadPart(b[0], src, parts).value, ReadPart(b[0], src, parts).rest;
      TailIgnored(src1.bytes, parts1, t);
    }
  }

  /** Every strict prefix of an encoding is rejected. */
  lemma PrefixRejected(n: NodeInfo, k: nat)
    requires Fits(n) && k < |Encode(n)|
    ensures Decode(Encode(n)[..k]).Failed?
  {
    var b := Encode(n);
    assert b + [] == b;
    RoundTrip(n, []);
    PrefixFails(b, k);
  }

  /** No strict prefix of what is read to its end can be read. */
  lemma PrefixFails(b: Bytes, k: nat)
    requires ReadParts(b, NONE).Got? && ReadParts(b, NONE).rest == [] && k < |b|
    ensures ReadParts(b[..k], NONE).Failed?
  {
    assert b[..k] + b[k..] == b;
    HeadFails(b[..k], b[k..]);
  }

  lemma HeadFails(head: Bytes, tail: Bytes)
    requires ReadParts(head + tail, NONE).Got? && ReadParts(head + tail, NONE).rest == [] && tail != []
    ensures ReadParts(head, NONE).Failed?
  {
    if ReadParts(head, NONE).Got? {
      TailIgnored(head, NONE, tail);
    }
  }

  /** The kept form is a fixed point: encoding it gives the same bytes. */
  lemma NormalEncodesAlike(n: NodeInfo)
    ensures Encode(Normal(n)) == Encode(n)
  {
    ListKept(n.addrs);
    PeersKept(n.peers);
  }

  lemma {:induction false} PeersKept(s: seq<PeerInfo>)
    ensures WritePeers(KeptPeers(s)) == WritePeers(s)
  {
    if s != [] {
      ListKept(s[0].addrs);
      PeersKept(s[1..]);
    }
  }

  lemma {:induction false} AllOfKind(s: seq<SocketAddr>, kind: bool, v6: bool)
    requires forall i | 0 <= i < |s| :: s[i].V6? == kind
    ensures Only(v6, s) == if kind == v6 then s else []
  {
    if s != [] {
      var n := |s| - 1;
      AllOfKind(s[..n], kind, v6);
      assert s == s[..n] + [s[n]];
    }
  }

  lemma {:induction false} OnlyConcat(v6: bool, s: seq<SocketAddr>, t: seq<SocketAddr>)
    ensures Only(v6, s + t) == Only(v6, s) + Only(v6, t)
    decreases |t|
  {
    if t == [] {
      assert s + t == s;
    } else {
      OnlyConcat(v6, s, t[..|t| - 1]);
      assert (s + t)[..|s + t| - 1] == s + t[..|t| - 1];
    }
  }

  lemma {:induction false} PlainWritten(s: seq<SocketAddr>)
    ensures WriteAll(PlainAll(s)) == WriteAll(s)
  {
    if s != [] {
      PlainWritten(s[1..]);
    }
  }

  lemma KindsApart(a: seq<SocketAddr>, b: seq<SocketAddr>)
    requires forall i | 0 <= i < |a| :: a[i].V6?
    requires forall i | 0 <= i < |b| :: b[i].V4?
    ensures Only(true, a + b) == a && Only(false, a + b) == b
  {
    forall v6
      ensures Only(v6, a + b) == if v6 then a else b
    {
      OnlyConcat(v6, a, b);
      AllOfKind(a, true, v6);
      AllOfKind(b, false, v6);
    }
  }

  lemma ListKept(addrs: seq<SocketAddr>)
    ensures WriteList(Kept(addrs)) == WriteList(addrs)
    ensures forall hasId :: Flags(Kept(addrs), hasId) == Flags(addrs, hasId)
  {
    var v6, v4 := UpTo7(Only(true, addrs)), UpTo7(Only(false, addrs));
    PlainKind(v6, true);
    PlainKind(v4, false);
    KindsApart(PlainAll(v6), PlainAll(v4));
    PlainWritten(v6);
    PlainWritten(v4);
  }
}
