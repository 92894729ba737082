/** Socket addresses and the bytes that stand for them in node information and beacons. */
module Sockets {
  import opened Primitives
  import opened Wire

  type u16 = x: int | 0 <= x < 65536

  type Ip4 = b: Bytes | |b| == 4 witness [0, 0, 0, 0]

  type Ip6 = b: Bytes | |b| == 16 witness [0, 0, 0, 0, 0, 0, 0, 0, 0, 0, 0, 0, 0, 0, 0, 0]

  datatype SocketAddr = V4(ip4: Ip4, port: u16) | V6(ip6: Ip6, port: u16, flow: nat, scope: nat)

  /** The low 16 bits of a number, big-endian. */
  function WriteU16(v: nat): (b: Bytes)
    ensures |b| == 2
  {
    [Rem(Quot(v, 256), 256), Rem(v, 256)]
  }

  function ReadU16(b: Bytes): u16
    requires |b| == 2
  {
    b[0] as int * 256 + b[1]
  }

  lemma U16RoundTrip(v: u16)
    ensures ReadU16(WriteU16(v)) == v
  {
    QuotIsDivision(v, 256);
    QuotIsDivision(v / 256, 256);
  }

  /** The address without what no format carries: flow information and scope. */
  function Plain(a: SocketAddr): SocketAddr {
    if a.V4? then a else a.(flow := 0, scope := 0)
  }

  /** Octets and port, big-endian. */
  function WriteAddr(a: SocketAddr): (b: Bytes)
    ensures |b| == Size(a.V6?)
  {
    (if a.V4? then a.ip4 else a.ip6) + WriteU16(a.port)
  }

  /** The addresses of one kind, in order. */
  function Only(v6: bool, s: seq<SocketAddr>): (r: seq<SocketAddr>)
    ensures forall i | 0 <= i < |r| :: r[i].V6? == v6
  {
    if s == [] then []
    else Only(v6, s[..|s| - 1]) + (if s[|s| - 1].V6? == v6 then [s[|s| - 1]] else [])
  }

  function PlainAll(s: seq<SocketAddr>): seq<SocketAddr> {
    if s == [] then [] else [Plain(s[0])] + PlainAll(s[1..])
  }

  lemma {:induction false} PlainAt(s: seq<SocketAddr>, i: nat)
    requires i < |s|
    ensures |PlainAll(s)| == |s| && PlainAll(s)[i] == Plain(s[i])
  {
    if |s| > 1 {
      PlainAt(s[1..], if i == 0 then 0 else i - 1);
    }
  }

  lemma PlainKind(s: seq<SocketAddr>, v6: bool)
    requires forall i | 0 <= i < |s| :: s[i].V6? == v6
    ensures |PlainAll(s)| == |s| && forall i | 0 <= i < |s| :: PlainAll(s)[i].V6? == v6
  {
    forall i | 0 <= i < |s|
      ensures |PlainAll(s)| == |s| && PlainAll(s)[i].V6? == v6
    {
      PlainAt(s, i);
    }
  }

  lemma Assoc(a: Bytes, b: Bytes, c: Bytes)
    ensures (a + b) + c == a + (b + c)
  {
  }

  lemma Assoc3(w: Bytes, a: Bytes, b: Bytes, c: Bytes)
    ensures ((w + a) + b) + c == w + ((a + b) + c)
  {
    Assoc(w, a, b);
    Assoc(w, a + b, c);
  }

  /** The addresses of a list, one after the other. */
  function WriteAll(s: seq<SocketAddr>): Bytes {
    if s == [] then [] else WriteAddr(s[0]) + WriteAll(s[1..])
  }

  /** Addresses of one kind have one size. */
  lemma {:induction false} WriteAllSize(s: seq<SocketAddr>, v6: bool)
    requires forall i | 0 <= i < |s| :: s[i].V6? == v6
    ensures |WriteAll(s)| == |s| * Size(v6)
  {
    if s != [] {
      WriteAllSize(s[1..], v6);
    }
  }

  /** Octets and port bytes of an address of one kind. */
  function Size(v6: bool): nat {
    if v6 then 18 else 6
  }

  /** The address of the wanted kind that some bytes stand for. */
  function MakeAddr(v6: bool, b: Bytes): (a: SocketAddr)
    requires |b| == Size(v6)
    ensures a.V6? == v6
  {
    var k := Size(v6) - 2;
    if v6 then V6(b[..k], ReadU16(b[k..]), 0, 0) else V4(b[..k], ReadU16(b[k..]))
  }

  lemma MakeWritten(a: SocketAddr)
    ensures MakeAddr(a.V6?, WriteAddr(a)) == Plain(a)
  {
    var b, k := WriteAddr(a), Size(a.V6?) - 2;
    assert b[..k] == (if a.V4? then a.ip4 else a.ip6) && b[k..] == WriteU16(a.port);
    U16RoundTrip(a.port);
  }

  /** The addresses of one kind that fill a byte string. */
  function ParseAddrs(v6: bool, b: Bytes): seq<SocketAddr>
    decreases |b|
  {
    if |b| < Size(v6) then [] else [MakeAddr(v6, b[..Size(v6)])] + ParseAddrs(v6, b[Size(v6)..])
  }

  lemma {:induction false} ParseWritten(s: seq<SocketAddr>, v6: bool)
    requires forall i | 0 <= i < |s| :: s[i].V6? == v6
    ensures ParseAddrs(v6, WriteAll(s)) == PlainAll(s)
  {
    if s != [] {
      var b := WriteAll(s);
      assert b[..Size(v6)] == WriteAddr(s[0]) && b[Size(v6)..] == WriteAll(s[1..]);
      MakeWritten(s[0]);
      ParseWritten(s[1..], v6);
    }
  }

  /** The program splits a list into its two kinds by a loop. */
  method Split(s: seq<SocketAddr>) returns (v4: seq<SocketAddr>, v6: seq<SocketAddr>)
    ensures v4 == Only(false, s) && v6 == Only(true, s)
  {
    v4, v6 := [], [];
    for i := 0 to |s|
      invariant v4 == Only(false, s[..i]) && v6 == Only(true, s[..i])
    {
      assert s[..i + 1][..i] == s[..i];
      match s[i]
      case V4(_, _) => v4 := v4 + [s[i]];
      case V6(_, _, _, _) => v6 := v6 + [s[i]];
    }
    assert s[..|s|] == s;
  }
}
