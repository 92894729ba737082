/** The forwarding table: claimed ranges with timeouts, looked up by longest prefix, behind a cache.

Each operation is given the time it runs at. Peers are opaque. */
module ClaimTable {
  import opened Primitives
  import opened Ranges

  type Peer = nat
  type Time = int

  datatype CacheValue = CacheValue(peer: Peer, timeout: Time)

  datatype Claim = Claim(peer: Peer, range: Range, timeout: Time)

  datatype Table = Table(cache: map<Address, CacheValue>, claims: seq<Claim>, cacheTimeout: nat, claimTimeout: nat)

  // ---- Operations on values --------------------------------------------------------------------

  /** The claims that have not expired, in order. */
  function Alive(claims: seq<Claim>, now: Time): seq<Claim>
    decreases |claims|
  {
    if claims == [] then []
    else
      var n := |claims| - 1;
      Alive(claims[..n], now) + if claims[n].timeout >= now then [claims[n]] else []
  }

  function Housekeep(t: Table, now: Time): Table {
    t.(cache := map a | a in t.cache && t.cache[a].timeout >= now :: t.cache[a], claims := Alive(t.claims, now))
  }

  function Learn(t: Table, addr: Address, peer: Peer, now: Time): Table {
    t.(cache := t.cache[addr := CacheValue(peer, now + t.cacheTimeout)])
  }

  /** Marks the cache entries of a peer for removal. */
  function Flush(cache: map<Address, CacheValue>, peer: Peer): (r: map<Address, CacheValue>)
    ensures r.Keys == cache.Keys
  {
    map a | a in cache :: if cache[a].peer == peer then cache[a].(timeout := 0) else cache[a]
  }

  function Position(ranges: seq<Range>, r: Range): (i: nat)
    ensures i <= |ranges| && (i < |ranges| ==> ranges[i] == r) && (r in ranges ==> i < |ranges|)
  {
    if ranges == [] || ranges[0] == r then 0 else 1 + Position(ranges[1..], r)
  }

  function SwapRemove(ranges: seq<Range>, i: nat): (r: seq<Range>)
    requires i < |ranges|
    ensures |r| == |ranges| - 1
  {
    ranges[i := ranges[|ranges| - 1]][..|ranges| - 1]
  }

  /** One announced range list against the table: entries of the peer that are announced again get
      the full timeout, the others are marked for removal, and the walk stops as soon as nothing is
      left to match. Returns the entries and the ranges that are new. */
  function Refresh(claims: seq<Claim>, peer: Peer, ranges: seq<Range>, full: Time): (r: (seq<Claim>, seq<Range>))
    ensures |r.0| == |claims|
  {
    if claims == [] then ([], ranges)
    else if claims[0].peer != peer then
      var (rest, left) := Refresh(claims[1..], peer, ranges, full);
      ([claims[0]] + rest, left)
    else
      var i := Position(ranges, claims[0].range);
      if i == |ranges| then
        var (rest, left) := Refresh(claims[1..], peer, ranges, full);
        ([claims[0].(timeout := 0)] + rest, left)
      else
        var remaining := SwapRemove(ranges, i);
        if remaining == [] then ([claims[0].(timeout := full)] + claims[1..], [])
        else
          var (rest, left) := Refresh(claims[1..], peer, remaining, full);
          ([claims[0].(timeout := full)] + rest, left)
  }

  function NewClaims(peer: Peer, ranges: seq<Range>, full: Time): (r: seq<Claim>)
    ensures |r| == |ranges|
    ensures forall i | 0 <= i < |r| :: r[i] == Claim(peer, ranges[i], full)
  {
    seq(|ranges|, i requires 0 <= i < |ranges| => Claim(peer, ranges[i], full))
  }

  /** Refreshed entries first, then entries for the ranges that had none. */
  function Announce(claims: seq<Claim>, peer: Peer, ranges: seq<Range>, full: Time): seq<Claim> {
    var (old', new') := Refresh(claims, peer, ranges, full);
    old' + NewClaims(peer, new', full)
  }

  function SetClaims(t: Table, peer: Peer, ranges: seq<Range>, now: Time): Table {
    Housekeep(t.(claims := Announce(t.claims, peer, ranges, now + t.claimTimeout), cache := Flush(t.cache, peer)), now)
  }

  function Expire(claims: seq<Claim>, peer: Peer): (r: seq<Claim>)
    ensures |r| == |claims|
    ensures forall i | 0 <= i < |r| :: r[i] == if claims[i].peer == peer then claims[i].(timeout := 0) else claims[i]
  {
    seq(|claims|, i requires 0 <= i < |claims| => if claims[i].peer == peer then claims[i].(timeout := 0) else claims[i])
  }

  function RemoveClaims(t: Table, peer: Peer, now: Time): Table {
    Housekeep(t.(claims := Expire(t.claims, peer), cache := Flush(t.cache, peer)), now)
  }

  /** The first of the longest prefixes not longer than `cap` that contain an address. */
  function Winner(claims: seq<Claim>, addr: Address, cap: nat): Option<Claim>
    decreases |claims|
  {
    if claims == [] then None
    else
      var n := |claims| - 1;
      var w := Winner(claims[..n], addr, cap);
      var c := claims[n];
      if Contains(c.range, addr) && c.range.prefixLen as int <= cap
         && (w.None? || c.range.prefixLen > w.value.range.prefixLen)
      then Some(c) else w
  }

  /** Whether a claim competes for an address. */
  predicate Competes(c: Claim, addr: Address, cap: nat) {
    Contains(c.range, addr) && c.range.prefixLen as int <= cap
  }

  /** The winner competes, no competitor has a longer prefix, and those before it have shorter ones. */
  lemma {:induction false} WinnerIsFirstLongest(claims: seq<Claim>, addr: Address, cap: nat) returns (i: nat)
    ensures Winner(claims, addr, cap).None? ==> forall c | c in claims :: !Competes(c, addr, cap)
    ensures Winner(claims, addr, cap).Some? ==>
              && i < |claims| && claims[i] == Winner(claims, addr, cap).value && Competes(claims[i], addr, cap)
              && (forall j | 0 <= j < |claims| && Competes(claims[j], addr, cap) ::
                    claims[j].range.prefixLen <= claims[i].range.prefixLen)
              && (forall j | 0 <= j < i && Competes(claims[j], addr, cap) ::
                    claims[j].range.prefixLen < claims[i].range.prefixLen)
    decreases |claims|
  {
    i := 0;
    if claims != [] {
      var n := |claims| - 1;
      i := WinnerIsFirstLongest(claims[..n], addr, cap);
      var w := Winner(claims[..n], addr, cap);
      assert claims == claims[..n] + [claims[n]];
      if Competes(claims[n], addr, cap) && (w.None? || claims[n].range.prefixLen > w.value.range.prefixLen) {
        i := n;
      }
    }
  }

  /** Longest prefixes have at most 255 bits, the range of their length byte. */
  function Scan(claims: seq<Claim>, addr: Address): Option<Claim> {
    Winner(claims, addr, 255)
  }

  function Lookup(t: Table, addr: Address, now: Time): (Table, Option<Peer>) {
    if addr in t.cache then (t, Some(t.cache[addr].peer))
    else
      match Scan(t.claims, addr)
      case None => (t, None)
      case Some(c) =>
        var timeout := if now + t.cacheTimeout < c.timeout then now + t.cacheTimeout else c.timeout;
        (t.(cache := t.cache[addr := CacheValue(c.peer, timeout)]), Some(c.peer))
  }

  // ---- The table in place ----------------------------------------------------------------------

  class ClaimTable {
    var cache: map<Address, CacheValue>
    var claims: seq<Claim>
    const cacheTimeout: nat
    const claimTimeout: nat

    function View(): Table
      reads this
    {
      Table(cache, claims, cacheTimeout, claimTimeout)
    }

    constructor (cacheTimeout: nat, claimTimeout: nat)
      ensures View() == Table(map[], [], cacheTimeout, claimTimeout)
    {
      this.cacheTimeout, this.claimTimeout := cacheTimeout, claimTimeout;
      cache, claims := map[], [];
    }

    method Cache(addr: Address, peer: Peer, now: Time)
      modifies this
      ensures View() == Learn(old(View()), addr, peer, now)
    {
      cache := cache[addr := CacheValue(peer, now + cacheTimeout)];
    }

    method RunHousekeep(now: Time)
      modifies this
      ensures View() == Housekeep(old(View()), now)
    {
      cache := map a | a in cache && cache[a].timeout >= now :: cache[a];
      var kept: seq<Claim> := [];
      for i := 0 to |claims|
        invariant claims == old(claims)
        invariant kept == Alive(claims[..i], now)
      {
        assert claims[..i + 1][..i] == claims[..i];
        if claims[i].timeout >= now {
          kept := kept + [claims[i]];
        }
      }
      assert claims[..|claims|] == claims;
      claims := kept;
    }

    /** The walk over the entries; returns the announced ranges that are new. */
    method RefreshEntries(peer: Peer, ranges: seq<Range>, full: Time) returns (left: seq<Range>)
      modifies `claims
      ensures (claims, left) == Refresh(old(claims), peer, ranges, full)
    {
      left := ranges;
      ghost var before := claims;
      ghost var (goal, rest) := Refresh(claims, peer, ranges, full);
      assert before[0..] == before;
      var i := 0;
      while i < |claims|
        invariant 0 <= i <= |claims| == |before| == |goal|
        invariant claims[i..] == before[i..]
        invariant claims[..i] == goal[..i]
        invariant (goal[i..], rest) == Refresh(before[i..], peer, left, full)
      {
        assert before[i..][0] == claims[i] && before[i..][1..] == before[i + 1..];
        assert goal[i..][1..] == goal[i + 1..];
        var c := claims[i];
        if c.peer == peer {
          var pos := Position(left, c.range);
          if pos < |left| {
            claims := claims[i := c.(timeout := full)];
            left := SwapRemove(left, pos);
            if left == [] {
              assert claims == claims[..i] + goal[i..] && goal == goal[..i] + goal[i..];
              return;
            }
          } else {
            claims := claims[i := c.(timeout := 0)];
          }
        }
        i := i + 1;
      }
      assert claims == claims[..i] && goal == goal[..i];
    }

    method RunSetClaims(peer: Peer, ranges: seq<Range>, now: Time)
      modifies this
      ensures View() == SetClaims(old(View()), peer, ranges, now)
    {
      var full := now + claimTimeout;
      var left := RefreshEntries(peer, ranges, full);
      claims := claims + NewClaims(peer, left, full);
      cache := Flush(cache, peer);
      RunHousekeep(now);
    }

    method RunRemoveClaims(peer: Peer, now: Time)
      modifies this
      ensures View() == RemoveClaims(old(View()), peer, now)
    {
      var i := 0;
      while i < |claims|
        invariant 0 <= i <= |claims| == |old(claims)|
        invariant claims[..i] == Expire(old(claims), peer)[..i] && claims[i..] == old(claims)[i..]
        invariant cache == old(cache)
      {
        if claims[i].peer == peer {
          claims := claims[i := claims[i].(timeout := 0)];
        }
        i := i + 1;
      }
      assert claims == Expire(old(claims), peer);
      cache := Flush(cache, peer);
      RunHousekeep(now);
    }

    method RunLookup(addr: Address, now: Time) returns (peer: Option<Peer>)
      modifies this
      ensures (View(), peer) == Lookup(old(View()), addr, now)
    {
      if addr in cache {
        return Some(cache[addr].peer);
      }
      var found: Option<Claim> := None;
      var prefixLen: int := -1;
      for i := 0 to |claims|
        invariant claims == old(claims) && cache == old(cache)
        invariant found == Winner(claims[..i], addr, 255)
        invariant prefixLen == if found.Some? then found.value.range.prefixLen as int else -1
      {
        assert claims[..i + 1][..i] == claims[..i];
        var matches := Matches(claims[i].range, addr);
        if claims[i].range.prefixLen as int > prefixLen && matches {
          found := Some(claims[i]);
          prefixLen := claims[i].range.prefixLen;
        }
      }
      assert claims[..|claims|] == claims;
      if found.None? {
        return None;
      }
      var c := found.value;
      cache := cache[addr := CacheValue(c.peer, if now + cacheTimeout < c.timeout then now + cacheTimeout else c.timeout)];
      return Some(c.peer);
    }
  }
}
