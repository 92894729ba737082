/** What the forwarding table keeps over every run of its operations. */
module TableHistory {
  import opened Primitives
  import opened Ranges
  import opened ClaimTable

  datatype Op =
    | OpLearn(addr: Address, peer: Peer)
    | OpSet(peer: Peer, ranges: seq<Range>)
    | OpRemove(peer: Peer)
    | OpLookup(addr: Address)
    | OpHousekeep
    | OpClear

  function Apply(t: Table, op: Op, now: Time): Table {
    match op
    case OpLearn(addr, peer) => Learn(t, addr, peer, now)
    case OpSet(peer, ranges) => SetClaims(t, peer, ranges, now)
    case OpRemove(peer) => RemoveClaims(t, peer, now)
    case OpLookup(addr) => Lookup(t, addr, now).0
    case OpHousekeep => Housekeep(t, now)
    case OpClear => t.(cache := map[])
  }

  /** The table with its history: for each cached address that came from a lookup the length of the
      prefix it was found by, and the addresses for which a more specific range has been announced
      since. */
  datatype Watched = Watched(t: Table, basis: map<Address, nat>, overtaken: set<Address>)

  /** The addresses an announcement overtakes. */
  ghost predicate Overtakes(ranges: seq<Range>, addr: Address, prefix: nat) {
    exists i :: 0 <= i < |ranges| && Contains(ranges[i], addr) && ranges[i].prefixLen as int > prefix
  }

  ghost function Step(w: Watched, op: Op, now: Time): Watched {
    var t := Apply(w.t, op, now);
    match op
    case OpLookup(addr) =>
      var c := Scan(w.t.claims, addr);
      if addr !in w.t.cache && c.Some?
      then Watched(t, w.basis[addr := c.value.range.prefixLen], w.overtaken - {addr})
      else w
    case OpLearn(addr, _) => Watched(t, w.basis - {addr}, w.overtaken - {addr})
    case OpSet(_, ranges) =>
      var basis := map a | a in w.basis && a in t.cache :: w.basis[a];
      Watched(t, basis, w.overtaken + set a | a in basis && Overtakes(ranges, a, basis[a]))
    case _ => Watched(t, map a | a in w.basis && a in t.cache :: w.basis[a], w.overtaken)
  }

  // ---- Winners under change --------------------------------------------------------------------

  lemma {:induction false} AliveSubset(claims: seq<Claim>, now: Time, c: Claim)
    requires c in Alive(claims, now)
    ensures c in claims && c.timeout >= now
    decreases |claims|
  {
    var n := |claims| - 1;
    if c in Alive(claims[..n], now) {
      AliveSubset(claims[..n], now, c);
    }
  }

  lemma {:induction false} AliveKeeps(claims: seq<Claim>, now: Time, c: Claim)
    requires c in claims && c.timeout >= now
    ensures c in Alive(claims, now)
    decreases |claims|
  {
    var n := |claims| - 1;
    if c in claims[..n] {
      AliveKeeps(claims[..n], now, c);
    } else {
      assert c == claims[n];
    }
  }

  /** A winner that has not expired still wins when expired claims go. */
  lemma {:induction false} WinnerAlive(claims: seq<Claim>, addr: Address, cap: nat, now: Time)
    requires Winner(claims, addr, cap).Some? && Winner(claims, addr, cap).value.timeout >= now
    ensures Winner(Alive(claims, now), addr, cap) == Winner(claims, addr, cap)
    decreases |claims|
  {
    var n := |claims| - 1;
    var rest := Alive(claims[..n], now);
    assert Alive(claims, now)[..|rest|] == rest && rest + [] == rest;
    if Winner(claims[..n], addr, cap) == Winner(claims, addr, cap) {
      WinnerAlive(claims[..n], addr, cap, now);
    } else {
      AliveNoLonger(claims[..n], addr, cap, now);
    }
  }

  /** Dropping claims lets no longer prefix win. */
  lemma AliveNoLonger(claims: seq<Claim>, addr: Address, cap: nat, now: Time)
    ensures var w, w' := Winner(claims, addr, cap), Winner(Alive(claims, now), addr, cap);
            w'.Some? ==> w.Some? && w'.value.range.prefixLen <= w.value.range.prefixLen
  {
    var i := WinnerIsFirstLongest(claims, addr, cap);
    var i' := WinnerIsFirstLongest(Alive(claims, now), addr, cap);
    var w' := Winner(Alive(claims, now), addr, cap);
    if w'.Some? {
      AliveSubset(claims, now, w'.value);
    }
  }

  /** `b` is `a` with other timeouts on the entries of one peer. */
  ghost predicate Retimed(a: seq<Claim>, b: seq<Claim>, peer: Peer) {
    && |a| == |b|
    && forall i | 0 <= i < |a| ::
         b[i].peer == a[i].peer && b[i].range == a[i].range && (a[i].peer != peer ==> b[i] == a[i])
  }

  lemma {:induction false} WinnerRetimed(a: seq<Claim>, b: seq<Claim>, peer: Peer, addr: Address, cap: nat)
    requires Retimed(a, b, peer)
    ensures var w, w' := Winner(a, addr, cap), Winner(b, addr, cap);
            && (w.None? <==> w'.None?)
            && (w.Some? ==> w'.value.peer == w.value.peer && w'.value.range == w.value.range
                            && (w.value.peer != peer ==> w' == w))
    decreases |a|
  {
    if a != [] {
      WinnerRetimed(a[..|a| - 1], b[..|a| - 1], peer, addr, cap);
    }
  }

  lemma {:induction false} WinnerAppend(claims: seq<Claim>, more: seq<Claim>, addr: Address, cap: nat)
    requires Winner(claims, addr, cap).Some? && Winner(claims, addr, cap).value.range.prefixLen as int == cap
    ensures Winner(claims + more, addr, cap) == Winner(claims, addr, cap)
    decreases |more|
  {
    if more == [] {
      assert claims + more == claims;
    } else {
      var n := |more| - 1;
      assert (claims + more)[..|claims| + n] == claims + more[..n];
      WinnerAppend(claims, more[..n], addr, cap);
    }
  }

  /** The cap makes no difference when nothing longer contains the address. */
  lemma {:induction false} WinnerUncapped(claims: seq<Claim>, addr: Address, cap: nat)
    requires forall c | c in claims && Contains(c.range, addr) :: c.range.prefixLen as int <= cap
    ensures Winner(claims, addr, cap) == Scan(claims, addr)
    decreases |claims|
  {
    if claims != [] {
      WinnerUncapped(claims[..|claims| - 1], addr, cap);
    }
  }

  lemma {:induction false} RefreshRetimes(claims: seq<Claim>, peer: Peer, ranges: seq<Range>, full: Time)
    ensures Retimed(claims, Refresh(claims, peer, ranges, full).0, peer)
    ensures forall r | r in Refresh(claims, peer, ranges, full).1 :: r in ranges
  {
    if claims != [] {
      RefreshRetimes(claims[1..], peer, ranges, full);
      var i := Position(ranges, claims[0].range);
      if i < |ranges| {
        RefreshRetimes(claims[1..], peer, SwapRemove(ranges, i), full);
      }
    }
  }

  // ---- The cache -------------------------------------------------------------------------------

  /** A cached address that came from a lookup is backed by a claim of the same peer that expires no
      earlier and wins among the prefixes up to its own length; whatever is more specific belongs
      to other peers and has been announced since. */
  ghost predicate Backed(claims: seq<Claim>, entry: CacheValue, a: Address, prefix: nat, overtaken: bool) {
    && (var best := Winner(claims, a, prefix);
        && best.Some? && best.value.peer == entry.peer && best.value.range.prefixLen as int == prefix
        && best.value.timeout >= entry.timeout)
    && forall c | c in claims :: MoreSpecific(c, a, prefix) ==> c.peer != entry.peer && overtaken
  }

  predicate MoreSpecific(c: Claim, a: Address, prefix: nat) {
    Contains(c.range, a) && c.range.prefixLen as int > prefix
  }

  ghost predicate Inv(w: Watched) {
    forall a | a in w.basis ::
      a in w.t.cache && Backed(w.t.claims, w.t.cache[a], a, w.basis[a], a in w.overtaken)
  }

  lemma LookupBacked(claims: seq<Claim>, addr: Address, timeout: Time)
    requires Scan(claims, addr).Some? && timeout <= Scan(claims, addr).value.timeout
    ensures var c := Scan(claims, addr).value;
            Backed(claims, CacheValue(c.peer, timeout), addr, c.range.prefixLen, false)
  {
    var i := WinnerIsFirstLongest(claims, addr, 255);
    WinnerUncapped(claims, addr, Scan(claims, addr).value.range.prefixLen);
  }

  lemma HousekeepBacked(claims: seq<Claim>, entry: CacheValue, a: Address, prefix: nat, overtaken: bool, now: Time)
    requires Backed(claims, entry, a, prefix, overtaken) && entry.timeout >= now
    ensures Backed(Alive(claims, now), entry, a, prefix, overtaken)
  {
    WinnerAlive(claims, a, prefix, now);
    forall c | c in Alive(claims, now)
      ensures MoreSpecific(c, a, prefix) ==> c.peer != entry.peer && overtaken
    {
      AliveSubset(claims, now, c);
    }
  }

  lemma RetimedBacked(claims: seq<Claim>, claims': seq<Claim>, entry: CacheValue, a: Address, prefix: nat,
                      overtaken: bool, peer: Peer)
    requires Backed(claims, entry, a, prefix, overtaken) && Retimed(claims, claims', peer) && entry.peer != peer
    ensures Backed(claims', entry, a, prefix, overtaken)
  {
    WinnerRetimed(claims, claims', peer, a, prefix);
    forall c | c in claims'
      ensures MoreSpecific(c, a, prefix) ==> c.peer != entry.peer && overtaken
    {
      var i :| 0 <= i < |claims'| && claims'[i] == c;
      assert claims[i] in claims && (MoreSpecific(c, a, prefix) ==> MoreSpecific(claims[i], a, prefix));
    }
  }

  lemma AddedBacked(claims: seq<Claim>, entry: CacheValue, a: Address, prefix: nat, overtaken: bool, peer: Peer,
                    added: seq<Range>, ranges: seq<Range>, full: Time)
    requires Backed(claims, entry, a, prefix, overtaken) && entry.peer != peer
    requires forall r | r in added :: r in ranges
    ensures Backed(claims + NewClaims(peer, added, full), entry, a, prefix, overtaken || Overtakes(ranges, a, prefix))
  {
    WinnerAppend(claims, NewClaims(peer, added, full), a, prefix);
    forall c | c in claims + NewClaims(peer, added, full)
      ensures MoreSpecific(c, a, prefix) ==> c.peer != entry.peer && (overtaken || Overtakes(ranges, a, prefix))
    {
      if c !in claims && MoreSpecific(c, a, prefix) {
        var i :| 0 <= i < |added| && NewClaims(peer, added, full)[i] == c;
        assert added[i] in added;
      }
    }
  }

  /** What an announcement at a time after zero leaves in the cache is still backed. */
  lemma SetBacked(t: Table, a: Address, prefix: nat, overtaken: bool, peer: Peer, ranges: seq<Range>, now: Time)
    requires a in t.cache && Backed(t.claims, t.cache[a], a, prefix, overtaken) && now > 0
    requires a in SetClaims(t, peer, ranges, now).cache
    ensures var t' := SetClaims(t, peer, ranges, now);
            Backed(t'.claims, t'.cache[a], a, prefix, overtaken || Overtakes(ranges, a, prefix))
  {
    var full := now + t.claimTimeout;
    assert t.cache[a].peer != peer && SetClaims(t, peer, ranges, now).cache[a] == t.cache[a];
    AnnounceBacked(t.claims, t.cache[a], a, prefix, overtaken, peer, ranges, full);
    HousekeepBacked(Announce(t.claims, peer, ranges, full), t.cache[a], a, prefix,
                    overtaken || Overtakes(ranges, a, prefix), now);
  }

  lemma AnnounceBacked(claims: seq<Claim>, entry: CacheValue, a: Address, prefix: nat, overtaken: bool, peer: Peer,
                       ranges: seq<Range>, full: Time)
    requires Backed(claims, entry, a, prefix, overtaken) && entry.peer != peer
    ensures Backed(Announce(claims, peer, ranges, full), entry, a, prefix, overtaken || Overtakes(ranges, a, prefix))
  {
    var (old', new') := Refresh(claims, peer, ranges, full);
    RefreshRetimes(claims, peer, ranges, full);
    RetimedBacked(claims, old', entry, a, prefix, overtaken, peer);
    AddedBacked(old', entry, a, prefix, overtaken, peer, new', ranges, full);
  }

  lemma RemoveBacked(t: Table, a: Address, prefix: nat, overtaken: bool, peer: Peer, now: Time)
    requires a in t.cache && Backed(t.claims, t.cache[a], a, prefix, overtaken) && now > 0
    requires a in RemoveClaims(t, peer, now).cache
    ensures var t' := RemoveClaims(t, peer, now); Backed(t'.claims, t'.cache[a], a, prefix, overtaken)
  {
    assert t.cache[a].peer != peer && RemoveClaims(t, peer, now).cache[a] == t.cache[a];
    RetimedBacked(t.claims, Expire(t.claims, peer), t.cache[a], a, prefix, overtaken, peer);
    HousekeepBacked(Expire(t.claims, peer), t.cache[a], a, prefix, overtaken, now);
  }

  lemma StepInv(w: Watched, op: Op, now: Time)
    requires Inv(w) && now > 0
    ensures Inv(Step(w, op, now))
  {
    var w' := Step(w, op, now);
    forall a | a in w'.basis
      ensures a in w'.t.cache && Backed(w'.t.claims, w'.t.cache[a], a, w'.basis[a], a in w'.overtaken)
    {
      match op
      case OpLearn(addr, peer) =>
      case OpSet(peer, ranges) => SetBacked(w.t, a, w.basis[a], a in w.overtaken, peer, ranges, now);
      case OpRemove(peer) => RemoveBacked(w.t, a, w.basis[a], a in w.overtaken, peer, now);
      case OpLookup(addr) =>
        if a == addr && addr !in w.t.cache && Scan(w.t.claims, addr).Some? {
          LookupBacked(w.t.claims, addr, w'.t.cache[addr].timeout);
        }
      case OpHousekeep => HousekeepBacked(w.t.claims, w.t.cache[a], a, w.basis[a], a in w.overtaken, now);
      case OpClear =>
    }
  }

  function NewTable(cacheTimeout: nat, claimTimeout: nat): Table {
    Table(map[], [], cacheTimeout, claimTimeout)
  }

  /** A run of operations from an empty table, each at its own time. */
  ghost function Run(cacheTimeout: nat, claimTimeout: nat, ops: seq<(Op, Time)>): Watched
    decreases |ops|
  {
    if ops == [] then Watched(NewTable(cacheTimeout, claimTimeout), map[], {})
    else
      var n := |ops| - 1;
      Step(Run(cacheTimeout, claimTimeout, ops[..n]), ops[n].0, ops[n].1)
  }

  lemma {:induction false} RunInv(cacheTimeout: nat, claimTimeout: nat, ops: seq<(Op, Time)>)
    requires forall i | 0 <= i < |ops| :: ops[i].1 > 0
    ensures Inv(Run(cacheTimeout, claimTimeout, ops))
    decreases |ops|
  {
    if ops != [] {
      var n := |ops| - 1;
      RunInv(cacheTimeout, claimTimeout, ops[..n]);
      StepInv(Run(cacheTimeout, claimTimeout, ops[..n]), ops[n].0, ops[n].1);
    }
  }

  /** Cache backing over every run at times after zero: each address cached by a lookup has a claim
      still in the table, of the same peer, containing it and expiring no earlier. */
  lemma CacheBacked(cacheTimeout: nat, claimTimeout: nat, ops: seq<(Op, Time)>, a: Address)
    requires forall i | 0 <= i < |ops| :: ops[i].1 > 0
    requires a in Run(cacheTimeout, claimTimeout, ops).basis
    ensures var t := Run(cacheTimeout, claimTimeout, ops).t;
            a in t.cache && exists c :: c in t.claims && c.peer == t.cache[a].peer && Contains(c.range, a)
                                        && c.timeout >= t.cache[a].timeout
  {
    RunInv(cacheTimeout, claimTimeout, ops);
    var w := Run(cacheTimeout, claimTimeout, ops);
    var i := WinnerIsFirstLongest(w.t.claims, a, w.basis[a]);
    assert w.t.claims[i] in w.t.claims;
  }

  /** Cache and scan: an address cached by a lookup leads to the peer a scan of the current claims
      finds, exactly if no claim in the table is more specific than the one it was found by; and a
      more specific one has always been announced, by another peer, since. */
  lemma CacheAgreesWithScan(cacheTimeout: nat, claimTimeout: nat, ops: seq<(Op, Time)>, a: Address)
    requires forall i | 0 <= i < |ops| :: ops[i].1 > 0
    requires a in Run(cacheTimeout, claimTimeout, ops).basis
    ensures var w := Run(cacheTimeout, claimTimeout, ops);
            && a in w.t.cache && Scan(w.t.claims, a).Some?
            && (Scan(w.t.claims, a).value.peer == w.t.cache[a].peer
                <==> forall c | c in w.t.claims :: !MoreSpecific(c, a, w.basis[a]))
            && (a !in w.overtaken ==> Scan(w.t.claims, a).value.peer == w.t.cache[a].peer)
  {
    RunInv(cacheTimeout, claimTimeout, ops);
    var w := Run(cacheTimeout, claimTimeout, ops);
    var prefix := w.basis[a];
    var i := WinnerIsFirstLongest(w.t.claims, a, prefix);
    var j := WinnerIsFirstLongest(w.t.claims, a, 255);
    if forall c | c in w.t.claims :: !MoreSpecific(c, a, prefix) {
      WinnerUncapped(w.t.claims, a, prefix);
    } else {
      var c :| c in w.t.claims && MoreSpecific(c, a, prefix);
      assert Competes(c, a, 255);
      assert MoreSpecific(w.t.claims[j], a, prefix);
    }
  }

  // ---- Removal ---------------------------------------------------------------------------------

  ghost predicate NoTrace(t: Table, peer: Peer) {
    && (forall c | c in t.claims :: c.peer != peer)
    && (forall a | a in t.cache :: t.cache[a].peer != peer)
  }

  ghost predicate Mentions(op: Op, peer: Peer) {
    (op.OpSet? && op.peer == peer) || (op.OpLearn? && op.peer == peer)
  }

  lemma HousekeepNoTrace(t: Table, peer: Peer, now: Time)
    requires forall c | c in t.claims && c.timeout >= now :: c.peer != peer
    requires forall a | a in t.cache && t.cache[a].timeout >= now :: t.cache[a].peer != peer
    ensures NoTrace(Housekeep(t, now), peer)
  {
    forall c | c in Alive(t.claims, now)
      ensures c.peer != peer
    {
      AliveSubset(t.claims, now, c);
    }
  }

  lemma RemoveNoTrace(t: Table, peer: Peer, now: Time)
    requires now > 0
    ensures NoTrace(RemoveClaims(t, peer, now), peer)
  {
    HousekeepNoTrace(t.(claims := Expire(t.claims, peer), cache := Flush(t.cache, peer)), peer, now);
  }

  lemma AnnounceNoTrace(claims: seq<Claim>, all: seq<Claim>, q: Peer, ranges: seq<Range>, full: Time, peer: Peer)
    requires q != peer && all == Announce(claims, q, ranges, full)
    requires forall c | c in claims :: c.peer != peer
    ensures forall c | c in all :: c.peer != peer
  {
    AnnounceTimeouts(claims, q, ranges, full);
    forall c | c in all
      ensures c.peer != peer
    {
      var i :| 0 <= i < |all| && all[i] == c;
      if i < |claims| {
        assert claims[i] in claims;
      }
    }
  }

  lemma StepNoTrace(t: Table, op: Op, now: Time, peer: Peer)
    requires NoTrace(t, peer) && !Mentions(op, peer)
    ensures NoTrace(Apply(t, op, now), peer)
    ensures op.OpLookup? ==> Lookup(t, op.addr, now).1 != Some(peer)
  {
    match op
    case OpSet(q, ranges) =>
      var all := Announce(t.claims, q, ranges, now + t.claimTimeout);
      AnnounceNoTrace(t.claims, all, q, ranges, now + t.claimTimeout, peer);
      HousekeepNoTrace(t.(claims := all, cache := Flush(t.cache, q)), peer, now);
    case OpRemove(q) =>
      HousekeepNoTrace(t.(claims := Expire(t.claims, q), cache := Flush(t.cache, q)), peer, now);
    case OpLookup(addr) =>
      var i := WinnerIsFirstLongest(t.claims, addr, 255);
    case OpHousekeep => HousekeepNoTrace(t, peer, now);
    case _ =>
  }

  function ApplyAll(t: Table, ops: seq<(Op, Time)>): Table
    decreases |ops|
  {
    if ops == [] then t else Apply(ApplyAll(t, ops[..|ops| - 1]), ops[|ops| - 1].0, ops[|ops| - 1].1)
  }

  lemma {:induction false} RunNoTrace(t: Table, ops: seq<(Op, Time)>, peer: Peer)
    requires NoTrace(t, peer) && forall i | 0 <= i < |ops| :: !Mentions(ops[i].0, peer)
    ensures NoTrace(ApplyAll(t, ops), peer)
    decreases |ops|
  {
    if ops != [] {
      var n := |ops| - 1;
      RunNoTrace(t, ops[..n], peer);
      StepNoTrace(ApplyAll(t, ops[..n]), ops[n].0, ops[n].1, peer);
    }
  }

  /** After the claims of a peer are removed at a time after zero, no lookup leads to that peer until
      it is announced or learned again. */
  lemma RemovedStaysRemoved(t: Table, peer: Peer, now: Time, ops: seq<(Op, Time)>, addr: Address, later: Time)
    requires now > 0 && forall i | 0 <= i < |ops| :: !Mentions(ops[i].0, peer)
    ensures Lookup(ApplyAll(RemoveClaims(t, peer, now), ops), addr, later).1 != Some(peer)
  {
    RemoveNoTrace(t, peer, now);
    RunNoTrace(RemoveClaims(t, peer, now), ops, peer);
    StepNoTrace(ApplyAll(RemoveClaims(t, peer, now), ops), OpLookup(addr), later, peer);
  }

  // ---- Announcements ---------------------------------------------------------------------------

  lemma {:induction false} PositionIn(ranges: seq<Range>, r: Range)
    ensures r in ranges <==> Position(ranges, r) < |ranges|
  {
    if ranges != [] && ranges[0] != r {
      PositionIn(ranges[1..], r);
    }
  }

  /** Taking one range out leaves every other one in. */
  lemma SwapRemoveKeeps(ranges: seq<Range>, i: nat, r: Range)
    requires i < |ranges| && r in ranges && r != ranges[i]
    ensures r in SwapRemove(ranges, i)
  {
    var j :| 0 <= j < |ranges| && ranges[j] == r;
    var k := if j == |ranges| - 1 then i else j;
    assert SwapRemove(ranges, i)[k] == r;
  }

  /** Every announced range ends up with the full timeout, in place or among the new ones. */
  lemma {:induction false} RefreshCovers(claims: seq<Claim>, peer: Peer, ranges: seq<Range>, full: Time, r: Range)
    requires r in ranges
    ensures var (old', new') := Refresh(claims, peer, ranges, full);
            Claim(peer, r, full) in old' || r in new'
  {
    if claims != [] {
      var (old', new') := Refresh(claims, peer, ranges, full);
      var i := Position(ranges, claims[0].range);
      if claims[0].peer != peer || i == |ranges| {
        RefreshCovers(claims[1..], peer, ranges, full, r);
        var (rest, left) := Refresh(claims[1..], peer, ranges, full);
        assert forall c | c in rest :: c in old';
      } else if claims[0].range == r {
        assert old'[0] == Claim(peer, r, full);
      } else {
        SwapRemoveKeeps(ranges, i, r);
        RefreshCovers(claims[1..], peer, SwapRemove(ranges, i), full, r);
        var (rest, left) := Refresh(claims[1..], peer, SwapRemove(ranges, i), full);
        assert forall c | c in rest :: c in old';
      }
    }
  }

  /** The claims of other peers, in order. */
  function Others(claims: seq<Claim>, peer: Peer): seq<Claim>
    decreases |claims|
  {
    if claims == [] then []
    else
      var n := |claims| - 1;
      Others(claims[..n], peer) + if claims[n].peer != peer then [claims[n]] else []
  }

  lemma {:induction false} OthersRetimed(a: seq<Claim>, b: seq<Claim>, peer: Peer)
    requires Retimed(a, b, peer)
    ensures Others(b, peer) == Others(a, peer)
    decreases |a|
  {
    if a != [] {
      OthersRetimed(a[..|a| - 1], b[..|a| - 1], peer);
    }
  }

  lemma {:induction false} OthersAppend(a: seq<Claim>, more: seq<Claim>, peer: Peer)
    requires forall i | 0 <= i < |more| :: more[i].peer == peer
    ensures Others(a + more, peer) == Others(a, peer)
    decreases |more|
  {
    if more == [] {
      assert a + more == a;
    } else {
      var n := |more| - 1;
      assert (a + more)[..|a| + n] == a + more[..n];
      OthersAppend(a, more[..n], peer);
    }
  }

  lemma {:induction false} OthersAlive(claims: seq<Claim>, peer: Peer, now: Time)
    ensures Others(Alive(claims, now), peer) == Alive(Others(claims, peer), now)
    decreases |claims|
  {
    if claims != [] {
      var n := |claims| - 1;
      OthersAlive(claims[..n], peer, now);
      var rest, others := Alive(claims[..n], now), Others(claims[..n], peer);
      assert rest + [] == rest && others + [] == others;
      assert (rest + [claims[n]])[..|rest|] == rest && (others + [claims[n]])[..|others|] == others;
    }
  }

  /** Every announced range is held for the peer with the full timeout. */
  lemma AnnouncedHeld(t: Table, peer: Peer, ranges: seq<Range>, now: Time, r: Range)
    requires r in ranges
    ensures Claim(peer, r, now + t.claimTimeout) in SetClaims(t, peer, ranges, now).claims
  {
    var full := now + t.claimTimeout;
    AnnounceCovers(t.claims, peer, ranges, full, r);
    AliveKeeps(Announce(t.claims, peer, ranges, full), now, Claim(peer, r, full));
  }

  lemma AnnounceCovers(claims: seq<Claim>, peer: Peer, ranges: seq<Range>, full: Time, r: Range)
    requires r in ranges
    ensures Claim(peer, r, full) in Announce(claims, peer, ranges, full)
  {
    RefreshCovers(claims, peer, ranges, full, r);
    var (old', new') := Refresh(claims, peer, ranges, full);
    if r in new' {
      NewClaimsCover(peer, new', full, r);
    }
  }

  lemma NewClaimsCover(peer: Peer, ranges: seq<Range>, full: Time, r: Range)
    requires r in ranges
    ensures Claim(peer, r, full) in NewClaims(peer, ranges, full)
  {
    var i :| 0 <= i < |ranges| && ranges[i] == r;
    assert NewClaims(peer, ranges, full)[i] == Claim(peer, r, full);
  }

  /** An announcement leaves the claims of all other peers as they were, in order, except for those
      that have expired. */
  lemma OthersUntouched(t: Table, peer: Peer, ranges: seq<Range>, now: Time)
    ensures Others(SetClaims(t, peer, ranges, now).claims, peer) == Alive(Others(t.claims, peer), now)
  {
    var after := SetClaims(t, peer, ranges, now).claims;
    OthersAnnounced(t.claims, peer, ranges, now + t.claimTimeout);
    OthersKept(t.claims, Announce(t.claims, peer, ranges, now + t.claimTimeout), after, peer, now);
  }

  lemma OthersKept(claims: seq<Claim>, all: seq<Claim>, after: seq<Claim>, peer: Peer, now: Time)
    requires Others(all, peer) == Others(claims, peer) && after == Alive(all, now)
    ensures Others(after, peer) == Alive(Others(claims, peer), now)
  {
    OthersAlive(all, peer, now);
  }

  lemma OthersAnnounced(claims: seq<Claim>, peer: Peer, ranges: seq<Range>, full: Time)
    ensures Others(Announce(claims, peer, ranges, full), peer) == Others(claims, peer)
  {
    var (old', new') := Refresh(claims, peer, ranges, full);
    RefreshRetimes(claims, peer, ranges, full);
    OthersRetimed(claims, old', peer);
    OthersAppend(old', NewClaims(peer, new', full), peer);
  }

  /** Where the walk of an announcement stops: behind the entry that matches the last range left. */
  function Stop(claims: seq<Claim>, peer: Peer, ranges: seq<Range>): (n: nat)
    ensures n <= |claims|
  {
    if claims == [] then 0
    else
      var i := Position(ranges, claims[0].range);
      if claims[0].peer != peer || i == |ranges| then 1 + Stop(claims[1..], peer, ranges)
      else if |ranges| == 1 then 1
      else 1 + Stop(claims[1..], peer, SwapRemove(ranges, i))
  }

  /** Entries behind the stop keep their timeout; entries of the peer before it are renewed or marked. */
  lemma {:induction false} RefreshStops(claims: seq<Claim>, peer: Peer, ranges: seq<Range>, full: Time)
    ensures var old', n := Refresh(claims, peer, ranges, full).0, Stop(claims, peer, ranges);
            && old'[n..] == claims[n..]
            && forall i | 0 <= i < n && claims[i].peer == peer :: old'[i].timeout == 0 || claims[i].range in ranges
    decreases |claims|
  {
    if claims != [] {
      var i := Position(ranges, claims[0].range);
      if claims[0].peer != peer || i == |ranges| {
        RefreshStops(claims[1..], peer, ranges, full);
      } else if |ranges| > 1 {
        var left := SwapRemove(ranges, i);
        RefreshStops(claims[1..], peer, left, full);
        assert forall r | r in left :: r in ranges;
      }
    }
  }

  /** Withdrawal: after an announcement at a time after zero the peer holds announced ranges only,
      exactly if every unexpired entry of its own behind the stop is announced as well. */
  lemma WithdrawalExact(t: Table, peer: Peer, ranges: seq<Range>, now: Time)
    requires now > 0
    ensures var n := Stop(t.claims, peer, ranges);
            (forall c | c in SetClaims(t, peer, ranges, now).claims && c.peer == peer :: c.range in ranges)
            <==> (forall i | n <= i < |t.claims| && t.claims[i].peer == peer && t.claims[i].timeout >= now ::
                    t.claims[i].range in ranges)
  {
    var n := Stop(t.claims, peer, ranges);
    var all := Announce(t.claims, peer, ranges, now + t.claimTimeout);
    AnnounceStops(t.claims, peer, ranges, now + t.claimTimeout);
    if RestAnnounced(t.claims, n, peer, ranges, now) {
      OnlyAnnounced(t.claims, all, n, peer, ranges, now);
    } else {
      LeftOver(t.claims, all, n, peer, ranges, now);
    }
  }

  lemma LeftOver(claims: seq<Claim>, all: seq<Claim>, n: nat, peer: Peer, ranges: seq<Range>, now: Time)
    requires !RestAnnounced(claims, n, peer, ranges, now) && |all| >= |claims|
    requires forall i | n <= i < |claims| :: all[i] == claims[i]
    ensures exists c :: c in Alive(all, now) && c.peer == peer && c.range !in ranges
  {
    var i :| n <= i < |claims| && claims[i].peer == peer && claims[i].timeout >= now && claims[i].range !in ranges;
    assert all[i] == claims[i];
    AliveKeeps(all, now, claims[i]);
  }

  /** Every unexpired entry of the peer from `n` on is announced as well. */
  ghost predicate RestAnnounced(claims: seq<Claim>, n: nat, peer: Peer, ranges: seq<Range>, now: Time) {
    forall i | n <= i < |claims| && claims[i].peer == peer && claims[i].timeout >= now :: claims[i].range in ranges
  }

  lemma OnlyAnnounced(claims: seq<Claim>, all: seq<Claim>, n: nat, peer: Peer, ranges: seq<Range>, now: Time)
    requires now > 0 && RestAnnounced(claims, n, peer, ranges, now) && |all| >= |claims|
    requires forall i | 0 <= i < |all| && all[i].peer == peer && !(n <= i < |claims|) ::
               all[i].timeout == 0 || all[i].range in ranges
    requires forall i | n <= i < |claims| :: all[i] == claims[i]
    ensures forall c | c in Alive(all, now) && c.peer == peer :: c.range in ranges
  {
    forall c | c in Alive(all, now) && c.peer == peer
      ensures c.range in ranges
    {
      AliveSubset(all, now, c);
      var i :| 0 <= i < |all| && all[i] == c;
    }
  }

  /** The entries of an announcement: unchanged behind the stop, renewed or marked for removal before
      it, and new ones at the end. */
  lemma AnnounceStops(claims: seq<Claim>, peer: Peer, ranges: seq<Range>, full: Time)
    ensures var all, n := Announce(claims, peer, ranges, full), Stop(claims, peer, ranges);
            && |all| >= |claims|
            && (forall i | 0 <= i < |all| && all[i].peer == peer && !(n <= i < |claims|) ::
                  all[i].timeout == 0 || all[i].range in ranges)
            && (forall i | n <= i < |claims| :: all[i] == claims[i])
  {
    var n := Stop(claims, peer, ranges);
    var (old', new') := Refresh(claims, peer, ranges, full);
    var all := Announce(claims, peer, ranges, full);
    RefreshStops(claims, peer, ranges, full);
    RefreshRetimes(claims, peer, ranges, full);
    forall i | n <= i < |claims|
      ensures all[i] == claims[i]
    {
      assert old'[n..][i - n] == claims[n..][i - n];
    }
    forall i | |claims| <= i < |all|
      ensures all[i].range in ranges
    {
      assert new'[i - |claims|] in new';
    }
  }

  /** A range that is no longer announced survives when the announced one comes first. */
  lemma WithdrawalCanFail(a: Range, b: Range)
    requires a != b
    ensures var t := SetClaims(NewTable(10, 100), 1, [a, b], 5);
            Claim(1, b, 105) in SetClaims(t, 1, [a], 6).claims
  {
    var x, y := Claim(1, a, 105), Claim(1, b, 105);
    assert [] + NewClaims(1, [a, b], 105) == [x, y];
    assert [x, y][..1] == [x] && [x][..0] == [] && Alive([x], 5) == [x];
    var t := SetClaims(NewTable(10, 100), 1, [a, b], 5);
    assert t.claims == [x, y];
    assert Position([a], a) == 0 && Stop(t.claims, 1, [a]) == 1;
    RefreshStops(t.claims, 1, [a], 106);
    var (old', new') := Refresh(t.claims, 1, [a], 106);
    assert old'[1..][0] == t.claims[1..][0] == y;
    AliveKeeps(old' + NewClaims(1, new', 106), 6, y);
  }

  // ---- Lifetime --------------------------------------------------------------------------------

  /** When each range was last announced by each peer. */
  function Announced(since: map<(Peer, Range), Time>, op: Op, now: Time): map<(Peer, Range), Time> {
    if op.OpSet? then map k | k in since.Keys + (set r | r in op.ranges :: (op.peer, r)) ::
      if k.0 == op.peer && k.1 in op.ranges then now else since[k]
    else since
  }

  /** What one entry needs to be timely, by its peer, range and timeout. */
  ghost predicate InTime(c: Claim, since: map<(Peer, Range), Time>, claimTimeout: nat) {
    (c.peer, c.range) in since && c.timeout <= since[(c.peer, c.range)] + claimTimeout
  }

  /** No claim outlives its last announcement by more than the claim timeout. */
  ghost predicate Timely(t: Table, since: map<(Peer, Range), Time>) {
    forall c | c in t.claims :: InTime(c, since, t.claimTimeout)
  }

  lemma TimelyHousekeep(t: Table, since: map<(Peer, Range), Time>, now: Time)
    requires Timely(t, since)
    ensures Timely(Housekeep(t, now), since)
  {
    forall c | c in Alive(t.claims, now)
      ensures c in t.claims
    {
      AliveSubset(t.claims, now, c);
    }
  }

  lemma {:induction false} RefreshTimeouts(claims: seq<Claim>, peer: Peer, ranges: seq<Range>, full: Time)
    ensures var old' := Refresh(claims, peer, ranges, full).0;
            forall i | 0 <= i < |claims| ::
              old'[i] == claims[i] || old'[i] == claims[i].(timeout := 0)
              || (old'[i] == claims[i].(timeout := full) && claims[i].peer == peer && claims[i].range in ranges)
  {
    if claims != [] {
      RefreshTimeouts(claims[1..], peer, ranges, full);
      var i := Position(ranges, claims[0].range);
      if i < |ranges| {
        RefreshTimeouts(claims[1..], peer, SwapRemove(ranges, i), full);
        assert forall r | r in SwapRemove(ranges, i) :: r in ranges;
      }
    }
  }

  /** An announcement only touches timeouts, and gives the full one to announced ranges only. */
  lemma AnnounceTimeouts(claims: seq<Claim>, peer: Peer, ranges: seq<Range>, full: Time)
    ensures var all := Announce(claims, peer, ranges, full);
            && |all| >= |claims|
            && (forall i | 0 <= i < |claims| ::
                  && all[i].peer == claims[i].peer && all[i].range == claims[i].range
                  && (all[i].timeout == claims[i].timeout || all[i].timeout == 0
                      || (all[i].timeout == full && claims[i].peer == peer && claims[i].range in ranges)))
            && (forall i | |claims| <= i < |all| ::
                  all[i].peer == peer && all[i].range in ranges && all[i].timeout == full)
  {
    var (old', new') := Refresh(claims, peer, ranges, full);
    var all := Announce(claims, peer, ranges, full);
    RefreshTimeouts(claims, peer, ranges, full);
    RefreshRetimes(claims, peer, ranges, full);
    forall i | |claims| <= i < |all|
      ensures all[i].range in ranges
    {
      assert new'[i - |claims|] in new';
    }
  }

  lemma EntryInTime(c: Claim, c': Claim, since: map<(Peer, Range), Time>, peer: Peer, ranges: seq<Range>, now: Time,
                    claimTimeout: nat)
    requires InTime(c, since, claimTimeout) && 0 < since[(c.peer, c.range)] <= now
    requires c'.peer == c.peer && c'.range == c.range
    requires c'.timeout == c.timeout || c'.timeout == 0
             || (c'.timeout == now + claimTimeout && c.peer == peer && c.range in ranges)
    ensures InTime(c', Announced(since, OpSet(peer, ranges), now), claimTimeout)
  {
  }

  lemma TimelySet(t: Table, since: map<(Peer, Range), Time>, peer: Peer, ranges: seq<Range>, now: Time)
    requires Timely(t, since) && now > 0
    requires forall k | k in since :: 0 < since[k] <= now
    ensures Timely(SetClaims(t, peer, ranges, now), Announced(since, OpSet(peer, ranges), now))
  {
    var t1 := t.(claims := Announce(t.claims, peer, ranges, now + t.claimTimeout), cache := Flush(t.cache, peer));
    TimelyAnnounced(t.claims, t1.claims, since, peer, ranges, now, t.claimTimeout);
    TimelyHousekeep(t1, Announced(since, OpSet(peer, ranges), now), now);
  }

  lemma TimelyAnnounced(claims: seq<Claim>, all: seq<Claim>, since: map<(Peer, Range), Time>, peer: Peer,
                        ranges: seq<Range>, now: Time, claimTimeout: nat)
    requires all == Announce(claims, peer, ranges, now + claimTimeout)
    requires forall c | c in claims :: InTime(c, since, claimTimeout)
    requires forall k | k in since :: 0 < since[k] <= now
    ensures forall c | c in all :: InTime(c, Announced(since, OpSet(peer, ranges), now), claimTimeout)
  {
    AnnounceTimeouts(claims, peer, ranges, now + claimTimeout);
    forall c | c in all
      ensures InTime(c, Announced(since, OpSet(peer, ranges), now), claimTimeout)
    {
      var i :| 0 <= i < |all| && all[i] == c;
      if i < |claims| {
        assert claims[i] in claims;
        EntryInTime(claims[i], c, since, peer, ranges, now, claimTimeout);
      }
    }
  }

  lemma TimelyStep(t: Table, since: map<(Peer, Range), Time>, op: Op, now: Time)
    requires Timely(t, since) && now > 0
    requires forall k | k in since :: 0 < since[k] <= now
    ensures Timely(Apply(t, op, now), Announced(since, op, now))
  {
    match op
    case OpSet(peer, ranges) => TimelySet(t, since, peer, ranges, now);
    case OpRemove(peer) =>
      var t1 := t.(claims := Expire(t.claims, peer), cache := Flush(t.cache, peer));
      forall c | c in t1.claims
        ensures InTime(c, since, t.claimTimeout)
      {
        var i :| 0 <= i < |t1.claims| && t1.claims[i] == c;
        assert t.claims[i] in t.claims;
      }
      TimelyHousekeep(t1, since, now);
    case OpHousekeep => TimelyHousekeep(t, since, now);
    case _ =>
  }

  function AnnouncedBy(ops: seq<(Op, Time)>): map<(Peer, Range), Time>
    decreases |ops|
  {
    if ops == [] then map[] else Announced(AnnouncedBy(ops[..|ops| - 1]), ops[|ops| - 1].0, ops[|ops| - 1].1)
  }

  ghost predicate Ordered(ops: seq<(Op, Time)>) {
    && (forall i | 0 <= i < |ops| :: ops[i].1 > 0)
    && (forall i, j | 0 <= i < j < |ops| :: ops[i].1 <= ops[j].1)
  }

  /** Over every run with a clock that does not go back, no claim's timeout exceeds its last
      announcement plus the claim timeout. */
  lemma {:induction false} ClaimLifetime(cacheTimeout: nat, claimTimeout: nat, ops: seq<(Op, Time)>)
    requires Ordered(ops)
    ensures Timely(ApplyAll(NewTable(cacheTimeout, claimTimeout), ops), AnnouncedBy(ops))
    ensures forall k | k in AnnouncedBy(ops) :: ops != [] && 0 < AnnouncedBy(ops)[k] <= ops[|ops| - 1].1
    ensures ApplyAll(NewTable(cacheTimeout, claimTimeout), ops).claimTimeout == claimTimeout
    decreases |ops|
  {
    if ops != [] {
      var n := |ops| - 1;
      ClaimLifetime(cacheTimeout, claimTimeout, ops[..n]);
      TimelyStep(ApplyAll(NewTable(cacheTimeout, claimTimeout), ops[..n]), AnnouncedBy(ops[..n]), ops[n].0, ops[n].1);
    }
  }
}
