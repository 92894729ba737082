/** Choosing the algorithm of a connection (`select_algorithm`). Speeds are totally ordered. */
module Negotiation {
  import opened Primitives

  datatype Algorithm = Aes128 | Aes256 | ChaCha20

  type Speeds = seq<(Algorithm, real)>

  datatype Algorithms = Algorithms(speeds: Speeds, allowUnencrypted: bool)

  datatype Choice = Unencrypted | Use(algorithm: Algorithm) | NoCommon

  function Find(list: Speeds, a: Algorithm): Option<real> {
    if list == [] then None
    else if list[0].0 == a then Some(list[0].1)
    else Find(list[1..], a)
  }

  /** What an own entry is worth: the smaller of the two speeds, if the peer has the algorithm. */
  function Joint(own: (Algorithm, real), peer: Speeds): Option<real> {
    match Find(peer, own.0)
    case None => None
    case Some(s) => Some(if own.1 < s then own.1 else s)
  }

  function Worths(own: Speeds, peer: Speeds): (w: seq<Option<real>>)
    ensures |w| == |own|
  {
    seq(|own|, i requires 0 <= i < |own| => Joint(own[i], peer))
  }

  /** The index of the maximum; a later entry wins only by being strictly greater. */
  function Maximum(w: seq<Option<real>>): (r: Option<nat>)
    ensures r.Some? ==> FirstMaximum(w, r.value)
    ensures r.None? ==> forall j | 0 <= j < |w| :: w[j].None?
    decreases |w|
  {
    if w == [] then None
    else
      var n := |w| - 1;
      var m := Maximum(w[..n]);
      if w[n].Some? && (m.None? || w[m.value].value < w[n].value) then Some(n) else m
  }

  /** Entry `i` is the first of the greatest ones. */
  ghost predicate FirstMaximum(w: seq<Option<real>>, i: nat) {
    && i < |w| && w[i].Some?
    && (forall j | 0 <= j < |w| && w[j].Some? :: w[j].value <= w[i].value)
    && (forall j | 0 <= j < i && w[j].Some? :: w[j].value < w[i].value)
  }

  function Best(own: Speeds, peer: Speeds): Option<Algorithm> {
    match Maximum(Worths(own, peer))
    case None => None
    case Some(i) => Some(own[i].0)
  }

  function Select(own: Algorithms, peer: Algorithms): Choice {
    if own.allowUnencrypted && peer.allowUnencrypted then Unencrypted
    else
      match Best(own.speeds, peer.speeds)
      case None => NoCommon
      case Some(a) => Use(a)
  }

  // ---- When both ends select alike -------------------------------------------------------------

  /** The entry that `Find` looks at. */
  ghost predicate FirstOf(list: Speeds, i: nat) {
    i < |list| && forall j | 0 <= j < i :: list[j].0 != list[i].0
  }

  /** The first entry of each algorithm is its fastest; so it is in a list without repetitions. */
  ghost predicate FirstIsFastest(list: Speeds) {
    forall i: nat, j: nat | FirstOf(list, i) && j < |list| && list[j].0 == list[i].0 :: list[j].1 <= list[i].1
  }

  lemma {:induction false} FindIndex(list: Speeds, a: Algorithm) returns (i: nat)
    ensures Find(list, a).Some? ==> FirstOf(list, i) && list[i].0 == a
  {
    i := 0;
    if list != [] && list[0].0 != a {
      i := FindIndex(list[1..], a);
      i := i + 1;
    }
  }

  /** An algorithm both ends have, with its first place in both lists. */
  ghost predicate Common(own: Speeds, peer: Speeds, i: nat, j: nat) {
    FirstOf(own, i) && FirstOf(peer, j) && own[i].0 == peer[j].0
  }

  /** The first entries of a common algorithm are worth the same to both ends. */
  lemma WorthSymmetric(own: Speeds, peer: Speeds, i: nat, j: nat)
    requires Common(own, peer, i, j)
    ensures Worths(own, peer)[i] == Worths(peer, own)[j] && Worths(own, peer)[i].Some?
  {
    FoundAt(own, i);
    FoundAt(peer, j);
  }

  /** What an end chooses is a common algorithm, by its first entries. */
  lemma CommonOf(own: Speeds, peer: Speeds, i: nat) returns (j: nat)
    requires FirstIsFastest(own) && FirstMaximum(Worths(own, peer), i)
    ensures Common(own, peer, i, j) && Worths(own, peer)[i] == Worths(peer, own)[j]
  {
    var f := FirstIndex(own, i);
    assert Worths(own, peer)[f].value >= Worths(own, peer)[i].value;
    j := FindIndex(peer, own[i].0);
    WorthSymmetric(own, peer, i, j);
  }

  lemma {:induction false} FirstIndex(list: Speeds, i: nat) returns (f: nat)
    requires i < |list|
    ensures f <= i && FirstOf(list, f) && list[f].0 == list[i].0
  {
    if FirstOf(list, i) {
      f := i;
    } else {
      var k :| 0 <= k < i && list[k].0 == list[i].0;
      f := FirstIndex(list, k);
    }
  }

  lemma {:induction false} FindPresent(list: Speeds, i: nat)
    requires i < |list|
    ensures Find(list, list[i].0).Some?
  {
    if i > 0 {
      FindPresent(list[1..], i - 1);
    }
  }

  /** Both ends find a common algorithm or neither does, whatever the lists. */
  lemma BestDefined(own: Speeds, peer: Speeds)
    requires Best(own, peer).Some?
    ensures Best(peer, own).Some?
  {
    var i := Maximum(Worths(own, peer)).value;
    var j := FindIndex(peer, own[i].0);
    FindPresent(own, i);
    assert Worths(peer, own)[j].Some?;
  }

  lemma SelectionDefined(own: Algorithms, peer: Algorithms)
    ensures Select(own, peer).Unencrypted? <==> Select(peer, own).Unencrypted?
    ensures Select(own, peer).NoCommon? <==> Select(peer, own).NoCommon?
  {
    if Best(own.speeds, peer.speeds).Some? {
      BestDefined(own.speeds, peer.speeds);
    }
    if Best(peer.speeds, own.speeds).Some? {
      BestDefined(peer.speeds, own.speeds);
    }
  }

  /** The greatest speed a list gives for an algorithm. */
  function Fastest(list: Speeds, a: Algorithm): Option<real> {
    if list == [] then None
    else
      var r := Fastest(list[1..], a);
      if list[0].0 == a && (r.None? || r.value < list[0].1) then Some(list[0].1) else r
  }

  lemma {:induction false} FastestBounds(list: Speeds, i: nat)
    requires i < |list|
    ensures Fastest(list, list[i].0).Some? && list[i].1 <= Fastest(list, list[i].0).value
  {
    if i > 0 {
      FastestBounds(list[1..], i - 1);
    }
  }

  lemma {:induction false} FastestAt(list: Speeds, a: Algorithm) returns (i: nat)
    requires Fastest(list, a).Some?
    ensures i < |list| && list[i].0 == a && Fastest(list, a) == Some(list[i].1)
  {
    if Fastest(list[1..], a) == Fastest(list, a) {
      i := FastestAt(list[1..], a);
      i := i + 1;
    } else {
      i := 0;
    }
  }

  /** What an algorithm is worth to an end: the smaller of its own greatest speed and the speed the
      peer names first. */
  function Merit(own: Speeds, peer: Speeds, a: Algorithm): Option<real> {
    match (Fastest(own, a), Find(peer, a))
    case (Some(x), Some(y)) => Some(if x < y then x else y)
    case _ => None
  }

  /** Entry `i` makes algorithm `a` worth that much. */
  ghost predicate Reaches(own: Speeds, peer: Speeds, a: Algorithm, i: nat) {
    i < |own| && own[i].0 == a && Merit(own, peer, a).Some? && Merit(own, peer, a).value <= own[i].1
  }

  /** To this end `a` is worth more than `b`, or as much and it gets there earlier in the list. */
  ghost predicate Beats(own: Speeds, peer: Speeds, a: Algorithm, b: Algorithm) {
    var v, u := Merit(own, peer, a), Merit(own, peer, b);
    && v.Some?
    && (u.Some? ==>
          || u.value < v.value
          || (u == v && exists i: nat :: Reaches(own, peer, a, i) && forall k: nat | k <= i :: !Reaches(own, peer, b, k)))
  }

  lemma WorthMerit(own: Speeds, peer: Speeds, i: nat)
    requires i < |own|
    ensures var w, v := Worths(own, peer)[i], Merit(own, peer, own[i].0);
            && (w.Some? <==> v.Some?)
            && (w.Some? ==> w.value <= v.value && (w == v <==> Reaches(own, peer, own[i].0, i)))
  {
    FastestBounds(own, i);
  }

  lemma ReachedAt(own: Speeds, peer: Speeds, a: Algorithm) returns (i: nat)
    requires Merit(own, peer, a).Some?
    ensures Reaches(own, peer, a, i) && Worths(own, peer)[i] == Merit(own, peer, a)
  {
    i := FastestAt(own, a);
    WorthMerit(own, peer, i);
  }

  /** The greatest of all worths is the merit of its algorithm. */
  lemma MaximumMerit(own: Speeds, peer: Speeds, i: nat)
    requires FirstMaximum(Worths(own, peer), i)
    ensures Worths(own, peer)[i] == Merit(own, peer, own[i].0) && Reaches(own, peer, own[i].0, i)
  {
    WorthMerit(own, peer, i);
    var r := ReachedAt(own, peer, own[i].0);
  }

  lemma ChoiceBeats(own: Speeds, peer: Speeds, i: nat, b: Algorithm)
    requires FirstMaximum(Worths(own, peer), i) && b != own[i].0
    ensures Beats(own, peer, own[i].0, b)
  {
    MaximumMerit(own, peer, i);
    if Merit(own, peer, b).Some? {
      var r := ReachedAt(own, peer, b);
      if Merit(own, peer, b) == Merit(own, peer, own[i].0) {
        forall k: nat | k <= i
          ensures !Reaches(own, peer, b, k)
        {
          if Reaches(own, peer, b, k) {
            WorthMerit(own, peer, k);
          }
        }
      }
    }
  }

  lemma ChoiceUnbeaten(own: Speeds, peer: Speeds, i: nat, a: Algorithm)
    requires FirstMaximum(Worths(own, peer), i) && Beats(own, peer, a, own[i].0)
    ensures a == own[i].0
  {
    MaximumMerit(own, peer, i);
    var r := ReachedAt(own, peer, a);
    if a != own[i].0 {
      var k: nat :| Reaches(own, peer, a, k) && forall l: nat | l <= k :: !Reaches(own, peer, own[i].0, l);
      WorthMerit(own, peer, k);
    }
  }

  /** For all lists, repetitions included: an end chooses the algorithm that beats all others. */
  lemma BestExact(own: Speeds, peer: Speeds, a: Algorithm)
    ensures Best(own, peer) == Some(a)
            <==> Merit(own, peer, a).Some? && forall b | b != a :: Beats(own, peer, a, b)
  {
    if Merit(own, peer, a).Some? && forall b | b != a :: Beats(own, peer, a, b) {
      var r := ReachedAt(own, peer, a);
      var i := Maximum(Worths(own, peer)).value;
      if own[i].0 != a {
        ChoiceUnbeaten(own, peer, i, a);
      }
    }
    if Best(own, peer) == Some(a) {
      var i := Maximum(Worths(own, peer)).value;
      MaximumMerit(own, peer, i);
      forall b | b != a
        ensures Beats(own, peer, a, b)
      {
        ChoiceBeats(own, peer, i, b);
      }
    }
  }

  /** For all lists: both ends choose algorithm `a` exactly if both have it and it beats all others at
      both ends. */
  lemma SelectionExact(own: Speeds, peer: Speeds, a: Algorithm)
    ensures Best(own, peer) == Best(peer, own) == Some(a)
            <==> Merit(own, peer, a).Some? && forall b | b != a :: Beats(own, peer, a, b) && Beats(peer, own, a, b)
  {
    BestExact(own, peer, a);
    BestExact(peer, own, a);
    if Merit(own, peer, a).Some? {
      var i := FastestAt(own, a);
      var j := FindIndex(peer, a);
      FindPresent(own, i);
      FastestBounds(peer, j);
    }
  }

  /** Everything that ties with the common algorithm at `i` and `j` comes after it in the peer's
      list. */
  ghost predicate PeerPrefers(own: Speeds, peer: Speeds, i: nat, j: nat)
    requires i < |own|
  {
    forall k: nat, l: nat | Common(own, peer, k, l) && k != i && Worths(own, peer)[k] == Worths(own, peer)[i] :: j < l
  }

  /** If the first entry of each algorithm is its fastest, as in lists without repetitions, that is a
      matter of ties: the own choice must also be the peer's first among the fastest. */
  lemma SelectionAgrees(own: Speeds, peer: Speeds, i: nat, j: nat)
    requires FirstIsFastest(own) && FirstIsFastest(peer)
    requires FirstMaximum(Worths(own, peer), i) && FirstOf(peer, j) && peer[j].0 == own[i].0
    ensures Best(own, peer) == Some(own[i].0)
    ensures Best(peer, own) == Some(own[i].0) <==> PeerPrefers(own, peer, i, j)
  {
    var w, v := Worths(own, peer), Worths(peer, own);
    assert Maximum(w) == Some(i);
    var j' := CommonOf(own, peer, i);
    assert j == j';
    BestDefined(own, peer);
    var l := Maximum(v).value;
    var k := CommonOf(peer, own, l);
    assert Common(own, peer, k, l);
    assert w[k] == w[i];
    if k == i {
      assert l == j;
      forall k': nat, l': nat | Common(own, peer, k', l') && k' != i && w[k'] == w[i]
        ensures j < l'
      {
        WorthSymmetric(own, peer, k', l');
      }
    }
  }

  /** A single fastest common algorithm, or two lists that order the common algorithms alike, are
      enough. */
  lemma SelectionAgreesWhen(own: Speeds, peer: Speeds, i: nat, j: nat)
    requires FirstIsFastest(own) && FirstIsFastest(peer)
    requires FirstMaximum(Worths(own, peer), i) && FirstOf(peer, j) && peer[j].0 == own[i].0
    requires || (forall k: nat | FirstOf(own, k) && k != i :: Worths(own, peer)[k] != Worths(own, peer)[i])
             || (forall k: nat, l: nat | Common(own, peer, k, l) && i < k :: j < l)
    ensures Best(own, peer) == Best(peer, own) == Some(own[i].0)
  {
    forall k: nat, l: nat | Common(own, peer, k, l) && k != i && Worths(own, peer)[k] == Worths(own, peer)[i]
      ensures j < l
    {
      assert i < k;
    }
    SelectionAgrees(own, peer, i, j);
  }

  /** Without such a condition two ends can choose differently. */
  lemma SelectionCanDisagree()
    ensures var own := Algorithms([(Aes128, 1.0), (ChaCha20, 1.0)], false);
            var peer := Algorithms([(ChaCha20, 1.0), (Aes128, 1.0)], false);
            Select(own, peer) == Use(Aes128) && Select(peer, own) == Use(ChaCha20)
  {
    var x: Speeds := [(Aes128, 1.0), (ChaCha20, 1.0)];
    var y: Speeds := [(ChaCha20, 1.0), (Aes128, 1.0)];
    WorthSymmetric(x, y, 0, 1);
    WorthSymmetric(x, y, 1, 0);
    assert Worths(x, y)[0] == Some(1.0) && Worths(x, y)[1] == Some(1.0);
    assert Maximum(Worths(x, y)) == Some(0) && Maximum(Worths(y, x)) == Some(0);
  }

  /** So they can when a later entry of an algorithm is faster than its first, although a single entry
      is the fastest: the end that holds the list takes the best entry, its peer looks at the first. */
  lemma DuplicatesCanDisagree()
    ensures var own: Speeds := [(Aes128, 1.0), (Aes128, 5.0), (ChaCha20, 2.0)];
            var peer: Speeds := [(Aes128, 3.0), (ChaCha20, 2.0)];
            && (forall k | 0 <= k < 3 && k != 1 :: Worths(own, peer)[k] != Worths(own, peer)[1])
            && Select(Algorithms(own, false), Algorithms(peer, false)) == Use(Aes128)
            && Select(Algorithms(peer, false), Algorithms(own, false)) == Use(ChaCha20)
  {
    var own: Speeds := [(Aes128, 1.0), (Aes128, 5.0), (ChaCha20, 2.0)];
    var peer: Speeds := [(Aes128, 3.0), (ChaCha20, 2.0)];
    FoundAt(own, 2);
    FoundAt(peer, 1);
    var w, v := Worths(own, peer), Worths(peer, own);
    assert w[0] == Some(1.0) && w[1] == Some(3.0) && w[2] == Some(2.0);
    assert v[0] == Some(1.0) && v[1] == Some(2.0);
    OnlyMaximum(w, 1);
    OnlyMaximum(v, 1);
  }

  /** The first entry of an algorithm is the one that is found. */
  lemma {:induction false} FoundAt(list: Speeds, i: nat)
    requires i < |list| && forall j | 0 <= j < i :: list[j].0 != list[i].0
    ensures Find(list, list[i].0) == Some(list[i].1)
  {
    if i > 0 {
      FoundAt(list[1..], i - 1);
    }
  }

  lemma OnlyMaximum(w: seq<Option<real>>, i: nat)
    requires i < |w| && w[i].Some?
    requires forall j | 0 <= j < |w| && j != i && w[j].Some? :: w[j].value < w[i].value
    ensures Maximum(w) == Some(i)
  {
  }
}
