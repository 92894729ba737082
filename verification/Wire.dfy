/** Big-endian numbers, as nonces and message fields carry them. */
module Wire {
  import opened Primitives

  function Pow256(k: nat): (p: nat)
    ensures p >= 1
  {
    if k == 0 then 1 else 256 * Pow256(k - 1)
  }

  /** Quotient and remainder by repeated subtraction. */
  function Quot(x: int, m: nat): (q: int)
    requires m > 0
    ensures q >= 0
  {
    if x < m then 0 else 1 + Quot(x - m, m)
  }

  function Rem(x: int, m: nat): (r: int)
    requires m > 0
    ensures r < m && (x >= 0 ==> r >= 0)
  {
    if x < m then x else Rem(x - m, m)
  }

  lemma {:induction false} QuotRem(x: int, m: nat)
    requires m > 0
    ensures x == m * Quot(x, m) + Rem(x, m)
  {
    if x < m {
      assert m * 0 == 0;
    } else {
      QuotRem(x - m, m);
      assert m * (1 + Quot(x - m, m)) == m + m * Quot(x - m, m);
    }
  }

  /** They are the operators of the program wherever it uses them. */
  lemma QuotIsDivision(x: nat, m: nat)
    requires m == 8 || m == 16 || m == 18 || m == 62 || m == 256
    ensures Quot(x, m) == x / m && Rem(x, m) == x % m
  {
    QuotRem(x, m);
  }

  /** Counting up: the remainder restarts at zero when the quotient grows. */
  lemma {:induction false} QuotNext(x: nat, m: nat)
    requires m > 0
    ensures Rem(x + 1, m) == (if Rem(x, m) == m - 1 then 0 else Rem(x, m) + 1)
    ensures Quot(x + 1, m) == (if Rem(x, m) == m - 1 then Quot(x, m) + 1 else Quot(x, m))
    decreases x
  {
    if x >= m {
      QuotNext(x - m, m);
    }
  }

  /** The number a byte string stands for, most significant byte first. */
  function Value(b: Bytes): nat
    decreases |b|
  {
    if b == [] then 0 else 256 * Value(b[..|b| - 1]) + b[|b| - 1]
  }

  /** The low `k` bytes of a number. */
  function Be(v: nat, k: nat): (b: Bytes)
    ensures |b| == k
  {
    if k == 0 then [] else Be(v / 256, k - 1) + [v % 256]
  }

  lemma {:induction false} ValueBound(b: Bytes)
    ensures Value(b) < Pow256(|b|)
    decreases |b|
  {
    if b != [] {
      ValueBound(b[..|b| - 1]);
    }
  }

  lemma {:induction false} BeOfValue(b: Bytes)
    ensures Be(Value(b), |b|) == b
    decreases |b|
  {
    if b != [] {
      var n := |b| - 1;
      BeOfValue(b[..n]);
      assert Value(b) / 256 == Value(b[..n]) && Value(b) % 256 == b[n];
      assert b == b[..n] + [b[n]];
    }
  }

  lemma {:induction false} ValueOfBe(v: nat, k: nat)
    requires v < Pow256(k)
    ensures Value(Be(v, k)) == v
  {
    if k > 0 {
      ValueOfBe(v / 256, k - 1);
      var b := Be(v, k);
      assert b[..k - 1] == Be(v / 256, k - 1);
    }
  }

  lemma {:induction false} ValueConcat(a: Bytes, b: Bytes)
    ensures Value(a + b) == Value(a) * Pow256(|b|) + Value(b)
    decreases |b|
  {
    if b == [] {
      assert a + b == a;
    } else {
      var n := |b| - 1;
      ValueConcat(a, b[..n]);
      assert (a + b)[..|a + b| - 1] == a + b[..n];
      Shifted(Value(a), Pow256(n), Value(b[..n]), b[n]);
    }
  }

  lemma Shifted(x: int, p: int, y: int, last: int)
    ensures 256 * (x * p + y) + last == x * (256 * p) + (256 * y + last)
  {
    assert x * (256 * p) == 256 * (x * p);
  }

  /** Comparing byte strings of one length from the front is comparing their numbers. */
  predicate Less(a: Bytes, b: Bytes)
    requires |a| == |b|
  {
    a != [] && (a[0] < b[0] || (a[0] == b[0] && Less(a[1..], b[1..])))
  }

  lemma {:induction false} LessIsNumeric(a: Bytes, b: Bytes)
    requires |a| == |b|
    ensures Less(a, b) <==> Value(a) < Value(b)
  {
    if a != [] {
      LessIsNumeric(a[1..], b[1..]);
      assert a == [a[0]] + a[1..] && b == [b[0]] + b[1..];
      ValueConcat([a[0]], a[1..]);
      ValueConcat([b[0]], b[1..]);
      ValueBound(a[1..]);
      ValueBound(b[1..]);
      LeadingDigit(a[0], b[0], Pow256(|a| - 1), Value(a[1..]), Value(b[1..]));
    }
  }

  lemma LeadingDigit(x: nat, y: nat, p: nat, r: nat, s: nat)
    requires r < p && s < p
    ensures x * p + r < y * p + s <==> x < y || (x == y && r < s)
  {
    if x < y {
      assert (x + 1) * p <= y * p;
    } else if y < x {
      assert (y + 1) * p <= x * p;
    }
  }
}
