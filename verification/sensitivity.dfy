/** Global sensitivity of the two queries the playground discusses: the
    counting query over 0/1 records ("how many people like pizza") and the
    mean query over values in [0,1]. Datasets are sequences of records; two
    datasets are neighbours when they have the same length and differ in the
    record of exactly one person. */
module Sensitivity {

  /** Every record is a 0/1 indicator. */
  predicate IsBinary(d: seq<int>) {
    forall k :: 0 <= k < |d| ==> d[k] == 0 || d[k] == 1
  }

  /** Every value lies in the unit interval [0,1]. */
  predicate InUnit(v: seq<real>) {
    forall k :: 0 <= k < |v| ==> 0.0 <= v[k] <= 1.0
  }

  /** a and b have the same length and agree on every record except
      possibly the one at index i. */
  predicate AgreeExceptAt<T(==)>(a: seq<T>, b: seq<T>, i: int) {
    && |a| == |b|
    && 0 <= i < |a|
    && forall j :: 0 <= j < |a| && j != i ==> a[j] == b[j]
  }

  /** a and b differ in the record at index i and nowhere else. */
  predicate DiffersOnlyAt<T(==)>(a: seq<T>, b: seq<T>, i: int) {
    AgreeExceptAt(a, b, i) && a[i] != b[i]
  }

  /** Neighbouring datasets: one person's record changed. */
  predicate Neighbours<T(==)>(a: seq<T>, b: seq<T>) {
    exists i :: 0 <= i < |a| && DiffersOnlyAt(a, b, i)
  }

  function Abs(x: int): (r: int)
    ensures r >= 0
    ensures r == x || r == -x
  {
    if x < 0 then -x else x
  }

  // ------------------------------------------------------------------
  // Counting query
  // ------------------------------------------------------------------

  /** The counting query `count_pizza`, i.e. Python's `sum` of the records.
      Over 0/1 records it lies between 0 and the number of records. */
  function Count(d: seq<int>): (c: int)
    ensures IsBinary(d) ==> 0 <= c <= |d|
  {
    if |d| == 0 then 0 else d[0] + Count(d[1..])
  }

  /** Over 0/1 records the count is the number of records equal to 1. */
  lemma {:induction false} CountIsNumberOfOnes(d: seq<int>)
    requires IsBinary(d)
    ensures Count(d) == multiset(d)[1]
  {
    if |d| > 0 {
      assert d == [d[0]] + d[1..];
      assert IsBinary(d[1..]);
      CountIsNumberOfOnes(d[1..]);
      assert multiset(d) == multiset{d[0]} + multiset(d[1..]);
    }
  }

  /** The sensitivity measured on a pair of datasets: |f(D1) - f(D2)|. */
  function CountSensitivity(d1: seq<int>, d2: seq<int>): (delta: int)
    ensures delta >= 0
    ensures delta == 0 <==> Count(d1) == Count(d2)
  {
    Abs(Count(d1) - Count(d2))
  }

  /** The measured sensitivity does not depend on which dataset comes first. */
  lemma CountSensitivitySymmetric(d1: seq<int>, d2: seq<int>)
    ensures CountSensitivity(d1, d2) == CountSensitivity(d2, d1)
  {
  }

  /** Changing the record at index i changes the count by exactly the change
      of that record. */
  lemma {:induction false} CountDifferenceAt(a: seq<int>, b: seq<int>, i: int)
    requires AgreeExceptAt(a, b, i)
    ensures Count(a) - Count(b) == a[i] - b[i]
  {
    if i == 0 {
      assert a[1..] == b[1..];
    } else {
      assert a[0] == b[0];
      forall j | 0 <= j < |a| - 1 && j != i - 1
        ensures a[1..][j] == b[1..][j]
      {
        assert a[j + 1] == b[j + 1];
      }
      CountDifferenceAt(a[1..], b[1..], i - 1);
    }
  }

  /** One person can change the count by exactly 1: any two neighbouring
      0/1 datasets have counts that differ by one. */
  lemma NeighbourCountsDifferByOne(a: seq<int>, b: seq<int>)
    requires IsBinary(a) && IsBinary(b)
    requires Neighbours(a, b)
    ensures Count(b) == Count(a) + 1 || Count(b) == Count(a) - 1
    ensures CountSensitivity(a, b) == 1
  {
    var i :| 0 <= i < |a| && DiffersOnlyAt(a, b, i);
    CountDifferenceAt(a, b, i);
  }

  /** The two example datasets of the playground. */
  const D1: seq<int> := [1, 0, 1, 1, 0]
  const D2: seq<int> := [1, 0, 1, 1, 1]

  /** f(D1) = 3, f(D2) = 4, and the pair (a neighbouring pair, differing in
      the last person) has sensitivity 1. */
  lemma PizzaExample()
    ensures Count(D1) == 3 && Count(D2) == 4
    ensures Neighbours(D1, D2)
    ensures CountSensitivity(D1, D2) == 1
  {
    assert D1[1..] == [0, 1, 1, 0];
    assert D1[1..][1..] == [1, 1, 0];
    assert D1[1..][1..][1..] == [1, 0];
    assert D1[1..][1..][1..][1..] == [0];
    assert D2[1..] == [0, 1, 1, 1];
    assert D2[1..][1..] == [1, 1, 1];
    assert D2[1..][1..][1..] == [1, 1];
    assert D2[1..][1..][1..][1..] == [1];
    assert DiffersOnlyAt(D1, D2, 4);
  }

  // ------------------------------------------------------------------
  // Mean query over values in [0,1]
  // ------------------------------------------------------------------

  function Sum(v: seq<real>): (s: real)
    ensures InUnit(v) ==> 0.0 <= s <= |v| as real
  {
    if |v| == 0 then 0.0 else v[0] + Sum(v[1..])
  }

  /** The mean query. */
  function Mean(v: seq<real>): (m: real)
    requires |v| > 0
    ensures InUnit(v) ==> 0.0 <= m <= 1.0
  {
    QuotientInUnit(Sum(v), |v| as real);
    Sum(v) / |v| as real
  }

  /** A quotient s / n with 0 <= s <= n lies in [0,1]. */
  lemma QuotientInUnit(s: real, n: real)
    requires n > 0.0
    ensures 0.0 <= s <= n ==> 0.0 <= s / n <= 1.0
  {
    if 0.0 <= s <= n {
      QuotientDifference(n, s, n);
      assert n / n == 1.0;
    }
  }

  /** The declared sensitivity of the mean of n values in [0,1]: 1/n. */
  function MeanSensitivity01(n: int): (delta: real)
    requires n > 0
    ensures delta > 0.0
    ensures delta * n as real == 1.0
  {
    1.0 / n as real
  }

  /** More records dilute one person's influence: the declared sensitivity
      strictly decreases as n grows, and n = 1 gives the whole range. */
  lemma MeanSensitivityDecreasing(n: int, m: int)
    requires 0 < n < m
    ensures MeanSensitivity01(m) < MeanSensitivity01(n) <= MeanSensitivity01(1)
  {
    var dn, dm := MeanSensitivity01(n), MeanSensitivity01(m);
    assert dm * m as real == dn * n as real;
  }

  lemma {:induction false} SumDifferenceAt(a: seq<real>, b: seq<real>, i: int)
    requires AgreeExceptAt(a, b, i)
    ensures Sum(a) - Sum(b) == a[i] - b[i]
  {
    if i == 0 {
      assert a[1..] == b[1..];
    } else {
      assert a[0] == b[0];
      forall j | 0 <= j < |a| - 1 && j != i - 1
        ensures a[1..][j] == b[1..][j]
      {
        assert a[j + 1] == b[j + 1];
      }
      SumDifferenceAt(a[1..], b[1..], i - 1);
    }
  }

  /** Changing one value within [0,1] moves the mean by at most 1/n. */
  lemma MeanShiftBounded(a: seq<real>, b: seq<real>)
    requires |a| > 0
    requires InUnit(a) && InUnit(b)
    requires Neighbours(a, b)
    ensures -MeanSensitivity01(|a|) <= Mean(a) - Mean(b) <= MeanSensitivity01(|a|)
  {
    var i :| 0 <= i < |a| && DiffersOnlyAt(a, b, i);
    SumDifferenceAt(a, b, i);
    var n, d := |a| as real, a[i] - b[i];
    assert -1.0 <= d <= 1.0;
    assert Mean(a) == Sum(a) / n && Mean(b) == Sum(b) / n;
    QuotientDifference(Sum(a), Sum(b), n);
    ScaledBetween(d, n);
  }

  lemma QuotientDifference(x: real, y: real, n: real)
    requires n > 0.0
    ensures x / n - y / n == (x - y) / n
  {
  }

  /** A change of at most 1 divided by n is a change of at most 1/n. */
  lemma ScaledBetween(d: real, n: real)
    requires n > 0.0 && -1.0 <= d <= 1.0
    ensures -(1.0 / n) <= d / n <= 1.0 / n
  {
    assert d / n - 1.0 / n == (d - 1.0) / n;
    assert d / n + 1.0 / n == (d + 1.0) / n;
  }

  /** k values all equal to 1/2 add up to k/2. */
  lemma {:induction false} SumOfHalves(k: nat)
    ensures 2.0 * Sum(seq(k, _ => 0.5)) == k as real
  {
    if k > 0 {
      var v := seq(k, _ => 0.5);
      assert v[0] == 0.5 && v[1..] == seq(k - 1, _ => 0.5);
      SumOfHalves(k - 1);
    }
  }

  /** The bound 1/n is reached: raising one value from 0 to 1 in an all-zero
      dataset of n records moves the mean by exactly 1/n. */
  lemma MeanShiftAttained(n: int)
    requires n > 0
    ensures var a := seq(n, _ => 0.0);
            var b := a[0 := 1.0];
            && InUnit(a) && InUnit(b) && Neighbours(a, b)
            && Mean(b) - Mean(a) == MeanSensitivity01(n)
  {
    var a := seq(n, _ => 0.0);
    var b := a[0 := 1.0];
    assert DiffersOnlyAt(b, a, 0);
    assert DiffersOnlyAt(a, b, 0);
    SumDifferenceAt(b, a, 0);
    assert Mean(b) - Mean(a) == (Sum(b) - Sum(a)) / n as real;
  }
}
