/**
 * The statistics that `numpy.mean` and `numpy.median` compute over a window of
 * observations, stated over exact reals (no IEEE rounding, no NaN).
 */
module Stats {

  /** Sum of the observations, left to right. */
  function Sum(s: seq<real>): real
  {
    if s == [] then 0.0 else s[0] + Sum(s[1..])
  }

  /** Appending one observation adds exactly that observation to the sum. */
  lemma {:induction false} SumAppend(s: seq<real>, v: real)
    ensures Sum(s + [v]) == Sum(s) + v
  {
    if s != [] {
      assert (s + [v])[1..] == s[1..] + [v];
      SumAppend(s[1..], v);
    }
  }

  lemma {:induction false} SumBounds(s: seq<real>, lo: real, hi: real)
    requires forall i :: 0 <= i < |s| ==> lo <= s[i] <= hi
    ensures |s| as real * lo <= Sum(s) <= |s| as real * hi
  {
    if s != [] {
      SumBounds(s[1..], lo, hi);
    }
  }

  /** Arithmetic mean of a non-empty sequence. */
  function Mean(s: seq<real>): (r: real)
    requires s != []
    ensures r * |s| as real == Sum(s)
  {
    Sum(s) / |s| as real
  }

  /** The mean lies between any lower and any upper bound of the observations. */
  lemma MeanBounds(s: seq<real>, lo: real, hi: real)
    requires s != []
    requires forall i :: 0 <= i < |s| ==> lo <= s[i] <= hi
    ensures lo <= Mean(s) <= hi
  {
    SumBounds(s, lo, hi);
    var n := |s| as real;
    assert n * lo / n == lo && n * hi / n == hi;
  }

  predicate IsSorted(s: seq<real>)
  {
    forall i, j :: 0 <= i < j < |s| ==> s[i] <= s[j]
  }

  /** Inserts `x` into a sorted sequence before the first element not below it. */
  function Insert(x: real, s: seq<real>): (r: seq<real>)
    requires IsSorted(s)
    ensures IsSorted(r)
    ensures multiset(r) == multiset(s) + multiset{x}
    ensures r[0] == x || (s != [] && r[0] == s[0])
  {
    if s == [] || x <= s[0] then
      [x] + s
    else
      var rest := Insert(x, s[1..]);
      assert s == [s[0]] + s[1..];
      assert s[0] <= rest[0];
      [s[0]] + rest
  }

  /** The sorted arrangement of the observations. */
  function Sort(s: seq<real>): (r: seq<real>)
    ensures IsSorted(r)
    ensures multiset(r) == multiset(s)
  {
    if s == [] then
      []
    else
      assert s == [s[0]] + s[1..];
      Insert(s[0], Sort(s[1..]))
  }

  /** The first element of a sorted sequence is at most any of its elements. */
  lemma SortedHeadIsLeast(t: seq<real>, y: real)
    requires IsSorted(t) && y in multiset(t)
    ensures t != [] && t[0] <= y
  {
  }

  /** Two sorted arrangements of the same observations are the same sequence. */
  lemma {:induction false} SortedPermutationsEqual(a: seq<real>, b: seq<real>)
    requires IsSorted(a) && IsSorted(b)
    requires multiset(a) == multiset(b)
    ensures a == b
  {
    assert |a| == |multiset(a)| == |multiset(b)| == |b|;
    if a != [] {
      SortedHeadIsLeast(b, a[0]);
      SortedHeadIsLeast(a, b[0]);
      var head := a[0];
      assert b[0] == head;
      assert a == [head] + a[1..] && b == [head] + b[1..];
      assert multiset(a) == multiset{head} + multiset(a[1..]);
      assert multiset(b) == multiset{head} + multiset(b[1..]);
      assert multiset(a[1..]) == multiset(a) - multiset{head};
      assert multiset(b[1..]) == multiset(b) - multiset{head};
      SortedPermutationsEqual(a[1..], b[1..]);
    }
  }

  /**
   * Median of a non-empty sequence as `numpy.median` computes it: the middle element
   * of the sorted observations, or the mean of the two middle ones when their number is even.
   */
  function Median(s: seq<real>): (r: real)
    requires s != []
    ensures var t := Sort(s); |t| == |s| && t[0] <= r <= t[|t| - 1]
    ensures |s| % 2 == 1 ==> r in multiset(s)
  {
    var t := Sort(s);
    assert |t| == |multiset(s)| == |s|;
    var k := |t| / 2;
    assert t[k] in multiset(s);
    Middle(t)
  }

  /** The middle of a sorted sequence: its middle element, or the mean of its two middle elements. */
  function Middle(t: seq<real>): real
    requires t != []
  {
    var k := |t| / 2;
    if |t| % 2 == 1 then t[k] else (t[k - 1] + t[k]) / 2.0
  }

  /** The median depends only on which observations there are, not on their order. */
  lemma MedianOfPermutation(s: seq<real>, s': seq<real>)
    requires s != [] && multiset(s) == multiset(s')
    ensures s' != [] && Median(s) == Median(s')
  {
    assert |s'| == |multiset(s')| == |s|;
    SortedPermutationsEqual(Sort(s), Sort(s'));
  }

  /** The median lies between any lower and any upper bound of the observations. */
  lemma MedianBounds(s: seq<real>, lo: real, hi: real)
    requires s != []
    requires forall i :: 0 <= i < |s| ==> lo <= s[i] <= hi
    ensures lo <= Median(s) <= hi
  {
    var t := Sort(s);
    forall i | 0 <= i < |t|
      ensures lo <= t[i] <= hi
    {
      assert t[i] in multiset(s);
      var j :| 0 <= j < |s| && s[j] == t[i];
    }
  }

  /** Number of observations that satisfy `p`. */
  function CountWhere(s: seq<real>, p: real -> bool): nat
  {
    if s == [] then 0 else (if p(s[0]) then 1 else 0) + CountWhere(s[1..], p)
  }

  function AtMost(m: real): real -> bool
  {
    y => y <= m
  }

  function AtLeast(m: real): real -> bool
  {
    y => y >= m
  }

  lemma {:induction false} CountWhereConcat(a: seq<real>, b: seq<real>, p: real -> bool)
    ensures CountWhere(a + b, p) == CountWhere(a, p) + CountWhere(b, p)
  {
    if a == [] {
      assert a + b == b;
    } else {
      assert (a + b)[1..] == a[1..] + b;
      CountWhereConcat(a[1..], b, p);
    }
  }

  lemma {:induction false} CountWhereAll(s: seq<real>, p: real -> bool)
    requires forall i :: 0 <= i < |s| ==> p(s[i])
    ensures CountWhere(s, p) == |s|
  {
    if s != [] {
      CountWhereAll(s[1..], p);
    }
  }

  /** Removing the element at index `i` removes its contribution to the count. */
  lemma CountWhereRemove(t: seq<real>, i: nat, p: real -> bool)
    requires i < |t|
    ensures CountWhere(t, p) == CountWhere(t[..i] + t[i + 1..], p) + (if p(t[i]) then 1 else 0)
  {
    assert t == t[..i] + ([t[i]] + t[i + 1..]);
    CountWhereConcat(t[..i], [t[i]] + t[i + 1..], p);
    CountWhereConcat(t[..i], t[i + 1..], p);
    assert ([t[i]] + t[i + 1..])[1..] == t[i + 1..];
  }

  /** Removing the element at index `i` removes one copy of it from the multiset. */
  lemma MultisetRemove(t: seq<real>, i: nat)
    requires i < |t|
    ensures multiset(t[..i] + t[i + 1..]) == multiset(t) - multiset{t[i]}
  {
    assert t == t[..i] + [t[i]] + t[i + 1..];
    assert multiset(t) == multiset(t[..i]) + multiset{t[i]} + multiset(t[i + 1..]);
  }

  /** Counting does not depend on the order of the observations. */
  lemma {:induction false} CountWherePermutation(s: seq<real>, t: seq<real>, p: real -> bool)
    requires multiset(s) == multiset(t)
    ensures CountWhere(s, p) == CountWhere(t, p)
  {
    if s == [] {
      assert |t| == |multiset(t)| == 0;
    } else {
      var x := s[0];
      assert x in multiset(t);
      var i :| 0 <= i < |t| && t[i] == x;
      MultisetRemove(t, i);
      MultisetRemove(s, 0);
      assert s[..0] + s[1..] == s[1..];
      CountWherePermutation(s[1..], t[..i] + t[i + 1..], p);
      CountWhereRemove(t, i, p);
    }
  }

  /**
   * The order-free meaning of a median: at least half of the observations are at most
   * `m` and at least half are at least `m`.
   */
  ghost predicate SplitsInHalves(s: seq<real>, m: real)
  {
    2 * CountWhere(s, AtMost(m)) >= |s| && 2 * CountWhere(s, AtLeast(m)) >= |s|
  }

  /** A sequence whose first `j` elements satisfy `p` has at least `j` elements satisfying `p`. */
  lemma CountWherePrefix(t: seq<real>, j: nat, p: real -> bool)
    requires j <= |t|
    requires forall i :: 0 <= i < j ==> p(t[i])
    ensures CountWhere(t, p) >= j
  {
    assert t == t[..j] + t[j..];
    CountWhereConcat(t[..j], t[j..], p);
    CountWhereAll(t[..j], p);
  }

  /** A sequence whose elements from index `j` on satisfy `p` has at least `|t| - j` such elements. */
  lemma CountWhereSuffix(t: seq<real>, j: nat, p: real -> bool)
    requires j <= |t|
    requires forall i :: j <= i < |t| ==> p(t[i])
    ensures CountWhere(t, p) >= |t| - j
  {
    assert t == t[..j] + t[j..];
    CountWhereConcat(t[..j], t[j..], p);
    CountWhereAll(t[j..], p);
  }

  lemma MiddleSplitsInHalves(t: seq<real>)
    requires t != [] && IsSorted(t)
    ensures SplitsInHalves(t, Middle(t))
  {
    var m := Middle(t);
    var n, k := |t|, |t| / 2;
    var low := if n % 2 == 1 then k + 1 else k;
    assert forall i :: 0 <= i < low ==> AtMost(m)(t[i]);
    assert forall i :: k <= i < n ==> AtLeast(m)(t[i]);
    CountWherePrefix(t, low, AtMost(m));
    CountWhereSuffix(t, k, AtLeast(m));
  }

  /** The median meets the order-free definition of a median. */
  lemma MedianSplitsInHalves(s: seq<real>)
    requires s != []
    ensures SplitsInHalves(s, Median(s))
  {
    var t := Sort(s);
    var m := Median(s);
    MiddleSplitsInHalves(t);
    CountWherePermutation(s, t, AtMost(m));
    CountWherePermutation(s, t, AtLeast(m));
  }
}
