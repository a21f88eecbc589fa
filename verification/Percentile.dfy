/** core/src/metrics.ts: the interpolated percentile. */
module Percentile {
  import opened Common
  import opened Sorting

  function Ascending(): (real, real) -> bool { (a: real, b: real) => a <= b }

  function Rank(n: nat, p: real): real
    requires n > 0
  {
    p / 100.0 * (n - 1) as real
  }

  function Ceil(x: real): int { -(-x).Floor }

  /** The value at a fractional index. */
  function Interpolate(sorted: seq<real>, rank: real): real
    requires 0.0 <= rank <= (|sorted| - 1) as real
  {
    var low, high := rank.Floor, Ceil(rank);
    if low == high then sorted[low] else sorted[low] + (sorted[high] - sorted[low]) * (rank - low as real)
  }

  lemma Product(a: real, b: real)
    requires a >= 0.0 && b >= 0.0
    ensures a * b >= 0.0
  {
  }

  lemma Spread(a: real, b: real, c: real)
    ensures a * b - a * c == a * (b - c)
  {
  }

  lemma RankMonotone(n: nat, p: real, p': real)
    requires n > 0 && p <= p'
    ensures Rank(n, p) <= Rank(n, p')
  {
  }

  lemma RankInRange(n: nat, p: real)
    requires n > 0 && 0.0 <= p <= 100.0
    ensures 0.0 <= Rank(n, p) <= (n - 1) as real
  {
    var share, top := p / 100.0, (n - 1) as real;
    Product(share, top);
    Product(1.0 - share, top);
    assert (1.0 - share) * top == top - share * top;
  }

  function Percentile(values: seq<real>, p: real): Option<real>
    requires 0.0 <= p <= 100.0
  {
    if values == [] then None
    else
      RankInRange(|values|, p);
      SortSorts(values, Ascending());
      SameSize(Sort(values, Ascending()), values);
      Some(Interpolate(Sort(values, Ascending()), Rank(|values|, p)))
  }

  function Median(values: seq<real>): Option<real> { Percentile(values, 50.0) }

  lemma SameSize<T>(a: seq<T>, b: seq<T>)
    requires multiset(a) == multiset(b)
    ensures |a| == |b|
  {
    assert |multiset(a)| == |a| && |multiset(b)| == |b|;
  }

  // ----- Order of the input does not matter -----

  lemma LeastFirst(a: seq<real>, b: seq<real>)
    requires a != [] && b != [] && Ordered(a, Ascending()) && b[0] in a
    ensures a[0] <= b[0]
  {
    var i :| 0 <= i < |a| && a[i] == b[0];
    assert i > 0 ==> Ascending()(a[0], a[i]);
  }

  lemma SameTails(a: seq<real>, b: seq<real>)
    requires a != [] && b != [] && a[0] == b[0] && multiset(a) == multiset(b)
    ensures multiset(a[1..]) == multiset(b[1..])
  {
    assert a == [a[0]] + a[1..] && b == [b[0]] + b[1..];
    assert multiset(a[1..]) == multiset(a) - multiset{a[0]};
  }

  /** There is one way to put values in order. */
  lemma {:induction false} OrderedIsUnique(a: seq<real>, b: seq<real>)
    requires Ordered(a, Ascending()) && Ordered(b, Ascending()) && multiset(a) == multiset(b)
    ensures a == b
  {
    SameSize(a, b);
    if a == [] {
    } else {
      assert a[0] in multiset(b) && b[0] in multiset(a);
      LeastFirst(a, b);
      LeastFirst(b, a);
      SameTails(a, b);
      OrderedTail(a, Ascending());
      OrderedTail(b, Ascending());
      OrderedIsUnique(a[1..], b[1..]);
    }
  }

  lemma PercentileIgnoresOrder(a: seq<real>, b: seq<real>, p: real)
    requires multiset(a) == multiset(b) && 0.0 <= p <= 100.0
    ensures Percentile(a, p) == Percentile(b, p)
  {
    SameSize(a, b);
    SortSorts(a, Ascending());
    SortSorts(b, Ascending());
    OrderedIsUnique(Sort(a, Ascending()), Sort(b, Ascending()));
  }

  // ----- Where it lies -----

  predicate Nondecreasing(sorted: seq<real>) { Ordered(sorted, Ascending()) }

  /** Between the two neighbours. */
  lemma InterpolateBetween(sorted: seq<real>, rank: real)
    requires Nondecreasing(sorted) && 0.0 <= rank <= (|sorted| - 1) as real
    ensures sorted[rank.Floor] <= Interpolate(sorted, rank) <= sorted[Ceil(rank)]
  {
    var low, high := rank.Floor, Ceil(rank);
    if low != high {
      assert high == low + 1;
      assert Ascending()(sorted[low], sorted[high]);
      var gap, part := sorted[high] - sorted[low], rank - low as real;
      assert 0.0 <= part < 1.0;
      assert gap * part >= 0.0;
      assert gap * (1.0 - part) >= 0.0;
    }
  }

  /** Between two neighbours it moves in a straight line from the one to the other, and meets both. */
  lemma InterpolateIsLinear(sorted: seq<real>, k: nat, t: real)
    requires k + 1 < |sorted| && 0.0 <= t <= 1.0
    ensures Interpolate(sorted, k as real + t) == (1.0 - t) * sorted[k] + t * sorted[k + 1]
  {
    var rank := k as real + t;
    var low, high := rank.Floor, Ceil(rank);
    Mix(sorted[k], sorted[k + 1], t);
    if t == 0.0 {
      assert low == k && high == k;
    } else if t == 1.0 {
      assert low == k + 1 && high == k + 1;
    } else {
      assert low == k && high == k + 1;
      var part := rank - low as real;
      assert part == t;
      assert Interpolate(sorted, rank) == sorted[low] + (sorted[high] - sorted[low]) * part;
    }
  }

  lemma RankIs(n: nat, p: real, x: real)
    requires n > 0 && p * (n - 1) as real == 100.0 * x
    ensures Rank(n, p) == x
  {
    assert p / 100.0 * (n - 1) as real == p * (n - 1) as real / 100.0;
  }

  /**
   * Where the p-th percentile stands: with the values in order, p hundredths of the way from the first to the
   * last. InterpolateIsLinear says what is read there.
   */
  lemma PercentileStandsAt(values: seq<real>, p: real, x: real)
    requires 0.0 <= p <= 100.0 && values != [] && p * (|values| - 1) as real == 100.0 * x
    ensures var sorted := Sort(values, Ascending());
      && |sorted| == |values| && 0.0 <= x <= (|values| - 1) as real
      && Percentile(values, p) == Some(Interpolate(sorted, x))
  {
    RankIs(|values|, p, x);
    PercentileAtRank(values, p, x);
  }

  lemma PercentileAtRank(values: seq<real>, p: real, x: real)
    requires 0.0 <= p <= 100.0 && values != [] && Rank(|values|, p) == x
    ensures var sorted := Sort(values, Ascending());
      && |sorted| == |values| && 0.0 <= x <= (|values| - 1) as real
      && Percentile(values, p) == Some(Interpolate(sorted, x))
  {
    RankInRange(|values|, p);
    SortSorts(values, Ascending());
    SameSize(Sort(values, Ascending()), values);
  }

  lemma Mix(a: real, b: real, t: real)
    ensures a + (b - a) * t == (1.0 - t) * a + t * b
    ensures t == 0.0 ==> (1.0 - t) * a + t * b == a
    ensures t == 1.0 ==> (1.0 - t) * a + t * b == b
  {
  }

  lemma InterpolateMonotone(sorted: seq<real>, r: real, r': real)
    requires Nondecreasing(sorted) && 0.0 <= r <= r' <= (|sorted| - 1) as real
    ensures Interpolate(sorted, r) <= Interpolate(sorted, r')
  {
    InterpolateBetween(sorted, r);
    InterpolateBetween(sorted, r');
    if Ceil(r) <= r'.Floor {
      assert Ceil(r) < r'.Floor ==> Ascending()(sorted[Ceil(r)], sorted[r'.Floor]);
    } else {
      var low, high := r.Floor, Ceil(r);
      assert high == low + 1;
      assert r'.Floor == low;
      assert Ascending()(sorted[low], sorted[high]);
      var gap := sorted[high] - sorted[low];
      Product(gap, r' - r);
      Spread(gap, r' - low as real, r - low as real);
    }
  }

  /** No percentile is above a higher one: the 50th never exceeds the 90th. */
  lemma PercentileMonotone(values: seq<real>, p: real, p': real)
    requires values != [] && 0.0 <= p <= p' <= 100.0
    ensures Percentile(values, p).value <= Percentile(values, p').value
  {
    SortSorts(values, Ascending());
    SameSize(Sort(values, Ascending()), values);
    RankInRange(|values|, p);
    RankInRange(|values|, p');
    RankMonotone(|values|, p, p');
    InterpolateMonotone(Sort(values, Ascending()), Rank(|values|, p), Rank(|values|, p'));
  }

  function AtMost(v: real): real -> bool { (x: real) => x <= v }
  function AtLeast(v: real): real -> bool { (x: real) => x >= v }

  lemma {:induction false} FilterSize<T>(items: seq<T>, p: T -> bool, from: nat, to: nat)
    requires from <= to <= |items| && forall i | from <= i < to :: p(items[i])
    ensures |Filter(items, p)| >= to - from
  {
    if items != [] && to > 0 {
      FilterSize(items[1..], p, if from == 0 then 0 else from - 1, to - 1);
    }
  }

  lemma FilterSizeSame<T(!new)>(a: seq<T>, b: seq<T>, p: T -> bool)
    requires multiset(a) == multiset(b)
    ensures |Filter(a, p)| == |Filter(b, p)|
  {
    var fa, fb := multiset(Filter(a, p)), multiset(Filter(b, p));
    forall x: T
      ensures fa[x] == fb[x]
    {
      FilterCount(a, p, x);
      FilterCount(b, p, x);
    }
    assert fa == fb;
    SameSize(Filter(a, p), Filter(b, p));
  }

  /** What a percentile means: that share of the values is at or below it, and the rest at or above. */
  lemma PercentileSplitsTheValues(values: seq<real>, p: real)
    requires values != [] && 0.0 <= p <= 100.0
    ensures var v, rank := Percentile(values, p).value, Rank(|values|, p);
      |Filter(values, AtMost(v))| >= rank.Floor + 1 && |Filter(values, AtLeast(v))| >= |values| - Ceil(rank)
  {
    var sorted := Sort(values, Ascending());
    SortSorts(values, Ascending());
    SameSize(sorted, values);
    RankInRange(|values|, p);
    var rank := Rank(|values|, p);
    var v := Percentile(values, p).value;
    InterpolateBetween(sorted, rank);
    forall i | 0 <= i < rank.Floor + 1
      ensures AtMost(v)(sorted[i])
    {
      assert i < rank.Floor ==> Ascending()(sorted[i], sorted[rank.Floor]);
    }
    var high := Ceil(rank);
    assert 0 <= high < |sorted| && v <= sorted[high];
    forall i | high <= i < |sorted|
      ensures AtLeast(v)(sorted[i])
    {
      assert i > high ==> Ascending()(sorted[high], sorted[i]);
    }
    FilterSize(sorted, AtMost(v), 0, rank.Floor + 1);
    FilterSize(sorted, AtLeast(v), high, |sorted|);
    FilterSizeSame(values, sorted, AtMost(v));
    FilterSizeSame(values, sorted, AtLeast(v));
  }

  /** Every value between the least and the greatest. */
  lemma PercentileBetween(values: seq<real>, p: real)
    requires values != [] && 0.0 <= p <= 100.0
    ensures var v := Percentile(values, p).value;
      (exists x :: x in values && x <= v) && (exists x :: x in values && v <= x)
  {
    PercentileSplitsTheValues(values, p);
    RankInRange(|values|, p);
    var v := Percentile(values, p).value;
    var below, above := Filter(values, AtMost(v)), Filter(values, AtLeast(v));
    FilterMembers(values, AtMost(v));
    FilterMembers(values, AtLeast(v));
    assert below[0] in below && above[0] in above;
  }
}
