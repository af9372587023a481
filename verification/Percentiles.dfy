/**
 Timing summaries: interpolated percentiles of a list of durations, in exact reals.
 */
module Percentiles {

  predicate Sorted(s: seq<real>) {
    forall i, j | 0 <= i <= j < |s| :: s[i] <= s[j]
  }

  function Insert(x: real, s: seq<real>): seq<real> {
    if s == [] || x <= s[0] then [x] + s else [s[0]] + Insert(x, s[1..])
  }

  function Sort(s: seq<real>): seq<real> {
    if s == [] then [] else Insert(s[0], Sort(s[1..]))
  }

  lemma {:induction false} InsertKeeps(x: real, s: seq<real>)
    ensures multiset(Insert(x, s)) == multiset{x} + multiset(s)
  {
    if s != [] && x > s[0] {
      assert s == [s[0]] + s[1..];
      InsertKeeps(x, s[1..]);
    }
  }

  lemma InsertMembers(x: real, s: seq<real>, y: real)
    requires y in Insert(x, s)
    ensures y == x || y in s
  {
    InsertKeeps(x, s);
    assert y in multiset(Insert(x, s));
  }

  lemma {:induction false} InsertSorts(x: real, s: seq<real>)
    requires Sorted(s)
    ensures Sorted(Insert(x, s)) && multiset(Insert(x, s)) == multiset{x} + multiset(s)
  {
    InsertKeeps(x, s);
    if s != [] && x > s[0] {
      InsertSorts(x, s[1..]);
      var t := Insert(x, s[1..]);
      forall j | 0 <= j < |t| ensures s[0] <= t[j] { InsertMembers(x, s[1..], t[j]); }
    }
  }

  lemma {:induction false} SortSorts(s: seq<real>)
    ensures Sorted(Sort(s)) && multiset(Sort(s)) == multiset(s) && |Sort(s)| == |s|
  {
    if s != [] {
      SortSorts(s[1..]);
      InsertSorts(s[0], Sort(s[1..]));
      assert s == [s[0]] + s[1..];
      assert |multiset(Sort(s))| == |multiset(s)|;
    }
  }

  lemma SortedHead(s: seq<real>, t: seq<real>)
    requires s != [] && t != [] && Sorted(s) && Sorted(t) && multiset(s) == multiset(t)
    ensures s[0] == t[0]
  {
    assert s[0] in multiset(t) && t[0] in multiset(s);
  }

  lemma SortedTail(s: seq<real>)
    requires s != [] && Sorted(s)
    ensures Sorted(s[1..]) && multiset(s[1..]) == multiset(s) - multiset{s[0]}
  {
    assert s == [s[0]] + s[1..];
  }

  /** A sorted list is determined by what is in it. */
  lemma {:induction false} SortedUnique(s: seq<real>, t: seq<real>)
    requires |s| == |t| && Sorted(s) && Sorted(t) && multiset(s) == multiset(t)
    ensures s == t
  {
    if s != [] {
      SortedHead(s, t);
      SortedTail(s);
      SortedTail(t);
      SortedUnique(s[1..], t[1..]);
      assert s == [s[0]] + s[1..] && t == [t[0]] + t[1..];
    }
  }

  // ---------------------------------------------------------------- percentiles

  function Ceiling(x: real): int {
    if x == x.Floor as real then x.Floor else x.Floor + 1
  }

  /** The point a fraction `f` of the way from `a` to `b`. */
  function Between(a: real, b: real, f: real): real {
    a + (b - a) * f
  }

  /** The value at a fractional index: linear between the neighbours. */
  function At(s: seq<real>, index: real): real
    requires s != [] && 0.0 <= index <= (|s| - 1) as real
  {
    var lower, upper := index.Floor, Ceiling(index);
    if lower == upper then s[lower]
    else Between(s[lower], s[upper], index - lower as real)
  }

  lemma IndexBounds(n: nat, p: real)
    requires n > 0 && 0.0 <= p <= 1.0
    ensures 0.0 <= p * (n - 1) as real <= (n - 1) as real
  {
  }

  function ComputePercentile(s: seq<real>, p: real): real
    requires 0.0 <= p <= 1.0
  {
    if |s| == 0 then 0.0
    else if |s| == 1 then s[0]
    else IndexBounds(|s|, p); At(s, p * (|s| - 1) as real)
  }

  lemma ScaleOrder(d: real, f: real, g: real)
    requires 0.0 <= d && f <= g
    ensures d * f <= d * g
  {
  }

  lemma NonNegative(x: real, y: real)
    requires 0.0 <= x && 0.0 <= y
    ensures 0.0 <= x * y
  {
  }

  lemma BetweenBounds(a: real, b: real, f: real)
    requires a <= b && 0.0 <= f <= 1.0
    ensures a <= Between(a, b, f) <= b
  {
    var d := b - a;
    NonNegative(d, f);
    NonNegative(d, 1.0 - f);
    assert d * (1.0 - f) == d - d * f;
  }

  lemma BetweenMonotone(a: real, b: real, f: real, g: real)
    requires a <= b && f <= g
    ensures Between(a, b, f) <= Between(a, b, g)
  {
    ScaleOrder(b - a, f, g);
  }

  lemma Neighbours(x: real, n: nat)
    requires n > 0 && 0.0 <= x <= (n - 1) as real
    ensures 0 <= x.Floor <= Ceiling(x) < n && 0.0 <= x - x.Floor as real <= 1.0
  {
  }

  /** A value lies between the neighbours of its index. */
  lemma AtBetween(s: seq<real>, x: real)
    requires s != [] && Sorted(s) && 0.0 <= x <= (|s| - 1) as real
    ensures 0 <= x.Floor <= Ceiling(x) < |s| && s[x.Floor] <= At(s, x) <= s[Ceiling(x)]
  {
    Neighbours(x, |s|);
    BetweenBounds(s[x.Floor], s[Ceiling(x)], x - x.Floor as real);
  }

  lemma AtMonotone(s: seq<real>, x: real, y: real)
    requires s != [] && Sorted(s) && 0.0 <= x <= y <= (|s| - 1) as real
    ensures At(s, x) <= At(s, y)
  {
    AtBetween(s, x);
    AtBetween(s, y);
    var l := x.Floor;
    if l < y.Floor {
      assert Ceiling(x) <= y.Floor;
      assert s[Ceiling(x)] <= s[y.Floor];
    } else if x != l as real {
      assert Ceiling(x) == Ceiling(y) == l + 1;
      BetweenMonotone(s[l], s[l + 1], x - l as real, y - l as real);
    }
  }

  /** A percentile of a sorted list lies between its least and its greatest element. */
  lemma PercentileBounded(s: seq<real>, p: real)
    requires s != [] && Sorted(s) && 0.0 <= p <= 1.0
    ensures s[0] <= ComputePercentile(s, p) <= s[|s| - 1]
  {
    if |s| > 1 {
      IndexBounds(|s|, p);
      var x := p * (|s| - 1) as real;
      AtBetween(s, x);
      assert s[0] <= s[x.Floor] && s[Ceiling(x)] <= s[|s| - 1];
    }
  }

  /** A higher percentile is never smaller. */
  lemma PercentileMonotone(s: seq<real>, p: real, q: real)
    requires Sorted(s) && 0.0 <= p <= q <= 1.0
    ensures ComputePercentile(s, p) <= ComputePercentile(s, q)
  {
    if |s| > 1 {
      IndexBounds(|s|, p);
      IndexBounds(|s|, q);
      ScaleOrder((|s| - 1) as real, p, q);
      AtMonotone(s, p * (|s| - 1) as real, q * (|s| - 1) as real);
    }
  }

  /** The end points are the extremes. */
  lemma PercentileEnds(s: seq<real>)
    requires s != []
    ensures ComputePercentile(s, 0.0) == s[0] && ComputePercentile(s, 1.0) == s[|s| - 1]
  {
  }

  // ---------------------------------------------------------------- rounding

  /** The nearest whole number, the even one of two. */
  function Nearest(x: real): int {
    var down := x.Floor;
    var past := x - down as real;
    if past < 0.5 || (past == 0.5 && down % 2 == 0) then down else down + 1
  }

  /** To three digits. */
  function Rounded(x: real): real {
    Nearest(x * 1000.0) as real / 1000.0
  }

  lemma NearestMonotone(x: real, y: real)
    requires x <= y
    ensures Nearest(x) <= Nearest(y)
  {
    assert x.Floor <= y.Floor;
  }

  lemma NearestWhole(k: int)
    ensures Nearest(k as real) == k
  {
    assert (k as real).Floor == k;
  }

  /** Rounding keeps the order, moves a value by half a digit at most, and nothing twice. */
  lemma {:induction false} RoundedFacts(x: real, y: real)
    ensures x <= y ==> Rounded(x) <= Rounded(y)
    ensures -0.0005 <= Rounded(x) - x <= 0.0005
    ensures Rounded(Rounded(x)) == Rounded(x)
  {
    if x <= y { NearestMonotone(x * 1000.0, y * 1000.0); }
    assert Rounded(x) * 1000.0 == Nearest(x * 1000.0) as real;
    NearestWhole(Nearest(x * 1000.0));
  }

  // ---------------------------------------------------------------- the summary

  datatype Summary = Summary(count: nat, total: real, p50: real, p90: real, p95: real)

  function Sum(s: seq<real>): real {
    if s == [] then 0.0 else s[0] + Sum(s[1..])
  }

  function Summarize(durations: seq<real>): Summary {
    if durations == [] then Summary(0, 0.0, 0.0, 0.0, 0.0)
    else
      var sorted := Sort(durations);
      Summary(|sorted|, Rounded(Sum(sorted)), Rounded(ComputePercentile(sorted, 0.5)),
              Rounded(ComputePercentile(sorted, 0.9)), Rounded(ComputePercentile(sorted, 0.95)))
  }

  lemma PercentilesOrdered(sorted: seq<real>)
    requires sorted != [] && Sorted(sorted)
    ensures sorted[0] <= ComputePercentile(sorted, 0.5) <= ComputePercentile(sorted, 0.9) <= ComputePercentile(sorted, 0.95)
            <= sorted[|sorted| - 1]
  {
    PercentileMonotone(sorted, 0.5, 0.9);
    PercentileMonotone(sorted, 0.9, 0.95);
    PercentileBounded(sorted, 0.5);
    PercentileBounded(sorted, 0.95);
  }

  /** The three percentiles of any durations are in order and within their range, as far as three digits tell. */
  lemma {:induction false} SummaryOrdered(durations: seq<real>)
    ensures var s := Summarize(durations);
      && s.count == |durations| && s.p50 <= s.p90 <= s.p95
      && (durations != [] ==>
            exists lo, hi :: lo in durations && hi in durations && Rounded(lo) <= s.p50 && s.p95 <= Rounded(hi)
                          && (forall d | d in durations :: lo <= d <= hi))
  {
    if durations != [] {
      var sorted := Sort(durations);
      var lo, hi := sorted[0], sorted[|sorted| - 1];
      SortSorts(durations);
      PercentilesOrdered(sorted);
      RoundedFacts(lo, ComputePercentile(sorted, 0.5));
      RoundedFacts(ComputePercentile(sorted, 0.5), ComputePercentile(sorted, 0.9));
      RoundedFacts(ComputePercentile(sorted, 0.9), ComputePercentile(sorted, 0.95));
      RoundedFacts(ComputePercentile(sorted, 0.95), hi);
      assert lo in multiset(sorted) && hi in multiset(sorted);
      forall d | d in durations ensures lo <= d <= hi { assert d in multiset(sorted); }
    }
  }

  lemma {:induction false} SumInsert(x: real, s: seq<real>)
    ensures Sum(Insert(x, s)) == x + Sum(s)
  {
    if s == [] || x <= s[0] {
      assert ([x] + s)[1..] == s;
    } else {
      SumInsert(x, s[1..]);
      assert Insert(x, s)[1..] == Insert(x, s[1..]);
    }
  }

  lemma {:induction false} SumSorted(durations: seq<real>)
    ensures Sum(durations) == Sum(Sort(durations))
  {
    if durations != [] {
      SumSorted(durations[1..]);
      SumInsert(durations[0], Sort(durations[1..]));
    }
  }

  /** The total is the sum of the durations as they came, to three digits. */
  lemma TotalIsSum(durations: seq<real>)
    ensures Summarize(durations).total == Rounded(Sum(durations))
  {
    SumSorted(durations);
    if durations == [] { NearestWhole(0); }
  }

  /** The summary does not depend on the order of the durations. */
  lemma SummaryUnordered(a: seq<real>, b: seq<real>)
    requires multiset(a) == multiset(b)
    ensures Summarize(a) == Summarize(b)
  {
    assert |multiset(a)| == |a| && |multiset(b)| == |b|;
    assert a == [] <==> b == [];
    SortSorts(a);
    SortSorts(b);
    SortedUnique(Sort(a), Sort(b));
  }
}
