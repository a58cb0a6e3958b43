/** The summary printed for a list of latencies: extremes, mean and nearest-rank percentiles. */
module LatencyStats {
  import opened Options

  ghost predicate Ascending(s: seq<int>) {
    forall i, j :: 0 <= i < j < |s| ==> s[i] <= s[j]
  }

  function Insert(s: seq<int>, x: int): (r: seq<int>)
    requires Ascending(s)
    ensures Ascending(r) && multiset(r) == multiset(s) + multiset{x}
  {
    if s == [] || s[|s| - 1] <= x then s + [x]
    else
      var n := |s| - 1;
      assert s == s[..n] + [s[n]];
      var r := Insert(s[..n], x);
      InsertBelow(s[..n], r, x, s[n]);
      r + [s[n]]
  }

  lemma InsertBelow(s: seq<int>, r: seq<int>, x: int, top: int)
    requires multiset(r) == multiset(s) + multiset{x}
    requires x <= top && forall i :: 0 <= i < |s| ==> s[i] <= top
    ensures forall i :: 0 <= i < |r| ==> r[i] <= top
  {
    forall i | 0 <= i < |r| ensures r[i] <= top {
      assert r[i] in multiset(r);
      assert r[i] in s || r[i] == x;
    }
  }

  /** list.sort() */
  function Sorted(s: seq<int>): (r: seq<int>)
    ensures Ascending(r) && multiset(r) == multiset(s)
  {
    if s == [] then []
    else
      assert s == s[..|s| - 1] + [s[|s| - 1]];
      Insert(Sorted(s[..|s| - 1]), s[|s| - 1])
  }

  /** round() on the exact quotient x/100: to nearest, halves to even. */
  function Round(x: int): (r: int)
    ensures -100 <= 2 * (100 * r - x) <= 100
    ensures 2 * (100 * r - x) == 100 || 2 * (100 * r - x) == -100 ==> r % 2 == 0
  {
    var q, m := x / 100, x % 100;
    if 2 * m < 100 || (2 * m == 100 && q % 2 == 0) then q else q + 1
  }

  /** Being nearest with ties to even leaves one choice. */
  lemma RoundUnique(x: int, r: int)
    requires -100 <= 2 * (100 * r - x) <= 100
    requires 2 * (100 * r - x) == 100 || 2 * (100 * r - x) == -100 ==> r % 2 == 0
    ensures r == Round(x)
  {
  }

  lemma RoundMonotone(a: int, b: int)
    requires a <= b
    ensures Round(a) <= Round(b)
  {
  }

  lemma Scale(d: int, a: int, b: int)
    requires d >= 0 && a <= b
    ensures d * a <= d * b
  {
  }

  /** The rank of a percentage, with the source's clamps. */
  function Rank(n: nat, percent: nat): (i: int)
    requires n > 0
    ensures 0 <= i < n
  {
    var i := Round((n - 1) * percent);
    var j := if i < 0 then 0 else i;
    if j < n - 1 then j else n - 1
  }

  /** For percentages the clamps never change anything. */
  lemma ClampsIdle(n: nat, percent: nat)
    requires n > 0 && percent <= 100
    ensures Rank(n, percent) == Round((n - 1) * percent)
  {
    Scale(n - 1, 0, percent);
    Scale(n - 1, percent, 100);
    RoundMonotone((n - 1) * percent, 100 * (n - 1));
  }

  lemma RankMonotone(n: nat, p: nat, q: nat)
    requires n > 0 && p <= q
    ensures Rank(n, p) <= Rank(n, q)
  {
    Scale(n - 1, p, q);
    RoundMonotone((n - 1) * p, (n - 1) * q);
  }

  function PercentileSorted(s: seq<int>, percent: nat): int {
    if s == [] then 0 else s[Rank(|s|, percent)]
  }

  function Sum(s: seq<int>): int {
    if s == [] then 0 else Sum(s[..|s| - 1]) + s[|s| - 1]
  }

  lemma {:induction false} SumBounds(s: seq<int>, lo: int, hi: int)
    requires forall x :: x in s ==> lo <= x <= hi
    ensures |s| * lo <= Sum(s) <= |s| * hi
  {
    if s != [] {
      var n := |s| - 1;
      assert forall x :: x in s[..n] ==> x in s;
      assert s[n] in s;
      SumBounds(s[..n], lo, hi);
      assert |s| * lo == n * lo + lo && |s| * hi == n * hi + hi;
    }
  }

  lemma {:induction false} SumInsert(s: seq<int>, x: int)
    requires Ascending(s)
    ensures Sum(Insert(s, x)) == Sum(s) + x
  {
    var n := |s| - 1;
    if s == [] || s[n] <= x {
      assert (s + [x])[..|s|] == s;
    } else {
      SumInsert(s[..n], x);
      var r := Insert(s[..n], x);
      assert (r + [s[n]])[..|r|] == r;
    }
  }

  lemma {:induction false} SumSorted(s: seq<int>)
    ensures Sum(Sorted(s)) == Sum(s)
  {
    if s != [] {
      SumSorted(s[..|s| - 1]);
      SumInsert(Sorted(s[..|s| - 1]), s[|s| - 1]);
    }
  }

  function Mean(s: seq<int>): real
    requires s != []
  {
    Sum(s) as real / |s| as real
  }

  /** m is the exact mean of the values. */
  predicate IsMean(m: real, values: seq<int>) {
    m * |values| as real == Sum(values) as real
  }

  datatype Stats = Stats(n: nat, min: int, p50: int, p95: int, p99: int, max: int, mean: real)

  /** What a reader of the summary may rely on, whatever order the values came in. */
  ghost predicate Summarises(t: Stats, values: seq<int>) {
    && t.n == |values| == |Sorted(values)| > 0
    && t.min <= t.p50 <= t.p95 <= t.p99 <= t.max
    && (forall x :: x in values ==> t.min <= x <= t.max)
    && t.min in values && t.p50 in values && t.p95 in values && t.p99 in values && t.max in values
    && t.p50 == Sorted(values)[Rank(t.n, 50)]
    && t.p95 == Sorted(values)[Rank(t.n, 95)]
    && t.p99 == Sorted(values)[Rank(t.n, 99)]
    && IsMean(t.mean, values)
    && t.min as real <= t.mean <= t.max as real
  }

  /** Nothing is printed for an empty list. */
  ghost predicate Reports(r: Option<Stats>, values: seq<int>) {
    match r
    case None => values == []
    case Some(t) => Summarises(t, values)
  }

  /** print_stats and print_stats_wall_ms, which differ in the unit they name; the list comes back sorted. */
  method Print(values: seq<int>) returns (sorted: seq<int>, r: Option<Stats>)
    ensures sorted == Sorted(values) && Reports(r, values)
  {
    sorted := Sorted(values);
    if values == [] {
      return sorted, None;
    }
    assert |sorted| == |values| by {
      assert |multiset(sorted)| == |multiset(values)|;
    }
    var n := |sorted|;
    var t := Stats(n, sorted[0], PercentileSorted(sorted, 50), PercentileSorted(sorted, 95),
                   PercentileSorted(sorted, 99), sorted[n - 1], Mean(sorted));
    Summary(values, t);
    r := Some(t);
  }

  lemma Summary(values: seq<int>, t: Stats)
    requires values != [] && |Sorted(values)| == |values|
    requires var s := Sorted(values);
             t == Stats(|s|, s[0], PercentileSorted(s, 50), PercentileSorted(s, 95), PercentileSorted(s, 99),
                        s[|s| - 1], Mean(s))
    ensures Summarises(t, values)
  {
    hide Sorted, Rank, Sum, Mean, IsMean;
    var s := Sorted(values);
    RankMonotone(|s|, 50, 95);
    RankMonotone(|s|, 95, 99);
    SameMembers(s, values);
    MeanBounds(s, t.min, t.max);
    MeanOfSorted(values, t.mean);
  }

  lemma MeanOfSorted(values: seq<int>, m: real)
    requires |Sorted(values)| == |values| && IsMean(m, Sorted(values))
    ensures IsMean(m, values)
  {
    SumSorted(values);
    hide Sorted, Sum;
  }

  lemma SameMembers(s: seq<int>, t: seq<int>)
    requires multiset(s) == multiset(t)
    ensures forall x :: x in s <==> x in t
  {
    forall x ensures x in s <==> x in t {
      assert x in s <==> x in multiset(s);
    }
  }

  lemma MeanBounds(s: seq<int>, lo: int, hi: int)
    requires s != [] && forall x :: x in s ==> lo <= x <= hi
    ensures IsMean(Mean(s), s) && lo as real <= Mean(s) <= hi as real
  {
    hide Sum;
    SumBounds(s, lo, hi);
    QuotientBounds(Sum(s), |s|, lo, hi);
  }

  lemma QuotientBounds(sum: int, n: nat, lo: int, hi: int)
    requires 0 < n && n * lo <= sum <= n * hi
    ensures sum as real / n as real * n as real == sum as real
    ensures lo as real <= sum as real / n as real <= hi as real
  {
    var m := sum as real / n as real;
    assert (n * lo) as real == n as real * lo as real && (n * hi) as real == n as real * hi as real;
    if m < lo as real {
      Scaled(n, m, lo as real);
    }
    if hi as real < m {
      Scaled(n, hi as real, m);
    }
  }

  lemma Scaled(n: nat, a: real, b: real)
    requires 0 < n && a < b
    ensures a * n as real < b * n as real
  {
  }
}
