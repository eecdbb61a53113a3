/** The percentile of the export and of the browser, and what it says of the durations. */
module Percentiles {
  import opened Permutations
  import opened Sorting

  /** percentile over ascending durations; p95 calls it with 0.95. */
  function Percentile(sorted: seq<int>, p: real): int
    requires 0.0 <= p <= 1.0
  {
    if sorted == [] then 0
    else
      RankInRange(|sorted|, p);
      sorted[Rank(|sorted|, p)]
  }

  function Rank(n: nat, p: real): int {
    ((n - 1) as real * p).Floor
  }

  lemma RankInRange(n: nat, p: real)
    requires n > 0 && 0.0 <= p <= 1.0
    ensures 0 <= Rank(n, p) < n
  {
    assert 0.0 <= (n - 1) as real * p <= (n - 1) as real;
  }

  function AtMost(x: int): int -> int {
    (d: int) => if d <= x then 1 else 0
  }

  function AtLeast(x: int): int -> int {
    (d: int) => if d >= x then 1 else 0
  }

  /** How many of the durations are at most x, or at least x. */
  function CountAtMost(s: seq<int>, x: int): int {
    Sum(Mapped(AtMost(x), s))
  }

  function CountAtLeast(s: seq<int>, x: int): int {
    Sum(Mapped(AtLeast(x), s))
  }

  lemma RunOfOnes(ones: seq<int>, rest: seq<int>)
    requires forall i :: 0 <= i < |ones| ==> ones[i] == 1
    requires forall i :: 0 <= i < |rest| ==> rest[i] >= 0
    ensures Sum(ones + rest) >= |ones| && Sum(rest + ones) >= |ones|
  {
    SumBounds(ones, 1, 1);
    SumIsNonNegative(rest);
    SumOfConcat(ones, rest);
    SumOfConcat(rest, ones);
  }

  lemma {:induction false} SumIsNonNegative(s: seq<int>)
    requires forall i :: 0 <= i < |s| ==> s[i] >= 0
    ensures Sum(s) >= 0
  {
    if s != [] {
      SumIsNonNegative(s[..|s| - 1]);
    }
  }

  lemma RanksInSorted(sorted: seq<int>, idx: nat)
    requires Ascending(sorted) && idx < |sorted|
    ensures CountAtMost(sorted, sorted[idx]) >= idx + 1
    ensures CountAtLeast(sorted, sorted[idx]) >= |sorted| - idx
  {
    var x := sorted[idx];
    var low, high := Mapped(AtMost(x), sorted), Mapped(AtLeast(x), sorted);
    assert low == low[..idx + 1] + low[idx + 1..];
    RunOfOnes(low[..idx + 1], low[idx + 1..]);
    assert high == high[..idx] + high[idx..];
    RunOfOnes(high[idx..], high[..idx]);
  }

  /** x stands where a p-th of the n durations end: more than (n-1)p of them are at most it, and
      at most (n-1)p are below it. */
  predicate Splits(x: int, durations: seq<int>, p: real) {
    var n := |durations|;
    && CountAtMost(durations, x) as real > (n - 1) as real * p
    && (n - CountAtLeast(durations, x)) as real <= (n - 1) as real * p
  }

  /** The chosen duration is one of the group, between its least and greatest, and stands where a
      p-th of the group ends; its place from below is floor((n-1)p)+1. */
  lemma PercentileIsRank(durations: seq<int>, p: real)
    requires durations != [] && 0.0 <= p <= 1.0
    ensures var x, idx := Percentile(SortInts(durations), p), Rank(|durations|, p);
      && 0 <= idx < |durations|
      && x in durations
      && (exists lo :: lo in durations && lo <= x && forall d :: d in durations ==> lo <= d)
      && (exists hi :: hi in durations && x <= hi && forall d :: d in durations ==> d <= hi)
      && Splits(x, durations, p)
      && CountAtMost(durations, x) >= idx + 1
      && CountAtLeast(durations, x) >= |durations| - idx
  {
    var sorted, idx := SortInts(durations), Rank(|durations|, p);
    SortIntsSorts(durations);
    RankInRange(|durations|, p);
    RanksInSorted(sorted, idx);
    SameCounts(durations, sorted, sorted[idx]);
    SortedEnds(durations);
    SortedMember(durations, idx);
  }

  /** The same for the product as a machine rounds it, which may pick a neighbouring rank but
      stays between 0 and n-1. */
  lemma PercentileUnderRounding(durations: seq<int>, product: real)
    requires durations != [] && 0.0 <= product <= (|durations| - 1) as real
    ensures var idx := product.Floor; 0 <= idx < |SortInts(durations)| == |durations|
    ensures var x, idx := SortInts(durations)[product.Floor], product.Floor;
      && x in durations
      && SortInts(durations)[0] <= x <= Largest(durations)
      && CountAtMost(durations, x) >= idx + 1
      && CountAtLeast(durations, x) >= |durations| - idx
  {
    var sorted, idx := SortInts(durations), product.Floor;
    SortIntsSorts(durations);
    RanksInSorted(sorted, idx);
    SameCounts(durations, sorted, sorted[idx]);
    SortedMember(durations, idx);
    SortedEnds(durations);
  }

  lemma SameCounts(a: seq<int>, b: seq<int>, x: int)
    requires multiset(a) == multiset(b)
    ensures CountAtMost(a, x) == CountAtMost(b, x) && CountAtLeast(a, x) == CountAtLeast(b, x)
  {
    MappedPermutes(AtMost(x), a, b);
    SumPermutes(Mapped(AtMost(x), a), Mapped(AtMost(x), b));
    MappedPermutes(AtLeast(x), a, b);
    SumPermutes(Mapped(AtLeast(x), a), Mapped(AtLeast(x), b));
  }

  lemma SortedMember(durations: seq<int>, i: nat)
    requires i < |SortInts(durations)|
    ensures SortInts(durations)[i] in durations
  {
    SortIntsSorts(durations);
    assert SortInts(durations)[i] in multiset(SortInts(durations));
  }

  lemma SortedEnds(durations: seq<int>)
    requires durations != []
    ensures var sorted := SortInts(durations);
      && |sorted| == |durations|
      && sorted[0] in durations && sorted[|sorted| - 1] in durations
      && forall d :: d in durations ==> sorted[0] <= d <= sorted[|sorted| - 1]
  {
    SortIntsSorts(durations);
    var sorted := SortInts(durations);
    SortedMember(durations, 0);
    SortedMember(durations, |sorted| - 1);
    forall d | d in durations ensures sorted[0] <= d <= sorted[|sorted| - 1] {
      assert d in multiset(durations);
      assert d in sorted;
    }
  }
}
