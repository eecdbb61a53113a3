/** Bounds on the exported totals and averages, in microseconds truncated from nanoseconds. */
module Rounding {
  import opened Events
  import opened Permutations
  import opened Sorting
  import opened Percentiles
  import opened Aggregation

  // ---------------------------------------------------------------- truncation

  function Micros(): int -> int {
    (nanos: int) => Microseconds(nanos)
  }

  function Leftover(): int -> int {
    (nanos: int) => nanos % 1000
  }

  ghost predicate NonNegative(s: seq<int>) {
    forall i :: 0 <= i < |s| ==> s[i] >= 0
  }

  /** A sum is a thousand times the sum of its truncations, plus the sum of what they drop. */
  lemma {:induction false} SumSplits(s: seq<int>)
    requires NonNegative(s)
    ensures Sum(s) == 1000 * Sum(Mapped(Micros(), s)) + Sum(Mapped(Leftover(), s))
    ensures 0 <= Sum(Mapped(Leftover(), s)) <= 999 * |s|
  {
    if s != [] {
      var init, last := s[..|s| - 1], s[|s| - 1];
      SumSplits(init);
      assert Mapped(Micros(), s)[..|s| - 1] == Mapped(Micros(), init);
      assert Mapped(Leftover(), s)[..|s| - 1] == Mapped(Leftover(), init);
    }
  }

  /** What truncating the sum once gains over summing truncations. */
  function Carry(s: seq<int>): int {
    Sum(Mapped(Leftover(), s)) / 1000
  }

  lemma TruncatedSum(s: seq<int>)
    requires NonNegative(s)
    ensures Microseconds(Sum(s)) == Sum(Mapped(Micros(), s)) + Carry(s)
    ensures 0 <= Carry(s) && (s != [] ==> Carry(s) < |s|)
  {
    SumSplits(s);
    SumIsNonNegative(Mapped(Micros(), s));
  }

  /** How far, in whole microseconds, the durations fall short of all being max. */
  function Shortfall(s: seq<int>, max: int): int {
    |s| * Microseconds(max) - Sum(Mapped(Micros(), s))
  }

  /**
   * The exported average, a truncated total over the count, stays below the truncated maximum
   * plus one microsecond. It can exceed the maximum itself, and does exactly when the dropped
   * nanoseconds carry into more microseconds than the durations fall short of the maximum.
   */
  lemma AverageAgainstMaximum(durations: seq<int>)
    requires durations != [] && NonNegative(durations)
    ensures var max := Largest(durations);
      && 0 <= Shortfall(durations, max)
      && Microseconds(Sum(durations)) < |durations| * (Microseconds(max) + 1)
      && (Microseconds(Sum(durations)) <= |durations| * Microseconds(max)
          <==> Carry(durations) <= Shortfall(durations, max))
  {
    SortedEnds(durations);
    TruncatedSum(durations);
    var n, max := |durations|, Largest(durations);
    MicrosBounded(durations, max);
    TruncatedAverage(n, Microseconds(max), Sum(Mapped(Micros(), durations)), Carry(durations));
  }

  lemma MicrosBounded(durations: seq<int>, max: int)
    requires NonNegative(durations) && forall d :: d in durations ==> d <= max
    ensures Sum(Mapped(Micros(), durations)) <= |durations| * Microseconds(max)
  {
    var micros := Mapped(Micros(), durations);
    forall i | 0 <= i < |durations| ensures 0 <= micros[i] <= Microseconds(max) {
      assert durations[i] in durations;
    }
    SumBounds(micros, 0, Microseconds(max));
  }

  lemma TruncatedAverage(n: nat, max: int, whole: int, carry: int)
    requires 0 <= carry < n && whole <= n * max
    ensures whole + carry < n * (max + 1)
    ensures whole + carry <= n * max <==> carry <= n * max - whole
  {
    assert n * (max + 1) == n * max + n;
  }

  /** The same in the exported row's milliseconds. */
  lemma ExportedAverageBound(key: string, durations: seq<int>, errors: nat)
    requires durations != [] && NonNegative(durations)
    ensures var row := ExportRowOf(key, durations, errors); row.avgMs < row.maxMs + 0.001
  {
    AverageAgainstMaximum(durations);
    var n := |durations|;
    var total, top := Microseconds(Sum(durations)), Microseconds(Largest(durations)) + 1;
    DividedBelow(total, n, top);
    var row := ExportRowOf(key, durations, errors);
    assert row.avgMs == Millis(total) / n as real;
    assert Millis(total) / n as real == (total as real / n as real) / 1000.0 by {
      SwapDivisions(total as real, n as real);
    }
  }

  lemma SwapDivisions(x: real, n: real)
    requires n > 0.0
    ensures (x / 1000.0) / n == (x / n) / 1000.0
  {
    assert ((x / 1000.0) / n) * n == x / 1000.0;
    assert ((x / n) / 1000.0) * n == (x / n) * n / 1000.0;
  }

  lemma DividedBelow(total: int, n: nat, top: int)
    requires n > 0 && total < n * top
    ensures total as real / n as real < top as real
  {
    var q := total as real / n as real;
    assert q * n as real == total as real;
    assert total as real < (n * top) as real == n as real * top as real;
    CancelFactor(q, top as real, n as real);
  }

  lemma CancelFactor(a: real, b: real, n: real)
    requires n > 0.0 && a * n < b * n
    ensures a < b
  {
  }

  /** avg <= max is false: two calls of 1999 ns show an average of 1.5 and a maximum of 1. */
  lemma AverageCanExceedMaximum()
    ensures var durations := [1999, 1999];
      Microseconds(Sum(durations)) > 2 * Microseconds(Largest(durations))
  {
    SortedEnds([1999, 1999]);
    SumOfConcat([1999], [1999]);
    SumOfOne(1999);
    assert [1999, 1999] == [1999] + [1999];
  }
}
