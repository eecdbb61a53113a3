/** A verified sort standing in for sort.Slice and slices.SortFunc. Only the facts a library
    sort guarantees are used of it: its result is a permutation, and ordered. */
module Sorting {

  predicate Descending<T>(s: seq<T>, key: T -> real) {
    forall i, j :: 0 <= i < j < |s| ==> key(s[i]) >= key(s[j])
  }

  function Insert<T>(x: T, s: seq<T>, key: T -> real): seq<T> {
    if s == [] || key(x) >= key(s[0]) then [x] + s else [s[0]] + Insert(x, s[1..], key)
  }

  function Sort<T>(s: seq<T>, key: T -> real): seq<T> {
    if s == [] then [] else Insert(s[0], Sort(s[1..], key), key)
  }

  lemma {:induction false} InsertPermutes<T>(x: T, s: seq<T>, key: T -> real)
    ensures multiset(Insert(x, s, key)) == multiset{x} + multiset(s)
  {
    if !(s == [] || key(x) >= key(s[0])) {
      InsertPermutes(x, s[1..], key);
      assert s == [s[0]] + s[1..];
    }
  }

  lemma {:induction false} InsertOrders<T(!new)>(x: T, s: seq<T>, key: T -> real)
    requires Descending(s, key)
    ensures Descending(Insert(x, s, key), key)
  {
    if !(s == [] || key(x) >= key(s[0])) {
      var rest := Insert(x, s[1..], key);
      InsertOrders(x, s[1..], key);
      InsertPermutes(x, s[1..], key);
      forall j | 0 <= j < |rest| ensures key(s[0]) >= key(rest[j]) {
        assert rest[j] in multiset(rest);
        assert rest[j] == x || rest[j] in s[1..];
      }
    }
  }

  lemma {:induction false} SortSorts<T(!new)>(s: seq<T>, key: T -> real)
    ensures multiset(Sort(s, key)) == multiset(s)
    ensures Descending(Sort(s, key), key)
  {
    if s != [] {
      SortSorts(s[1..], key);
      InsertPermutes(s[0], Sort(s[1..], key), key);
      InsertOrders(s[0], Sort(s[1..], key), key);
      assert s == [s[0]] + s[1..];
    }
  }

  /** What a library sort answered, any arrangement of ties included. An answer that no sort
      could give is replaced by one that a sort can. */
  function Sorted<T(==)>(s: seq<T>, key: T -> real, answer: seq<T>): seq<T> {
    if multiset(answer) == multiset(s) && Descending(answer, key) then answer else Sort(s, key)
  }

  lemma SortedSorts<T(!new)>(s: seq<T>, key: T -> real, answer: seq<T>)
    ensures multiset(Sorted(s, key, answer)) == multiset(s)
    ensures Descending(Sorted(s, key, answer), key)
  {
    SortSorts(s, key);
  }

  // ---------------------------------------------------------------- numbers, ascending

  ghost predicate Ascending(s: seq<int>) {
    forall i, j :: 0 <= i < j < |s| ==> s[i] <= s[j]
  }

  function Negated(x: int): real {
    (-x) as real
  }

  function SortInts(s: seq<int>): seq<int> {
    Sort(s, Negated)
  }

  lemma SortIntsSorts(s: seq<int>)
    ensures multiset(SortInts(s)) == multiset(s) && Ascending(SortInts(s)) && |SortInts(s)| == |s|
  {
    SortSorts(s, Negated);
    assert |multiset(SortInts(s))| == |multiset(s)|;
    forall i, j | 0 <= i < j < |SortInts(s)| ensures SortInts(s)[i] <= SortInts(s)[j] {
      assert Negated(SortInts(s)[i]) >= Negated(SortInts(s)[j]);
    }
  }

  /** The last of the sorted numbers. */
  function Largest(s: seq<int>): int
    requires s != []
  {
    SortIntsSorts(s);
    SortInts(s)[|s| - 1]
  }

  lemma LeastIsFirst(s: seq<int>, x: int)
    requires Ascending(s) && x in multiset(s)
    ensures s != [] && s[0] <= x
  {
    var k :| 0 <= k < |s| && s[k] == x;
  }

  lemma TailIsAscending(s: seq<int>)
    requires Ascending(s) && s != []
    ensures Ascending(s[1..]) && multiset(s[1..]) == multiset(s) - multiset{s[0]}
  {
    assert s == [s[0]] + s[1..];
    forall i, j | 0 <= i < j < |s[1..]| ensures s[1..][i] <= s[1..][j] {
      assert s[i + 1] <= s[j + 1];
    }
  }

  lemma SameLeast(a: seq<int>, b: seq<int>)
    requires Ascending(a) && Ascending(b) && multiset(a) == multiset(b) && a != []
    ensures b != [] && a[0] == b[0]
  {
    assert a[0] in multiset(a);
    LeastIsFirst(b, a[0]);
    assert b[0] in multiset(b);
    LeastIsFirst(a, b[0]);
  }

  /** A list of numbers has one ascending arrangement, so any correct sort gives this one. */
  lemma {:induction false} AscendingIsUnique(a: seq<int>, b: seq<int>)
    requires Ascending(a) && Ascending(b) && multiset(a) == multiset(b)
    ensures a == b
    decreases |a|
  {
    if a == [] {
      assert |multiset(b)| == |b|;
    } else {
      SameLeast(a, b);
      TailIsAscending(a);
      TailIsAscending(b);
      var restA, restB := a[1..], b[1..];
      AscendingIsUnique(restA, restB);
      assert a == [a[0]] + restA && b == [b[0]] + restB;
    }
  }
}
