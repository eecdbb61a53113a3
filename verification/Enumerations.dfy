/** The orders in which Go may range over the keys of a map. */
module Enumerations {
  import opened Permutations

  /** order lists every element of the set once. */
  ghost predicate Enumerates<T(!new)>(order: seq<T>, elements: set<T>) {
    && (forall x :: x in order <==> x in elements)
    && (forall i, j :: 0 <= i < j < |order| ==> order[i] != order[j])
  }

  lemma EnumeratesRest<T(!new)>(order: seq<T>, elements: set<T>)
    requires order != [] && Enumerates(order, elements)
    ensures order[0] in elements && Enumerates(order[1..], elements - {order[0]})
  {
    assert order[0] in order;
    forall x ensures x in order[1..] <==> x in elements - {order[0]} {
      if x in order[1..] {
        var k :| 0 <= k < |order[1..]| && order[1..][k] == x;
        assert order[k + 1] == x;
      }
      if x in elements - {order[0]} {
        var k :| 0 <= k < |order| && order[k] == x;
        assert order[1..][k - 1] == x;
      }
    }
  }

  lemma EnumeratesMore<T(!new)>(order: seq<T>, elements: set<T>, x: T)
    requires Enumerates(order, elements) && x !in elements
    ensures Enumerates(order + [x], elements + {x})
  {
  }

  /** One turn of a loop that takes its next element from those still pending. */
  lemma EnumeratesPending<T(!new)>(order: seq<T>, elements: set<T>, pending: set<T>, x: T)
    requires Enumerates(order, elements - pending) && x in pending && pending <= elements
    ensures Enumerates(order + [x], elements - (pending - {x}))
  {
    EnumeratesMore(order, elements - pending, x);
    assert elements - (pending - {x}) == elements - pending + {x};
  }

  lemma EnumerationsPermute<T(!new)>(one: seq<T>, two: seq<T>, elements: set<T>)
    requires Enumerates(one, elements) && Enumerates(two, elements)
    ensures multiset(one) == multiset(two) && |one| == |two|
  {
    SameElementsOnce(one, two);
    assert |multiset(one)| == |one| && |multiset(two)| == |two|;
  }

  lemma EnumeratesWithout<T(!new)>(order: seq<T>, elements: set<T>, n: nat)
    requires Enumerates(order, elements) && n < |order|
    ensures Enumerates(order[..n] + order[n + 1..], elements - {order[n]})
  {
    var rest := order[..n] + order[n + 1..];
    forall x ensures x in rest <==> x in elements - {order[n]} {
      if x in rest {
        var m :| 0 <= m < |rest| && rest[m] == x;
        assert x == if m < n then order[m] else order[m + 1];
      }
      if x in elements - {order[n]} {
        var m :| 0 <= m < |order| && order[m] == x;
        assert rest[if m < n then m else m - 1] == x;
      }
    }
  }

  lemma {:induction false} AnyEnumeration<T(!new)>(elements: set<T>) returns (order: seq<T>)
    ensures Enumerates(order, elements)
  {
    if elements == {} {
      order := [];
    } else {
      var x :| x in elements;
      var rest := AnyEnumeration(elements - {x});
      EnumeratesMore(rest, elements - {x}, x);
      assert elements - {x} + {x} == elements;
      order := rest + [x];
    }
  }

  lemma EnumeratesPair<T(!new)>(x: T, y: T, rest: seq<T>, elements: set<T>)
    requires x != y && x in elements && y in elements && Enumerates(rest, elements - {x, y})
    ensures Enumerates([x, y] + rest, elements)
  {
    forall z ensures z in [x, y] + rest <==> z in elements {
      assert z in [x, y] + rest <==> z == x || z == y || z in rest;
    }
  }
}
