/** When copyHeaders depends on the order in which Go ranges over the source. */
module HeaderOrder {
  import opened Events
  import opened Enumerations
  import opened Headers

  /** Any two keys that are spellings of one name have values that may be joined either way. */
  ghost predicate SpellingsCommute(src: Header) {
    forall j, k :: j in src && k in src && Canonical(j) == Canonical(k) ==> src[j] + src[k] == src[k] + src[j]
  }

  lemma AddedTwice(dst: Header, j: string, one: seq<string>, k: string, two: seq<string>)
    requires Canonical(j) == Canonical(k) ==> one + two == two + one
    ensures AddedAll(AddedAll(dst, j, one), k, two) == AddedAll(AddedAll(dst, k, two), j, one)
  {
    if Canonical(j) == Canonical(k) && one != [] && two != [] {
      var before := Values(dst, Canonical(j));
      assert (before + one) + two == before + (one + two);
      assert (before + two) + one == before + (two + one);
    }
  }

  lemma CopyCons(dst: Header, src: Header, j: string, rest: seq<string>)
    requires j in src && forall x :: x in rest ==> x in src
    ensures forall x :: x in [j] + rest ==> x in src
    ensures CopiedInOrder(dst, src, [j] + rest) == CopiedInOrder(AddedAll(dst, j, src[j]), src, rest)
  {
    assert ([j] + rest)[1..] == rest;
  }

  /** A key may be copied first instead of after the keys in front of it. */
  lemma {:induction false} CopyKeyFirst(dst: Header, src: Header, front: seq<string>, k: string, back: seq<string>)
    requires SpellingsCommute(src) && k in src
    requires (forall j :: j in front ==> j in src) && forall j :: j in back ==> j in src
    ensures CopiedInOrder(dst, src, front + ([k] + back)) == CopiedInOrder(AddedAll(dst, k, src[k]), src, front + back)
    decreases |front|
  {
    if front == [] {
      assert front + ([k] + back) == [k] + back && front + back == back;
      CopyCons(dst, src, k, back);
    } else {
      var j, rest := front[0], front[1..];
      assert j in front;
      assert front + ([k] + back) == [j] + (rest + ([k] + back)) && front + back == [j] + (rest + back);
      CopyCons(dst, src, j, rest + ([k] + back));
      CopyCons(AddedAll(dst, k, src[k]), src, j, rest + back);
      CopyKeyFirst(AddedAll(dst, j, src[j]), src, rest, k, back);
      AddedTwice(dst, j, src[j], k, src[k]);
    }
  }

  lemma MoveFirst(dst: Header, src: Header, order: seq<string>, keys: set<string>, k: string)
    returns (rest: seq<string>)
    requires SpellingsCommute(src) && keys <= src.Keys && Enumerates(order, keys) && k in keys
    ensures Enumerates(rest, keys - {k})
    ensures CopiedInOrder(dst, src, order) == CopiedInOrder(AddedAll(dst, k, src[k]), src, rest)
  {
    assert k in order;
    var n :| 0 <= n < |order| && order[n] == k;
    rest := order[..n] + order[n + 1..];
    EnumeratesWithout(order, keys, n);
    assert order == order[..n] + ([k] + order[n + 1..]);
    CopyKeyFirst(dst, src, order[..n], k, order[n + 1..]);
  }

  lemma {:induction false} CommutingOrders(dst: Header, src: Header, keys: set<string>, one: seq<string>,
                                           two: seq<string>)
    requires SpellingsCommute(src) && keys <= src.Keys && Enumerates(one, keys) && Enumerates(two, keys)
    ensures CopiedInOrder(dst, src, one) == CopiedInOrder(dst, src, two)
    decreases |one|
  {
    EnumerationsPermute(one, two, keys);
    if one != [] {
      var k := one[0];
      EnumeratesRest(one, keys);
      var rest := MoveFirst(dst, src, two, keys, k);
      CommutingOrders(AddedAll(dst, k, src[k]), src, keys - {k}, one[1..], rest);
    }
  }

  lemma AddedKeepsPrefix(dst: Header, k: string, vs: seq<string>, c: string)
    ensures Values(dst, c) <= Values(AddedAll(dst, k, vs), c)
  {
  }

  /** Under every canonical name copying only appends. */
  lemma {:induction false} CopyKeepsPrefix(dst: Header, src: Header, order: seq<string>, c: string)
    requires forall k :: k in order ==> k in src
    ensures Values(dst, c) <= Values(CopiedInOrder(dst, src, order), c)
    decreases |order|
  {
    if order != [] {
      assert order[0] in order;
      AddedKeepsPrefix(dst, order[0], src[order[0]], c);
      CopyKeepsPrefix(AddedAll(dst, order[0], src[order[0]]), src, order[1..], c);
    }
  }

  function AddedPair(dst: Header, src: Header, j: string, k: string): Header
    requires j in src && k in src
  {
    AddedAll(AddedAll(dst, j, src[j]), k, src[k])
  }

  lemma CopyPairFirst(dst: Header, src: Header, j: string, k: string, rest: seq<string>)
    requires j in src && k in src && forall x :: x in rest ==> x in src
    ensures forall x :: x in [j, k] + rest ==> x in src
    ensures CopiedInOrder(dst, src, [j, k] + rest) == CopiedInOrder(AddedPair(dst, src, j, k), src, rest)
  {
    assert ([j, k] + rest)[1..] == [k] + rest;
    assert ([k] + rest)[1..] == rest;
  }

  lemma PairValues(dst: Header, src: Header, j: string, k: string)
    requires j in src && k in src && Canonical(j) == Canonical(k)
    ensures Values(AddedPair(dst, src, j, k), Canonical(j)) == Values(dst, Canonical(j)) + (src[j] + src[k])
  {
  }

  lemma PrefixesDiffer(a: seq<string>, b: seq<string>, before: seq<string>, one: seq<string>, two: seq<string>)
    requires before + one <= a && before + two <= b && |one| == |two|
    ensures a == b ==> one == two
  {
    if a == b {
      assert before + one == a[..|before + one|] == before + two;
      assert one == (before + one)[|before|..] && two == (before + two)[|before|..];
    }
  }

  /** Two spellings whose values do not commute leave a trace of which was copied first. */
  lemma NonCommutingOrders(dst: Header, src: Header, j: string, k: string, rest: seq<string>)
    requires j in src && k in src && Canonical(j) == Canonical(k) && src[j] + src[k] != src[k] + src[j]
    requires forall x :: x in rest ==> x in src
    ensures forall x :: x in [j, k] + rest || x in [k, j] + rest ==> x in src
    ensures CopiedInOrder(dst, src, [j, k] + rest) != CopiedInOrder(dst, src, [k, j] + rest)
  {
    var c := Canonical(j);
    CopyPairFirst(dst, src, j, k, rest);
    CopyPairFirst(dst, src, k, j, rest);
    CopyKeepsPrefix(AddedPair(dst, src, j, k), src, rest, c);
    CopyKeepsPrefix(AddedPair(dst, src, k, j), src, rest, c);
    PairValues(dst, src, j, k);
    PairValues(dst, src, k, j);
    PrefixesDiffer(Values(CopiedInOrder(AddedPair(dst, src, j, k), src, rest), c),
                   Values(CopiedInOrder(AddedPair(dst, src, k, j), src, rest), c),
                   Values(dst, c), src[j] + src[k], src[k] + src[j]);
  }

  ghost predicate OrderIrrelevant(dst: Header, src: Header) {
    forall one, two :: Enumerates(one, src.Keys) && Enumerates(two, src.Keys) ==>
      CopiedInOrder(dst, src, one) == CopiedInOrder(dst, src, two)
  }

  lemma CommutingIsIrrelevant(dst: Header, src: Header)
    requires SpellingsCommute(src)
    ensures OrderIrrelevant(dst, src)
  {
    forall one, two | Enumerates(one, src.Keys) && Enumerates(two, src.Keys)
      ensures CopiedInOrder(dst, src, one) == CopiedInOrder(dst, src, two)
    {
      CommutingOrders(dst, src, src.Keys, one, two);
    }
  }

  lemma NonCommutingIsRelevant(dst: Header, src: Header)
    requires !SpellingsCommute(src)
    ensures !OrderIrrelevant(dst, src)
  {
    var j, k :| j in src && k in src && Canonical(j) == Canonical(k) && src[j] + src[k] != src[k] + src[j];
    var one, two := OrdersThatDiffer(dst, src, j, k);
    assert Enumerates(one, src.Keys) && Enumerates(two, src.Keys);
  }

  lemma OrdersThatDiffer(dst: Header, src: Header, j: string, k: string) returns (one: seq<string>, two: seq<string>)
    requires j in src && k in src && Canonical(j) == Canonical(k) && src[j] + src[k] != src[k] + src[j]
    ensures Enumerates(one, src.Keys) && Enumerates(two, src.Keys)
    ensures CopiedInOrder(dst, src, one) != CopiedInOrder(dst, src, two)
  {
    var rest := AnyEnumeration(src.Keys - {j, k});
    one, two := [j, k] + rest, [k, j] + rest;
    EnumeratesPair(j, k, rest, src.Keys);
    assert {k, j} == {j, k};
    EnumeratesPair(k, j, rest, src.Keys);
    NonCommutingOrders(dst, src, j, k, rest);
  }

  /** The order does not matter exactly when the values of any two spellings of a name commute. */
  lemma CopyOrderMattersIff(dst: Header, src: Header)
    ensures OrderIrrelevant(dst, src) <==> SpellingsCommute(src)
  {
    if SpellingsCommute(src) {
      CommutingIsIrrelevant(dst, src);
    } else {
      NonCommutingIsRelevant(dst, src);
    }
  }

  /** The smallest case in which it does: two spellings of one name. */
  lemma CopyOrderMattersOtherwise()
    ensures var src: Header := map["a" := ["1"], "A" := ["2"]];
      CopiedInOrder(map[], src, ["a", "A"]) != CopiedInOrder(map[], src, ["A", "a"])
  {
    var src: Header := map["a" := ["1"], "A" := ["2"]];
    assert Cased("a", true) == "A" && Cased("A", true) == "A";
    assert Canonical("a") == "A" && Canonical("A") == "A";
    var one := AddedAll(map[], "a", ["1"]);
    assert ["a", "A"][1..] == ["A"] && ["A"][1..] == [];
    assert CopiedInOrder(one, src, ["A"]) == AddedAll(one, "A", ["2"]);
    assert CopiedInOrder(map[], src, ["a", "A"])["A"] == ["1", "2"];
    var two := AddedAll(map[], "A", ["2"]);
    assert ["A", "a"][1..] == ["a"] && ["a"][1..] == [];
    assert CopiedInOrder(two, src, ["a"]) == AddedAll(two, "a", ["1"]);
    assert CopiedInOrder(map[], src, ["A", "a"])["A"] == ["2", "1"];
  }
}
