/** Order-preserving embeddings of one history into another. */
module Subsequences {

  /** at names, for each element of a, the place in b it comes from; places only move forward. */
  ghost predicate Embeds<T>(a: seq<T>, b: seq<T>, at: seq<nat>) {
    && |at| == |a|
    && (forall i :: 0 <= i < |at| ==> at[i] < |b| && a[i] == b[at[i]])
    && (forall i, j :: 0 <= i < j < |at| ==> at[i] < at[j])
  }

  /** a appears in b in order, each place of b being used at most once. */
  ghost predicate Subsequence<T>(a: seq<T>, b: seq<T>) {
    exists at: seq<nat> :: Embeds(a, b, at)
  }

  lemma SliceIsSubsequence<T>(b: seq<T>, lo: nat, hi: nat)
    requires lo <= hi <= |b|
    ensures Subsequence(b[lo..hi], b)
  {
    var at: seq<nat> := seq(hi - lo, i requires 0 <= i < hi - lo => lo + i);
    assert Embeds(b[lo..hi], b, at);
  }

  lemma EmptyIsSubsequence<T>(b: seq<T>)
    ensures Subsequence([], b)
  {
    assert Embeds([], b, []);
  }

  lemma SkipLast<T>(a: seq<T>, b: seq<T>, x: T)
    requires Subsequence(a, b)
    ensures Subsequence(a, b + [x])
  {
    var at: seq<nat> :| Embeds(a, b, at);
    assert Embeds(a, b + [x], at);
  }

  lemma KeepLast<T>(a: seq<T>, b: seq<T>, x: T)
    requires Subsequence(a, b)
    ensures Subsequence(a + [x], b + [x])
  {
    var at: seq<nat> :| Embeds(a, b, at);
    assert Embeds(a + [x], b + [x], at + [|b|]);
  }

  lemma SubsequenceTransitive<T>(a: seq<T>, b: seq<T>, c: seq<T>)
    requires Subsequence(a, b) && Subsequence(b, c)
    ensures Subsequence(a, c)
  {
    var ab: seq<nat> :| Embeds(a, b, ab);
    var bc: seq<nat> :| Embeds(b, c, bc);
    var ac: seq<nat> := seq(|a|, i requires 0 <= i < |a| => bc[ab[i]]);
    assert Embeds(a, c, ac);
  }
}
