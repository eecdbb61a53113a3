/** Strings as sequences of characters. Letters are the ASCII ones. */
module Text {
  import opened Events

  function Upper(c: char): char {
    if 'a' <= c <= 'z' then c - 'a' + 'A' else c
  }

  function Lower(c: char): char {
    if 'A' <= c <= 'Z' then c - 'A' + 'a' else c
  }

  /** strings.ToLower */
  function ToLower(s: string): string {
    seq(|s|, i requires 0 <= i < |s| => Lower(s[i]))
  }

  predicate OccursAt(s: string, part: string, i: nat) {
    i + |part| <= |s| && s[i..i + |part|] == part
  }

  /** strings.Contains */
  predicate Contains(s: string, part: string) {
    exists i | 0 <= i <= |s| :: OccursAt(s, part, i)
  }

  /** strings.Cut at the first occurrence of c. */
  function Cut(s: string, c: char): (r: (string, Option<string>))
    ensures match r.1
      case None => c !in s && r.0 == s
      case Some(after) => c !in r.0 && s == r.0 + [c] + after
  {
    if s == "" then ("", None)
    else if s[0] == c then ("", Some(s[1..]))
    else
      var rest := Cut(s[1..], c);
      ([s[0]] + rest.0, rest.1)
  }

  lemma {:induction false} CutJoined(head: string, c: char, tail: string)
    requires c !in head
    ensures Cut(head + [c] + tail, c) == (head, Some(tail))
    ensures Cut(head, c) == (head, None)
  {
    var s := head + [c] + tail;
    if head == "" {
      assert s[1..] == tail;
    } else {
      assert head[0] in head;
      assert s[1..] == head[1..] + [c] + tail;
      CutJoined(head[1..], c, tail);
      assert [head[0]] + head[1..] == head;
    }
  }

  // ---------------------------------------------------------------- letters of either case

  /** The same character, or the same letter in the other case. */
  predicate SameLetter(a: char, b: char) {
    || a == b
    || ('a' <= a <= 'z' && 'A' <= b <= 'Z' && a - 'a' == b - 'A')
    || ('A' <= a <= 'Z' && 'a' <= b <= 'z' && a - 'A' == b - 'a')
  }

  predicate SameButCase(s: string, t: string) {
    |s| == |t| && forall i :: 0 <= i < |s| ==> SameLetter(s[i], t[i])
  }

  lemma LowerIff(a: char, b: char)
    ensures Lower(a) == Lower(b) <==> SameLetter(a, b)
    ensures Upper(a) == Upper(b) <==> SameLetter(a, b)
    ensures SameLetter(a, Lower(a)) && SameLetter(a, Upper(a))
  {
  }

  /** Lower-casing forgets exactly the case of letters. */
  lemma ToLowerIff(s: string, t: string)
    ensures ToLower(s) == ToLower(t) <==> SameButCase(s, t)
  {
    forall i | 0 <= i < |s| && |s| == |t| ensures ToLower(s)[i] == ToLower(t)[i] <==> SameLetter(s[i], t[i]) {
      LowerIff(s[i], t[i]);
    }
    assert |ToLower(s)| == |s| && |ToLower(t)| == |t|;
    if SameButCase(s, t) {
      assert forall i :: 0 <= i < |s| ==> ToLower(s)[i] == ToLower(t)[i];
    }
  }

  lemma LowerPart(s: string, i: nat, n: nat)
    requires i + n <= |s|
    ensures ToLower(s)[i..i + n] == ToLower(s[i..i + n])
  {
  }

  /** s holds part, but for the case of letters. */
  predicate HoldsSomewhere(s: string, part: string) {
    exists i | 0 <= i <= |s| :: HoldsAt(s, part, i)
  }

  predicate HoldsAt(s: string, part: string, i: nat) {
    i + |part| <= |s| && SameButCase(s[i..i + |part|], part)
  }

  lemma LowerHolds(s: string, part: string, i: nat)
    ensures OccursAt(ToLower(s), ToLower(part), i) <==> HoldsAt(s, part, i)
  {
    if i + |part| <= |s| {
      LowerPart(s, i, |part|);
      ToLowerIff(s[i..i + |part|], part);
    }
  }

  /** Searching lower-cased text ignores the case of letters and nothing else. */
  lemma LowerContains(s: string, part: string)
    ensures Contains(ToLower(s), ToLower(part)) <==> HoldsSomewhere(s, part)
  {
    forall i: nat ensures OccursAt(ToLower(s), ToLower(part), i) <==> HoldsAt(s, part, i) {
      LowerHolds(s, part, i);
    }
    if HoldsSomewhere(s, part) {
      var i: nat :| 0 <= i <= |s| && HoldsAt(s, part, i);
      assert OccursAt(ToLower(s), ToLower(part), i);
    }
    if Contains(ToLower(s), ToLower(part)) {
      var i: nat :| 0 <= i <= |ToLower(s)| && OccursAt(ToLower(s), ToLower(part), i);
      assert HoldsAt(s, part, i);
    }
  }
}
