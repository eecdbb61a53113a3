/** The search and error filters, shared by the list on screen and by the export. */
module Filtering {
  import opened Events
  import opened Permutations
  import opened Text

  datatype SortMode = Chronological | ByDuration

  predicate IsError(ev: TapEvent) {
    ev.status >= 400 || ev.error != ""
  }

  predicate MatchesQuery(ev: TapEvent, query: string) {
    var filter := ToLower(query);
    filter == "" || Contains(ToLower(ev.verb + " " + ev.path), filter)
  }

  predicate Matches(ev: TapEvent, query: string, errorsOnly: bool) {
    MatchesQuery(ev, query) && (errorsOnly ==> IsError(ev))
  }

  /** The search finds an event exactly when the query, in letters of either case, stands
      somewhere in its method and path. */
  lemma MatchesQueryIff(ev: TapEvent, query: string)
    ensures MatchesQuery(ev, query) <==> HoldsSomewhere(ev.verb + " " + ev.path, query)
  {
    var target := ev.verb + " " + ev.path;
    LowerContains(target, query);
    if query == "" {
      assert HoldsAt(target, "", 0);
    }
  }

  /** The indices of the events that pass both filters, oldest first. */
  function FilteredRows(events: seq<TapEvent>, query: string, errorsOnly: bool): seq<nat> {
    if events == [] then []
    else
      var n := |events| - 1;
      FilteredRows(events[..n], query, errorsOnly) + if Matches(events[n], query, errorsOnly) then [n] else []
  }

  ghost predicate Increasing(rows: seq<nat>) {
    forall i, j :: 0 <= i < j < |rows| ==> rows[i] < rows[j]
  }

  ghost predicate InRange(rows: seq<nat>, n: nat) {
    forall i :: 0 <= i < |rows| ==> rows[i] < n
  }

  lemma {:induction false} RowsAreExact(events: seq<TapEvent>, query: string, errorsOnly: bool)
    ensures var rows := FilteredRows(events, query, errorsOnly);
      && Increasing(rows) && InRange(rows, |events|)
      && forall i: nat :: i in rows <==> i < |events| && Matches(events[i], query, errorsOnly)
  {
    if events != [] {
      RowsAreExact(events[..|events| - 1], query, errorsOnly);
    }
  }

  lemma ArrivalExtendsRows(events: seq<TapEvent>, ev: TapEvent, query: string, errorsOnly: bool)
    ensures FilteredRows(events + [ev], query, errorsOnly)
         == FilteredRows(events, query, errorsOnly) + if Matches(ev, query, errorsOnly) then [|events|] else []
  {
    assert (events + [ev])[..|events|] == events;
  }

  lemma EmptyQueryMatches(ev: TapEvent)
    ensures MatchesQuery(ev, "")
  {
  }

  lemma {:induction false} ClearingQueryKeepsRows(events: seq<TapEvent>, query: string, errorsOnly: bool)
    ensures multiset(FilteredRows(events, query, errorsOnly)) <= multiset(FilteredRows(events, "", errorsOnly))
  {
    if events != [] {
      ClearingQueryKeepsRows(events[..|events| - 1], query, errorsOnly);
      EmptyQueryMatches(events[|events| - 1]);
    }
  }

  /** The events a filter leaves out. */
  function Skipped(events: seq<TapEvent>, query: string, errorsOnly: bool): set<nat> {
    set i: nat | i < |events| && !Matches(events[i], query, errorsOnly)
  }

  lemma SkippedArrival(events: seq<TapEvent>, ev: TapEvent, query: string, errorsOnly: bool)
    ensures |Skipped(events + [ev], query, errorsOnly)|
         == |Skipped(events, query, errorsOnly)| + if Matches(ev, query, errorsOnly) then 0 else 1
  {
    var before, n := Skipped(events, query, errorsOnly), |events|;
    assert (events + [ev])[n] == ev;
    assert Skipped(events + [ev], query, errorsOnly) == if Matches(ev, query, errorsOnly) then before else before + {n};
  }

  lemma {:induction false} FilterSplits(events: seq<TapEvent>, query: string, errorsOnly: bool)
    ensures |FilteredRows(events, query, errorsOnly)| + |Skipped(events, query, errorsOnly)| == |events|
  {
    if events == [] {
      assert Skipped(events, query, errorsOnly) == {};
    } else {
      var init, last := events[..|events| - 1], events[|events| - 1];
      FilterSplits(init, query, errorsOnly);
      SkippedArrival(init, last, query, errorsOnly);
      assert init + [last] == events;
    }
  }

  // ---------------------------------------------------------------- rows in display order

  function DurationKey(events: seq<TapEvent>): nat -> real {
    (i: nat) => if i < |events| then events[i].duration as real else 0.0
  }

  ghost predicate SlowestFirst(events: seq<TapEvent>, rows: seq<nat>) {
    forall i, j :: 0 <= i < j < |rows| && rows[i] < |events| && rows[j] < |events| ==>
      events[rows[i]].duration >= events[rows[j]].duration
  }

  ghost predicate Ordered(mode: SortMode, events: seq<TapEvent>, rows: seq<nat>) {
    match mode
    case Chronological => Increasing(rows)
    case ByDuration => SlowestFirst(events, rows)
  }

  /** rows is what rebuildDisplayRows may return; sort.Slice may leave ties in any order. */
  ghost predicate IsRebuild(events: seq<TapEvent>, query: string, errorsOnly: bool, mode: SortMode, rows: seq<nat>) {
    && (mode == Chronological ==> rows == FilteredRows(events, query, errorsOnly))
    && multiset(rows) == multiset(FilteredRows(events, query, errorsOnly))
    && Ordered(mode, events, rows)
  }

  /** The events at the given rows. */
  function Picked(events: seq<TapEvent>, rows: seq<nat>): seq<TapEvent>
    requires forall i :: 0 <= i < |rows| ==> rows[i] < |events|
  {
    seq(|rows|, i requires 0 <= i < |rows| => events[rows[i]])
  }

  lemma PickedWithoutOne(events: seq<TapEvent>, b: seq<nat>, k: nat)
    requires InRange(b, |events|) && k < |b|
    ensures multiset(Picked(events, b)) == multiset(Picked(events, Without(b, k))) + multiset{events[b[k]]}
  {
    assert Picked(events, b) == Picked(events, b[..k]) + [events[b[k]]] + Picked(events, b[k + 1..]);
    assert Picked(events, Without(b, k)) == Picked(events, b[..k]) + Picked(events, b[k + 1..]);
  }

  lemma {:induction false} PickedPermutes(events: seq<TapEvent>, a: seq<nat>, b: seq<nat>)
    requires InRange(a, |events|) && InRange(b, |events|) && multiset(a) == multiset(b)
    ensures multiset(Picked(events, a)) == multiset(Picked(events, b))
    decreases |a|
  {
    assert |a| == |multiset(a)| == |multiset(b)| == |b|;
    if a != [] {
      var k := SplitOff(a, b);
      PickedPermutes(events, a[1..], Without(b, k));
      PickedWithoutOne(events, a, 0);
      assert Without(a, 0) == a[1..];
      PickedWithoutOne(events, b, k);
    }
  }

  // ---------------------------------------------------------------- the loops

  lemma NextRow(events: seq<TapEvent>, i: nat, query: string, errorsOnly: bool)
    requires i < |events|
    ensures FilteredRows(events[..i + 1], query, errorsOnly)
         == FilteredRows(events[..i], query, errorsOnly) + if Matches(events[i], query, errorsOnly) then [i] else []
  {
    assert events[..i + 1][..i] == events[..i];
  }

  /** The loop of rebuildDisplayRows, before the rows are sorted. */
  method CollectRows(events: seq<TapEvent>, query: string, errorsOnly: bool) returns (rows: seq<nat>)
    ensures rows == FilteredRows(events, query, errorsOnly)
  {
    rows := [];
    var filter := ToLower(query);
    for i := 0 to |events|
      invariant rows == FilteredRows(events[..i], query, errorsOnly)
    {
      NextRow(events, i, query, errorsOnly);
      var ev := events[i];
      var target := ToLower(ev.verb + " " + ev.path);
      if filter != "" && !Contains(target, filter) {
        continue;
      }
      if errorsOnly && ev.status < 400 && ev.error == "" {
        continue;
      }
      rows := rows + [i];
    }
    assert events[..|events|] == events;
  }

  /** The events that pass, in order: what the row indices pick out. */
  function FilteredEvents(events: seq<TapEvent>, query: string, errorsOnly: bool): seq<TapEvent> {
    RowsAreExact(events, query, errorsOnly);
    Picked(events, FilteredRows(events, query, errorsOnly))
  }

  lemma NextEvent(events: seq<TapEvent>, i: nat, query: string, errorsOnly: bool)
    requires i < |events|
    ensures FilteredEvents(events[..i + 1], query, errorsOnly)
         == FilteredEvents(events[..i], query, errorsOnly)
            + if Matches(events[i], query, errorsOnly) then [events[i]] else []
  {
    NextRow(events, i, query, errorsOnly);
    RowsAreExact(events[..i], query, errorsOnly);
    RowsAreExact(events[..i + 1], query, errorsOnly);
  }

  /** filteredExportEvents: the events whose rows an unsorted rebuild would show. */
  method FilteredExportEvents(events: seq<TapEvent>, query: string, errorsOnly: bool) returns (result: seq<TapEvent>)
    ensures result == FilteredEvents(events, query, errorsOnly)
    ensures |result| + |Skipped(events, query, errorsOnly)| == |events|
  {
    result := [];
    var filter := ToLower(query);
    FilterSplits(events, query, errorsOnly);
    for i := 0 to |events|
      invariant result == FilteredEvents(events[..i], query, errorsOnly)
    {
      NextEvent(events, i, query, errorsOnly);
      var ev := events[i];
      var target := ToLower(ev.verb + " " + ev.path);
      if filter != "" && !Contains(target, filter) {
        continue;
      }
      if errorsOnly && ev.status < 400 && ev.error == "" {
        continue;
      }
      result := result + [ev];
    }
    assert events[..|events|] == events;
  }
}
