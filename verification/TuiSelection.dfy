/** Which event stays selected while others arrive. */
module TuiSelection {
  import opened Events
  import opened Permutations
  import opened Sorting
  import opened Filtering
  import opened Tui
  import opened TuiInvariants
  import opened TuiRuns

  // ---------------------------------------------------------------- in the inspector

  predicate BringsAwaited(m: Model, msg: Msg) {
    msg.EventArrived? && Awaited(m, msg.ev)
  }

  /** Every state of the run is in the inspector, and the awaited replay does not arrive. */
  predicate StaysInspecting(s: Session, inputs: seq<Input>)
    requires Admissible(s, inputs)
    decreases |inputs|
  {
    && s.m.view == InspectView
    && (inputs == [] ||
        (!BringsAwaited(s.m, MsgOf(inputs[0])) && StaysInspecting(Next(s, inputs[0]), inputs[1..])))
  }

  lemma InspectStep(m: Model, msg: Msg, answers: Answers)
    requires m.view == InspectView && !BringsAwaited(m, msg)
    requires Update(m, msg, answers).0.view == InspectView
    ensures var n := Update(m, msg, answers).0;
      && n.list == m.list.(events := n.list.events) && m.list.events <= n.list.events
  {
    match msg
    case EventArrived(ev) =>
    case KeyPressed(key, runes) =>
      if key != Char('q') {
        QuietElsewhere(m.(alert := m.alert.(message := "")), key, answers);
      }
    case _ => QuietMessage(m, msg, answers);
  }

  lemma SameSelection(l: ListState, n: ListState)
    requires ListInv(l) && n.displayRows == l.displayRows && n.cursor == l.cursor && l.events <= n.events
    ensures CursorEvent(n) == CursorEvent(l)
  {
    ListedIsSound(l.events, l.searchQuery, l.filterErrors, l.sortMode, l.displayRows);
  }

  /** While the inspector stays open it shows one event, whatever else arrives. */
  lemma {:induction false} InspectedEventIsStable(s: Session, inputs: seq<Input>)
    requires Inv(s.m) && Admissible(s, inputs) && StaysInspecting(s, inputs)
    ensures CursorEvent(Exec(s, inputs).m.list) == CursorEvent(s.m.list)
    decreases |inputs|
  {
    if inputs != [] {
      var n := Next(s, inputs[0]);
      NextModel(s, inputs[0]);
      InspectStep(s.m, MsgOf(inputs[0]), AnswersOf(inputs[0]));
      SameSelection(s.m.list, n.m.list);
      UpdateKeepsInv(s.m, MsgOf(inputs[0]), AnswersOf(inputs[0]));
      InspectedEventIsStable(n, inputs[1..]);
    }
  }

  /** While the inspector stays open the list collects events and changes in nothing else. */
  lemma {:induction false} InspectingOnlyCollects(s: Session, inputs: seq<Input>)
    requires Admissible(s, inputs) && StaysInspecting(s, inputs)
    ensures var n := Exec(s, inputs).m;
      && n.view == InspectView
      && n.list == s.m.list.(events := n.list.events) && s.m.list.events <= n.list.events
    decreases |inputs|
  {
    if inputs != [] {
      NextModel(s, inputs[0]);
      InspectStep(s.m, MsgOf(inputs[0]), AnswersOf(inputs[0]));
      InspectingOnlyCollects(Next(s, inputs[0]), inputs[1..]);
    }
  }

  // ---------------------------------------------------------------- in the chronological list

  datatype Arrival = Arrival(ev: TapEvent, answers: Answers)

  function AfterArrivals(m: Model, arrivals: seq<Arrival>): Model
    decreases |arrivals|
  {
    if arrivals == [] then m
    else AfterArrivals(Arrived(m, arrivals[0].ev, arrivals[0].answers), arrivals[1..])
  }

  /** A chronological list, complete, not empty, not following, the cursor on some row. */
  ghost predicate Reading(l: ListState) {
    && l.sortMode == Chronological && !l.follow && Fresh(l) && 0 <= l.cursor < |l.displayRows|
  }

  lemma ArrivalWhileReading(l: ListState, ev: TapEvent, answer: seq<nat>)
    requires Reading(l)
    ensures var n := ArrivedInList(l, ev, answer);
      Reading(n) && l.displayRows <= n.displayRows && n.cursor == l.cursor && l.events <= n.events
  {
    ArrivalExtendsRows(l.events, ev, l.searchQuery, l.filterErrors);
    RebuildIsFresh(l.(events := l.events + [ev]), answer);
  }

  lemma PrefixKeepsSelection(l: ListState, n: ListState)
    requires RowsListed(l) && 0 <= l.cursor < |l.displayRows|
    requires l.displayRows <= n.displayRows && n.cursor == l.cursor && l.events <= n.events
    ensures CursorEvent(n) == CursorEvent(l) && CursorEvent(l).Found?
  {
    ListedIsSound(l.events, l.searchQuery, l.filterErrors, l.sortMode, l.displayRows);
  }

  /** Any arrivals but the awaited one keep the same event selected. */
  lemma {:induction false} SelectionIsStable(m: Model, arrivals: seq<Arrival>)
    requires m.view == ListView && Reading(m.list)
    requires forall i :: 0 <= i < |arrivals| ==> !Awaited(m, arrivals[i].ev)
    ensures CursorEvent(AfterArrivals(m, arrivals).list) == CursorEvent(m.list)
    ensures CursorEvent(m.list).Found? && Reading(AfterArrivals(m, arrivals).list)
    decreases |arrivals|
  {
    PrefixKeepsSelection(m.list, m.list);
    if arrivals != [] {
      var n := Arrived(m, arrivals[0].ev, arrivals[0].answers);
      ArrivalWhileReading(m.list, arrivals[0].ev, arrivals[0].answers.rows);
      PrefixKeepsSelection(m.list, n.list);
      SelectionIsStable(n, arrivals[1..]);
    }
  }

  lemma {:induction false} MoreEventsMoreRows(events: seq<TapEvent>, more: seq<TapEvent>, query: string,
                                              errorsOnly: bool)
    ensures FilteredRows(events, query, errorsOnly) <= FilteredRows(events + more, query, errorsOnly)
    decreases |more|
  {
    if more == [] {
      assert events + more == events;
    } else {
      var init, last := more[..|more| - 1], more[|more| - 1];
      MoreEventsMoreRows(events, init, query, errorsOnly);
      ArrivalExtendsRows(events + init, last, query, errorsOnly);
      assert events + init + [last] == events + more;
    }
  }

  lemma BackWhileReading(l: ListState, events: seq<TapEvent>, answer: seq<nat>)
    requires Reading(l) && l.events <= events
    ensures var n := BackInList(l.(events := events), answer);
      Reading(n) && l.displayRows <= n.displayRows && n.cursor == l.cursor && n.events == events
  {
    assert events == l.events + events[|l.events|..];
    MoreEventsMoreRows(l.events, events[|l.events|..], l.searchQuery, l.filterErrors);
    RebuildIsFresh(l.(events := events), answer);
  }

  lemma EnterStep(m: Model, answers: Answers)
    requires m.view == ListView && !m.searchMode && !m.writeMode
    ensures var n := Update(m, KeyPressed(Enter, ""), answers).0;
      && n.list == m.list && (n.view == InspectView <==> m.list.displayRows != [])
      && (n.view == InspectView ==> n.frame.inspectScroll == 0)
  {
  }

  lemma BackStep(m: Model, answers: Answers)
    requires m.view == InspectView
    ensures var n := Update(m, KeyPressed(Char('q'), "q"), answers).0;
      n.view == ListView && n.list == BackInList(m.list, answers.rows)
  {
  }

  /** Enter inspects the selected event. Whatever happens while the inspector stays open, the
      awaited replay apart, 'e' resends that event, and 'q' goes back to the list with it selected. */
  lemma InspectingAndBack(s: Session, enter: Answers, inputs: seq<Input>, back: Answers, resend: Answers)
    requires s.m.view == ListView && !s.m.searchMode && !s.m.writeMode && Reading(s.m.list)
    requires var inspected := Next(s, Deliver(KeyPressed(Enter, ""), enter));
      Admissible(inspected, inputs) && StaysInspecting(inspected, inputs)
    ensures var inspected := Next(s, Deliver(KeyPressed(Enter, ""), enter));
      var last := Exec(inspected, inputs);
      && inspected.m.view == InspectView && CursorEvent(inspected.m.list) == CursorEvent(s.m.list)
      && CursorEvent(s.m.list).Found? && CursorEvent(last.m.list) == CursorEvent(s.m.list)
      && Update(last.m, KeyPressed(Char('e'), "e"), resend).1
         == (if last.m.frame.connected then EditAndResend(CursorEvent(s.m.list).ev) else NoCmd)
      && var n := Update(last.m, KeyPressed(Char('q'), "q"), back).0;
         && n.view == ListView && Reading(n.list) && CursorEvent(n.list) == CursorEvent(s.m.list)
  {
    var inspected := Next(s, Deliver(KeyPressed(Enter, ""), enter));
    EnterStep(s.m, enter);
    InspectingOnlyCollects(inspected, inputs);
    var last := Exec(inspected, inputs).m;
    PrefixKeepsSelection(s.m.list, s.m.list);
    PrefixKeepsSelection(s.m.list, last.list);
    ResendStep(last, resend);
    BackStep(last, back);
    BackWhileReading(s.m.list, last.list.events, back.rows);
    PrefixKeepsSelection(s.m.list, BackInList(last.list, back.rows));
  }

  lemma ResendStep(m: Model, answers: Answers)
    requires m.view == InspectView && CursorEvent(m.list).Found?
    ensures Update(m, KeyPressed(Char('e'), "e"), answers).1
         == if m.frame.connected then EditAndResend(CursorEvent(m.list).ev) else NoCmd
  {
  }

  /** A list that follows keeps its last row selected over any arrivals but the awaited one; in
      chronological mode that is the newest event, if it is shown. */
  lemma {:induction false} FollowingStaysAtEnd(m: Model, arrivals: seq<Arrival>)
    requires m.view == ListView && m.list.follow
    requires forall i :: 0 <= i < |arrivals| ==> !Awaited(m, arrivals[i].ev)
    ensures var l := AfterArrivals(m, arrivals).list;
      && l.follow
      && (arrivals != [] ==>
            && Fresh(l) && l.cursor == LastIndex(|l.displayRows|)
            && (l.sortMode == Chronological && Matches(arrivals[|arrivals| - 1].ev, l.searchQuery, l.filterErrors) ==>
                  CursorEvent(l) == Found(arrivals[|arrivals| - 1].ev)))
    decreases |arrivals|
  {
    if arrivals != [] {
      var last := |arrivals| - 1;
      var before := AfterArrivals(m, arrivals[..last]);
      assert arrivals == arrivals[..last] + [arrivals[last]];
      FollowingStaysAtEnd(m, arrivals[..last]);
      OneMoreArrival(m, arrivals[..last], arrivals[last]);
      ArrivalsKeepView(m, arrivals[..last]);
      FollowedArrival(before.list, arrivals[last].ev, arrivals[last].answers.rows);
    }
  }

  lemma FollowedArrival(l: ListState, ev: TapEvent, answer: seq<nat>)
    requires l.follow
    ensures var n := ArrivedInList(l, ev, answer);
      && n.follow && Fresh(n) && n.cursor == LastIndex(|n.displayRows|)
      && (n.sortMode == Chronological && Matches(ev, n.searchQuery, n.filterErrors) ==> CursorEvent(n) == Found(ev))
  {
    RebuildIsFresh(l.(events := l.events + [ev]), answer);
    ArrivalExtendsRows(l.events, ev, l.searchQuery, l.filterErrors);
  }

  lemma {:induction false} OneMoreArrival(m: Model, arrivals: seq<Arrival>, a: Arrival)
    ensures AfterArrivals(m, arrivals + [a]) == Arrived(AfterArrivals(m, arrivals), a.ev, a.answers)
    decreases |arrivals|
  {
    if arrivals == [] {
      assert (arrivals + [a])[1..] == [];
    } else {
      assert (arrivals + [a])[1..] == arrivals[1..] + [a];
      OneMoreArrival(Arrived(m, arrivals[0].ev, arrivals[0].answers), arrivals[1..], a);
    }
  }

  lemma {:induction false} ArrivalsKeepView(m: Model, arrivals: seq<Arrival>)
    requires m.view == ListView && forall i :: 0 <= i < |arrivals| ==> !Awaited(m, arrivals[i].ev)
    ensures var n := AfterArrivals(m, arrivals); n.view == ListView && n.replayEventID == m.replayEventID
    decreases |arrivals|
  {
    if arrivals != [] {
      ArrivalsKeepView(Arrived(m, arrivals[0].ev, arrivals[0].answers), arrivals[1..]);
    }
  }

  // ---------------------------------------------------------------- in the list by duration

  function SlowerThan(events: seq<TapEvent>, duration: int): nat -> int {
    (i: nat) => if i < |events| && events[i].duration > duration then 1 else 0
  }

  /** How many of the rows show a call slower than the given duration. */
  function SlowerCount(events: seq<TapEvent>, rows: seq<nat>, duration: int): int {
    Sum(Mapped(SlowerThan(events, duration), rows))
  }

  ghost predicate OnlyAt(events: seq<TapEvent>, rows: seq<nat>, k: nat)
    requires InRange(rows, |events|) && k < |rows|
  {
    forall i :: 0 <= i < |rows| && i != k ==> events[rows[i]].duration != events[rows[k]].duration
  }

  /** In descending order a call that ties with no other stands below exactly the slower ones. */
  lemma PositionIsSlowerCount(events: seq<TapEvent>, rows: seq<nat>, k: nat)
    requires InRange(rows, |events|) && SlowestFirst(events, rows) && k < |rows| && OnlyAt(events, rows, k)
    ensures SlowerCount(events, rows, events[rows[k]].duration) == k
  {
    var marks := Mapped(SlowerThan(events, events[rows[k]].duration), rows);
    forall i | 0 <= i < |rows| ensures marks[i] == if i < k then 1 else 0 {
      if i != k {
        assert events[rows[i]].duration != events[rows[k]].duration;
      }
    }
    SumBounds(marks[..k], 1, 1);
    SumBounds(marks[k..], 0, 0);
    SumOfConcat(marks[..k], marks[k..]);
    assert marks == marks[..k] + marks[k..];
  }

  /** A complete list by duration shows row at place k, and no other call shown took as long. */
  ghost predicate StandsAt(l: ListState, row: nat, k: nat) {
    && l.sortMode == ByDuration && Fresh(l) && InRange(l.displayRows, |l.events|)
    && k < |l.displayRows| && l.displayRows[k] == row && OnlyAt(l.events, l.displayRows, k)
  }

  predicate Shows(l: ListState, ev: TapEvent) {
    Matches(ev, l.searchQuery, l.filterErrors)
  }

  /** ev is shown and took longer than the given duration. */
  predicate Overtakes(l: ListState, ev: TapEvent, duration: int) {
    Shows(l, ev) && ev.duration > duration
  }

  /** The rows shown, and the row of the arriving event if that is shown. */
  function WithArrival(l: ListState, ev: TapEvent): seq<nat> {
    if Shows(l, ev) then l.displayRows + [|l.events|] else l.displayRows
  }

  /** The rows after an arrival are the old ones, and the arriving row if it passes the filters. */
  lemma RowsAfterArrival(l: ListState, ev: TapEvent, answer: seq<nat>)
    requires Fresh(l)
    ensures var n := WithRows(l.(events := l.events + [ev]), answer);
      && Fresh(n) && InRange(n.displayRows, |n.events|)
      && multiset(n.displayRows) == multiset(WithArrival(l, ev))
  {
    var got := l.(events := l.events + [ev]);
    RebuildIsFresh(got, answer);
    ArrivalExtendsRows(l.events, ev, l.searchQuery, l.filterErrors);
    ListedIsSound(got.events, l.searchQuery, l.filterErrors, l.sortMode, Rebuilt(got, answer));
  }

  lemma CountAfterArrival(l: ListState, ev: TapEvent, rows: seq<nat>, duration: int)
    requires InRange(l.displayRows, |l.events|)
    requires multiset(rows) == multiset(WithArrival(l, ev))
    ensures SlowerCount(l.events + [ev], rows, duration)
         == SlowerCount(l.events, l.displayRows, duration) + if Overtakes(l, ev, duration) then 1 else 0
  {
    var slower := SlowerThan(l.events + [ev], duration);
    MappedPermutes<nat, int>(slower, rows, WithArrival(l, ev));
    SumPermutes(Mapped(slower, rows), Mapped(slower, WithArrival(l, ev)));
    assert Mapped(slower, l.displayRows) == Mapped(SlowerThan(l.events, duration), l.displayRows);
    if Shows(l, ev) {
      assert Mapped(slower, WithArrival(l, ev)) == Mapped(slower, l.displayRows) + [slower(|l.events|)];
      SumOfConcat(Mapped(slower, l.displayRows), [slower(|l.events|)]);
      SumOfOne(slower(|l.events|));
    }
  }

  lemma PlaceAfterArrival(l: ListState, ev: TapEvent, n: ListState, row: nat, k: nat) returns (place: nat)
    requires StandsAt(l, row, k) && n.events == l.events + [ev]
    requires Shows(l, ev) ==> ev.duration != l.events[row].duration
    requires InRange(n.displayRows, |n.events|)
    requires RowsListed(n)
    requires multiset(n.displayRows) == multiset(WithArrival(l, ev))
    ensures place < |n.displayRows| && n.displayRows[place] == row && OnlyAt(n.events, n.displayRows, place)
  {
    ListedIsDistinct(n.events, n.searchQuery, n.filterErrors, n.sortMode, n.displayRows);
    var all := WithArrival(l, ev);
    assert all[k] == row;
    assert row in multiset(all);
    place :| 0 <= place < |n.displayRows| && n.displayRows[place] == row;
    forall i | 0 <= i < |n.displayRows| && i != place
      ensures n.events[n.displayRows[i]].duration != n.events[row].duration
    {
      assert n.displayRows[i] in multiset(n.displayRows);
      var j :| 0 <= j < |all| && all[j] == n.displayRows[i];
      assert j != k;
    }
  }

  /** Each arrival that is shown and slower moves the call one place down; no other moves it. */
  lemma ArrivalMovesDown(l: ListState, ev: TapEvent, answer: seq<nat>, row: nat, k: nat, place: nat)
    requires StandsAt(l, row, k) && !l.follow
    requires Shows(l, ev) ==> ev.duration != l.events[row].duration
    requires place == if Overtakes(l, ev, l.events[row].duration) then k + 1 else k
    ensures StandsAt(ArrivedInList(l, ev, answer), row, place)
  {
    var n := ArrivedInList(l, ev, answer);
    RowsAfterArrival(l, ev, answer);
    var p := PlaceAfterArrival(l, ev, n, row, k);
    PlacesDiffer(l, ev, n.displayRows, k, p);
  }

  lemma PlacesDiffer(l: ListState, ev: TapEvent, rows: seq<nat>, k: nat, place: nat)
    requires InRange(l.displayRows, |l.events|) && k < |l.displayRows|
    requires SlowestFirst(l.events, l.displayRows) && OnlyAt(l.events, l.displayRows, k)
    requires InRange(rows, |l.events + [ev]|) && place < |rows| && rows[place] == l.displayRows[k]
    requires SlowestFirst(l.events + [ev], rows) && OnlyAt(l.events + [ev], rows, place)
    requires multiset(rows) == multiset(WithArrival(l, ev))
    ensures place == k + if Overtakes(l, ev, l.events[l.displayRows[k]].duration) then 1 else 0
  {
    PositionIsSlowerCount(l.events, l.displayRows, k);
    PositionIsSlowerCount(l.events + [ev], rows, place);
    CountAfterArrival(l, ev, rows, l.events[l.displayRows[k]].duration);
  }

  /** How many of the arrivals are shown and slower. */
  function Overtaking(query: string, errorsOnly: bool, arrivals: seq<Arrival>, duration: int): nat {
    if arrivals == [] then 0
    else
      var ev := arrivals[0].ev;
      (if Matches(ev, query, errorsOnly) && ev.duration > duration then 1 else 0)
      + Overtaking(query, errorsOnly, arrivals[1..], duration)
  }

  /** None of the arrivals that are shown took as long as the given call. */
  predicate NoTies(query: string, errorsOnly: bool, arrivals: seq<Arrival>, duration: int) {
    forall i :: 0 <= i < |arrivals| && Matches(arrivals[i].ev, query, errorsOnly) ==>
      arrivals[i].ev.duration != duration
  }

  /** AfterArrivals, as far as the list goes. */
  function ListAfter(l: ListState, arrivals: seq<Arrival>): ListState
    decreases |arrivals|
  {
    if arrivals == [] then l
    else ListAfter(ArrivedInList(l, arrivals[0].ev, arrivals[0].answers.rows), arrivals[1..])
  }

  lemma {:induction false} ArrivalsReachList(m: Model, arrivals: seq<Arrival>)
    requires m.view == ListView && forall i :: 0 <= i < |arrivals| ==> !Awaited(m, arrivals[i].ev)
    ensures AfterArrivals(m, arrivals).list == ListAfter(m.list, arrivals)
    decreases |arrivals|
  {
    if arrivals != [] {
      ArrivalsReachList(Arrived(m, arrivals[0].ev, arrivals[0].answers), arrivals[1..]);
    }
  }

  lemma {:induction false} ArrivalsMoveDown(l: ListState, arrivals: seq<Arrival>, row: nat, k: nat, d: int, place: nat)
    requires StandsAt(l, row, k) && !l.follow && d == l.events[row].duration
    requires NoTies(l.searchQuery, l.filterErrors, arrivals, d)
    requires place == k + Overtaking(l.searchQuery, l.filterErrors, arrivals, d)
    ensures StandsAt(ListAfter(l, arrivals), row, place)
    decreases |arrivals|
  {
    if arrivals != [] {
      var ev, answer := arrivals[0].ev, arrivals[0].answers.rows;
      var next := if Overtakes(l, ev, d) then k + 1 else k;
      ArrivalMovesDown(l, ev, answer, row, k, next);
      ArrivalsMoveDown(ArrivedInList(l, ev, answer), arrivals[1..], row, next, d, place);
    }
  }

  lemma {:induction false} ArrivalsLeave(l: ListState, arrivals: seq<Arrival>)
    requires !l.follow
    ensures var n := ListAfter(l, arrivals); n.cursor == l.cursor && l.events <= n.events
    decreases |arrivals|
  {
    if arrivals != [] {
      ArrivalsLeave(ArrivedInList(l, arrivals[0].ev, arrivals[0].answers.rows), arrivals[1..]);
    }
  }

  lemma {:induction false} NoneOvertakes(query: string, errorsOnly: bool, arrivals: seq<Arrival>, duration: int)
    ensures Overtaking(query, errorsOnly, arrivals, duration) == 0
      <==> forall i :: 0 <= i < |arrivals| ==>
             !(Matches(arrivals[i].ev, query, errorsOnly) && arrivals[i].ev.duration > duration)
  {
    if arrivals != [] {
      NoneOvertakes(query, errorsOnly, arrivals[1..], duration);
      assert arrivals == [arrivals[0]] + arrivals[1..];
    }
  }

  lemma SelectedIffUnmoved(l: ListState, n: ListState, row: nat, place: nat)
    requires StandsAt(n, row, place) && row < |l.events| && l.events <= n.events && place >= n.cursor >= 0
    ensures CursorEvent(n) == Found(l.events[row]) <==> place == n.cursor
  {
  }

  /** In a complete list by duration the selection survives any arrivals exactly when none of
      them is shown and slower, as long as no call shown takes as long as the selected one. */
  lemma SelectionByDuration(m: Model, arrivals: seq<Arrival>)
    requires m.view == ListView && !m.list.follow && 0 <= m.list.cursor < |m.list.displayRows|
    requires StandsAt(m.list, m.list.displayRows[m.list.cursor], m.list.cursor)
    requires forall i :: 0 <= i < |arrivals| ==> !Awaited(m, arrivals[i].ev)
    requires var d := m.list.events[m.list.displayRows[m.list.cursor]].duration;
      NoTies(m.list.searchQuery, m.list.filterErrors, arrivals, d)
    ensures CursorEvent(AfterArrivals(m, arrivals).list) == CursorEvent(m.list)
      <==> forall i :: 0 <= i < |arrivals| ==>
             !(Matches(arrivals[i].ev, m.list.searchQuery, m.list.filterErrors)
               && arrivals[i].ev.duration > m.list.events[m.list.displayRows[m.list.cursor]].duration)
  {
    var l := m.list;
    var row := l.displayRows[l.cursor];
    var d := l.events[row].duration;
    var place := l.cursor + Overtaking(l.searchQuery, l.filterErrors, arrivals, d);
    ArrivalsReachList(m, arrivals);
    ArrivalsMoveDown(l, arrivals, row, l.cursor, d, place);
    ArrivalsLeave(l, arrivals);
    NoneOvertakes(l.searchQuery, l.filterErrors, arrivals, d);
    SelectedIffUnmoved(l, ListAfter(l, arrivals), row, place);
  }

  /** Another call shown, or ev if it is shown, took as long as the selected one. */
  predicate SelectionTies(l: ListState, ev: TapEvent)
    requires InRange(l.displayRows, |l.events|) && 0 <= l.cursor < |l.displayRows|
  {
    var d := l.events[l.displayRows[l.cursor]].duration;
    || (Shows(l, ev) && ev.duration == d)
    || exists i :: 0 <= i < |l.displayRows| && i != l.cursor && l.events[l.displayRows[i]].duration == d
  }

  function SelectedRow(l: ListState): Option<nat> {
    if 0 <= l.cursor < |l.displayRows| then Some(l.displayRows[l.cursor]) else None
  }

  /** With ties included: the selection is safe from an arrival, however the sort arranges equal
      durations, exactly when the arrival does not overtake it and nothing shown ties with it. */
  lemma SelectionSurvivesEverySort(l: ListState, ev: TapEvent)
    requires l.sortMode == ByDuration && Fresh(l) && !l.follow && 0 <= l.cursor < |l.displayRows|
    ensures InRange(l.displayRows, |l.events|)
    ensures (forall answer :: SelectedRow(ArrivedInList(l, ev, answer)) == SelectedRow(l))
      <==> !Overtakes(l, ev, l.events[l.displayRows[l.cursor]].duration) && !SelectionTies(l, ev)
  {
    ListedIsSound(l.events, l.searchQuery, l.filterErrors, l.sortMode, l.displayRows);
    if SelectionTies(l, ev) {
      var answer := UnluckyAnswer(l, ev);
      assert SelectedRow(ArrivedInList(l, ev, answer)) != SelectedRow(l);
    } else {
      forall answer
        ensures SelectedRow(ArrivedInList(l, ev, answer)) == SelectedRow(l)
          <==> !Overtakes(l, ev, l.events[l.displayRows[l.cursor]].duration)
      {
        UntiedSelection(l, ev, answer);
      }
      assert SelectedRow(ArrivedInList(l, ev, [])) == SelectedRow(l)
        <==> !Overtakes(l, ev, l.events[l.displayRows[l.cursor]].duration);
    }
  }

  lemma UntiedSelection(l: ListState, ev: TapEvent, answer: seq<nat>)
    requires l.sortMode == ByDuration && Fresh(l) && !l.follow && 0 <= l.cursor < |l.displayRows|
    requires InRange(l.displayRows, |l.events|) && !SelectionTies(l, ev)
    ensures SelectedRow(ArrivedInList(l, ev, answer)) == SelectedRow(l)
      <==> !Overtakes(l, ev, l.events[l.displayRows[l.cursor]].duration)
  {
    var row := l.displayRows[l.cursor];
    var d := l.events[row].duration;
    var place := if Overtakes(l, ev, d) then l.cursor + 1 else l.cursor;
    ArrivalMovesDown(l, ev, answer, row, l.cursor, place);
    SelectedIffUnmoved(l, ArrivedInList(l, ev, answer), row, place);
  }

  /** Two rows that tie may change places. */
  lemma SwappedRows(events: seq<TapEvent>, rows: seq<nat>, a: nat, b: nat) returns (swapped: seq<nat>)
    requires InRange(rows, |events|) && Descending(rows, DurationKey(events)) && a < |rows| && b < |rows|
    requires events[rows[a]].duration == events[rows[b]].duration
    ensures multiset(swapped) == multiset(rows) && Descending(swapped, DurationKey(events))
    ensures |swapped| == |rows| && swapped[a] == rows[b]
  {
    swapped := rows[a := rows[b]][b := rows[a]];
    forall i | 0 <= i < |rows| ensures DurationKey(events)(swapped[i]) == DurationKey(events)(rows[i]) {
    }
    forall i, j | 0 <= i < j < |rows|
      ensures DurationKey(events)(swapped[i]) >= DurationKey(events)(swapped[j])
    {
      assert DurationKey(events)(rows[i]) >= DurationKey(events)(rows[j]);
    }
  }

  /** A row that ties with the selected one, among the rows after the arrival. */
  lemma TiedRow(l: ListState, ev: TapEvent, rows: seq<nat>) returns (q: nat)
    requires InRange(l.displayRows, |l.events|) && 0 <= l.cursor < |l.displayRows| && SelectionTies(l, ev)
    requires RowsListed(l)
    requires multiset(rows) == multiset(WithArrival(l, ev))
    ensures q < |rows| && rows[q] <= |l.events| && rows[q] != l.displayRows[l.cursor]
    ensures (l.events + [ev])[rows[q]].duration == l.events[l.displayRows[l.cursor]].duration
  {
    ListedIsDistinct(l.events, l.searchQuery, l.filterErrors, l.sortMode, l.displayRows);
    var d := l.events[l.displayRows[l.cursor]].duration;
    var all := WithArrival(l, ev);
    var i: nat;
    if Shows(l, ev) && ev.duration == d {
      i := |l.displayRows|;
    } else {
      i :| 0 <= i < |l.displayRows| && i != l.cursor && l.events[l.displayRows[i]].duration == d;
    }
    assert all[i] in multiset(all);
    q :| 0 <= q < |rows| && rows[q] == all[i];
  }

  lemma SwapIsAnswer(l: ListState, a: nat, b: nat) returns (answer: seq<nat>)
    requires l.sortMode == ByDuration && InRange(Rebuilt(l, []), |l.events|)
    requires a < |Rebuilt(l, [])| && b < |Rebuilt(l, [])|
    requires l.events[Rebuilt(l, [])[a]].duration == l.events[Rebuilt(l, [])[b]].duration
    ensures |Rebuilt(l, answer)| == |Rebuilt(l, [])| && Rebuilt(l, answer)[a] == Rebuilt(l, [])[b]
  {
    SortedSorts(FilteredRows(l.events, l.searchQuery, l.filterErrors), DurationKey(l.events), []);
    answer := SwappedRows(l.events, Rebuilt(l, []), a, b);
  }

  lemma TiedPlace(l: ListState, ev: TapEvent) returns (q: nat)
    requires Fresh(l) && InRange(l.displayRows, |l.events|) && 0 <= l.cursor < |l.displayRows| && SelectionTies(l, ev)
    ensures var got := l.(events := l.events + [ev]);
      && InRange(Rebuilt(got, []), |got.events|) && q < |Rebuilt(got, [])|
      && Rebuilt(got, [])[q] != l.displayRows[l.cursor]
      && got.events[Rebuilt(got, [])[q]].duration == got.events[l.displayRows[l.cursor]].duration
  {
    RowsAfterArrival(l, ev, []);
    q := TiedRow(l, ev, Rebuilt(l.(events := l.events + [ev]), []));
  }

  lemma UnluckyAnswer(l: ListState, ev: TapEvent) returns (answer: seq<nat>)
    requires l.sortMode == ByDuration && Fresh(l) && !l.follow && 0 <= l.cursor < |l.displayRows|
    requires InRange(l.displayRows, |l.events|) && SelectionTies(l, ev)
    ensures SelectedRow(ArrivedInList(l, ev, answer)) != SelectedRow(l)
  {
    answer := [];
    var got := l.(events := l.events + [ev]);
    if SelectedRow(WithRows(got, [])) == SelectedRow(l) {
      var q := TiedPlace(l, ev);
      answer := SwapIsAnswer(got, l.cursor, q);
    }
  }

  /** The smallest case in which it does not: one row, and a slower call arriving. */
  lemma SlowerArrivalTakesSelection(m: Model, fast: TapEvent, slow: TapEvent, answers: Answers)
    requires fast.duration < slow.duration && slow.id != m.replayEventID && m.view == ListView
    requires m.list == ListState([fast], 0, false, "", ByDuration, false, [0])
    ensures Fresh(m.list) && CursorEvent(m.list) == Found(fast)
    ensures CursorEvent(Arrived(m, slow, answers).list) == Found(slow)
  {
    var n := Arrived(m, slow, answers).list;
    EmptyQueryMatches(fast);
    EmptyQueryMatches(slow);
    assert [fast][..0] == [];
    assert FilteredRows([fast], "", false) == [0];
    ArrivalExtendsRows([fast], slow, "", false);
    RebuildIsFresh(m.list.(events := [fast] + [slow]), answers.rows);
    assert multiset(n.displayRows) == multiset{0, 1};
    assert |n.displayRows| == 2;
    assert n.displayRows[0] in multiset(n.displayRows) && n.displayRows[1] in multiset(n.displayRows);
    assert n.displayRows == [n.displayRows[0], n.displayRows[1]];
  }
}
