/** Which rows the analytics view shows, in which order, and how its keys move through them. */
module TuiAnalytics {
  import opened Events
  import opened Permutations
  import opened Sorting
  import opened Aggregation
  import opened Tui
  import opened TuiInvariants
  import opened TuiRuns
  import opened TuiKeys

  // ---------------------------------------------------------------- rows and order

  /** a may stand above b: the larger figure first, error rates being compared as fractions. */
  predicate NotBelow(mode: AnalyticsSort, a: AnalyticsRow, b: AnalyticsRow) {
    match mode
    case TotalDuration => a.totalDuration >= b.totalDuration
    case Count => a.count >= b.count
    case AvgDuration => a.avgDuration >= b.avgDuration
    case ErrorRate => a.errors * b.count >= b.errors * a.count
  }

  ghost predicate InOrder(mode: AnalyticsSort, rows: seq<AnalyticsRow>) {
    forall i, j :: 0 <= i < j < |rows| ==> NotBelow(mode, rows[i], rows[j])
  }

  /** One row for every endpoint of the events, in the order of the sort mode. */
  ghost predicate ShowsEndpoints(s: AnalyticsState, events: seq<TapEvent>) {
    multiset(s.rows) == multiset(AnalyticsRows(Keyed(Samples(events)))) && InOrder(s.sort, s.rows)
  }

  /** The same for the first n of the events. */
  ghost predicate ShowsFirst(s: AnalyticsState, events: seq<TapEvent>, n: nat) {
    n <= |events| && ShowsEndpoints(s, events[..n])
  }

  /** The rows are those of the events held at some time, later arrivals not being counted yet. */
  ghost predicate AnalyticsSound(m: Model) {
    exists n :: ShowsFirst(m.analytics, m.list.events, n)
  }

  ghost predicate Counted(rows: seq<AnalyticsRow>) {
    forall i :: 0 <= i < |rows| ==> rows[i].count > 0
  }

  lemma RowIsCounted(samples: seq<Sample>, row: AnalyticsRow)
    requires row in AnalyticsRows(samples)
    ensures row.count > 0
  {
    var i :| 0 <= i < |AnalyticsRows(samples)| && AnalyticsRows(samples)[i] == row;
    assert Keys(samples)[i] in Keys(samples);
    KeyIsUsed(samples, Keys(samples)[i]);
  }

  lemma RowsAreCounted(samples: seq<Sample>, rows: seq<AnalyticsRow>)
    requires multiset(rows) == multiset(AnalyticsRows(samples))
    ensures Counted(rows)
  {
    forall i | 0 <= i < |rows| ensures rows[i].count > 0 {
      assert rows[i] in multiset(rows);
      RowIsCounted(samples, rows[i]);
    }
  }

  lemma ProductOrder(x: real, y: real, n: real)
    requires n > 0.0 && x >= y
    ensures x * n >= y * n
  {
  }

  lemma RatesCompare(a: AnalyticsRow, b: AnalyticsRow)
    requires a.count > 0 && b.count > 0 && Rate(a) >= Rate(b)
    ensures a.errors * b.count >= b.errors * a.count
  {
    var p, q := a.errors as real / a.count as real, b.errors as real / b.count as real;
    assert p >= q;
    var n, k := a.count as real, b.count as real;
    assert p * n == a.errors as real && q * k == b.errors as real;
    ProductOrder(p, q, n);
    ProductOrder(p * n, q * n, k);
    assert (p * n) * k == a.errors as real * k;
    assert (q * n) * k == (q * k) * n == b.errors as real * n;
    assert (a.errors * b.count) as real == a.errors as real * k;
    assert (b.errors * a.count) as real == b.errors as real * n;
  }

  lemma KeysCompare(mode: AnalyticsSort, a: AnalyticsRow, b: AnalyticsRow)
    requires a.count > 0 && b.count > 0 && SortKey(mode)(a) >= SortKey(mode)(b)
    ensures NotBelow(mode, a, b)
  {
    match mode
    case ErrorRate => RatesCompare(a, b);
    case _ =>
  }

  lemma SortedIsInOrder(rows: seq<AnalyticsRow>, mode: AnalyticsSort, answer: seq<AnalyticsRow>)
    requires Counted(rows)
    ensures var sorted := Sorted(rows, SortKey(mode), answer);
      InOrder(mode, sorted) && multiset(sorted) == multiset(rows)
  {
    var sorted := Sorted(rows, SortKey(mode), answer);
    SortedSorts(rows, SortKey(mode), answer);
    forall i, j | 0 <= i < j < |sorted| ensures NotBelow(mode, sorted[i], sorted[j]) {
      CountedMember(rows, sorted, i);
      CountedMember(rows, sorted, j);
      assert SortKey(mode)(sorted[i]) >= SortKey(mode)(sorted[j]);
      KeysCompare(mode, sorted[i], sorted[j]);
    }
  }

  lemma CountedMember(rows: seq<AnalyticsRow>, sorted: seq<AnalyticsRow>, i: nat)
    requires Counted(rows) && multiset(sorted) == multiset(rows) && i < |sorted|
    ensures sorted[i].count > 0
  {
    assert sorted[i] in multiset(sorted);
    assert sorted[i] in rows;
  }

  lemma BuiltShows(events: seq<TapEvent>, sort: AnalyticsSort, answer: seq<AnalyticsRow>)
    ensures ShowsEndpoints(BuiltAnalytics(events, sort, answer), events)
  {
    var rows := AnalyticsRows(Keyed(Samples(events)));
    RowsAreCounted(Keyed(Samples(events)), rows);
    SortedIsInOrder(rows, sort, answer);
  }

  lemma ResortedShows(s: AnalyticsState, events: seq<TapEvent>, answer: seq<AnalyticsRow>)
    requires ShowsEndpoints(s, events)
    ensures ShowsEndpoints(Resorted(s, answer), events)
  {
    RowsAreCounted(Keyed(Samples(events)), s.rows);
    SortedIsInOrder(s.rows, NextSort(s.sort), answer);
  }

  // ---------------------------------------------------------------- over runs

  /** What a message may do to the analytics and the events. */
  ghost predicate AnalyticsMove(m: Model, n: Model, answers: Answers) {
    m.list.events <= n.list.events
    && (SameAnalytics(m.analytics, n.analytics)
        || n.analytics == Resorted(m.analytics, answers.analytics)
        || (n.analytics == BuiltAnalytics(m.list.events, m.analytics.sort, answers.analytics)
            && n.list.events == m.list.events))
  }

  predicate SameAnalytics(s: AnalyticsState, t: AnalyticsState) {
    t.rows == s.rows && t.sort == s.sort
  }

  lemma ListKeyMovesAnalytics(m: Model, key: Key, answers: Answers)
    ensures var n := UpdateList(m, key, answers).0;
      && n.list.events == m.list.events
      && n.analytics == (if key == Char('a') then BuiltAnalytics(m.list.events, m.analytics.sort, answers.analytics)
                         else m.analytics)
  {
    match key
    case Char(c) => ListLetterMovesAnalytics(m, c, answers);
    case _ =>
  }

  lemma ListLetterMovesAnalytics(m: Model, c: char, answers: Answers)
    ensures var n := UpdateListLetter(m, c, answers).0;
      && n.list.events == m.list.events
      && n.analytics == (if c == 'a' then BuiltAnalytics(m.list.events, m.analytics.sort, answers.analytics)
                         else m.analytics)
  {
    if c == 'a' {
      assert UpdateListLetter(m, c, answers).0 == OpenAnalytics(m, answers);
    } else {
      OtherLettersLeaveAnalytics(m, c, answers);
    }
  }

  lemma OtherLettersLeaveAnalytics(m: Model, c: char, answers: Answers)
    requires c != 'a'
    ensures var n := UpdateListLetter(m, c, answers).0;
      n.list.events == m.list.events && n.analytics == m.analytics
  {
  }

  lemma SearchKeyMovesAnalytics(m: Model, key: Key, runes: string, answers: Answers)
    ensures var n := UpdateSearch(m, key, runes, answers).0;
      n.list.events == m.list.events && n.analytics == m.analytics
  {
  }

  lemma InspectKeyMovesAnalytics(m: Model, key: Key, answers: Answers)
    ensures var n := UpdateInspect(m, key, answers).0;
      n.list.events == m.list.events && n.analytics == m.analytics
  {
  }

  lemma ViewKeyMovesAnalytics(m: Model, key: Key, answers: Answers)
    ensures var n := UpdateAnalytics(m, key, answers).0;
      && n.list.events == m.list.events
      && (SameAnalytics(m.analytics, n.analytics) || n.analytics == Resorted(m.analytics, answers.analytics))
  {
  }

  lemma KeyMovesAnalytics(m: Model, key: Key, runes: string, answers: Answers)
    ensures AnalyticsMove(m, UpdateKey(m, key, runes, answers).0, answers)
  {
    match m.view
    case AnalyticsView => ViewKeyMovesAnalytics(m, key, answers);
    case InspectView => InspectKeyMovesAnalytics(m, key, answers);
    case ListView =>
      ListKeyMovesAnalytics(m, key, answers);
      SearchKeyMovesAnalytics(m, key, runes, answers);
  }

  lemma QuietedMoves(m: Model, n: Model, answers: Answers)
    requires AnalyticsMove(Quieted(m), n, answers)
    ensures AnalyticsMove(m, n, answers)
  {
    assert Quieted(m).analytics == m.analytics && Quieted(m).list == m.list;
  }

  lemma ArrivalMovesAnalytics(m: Model, ev: TapEvent, answers: Answers)
    ensures AnalyticsMove(m, Arrived(m, ev, answers), answers)
  {
    var n := Arrived(m, ev, answers);
    assert n.analytics == m.analytics && n.list.events == m.list.events + [ev];
  }

  lemma OtherMessagesMoveAnalytics(m: Model, msg: Msg, answers: Answers)
    requires !msg.EventArrived? && !msg.KeyPressed?
    ensures AnalyticsMove(m, Update(m, msg, answers).0, answers)
  {
    QuietMessageKeepsLists(m, msg, answers);
  }

  lemma MessageMovesAnalytics(m: Model, msg: Msg, answers: Answers)
    ensures AnalyticsMove(m, Update(m, msg, answers).0, answers)
  {
    match msg
    case EventArrived(ev) => ArrivalMovesAnalytics(m, ev, answers);
    case KeyPressed(key, runes) =>
      KeyMovesAnalytics(Quieted(m), key, runes, answers);
      QuietedMoves(m, UpdateKey(Quieted(m), key, runes, answers).0, answers);
    case _ => OtherMessagesMoveAnalytics(m, msg, answers);
  }

  lemma MoreEventsShowFirst(s: AnalyticsState, events: seq<TapEvent>, more: seq<TapEvent>, n: nat)
    requires ShowsFirst(s, events, n) && events <= more
    ensures ShowsFirst(s, more, n)
  {
    assert more[..n] == events[..n];
  }

  lemma BuiltShowsFirst(events: seq<TapEvent>, sort: AnalyticsSort, answer: seq<AnalyticsRow>)
    ensures ShowsFirst(BuiltAnalytics(events, sort, answer), events, |events|)
  {
    BuiltShows(events, sort, answer);
    assert events[..|events|] == events;
  }

  lemma ResortedShowsFirst(s: AnalyticsState, events: seq<TapEvent>, n: nat, answer: seq<AnalyticsRow>)
    requires ShowsFirst(s, events, n)
    ensures ShowsFirst(Resorted(s, answer), events, n)
  {
    ResortedShows(s, events[..n], answer);
  }

  lemma {:induction false} RunKeepsAnalytics(s: Session, inputs: seq<Input>, k: nat)
    requires ShowsFirst(s.m.analytics, s.m.list.events, k) && Admissible(s, inputs)
    ensures AnalyticsSound(Exec(s, inputs).m)
    decreases |inputs|
  {
    if inputs != [] {
      var m, n, answers := s.m, Next(s, inputs[0]).m, AnswersOf(inputs[0]);
      NextModel(s, inputs[0]);
      MessageMovesAnalytics(m, MsgOf(inputs[0]), answers);
      if SameAnalytics(m.analytics, n.analytics) {
        MoreEventsShowFirst(m.analytics, m.list.events, n.list.events, k);
        RunKeepsAnalytics(Next(s, inputs[0]), inputs[1..], k);
      } else if n.analytics == Resorted(m.analytics, answers.analytics) {
        ResortedShowsFirst(m.analytics, m.list.events, k, answers.analytics);
        MoreEventsShowFirst(n.analytics, m.list.events, n.list.events, k);
        RunKeepsAnalytics(Next(s, inputs[0]), inputs[1..], k);
      } else {
        BuiltShowsFirst(m.list.events, m.analytics.sort, answers.analytics);
        RunKeepsAnalytics(Next(s, inputs[0]), inputs[1..], |m.list.events|);
      }
    }
  }

  /** In every reachable state the analytics rows are, each once, those of the endpoints of the
      events held at some time, in the order of the current sort mode. */
  lemma AnalyticsAlwaysSound(inputs: seq<Input>)
    requires Admissible(Start(), inputs)
    ensures AnalyticsSound(Exec(Start(), inputs).m)
  {
    var none: seq<TapEvent> := [];
    assert New().list.events[..0] == none;
    assert Samples(none) == [];
    assert AnalyticsRows(Keyed(Samples(none))) == [];
    assert ShowsFirst(New().analytics, New().list.events, 0);
    RunKeepsAnalytics(Start(), inputs, 0);
  }

  /** 'a' shows the endpoints of all the events there are, with the cursor on the first. */
  lemma OpeningShowsAll(m: Model, p: Press)
    requires InList(m) && p.key == Char('a')
    ensures var n := AfterKey(m, p);
      && n.view == AnalyticsView && n.list == m.list
      && ShowsEndpoints(n.analytics, m.list.events)
      && n.analytics.cursor == 0 && n.analytics.sort == m.analytics.sort
  {
    OpenStep(m, p);
    BuiltShows(m.list.events, m.analytics.sort, p.answers.analytics);
  }

  lemma OpenStep(m: Model, p: Press)
    requires InList(m) && p.key == Char('a')
    ensures AfterKey(m, p) == OpenAnalytics(Quieted(m), p.answers)
  {
  }

  // ---------------------------------------------------------------- its keys

  function SortedTimes(mode: AnalyticsSort, n: nat): AnalyticsSort {
    if n == 0 then mode else NextSort(SortedTimes(mode, n - 1))
  }

  /** 's' goes through all four orders and comes back after the fourth. */
  lemma SortKeyCycles(mode: AnalyticsSort, other: AnalyticsSort)
    ensures SortedTimes(mode, 4) == mode
    ensures exists n :: 0 <= n < 4 && SortedTimes(mode, n) == other
  {
    assert SortedTimes(mode, 1) == NextSort(mode);
    assert SortedTimes(mode, 2) == NextSort(NextSort(mode));
    assert SortedTimes(mode, 3) == NextSort(NextSort(NextSort(mode)));
    assert SortedTimes(mode, 0) == mode;
  }

  /** 's' puts the same endpoints in the next order, with the cursor on the first. */
  lemma SortKeyResorts(m: Model, p: Press, events: seq<TapEvent>)
    requires m.view == AnalyticsView && p.key == Char('s') && ShowsEndpoints(m.analytics, events)
    ensures var n := AfterKey(m, p);
      && n.view == AnalyticsView && n.list == m.list && ShowsEndpoints(n.analytics, events)
      && n.analytics.sort == NextSort(m.analytics.sort) && n.analytics.cursor == 0
  {
    SortStep(m, p);
    ResortedShows(m.analytics, events, p.answers.analytics);
  }

  lemma SortStep(m: Model, p: Press)
    requires m.view == AnalyticsView && p.key == Char('s')
    ensures AfterKey(m, p) == Quieted(m).(analytics := Resorted(m.analytics, p.answers.analytics))
  {
    AnalyticsStep(m, p);
  }

  function AnalyticsMoved(m: Model, keys: seq<Press>, cursor: int): Model {
    if keys == [] then m else Quieted(m).(analytics := m.analytics.(cursor := cursor))
  }

  lemma AnalyticsStep(m: Model, p: Press)
    requires m.view == AnalyticsView && p.key != CtrlC && p.key != Char('q')
    ensures AfterKey(m, p) == Quieted(m).(
      analytics := AnalyticsKey(m.analytics, p.key, AnalyticsVisibleRows(m.frame.height) / 2, p.answers))
  {
  }

  lemma {:induction false} AnalyticsDownRun(m: Model, keys: seq<Press>)
    requires m.view == AnalyticsView && AnalyticsInv(m.analytics) && forall i :: 0 <= i < |keys| ==> IsDown(keys[i])
    ensures AfterKeys(m, keys)
         == AnalyticsMoved(m, keys, Min(m.analytics.cursor + |keys|, LastIndex(|m.analytics.rows|)))
    decreases |keys|
  {
    if keys != [] {
      AnalyticsStep(m, keys[0]);
      AnalyticsDownRun(AfterKey(m, keys[0]), keys[1..]);
    }
  }

  lemma {:induction false} AnalyticsUpRun(m: Model, keys: seq<Press>)
    requires m.view == AnalyticsView && AnalyticsInv(m.analytics) && forall i :: 0 <= i < |keys| ==> IsUp(keys[i])
    ensures AfterKeys(m, keys) == AnalyticsMoved(m, keys, Max(m.analytics.cursor - |keys|, 0))
    decreases |keys|
  {
    if keys != [] {
      AnalyticsStep(m, keys[0]);
      AnalyticsUpRun(AfterKey(m, keys[0]), keys[1..]);
    }
  }

  /** Half of the visible rows, what the page keys are worth here. */
  function HalfAnalytics(m: Model): int {
    AnalyticsVisibleRows(m.frame.height) / 2
  }

  function RowsDown(s: AnalyticsState, half: int): AnalyticsState {
    s.(cursor := Min(s.cursor + half, LastIndex(|s.rows|)))
  }

  function RowsUp(s: AnalyticsState, half: int): AnalyticsState {
    s.(cursor := Max(s.cursor - half, 0))
  }

  function RowsPagedDown(s: AnalyticsState, half: int, n: nat): AnalyticsState
    decreases n
  {
    if n == 0 then s else RowsPagedDown(RowsDown(s, half), half, n - 1)
  }

  function RowsPagedUp(s: AnalyticsState, half: int, n: nat): AnalyticsState
    decreases n
  {
    if n == 0 then s else RowsPagedUp(RowsUp(s, half), half, n - 1)
  }

  lemma {:induction false} RowsPagedDownTo(s: AnalyticsState, half: int, n: nat)
    requires half > 0 && AnalyticsInv(s)
    ensures RowsPagedDown(s, half, n) == s.(cursor := Min(s.cursor + n * half, LastIndex(|s.rows|)))
    decreases n
  {
    if n > 0 {
      OneMorePage(half, n);
      RowsPagedDownTo(RowsDown(s, half), half, n - 1);
      assert (n - 1) * half >= 0;
    }
  }

  lemma {:induction false} RowsPagedUpTo(s: AnalyticsState, half: int, n: nat)
    requires half > 0 && AnalyticsInv(s)
    ensures RowsPagedUp(s, half, n) == s.(cursor := Max(s.cursor - n * half, 0))
    decreases n
  {
    if n > 0 {
      OneMorePage(half, n);
      RowsPagedUpTo(RowsUp(s, half), half, n - 1);
      assert (n - 1) * half >= 0;
    }
  }

  /** The model after some keys that touch only the analytics. */
  function Rerowed(m: Model, keys: seq<Press>, s: AnalyticsState): Model {
    if keys == [] then m else Quieted(m).(analytics := s)
  }

  lemma AnalyticsPageStep(m: Model, p: Press)
    requires m.view == AnalyticsView
    ensures IsPageDown(p) ==> AfterKey(m, p) == Quieted(m).(analytics := RowsDown(m.analytics, HalfAnalytics(m)))
    ensures IsPageUp(p) ==> AfterKey(m, p) == Quieted(m).(analytics := RowsUp(m.analytics, HalfAnalytics(m)))
  {
    if IsPageDown(p) || IsPageUp(p) {
      AnalyticsStep(m, p);
    }
  }

  lemma {:induction false} PageDownReachesRows(m: Model, keys: seq<Press>)
    requires m.view == AnalyticsView && forall i :: 0 <= i < |keys| ==> IsPageDown(keys[i])
    ensures AfterKeys(m, keys) == Rerowed(m, keys, RowsPagedDown(m.analytics, HalfAnalytics(m), |keys|))
    decreases |keys|
  {
    if keys != [] {
      AnalyticsPageStep(m, keys[0]);
      var n := Quieted(m).(analytics := RowsDown(m.analytics, HalfAnalytics(m)));
      assert AfterKeys(m, keys) == AfterKeys(n, keys[1..]);
      PageDownReachesRows(n, keys[1..]);
    }
  }

  lemma {:induction false} PageUpReachesRows(m: Model, keys: seq<Press>)
    requires m.view == AnalyticsView && forall i :: 0 <= i < |keys| ==> IsPageUp(keys[i])
    ensures AfterKeys(m, keys) == Rerowed(m, keys, RowsPagedUp(m.analytics, HalfAnalytics(m), |keys|))
    decreases |keys|
  {
    if keys != [] {
      AnalyticsPageStep(m, keys[0]);
      var n := Quieted(m).(analytics := RowsUp(m.analytics, HalfAnalytics(m)));
      assert AfterKeys(m, keys) == AfterKeys(n, keys[1..]);
      PageUpReachesRows(n, keys[1..]);
    }
  }

  /** Page keys move by half the visible rows each, as far as the rows go. */
  lemma AnalyticsPageRun(m: Model, keys: seq<Press>)
    requires m.view == AnalyticsView && AnalyticsInv(m.analytics)
    ensures var c, half, last := m.analytics.cursor, HalfAnalytics(m), LastIndex(|m.analytics.rows|);
      && ((forall i :: 0 <= i < |keys| ==> IsPageDown(keys[i])) ==>
            AfterKeys(m, keys) == AnalyticsMoved(m, keys, Min(c + |keys| * half, last)))
      && ((forall i :: 0 <= i < |keys| ==> IsPageUp(keys[i])) ==>
            AfterKeys(m, keys) == AnalyticsMoved(m, keys, Max(c - |keys| * half, 0)))
  {
    if forall i :: 0 <= i < |keys| ==> IsPageDown(keys[i]) {
      PageDownReachesRows(m, keys);
      RowsPagedDownTo(m.analytics, HalfAnalytics(m), |keys|);
    }
    if forall i :: 0 <= i < |keys| ==> IsPageUp(keys[i]) {
      PageUpReachesRows(m, keys);
      RowsPagedUpTo(m.analytics, HalfAnalytics(m), |keys|);
    }
  }
}
