/** What every message keeps of the TUI's model. */
module TuiInvariants {
  import opened Events
  import opened Filtering
  import opened Sorting
  import opened Tui

  // ---------------------------------------------------------------- rows, fresh or stale

  /** rows are rows of the events that pass the filters, each at most once and in the order of
      the sort mode, though perhaps not all of them. */
  ghost predicate Listed(events: seq<TapEvent>, query: string, errorsOnly: bool, mode: SortMode, rows: seq<nat>) {
    multiset(rows) <= multiset(FilteredRows(events, query, errorsOnly)) && Ordered(mode, events, rows)
  }

  ghost predicate RowsListed(l: ListState) {
    Listed(l.events, l.searchQuery, l.filterErrors, l.sortMode, l.displayRows)
  }

  ghost predicate ListInv(l: ListState) {
    RowsListed(l) && 0 <= l.cursor <= LastIndex(|l.displayRows|)
  }

  ghost predicate AnalyticsInv(s: AnalyticsState) {
    0 <= s.cursor <= LastIndex(|s.rows|)
  }

  ghost predicate Inv(m: Model) {
    ListInv(m.list) && AnalyticsInv(m.analytics)
  }

  /** The rows are what a rebuild now could give: sound, ordered and complete. */
  ghost predicate Fresh(l: ListState) {
    IsRebuild(l.events, l.searchQuery, l.filterErrors, l.sortMode, l.displayRows)
  }

  lemma SubmultisetSize<T>(a: seq<T>, b: seq<T>)
    requires multiset(a) <= multiset(b)
    ensures |a| <= |b|
  {
    assert multiset(b) == multiset(a) + (multiset(b) - multiset(a));
    assert |multiset(b)| == |b| && |multiset(a)| == |a|;
  }

  lemma ListedIsSound(events: seq<TapEvent>, query: string, errorsOnly: bool, mode: SortMode, rows: seq<nat>)
    requires Listed(events, query, errorsOnly, mode, rows)
    ensures InRange(rows, |events|)
    ensures forall i :: 0 <= i < |rows| && rows[i] < |events| ==> Matches(events[rows[i]], query, errorsOnly)
  {
    RowsAreExact(events, query, errorsOnly);
    var all := FilteredRows(events, query, errorsOnly);
    forall i | 0 <= i < |rows| ensures rows[i] in all {
      assert rows[i] in multiset(rows);
      assert rows[i] in multiset(all);
    }
  }

  lemma {:induction false} IncreasingOccursOnce(rows: seq<nat>, x: nat)
    requires Increasing(rows)
    ensures multiset(rows)[x] <= 1
  {
    if rows != [] {
      var init, last := rows[..|rows| - 1], rows[|rows| - 1];
      IncreasingOccursOnce(init, x);
      assert rows == init + [last];
      assert last !in init;
    }
  }

  lemma ListedIsDistinct(events: seq<TapEvent>, query: string, errorsOnly: bool, mode: SortMode, rows: seq<nat>)
    requires Listed(events, query, errorsOnly, mode, rows)
    ensures forall i, j :: 0 <= i < j < |rows| ==> rows[i] != rows[j]
  {
    forall i, j | 0 <= i < j < |rows| ensures rows[i] != rows[j] {
      RowsAreExact(events, query, errorsOnly);
      IncreasingOccursOnce(FilteredRows(events, query, errorsOnly), rows[i]);
      assert rows == rows[..j] + [rows[j]] + rows[j + 1..];
      assert rows[i] in rows[..j];
      assert multiset(rows)[rows[i]] >= if rows[i] == rows[j] then 2 else 1;
    }
  }

  lemma ListedSurvivesArrival(events: seq<TapEvent>, ev: TapEvent, query: string, errorsOnly: bool, mode: SortMode,
                              rows: seq<nat>)
    requires Listed(events, query, errorsOnly, mode, rows)
    ensures Listed(events + [ev], query, errorsOnly, mode, rows)
    ensures |FilteredRows(events, query, errorsOnly)| <= |FilteredRows(events + [ev], query, errorsOnly)|
  {
    ArrivalExtendsRows(events, ev, query, errorsOnly);
    ListedIsSound(events, query, errorsOnly, mode, rows);
  }

  lemma ListedSurvivesClearing(events: seq<TapEvent>, query: string, errorsOnly: bool, mode: SortMode, rows: seq<nat>)
    requires Listed(events, query, errorsOnly, mode, rows)
    ensures Listed(events, "", errorsOnly, mode, rows)
  {
    ClearingQueryKeepsRows(events, query, errorsOnly);
  }

  // ---------------------------------------------------------------- rebuilding

  lemma RebuildIsFresh(l: ListState, answer: seq<nat>)
    ensures Fresh(WithRows(l, answer))
    ensures |Rebuilt(l, answer)| == |FilteredRows(l.events, l.searchQuery, l.filterErrors)|
  {
    var rows := FilteredRows(l.events, l.searchQuery, l.filterErrors);
    RowsAreExact(l.events, l.searchQuery, l.filterErrors);
    if l.sortMode == ByDuration {
      SortedSorts(rows, DurationKey(l.events), answer);
      SameSize(Rebuilt(l, answer), rows);
      DescendingIsSlowestFirst(l.events, Rebuilt(l, answer));
    }
  }

  lemma SameSize<T>(a: seq<T>, b: seq<T>)
    requires multiset(a) == multiset(b)
    ensures |a| == |b|
  {
    assert |multiset(a)| == |a| && |multiset(b)| == |b|;
  }

  lemma DescendingIsSlowestFirst(events: seq<TapEvent>, rows: seq<nat>)
    requires Descending(rows, DurationKey(events))
    ensures SlowestFirst(events, rows)
  {
    forall i, j | 0 <= i < j < |rows| && rows[i] < |events| && rows[j] < |events|
      ensures events[rows[i]].duration >= events[rows[j]].duration
    {
      assert DurationKey(events)(rows[i]) >= DurationKey(events)(rows[j]);
    }
  }

  /** Rebuilding without touching the cursor is safe: a rebuild never shows fewer rows than
      were listed, however stale those are. */
  lemma RebuildKeepsCursor(l: ListState, answer: seq<nat>)
    requires ListInv(l)
    ensures ListInv(WithRows(l, answer)) && |l.displayRows| <= |Rebuilt(l, answer)|
  {
    RebuildIsFresh(l, answer);
    SubmultisetSize(l.displayRows, FilteredRows(l.events, l.searchQuery, l.filterErrors));
  }

  lemma RebuildAndMove(l: ListState, answer: seq<nat>)
    requires l.cursor >= 0
    ensures ListInv(CursorToEnd(WithRows(l, answer)))
    ensures ListInv(CursorClamped(WithRows(l, answer)))
    ensures ListInv(WithRows(l, answer).(cursor := 0))
  {
    RebuildIsFresh(l, answer);
  }

  // ---------------------------------------------------------------- step by step

  lemma ArrivalStaysListed(l: ListState, ev: TapEvent)
    requires ListInv(l)
    ensures ListInv(l.(events := l.events + [ev]))
  {
    ListedSurvivesArrival(l.events, ev, l.searchQuery, l.filterErrors, l.sortMode, l.displayRows);
  }

  lemma BackInListKeepsInv(l: ListState, answer: seq<nat>)
    requires ListInv(l)
    ensures ListInv(BackInList(l, answer))
  {
    RebuildKeepsCursor(l, answer);
    RebuildAndMove(l, answer);
  }

  lemma ArrivalMoves(m: Model, ev: TapEvent, answers: Answers)
    ensures var got, n := m.list.(events := m.list.events + [ev]), Arrived(m, ev, answers);
      && n.analytics == m.analytics
      && (|| n.list == got
          || n.list == BackInList(got, answers.rows)
          || n.list == CursorToEnd(WithRows(got, answers.rows)))
  {
  }

  lemma ArrivalKeepsInv(m: Model, ev: TapEvent, answers: Answers)
    requires Inv(m)
    ensures Inv(Arrived(m, ev, answers))
  {
    var got := m.list.(events := m.list.events + [ev]);
    ArrivalStaysListed(m.list, ev);
    BackInListKeepsInv(got, answers.rows);
    RebuildAndMove(got, answers.rows);
    ArrivalMoves(m, ev, answers);
  }

  lemma SlashKeepsInv(l: ListState)
    requires ListInv(l)
    ensures ListInv(l.(searchQuery := ""))
  {
    ListedSurvivesClearing(l.events, l.searchQuery, l.filterErrors, l.sortMode, l.displayRows);
  }

  lemma CursorKeysKeepInv(l: ListState, half: int)
    requires ListInv(l) && half >= 0
    ensures ListInv(CursorDown(l)) && ListInv(CursorUp(l))
  {
  }

  lemma PageKeysKeepInv(l: ListState, half: int)
    requires ListInv(l) && half >= 0
    ensures ListInv(CursorPageDown(l, half)) && ListInv(CursorPageUp(l, half))
  {
  }

  lemma ToggleSortKeepsInv(l: ListState, answer: seq<nat>)
    requires ListInv(l)
    ensures ListInv(ToggleSort(l, answer))
  {
    match l.sortMode
    case Chronological => RebuildAndMove(l.(sortMode := ByDuration, follow := false), answer);
    case ByDuration => RebuildAndMove(l.(sortMode := Chronological), answer);
  }

  lemma FiltersKeepInv(l: ListState, query: string, answer: seq<nat>)
    requires ListInv(l)
    ensures ListInv(ToggleErrors(l, answer)) && ListInv(Searched(l, query, answer))
  {
    RebuildAndMove(l.(filterErrors := !l.filterErrors), answer);
    RebuildAndMove(l.(searchQuery := query), answer);
  }

  /** Everything a key of the list view can do to the list. */
  ghost predicate ListMove(l: ListState, n: ListState, half: int, answer: seq<nat>) {
    || n == l || n == l.(searchQuery := "")
    || n == CursorDown(l) || n == CursorUp(l) || n == CursorPageDown(l, half) || n == CursorPageUp(l, half)
    || n == ToggleErrors(l, answer) || n == ToggleSort(l, answer)
    || exists query :: n == Searched(l, query, answer)
  }

  lemma ListMoveKeepsInv(l: ListState, n: ListState, half: int, answer: seq<nat>)
    requires ListInv(l) && half >= 0 && ListMove(l, n, half, answer)
    ensures ListInv(n)
  {
    if n == l.(searchQuery := "") {
      SlashKeepsInv(l);
    } else if n == CursorDown(l) || n == CursorUp(l) {
      CursorKeysKeepInv(l, half);
    } else if n == CursorPageDown(l, half) || n == CursorPageUp(l, half) {
      PageKeysKeepInv(l, half);
    } else if n == ToggleErrors(l, answer) {
      FiltersKeepInv(l, "", answer);
    } else if n == ToggleSort(l, answer) {
      ToggleSortKeepsInv(l, answer);
    } else if n != l {
      var query :| n == Searched(l, query, answer);
      FiltersKeepInv(l, query, answer);
    }
  }

  function HalfPage(m: Model): int {
    Max(ListHeight(m.frame.height) / 2, 1)
  }

  lemma ListLetterMoves(m: Model, c: char, answers: Answers)
    ensures var n := UpdateListLetter(m, c, answers).0;
      ListMove(m.list, n.list, HalfPage(m), answers.rows) && (c != 'a' ==> n.analytics == m.analytics)
    ensures c == 'a' ==> AnalyticsInv(UpdateListLetter(m, c, answers).0.analytics)
  {
  }

  lemma ListKeyMoves(m: Model, key: Key, answers: Answers)
    requires AnalyticsInv(m.analytics)
    ensures var n := UpdateList(m, key, answers).0;
      ListMove(m.list, n.list, HalfPage(m), answers.rows) && AnalyticsInv(n.analytics)
  {
    match key
    case Char(c) => ListLetterMoves(m, c, answers);
    case _ =>
  }

  lemma SearchKeyMoves(m: Model, key: Key, runes: string, answers: Answers)
    ensures var n := UpdateSearch(m, key, runes, answers).0;
      ListMove(m.list, n.list, HalfPage(m), answers.rows) && n.analytics == m.analytics
  {
  }

  lemma InspectKeyMoves(m: Model, key: Key, answers: Answers)
    ensures var n := UpdateInspect(m, key, answers).0;
      (n.list == m.list || n.list == BackInList(m.list, answers.rows)) && n.analytics == m.analytics
  {
  }

  lemma AnalyticsKeyKeepsInv(s: AnalyticsState, key: Key, half: int, answers: Answers)
    requires AnalyticsInv(s) && half >= 0
    ensures AnalyticsInv(AnalyticsKey(s, key, half, answers))
  {
  }

  lemma AnalyticsKeyMoves(m: Model, key: Key, answers: Answers)
    requires AnalyticsInv(m.analytics)
    ensures var n := UpdateAnalytics(m, key, answers).0;
      (n.list == m.list || n.list == BackInList(m.list, answers.rows)) && AnalyticsInv(n.analytics)
  {
    AnalyticsKeyKeepsInv(m.analytics, key, AnalyticsVisibleRows(m.frame.height) / 2, answers);
  }

  lemma KeyKeepsInv(m: Model, key: Key, runes: string, answers: Answers)
    requires Inv(m)
    ensures Inv(UpdateKey(m, key, runes, answers).0)
  {
    var n := UpdateKey(m, key, runes, answers).0;
    match m.view
    case AnalyticsView =>
      AnalyticsKeyMoves(m, key, answers);
      BackInListKeepsInv(m.list, answers.rows);
    case InspectView =>
      InspectKeyMoves(m, key, answers);
      BackInListKeepsInv(m.list, answers.rows);
    case ListView =>
      SearchKeyMoves(m, key, runes, answers);
      ListKeyMoves(m, key, answers);
      ListMoveKeepsInv(m.list, n.list, HalfPage(m), answers.rows);
  }

  lemma QuietMessageKeepsLists(m: Model, msg: Msg, answers: Answers)
    requires !msg.EventArrived? && !msg.KeyPressed?
    ensures var n := Update(m, msg, answers).0; n.list == m.list && n.analytics == m.analytics
  {
  }

  lemma UpdateKeepsInv(m: Model, msg: Msg, answers: Answers)
    requires Inv(m)
    ensures Inv(Update(m, msg, answers).0)
  {
    match msg
    case EventArrived(ev) => ArrivalKeepsInv(m, ev, answers);
    case KeyPressed(key, runes) => KeyKeepsInv(m.(alert := m.alert.(message := "")), key, runes, answers);
    case _ => QuietMessageKeepsLists(m, msg, answers);
  }
}
