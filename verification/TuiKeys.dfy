/** What runs of keys do: the query typed, the cursor moved, the list toggled. */
module TuiKeys {
  import opened Events
  import opened Text
  import opened Filtering
  import opened Tui
  import opened TuiInvariants
  import opened TuiRuns

  datatype Press = Press(key: Key, runes: string, answers: Answers)

  function AfterKey(m: Model, p: Press): Model {
    Update(m, KeyPressed(p.key, p.runes), p.answers).0
  }

  function AfterKeys(m: Model, keys: seq<Press>): Model
    decreases |keys|
  {
    if keys == [] then m else AfterKeys(AfterKey(m, keys[0]), keys[1..])
  }

  /** Every key takes the alert off the screen. */
  function Quieted(m: Model): Model {
    m.(alert := m.alert.(message := ""))
  }

  // ---------------------------------------------------------------- typing a query

  predicate InSearch(m: Model) {
    m.view == ListView && m.searchMode && !m.writeMode
  }

  /** A key that types something, a paste included. */
  predicate IsRune(p: Press) {
    p.runes != "" && p.key != Enter && p.key != Esc && p.key != Backspace && p.key != CtrlC
  }

  function Runes(keys: seq<Press>): string {
    if keys == [] then "" else keys[0].runes + Runes(keys[1..])
  }

  /** The list after a search key: the query is the given one, the rows are complete, and the
      cursor stays where it was or, that row being gone, goes to the last. */
  ghost predicate SearchedFor(l: ListState, n: ListState, query: string) {
    && n.searchQuery == query && Fresh(n)
    && n.events == l.events && n.filterErrors == l.filterErrors && n.sortMode == l.sortMode && n.follow == l.follow
    && KeepsPlace(l, n)
  }

  /** The cursor stays on its row number, or goes to the last row if there are fewer now. */
  predicate KeepsPlace(l: ListState, n: ListState) {
    if l.cursor < |n.displayRows| then n.cursor == l.cursor else n.cursor == LastIndex(|n.displayRows|)
  }

  lemma SearchedList(l: ListState, query: string, answer: seq<nat>)
    requires l.cursor >= 0
    ensures SearchedFor(l, Searched(l, query, answer), query)
  {
    SearchRebuilds(l, query, answer);
  }

  lemma RuneStep(m: Model, p: Press)
    requires InSearch(m) && IsRune(p)
    ensures AfterKey(m, p) == Quieted(m).(list := Searched(m.list, m.list.searchQuery + p.runes, p.answers.rows))
  {
  }

  lemma BackspaceStep(m: Model, p: Press)
    requires InSearch(m) && p.key == Backspace && m.list.searchQuery != ""
    ensures var q := m.list.searchQuery;
      AfterKey(m, p) == Quieted(m).(list := Searched(m.list, q[..|q| - 1], p.answers.rows))
  {
  }

  /** The list after a run of typed keys. */
  function TypedList(l: ListState, keys: seq<Press>): ListState
    decreases |keys|
  {
    if keys == [] then l
    else TypedList(Searched(l, l.searchQuery + keys[0].runes, keys[0].answers.rows), keys[1..])
  }

  /** The model after some keys that touch only the list. */
  function Relisted(m: Model, keys: seq<Press>, l: ListState): Model {
    if keys == [] then m else Quieted(m).(list := l)
  }

  lemma {:induction false} TypingReachesList(m: Model, keys: seq<Press>)
    requires InSearch(m) && forall i :: 0 <= i < |keys| ==> IsRune(keys[i])
    ensures AfterKeys(m, keys) == Relisted(m, keys, TypedList(m.list, keys))
    decreases |keys|
  {
    if keys != [] {
      RuneStep(m, keys[0]);
      TypingReachesList(AfterKey(m, keys[0]), keys[1..]);
    }
  }

  lemma {:induction false} TypedListAppends(l: ListState, keys: seq<Press>)
    requires l.cursor >= 0
    ensures TypedList(l, keys).searchQuery == l.searchQuery + Runes(keys)
    ensures var n := TypedList(l, keys); n.events == l.events && n.filterErrors == l.filterErrors && n.cursor >= 0
    ensures keys != [] || Fresh(l) ==> Fresh(TypedList(l, keys))
    decreases |keys|
  {
    if keys == [] {
      assert l.searchQuery + "" == l.searchQuery;
    } else {
      var n := Searched(l, l.searchQuery + keys[0].runes, keys[0].answers.rows);
      SearchedList(l, l.searchQuery + keys[0].runes, keys[0].answers.rows);
      TypedListAppends(n, keys[1..]);
      assert (l.searchQuery + keys[0].runes) + Runes(keys[1..]) == l.searchQuery + Runes(keys);
    }
  }

  /** Over any run of typed keys the query grows by what is typed, in the order typed, and the
      rows are complete for it. */
  lemma TypingAppends(m: Model, keys: seq<Press>)
    requires InSearch(m) && m.list.cursor >= 0 && forall i :: 0 <= i < |keys| ==> IsRune(keys[i])
    ensures var n := AfterKeys(m, keys);
      && InSearch(n) && n.list.searchQuery == m.list.searchQuery + Runes(keys)
      && n.list.events == m.list.events && n.list.filterErrors == m.list.filterErrors && n.list.cursor >= 0
      && (keys != [] || Fresh(m.list) ==> Fresh(n.list))
  {
    TypingReachesList(m, keys);
    TypedListAppends(m.list, keys);
  }

  /** '/' begins with the empty query, so what is typed after it is the query. */
  lemma SlashThenTyping(m: Model, slash: Press, keys: seq<Press>)
    requires InList(m) && m.list.cursor >= 0 && slash.key == Char('/')
    requires forall i :: 0 <= i < |keys| ==> IsRune(keys[i])
    ensures var n := AfterKeys(m, [slash] + keys); InSearch(n) && n.list.searchQuery == Runes(keys)
  {
    var begun := AfterKey(m, slash);
    assert begun == Quieted(m).(searchMode := true, list := m.list.(searchQuery := ""));
    assert ([slash] + keys)[1..] == keys;
    TypingAppends(begun, keys);
  }

  lemma FreshRowsAre(l: ListState, i: nat)
    requires Fresh(l)
    ensures i in l.displayRows <==> i < |l.events| && Matches(l.events[i], l.searchQuery, l.filterErrors)
  {
    RowsAreExact(l.events, l.searchQuery, l.filterErrors);
    assert i in l.displayRows <==> i in multiset(l.displayRows);
  }

  /** The rows shown after typing are those of the events whose method and path hold the whole
      text, in letters of either case, and that pass the error filter. */
  lemma TypingFinds(m: Model, keys: seq<Press>, i: nat)
    requires InSearch(m) && m.list.cursor >= 0 && keys != [] && forall k :: 0 <= k < |keys| ==> IsRune(keys[k])
    ensures var n := AfterKeys(m, keys);
      i in n.list.displayRows
      <==> && i < |m.list.events|
           && HoldsSomewhere(m.list.events[i].verb + " " + m.list.events[i].path, m.list.searchQuery + Runes(keys))
           && (m.list.filterErrors ==> m.list.events[i].status >= 400 || m.list.events[i].error != "")
  {
    TypingAppends(m, keys);
    FreshRowsAre(AfterKeys(m, keys).list, i);
    if i < |m.list.events| {
      MatchesQueryIff(m.list.events[i], m.list.searchQuery + Runes(keys));
    }
  }

  /** The list after a run of backspaces. */
  function ErasedList(l: ListState, keys: seq<Press>): ListState
    requires |keys| <= |l.searchQuery|
    decreases |keys|
  {
    if keys == [] then l
    else ErasedList(Searched(l, l.searchQuery[..|l.searchQuery| - 1], keys[0].answers.rows), keys[1..])
  }

  lemma {:induction false} ErasingReachesList(m: Model, keys: seq<Press>)
    requires InSearch(m) && forall i :: 0 <= i < |keys| ==> keys[i].key == Backspace
    requires |keys| <= |m.list.searchQuery|
    ensures AfterKeys(m, keys) == Relisted(m, keys, ErasedList(m.list, keys))
    decreases |keys|
  {
    if keys != [] {
      BackspaceStep(m, keys[0]);
      ErasingReachesList(AfterKey(m, keys[0]), keys[1..]);
    }
  }

  lemma {:induction false} ErasedListShortens(l: ListState, keys: seq<Press>)
    requires l.cursor >= 0 && |keys| <= |l.searchQuery|
    ensures ErasedList(l, keys).searchQuery == l.searchQuery[..|l.searchQuery| - |keys|]
    ensures ErasedList(l, keys).events == l.events && ErasedList(l, keys).cursor >= 0
    ensures keys != [] || Fresh(l) ==> Fresh(ErasedList(l, keys))
    decreases |keys|
  {
    if keys != [] {
      var shorter := l.searchQuery[..|l.searchQuery| - 1];
      SearchedList(l, shorter, keys[0].answers.rows);
      ErasedListShortens(Searched(l, shorter, keys[0].answers.rows), keys[1..]);
    }
  }

  /** Backspace takes characters off the end, one a key, down to the empty query. */
  lemma ErasingShortens(m: Model, keys: seq<Press>)
    requires InSearch(m) && m.list.cursor >= 0 && forall i :: 0 <= i < |keys| ==> keys[i].key == Backspace
    requires |keys| <= |m.list.searchQuery|
    ensures var n := AfterKeys(m, keys); var q := m.list.searchQuery;
      && InSearch(n) && n.list.searchQuery == q[..|q| - |keys|] && n.list.events == m.list.events
      && (keys != [] || Fresh(m.list) ==> Fresh(n.list)) && n.list.cursor >= 0
  {
    ErasingReachesList(m, keys);
    ErasedListShortens(m.list, keys);
  }

  lemma {:induction false} AfterMoreKeys(m: Model, one: seq<Press>, two: seq<Press>)
    ensures AfterKeys(m, one + two) == AfterKeys(AfterKeys(m, one), two)
    decreases |one|
  {
    if one == [] {
      assert one + two == two;
    } else {
      assert (one + two)[1..] == one[1..] + two;
      AfterMoreKeys(AfterKey(m, one[0]), one[1..], two);
    }
  }

  /** Typing and then erasing as many characters restores the query, with complete rows. */
  lemma ErasingUndoesTyping(m: Model, typed: seq<Press>, erased: seq<Press>)
    requires InSearch(m) && m.list.cursor >= 0 && typed != []
    requires forall i :: 0 <= i < |typed| ==> IsRune(typed[i])
    requires |erased| == |Runes(typed)| && forall i :: 0 <= i < |erased| ==> erased[i].key == Backspace
    ensures var n := AfterKeys(m, typed + erased);
      InSearch(n) && n.list.searchQuery == m.list.searchQuery && n.list.events == m.list.events && Fresh(n.list)
  {
    TypingAppends(m, typed);
    AfterMoreKeys(m, typed, erased);
    ErasingShortens(AfterKeys(m, typed), erased);
  }

  /** Enter leaves the search with the query as it is; Esc leaves it with the empty query. */
  lemma LeavingSearch(m: Model, p: Press)
    requires InSearch(m) && m.list.cursor >= 0
    ensures p.key == Enter ==> AfterKey(m, p) == Quieted(m).(searchMode := false)
    ensures p.key == Esc ==>
      && AfterKey(m, p) == Quieted(m).(searchMode := false, list := AfterKey(m, p).list)
      && SearchedFor(m.list, AfterKey(m, p).list, "")
  {
    if p.key == Esc {
      SearchedList(m.list, "", p.answers.rows);
    }
  }

  // ---------------------------------------------------------------- moving the cursor

  /** The list view with neither a search nor an export under way. */
  predicate InList(m: Model) {
    m.view == ListView && !m.searchMode && !m.writeMode
  }

  predicate IsDown(p: Press) {
    p.key == Down || p.key == Char('j')
  }

  predicate IsUp(p: Press) {
    p.key == Up || p.key == Char('k')
  }

  predicate IsPageDown(p: Press) {
    p.key == CtrlD || p.key == PageDown
  }

  predicate IsPageUp(p: Press) {
    p.key == CtrlU || p.key == PageUp
  }

  lemma MoveStep(m: Model, p: Press)
    requires InList(m)
    ensures IsDown(p) ==> AfterKey(m, p) == Quieted(m).(list := CursorDown(m.list))
    ensures IsUp(p) ==> AfterKey(m, p) == Quieted(m).(list := CursorUp(m.list))
  {
  }

  lemma PageStep(m: Model, p: Press)
    requires InList(m)
    ensures IsPageDown(p) ==> AfterKey(m, p) == Quieted(m).(list := CursorPageDown(m.list, HalfPage(m)))
    ensures IsPageUp(p) ==> AfterKey(m, p) == Quieted(m).(list := CursorPageUp(m.list, HalfPage(m)))
  {
  }

  /** The model after some keys that touch only cursor and follow. */
  function Moved(m: Model, keys: seq<Press>, cursor: int, follow: bool): Model {
    if keys == [] then m else Quieted(m).(list := m.list.(cursor := cursor, follow := follow))
  }

  /** Over any run of downward keys, each worth a number of rows, the cursor goes down that far or
      to the last row, and the list follows new events from when the last row is reached. */
  lemma {:induction false} DownRun(m: Model, keys: seq<Press>)
    requires InList(m) && 0 <= m.list.cursor <= LastIndex(|m.list.displayRows|)
    requires forall i :: 0 <= i < |keys| ==> IsDown(keys[i])
    ensures var l, last := m.list, LastIndex(|m.list.displayRows|);
      AfterKeys(m, keys) == Moved(m, keys, Min(l.cursor + |keys|, last),
                                  l.follow || (l.displayRows != [] && l.cursor + |keys| >= last))
    decreases |keys|
  {
    if keys != [] {
      MoveStep(m, keys[0]);
      DownRun(AfterKey(m, keys[0]), keys[1..]);
    }
  }

  /** Upward keys go up that far or to the first row; the first that moves ends the following. */
  lemma {:induction false} UpRun(m: Model, keys: seq<Press>)
    requires InList(m) && 0 <= m.list.cursor && forall i :: 0 <= i < |keys| ==> IsUp(keys[i])
    ensures AfterKeys(m, keys)
         == Moved(m, keys, Max(m.list.cursor - |keys|, 0), m.list.follow && m.list.cursor == 0)
    decreases |keys|
  {
    if keys != [] {
      MoveStep(m, keys[0]);
      UpRun(AfterKey(m, keys[0]), keys[1..]);
    }
  }

  function PagedDown(l: ListState, half: int, n: nat): ListState
    decreases n
  {
    if n == 0 then l else PagedDown(CursorPageDown(l, half), half, n - 1)
  }

  function PagedUp(l: ListState, half: int, n: nat): ListState
    decreases n
  {
    if n == 0 then l else PagedUp(CursorPageUp(l, half), half, n - 1)
  }

  lemma {:induction false} PageDownReachesList(m: Model, keys: seq<Press>)
    requires InList(m) && forall i :: 0 <= i < |keys| ==> IsPageDown(keys[i])
    ensures AfterKeys(m, keys) == Relisted(m, keys, PagedDown(m.list, HalfPage(m), |keys|))
    decreases |keys|
  {
    if keys != [] {
      PageStep(m, keys[0]);
      PageDownReachesList(AfterKey(m, keys[0]), keys[1..]);
    }
  }

  lemma {:induction false} PageUpReachesList(m: Model, keys: seq<Press>)
    requires InList(m) && forall i :: 0 <= i < |keys| ==> IsPageUp(keys[i])
    ensures AfterKeys(m, keys) == Relisted(m, keys, PagedUp(m.list, HalfPage(m), |keys|))
    decreases |keys|
  {
    if keys != [] {
      PageStep(m, keys[0]);
      PageUpReachesList(AfterKey(m, keys[0]), keys[1..]);
    }
  }

  lemma OneMorePage(half: int, n: nat)
    requires n > 0
    ensures n * half == half + (n - 1) * half
  {
  }

  lemma {:induction false} PagedDownTo(l: ListState, half: int, n: nat)
    requires half > 0 && 0 <= l.cursor <= LastIndex(|l.displayRows|)
    ensures var last := LastIndex(|l.displayRows|);
      PagedDown(l, half, n) == l.(
        cursor := Min(l.cursor + n * half, last),
        follow := l.follow || (n > 0 && l.displayRows != [] && l.cursor + n * half >= last))
    decreases n
  {
    if n > 0 {
      OneMorePage(half, n);
      var next := CursorPageDown(l, half);
      PagedDownTo(next, half, n - 1);
      assert (n - 1) * half >= 0;
    }
  }

  lemma {:induction false} PagedUpTo(l: ListState, half: int, n: nat)
    requires half > 0 && l.cursor >= 0
    ensures PagedUp(l, half, n)
         == l.(cursor := Max(l.cursor - n * half, 0), follow := l.follow && n == 0)
    decreases n
  {
    if n > 0 {
      OneMorePage(half, n);
      PagedUpTo(CursorPageUp(l, half), half, n - 1);
      assert (n - 1) * half >= 0;
    }
  }

  /** The same for the keys worth half a page each, down and up. */
  lemma PageDownRun(m: Model, keys: seq<Press>)
    requires InList(m) && 0 <= m.list.cursor <= LastIndex(|m.list.displayRows|)
    requires forall i :: 0 <= i < |keys| ==> IsPageDown(keys[i])
    ensures var l, last := m.list, LastIndex(|m.list.displayRows|);
      AfterKeys(m, keys) == Moved(m, keys, Min(l.cursor + |keys| * HalfPage(m), last),
                                  l.follow || (l.displayRows != [] && l.cursor + |keys| * HalfPage(m) >= last))
  {
    PageDownReachesList(m, keys);
    PagedDownTo(m.list, HalfPage(m), |keys|);
  }

  lemma PageUpRun(m: Model, keys: seq<Press>)
    requires InList(m) && 0 <= m.list.cursor && forall i :: 0 <= i < |keys| ==> IsPageUp(keys[i])
    ensures AfterKeys(m, keys) == Moved(m, keys, Max(m.list.cursor - |keys| * HalfPage(m), 0), false)
  {
    PageUpReachesList(m, keys);
    PagedUpTo(m.list, HalfPage(m), |keys|);
  }

  // ---------------------------------------------------------------- toggles

  lemma ToggleStep(m: Model, p: Press)
    requires InList(m)
    ensures p.key == Char('e') ==> AfterKey(m, p) == Quieted(m).(list := ToggleErrors(m.list, p.answers.rows))
    ensures p.key == Char('s') ==> AfterKey(m, p) == Quieted(m).(list := ToggleSort(m.list, p.answers.rows))
  {
  }

  function ErrorToggled(l: ListState, keys: seq<Press>): ListState
    decreases |keys|
  {
    if keys == [] then l else ErrorToggled(ToggleErrors(l, keys[0].answers.rows), keys[1..])
  }

  function SortToggled(l: ListState, keys: seq<Press>): ListState
    decreases |keys|
  {
    if keys == [] then l else SortToggled(ToggleSort(l, keys[0].answers.rows), keys[1..])
  }

  lemma {:induction false} ErrorKeysReachList(m: Model, keys: seq<Press>)
    requires InList(m) && forall i :: 0 <= i < |keys| ==> keys[i].key == Char('e')
    ensures AfterKeys(m, keys) == Relisted(m, keys, ErrorToggled(m.list, keys))
    decreases |keys|
  {
    if keys != [] {
      ToggleStep(m, keys[0]);
      ErrorKeysReachList(AfterKey(m, keys[0]), keys[1..]);
    }
  }

  lemma {:induction false} SortKeysReachList(m: Model, keys: seq<Press>)
    requires InList(m) && forall i :: 0 <= i < |keys| ==> keys[i].key == Char('s')
    ensures AfterKeys(m, keys) == Relisted(m, keys, SortToggled(m.list, keys))
    decreases |keys|
  {
    if keys != [] {
      ToggleStep(m, keys[0]);
      SortKeysReachList(AfterKey(m, keys[0]), keys[1..]);
    }
  }

  /** What turning a filter or the sort leaves as it was. */
  predicate SameSource(l: ListState, n: ListState) {
    n.events == l.events && n.searchQuery == l.searchQuery
  }

  lemma {:induction false} ErrorToggledIs(l: ListState, keys: seq<Press>)
    requires l.cursor >= 0
    ensures var n := ErrorToggled(l, keys);
      && SameSource(l, n) && n.sortMode == l.sortMode && n.follow == l.follow && 0 <= n.cursor <= l.cursor
      && n.filterErrors == if |keys| % 2 == 0 then l.filterErrors else !l.filterErrors
    decreases |keys|
  {
    if keys != [] {
      ErrorToggledIs(ToggleErrors(l, keys[0].answers.rows), keys[1..]);
    }
  }

  lemma {:induction false} ErrorToggledIsFresh(l: ListState, keys: seq<Press>)
    ensures keys != [] || Fresh(l) ==> Fresh(ErrorToggled(l, keys))
    decreases |keys|
  {
    if keys != [] {
      TogglesRebuild(l, keys[0].answers.rows);
      ErrorToggledIsFresh(ToggleErrors(l, keys[0].answers.rows), keys[1..]);
    }
  }

  lemma SortToggledOnce(l: ListState, answer: seq<nat>)
    ensures var n := ToggleSort(l, answer);
      && SameSource(l, n) && n.filterErrors == l.filterErrors && n.cursor == 0
      && n.sortMode == (if l.sortMode == Chronological then ByDuration else Chronological)
      && n.follow == (l.follow && l.sortMode == ByDuration)
  {
  }

  lemma {:induction false} SortToggledIs(l: ListState, keys: seq<Press>)
    ensures var n := SortToggled(l, keys);
      && SameSource(l, n) && n.filterErrors == l.filterErrors
      && (n.sortMode == l.sortMode <==> |keys| % 2 == 0)
      && (l.cursor == 0 || keys != [] ==> n.cursor == 0)
    decreases |keys|
  {
    if keys != [] {
      SortToggledOnce(l, keys[0].answers.rows);
      SortToggledIs(ToggleSort(l, keys[0].answers.rows), keys[1..]);
    }
  }

  lemma {:induction false} SortingEndsFollowing(l: ListState, keys: seq<Press>)
    ensures !l.follow || |keys| >= 2 || (keys != [] && l.sortMode == Chronological) ==> !SortToggled(l, keys).follow
    decreases |keys|
  {
    if keys != [] {
      SortToggledOnce(l, keys[0].answers.rows);
      SortingEndsFollowing(ToggleSort(l, keys[0].answers.rows), keys[1..]);
    }
  }

  lemma {:induction false} SortToggledIsFresh(l: ListState, keys: seq<Press>)
    ensures keys != [] || Fresh(l) ==> Fresh(SortToggled(l, keys))
    decreases |keys|
  {
    if keys != [] {
      TogglesRebuild(l, keys[0].answers.rows);
      SortToggledIsFresh(ToggleSort(l, keys[0].answers.rows), keys[1..]);
    }
  }

  /** Turning the error filter keeps the cursor's place; Esc in the list takes the query away as
      Esc in a search does, if there is one. */
  lemma FilterKeysKeepPlace(m: Model, p: Press)
    requires InList(m) && m.list.cursor >= 0
    ensures p.key == Char('e') ==> KeepsPlace(m.list, AfterKey(m, p).list)
    ensures p.key == Esc ==> AfterKey(m, p) == Quieted(m).(list := AfterKey(m, p).list)
    ensures p.key == Esc && m.list.searchQuery != "" ==> SearchedFor(m.list, AfterKey(m, p).list, "")
    ensures p.key == Esc && m.list.searchQuery == "" ==> AfterKey(m, p).list == m.list
  {
    ToggleStep(m, p);
    if p.key == Esc {
      EscStep(m, p);
      SearchedList(m.list, "", p.answers.rows);
    }
  }

  lemma EscStep(m: Model, p: Press)
    requires InList(m) && p.key == Esc
    ensures AfterKey(m, p) == Quieted(m).(list := ClearFilter(m.list, p.answers.rows))
  {
  }

  /** After any number of 'e' the error filter is on or off by turns, and the rows are complete. */
  lemma ErrorKeyRun(m: Model, keys: seq<Press>)
    requires InList(m) && m.list.cursor >= 0 && forall i :: 0 <= i < |keys| ==> keys[i].key == Char('e')
    ensures var n := AfterKeys(m, keys);
      && InList(n) && SameSource(m.list, n.list) && n.list.sortMode == m.list.sortMode && n.list.follow == m.list.follow
      && n.list.filterErrors == (if |keys| % 2 == 0 then m.list.filterErrors else !m.list.filterErrors)
      && (keys != [] ==> Fresh(n.list)) && 0 <= n.list.cursor <= m.list.cursor
  {
    ErrorKeysReachList(m, keys);
    ErrorToggledIs(m.list, keys);
    ErrorToggledIsFresh(m.list, keys);
  }

  /** After any number of 's' the list is by time or by duration by turns, complete, with the
      cursor on the first row; going by duration ends the following. */
  lemma SortKeyRun(m: Model, keys: seq<Press>)
    requires InList(m) && forall i :: 0 <= i < |keys| ==> keys[i].key == Char('s')
    ensures var n := AfterKeys(m, keys);
      && InList(n) && SameSource(m.list, n.list) && n.list.filterErrors == m.list.filterErrors
      && (n.list.sortMode == m.list.sortMode <==> |keys| % 2 == 0)
      && (keys != [] ==> Fresh(n.list) && n.list.cursor == 0)
      && (|keys| >= 2 || (keys != [] && m.list.sortMode == Chronological) ==> !n.list.follow)
  {
    SortKeysReachList(m, keys);
    SortToggledIs(m.list, keys);
    SortToggledIsFresh(m.list, keys);
    SortingEndsFollowing(m.list, keys);
  }

  // ---------------------------------------------------------------- scrolling the inspector

  /** How far the inspector scrolls when its event takes so many lines. */
  function ScrollEnd(m: Model, lines: int): int {
    Max(lines - (m.frame.height - 2), 0)
  }

  predicate Inspecting(m: Model) {
    m.view == InspectView && CursorEvent(m.list).Found?
  }

  function Scrolled(m: Model, keys: seq<Press>, scroll: int): Model {
    if keys == [] then m else Quieted(m).(frame := m.frame.(inspectScroll := scroll))
  }

  lemma ScrollStep(m: Model, p: Press)
    requires m.view == InspectView
    ensures IsDown(p) ==> AfterKey(m, p) == ScrollDown(Quieted(m), p.answers)
    ensures IsUp(p) ==> AfterKey(m, p) == ScrollUp(Quieted(m))
  {
  }

  /** Downward keys scroll a line each until the last lines are in sight, upward keys until the
      first is. */
  lemma {:induction false} ScrollDownRun(m: Model, keys: seq<Press>, lines: int)
    requires Inspecting(m) && m.frame.inspectScroll <= ScrollEnd(m, lines)
    requires forall i :: 0 <= i < |keys| ==> IsDown(keys[i]) && keys[i].answers.lines == lines
    ensures AfterKeys(m, keys) == Scrolled(m, keys, Min(m.frame.inspectScroll + |keys|, ScrollEnd(m, lines)))
    decreases |keys|
  {
    if keys != [] {
      ScrollStep(m, keys[0]);
      ScrollDownRun(AfterKey(m, keys[0]), keys[1..], lines);
    }
  }

  lemma {:induction false} ScrollUpRun(m: Model, keys: seq<Press>)
    requires m.view == InspectView && m.frame.inspectScroll >= 0
    requires forall i :: 0 <= i < |keys| ==> IsUp(keys[i])
    ensures AfterKeys(m, keys) == Scrolled(m, keys, Max(m.frame.inspectScroll - |keys|, 0))
    decreases |keys|
  {
    if keys != [] {
      ScrollStep(m, keys[0]);
      ScrollUpRun(AfterKey(m, keys[0]), keys[1..]);
    }
  }

  // ---------------------------------------------------------------- exporting, copying, quitting

  function CmdOf(m: Model, p: Press): Cmd {
    Update(m, KeyPressed(p.key, p.runes), p.answers).1
  }

  /** 'w' waits for a format; 'j' and 'm' then export as JSON or Markdown, any other key exports
      nothing, and each ends the wait. */
  lemma WriteThenFormat(m: Model, w: Press, p: Press)
    requires InList(m) && w.key == Char('w')
    ensures var waiting := AfterKey(m, w); var l := m.list;
      && waiting.writeMode && waiting.list == l && AfterKey(waiting, p) == Quieted(m)
      && CmdOf(waiting, p)
         == (if p.key == Char('j') then RunExport(l.events, l.searchQuery, l.filterErrors, Json)
             else if p.key == Char('m') then RunExport(l.events, l.searchQuery, l.filterErrors, Markdown)
             else NoCmd)
  {
    var waiting := AfterKey(m, w);
    assert waiting == Quieted(m).(writeMode := true);
    FormatStep(waiting, p);
  }

  lemma FormatStep(m: Model, p: Press)
    requires m.view == ListView && m.writeMode
    ensures var (n, cmd) := UpdateWrite(Quieted(m), p.key); AfterKey(m, p) == n && CmdOf(m, p) == cmd
  {
  }

  /** In the inspector 'c' and 'C' raise an alert exactly when the inspected event has a request or
      response body, and the alert tells a failed copy from one that worked. */
  lemma CopyAlerts(m: Model, p: Press)
    requires Inspecting(m)
    ensures p.key == Char('c') ==> (CmdOf(m, p).Tick? <==> CursorEvent(m.list).ev.requestBody != [])
    ensures p.key == Char('C') ==> (CmdOf(m, p).Tick? <==> CursorEvent(m.list).ev.responseBody != [])
    ensures (p.key == Char('c') || p.key == Char('C')) && CmdOf(m, p).Tick? ==>
      (AfterKey(m, p).alert.message == "Copy failed" <==> !p.answers.copied)
  {
  }

  /** The alert after an export names the file written, or the error. */
  lemma ExportAlerts(m: Model, path: string, err: Option<string>, answers: Answers)
    ensures var (n, cmd) := Update(m, ExportResult(path, err), answers);
      && cmd.Tick? && (err == None ==> n.alert.message == "wrote: ./" + path)
      && (err.Some? ==> n.alert.message == "write error: " + err.value)
  {
  }

  lemma ListNeverReceives(m: Model, key: Key, answers: Answers)
    ensures !UpdateList(m, key, answers).1.RecvEvent?
  {
  }

  /** The stream is read once more after the connection and after every event, and at no other
      time: there is always one read under way and never two. */
  lemma ReceivesIff(m: Model, msg: Msg, answers: Answers)
    ensures Update(m, msg, answers).1.RecvEvent? <==> msg.Connected? || msg.EventArrived?
  {
    match msg
    case KeyPressed(key, _) => ListNeverReceives(Quieted(m), key, answers);
    case _ =>
  }

  lemma ListQuits(m: Model, key: Key, answers: Answers)
    ensures UpdateList(m, key, answers).1 == Quit <==> key == CtrlC || key == Char('q')
  {
  }

  lemma OtherViewsQuit(m: Model, key: Key, runes: string, answers: Answers)
    ensures UpdateSearch(m, key, runes, answers).1 == Quit <==> key == CtrlC
    ensures UpdateInspect(m, key, answers).1 == Quit <==> key == CtrlC
    ensures UpdateAnalytics(m, key, answers).1 == Quit <==> key == CtrlC
  {
  }

  /** Ctrl-C quits everywhere but while a format is awaited; 'q' quits in the plain list only. */
  lemma QuitsIff(m: Model, p: Press)
    ensures CmdOf(m, p) == Quit
      <==> !(m.view == ListView && m.writeMode) && (p.key == CtrlC || (p.key == Char('q') && InList(m)))
  {
    ListQuits(Quieted(m), p.key, p.answers);
    OtherViewsQuit(Quieted(m), p.key, p.runes, p.answers);
  }

  // ---------------------------------------------------------------- the window and the connection

  /** Size, connection and error: what a message other than its own leaves alone. */
  predicate FrameKept(m: Model, n: Model) {
    && n.frame.connected == m.frame.connected && n.frame.err == m.frame.err
    && n.frame.width == m.frame.width && n.frame.height == m.frame.height
  }

  lemma KeyKeepsFrame(m: Model, key: Key, runes: string, answers: Answers)
    ensures FrameKept(m, UpdateKey(m, key, runes, answers).0)
  {
    match m.view
    case AnalyticsView => AnalyticsKeyKeepsFrame(m, key, answers);
    case InspectView => InspectKeyKeepsFrame(m, key, answers);
    case ListView =>
      ListKeyKeepsFrame(m, key, answers);
      SearchKeyKeepsFrame(m, key, runes, answers);
  }

  lemma AnalyticsKeyKeepsFrame(m: Model, key: Key, answers: Answers)
    ensures FrameKept(m, UpdateAnalytics(m, key, answers).0)
  {
  }

  lemma InspectKeyKeepsFrame(m: Model, key: Key, answers: Answers)
    ensures FrameKept(m, UpdateInspect(m, key, answers).0)
  {
  }

  lemma SearchKeyKeepsFrame(m: Model, key: Key, runes: string, answers: Answers)
    ensures FrameKept(m, UpdateSearch(m, key, runes, answers).0)
  {
  }

  lemma ListKeyKeepsFrame(m: Model, key: Key, answers: Answers)
    ensures FrameKept(m, UpdateList(m, key, answers).0)
  {
  }

  lemma FrameStep(m: Model, msg: Msg, answers: Answers)
    ensures var n := Update(m, msg, answers).0;
      && n.frame.connected == (m.frame.connected || msg.Connected?)
      && (n.frame.width, n.frame.height)
         == (if msg.WindowSize? then (msg.width, msg.height) else (m.frame.width, m.frame.height))
      && n.frame.err
         == (if msg.Failed? then Some(msg.text)
             else if msg.ReplayResult? && msg.err.Some? then msg.err
             else m.frame.err)
  {
    match msg
    case KeyPressed(key, runes) => KeyKeepsFrame(Quieted(m), key, runes, answers);
    case _ =>
  }

  /** The size a run ends with: that of its last size message, if any. */
  function SizeAfter(size: (int, int), inputs: seq<Input>): (int, int)
    decreases |inputs|
  {
    if inputs == [] then size
    else
      var msg := MsgOf(inputs[0]);
      SizeAfter(if msg.WindowSize? then (msg.width, msg.height) else size, inputs[1..])
  }

  predicate ConnectsIn(inputs: seq<Input>) {
    exists i :: 0 <= i < |inputs| && MsgOf(inputs[i]).Connected?
  }

  lemma {:induction false} FrameFollows(s: Session, inputs: seq<Input>)
    requires Admissible(s, inputs)
    ensures var f := Exec(s, inputs).m.frame;
      && f.connected == (s.m.frame.connected || ConnectsIn(inputs))
      && (f.width, f.height) == SizeAfter((s.m.frame.width, s.m.frame.height), inputs)
    decreases |inputs|
  {
    if inputs != [] {
      NextModel(s, inputs[0]);
      FrameStep(s.m, MsgOf(inputs[0]), AnswersOf(inputs[0]));
      FrameFollows(Next(s, inputs[0]), inputs[1..]);
      ConnectsFirstOrLater(inputs);
    }
  }

  lemma ConnectsFirstOrLater(inputs: seq<Input>)
    requires inputs != []
    ensures ConnectsIn(inputs) <==> MsgOf(inputs[0]).Connected? || ConnectsIn(inputs[1..])
  {
    if ConnectsIn(inputs[1..]) {
      var i :| 0 <= i < |inputs[1..]| && MsgOf(inputs[1..][i]).Connected?;
      assert inputs[i + 1] == inputs[1..][i];
    }
    if ConnectsIn(inputs) {
      var i :| 0 <= i < |inputs| && MsgOf(inputs[i]).Connected?;
      assert i > 0 ==> inputs[1..][i - 1] == inputs[i];
    }
  }
}
