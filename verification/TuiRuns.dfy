/** What holds over every run of messages from tui.New. */
module TuiRuns {
  import opened Events
  import opened Filtering
  import opened Sorting
  import opened Tui
  import opened TuiInvariants

  /** A message comes from outside, or a pending alert timer fires. */
  datatype Input = Deliver(msg: Msg, answers: Answers) | Fire(number: nat)

  /** The model with its pending timers and two histories: the alerts raised so far, and whether
      '/' was pressed since the rows were last rebuilt. */
  datatype Session = Session(m: Model, timers: multiset<nat>, alerts: seq<string>, slashed: bool)

  function Start(): Session {
    Session(New(), multiset{}, [], false)
  }

  predicate Enabled(s: Session, input: Input) {
    match input
    case Deliver(msg, _) => !msg.ClearAlert?
    case Fire(number) => number in s.timers
  }

  predicate IsSlash(m: Model, msg: Msg) {
    m.view == ListView && !m.writeMode && !m.searchMode && msg.KeyPressed? && msg.key == Char('/')
  }

  /** The messages on which Update calls rebuildDisplayRows. */
  predicate Rebuilds(m: Model, msg: Msg) {
    match msg
    case EventArrived(ev) => Awaited(m, ev) || m.view == ListView
    case KeyPressed(key, runes) =>
      if m.view != ListView then key == Char('q')
      else if m.writeMode then false
      else if m.searchMode then
        key == Esc || (key == Backspace && m.list.searchQuery != "")
        || (key != Enter && key != Backspace && key != CtrlC && runes != "")
      else key == Char('e') || key == Char('s') || (key == Esc && m.list.searchQuery != "")
    case _ => false
  }

  function Next(s: Session, input: Input): Session
    requires Enabled(s, input)
  {
    match input
    case Deliver(msg, answers) =>
      var (n, cmd) := Update(s.m, msg, answers);
      Session(n,
              if cmd.Tick? then s.timers + multiset{cmd.number} else s.timers,
              if cmd.Tick? then s.alerts + [n.alert.message] else s.alerts,
              if IsSlash(s.m, msg) then true else if Rebuilds(s.m, msg) then false else s.slashed)
    case Fire(number) =>
      s.(m := Update(s.m, ClearAlert(number), Answers([], [], false, 0)).0, timers := s.timers - multiset{number})
  }

  predicate Admissible(s: Session, inputs: seq<Input>)
    decreases |inputs|
  {
    inputs == [] || (Enabled(s, inputs[0]) && Admissible(Next(s, inputs[0]), inputs[1..]))
  }

  function Exec(s: Session, inputs: seq<Input>): Session
    requires Admissible(s, inputs)
    decreases |inputs|
  {
    if inputs == [] then s else Exec(Next(s, inputs[0]), inputs[1..])
  }

  /** The message an input makes Update handle. */
  function MsgOf(input: Input): Msg {
    match input
    case Deliver(msg, _) => msg
    case Fire(number) => ClearAlert(number)
  }

  function AnswersOf(input: Input): Answers {
    match input
    case Deliver(_, answers) => answers
    case Fire(_) => Answers([], [], false, 0)
  }

  lemma NextModel(s: Session, input: Input)
    requires Enabled(s, input)
    ensures Next(s, input).m == Update(s.m, MsgOf(input), AnswersOf(input)).0
  {
  }

  // ---------------------------------------------------------------- rows, cursor and window

  /** In the list view, rows are complete unless '/' was pressed since the last rebuild. */
  ghost predicate FreshUnlessSlashed(s: Session) {
    s.m.view == ListView && !s.slashed ==> Fresh(s.m.list)
  }

  ghost predicate SameRows(l: ListState, n: ListState) {
    && n.events == l.events && n.searchQuery == l.searchQuery && n.filterErrors == l.filterErrors
    && n.sortMode == l.sortMode && n.displayRows == l.displayRows
  }

  /** The rows of n are those a rebuild of n gives. */
  predicate RowsRebuilt(n: ListState, answer: seq<nat>) {
    n.displayRows == Rebuilt(n, answer)
  }

  lemma RebuiltIsFresh(n: ListState, answer: seq<nat>)
    requires RowsRebuilt(n, answer)
    ensures Fresh(n)
  {
    RebuildIsFresh(n, answer);
    assert WithRows(n, answer) == n;
  }

  lemma TogglesRebuild(l: ListState, answer: seq<nat>)
    ensures Fresh(ToggleErrors(l, answer)) && Fresh(ToggleSort(l, answer))
  {
    RebuiltIsFresh(ToggleErrors(l, answer), answer);
    RebuiltIsFresh(ToggleSort(l, answer), answer);
  }

  lemma SearchRebuilds(l: ListState, query: string, answer: seq<nat>)
    ensures Fresh(Searched(l, query, answer))
  {
    RebuiltIsFresh(Searched(l, query, answer), answer);
  }

  lemma ListKeyEffect(m: Model, answers: Answers)
    ensures UpdateList(m, Char('e'), answers).0.list == ToggleErrors(m.list, answers.rows)
    ensures UpdateList(m, Char('s'), answers).0.list == ToggleSort(m.list, answers.rows)
    ensures UpdateList(m, Esc, answers).0.list == ClearFilter(m.list, answers.rows)
  {
  }

  lemma ClearRebuilds(l: ListState, answer: seq<nat>)
    requires l.searchQuery != ""
    ensures Fresh(ClearFilter(l, answer))
  {
    SearchRebuilds(l, "", answer);
  }

  lemma ListKeyRebuilds(m: Model, key: Key, answers: Answers)
    requires key == Char('e') || key == Char('s') || (key == Esc && m.list.searchQuery != "")
    ensures Fresh(UpdateList(m, key, answers).0.list)
  {
    ListKeyEffect(m, answers);
    TogglesRebuild(m.list, answers.rows);
    if key == Esc {
      ClearRebuilds(m.list, answers.rows);
    }
  }

  lemma SearchKeyRebuilds(m: Model, key: Key, runes: string, answers: Answers)
    requires key == Esc || (key == Backspace && m.list.searchQuery != "")
      || (key != Enter && key != Backspace && key != CtrlC && runes != "")
    ensures Fresh(UpdateSearch(m, key, runes, answers).0.list)
  {
    RebuiltIsFresh(UpdateSearch(m, key, runes, answers).0.list, answers.rows);
  }

  lemma ArrivalRebuilds(m: Model, ev: TapEvent, answers: Answers)
    requires Awaited(m, ev) || m.view == ListView
    ensures Fresh(Arrived(m, ev, answers).list)
  {
    RebuiltIsFresh(Arrived(m, ev, answers).list, answers.rows);
  }

  lemma BackKeyRebuilds(m: Model, key: Key, answers: Answers)
    requires key == Char('q')
    ensures Fresh(UpdateInspect(m, key, answers).0.list) && Fresh(UpdateAnalytics(m, key, answers).0.list)
  {
    RebuiltIsFresh(BackToList(m, answers).list, answers.rows);
  }

  lemma KeyRebuilds(m: Model, key: Key, runes: string, answers: Answers)
    requires Rebuilds(m, KeyPressed(key, runes))
    ensures Fresh(UpdateKey(m, key, runes, answers).0.list)
  {
    if m.view != ListView {
      BackKeyRebuilds(m, key, answers);
    } else if m.searchMode {
      SearchKeyRebuilds(m, key, runes, answers);
    } else {
      ListKeyRebuilds(m, key, answers);
    }
  }

  lemma RebuildsMeansFresh(m: Model, msg: Msg, answers: Answers)
    requires Rebuilds(m, msg)
    ensures Fresh(Update(m, msg, answers).0.list)
  {
    match msg
    case EventArrived(ev) => ArrivalRebuilds(m, ev, answers);
    case KeyPressed(key, runes) =>
      KeyRebuilds(m.(alert := m.alert.(message := "")), key, runes, answers);
  }

  lemma QuietListKey(m: Model, key: Key, answers: Answers)
    requires !(key == Char('e') || key == Char('s') || (key == Esc && m.list.searchQuery != "")) && key != Char('/')
    ensures SameRows(m.list, UpdateList(m, key, answers).0.list)
  {
  }

  lemma QuietSearchKey(m: Model, key: Key, runes: string, answers: Answers)
    requires !(key == Esc || (key == Backspace && m.list.searchQuery != "")
      || (key != Enter && key != Backspace && key != CtrlC && runes != ""))
    ensures SameRows(m.list, UpdateSearch(m, key, runes, answers).0.list)
  {
  }

  lemma QuietElsewhere(m: Model, key: Key, answers: Answers)
    requires key != Char('q')
    ensures UpdateInspect(m, key, answers).0.view == m.view && UpdateInspect(m, key, answers).0.list == m.list
    ensures UpdateAnalytics(m, key, answers).0.view == m.view
  {
  }

  lemma QuietMessage(m: Model, msg: Msg, answers: Answers)
    requires !msg.EventArrived? && !msg.KeyPressed?
    ensures var n := Update(m, msg, answers).0; n.view == m.view && n.list == m.list
  {
  }

  /** Without a rebuild and without '/', the list view is entered from itself, rows unchanged. */
  lemma QuietKeepsRows(m: Model, msg: Msg, answers: Answers)
    requires !Rebuilds(m, msg) && !IsSlash(m, msg)
    ensures var n := Update(m, msg, answers).0;
      n.view == ListView ==> m.view == ListView && SameRows(m.list, n.list)
  {
    match msg
    case EventArrived(_) =>
    case KeyPressed(key, runes) =>
      var k := m.(alert := m.alert.(message := ""));
      if m.view != ListView {
        QuietElsewhere(k, key, answers);
      } else if m.writeMode {
      } else if m.searchMode {
        QuietSearchKey(k, key, runes, answers);
      } else {
        QuietListKey(k, key, answers);
      }
    case _ => QuietMessage(m, msg, answers);
  }

  lemma StepKeepsFreshness(s: Session, input: Input)
    requires FreshUnlessSlashed(s) && Enabled(s, input)
    ensures FreshUnlessSlashed(Next(s, input))
  {
    NextModel(s, input);
    if Rebuilds(s.m, MsgOf(input)) {
      RebuildsMeansFresh(s.m, MsgOf(input), AnswersOf(input));
    } else if !IsSlash(s.m, MsgOf(input)) {
      QuietKeepsRows(s.m, MsgOf(input), AnswersOf(input));
    }
  }

  lemma {:induction false} RunKeepsRows(s: Session, inputs: seq<Input>)
    requires Inv(s.m) && FreshUnlessSlashed(s) && Admissible(s, inputs)
    ensures Inv(Exec(s, inputs).m) && FreshUnlessSlashed(Exec(s, inputs))
    decreases |inputs|
  {
    if inputs != [] {
      NextModel(s, inputs[0]);
      UpdateKeepsInv(s.m, MsgOf(inputs[0]), AnswersOf(inputs[0]));
      StepKeepsFreshness(s, inputs[0]);
      RunKeepsRows(Next(s, inputs[0]), inputs[1..]);
    }
  }

  lemma StartInv()
    ensures Inv(New()) && FreshUnlessSlashed(Start())
  {
  }

  /** In every reachable state the rows are sound, ordered and distinct. */
  lemma RowsAlwaysSound(inputs: seq<Input>)
    requires Admissible(Start(), inputs)
    ensures var l := Exec(Start(), inputs).m.list;
      && InRange(l.displayRows, |l.events|)
      && (forall i :: 0 <= i < |l.displayRows| && l.displayRows[i] < |l.events| ==>
            Matches(l.events[l.displayRows[i]], l.searchQuery, l.filterErrors))
      && (forall i, j :: 0 <= i < j < |l.displayRows| ==> l.displayRows[i] != l.displayRows[j])
      && Ordered(l.sortMode, l.events, l.displayRows)
  {
    StartInv();
    RunKeepsRows(Start(), inputs);
    var l := Exec(Start(), inputs).m.list;
    ListedIsSound(l.events, l.searchQuery, l.filterErrors, l.sortMode, l.displayRows);
    ListedIsDistinct(l.events, l.searchQuery, l.filterErrors, l.sortMode, l.displayRows);
  }

  /** In the list view they are also complete, unless '/' was pressed since the last rebuild. */
  lemma RowsCompleteUnlessSlashed(inputs: seq<Input>)
    requires Admissible(Start(), inputs)
    requires var s := Exec(Start(), inputs); s.m.view == ListView && !s.slashed
    ensures var l := Exec(Start(), inputs).m.list;
      && Fresh(l)
      && forall i: nat :: i in l.displayRows <==>
           i < |l.events| && Matches(l.events[i], l.searchQuery, l.filterErrors)
  {
    StartInv();
    RunKeepsRows(Start(), inputs);
    var l := Exec(Start(), inputs).m.list;
    RowsAreExact(l.events, l.searchQuery, l.filterErrors);
    forall i: nat ensures i in l.displayRows <==> i in FilteredRows(l.events, l.searchQuery, l.filterErrors) {
      assert i in l.displayRows <==> i in multiset(l.displayRows);
    }
  }

  /** What '/' loses: complete rows stay complete exactly when every event that passes the error
      filter matched the query being replaced. */
  lemma SlashStaysCompleteIff(l: ListState)
    requires Fresh(l)
    ensures Fresh(l.(searchQuery := ""))
      <==> forall i :: 0 <= i < |l.events| && (l.filterErrors ==> IsError(l.events[i])) ==>
             MatchesQuery(l.events[i], l.searchQuery)
  {
    var narrow := FilteredRows(l.events, l.searchQuery, l.filterErrors);
    var wide := FilteredRows(l.events, "", l.filterErrors);
    RowsAreExact(l.events, l.searchQuery, l.filterErrors);
    RowsAreExact(l.events, "", l.filterErrors);
    if forall i :: 0 <= i < |l.events| && (l.filterErrors ==> IsError(l.events[i])) ==>
         MatchesQuery(l.events[i], l.searchQuery) {
      SameMatchesSameRows(l.events, l.searchQuery, l.filterErrors);
    } else {
      var i :| 0 <= i < |l.events| && (l.filterErrors ==> IsError(l.events[i]))
               && !MatchesQuery(l.events[i], l.searchQuery);
      EmptyQueryMatches(l.events[i]);
      assert i in wide && i !in narrow;
      assert i in multiset(wide) && i !in multiset(narrow);
    }
  }

  lemma ExecCons(s: Session, input: Input, rest: seq<Input>)
    requires Enabled(s, input) && Admissible(Next(s, input), rest)
    ensures Admissible(s, [input] + rest) && Exec(s, [input] + rest) == Exec(Next(s, input), rest)
  {
    assert ([input] + rest)[1..] == rest;
  }

  const SLASH: Msg := KeyPressed(Char('/'), "/")

  /** '/', a query, Enter; then an event that does not match; then '/' again. */
  function HidingRun(query: string, ev: TapEvent, answers: Answers): seq<Input> {
    [Deliver(SLASH, answers)]
    + ([Deliver(KeyPressed(OtherKey, query), answers)]
    + ([Deliver(KeyPressed(Enter, ""), answers)]
    + ([Deliver(EventArrived(ev), answers)]
    + ([Deliver(SLASH, answers)]
    + []))))
  }

  /** The model with a query typed, and some events that it hides. */
  function Hiding(query: string, events: seq<TapEvent>, searching: bool): Model {
    New().(searchMode := searching, list := New().list.(events := events, searchQuery := query))
  }

  lemma TypeQuery(query: string, answers: Answers)
    requires query != ""
    ensures Update(Hiding("", [], true), KeyPressed(OtherKey, query), answers).0 == Hiding(query, [], true)
  {
    assert "" + query == query;
  }

  lemma HideArrival(query: string, ev: TapEvent, answers: Answers)
    requires !MatchesQuery(ev, query)
    ensures Update(Hiding(query, [], false), EventArrived(ev), answers).0 == Hiding(query, [ev], false)
  {
    HiddenRows(query, ev, Hiding(query, [], false).list, answers.rows);
  }

  lemma HiddenRows(query: string, ev: TapEvent, l: ListState, answer: seq<nat>)
    requires !MatchesQuery(ev, query) && l == ListState([], 0, false, query, Chronological, false, [])
    ensures ArrivedInList(l, ev, answer) == l.(events := [ev])
  {
    assert [] + [ev] == [ev];
    assert [ev][..0] == [];
    assert FilteredRows([ev], query, false) == [];
  }

  lemma SlashAndEnter(query: string, events: seq<TapEvent>, answers: Answers)
    ensures Update(Hiding(query, events, false), SLASH, answers).0 == Hiding("", events, true)
    ensures Update(Hiding(query, events, true), KeyPressed(Enter, ""), answers).0 == Hiding(query, events, false)
  {
  }

  lemma HidingRunHides(query: string, ev: TapEvent, answers: Answers)
    requires query != "" && !MatchesQuery(ev, query)
    ensures Admissible(Start(), HidingRun(query, ev, answers))
    ensures Exec(Start(), HidingRun(query, ev, answers)).m == Hiding("", [ev], true)
  {
    SlashAndEnter("", [], answers);
    TypeQuery(query, answers);
    SlashAndEnter(query, [], answers);
    HideArrival(query, ev, answers);
    SlashAndEnter(query, [ev], answers);
    var last := [Deliver(SLASH, answers)] + [];
    ModelAfter(Hiding(query, [ev], false), SLASH, answers, [], Hiding("", [ev], true));
    var arrived := [Deliver(EventArrived(ev), answers)] + last;
    ModelAfter(Hiding(query, [], false), EventArrived(ev), answers, last, Hiding("", [ev], true));
    var entered := [Deliver(KeyPressed(Enter, ""), answers)] + arrived;
    ModelAfter(Hiding(query, [], true), KeyPressed(Enter, ""), answers, arrived, Hiding("", [ev], true));
    var typed := [Deliver(KeyPressed(OtherKey, query), answers)] + entered;
    ModelAfter(Hiding("", [], true), KeyPressed(OtherKey, query), answers, entered, Hiding("", [ev], true));
    ModelAfter(Hiding("", [], false), SLASH, answers, typed, Hiding("", [ev], true));
    assert Leads(New(), HidingRun(query, ev, answers), Hiding("", [ev], true));
  }

  /** From any session in model m the inputs are possible and end in model n. */
  ghost predicate Leads(m: Model, inputs: seq<Input>, n: Model) {
    forall s: Session :: s.m == m ==> Admissible(s, inputs) && Exec(s, inputs).m == n
  }

  lemma ModelAfter(m: Model, msg: Msg, answers: Answers, rest: seq<Input>, n: Model)
    requires !msg.ClearAlert?
    requires Leads(Update(m, msg, answers).0, rest, n) || (rest == [] && Update(m, msg, answers).0 == n)
    ensures Leads(m, [Deliver(msg, answers)] + rest, n)
  {
    forall s: Session | s.m == m
      ensures Admissible(s, [Deliver(msg, answers)] + rest) && Exec(s, [Deliver(msg, answers)] + rest).m == n
    {
      NextModel(s, Deliver(msg, answers));
      ExecCons(s, Deliver(msg, answers), rest);
    }
  }

  /** A reachable list that '/' left incomplete: one event, no query, and no rows. */
  lemma SlashCanHideRows(query: string, ev: TapEvent, answers: Answers)
    requires !MatchesQuery(ev, query)
    ensures Admissible(Start(), HidingRun(query, ev, answers))
    ensures var m := Exec(Start(), HidingRun(query, ev, answers)).m;
      && m.view == ListView && m.list.events == [ev] && m.list.displayRows == [] && m.list.searchQuery == ""
      && Matches(ev, m.list.searchQuery, m.list.filterErrors) && !Fresh(m.list)
  {
    EmptyQueryMatches(ev);
    HidingRunHides(query, ev, answers);
    assert [ev][..0] == [];
    assert FilteredRows([ev], "", false) == [0];
  }

  lemma {:induction false} SameMatchesSameRows(events: seq<TapEvent>, query: string, errorsOnly: bool)
    requires forall i :: 0 <= i < |events| && (errorsOnly ==> IsError(events[i])) ==> MatchesQuery(events[i], query)
    ensures FilteredRows(events, query, errorsOnly) == FilteredRows(events, "", errorsOnly)
  {
    if events != [] {
      SameMatchesSameRows(events[..|events| - 1], query, errorsOnly);
      EmptyQueryMatches(events[|events| - 1]);
    }
  }

  /** The cursor is in range in every reachable state, so cursorEvent never panics and finds an
      event exactly when there are rows; the drawn windows contain the cursors. */
  lemma CursorAlwaysSafe(inputs: seq<Input>)
    requires Admissible(Start(), inputs)
    ensures var m := Exec(Start(), inputs).m;
      && 0 <= m.list.cursor <= LastIndex(|m.list.displayRows|)
      && CursorEvent(m.list) != IndexPanic
      && (CursorEvent(m.list) == Nothing <==> m.list.displayRows == [])
      && 0 <= m.analytics.cursor <= LastIndex(|m.analytics.rows|)
      && WindowHolds(DrawnWindow(ListHeight(m.frame.height), m.list.cursor, |m.list.displayRows|),
                     m.list.cursor, |m.list.displayRows|)
      && WindowHolds(DrawnWindow(AnalyticsVisibleRows(m.frame.height), m.analytics.cursor, |m.analytics.rows|),
                     m.analytics.cursor, |m.analytics.rows|)
  {
    StartInv();
    RunKeepsRows(Start(), inputs);
    CursorFinds(Exec(Start(), inputs).m.list);
  }

  lemma CursorFinds(l: ListState)
    requires ListInv(l)
    ensures CursorEvent(l) != IndexPanic
    ensures CursorEvent(l) == Nothing <==> l.displayRows == []
  {
    ListedIsSound(l.events, l.searchQuery, l.filterErrors, l.sortMode, l.displayRows);
  }

  /** The window lies inside the n rows and shows the cursor's row when there is one. */
  predicate WindowHolds(w: Window, cursor: int, n: nat) {
    0 <= w.start <= w.end <= n && (n > 0 ==> w.start <= cursor < w.end)
  }

  /** exported is what the screen shows: the same sequence in chronological mode, the same
      events in duration mode; with those filtered out it makes up all that was captured. */
  ghost predicate ExportShows(l: ListState, exported: seq<TapEvent>) {
    && InRange(l.displayRows, |l.events|)
    && multiset(exported) == multiset(Picked(l.events, l.displayRows))
    && (l.sortMode == Chronological ==> exported == Picked(l.events, l.displayRows))
    && |exported| + |Skipped(l.events, l.searchQuery, l.filterErrors)| == |l.events|
  }

  lemma FreshExport(l: ListState)
    requires Fresh(l)
    ensures ExportShows(l, FilteredEvents(l.events, l.searchQuery, l.filterErrors))
  {
    var rows := FilteredRows(l.events, l.searchQuery, l.filterErrors);
    ListedIsSound(l.events, l.searchQuery, l.filterErrors, l.sortMode, l.displayRows);
    RowsAreExact(l.events, l.searchQuery, l.filterErrors);
    PickedPermutes(l.events, rows, l.displayRows);
    FilterSplits(l.events, l.searchQuery, l.filterErrors);
  }

  lemma IncreasingIsAscending(rows: seq<nat>)
    requires Increasing(rows)
    ensures Ascending(rows)
  {
    forall i, j | 0 <= i < j < |rows| ensures rows[i] <= rows[j] {
      assert rows[i] < rows[j];
    }
  }

  lemma SameSizeIsWhole<T>(a: seq<T>, b: seq<T>)
    requires multiset(a) <= multiset(b) && |a| == |b|
    ensures multiset(a) == multiset(b)
  {
    var missing := multiset(b) - multiset(a);
    assert multiset(b) == multiset(a) + missing;
    assert |multiset(a)| == |a| && |multiset(b)| == |b|;
    assert |missing| == 0;
  }

  lemma WholeIsFresh(l: ListState)
    requires RowsListed(l) && |l.displayRows| == |FilteredRows(l.events, l.searchQuery, l.filterErrors)|
    ensures Fresh(l)
  {
    var rows := FilteredRows(l.events, l.searchQuery, l.filterErrors);
    SameSizeIsWhole(l.displayRows, rows);
    if l.sortMode == Chronological {
      RowsAreExact(l.events, l.searchQuery, l.filterErrors);
      IncreasingIsAscending(l.displayRows);
      IncreasingIsAscending(rows);
      AscendingIsUnique(l.displayRows, rows);
    }
  }

  /** An export agrees with the screen exactly when the rows are complete. */
  lemma ExportShowsIffFresh(l: ListState)
    requires RowsListed(l)
    ensures ExportShows(l, FilteredEvents(l.events, l.searchQuery, l.filterErrors)) <==> Fresh(l)
  {
    var exported := FilteredEvents(l.events, l.searchQuery, l.filterErrors);
    ListedIsSound(l.events, l.searchQuery, l.filterErrors, l.sortMode, l.displayRows);
    if Fresh(l) {
      FreshExport(l);
    }
    if ExportShows(l, exported) {
      assert |multiset(exported)| == |exported|;
      assert |multiset(Picked(l.events, l.displayRows))| == |l.displayRows|;
      WholeIsFresh(l);
    }
  }

  lemma WriteKeyExports(m: Model, key: Key, answers: Answers)
    requires m.view == ListView && m.writeMode && (key == Char('j') || key == Char('m'))
    ensures var cmd := Update(m, KeyPressed(key, ""), answers).1;
      cmd == RunExport(m.list.events, m.list.searchQuery, m.list.filterErrors,
                       if key == Char('j') then Json else Markdown)
  {
  }

  /** Exporting from a complete list writes what is on screen. */
  lemma ExportMatchesScreen(inputs: seq<Input>, key: Key, answers: Answers)
    requires Admissible(Start(), inputs)
    requires var s := Exec(Start(), inputs); s.m.view == ListView && s.m.writeMode && !s.slashed
    requires key == Char('j') || key == Char('m')
    ensures var m := Exec(Start(), inputs).m;
      var cmd := Update(m, KeyPressed(key, ""), answers).1;
      cmd.RunExport? && ExportShows(m.list, FilteredEvents(cmd.events, cmd.query, cmd.errorsOnly))
  {
    StartInv();
    RunKeepsRows(Start(), inputs);
    FreshExport(Exec(Start(), inputs).m.list);
    WriteKeyExports(Exec(Start(), inputs).m, key, answers);
  }

  /** In every reachable state the export agrees with the screen if and only if the list is
      complete, '/' or not. */
  lemma ExportMatchesScreenIff(inputs: seq<Input>, key: Key, answers: Answers)
    requires Admissible(Start(), inputs)
    requires var m := Exec(Start(), inputs).m; m.view == ListView && m.writeMode
    requires key == Char('j') || key == Char('m')
    ensures var m := Exec(Start(), inputs).m;
      var cmd := Update(m, KeyPressed(key, ""), answers).1;
      && cmd.RunExport?
      && (ExportShows(m.list, FilteredEvents(cmd.events, cmd.query, cmd.errorsOnly)) <==> Fresh(m.list))
  {
    StartInv();
    RunKeepsRows(Start(), inputs);
    ExportShowsIffFresh(Exec(Start(), inputs).m.list);
    WriteKeyExports(Exec(Start(), inputs).m, key, answers);
  }
}
