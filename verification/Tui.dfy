/** The Bubble Tea model of the TUI: Update and what it calls, as functions on the model value. */
module Tui {
  import opened Events
  import opened Filtering
  import opened Sorting
  import opened Aggregation

  datatype ViewMode = ListView | InspectView | AnalyticsView

  datatype AnalyticsSort = TotalDuration | Count | AvgDuration | ErrorRate

  /** The fields of the source's Model that decide what the list shows. */
  datatype ListState = ListState(
    events: seq<TapEvent>,
    cursor: int,
    follow: bool,
    searchQuery: string,
    sortMode: SortMode,
    filterErrors: bool,
    displayRows: seq<nat>)

  /** Its analytics fields. */
  datatype AnalyticsState = AnalyticsState(rows: seq<AnalyticsRow>, cursor: int, sort: AnalyticsSort)

  /** Its alert fields. */
  datatype AlertState = AlertState(message: string, number: nat)

  /** Its window, connection and inspector fields. */
  datatype FrameState = FrameState(
    connected: bool, width: int, height: int, err: Option<string>, inspectScroll: int, inspectStatus: string)

  datatype Model = Model(
    list: ListState,
    view: ViewMode,
    searchMode: bool,
    writeMode: bool,
    replayEventID: string,
    analytics: AnalyticsState,
    alert: AlertState,
    frame: FrameState)

  /** tea.KeyMsg.String(), as far as Update distinguishes it. */
  datatype Key =
    | CtrlC | CtrlD | CtrlU | Enter | Esc | Backspace | Up | Down | PageUp | PageDown
    | Char(c: char)
    | OtherKey

  datatype Msg =
    | Connected
    | EventArrived(ev: TapEvent)
    | ReplayResult(eventID: string, err: Option<string>)
    | ExportResult(path: string, err: Option<string>)
    | ClearStatus
    | ClearAlert(number: nat)
    | Failed(text: string)
    | KeyPressed(key: Key, runes: string)
    | WindowSize(width: int, height: int)

  datatype Format = Json | Markdown

  datatype Cmd =
    | NoCmd
    | RecvEvent
    | Quit
    | RunExport(events: seq<TapEvent>, query: string, errorsOnly: bool, format: Format)
    | Tick(number: nat)
    | EditAndResend(ev: TapEvent)

  /** What Update asks of code outside it: the library's sorts, whether copying to the
      clipboard worked, and how many lines the inspector would draw. */
  datatype Answers = Answers(rows: seq<nat>, analytics: seq<AnalyticsRow>, copied: bool, lines: int)

  /** tui.New */
  function New(): Model {
    Model(ListState([], 0, false, "", Chronological, false, []), ListView, false, false, "",
          AnalyticsState([], 0, TotalDuration), AlertState("", 0), FrameState(false, 0, 0, None, 0, ""))
  }

  function Max(a: int, b: int): int {
    if a >= b then a else b
  }

  function Min(a: int, b: int): int {
    if a <= b then a else b
  }

  function LastIndex(n: nat): int {
    Max(n - 1, 0)
  }

  function ListHeight(height: int): int {
    Max(height - 8, 3)
  }

  function AnalyticsVisibleRows(height: int): int {
    Max(height - 4, 3)
  }

  // ---------------------------------------------------------------- rows and cursor

  /** rebuildDisplayRows */
  function Rebuilt(l: ListState, answer: seq<nat>): seq<nat> {
    var rows := FilteredRows(l.events, l.searchQuery, l.filterErrors);
    if l.sortMode == ByDuration then Sorted(rows, DurationKey(l.events), answer) else rows
  }

  method RebuildDisplayRows(l: ListState, answer: seq<nat>) returns (rows: seq<nat>)
    ensures rows == Rebuilt(l, answer)
  {
    rows := CollectRows(l.events, l.searchQuery, l.filterErrors);
    if l.sortMode == ByDuration {
      rows := Sorted(rows, DurationKey(l.events), answer);
    }
  }

  function WithRows(l: ListState, answer: seq<nat>): ListState {
    l.(displayRows := Rebuilt(l, answer))
  }

  function CursorToEnd(l: ListState): ListState {
    l.(cursor := LastIndex(|l.displayRows|))
  }

  function CursorClamped(l: ListState): ListState {
    l.(cursor := Min(l.cursor, LastIndex(|l.displayRows|)))
  }

  /** cursorEvent, whose second index Go checks by panicking. */
  datatype Lookup = Nothing | Found(ev: TapEvent) | IndexPanic

  function CursorEvent(l: ListState): Lookup {
    if l.cursor < 0 || l.cursor >= |l.displayRows| then Nothing
    else if l.displayRows[l.cursor] >= |l.events| then IndexPanic
    else Found(l.events[l.displayRows[l.cursor]])
  }

  function FollowAtEnd(l: ListState): ListState {
    if |l.displayRows| > 0 && l.cursor == |l.displayRows| - 1 then l.(follow := true) else l
  }

  function CursorDown(l: ListState): ListState {
    FollowAtEnd(if |l.displayRows| > 0 && l.cursor < |l.displayRows| - 1 then l.(cursor := l.cursor + 1) else l)
  }

  function CursorUp(l: ListState): ListState {
    if l.cursor > 0 then l.(cursor := l.cursor - 1, follow := false) else l
  }

  function CursorPageDown(l: ListState, half: int): ListState {
    FollowAtEnd(l.(cursor := Min(l.cursor + half, LastIndex(|l.displayRows|))))
  }

  function CursorPageUp(l: ListState, half: int): ListState {
    l.(cursor := Max(l.cursor - half, 0), follow := false)
  }

  function ToggleSort(l: ListState, answer: seq<nat>): ListState {
    var toggled := match l.sortMode
      case Chronological => l.(sortMode := ByDuration, follow := false)
      case ByDuration => l.(sortMode := Chronological);
    WithRows(toggled, answer).(cursor := 0)
  }

  function ToggleErrors(l: ListState, answer: seq<nat>): ListState {
    CursorClamped(WithRows(l.(filterErrors := !l.filterErrors), answer))
  }

  function Searched(l: ListState, query: string, answer: seq<nat>): ListState {
    CursorClamped(WithRows(l.(searchQuery := query), answer))
  }

  function ClearFilter(l: ListState, answer: seq<nat>): ListState {
    if l.searchQuery != "" then Searched(l, "", answer) else l
  }

  /** What eventMsg does to the list when the event is not the awaited replay. */
  function ArrivedInList(l: ListState, ev: TapEvent, answer: seq<nat>): ListState {
    var rebuilt := WithRows(l.(events := l.events + [ev]), answer);
    if l.follow then CursorToEnd(rebuilt) else rebuilt
  }

  function BackInList(l: ListState, answer: seq<nat>): ListState {
    var rebuilt := WithRows(l, answer);
    if l.follow then CursorToEnd(rebuilt) else rebuilt
  }

  // ---------------------------------------------------------------- Update

  function ShowAlert(m: Model, text: string): (Model, Cmd) {
    (m.(alert := AlertState(text, m.alert.number + 1)), Tick(m.alert.number + 1))
  }

  function Update(m: Model, msg: Msg, answers: Answers): (Model, Cmd) {
    match msg
    case Connected => (m.(frame := m.frame.(connected := true)), RecvEvent)
    case EventArrived(ev) => (Arrived(m, ev, answers), RecvEvent)
    case ReplayResult(id, err) =>
      (if err.Some? then m.(frame := m.frame.(err := err)) else m.(replayEventID := id), NoCmd)
    case ExportResult(path, err) =>
      ShowAlert(m, if err.Some? then "write error: " + err.value else "wrote: ./" + path)
    case ClearStatus => (m.(frame := m.frame.(inspectStatus := "")), NoCmd)
    case ClearAlert(number) =>
      (if number == m.alert.number then m.(alert := m.alert.(message := "")) else m, NoCmd)
    case Failed(text) => (m.(frame := m.frame.(err := Some(text))), NoCmd)
    case KeyPressed(key, runes) => UpdateKey(m.(alert := m.alert.(message := "")), key, runes, answers)
    case WindowSize(width, height) => (m.(frame := m.frame.(width := width, height := height)), NoCmd)
  }

  predicate Awaited(m: Model, ev: TapEvent) {
    m.replayEventID != "" && ev.id == m.replayEventID
  }

  /** eventMsg: the awaited replay opens the inspector; elsewhere only the list view rebuilds. */
  function Arrived(m: Model, ev: TapEvent, answers: Answers): Model {
    if Awaited(m, ev) then
      m.(list := CursorToEnd(WithRows(m.list.(events := m.list.events + [ev]), answers.rows)),
         replayEventID := "", view := InspectView, frame := m.frame.(inspectScroll := 0))
    else if m.view == ListView then
      m.(list := ArrivedInList(m.list, ev, answers.rows))
    else
      m.(list := m.list.(events := m.list.events + [ev]))
  }

  function UpdateKey(m: Model, key: Key, runes: string, answers: Answers): (Model, Cmd) {
    match m.view
    case AnalyticsView => UpdateAnalytics(m, key, answers)
    case InspectView => UpdateInspect(m, key, answers)
    case ListView =>
      if m.writeMode then UpdateWrite(m, key)
      else if m.searchMode then UpdateSearch(m, key, runes, answers)
      else UpdateList(m, key, answers)
  }

  function UpdateList(m: Model, key: Key, answers: Answers): (Model, Cmd) {
    var half := Max(ListHeight(m.frame.height) / 2, 1);
    match key
    case CtrlC => (m, Quit)
    case Enter =>
      (if |m.list.displayRows| > 0 then m.(view := InspectView, frame := m.frame.(inspectScroll := 0)) else m, NoCmd)
    case Esc => (m.(list := ClearFilter(m.list, answers.rows)), NoCmd)
    case Down => (m.(list := CursorDown(m.list)), NoCmd)
    case Up => (m.(list := CursorUp(m.list)), NoCmd)
    case CtrlD => (m.(list := CursorPageDown(m.list, half)), NoCmd)
    case PageDown => (m.(list := CursorPageDown(m.list, half)), NoCmd)
    case CtrlU => (m.(list := CursorPageUp(m.list, half)), NoCmd)
    case PageUp => (m.(list := CursorPageUp(m.list, half)), NoCmd)
    case Char(c) => UpdateListLetter(m, c, answers)
    case _ => (m, NoCmd)
  }

  function UpdateListLetter(m: Model, c: char, answers: Answers): (Model, Cmd) {
    if c == 'q' then (m, Quit)
    else if c == '/' then (m.(searchMode := true, list := m.list.(searchQuery := "")), NoCmd)
    else if c == 'e' then (m.(list := ToggleErrors(m.list, answers.rows)), NoCmd)
    else if c == 'a' then (OpenAnalytics(m, answers), NoCmd)
    else if c == 'w' then (m.(writeMode := true), NoCmd)
    else if c == 's' then (m.(list := ToggleSort(m.list, answers.rows)), NoCmd)
    else if c == 'j' then (m.(list := CursorDown(m.list)), NoCmd)
    else if c == 'k' then (m.(list := CursorUp(m.list)), NoCmd)
    else (m, NoCmd)
  }

  function UpdateSearch(m: Model, key: Key, runes: string, answers: Answers): (Model, Cmd) {
    var query := m.list.searchQuery;
    match key
    case Enter => (m.(searchMode := false), NoCmd)
    case Esc => (m.(searchMode := false, list := Searched(m.list, "", answers.rows)), NoCmd)
    case Backspace =>
      (if |query| > 0 then m.(list := Searched(m.list, query[..|query| - 1], answers.rows)) else m, NoCmd)
    case CtrlC => (m, Quit)
    case _ =>
      (if runes == "" then m else m.(list := Searched(m.list, query + runes, answers.rows)), NoCmd)
  }

  function UpdateWrite(m: Model, key: Key): (Model, Cmd) {
    var l := m.list;
    var cmd :=
      if key == Char('j') then RunExport(l.events, l.searchQuery, l.filterErrors, Json)
      else if key == Char('m') then RunExport(l.events, l.searchQuery, l.filterErrors, Markdown)
      else NoCmd;
    (m.(writeMode := false), cmd)
  }

  // ---------------------------------------------------------------- the inspector

  function BackToList(m: Model, answers: Answers): Model {
    m.(view := ListView, list := BackInList(m.list, answers.rows))
  }

  function UpdateInspect(m: Model, key: Key, answers: Answers): (Model, Cmd) {
    match key
    case CtrlC => (m, Quit)
    case Down => (ScrollDown(m, answers), NoCmd)
    case Up => (ScrollUp(m), NoCmd)
    case Char(c) =>
      if c == 'q' then (BackToList(m, answers), NoCmd)
      else if c == 'j' then (ScrollDown(m, answers), NoCmd)
      else if c == 'k' then (ScrollUp(m), NoCmd)
      else if !CursorEvent(m.list).Found? then (m, NoCmd)
      else InspectEvent(m, c, CursorEvent(m.list).ev, answers)
    case _ => (m, NoCmd)
  }

  function InspectEvent(m: Model, c: char, ev: TapEvent, answers: Answers): (Model, Cmd) {
    if c == 'e' && m.frame.connected then (m, EditAndResend(ev))
    else if c == 'c' && ev.requestBody != [] then
      ShowAlert(m, if answers.copied then "Request copied!" else "Copy failed")
    else if c == 'C' && ev.responseBody != [] then
      ShowAlert(m, if answers.copied then "Response copied!" else "Copy failed")
    else (m, NoCmd)
  }

  function ScrollDown(m: Model, answers: Answers): Model {
    var scroll := m.frame.inspectScroll;
    if CursorEvent(m.list).Found? && scroll < Max(answers.lines - (m.frame.height - 2), 0)
    then m.(frame := m.frame.(inspectScroll := scroll + 1))
    else m
  }

  function ScrollUp(m: Model): Model {
    if m.frame.inspectScroll > 0 then m.(frame := m.frame.(inspectScroll := m.frame.inspectScroll - 1)) else m
  }

  // ---------------------------------------------------------------- analytics

  /** errorRate, a percentage; exact here. */
  function Rate(row: AnalyticsRow): real {
    if row.count == 0 then 0.0 else row.errors as real / row.count as real * 100.0
  }

  function SortKey(mode: AnalyticsSort): AnalyticsRow -> real {
    (row: AnalyticsRow) =>
      match mode
      case TotalDuration => row.totalDuration as real
      case Count => row.count as real
      case AvgDuration => row.avgDuration as real
      case ErrorRate => Rate(row)
  }

  function NextSort(mode: AnalyticsSort): AnalyticsSort {
    match mode
    case TotalDuration => Count
    case Count => AvgDuration
    case AvgDuration => ErrorRate
    case ErrorRate => TotalDuration
  }

  /** buildAnalyticsRows, then sortAnalyticsRows. */
  function BuiltAnalytics(events: seq<TapEvent>, sort: AnalyticsSort, answer: seq<AnalyticsRow>): AnalyticsState {
    AnalyticsState(Sorted(AnalyticsRows(Keyed(Samples(events))), SortKey(sort), answer), 0, sort)
  }

  function Resorted(s: AnalyticsState, answer: seq<AnalyticsRow>): AnalyticsState {
    AnalyticsState(Sorted(s.rows, SortKey(NextSort(s.sort)), answer), 0, NextSort(s.sort))
  }

  function OpenAnalytics(m: Model, answers: Answers): Model {
    m.(view := AnalyticsView, analytics := BuiltAnalytics(m.list.events, m.analytics.sort, answers.analytics))
  }

  function UpdateAnalytics(m: Model, key: Key, answers: Answers): (Model, Cmd) {
    if key == CtrlC then (m, Quit)
    else if key == Char('q') then (BackToList(m, answers), NoCmd)
    else (m.(analytics := AnalyticsKey(m.analytics, key, AnalyticsVisibleRows(m.frame.height) / 2, answers)), NoCmd)
  }

  function AnalyticsKey(s: AnalyticsState, key: Key, half: int, answers: Answers): AnalyticsState {
    if key == Down || key == Char('j') then
      if |s.rows| > 0 && s.cursor < |s.rows| - 1 then s.(cursor := s.cursor + 1) else s
    else if key == Up || key == Char('k') then
      if s.cursor > 0 then s.(cursor := s.cursor - 1) else s
    else if key == CtrlD || key == PageDown then s.(cursor := Min(s.cursor + half, LastIndex(|s.rows|)))
    else if key == CtrlU || key == PageUp then s.(cursor := Max(s.cursor - half, 0))
    else if key == Char('s') then Resorted(s, answers.analytics)
    else s
  }

  // ---------------------------------------------------------------- the drawn window

  datatype Window = Window(start: int, end: int)

  /** The window arithmetic of renderListView and renderAnalytics, for a frame of height rows
      of which one is the header. */
  function DrawnWindow(height: int, cursor: int, n: nat): (w: Window)
    ensures 0 <= cursor <= LastIndex(n) ==>
      && 0 <= w.start <= w.end <= n
      && (n > 0 ==> w.start <= cursor < w.end)
      && w.end - w.start == Min(Max(height - 1, 1), n)
  {
    var dataRows := Max(height - 1, 1);
    var start :=
      if n > dataRows then
        var centred := Max(cursor - dataRows / 2, 0);
        if centred + dataRows > n then n - dataRows else centred
      else 0;
    Window(start, Min(start + dataRows, n))
  }
}
