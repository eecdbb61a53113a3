/** Alerts and replay navigation over runs of messages. */
module TuiReplay {
  import opened Events
  import opened Filtering
  import opened Tui
  import opened TuiInvariants
  import opened TuiRuns
  import opened TuiSelection

  // ---------------------------------------------------------------- alerts

  /** Pending timers are numbered apart and no higher than the newest alert; an alert on screen
      is the newest, and its own timer is still to fire. */
  ghost predicate TimersInOrder(s: Session) {
    && |s.alerts| == s.m.alert.number
    && (forall n :: n in s.timers ==> n <= s.m.alert.number && s.timers[n] == 1)
    && (s.m.alert.message != "" ==>
          && s.alerts != [] && s.m.alert.message == s.alerts[|s.alerts| - 1]
          && s.m.alert.number in s.timers)
  }

  /** What Update does to the alert. */
  lemma AlertStep(m: Model, msg: Msg, answers: Answers)
    requires !msg.ClearAlert?
    ensures var (n, cmd) := Update(m, msg, answers);
      if cmd.Tick? then
        cmd.number == m.alert.number + 1 && n.alert.number == cmd.number
      else
        && n.alert.number == m.alert.number && (n.alert.message == m.alert.message || n.alert.message == "")
        && (msg.KeyPressed? ==> n.alert.message == "")
  {
    match msg
    case KeyPressed(key, runes) => AlertKeyStep(m.(alert := m.alert.(message := "")), key, runes, answers);
    case _ =>
  }

  lemma AlertKeyStep(m: Model, key: Key, runes: string, answers: Answers)
    ensures var (n, cmd) := UpdateKey(m, key, runes, answers);
      if cmd.Tick? then cmd.number == m.alert.number + 1 && n.alert.number == cmd.number
      else n.alert == m.alert
  {
    match m.view
    case AnalyticsView =>
    case InspectView => AlertInspectStep(m, key, answers);
    case ListView =>
      AlertListStep(m, key, answers);
      AlertSearchStep(m, key, runes, answers);
  }

  lemma AlertInspectStep(m: Model, key: Key, answers: Answers)
    ensures var (n, cmd) := UpdateInspect(m, key, answers);
      if cmd.Tick? then cmd.number == m.alert.number + 1 && n.alert.number == cmd.number
      else n.alert == m.alert
  {
  }

  lemma AlertListStep(m: Model, key: Key, answers: Answers)
    ensures var (n, cmd) := UpdateList(m, key, answers); !cmd.Tick? && n.alert == m.alert
  {
  }

  lemma AlertSearchStep(m: Model, key: Key, runes: string, answers: Answers)
    ensures var (n, cmd) := UpdateSearch(m, key, runes, answers); !cmd.Tick? && n.alert == m.alert
  {
  }

  lemma StepKeepsTimers(s: Session, input: Input)
    requires TimersInOrder(s) && Enabled(s, input)
    ensures TimersInOrder(Next(s, input))
    ensures s.alerts <= Next(s, input).alerts && s.m.alert.number <= Next(s, input).m.alert.number
  {
    match input
    case Deliver(msg, answers) => AlertStep(s.m, msg, answers);
    case Fire(number) =>
  }

  lemma {:induction false} RunKeepsTimers(s: Session, inputs: seq<Input>)
    requires TimersInOrder(s) && Admissible(s, inputs)
    ensures TimersInOrder(Exec(s, inputs)) && s.alerts <= Exec(s, inputs).alerts
    decreases |inputs|
  {
    if inputs != [] {
      StepKeepsTimers(s, inputs[0]);
      RunKeepsTimers(Next(s, inputs[0]), inputs[1..]);
    }
  }

  /** Over every run: the k-th alert has number k; a firing timer clears exactly its own alert,
      so an older one never clears a newer; and an alert on screen always has a timer to come. */
  lemma TimersClearOnlyTheirOwn(inputs: seq<Input>, number: nat)
    requires Admissible(Start(), inputs)
    requires number in Exec(Start(), inputs).timers
    ensures var s := Exec(Start(), inputs);
      && TimersInOrder(s)
      && number <= s.m.alert.number == |s.alerts|
      && var after := Next(s, Fire(number)).m.alert;
         after == if number == s.m.alert.number then AlertState("", number) else s.m.alert
  {
    RunKeepsTimers(Start(), inputs);
  }

  // ---------------------------------------------------------------- replay navigation

  /** Neither another successful replay result nor the event with this id, if it is one. */
  predicate LeavesAwaiting(msg: Msg, id: string) {
    && !(msg.ReplayResult? && msg.err.None?)
    && (id != "" ==> !(msg.EventArrived? && msg.ev.id == id))
  }

  lemma AwaitingStep(m: Model, msg: Msg, answers: Answers)
    requires LeavesAwaiting(msg, m.replayEventID)
    ensures Update(m, msg, answers).0.replayEventID == m.replayEventID
  {
    match msg
    case KeyPressed(key, runes) => KeysKeepAwaiting(m.(alert := m.alert.(message := "")), key, runes, answers);
    case _ =>
  }

  lemma KeysKeepAwaiting(m: Model, key: Key, runes: string, answers: Answers)
    ensures UpdateKey(m, key, runes, answers).0.replayEventID == m.replayEventID
  {
    match m.view
    case AnalyticsView =>
    case InspectView => InspectKeepsAwaiting(m, key, answers);
    case ListView =>
      ListKeepsAwaiting(m, key, answers);
      SearchKeepsAwaiting(m, key, runes, answers);
  }

  lemma InspectKeepsAwaiting(m: Model, key: Key, answers: Answers)
    ensures UpdateInspect(m, key, answers).0.replayEventID == m.replayEventID
  {
  }

  lemma ListKeepsAwaiting(m: Model, key: Key, answers: Answers)
    ensures UpdateList(m, key, answers).0.replayEventID == m.replayEventID
  {
  }

  lemma SearchKeepsAwaiting(m: Model, key: Key, runes: string, answers: Answers)
    ensures UpdateSearch(m, key, runes, answers).0.replayEventID == m.replayEventID
  {
  }

  /** Whatever is awaited, "" included, stays awaited until its event or another result comes. */
  lemma {:induction false} AwaitingPersists(s: Session, inputs: seq<Input>)
    requires Admissible(s, inputs)
    requires forall i :: 0 <= i < |inputs| ==> LeavesAwaiting(MsgOf(inputs[i]), s.m.replayEventID)
    ensures Exec(s, inputs).m.replayEventID == s.m.replayEventID
    decreases |inputs|
  {
    if inputs != [] {
      NextModel(s, inputs[0]);
      AwaitingStep(s.m, MsgOf(inputs[0]), AnswersOf(inputs[0]));
      AwaitingPersists(Next(s, inputs[0]), inputs[1..]);
    }
  }

  /** The row the inspector opens on when the awaited event arrives. */
  function OpenedRow(m: Model): Option<nat> {
    if 0 <= m.list.cursor < |m.list.displayRows| then Some(m.list.displayRows[m.list.cursor]) else None
  }

  /** In chronological mode the inspector opens on the arriving event exactly when that event
      passes the filters. */
  lemma ArrivalOpensInspector(m: Model, ev: TapEvent, answers: Answers)
    requires Awaited(m, ev)
    ensures var n := Arrived(m, ev, answers);
      && n.view == InspectView && n.replayEventID == "" && n.frame.inspectScroll == 0
      && (m.list.sortMode == Chronological ==>
            (OpenedRow(n) == Some(|m.list.events|) <==> Matches(ev, m.list.searchQuery, m.list.filterErrors)))
      && (OpenedRow(n) == Some(|m.list.events|) ==> CursorEvent(n.list) == Found(ev))
  {
    var l := m.list;
    ArrivalExtendsRows(l.events, ev, l.searchQuery, l.filterErrors);
    RowsAreExact(l.events, l.searchQuery, l.filterErrors);
  }

  /** Some other event that passes the filters took less time than ev. */
  ghost predicate AnotherIsFaster(l: ListState, ev: TapEvent) {
    exists i :: 0 <= i < |l.events| && Matches(l.events[i], l.searchQuery, l.filterErrors)
      && l.events[i].duration < ev.duration
  }

  /** Every other event that passes the filters took longer than ev. */
  ghost predicate OthersAreSlower(l: ListState, ev: TapEvent) {
    forall i :: 0 <= i < |l.events| && Matches(l.events[i], l.searchQuery, l.filterErrors) ==>
      l.events[i].duration > ev.duration
  }

  /** The inspector opens on the arriving event, when the sort answers with the given rows. */
  predicate OpensOnArrival(m: Model, ev: TapEvent, rows: seq<nat>) {
    OpenedRow(Arrived(m, ev, Answers(rows, [], false, 0))) == Some(|m.list.events|)
  }

  /** In duration mode the inspector opens on the last, fastest row. It is the arriving event
      however the sort arranges equal durations exactly when that event is shown and all others
      shown are slower; and it can be exactly when it is shown and no other is faster. */
  lemma ArrivalOpensFastest(m: Model, ev: TapEvent)
    requires Awaited(m, ev) && m.list.sortMode == ByDuration
    ensures (forall rows :: OpensOnArrival(m, ev, rows))
      <==> Matches(ev, m.list.searchQuery, m.list.filterErrors) && OthersAreSlower(m.list, ev)
    ensures (exists rows :: OpensOnArrival(m, ev, rows))
      <==> Matches(ev, m.list.searchQuery, m.list.filterErrors) && !AnotherIsFaster(m.list, ev)
  {
    forall rows | OpensOnArrival(m, ev, rows)
      ensures Matches(ev, m.list.searchQuery, m.list.filterErrors) && !AnotherIsFaster(m.list, ev)
    {
      OpenedIsFastest(m, ev, rows);
    }
    if Matches(ev, m.list.searchQuery, m.list.filterErrors) {
      if OthersAreSlower(m.list, ev) {
        forall rows ensures OpensOnArrival(m, ev, rows) {
          FastestIsOpened(m, ev, rows);
        }
      } else {
        var rows := MissingAnswer(m, ev);
        assert !OpensOnArrival(m, ev, rows);
      }
      if !AnotherIsFaster(m.list, ev) {
        var rows := OpeningAnswer(m, ev);
        assert OpensOnArrival(m, ev, rows);
      }
    } else {
      assert OpensOnArrival(m, ev, []) ==> Matches(ev, m.list.searchQuery, m.list.filterErrors);
    }
  }

  function WithEvent(l: ListState, ev: TapEvent): ListState {
    l.(events := l.events + [ev])
  }

  /** The row opened is the last row of the rebuilt list. */
  lemma OpenedIsLast(m: Model, ev: TapEvent, rows: seq<nat>)
    requires Awaited(m, ev)
    ensures var sorted := Rebuilt(WithEvent(m.list, ev), rows);
      OpensOnArrival(m, ev, rows) <==> sorted != [] && sorted[|sorted| - 1] == |m.list.events|
  {
  }

  lemma OpenedIsFastest(m: Model, ev: TapEvent, rows: seq<nat>)
    requires Awaited(m, ev) && m.list.sortMode == ByDuration && OpensOnArrival(m, ev, rows)
    ensures Matches(ev, m.list.searchQuery, m.list.filterErrors) && !AnotherIsFaster(m.list, ev)
  {
    var got := WithEvent(m.list, ev);
    OpenedIsLast(m, ev, rows);
    RebuildIsFresh(got, rows);
    ShownRow(got, Rebuilt(got, rows), |m.list.events|);
    LastRowOfArrival(m.list, ev, Rebuilt(got, rows));
  }

  lemma FastestIsOpened(m: Model, ev: TapEvent, rows: seq<nat>)
    requires Awaited(m, ev) && m.list.sortMode == ByDuration
    requires Matches(ev, m.list.searchQuery, m.list.filterErrors) && OthersAreSlower(m.list, ev)
    ensures OpensOnArrival(m, ev, rows)
  {
    var got := WithEvent(m.list, ev);
    OpenedIsLast(m, ev, rows);
    RebuildIsFresh(got, rows);
    LastRowOfArrival(m.list, ev, Rebuilt(got, rows));
  }

  /** A shown row that is no slower than any other can be sorted last. */
  lemma LastByTie(l: ListState, i: nat) returns (answer: seq<nat>)
    requires l.sortMode == ByDuration && i < |l.events| && Matches(l.events[i], l.searchQuery, l.filterErrors)
    requires forall j :: 0 <= j < |l.events| && Matches(l.events[j], l.searchQuery, l.filterErrors) ==>
      l.events[i].duration <= l.events[j].duration
    ensures var sorted := Rebuilt(l, answer); sorted != [] && sorted[|sorted| - 1] == i
  {
    var q := PlaceOfFastest(l, i);
    answer := SwapIsAnswer(l, |Rebuilt(l, [])| - 1, q);
  }

  lemma PlaceOfFastest(l: ListState, i: nat) returns (q: nat)
    requires l.sortMode == ByDuration && i < |l.events| && Matches(l.events[i], l.searchQuery, l.filterErrors)
    requires forall j :: 0 <= j < |l.events| && Matches(l.events[j], l.searchQuery, l.filterErrors) ==>
      l.events[i].duration <= l.events[j].duration
    ensures var rows := Rebuilt(l, []);
      && InRange(rows, |l.events|) && q < |rows| && rows[q] == i
      && l.events[rows[|rows| - 1]].duration == l.events[i].duration
  {
    var rows := Rebuilt(l, []);
    RebuildIsFresh(l, []);
    ListedIsSound(l.events, l.searchQuery, l.filterErrors, l.sortMode, rows);
    LastRowIsFastest(l, rows, i);
    ShownRow(l, rows, i);
    q :| 0 <= q < |rows| && rows[q] == i;
  }

  lemma OpeningAnswer(m: Model, ev: TapEvent) returns (rows: seq<nat>)
    requires Awaited(m, ev) && m.list.sortMode == ByDuration
    requires Matches(ev, m.list.searchQuery, m.list.filterErrors) && !AnotherIsFaster(m.list, ev)
    ensures OpensOnArrival(m, ev, rows)
  {
    rows := LastByTie(WithEvent(m.list, ev), |m.list.events|);
    OpenedIsLast(m, ev, rows);
  }

  lemma MissingAnswer(m: Model, ev: TapEvent) returns (rows: seq<nat>)
    requires Awaited(m, ev) && m.list.sortMode == ByDuration
    requires Matches(ev, m.list.searchQuery, m.list.filterErrors) && !OthersAreSlower(m.list, ev)
    ensures !OpensOnArrival(m, ev, rows)
  {
    rows := [];
    if OpensOnArrival(m, ev, []) {
      OpenedIsFastest(m, ev, []);
      var l, got := m.list, WithEvent(m.list, ev);
      var i :| 0 <= i < |l.events| && Matches(l.events[i], l.searchQuery, l.filterErrors)
               && l.events[i].duration <= ev.duration;
      assert got.events[i] == l.events[i];
      rows := LastByTie(got, i);
      OpenedIsLast(m, ev, rows);
    }
  }

  lemma LastRowOfArrival(l: ListState, ev: TapEvent, rows: seq<nat>)
    requires IsRebuild(l.events + [ev], l.searchQuery, l.filterErrors, ByDuration, rows)
    requires Matches(ev, l.searchQuery, l.filterErrors)
    ensures rows != []
    ensures OthersAreSlower(l, ev) ==> rows[|rows| - 1] == |l.events|
    ensures AnotherIsFaster(l, ev) ==> rows[|rows| - 1] != |l.events|
  {
    var got := l.(events := l.events + [ev]);
    LastRowIsFastest(got, rows, |l.events|);
    if AnotherIsFaster(l, ev) {
      var i :| 0 <= i < |l.events| && Matches(l.events[i], l.searchQuery, l.filterErrors)
               && l.events[i].duration < ev.duration;
      assert got.events[i] == l.events[i];
      LastRowIsFastest(got, rows, i);
    }
  }

  lemma ShownRow(l: ListState, rows: seq<nat>, i: nat)
    requires multiset(rows) == multiset(FilteredRows(l.events, l.searchQuery, l.filterErrors))
    ensures i in rows <==> i < |l.events| && Matches(l.events[i], l.searchQuery, l.filterErrors)
  {
    RowsAreExact(l.events, l.searchQuery, l.filterErrors);
    assert i in rows <==> i in multiset(rows);
  }

  lemma LastRowIsFastest(l: ListState, rows: seq<nat>, i: nat)
    requires IsRebuild(l.events, l.searchQuery, l.filterErrors, ByDuration, rows)
    requires i < |l.events| && Matches(l.events[i], l.searchQuery, l.filterErrors)
    ensures rows != [] && rows[|rows| - 1] < |l.events|
    ensures l.events[rows[|rows| - 1]].duration <= l.events[i].duration
    ensures Matches(l.events[rows[|rows| - 1]], l.searchQuery, l.filterErrors)
  {
    ShownRow(l, rows, i);
    var k :| 0 <= k < |rows| && rows[k] == i;
    ShownRow(l, rows, rows[|rows| - 1]);
  }

  /**
   * A replay result processed before its event, with no other result between, opens the
   * inspector when the event arrives; and nothing opens it again by arriving afterwards until
   * another result comes.
   */
  lemma ReplayNavigatesOnce(s: Session, id: string, answers: Answers, between: seq<Input>, ev: TapEvent,
                            rows: Answers, later: seq<Input>, other: TapEvent)
    requires id != "" && ev.id == id
    requires var waiting := Next(s, Deliver(ReplayResult(id, None), answers));
      && Admissible(waiting, between)
      && (forall i :: 0 <= i < |between| ==> LeavesAwaiting(MsgOf(between[i]), id))
      && var arrived := Next(Exec(waiting, between), Deliver(EventArrived(ev), rows));
         && Admissible(arrived, later)
         && forall i :: 0 <= i < |later| ==> LeavesAwaiting(MsgOf(later[i]), "")
    ensures var waiting := Next(s, Deliver(ReplayResult(id, None), answers));
      && var before := Exec(waiting, between);
         var arrived := Next(before, Deliver(EventArrived(ev), rows));
         && arrived.m.view == InspectView
         && (before.m.list.sortMode == Chronological
             && Matches(ev, before.m.list.searchQuery, before.m.list.filterErrors)
             ==> CursorEvent(arrived.m.list) == Found(ev))
         && !Awaited(Exec(arrived, later).m, other)
  {
    var waiting := Next(s, Deliver(ReplayResult(id, None), answers));
    AwaitingPersists(waiting, between);
    var before := Exec(waiting, between);
    ArrivalOpensInspector(before.m, ev, rows);
    var arrived := Next(before, Deliver(EventArrived(ev), rows));
    AwaitingPersists(arrived, later);
  }

  // ---------------------------------------------------------------- when it navigates at all

  predicate Succeeds(msg: Msg) {
    msg.ReplayResult? && msg.err.None?
  }

  predicate Brings(msg: Msg, id: string) {
    msg.EventArrived? && msg.ev.id == id
  }

  predicate ArrivesIn(inputs: seq<Input>, id: string) {
    exists i :: 0 <= i < |inputs| && Brings(MsgOf(inputs[i]), id)
  }

  predicate NoResultIn(inputs: seq<Input>) {
    forall i :: 0 <= i < |inputs| ==> !Succeeds(MsgOf(inputs[i]))
  }

  /** The events that arrive have pairwise distinct ids. */
  predicate DistinctArrivals(inputs: seq<Input>) {
    forall i, j :: 0 <= i < j < |inputs| && MsgOf(inputs[i]).EventArrived? ==>
      !Brings(MsgOf(inputs[j]), MsgOf(inputs[i]).ev.id)
  }

  /** An arriving event ends the wait and leaves the inspector open on the end of the list. */
  predicate Navigates(s: Session, input: Input)
    requires Enabled(s, input)
  {
    var n := Next(s, input).m;
    && MsgOf(input).EventArrived?
    && s.m.replayEventID != "" && n.replayEventID == ""
    && n.view == InspectView && n.list.cursor == LastIndex(|n.list.displayRows|)
  }

  /** How often a run navigates. */
  function Navigations(s: Session, inputs: seq<Input>): nat
    requires Admissible(s, inputs)
    decreases |inputs|
  {
    if inputs == [] then 0
    else
      var rest := Navigations(Next(s, inputs[0]), inputs[1..]);
      if Navigates(s, inputs[0]) then 1 + rest else rest
  }

  lemma NavigatesIffAwaited(s: Session, input: Input)
    requires Enabled(s, input)
    ensures Navigates(s, input) <==> s.m.replayEventID != "" && Brings(MsgOf(input), s.m.replayEventID)
    ensures Navigates(s, input) ==> Next(s, input).m.replayEventID == ""
    ensures !Navigates(s, input) && !Succeeds(MsgOf(input)) ==>
      Next(s, input).m.replayEventID == s.m.replayEventID
  {
    NextModel(s, input);
    if !Succeeds(MsgOf(input)) && LeavesAwaiting(MsgOf(input), s.m.replayEventID) {
      AwaitingStep(s.m, MsgOf(input), AnswersOf(input));
    }
  }

  lemma ArrivesFirstOrLater(inputs: seq<Input>, id: string)
    requires inputs != []
    ensures ArrivesIn(inputs, id) <==> Brings(MsgOf(inputs[0]), id) || ArrivesIn(inputs[1..], id)
  {
    if ArrivesIn(inputs[1..], id) {
      var i :| 0 <= i < |inputs[1..]| && Brings(MsgOf(inputs[1..][i]), id);
      assert inputs[i + 1] == inputs[1..][i];
    }
    if ArrivesIn(inputs, id) {
      var i :| 0 <= i < |inputs| && Brings(MsgOf(inputs[i]), id);
      assert i > 0 ==> inputs[1..][i - 1] == inputs[i];
    }
  }

  lemma {:induction false} NavigationsWhileWaiting(s: Session, inputs: seq<Input>)
    requires Admissible(s, inputs) && NoResultIn(inputs)
    ensures Navigations(s, inputs)
         == if s.m.replayEventID != "" && ArrivesIn(inputs, s.m.replayEventID) then 1 else 0
    decreases |inputs|
  {
    if inputs != [] {
      NavigatesIffAwaited(s, inputs[0]);
      ArrivesFirstOrLater(inputs, s.m.replayEventID);
      assert forall i :: 0 <= i < |inputs[1..]| ==> inputs[1..][i] == inputs[i + 1];
      NavigationsWhileWaiting(Next(s, inputs[0]), inputs[1..]);
    }
  }

  /** An event with this id arrives before the next successful result. */
  predicate ArrivesInTime(inputs: seq<Input>, id: string) {
    inputs != []
    && (Brings(MsgOf(inputs[0]), id) || (!Succeeds(MsgOf(inputs[0])) && ArrivesInTime(inputs[1..], id)))
  }

  lemma {:induction false} ArrivesInTimeAt(inputs: seq<Input>, id: string)
    ensures ArrivesInTime(inputs, id)
      <==> exists j :: 0 <= j < |inputs| && Brings(MsgOf(inputs[j]), id) && NoResultIn(inputs[..j])
  {
    if inputs != [] {
      var rest := inputs[1..];
      ArrivesInTimeAt(rest, id);
      if Brings(MsgOf(inputs[0]), id) {
        assert NoResultIn(inputs[..0]);
      } else if !Succeeds(MsgOf(inputs[0])) && ArrivesInTime(rest, id) {
        var j :| 0 <= j < |rest| && Brings(MsgOf(rest[j]), id) && NoResultIn(rest[..j]);
        assert inputs[..j + 1] == [inputs[0]] + rest[..j];
        assert inputs[j + 1] == rest[j];
      }
      if exists j :: 0 <= j < |inputs| && Brings(MsgOf(inputs[j]), id) && NoResultIn(inputs[..j]) {
        var j :| 0 <= j < |inputs| && Brings(MsgOf(inputs[j]), id) && NoResultIn(inputs[..j]);
        if j > 0 {
          assert inputs[..j][0] == inputs[0];
          assert rest[..j - 1] == inputs[..j][1..];
          assert rest[j - 1] == inputs[j];
        }
      }
    }
  }

  /** How many successful results of the run have an id whose event arrives before the next. */
  function AnsweredResults(inputs: seq<Input>): nat {
    if inputs == [] then 0
    else
      var msg, rest := MsgOf(inputs[0]), AnsweredResults(inputs[1..]);
      if Succeeds(msg) && msg.eventID != "" && ArrivesInTime(inputs[1..], msg.eventID) then 1 + rest else rest
  }

  lemma {:induction false} NavigationsFrom(s: Session, inputs: seq<Input>)
    requires Admissible(s, inputs)
    ensures Navigations(s, inputs)
         == AnsweredResults(inputs)
            + if s.m.replayEventID != "" && ArrivesInTime(inputs, s.m.replayEventID) then 1 else 0
    decreases |inputs|
  {
    if inputs != [] {
      NavigatesIffAwaited(s, inputs[0]);
      NextModel(s, inputs[0]);
      NavigationsFrom(Next(s, inputs[0]), inputs[1..]);
    }
  }

  /** Over every run from the start, whatever ids come in whatever order, there is one navigation
      for each successful result whose event arrives before the next successful result. */
  lemma NavigationsAreAnsweredResults(inputs: seq<Input>)
    requires Admissible(Start(), inputs)
    ensures Navigations(Start(), inputs) == AnsweredResults(inputs)
  {
    NavigationsFrom(Start(), inputs);
  }

  /** After a successful result, until the next one, there is one navigation if the event with its
      id arrives, however often it does, and none if it does not. */
  lemma ResultNavigatesIff(s: Session, id: string, answers: Answers, later: seq<Input>)
    requires var waiting := Next(s, Deliver(ReplayResult(id, None), answers));
      Admissible(waiting, later) && NoResultIn(later)
    ensures Navigations(Next(s, Deliver(ReplayResult(id, None), answers)), later)
         == if id != "" && ArrivesIn(later, id) then 1 else 0
  {
    NavigationsWhileWaiting(Next(s, Deliver(ReplayResult(id, None), answers)), later);
  }

  lemma ArrivesOnce(before: seq<Input>, later: seq<Input>, id: string)
    requires DistinctArrivals(before + later) && ArrivesIn(before, id)
    ensures !ArrivesIn(later, id)
  {
    var i :| 0 <= i < |before| && Brings(MsgOf(before[i]), id);
    forall j | 0 <= j < |later| ensures !Brings(MsgOf(later[j]), id) {
      var all := before + later;
      assert all[i] == before[i] && all[|before| + j] == later[j];
    }
  }

  /** In a run from the start whose events have distinct ids, a replay whose event arrives at some
      time navigates once if and only if the event had not come before the result. */
  lemma ReplayNavigatesUnlessLate(before: seq<Input>, id: string, answers: Answers, later: seq<Input>)
    requires id != "" && Admissible(Start(), before) && DistinctArrivals(before + later)
    requires ArrivesIn(before, id) || ArrivesIn(later, id)
    requires var waiting := Next(Exec(Start(), before), Deliver(ReplayResult(id, None), answers));
      Admissible(waiting, later) && NoResultIn(later)
    ensures var navigations :=
        Navigations(Next(Exec(Start(), before), Deliver(ReplayResult(id, None), answers)), later);
      && (navigations == 1 <==> !ArrivesIn(before, id))
      && (navigations == 0 <==> ArrivesIn(before, id))
  {
    ResultNavigatesIff(Exec(Start(), before), id, answers, later);
    if ArrivesIn(before, id) {
      ArrivesOnce(before, later, id);
    }
  }

  /** The failing input: the event, then its result. The model goes on waiting in the list. */
  lemma LateResultNeverNavigates(ev: TapEvent, rows: Answers, answers: Answers, later: seq<Input>)
    requires ev.id != ""
    requires var first := [Deliver(EventArrived(ev), rows)];
      && DistinctArrivals(first + later)
      && Admissible(Start(), first)
      && var waiting := Next(Exec(Start(), first), Deliver(ReplayResult(ev.id, None), answers));
         Admissible(waiting, later) && NoResultIn(later)
    ensures var waiting :=
        Next(Exec(Start(), [Deliver(EventArrived(ev), rows)]), Deliver(ReplayResult(ev.id, None), answers));
      && waiting.m.view == ListView && waiting.m.replayEventID == ev.id
      && Navigations(waiting, later) == 0
  {
    var first := [Deliver(EventArrived(ev), rows)];
    assert Brings(MsgOf(first[0]), ev.id);
    ReplayNavigatesUnlessLate(first, ev.id, answers, later);
    assert first[1..] == [];
    assert Exec(Start(), first) == Exec(Next(Start(), first[0]), []);
  }
}
