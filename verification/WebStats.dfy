/** The browser's statistics, and their agreement with the TUI's on the daemon's events. */
module WebStats {
  import opened Events
  import opened Text
  import opened Permutations
  import opened Sorting
  import opened Percentiles
  import opened Aggregation
  import opened Rounding
  import opened ReverseProxy

  // ---------------------------------------------------------------- endpointKey

  /** String.prototype.split on one character. */
  function Split(s: string, c: char): (parts: seq<string>)
    ensures parts != []
  {
    if s == "" then [""]
    else
      var rest := Split(s[1..], c);
      if s[0] == c then [""] + rest else [[s[0]] + rest[0]] + rest[1..]
  }

  /** The Go and the browser code strip the query in different ways, to the same effect. */
  lemma {:induction false} SplitHeadIsCut(s: string, c: char)
    ensures Split(s, c)[0] == Cut(s, c).0
  {
    if s != "" {
      SplitHeadIsCut(s[1..], c);
    }
  }

  function WebKey(ev: JsonEvent): string {
    ev.verb + " " + Split(ev.path, '?')[0]
  }

  function WebSample(ev: JsonEvent): Sample {
    Sample(WebKey(ev), ev.durationMicros, ev.status >= 400)
  }

  function WebSamples(events: seq<JsonEvent>): seq<Sample> {
    Mapped(WebSample, events)
  }

  // ---------------------------------------------------------------- buildStats and buildExportAnalytics

  /** The text conditions of the filter box, in lower case. */
  predicate Shown(key: string, texts: seq<string>) {
    forall i | 0 <= i < |texts| :: Contains(ToLower(key), texts[i])
  }

  /** An endpoint is shown exactly when it holds every condition, in letters of either case. The
      conditions are typed in any case and lower-cased when they are parsed. */
  lemma ShownIff(key: string, typed: seq<string>)
    ensures Shown(key, seq(|typed|, i requires 0 <= i < |typed| => ToLower(typed[i])))
      <==> forall i :: 0 <= i < |typed| ==> HoldsSomewhere(key, typed[i])
  {
    forall i | 0 <= i < |typed| ensures Contains(ToLower(key), ToLower(typed[i])) <==> HoldsSomewhere(key, typed[i]) {
      LowerContains(key, typed[i]);
    }
    var texts := seq(|typed|, i requires 0 <= i < |typed| => ToLower(typed[i]));
    assert forall i :: 0 <= i < |typed| ==> texts[i] == ToLower(typed[i]);
  }

  function Selected(samples: seq<Sample>, texts: seq<string>): seq<Sample> {
    if samples == [] then []
    else
      var init, last := Selected(samples[..|samples| - 1], texts), samples[|samples| - 1];
      if Shown(last.key, texts) then init + [last] else init
  }

  lemma {:induction false} NoTextsSelectAll(samples: seq<Sample>)
    ensures Selected(samples, []) == samples
  {
    if samples != [] {
      NoTextsSelectAll(samples[..|samples| - 1]);
    }
  }

  datatype WebGroup = WebGroup(durations: seq<int>, errors: nat)

  datatype StatsRow = StatsRow(endpoint: string, count: nat, errors: nat, avg: real, total: real)

  function WebJoined(groups: map<string, WebGroup>, s: Sample): map<string, WebGroup> {
    var g := if s.key in groups then groups[s.key] else WebGroup([], 0);
    groups[s.key := WebGroup(g.durations + [s.duration], g.errors + if s.failed then 1 else 0)]
  }

  /** The Map after one pass over the samples. */
  function WebGroups(samples: seq<Sample>): map<string, WebGroup> {
    if samples == [] then map[] else WebJoined(WebGroups(samples[..|samples| - 1]), samples[|samples| - 1])
  }

  lemma {:induction false} WebGroupIsExact(samples: seq<Sample>, key: string)
    ensures key in WebGroups(samples) <==> key in Keys(samples)
    ensures (if key in WebGroups(samples) then WebGroups(samples)[key] else WebGroup([], 0))
         == WebGroup(Durations(samples, key), Errors(samples, key))
  {
    if samples != [] {
      WebGroupIsExact(samples[..|samples| - 1], key);
    }
  }

  lemma WebGroupsGrow(samples: seq<Sample>, s: Sample)
    ensures WebGroups(samples + [s]) == WebJoined(WebGroups(samples), s)
    ensures Keys(samples + [s]) == Keys(samples) + if s.key in WebGroups(samples) then [] else [s.key]
  {
    assert (samples + [s])[..|samples|] == samples;
    WebGroupIsExact(samples, s.key);
  }

  lemma ListedGroup(samples: seq<Sample>, key: string)
    requires key in Keys(samples)
    ensures key in WebGroups(samples) && Durations(samples, key) != []
    ensures WebGroups(samples)[key] == WebGroup(Durations(samples, key), Errors(samples, key))
  {
    KeyIsUsed(samples, key);
    WebGroupIsExact(samples, key);
  }

  method CollectWebGroups(events: seq<JsonEvent>, texts: seq<string>)
    returns (groups: map<string, WebGroup>, order: seq<string>)
    ensures groups == WebGroups(Selected(WebSamples(events), texts))
    ensures order == Keys(Selected(WebSamples(events), texts))
  {
    groups, order := map[], [];
    for i := 0 to |events|
      invariant groups == WebGroups(Selected(WebSamples(events[..i]), texts))
      invariant order == Keys(Selected(WebSamples(events[..i]), texts))
    {
      ghost var done, s := Selected(WebSamples(events[..i]), texts), WebSample(events[i]);
      assert WebSamples(events[..i + 1])[..i] == WebSamples(events[..i]);
      var key := WebKey(events[i]);
      if !Shown(key, texts) {
        continue;
      }
      WebGroupsGrow(done, s);
      var g := WebGroup([], 0);
      if key in groups {
        g := groups[key];
      } else {
        order := order + [key];
      }
      groups := groups[key := WebGroup(g.durations + [events[i].durationMicros],
                                       g.errors + if events[i].status >= 400 then 1 else 0)];
    }
    assert events[..|events|] == events;
  }

  /** A row of the browser's export, for a group with these durations in microseconds. */
  function WebRowOf(key: string, durations: seq<int>, errors: nat): ExportRow
    requires durations != []
  {
    ExportRow(key, |durations|, errors, Millis(Sum(durations)), Millis(Sum(durations)) / |durations| as real,
              Millis(Percentile(SortInts(durations), 0.95)), Millis(Largest(durations)))
  }

  function StatsRowOf(key: string, durations: seq<int>, errors: nat): StatsRow
    requires durations != []
  {
    StatsRow(key, |durations|, errors, Millis(Sum(durations)) / |durations| as real, Millis(Sum(durations)))
  }

  lemma SortedSum(durations: seq<int>)
    ensures Sum(SortInts(durations)) == Sum(durations) && |SortInts(durations)| == |durations|
  {
    SortIntsSorts(durations);
    SumPermutes(SortInts(durations), durations);
  }

  function StatsRowFor(samples: seq<Sample>, key: string): StatsRow
    requires key in Keys(samples)
  {
    KeyIsUsed(samples, key);
    StatsRowOf(key, Durations(samples, key), Errors(samples, key))
  }

  function StatsRows(samples: seq<Sample>): seq<StatsRow> {
    var keys := Keys(samples);
    seq(|keys|, i requires 0 <= i < |keys| => assert keys[i] in keys; StatsRowFor(samples, keys[i]))
  }

  function WebRowFor(samples: seq<Sample>, key: string): ExportRow
    requires key in Keys(samples)
  {
    KeyIsUsed(samples, key);
    WebRowOf(key, Durations(samples, key), Errors(samples, key))
  }

  function WebRows(samples: seq<Sample>): seq<ExportRow> {
    var keys := Keys(samples);
    seq(|keys|, i requires 0 <= i < |keys| => assert keys[i] in keys; WebRowFor(samples, keys[i]))
  }

  /** The rows of the statistics view are those of the endpoints, in order of first appearance. */
  ghost predicate StatsMean(rows: seq<StatsRow>, samples: seq<Sample>) {
    && |rows| == |Keys(samples)|
    && forall i :: 0 <= i < |rows| ==> StatsRowMeans(rows[i], samples, Keys(samples)[i])
  }

  ghost predicate StatsRowMeans(row: StatsRow, samples: seq<Sample>, key: string) {
    && row.endpoint == key && row.count == |Durations(samples, key)| > 0
    && row.errors == Errors(samples, key) <= row.count
    && row.total == Millis(Sum(Durations(samples, key))) && IsAverage(row.avg, row.total, row.count)
  }

  lemma StatsRowsMean(samples: seq<Sample>)
    ensures StatsMean(StatsRows(samples), samples)
  {
    forall i | 0 <= i < |Keys(samples)|
      ensures StatsRowMeans(StatsRows(samples)[i], samples, Keys(samples)[i])
    {
      var key := Keys(samples)[i];
      assert key in Keys(samples);
      KeyIsUsed(samples, key);
      ErrorsAtMostCount(samples, key);
      QuotientIsAverage(Millis(Sum(Durations(samples, key))), |Durations(samples, key)|);
    }
  }

  lemma WebRowMeans(samples: seq<Sample>, key: string)
    requires key in Keys(samples)
    ensures RowMeans(WebRowFor(samples, key), samples, key, Millis)
  {
    KeyIsUsed(samples, key);
    ErrorsAtMostCount(samples, key);
    FiguresMean(Durations(samples, key), Millis);
    QuotientIsAverage(Millis(Sum(Durations(samples, key))), |Durations(samples, key)|);
  }

  lemma WebRowsMean(samples: seq<Sample>)
    ensures RowsMean(WebRows(samples), samples, Millis)
  {
    forall i | 0 <= i < |Keys(samples)| ensures RowMeans(WebRows(samples)[i], samples, Keys(samples)[i], Millis) {
      assert Keys(samples)[i] in Keys(samples);
      WebRowMeans(samples, Keys(samples)[i]);
    }
  }

  /** buildStats; a Map iterates in insertion order. */
  method BuildStats(events: seq<JsonEvent>, texts: seq<string>) returns (rows: seq<StatsRow>)
    ensures rows == StatsRows(Selected(WebSamples(events), texts))
    ensures StatsMean(rows, Selected(WebSamples(events), texts))
  {
    var groups, order := CollectWebGroups(events, texts);
    ghost var samples := Selected(WebSamples(events), texts);
    rows := [];
    for i := 0 to |order|
      invariant rows == StatsRows(samples)[..i]
    {
      ListedGroup(samples, order[i]);
      var row := StatsRowOfGroup(order[i], groups[order[i]]);
      rows := rows + [row];
    }
    assert rows == StatsRows(samples);
    StatsRowsMean(samples);
  }

  method StatsRowOfGroup(endpoint: string, g: WebGroup) returns (row: StatsRow)
    requires g.durations != []
    ensures row == StatsRowOf(endpoint, g.durations, g.errors)
  {
    SortedSum(g.durations);
    var durs := SortInts(g.durations);
    var total := Millis(Sum(durs));
    row := StatsRow(endpoint, |durs|, g.errors, total / |durs| as real, total);
  }

  /** buildExportAnalytics */
  method BuildExportAnalytics(exported: seq<JsonEvent>) returns (rows: seq<ExportRow>)
    ensures rows == WebRows(WebSamples(exported))
    ensures RowsMean(rows, WebSamples(exported), Millis)
  {
    var groups, order := CollectWebGroups(exported, []);
    ghost var samples := WebSamples(exported);
    NoTextsSelectAll(samples);
    rows := [];
    for i := 0 to |order|
      invariant rows == WebRows(samples)[..i]
    {
      ListedGroup(samples, order[i]);
      var row := WebRow(order[i], groups[order[i]]);
      rows := rows + [row];
    }
    assert rows == WebRows(samples);
    WebRowsMean(samples);
  }

  method WebRow(endpoint: string, g: WebGroup) returns (row: ExportRow)
    requires g.durations != []
    ensures row == WebRowOf(endpoint, g.durations, g.errors)
  {
    SortedSum(g.durations);
    var durs := SortInts(g.durations);
    var total := Millis(Sum(durs));
    row := ExportRow(endpoint, |durs|, g.errors, total, total / |durs| as real,
                     Millis(Percentile(durs, 0.95)), Millis(durs[|durs| - 1]));
  }

  // ---------------------------------------------------------------- agreement

  /** The browser's samples mirror the TUI's: same keys and failures, truncated durations. */
  ghost predicate Mirrors(tap: seq<Sample>, web: seq<Sample>) {
    && |tap| == |web|
    && forall i :: 0 <= i < |tap| ==>
         && web[i].key == tap[i].key
         && web[i].failed == tap[i].failed
         && web[i].duration == Microseconds(tap[i].duration)
  }

  /** What a TUI and a browser hold after seeing the same daemon events. */
  function TapView(events: seq<Event>): seq<Sample> {
    Samples(Mapped(EventToProto, events))
  }

  function WebView(events: seq<Event>): seq<Sample> {
    WebSamples(Mapped(EventToJson, events))
  }

  /** Errors coincide because the daemon sets an error text only with status 502. */
  lemma DaemonEventMirrors(ev: Event)
    requires DaemonEvent(ev)
    ensures var tap, web := TapSample(EventToProto(ev)), WebSample(EventToJson(ev));
      && web.key == tap.key && web.failed == tap.failed
      && tap.duration == ev.duration && web.duration == Microseconds(ev.duration)
  {
    SplitHeadIsCut(ev.path, '?');
  }

  lemma DaemonEventsMirror(events: seq<Event>)
    requires forall i :: 0 <= i < |events| ==> DaemonEvent(events[i])
    ensures Mirrors(TapView(events), WebView(events))
    ensures forall i :: 0 <= i < |events| ==> TapView(events)[i].duration == events[i].duration
  {
    var tap, web := TapView(events), WebView(events);
    forall i | 0 <= i < |events|
      ensures web[i].key == tap[i].key && web[i].failed == tap[i].failed
      ensures tap[i].duration == events[i].duration && web[i].duration == Microseconds(tap[i].duration)
    {
      assert tap[i] == TapSample(EventToProto(events[i])) && web[i] == WebSample(EventToJson(events[i]));
      DaemonEventMirrors(events[i]);
    }
  }

  lemma {:induction false} MirrorsByEndpoint(tap: seq<Sample>, web: seq<Sample>, key: string)
    requires Mirrors(tap, web)
    ensures Durations(web, key) == Mapped(Micros(), Durations(tap, key))
    ensures Errors(web, key) == Errors(tap, key)
    ensures Keys(web) == Keys(tap)
  {
    if tap != [] {
      MirrorsByEndpoint(tap[..|tap| - 1], web[..|web| - 1], key);
    }
  }

  /** Sorting truncated durations is truncating sorted ones. */
  lemma SortingCommutes(durations: seq<int>)
    ensures SortInts(Mapped(Micros(), durations)) == Mapped(Micros(), SortInts(durations))
  {
    var sorted, micros := SortInts(durations), Mapped(Micros(), durations);
    SortIntsSorts(durations);
    SortIntsSorts(micros);
    MappedPermutes(Micros(), sorted, durations);
    forall i, j | 0 <= i < j < |sorted| ensures Mapped(Micros(), sorted)[i] <= Mapped(Micros(), sorted)[j] {
      TruncationIsMonotone(sorted[i], sorted[j]);
    }
    AscendingIsUnique(SortInts(micros), Mapped(Micros(), sorted));
  }

  lemma TruncationIsMonotone(a: int, b: int)
    requires a <= b
    ensures Microseconds(a) <= Microseconds(b)
  {
  }

  lemma RowsOfOneGroup(key: string, durations: seq<int>, errors: nat)
    requires durations != [] && NonNegative(durations)
    ensures var tui, web := ExportRowOf(key, durations, errors), WebRowOf(key, Mapped(Micros(), durations), errors);
      && tui.p95Ms == web.p95Ms && tui.maxMs == web.maxMs && tui.count == web.count
      && tui.totalMs - web.totalMs == Millis(Carry(durations))
      && 0 <= Carry(durations) < tui.count
  {
    var micros := Mapped(Micros(), durations);
    TruncatedSum(durations);
    SortIntsSorts(durations);
    SortIntsSorts(micros);
    SortingCommutes(durations);
    RankInRange(|durations|, 0.95);
  }

  /**
   * On the same daemon events a TUI export row and a browser export row of one endpoint have
   * equal counts, errors, 95th percentiles and maxima; the TUI's total is the larger by less
   * than one microsecond per event, since it truncates the sum and the browser sums truncations.
   */
  lemma WebAgreesWithTui(events: seq<Event>, key: string)
    requires forall i :: 0 <= i < |events| ==> DaemonEvent(events[i]) && events[i].duration >= 0
    requires key != NO_KEY && key in Keys(Keyed(TapView(events)))
    ensures Keys(WebView(events)) == Keys(TapView(events))
    ensures var tap, web := Keyed(TapView(events)), WebView(events);
      && Durations(web, key) != [] && Durations(tap, key) != []
      && var tui, browser := ExportRowOf(key, Durations(tap, key), Errors(tap, key)),
                             WebRowOf(key, Durations(web, key), Errors(web, key));
         && tui.count == browser.count
         && tui.errors == browser.errors
         && tui.p95Ms == browser.p95Ms
         && tui.maxMs == browser.maxMs
         && 0.0 <= tui.totalMs - browser.totalMs < Millis(tui.count)
  {
    DaemonEventsMirror(events);
    MirrorsByEndpoint(TapView(events), WebView(events), key);
    KeyedKeepsGroups(TapView(events), key);
    KeyIsUsed(Keyed(TapView(events)), key);
    DurationsAreSampled(TapView(events), key);
    RowsOfOneGroup(key, Durations(TapView(events), key), Errors(TapView(events), key));
  }

  lemma {:induction false} DurationsAreSampled(samples: seq<Sample>, key: string)
    requires forall i :: 0 <= i < |samples| ==> samples[i].duration >= 0
    ensures NonNegative(Durations(samples, key))
  {
    if samples != [] {
      DurationsAreSampled(samples[..|samples| - 1], key);
    }
  }

  // ---------------------------------------------------------------- what the two exports return

  function Endpoints(rows: seq<ExportRow>): seq<string> {
    Mapped((row: ExportRow) => row.endpoint, rows)
  }

  /** The endpoints without the one that has neither method nor path. */
  function Unblanked(keys: seq<string>): seq<string> {
    if keys == [] then []
    else
      var init, last := Unblanked(keys[..|keys| - 1]), keys[|keys| - 1];
      if last == NO_KEY then init else init + [last]
  }

  lemma {:induction false} UnblankedKeeps(keys: seq<string>, key: string)
    ensures key in Unblanked(keys) <==> key in keys && key != NO_KEY
  {
    if keys != [] {
      UnblankedKeeps(keys[..|keys| - 1], key);
      assert keys == keys[..|keys| - 1] + [keys[|keys| - 1]];
    }
  }

  lemma UnblankedMore(keys: seq<string>, key: string)
    ensures Unblanked(keys + [key]) == if key == NO_KEY then Unblanked(keys) else Unblanked(keys) + [key]
  {
    assert (keys + [key])[..|keys|] == keys;
  }

  lemma {:induction false} KeysOfKeyed(samples: seq<Sample>)
    ensures Keys(Keyed(samples)) == Unblanked(Keys(samples))
  {
    if samples != [] {
      var init, last := samples[..|samples| - 1], samples[|samples| - 1];
      KeysOfKeyed(init);
      UnblankedKeeps(Keys(init), last.key);
      UnblankedMore(Keys(init), last.key);
      OneMore(Keyed(init), last);
      assert Keys(Keyed(init)) + [] == Keys(Keyed(init));
      assert Keys(samples) == if last.key in Keys(init) then Keys(init) else Keys(init) + [last.key];
      assert Keyed(samples) == if last.key == NO_KEY then Keyed(init) else Keyed(init) + [last];
    }
  }

  /** The figures of one endpoint, as far as the two exports have them in common. */
  predicate RowsAgree(tui: ExportRow, web: ExportRow) {
    && tui.endpoint == web.endpoint && tui.count == web.count && tui.errors == web.errors
    && tui.p95Ms == web.p95Ms && tui.maxMs == web.maxMs
    && 0.0 <= tui.totalMs - web.totalMs < Millis(tui.count)
  }

  lemma SameEndpointAgrees(events: seq<Event>, i: nat, web: ExportRow)
    requires forall k :: 0 <= k < |events| ==> DaemonEvent(events[k]) && events[k].duration >= 0
    requires i < |Keys(Keyed(TapView(events)))|
    requires var key := Keys(Keyed(TapView(events)))[i];
      && Durations(WebView(events), key) != []
      && web == WebRowOf(key, Durations(WebView(events), key), Errors(WebView(events), key))
    ensures RowsAgree(ExportRows(Keyed(TapView(events)))[i], web)
  {
    var key := Keys(Keyed(TapView(events)))[i];
    NoBlankKey(TapView(events));
    assert key in Keys(Keyed(TapView(events)));
    WebAgreesWithTui(events, key);
  }

  lemma SameOrder(events: seq<Event>)
    requires forall k :: 0 <= k < |events| ==> DaemonEvent(events[k])
    ensures Keys(Keyed(TapView(events))) == Unblanked(Keys(WebView(events)))
  {
    KeysOfKeyed(TapView(events));
    DaemonEventsMirror(events);
    MirrorsByEndpoint(TapView(events), WebView(events), NO_KEY);
  }

  /** The TUI's export and the browser's, run on the same daemon events: the same endpoints in the
      same order, but for the blank one, and agreeing figures for each. */
  method BothExports(events: seq<Event>) returns (tui: seq<ExportRow>, web: seq<ExportRow>)
    requires forall k :: 0 <= k < |events| ==> DaemonEvent(events[k]) && events[k].duration >= 0
    ensures Endpoints(tui) == Unblanked(Endpoints(web))
    ensures forall i, j :: 0 <= i < |tui| && 0 <= j < |web| && tui[i].endpoint == web[j].endpoint ==>
      RowsAgree(tui[i], web[j])
  {
    tui := BuildExportAnalyticsRows(Mapped(EventToProto, events));
    web := BuildExportAnalytics(Mapped(EventToJson, events));
    ghost var tapKeys, webKeys := Keys(Keyed(TapView(events))), Keys(WebView(events));
    assert Endpoints(tui) == tapKeys && Endpoints(web) == webKeys;
    SameOrder(events);
    forall i, j | 0 <= i < |tui| && 0 <= j < |web| && tui[i].endpoint == web[j].endpoint
      ensures RowsAgree(tui[i], web[j])
    {
      assert tapKeys[i] == webKeys[j] && webKeys[j] in webKeys;
      KeyIsUsed(WebView(events), webKeys[j]);
      SameEndpointAgrees(events, i, web[j]);
    }
  }
}
