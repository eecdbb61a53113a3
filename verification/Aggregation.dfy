/** Per-endpoint statistics, endpoint by endpoint, and the export's aggregator: one pass over the
    events with a map of running groups. */
module Aggregation {
  import opened Events
  import opened Text
  import opened Permutations
  import opened Sorting
  import opened Percentiles
  import opened Filtering

  /** What the aggregators use of an event. */
  datatype Sample = Sample(key: string, duration: int, failed: bool)

  /** The key of an event without method and path; the Go aggregators skip it. */
  const NO_KEY := " "

  /** tui.endpointKey */
  function EndpointKey(verb: string, path: string): string {
    verb + " " + Cut(path, '?').0
  }

  function TapSample(ev: TapEvent): Sample {
    Sample(EndpointKey(ev.verb, ev.path), ev.duration, IsError(ev))
  }

  function Samples(events: seq<TapEvent>): seq<Sample> {
    Mapped(TapSample, events)
  }

  // ---------------------------------------------------------------- endpoint by endpoint

  function Durations(samples: seq<Sample>, key: string): seq<int> {
    if samples == [] then []
    else
      var last := samples[|samples| - 1];
      Durations(samples[..|samples| - 1], key) + if last.key == key then [last.duration] else []
  }

  function Errors(samples: seq<Sample>, key: string): nat {
    if samples == [] then 0
    else
      var last := samples[|samples| - 1];
      Errors(samples[..|samples| - 1], key) + if last.key == key && last.failed then 1 else 0
  }

  /** The keys in order of first appearance. */
  function Keys(samples: seq<Sample>): seq<string> {
    if samples == [] then []
    else
      var init, key := Keys(samples[..|samples| - 1]), samples[|samples| - 1].key;
      if key in init then init else init + [key]
  }

  /** Those samples the Go aggregators do not skip. */
  function Keyed(samples: seq<Sample>): seq<Sample> {
    if samples == [] then []
    else
      var last := samples[|samples| - 1];
      Keyed(samples[..|samples| - 1]) + if last.key == NO_KEY then [] else [last]
  }

  /** One more sample, for each of the definitions above. */
  lemma InGroupOneMore(samples: seq<Sample>, s: Sample, key: string)
    ensures Durations(samples + [s], key)
         == if s.key == key then Durations(samples, key) + [s.duration] else Durations(samples, key)
    ensures Errors(samples + [s], key) == Errors(samples, key) + if s.key == key && s.failed then 1 else 0
  {
    assert (samples + [s])[..|samples|] == samples;
  }

  lemma OneMore(samples: seq<Sample>, s: Sample)
    ensures Keys(samples + [s]) == Keys(samples) + if s.key in Keys(samples) then [] else [s.key]
    ensures Keyed(samples + [s]) == Keyed(samples) + if s.key == NO_KEY then [] else [s]
  {
    assert (samples + [s])[..|samples|] == samples;
  }

  ghost predicate Distinct(keys: seq<string>) {
    forall i, j :: 0 <= i < j < |keys| ==> keys[i] != keys[j]
  }

  lemma {:induction false} KeysAreDistinct(samples: seq<Sample>)
    ensures Distinct(Keys(samples))
  {
    if samples != [] {
      KeysAreDistinct(samples[..|samples| - 1]);
    }
  }

  lemma {:induction false} KeyIsUsed(samples: seq<Sample>, key: string)
    ensures key in Keys(samples) <==> Durations(samples, key) != []
  {
    if samples != [] {
      KeyIsUsed(samples[..|samples| - 1], key);
    }
  }

  /** Where a key first appears. */
  function FirstAt(samples: seq<Sample>, key: string): (n: nat)
    requires key in Keys(samples)
    ensures n < |samples| && samples[n].key == key
    ensures forall m :: 0 <= m < n ==> samples[m].key != key
  {
    var init := samples[..|samples| - 1];
    if key in Keys(init) then FirstAt(init, key)
    else
      UnusedKeyIsAbsent(init, key);
      |init|
  }

  lemma {:induction false} UnusedKeyIsAbsent(samples: seq<Sample>, key: string)
    requires key !in Keys(samples)
    ensures forall m :: 0 <= m < |samples| ==> samples[m].key != key
  {
    if samples != [] {
      UnusedKeyIsAbsent(samples[..|samples| - 1], key);
    }
  }

  /** Rows come in order of first appearance. */
  lemma {:induction false} KeysFollowAppearance(samples: seq<Sample>, i: nat, j: nat)
    requires i < j < |Keys(samples)|
    ensures Keys(samples)[i] in Keys(samples) && Keys(samples)[j] in Keys(samples)
    ensures FirstAt(samples, Keys(samples)[i]) < FirstAt(samples, Keys(samples)[j])
  {
    var init := samples[..|samples| - 1];
    KeysAreDistinct(samples);
    if j < |Keys(init)| {
      KeysFollowAppearance(init, i, j);
    } else {
      assert Keys(samples)[i] == Keys(init)[i];
    }
  }

  lemma {:induction false} ErrorsAtMostCount(samples: seq<Sample>, key: string)
    ensures Errors(samples, key) <= |Durations(samples, key)|
  {
    if samples != [] {
      ErrorsAtMostCount(samples[..|samples| - 1], key);
    }
  }

  lemma {:induction false} KeyedKeepsGroups(samples: seq<Sample>, key: string)
    requires key != NO_KEY
    ensures Durations(Keyed(samples), key) == Durations(samples, key)
    ensures Errors(Keyed(samples), key) == Errors(samples, key)
  {
    if samples != [] {
      var init, last := samples[..|samples| - 1], samples[|samples| - 1];
      KeyedKeepsGroups(init, key);
      InGroupOneMore(Keyed(init), last, key);
      assert Keyed(init) + [] == Keyed(init);
    }
  }

  function Counts(samples: seq<Sample>, keys: seq<string>): seq<int> {
    seq(|keys|, i requires 0 <= i < |keys| => |Durations(samples, keys[i])|)
  }

  lemma CountsOneMore(samples: seq<Sample>, s: Sample, keys: seq<string>)
    requires Distinct(keys)
    ensures Sum(Counts(samples + [s], keys)) == Sum(Counts(samples, keys)) + if s.key in keys then 1 else 0
  {
    var before, after := Counts(samples, keys), Counts(samples + [s], keys);
    forall i | 0 <= i < |keys| ensures after[i] == before[i] + if keys[i] == s.key then 1 else 0 {
      InGroupOneMore(samples, s, keys[i]);
    }
    if s.key in keys {
      var k :| 0 <= k < |keys| && keys[k] == s.key;
      RaisedByOne(before, after, k);
    } else {
      assert after == before;
    }
  }

  lemma CountNewKey(samples: seq<Sample>, s: Sample, keys: seq<string>)
    requires s.key !in Keys(samples) && s.key !in keys && Distinct(keys)
    ensures Sum(Counts(samples + [s], keys + [s.key])) == Sum(Counts(samples, keys)) + 1
  {
    CountsOneMore(samples, s, keys);
    InGroupOneMore(samples, s, s.key);
    KeyIsUsed(samples, s.key);
    assert Counts(samples + [s], keys + [s.key]) == Counts(samples + [s], keys) + [1];
    SumOfConcat(Counts(samples + [s], keys), [1]);
    SumOfOne(1);
  }

  /** Every sample is counted under exactly one endpoint. */
  lemma {:induction false} CountsAddUp(samples: seq<Sample>)
    ensures Sum(Counts(samples, Keys(samples))) == |samples|
  {
    if samples != [] {
      var init, last := samples[..|samples| - 1], samples[|samples| - 1];
      assert samples == init + [last];
      CountsAddUp(init);
      KeysAreDistinct(init);
      OneMore(init, last);
      if last.key in Keys(init) {
        CountsOneMore(init, last, Keys(init));
        assert Keys(samples) == Keys(init);
      } else {
        CountNewKey(init, last, Keys(init));
      }
    }
  }

  /** Counts of the Go aggregators sum to the events that have a key. */
  lemma KeyedCountsAddUp(samples: seq<Sample>)
    ensures Sum(Counts(samples, Keys(Keyed(samples)))) == |Keyed(samples)|
    ensures NO_KEY !in Keys(Keyed(samples))
  {
    CountsAddUp(Keyed(samples));
    NoBlankKey(samples);
    var keys := Keys(Keyed(samples));
    forall i | 0 <= i < |keys| ensures |Durations(samples, keys[i])| == |Durations(Keyed(samples), keys[i])| {
      assert keys[i] in keys;
      KeyedKeepsGroups(samples, keys[i]);
    }
    assert Counts(samples, keys) == Counts(Keyed(samples), keys);
  }

  lemma {:induction false} NoBlankKey(samples: seq<Sample>)
    ensures NO_KEY !in Keys(Keyed(samples))
  {
    if samples != [] {
      var init, last := samples[..|samples| - 1], samples[|samples| - 1];
      NoBlankKey(init);
      OneMore(Keyed(init), last);
      assert Keyed(init) + [] == Keyed(init);
    }
  }

  // ---------------------------------------------------------------- rows

  function Millis(micros: int): real {
    micros as real / 1000.0
  }

  datatype ExportRow = ExportRow(
    endpoint: string, count: nat, errors: nat, totalMs: real, avgMs: real, p95Ms: real, maxMs: real)

  datatype AnalyticsRow = AnalyticsRow(
    endpoint: string, count: nat, errors: nat, totalDuration: int, avgDuration: int)

  /** A row of the exported analytics, for a group with these durations in nanoseconds. */
  function ExportRowOf(key: string, durations: seq<int>, errors: nat): ExportRow
    requires durations != []
  {
    var totalMs := Millis(Microseconds(Sum(durations)));
    ExportRow(key, |durations|, errors, totalMs, totalMs / |durations| as real,
              Millis(Microseconds(Percentile(SortInts(durations), 0.95))), Millis(Microseconds(Largest(durations))))
  }

  function AnalyticsRowOf(key: string, durations: seq<int>, errors: nat): AnalyticsRow
    requires durations != []
  {
    AnalyticsRow(key, |durations|, errors, Sum(durations), GoDiv(Sum(durations), |durations|))
  }

  function ExportRowFor(samples: seq<Sample>, key: string): ExportRow
    requires key in Keys(samples)
  {
    KeyIsUsed(samples, key);
    ExportRowOf(key, Durations(samples, key), Errors(samples, key))
  }

  function ExportRows(samples: seq<Sample>): seq<ExportRow> {
    var keys := Keys(samples);
    seq(|keys|, i requires 0 <= i < |keys| => assert keys[i] in keys; ExportRowFor(samples, keys[i]))
  }

  /** value is the 95th percentile of the durations, ms turning these into milliseconds. */
  ghost predicate ShowsP95(value: real, durations: seq<int>, ms: int -> real) {
    exists x :: x in durations && Splits(x, durations, 0.95) && value == ms(x)
  }

  ghost predicate ShowsMax(value: real, durations: seq<int>, ms: int -> real) {
    exists x :: x in durations && (forall d :: d in durations ==> d <= x) && value == ms(x)
  }

  /** What an exported row says of an endpoint. */
  ghost predicate RowMeans(row: ExportRow, samples: seq<Sample>, key: string, ms: int -> real) {
    var durations := Durations(samples, key);
    && row.endpoint == key && row.count == |durations| > 0
    && row.errors == Errors(samples, key) <= row.count
    && row.totalMs == ms(Sum(durations)) && IsAverage(row.avgMs, row.totalMs, row.count)
    && ShowsP95(row.p95Ms, durations, ms) && ShowsMax(row.maxMs, durations, ms)
  }

  /** The rows are those of the endpoints, in order of first appearance. */
  ghost predicate RowsMean(rows: seq<ExportRow>, samples: seq<Sample>, ms: int -> real) {
    |rows| == |Keys(samples)| && forall i :: 0 <= i < |rows| ==> RowMeans(rows[i], samples, Keys(samples)[i], ms)
  }

  function NanosToMillis(): int -> real {
    (nanos: int) => Millis(Microseconds(nanos))
  }

  lemma FiguresMean(durations: seq<int>, ms: int -> real)
    requires durations != []
    ensures ShowsP95(ms(Percentile(SortInts(durations), 0.95)), durations, ms)
    ensures ShowsMax(ms(Largest(durations)), durations, ms)
  {
    PercentileIsRank(durations, 0.95);
    SortedEnds(durations);
  }

  predicate IsAverage(avg: real, total: real, n: nat) {
    avg * n as real == total
  }

  lemma QuotientIsAverage(total: real, n: nat)
    requires n > 0
    ensures IsAverage(total / n as real, total, n)
  {
  }

  lemma ExportRowMeans(samples: seq<Sample>, key: string)
    requires key in Keys(samples)
    ensures RowMeans(ExportRowFor(samples, key), samples, key, NanosToMillis())
  {
    var durations := Durations(samples, key);
    KeyIsUsed(samples, key);
    ErrorsAtMostCount(samples, key);
    FiguresMean(durations, NanosToMillis());
    QuotientIsAverage(Millis(Microseconds(Sum(durations))), |durations|);
  }

  lemma ExportRowsMean(samples: seq<Sample>)
    ensures RowsMean(ExportRows(samples), samples, NanosToMillis())
  {
    forall i | 0 <= i < |ExportRows(samples)|
      ensures RowMeans(ExportRows(samples)[i], samples, Keys(samples)[i], NanosToMillis())
    {
      assert Keys(samples)[i] in Keys(samples);
      ExportRowMeans(samples, Keys(samples)[i]);
    }
  }

  function AnalyticsRowFor(samples: seq<Sample>): string -> AnalyticsRow {
    (key: string) =>
      if Durations(samples, key) == [] then AnalyticsRow(key, 0, 0, 0, 0)
      else AnalyticsRowOf(key, Durations(samples, key), Errors(samples, key))
  }

  function AnalyticsRows(samples: seq<Sample>): seq<AnalyticsRow> {
    Mapped(AnalyticsRowFor(samples), Keys(samples))
  }

  // ---------------------------------------------------------------- the one-pass loops

  /** A running group: the agg struct of buildExportAnalyticsRows. */
  datatype Agg = Agg(count: nat, errors: nat, totalDur: int, durations: seq<int>)

  function AggOf(samples: seq<Sample>, key: string): Agg {
    Agg(|Durations(samples, key)|, Errors(samples, key), Sum(Durations(samples, key)), Durations(samples, key))
  }

  function Grown(g: Agg, s: Sample): Agg {
    Agg(g.count + 1, g.errors + (if s.failed then 1 else 0), g.totalDur + s.duration, g.durations + [s.duration])
  }

  function Joined(groups: map<string, Agg>, s: Sample): map<string, Agg> {
    groups[s.key := Grown(if s.key in groups then groups[s.key] else Agg(0, 0, 0, []), s)]
  }

  /** The map after one pass over the samples. */
  function Groups(samples: seq<Sample>): map<string, Agg> {
    if samples == [] then map[] else Joined(Groups(samples[..|samples| - 1]), samples[|samples| - 1])
  }

  lemma SumGrows(durations: seq<int>, d: int)
    ensures Sum(durations + [d]) == Sum(durations) + d
  {
    SumOfConcat(durations, [d]);
    SumOfOne(d);
  }

  lemma AggGrows(samples: seq<Sample>, s: Sample, key: string)
    ensures AggOf(samples + [s], key) == if key == s.key then Grown(AggOf(samples, key), s) else AggOf(samples, key)
  {
    InGroupOneMore(samples, s, key);
    SumGrows(Durations(samples, key), s.duration);
  }

  /** The running group of an endpoint is the declared count, error count, sum and durations. */
  lemma {:induction false} GroupIsAgg(samples: seq<Sample>, key: string)
    ensures key in Groups(samples) <==> key in Keys(samples)
    ensures (if key in Groups(samples) then Groups(samples)[key] else Agg(0, 0, 0, [])) == AggOf(samples, key)
  {
    if samples != [] {
      var init, last := samples[..|samples| - 1], samples[|samples| - 1];
      assert samples == init + [last];
      GroupIsAgg(init, key);
      AggGrows(init, last, key);
      OneMore(init, last);
    }
  }

  lemma KeyedGrows(events: seq<TapEvent>, i: nat)
    requires i < |events|
    ensures var s := TapSample(events[i]);
      Keyed(Samples(events[..i + 1]))
      == if s.key == NO_KEY then Keyed(Samples(events[..i])) else Keyed(Samples(events[..i])) + [s]
  {
    assert Samples(events[..i + 1])[..i] == Samples(events[..i]);
  }

  lemma GroupsGrow(samples: seq<Sample>, s: Sample)
    ensures Groups(samples + [s]) == Joined(Groups(samples), s)
    ensures Keys(samples + [s]) == Keys(samples) + if s.key in Groups(samples) then [] else [s.key]
  {
    assert (samples + [s])[..|samples|] == samples;
    GroupIsAgg(samples, s.key);
  }

  /** One turn of the loop for an event that has a key. */
  method AddEvent(groups: map<string, Agg>, order: seq<string>, ev: TapEvent)
    returns (groups': map<string, Agg>, order': seq<string>)
    ensures groups' == Joined(groups, TapSample(ev))
    ensures order' == order + if TapSample(ev).key in groups then [] else [TapSample(ev).key]
  {
    var key := EndpointKey(ev.verb, ev.path);
    order' := order;
    var g := Agg(0, 0, 0, []);
    if key in groups {
      g := groups[key];
    } else {
      order' := order + [key];
    }
    var failed := if ev.status >= 400 || ev.error != "" then 1 else 0;
    g := Agg(g.count + 1, g.errors + failed, g.totalDur + ev.duration, g.durations + [ev.duration]);
    groups' := groups[key := g];
  }

  /** The first loop of buildExportAnalyticsRows. */
  method CollectGroups(events: seq<TapEvent>) returns (groups: map<string, Agg>, order: seq<string>)
    ensures groups == Groups(Keyed(Samples(events)))
    ensures order == Keys(Keyed(Samples(events)))
  {
    groups, order := map[], [];
    for i := 0 to |events|
      invariant groups == Groups(Keyed(Samples(events[..i])))
      invariant order == Keys(Keyed(Samples(events[..i])))
    {
      KeyedGrows(events, i);
      if EndpointKey(events[i].verb, events[i].path) == NO_KEY {
        continue;
      }
      GroupsGrow(Keyed(Samples(events[..i])), TapSample(events[i]));
      groups, order := AddEvent(groups, order, events[i]);
    }
    assert events[..|events|] == events;
  }

  /** buildExportAnalyticsRows: one row per endpoint, in order of first appearance. */
  method BuildExportAnalyticsRows(events: seq<TapEvent>) returns (rows: seq<ExportRow>)
    ensures rows == ExportRows(Keyed(Samples(events)))
    ensures RowsMean(rows, Keyed(Samples(events)), NanosToMillis())
  {
    var groups, order := CollectGroups(events);
    ghost var samples := Keyed(Samples(events));
    rows := [];
    for i := 0 to |order|
      invariant rows == ExportRows(samples)[..i]
    {
      assert order[i] in order;
      GroupIsAgg(samples, order[i]);
      KeyIsUsed(samples, order[i]);
      var g := groups[order[i]];
      SortIntsSorts(g.durations);
      var sorted := SortInts(g.durations);
      var totalMs := Millis(Microseconds(g.totalDur));
      rows := rows + [ExportRow(order[i], g.count, g.errors, totalMs, totalMs / g.count as real,
                                Millis(Microseconds(Percentile(sorted, 0.95))),
                                Millis(Microseconds(sorted[|sorted| - 1])))];
    }
    assert rows == ExportRows(samples);
    ExportRowsMean(samples);
  }

  // ---------------------------------------------------------------- endpoints

  /** Only an event with neither method nor path has the skipped key. */
  lemma BlankKeyIff(verb: string, path: string)
    ensures EndpointKey(verb, path) == NO_KEY <==> verb == "" && (path == "" || path[0] == '?')
  {
    assert |EndpointKey(verb, path)| == |verb| + 1 + |Cut(path, '?').0|;
    if verb == "" && Cut(path, '?').0 == "" {
      assert EndpointKey(verb, path) == NO_KEY;
    }
  }

  /** Grouping ignores the query and nothing else: events share an endpoint exactly when they have
      the same method, which never contains a blank, and the same path up to the question mark. */
  lemma SameEndpointIff(verb: string, path: string, verb': string, path': string)
    requires ' ' !in verb && ' ' !in verb'
    ensures EndpointKey(verb, path) == EndpointKey(verb', path')
      <==> verb == verb' && Cut(path, '?').0 == Cut(path', '?').0
  {
    CutJoined(verb, ' ', Cut(path, '?').0);
    CutJoined(verb', ' ', Cut(path', '?').0);
  }

  /** The path that counts is what stands before the first question mark. */
  lemma QueryIsIgnored(verb: string, path: string, query: string)
    requires '?' !in path
    ensures EndpointKey(verb, path + "?" + query) == EndpointKey(verb, path) == verb + " " + path
  {
    CutJoined(path, '?', query);
  }
}
