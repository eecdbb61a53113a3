/** The analytics view's own aggregator, and its agreement with the export's. */
module Analytics {
  import opened Enumerations
  import opened Events
  import opened Maps
  import opened Permutations
  import opened Aggregation

  /** A running group: the agg struct of buildAnalyticsRows, which keeps no durations. */
  datatype Tally = Tally(count: nat, errors: nat, totalDur: int)

  function TallyOf(samples: seq<Sample>, key: string): Tally {
    Tally(|Durations(samples, key)|, Errors(samples, key), Sum(Durations(samples, key)))
  }

  /** What the map should hold: for every endpoint its count, error count and duration sum. */
  function Tallies(samples: seq<Sample>): map<string, Tally> {
    map key | key in Keys(samples) :: TallyOf(samples, key)
  }

  function Raised(t: Tally, s: Sample): Tally {
    Tally(t.count + 1, if s.failed then t.errors + 1 else t.errors, t.totalDur + s.duration)
  }

  function TallyIn(groups: map<string, Tally>, key: string): Tally {
    if key in groups then groups[key] else Tally(0, 0, 0)
  }

  lemma TallyInTallies(samples: seq<Sample>, key: string)
    ensures TallyIn(Tallies(samples), key) == TallyOf(samples, key)
  {
    KeyIsUsed(samples, key);
    ErrorsAtMostCount(samples, key);
  }

  lemma TallyGrows(samples: seq<Sample>, s: Sample, key: string)
    ensures TallyOf(samples + [s], key)
         == if key == s.key then Raised(TallyOf(samples, key), s) else TallyOf(samples, key)
  {
    InGroupOneMore(samples, s, key);
    SumGrows(Durations(samples, key), s.duration);
  }

  /** The map after one more sample. */
  function Counted(groups: map<string, Tally>, s: Sample): map<string, Tally> {
    groups[s.key := Raised(TallyIn(groups, s.key), s)]
  }

  lemma TalliesGrowAt(samples: seq<Sample>, s: Sample, key: string)
    ensures AlikeAt(Tallies(samples + [s]), Counted(Tallies(samples), s), key)
  {
    OneMore(samples, s);
    TallyInTallies(samples, s.key);
    TallyGrows(samples, s, key);
  }

  lemma TalliesGrow(samples: seq<Sample>, s: Sample)
    ensures Tallies(samples + [s]) == Counted(Tallies(samples), s)
  {
    forall key ensures AlikeAt(Tallies(samples + [s]), Counted(Tallies(samples), s), key) {
      TalliesGrowAt(samples, s, key);
    }
    AlikeEverywhere(Tallies(samples + [s]), Counted(Tallies(samples), s));
  }

  /** The body of the first loop, for an event that has a key. */
  method Tallied(groups: map<string, Tally>, ev: TapEvent) returns (groups': map<string, Tally>)
    ensures groups' == Counted(groups, TapSample(ev))
  {
    var key := EndpointKey(ev.verb, ev.path);
    var g := Tally(0, 0, 0);
    if key in groups {
      g := groups[key];
    }
    g := g.(count := g.count + 1, totalDur := g.totalDur + ev.duration);
    if ev.status >= 400 || ev.error != "" {
      g := g.(errors := g.errors + 1);
    }
    groups' := groups[key := g];
  }

  /** The first loop of buildAnalyticsRows. */
  method CollectTallies(events: seq<TapEvent>) returns (groups: map<string, Tally>)
    ensures groups == Tallies(Keyed(Samples(events)))
  {
    groups := map[];
    for i := 0 to |events|
      invariant groups == Tallies(Keyed(Samples(events[..i])))
    {
      KeyedGrows(events, i);
      if EndpointKey(events[i].verb, events[i].path) == NO_KEY {
        continue;
      }
      TalliesGrow(Keyed(Samples(events[..i])), TapSample(events[i]));
      groups := Tallied(groups, events[i]);
    }
    assert events[..|events|] == events;
  }

  /** The row of one group; the code divides by its count, which is positive. */
  function RowOfTally(key: string, t: Tally): AnalyticsRow
    requires t.count > 0
  {
    AnalyticsRow(key, t.count, t.errors, t.totalDur, GoDiv(t.totalDur, t.count))
  }

  lemma PickOneMore(samples: seq<Sample>, picked: seq<string>, key: string)
    requires key in Tallies(samples)
    ensures Tallies(samples)[key].count > 0
    ensures Mapped(AnalyticsRowFor(samples), picked + [key])
         == Mapped(AnalyticsRowFor(samples), picked) + [RowOfTally(key, Tallies(samples)[key])]
  {
    KeyIsUsed(samples, key);
  }

  lemma RowsInAnyOrder(samples: seq<Sample>, picked: seq<string>)
    requires Enumerates(picked, Tallies(samples).Keys)
    ensures multiset(Mapped(AnalyticsRowFor(samples), picked)) == multiset(AnalyticsRows(samples))
  {
    KeysAreDistinct(samples);
    SameElementsOnce(picked, Keys(samples));
    MappedPermutes(AnalyticsRowFor(samples), picked, Keys(samples));
  }

  /** The second loop of buildAnalyticsRows, over the map in an arbitrary order. */
  method ListTallies(groups: map<string, Tally>, ghost samples: seq<Sample>) returns (rows: seq<AnalyticsRow>)
    requires groups == Tallies(samples)
    ensures multiset(rows) == multiset(AnalyticsRows(samples))
  {
    rows := [];
    var pending := groups.Keys;
    ghost var picked: seq<string> := [];
    while pending != {}
      invariant pending <= groups.Keys
      invariant Enumerates(picked, groups.Keys - pending)
      invariant rows == Mapped(AnalyticsRowFor(samples), picked)
      decreases pending
    {
      var key :| key in pending;
      PickOneMore(samples, picked, key);
      EnumeratesPending(picked, groups.Keys, pending, key);
      rows := rows + [RowOfTally(key, groups[key])];
      pending, picked := pending - {key}, picked + [key];
    }
    assert groups.Keys - pending == groups.Keys;
    RowsInAnyOrder(samples, picked);
  }

  /** avg is total / n, truncated toward zero: the rest is smaller than n, and of total's sign. */
  predicate IsTruncated(avg: int, total: int, n: nat) {
    var rest := total - avg * n;
    (total >= 0 ==> 0 <= rest < n) && (total < 0 ==> rest <= 0 < rest + n)
  }

  lemma GoDivTruncates(total: int, n: nat)
    requires n > 0
    ensures IsTruncated(GoDiv(total, n), total, n)
  {
    if total < 0 {
      assert -total == (-total / n) * n + (-total) % n;
      assert GoDiv(total, n) * n == -((-total / n) * n);
    }
  }

  lemma RowIsTruncated(samples: seq<Sample>, row: AnalyticsRow)
    requires row in AnalyticsRows(samples)
    ensures row.count > 0 && IsTruncated(row.avgDuration, row.totalDuration, row.count)
  {
    var i :| 0 <= i < |AnalyticsRows(samples)| && AnalyticsRows(samples)[i] == row;
    var key := Keys(samples)[i];
    assert key in Keys(samples);
    KeyIsUsed(samples, key);
    GoDivTruncates(Sum(Durations(samples, key)), |Durations(samples, key)|);
  }

  /** buildAnalyticsRows: one row per endpoint, in no particular order, its average being the
      total over the count. */
  method BuildAnalyticsRows(events: seq<TapEvent>) returns (rows: seq<AnalyticsRow>)
    ensures multiset(rows) == multiset(AnalyticsRows(Keyed(Samples(events))))
    ensures forall i :: 0 <= i < |rows| ==>
      rows[i].count > 0 && IsTruncated(rows[i].avgDuration, rows[i].totalDuration, rows[i].count)
  {
    var groups := CollectTallies(events);
    rows := ListTallies(groups, Keyed(Samples(events)));
    forall i | 0 <= i < |rows|
      ensures rows[i].count > 0 && IsTruncated(rows[i].avgDuration, rows[i].totalDuration, rows[i].count)
    {
      assert rows[i] in multiset(rows);
      RowIsTruncated(Keyed(Samples(events)), rows[i]);
    }
  }

  // ---------------------------------------------------------------- agreement

  /** What a row of either aggregator says; the total in milliseconds, truncated to microseconds. */
  datatype Figures = Figures(endpoint: string, count: nat, errors: nat, totalMs: real)

  function ExportFigures(row: ExportRow): Figures {
    Figures(row.endpoint, row.count, row.errors, row.totalMs)
  }

  function AnalyticsFigures(row: AnalyticsRow): Figures {
    Figures(row.endpoint, row.count, row.errors, Millis(Microseconds(row.totalDuration)))
  }

  lemma SameFigures(samples: seq<Sample>)
    ensures Mapped(ExportFigures, ExportRows(samples)) == Mapped(AnalyticsFigures, AnalyticsRows(samples))
  {
    forall i | 0 <= i < |Keys(samples)|
      ensures ExportFigures(ExportRows(samples)[i]) == AnalyticsFigures(AnalyticsRows(samples)[i])
    {
      assert Keys(samples)[i] in Keys(samples);
      KeyIsUsed(samples, Keys(samples)[i]);
    }
  }

  /** The two Go aggregators, run on the same events by their own loops over their own maps, give
      the same figures for the same endpoints. */
  method BothAggregators(events: seq<TapEvent>) returns (exported: seq<ExportRow>, shown: seq<AnalyticsRow>)
    ensures multiset(Mapped(ExportFigures, exported)) == multiset(Mapped(AnalyticsFigures, shown))
    ensures forall i :: 0 <= i < |exported| ==> 0 < exported[i].count && exported[i].errors <= exported[i].count
    ensures forall i, j :: 0 <= i < j < |exported| ==> exported[i].endpoint != exported[j].endpoint
    ensures |shown| == |exported|
  {
    exported := BuildExportAnalyticsRows(events);
    shown := BuildAnalyticsRows(events);
    ghost var samples := Keyed(Samples(events));
    SameFigures(samples);
    MappedPermutes(AnalyticsFigures, shown, AnalyticsRows(samples));
    assert |multiset(shown)| == |multiset(AnalyticsRows(samples))|;
    KeysAreDistinct(samples);
    forall i | 0 <= i < |exported| ensures 0 < exported[i].count && exported[i].errors <= exported[i].count {
      assert Keys(samples)[i] in Keys(samples);
      KeyIsUsed(samples, Keys(samples)[i]);
      ErrorsAtMostCount(samples, Keys(samples)[i]);
    }
  }
}
