/** The daily-log service's trend analysis: four occurrence-count maps, the
    most frequent symptom, and whether flow intensity rises or falls between
    the first and second half of the logs
    (src/modules/daily-logs/daily-logs.service.ts). */
module DailyLogs {
  import opened Wrappers
  import opened Sorting
  import opened Frequencies
  import opened Arithmetic

  /** A stored daily log (src/modules/daily-logs/schemas/daily-log.schema.ts).
      The four lists default to empty; the date is a day number. */
  datatype DailyLog = DailyLog(
    userId: string,
    date: int,
    cycleDay: Option<int>,
    physicalPainSymptoms: seq<string>,
    moodMentalStates: seq<string>,
    flowIntensity: Option<int>,
    periodIndicators: seq<string>,
    sexualHealthIndicators: seq<string>,
    notes: Option<string>)

  /** The schema bound on flow intensity: 0 to 10 when present. */
  predicate WithinSchema(log: DailyLog) {
    log.flowIntensity.Some? ==> 0 <= log.flowIntensity.value <= 10
  }

  /** What `getDailyLogsByDateRange(userId, start, end)` returns: the user's
      logs dated within `[start, end]`, oldest first. */
  predicate FetchedByDateRange(logs: seq<DailyLog>, userId: string, start: int, end: int) {
    && (forall i :: 0 <= i < |logs| ==> logs[i].userId == userId && start <= logs[i].date <= end)
    && SortedBy(logs, DateOf)
  }

  function DateOf(log: DailyLog): int {
    log.date
  }

  // ---------------------------------------------------------------------
  // Symptom categories and their occurrence counts

  datatype Category = PhysicalPain | MoodMental | PeriodIndicator | SexualHealth

  function Entries(log: DailyLog, category: Category): seq<string> {
    match category
    case PhysicalPain => log.physicalPainSymptoms
    case MoodMental => log.moodMentalStates
    case PeriodIndicator => log.periodIndicators
    case SexualHealth => log.sexualHealthIndicators
  }

  /** Every entry of `category` across the logs, in log order. */
  function Items(logs: seq<DailyLog>, category: Category): seq<string> {
    if logs == [] then []
    else Items(logs[..|logs| - 1], category) + Entries(logs[|logs| - 1], category)
  }

  /** A string is among the items of a category exactly when some log lists
      it in that category. */
  lemma {:induction false} ItemsMembers(logs: seq<DailyLog>, category: Category)
    ensures forall x :: x in Items(logs, category) <==>
              exists i :: 0 <= i < |logs| && x in Entries(logs[i], category)
  {
    if logs != [] {
      var prefix := logs[..|logs| - 1];
      ItemsMembers(prefix, category);
      forall x | (exists i :: 0 <= i < |logs| && x in Entries(logs[i], category))
        ensures x in Items(logs, category)
      {
        var i :| 0 <= i < |logs| && x in Entries(logs[i], category);
        if i < |logs| - 1 {
          assert prefix[i] == logs[i];
        }
      }
      forall x | x in Items(logs, category)
        ensures exists i :: 0 <= i < |logs| && x in Entries(logs[i], category)
      {
        if x in Items(prefix, category) {
          var i :| 0 <= i < |prefix| && x in Entries(prefix[i], category);
          assert logs[i] == prefix[i];
        } else {
          assert x in Entries(logs[|logs| - 1], category);
        }
      }
    }
  }

  /** The number of items of a category is the sum of the lengths of the
      logs' lists for it. */
  function EntryCount(logs: seq<DailyLog>, category: Category): nat {
    if logs == [] then 0 else |Entries(logs[0], category)| + EntryCount(logs[1..], category)
  }

  lemma {:induction false} ItemsLength(logs: seq<DailyLog>, category: Category)
    ensures |Items(logs, category)| == EntryCount(logs, category)
  {
    if logs != [] {
      ItemsLength(logs[..|logs| - 1], category);
      EntryCountSplit(logs[..|logs| - 1], [logs[|logs| - 1]], category);
      assert logs[..|logs| - 1] + [logs[|logs| - 1]] == logs;
      assert [logs[|logs| - 1]][1..] == [];
    }
  }

  lemma {:induction false} EntryCountSplit(a: seq<DailyLog>, b: seq<DailyLog>, category: Category)
    ensures EntryCount(a + b, category) == EntryCount(a, category) + EntryCount(b, category)
  {
    if a != [] {
      EntryCountSplit(a[1..], b, category);
      assert (a + b)[1..] == a[1..] + b;
    } else {
      assert a + b == b;
    }
  }

  /** In each of the four maps a key's count is its number of occurrences
      across the logs' lists for that category, the keys are exactly the
      strings that occur, and the counts add up to the total length of those
      lists. */
  lemma FrequencyTableCounts(logs: seq<DailyLog>, category: Category)
    ensures var table := TableOf(Items(logs, category));
      && WellFormed(table)
      && (forall k :: k in table.counts <==> exists i :: 0 <= i < |logs| && k in Entries(logs[i], category))
      && (forall k :: k in table.counts ==> table.counts[k] == multiset(Items(logs, category))[k])
      && SumCounts(table.keys, table.counts) == EntryCount(logs, category)
  {
    var items := Items(logs, category);
    TableOfWellFormed(items);
    TallyCounts(items);
    ItemsMembers(logs, category);
    TallyTotal(items);
    ItemsLength(logs, category);
  }

  // ---------------------------------------------------------------------
  // Average flow intensity

  /** `log.flowIntensity || 0` */
  function Flow(log: DailyLog): int {
    log.flowIntensity.GetOr(0)
  }

  /** The positive flow intensities of the logs, in order. */
  function PositiveFlows(logs: seq<DailyLog>): (r: seq<int>)
    ensures forall v :: v in r ==> v > 0
    ensures forall i :: 0 <= i < |logs| && Flow(logs[i]) > 0 ==> Flow(logs[i]) in r
    ensures |r| == 0 <==> forall i :: 0 <= i < |logs| ==> Flow(logs[i]) <= 0
  {
    if logs == [] then []
    else
      var rest := PositiveFlows(logs[1..]);
      assert forall i :: 1 <= i < |logs| ==> logs[i] == logs[1..][i - 1];
      (if Flow(logs[0]) > 0 then [Flow(logs[0])] else []) + rest
  }

  /** Every positive flow is kept, in log order and as often as it occurs:
      one log contributes its flow exactly when that is positive, and two
      runs of logs contribute their flows one after the other. */
  lemma {:induction false} PositiveFlowsAppend(a: seq<DailyLog>, b: seq<DailyLog>)
    ensures PositiveFlows(a + b) == PositiveFlows(a) + PositiveFlows(b)
    ensures |a| == 1 ==> PositiveFlows(a) == if Flow(a[0]) > 0 then [Flow(a[0])] else []
  {
    if a == [] {
      assert a + b == b;
    } else {
      var head := if Flow(a[0]) > 0 then [Flow(a[0])] else [];
      calc {
        PositiveFlows(a + b);
        { assert a + b == [a[0]] + (a[1..] + b); }
        PositiveFlows([a[0]] + (a[1..] + b));
        { PositiveFlowsCons(a[0], a[1..] + b); }
        head + PositiveFlows(a[1..] + b);
        { PositiveFlowsAppend(a[1..], b); }
        head + (PositiveFlows(a[1..]) + PositiveFlows(b));
        (head + PositiveFlows(a[1..])) + PositiveFlows(b);
        { PositiveFlowsCons(a[0], a[1..]); assert [a[0]] + a[1..] == a; }
        PositiveFlows(a) + PositiveFlows(b);
      }
      if |a| == 1 {
        assert a[1..] == [];
      }
    }
  }

  lemma PositiveFlowsCons(log: DailyLog, logs: seq<DailyLog>)
    ensures PositiveFlows([log] + logs) == (if Flow(log) > 0 then [Flow(log)] else []) + PositiveFlows(logs)
  {
    assert ([log] + logs)[1..] == logs;
  }

  function Sum(values: seq<int>): int {
    if values == [] then 0 else values[0] + Sum(values[1..])
  }

  /** The arithmetic mean of `count` values adding up to `total`. */
  function Mean(total: int, count: int): (r: real)
    requires count > 0
    ensures r * (count as real) == total as real
  {
    (total as real) / (count as real)
  }

  /** A mean of values between `lo` and `hi` lies between them. */
  lemma MeanBounds(total: int, count: int, lo: int, hi: int)
    requires count > 0 && count * lo <= total <= count * hi
    ensures lo as real <= Mean(total, count) <= hi as real
  {
    var r, n := Mean(total, count), count as real;
    assert (n as real) * (lo as real) == (count * lo) as real;
    assert (n as real) * (hi as real) == (count * hi) as real;
    assert (r - lo as real) * n == total as real - n * (lo as real);
    assert (hi as real - r) * n == n * (hi as real) - total as real;
  }

  /** `calculateAverageIntensity`: the mean of the positive intensities, or 0
      when there are none. */
  function CalculateAverageIntensity(logs: seq<DailyLog>): (r: real)
    ensures |PositiveFlows(logs)| == 0 ==> r == 0.0
    ensures |PositiveFlows(logs)| > 0 ==> r == Mean(Sum(PositiveFlows(logs)), |PositiveFlows(logs)|)
  {
    if |logs| == 0 then 0.0
    else
      var intensities := PositiveFlows(logs);
      if |intensities| == 0 then 0.0
      else Mean(Sum(intensities), |intensities|)
  }

  lemma {:induction false} SumBounds(values: seq<int>, lo: int, hi: int)
    requires forall v :: v in values ==> lo <= v <= hi
    ensures |values| * lo <= Sum(values) <= |values| * hi
  {
    if values != [] {
      assert forall v :: v in values[1..] ==> v in values;
      SumBounds(values[1..], lo, hi);
      assert values[0] in values;
      MultiplyStep(|values[1..]|, lo);
      MultiplyStep(|values[1..]|, hi);
    }
  }

  /** The positive intensities of the logs, each between `lo` and `hi`,
      average to a value between `lo` and `hi`. */
  lemma AverageIntensityBounds(logs: seq<DailyLog>, lo: int, hi: int)
    requires exists i :: 0 <= i < |logs| && Flow(logs[i]) > 0
    requires forall v :: v in PositiveFlows(logs) ==> lo <= v <= hi
    ensures lo as real <= CalculateAverageIntensity(logs) <= hi as real
  {
    var flows := PositiveFlows(logs);
    assert |flows| > 0;
    SumBounds(flows, lo, hi);
    MeanBounds(Sum(flows), |flows|, lo, hi);
  }

  /** Under the schema bound the average is 0 exactly when no intensity is
      positive, and otherwise lies in [1, 10]. */
  lemma AverageIntensityWithinSchema(logs: seq<DailyLog>)
    requires forall i :: 0 <= i < |logs| ==> WithinSchema(logs[i])
    ensures var avg := CalculateAverageIntensity(logs);
      && (avg == 0.0 <==> forall i :: 0 <= i < |logs| ==> Flow(logs[i]) <= 0)
      && (avg != 0.0 ==> 1.0 <= avg <= 10.0)
  {
    if exists i :: 0 <= i < |logs| && Flow(logs[i]) > 0 {
      forall v | v in PositiveFlows(logs) ensures 1 <= v <= 10 {
        PositiveFlowsFrom(logs, v);
      }
      AverageIntensityBounds(logs, 1, 10);
    }
  }

  lemma {:induction false} PositiveFlowsFrom(logs: seq<DailyLog>, v: int)
    requires v in PositiveFlows(logs)
    ensures exists i :: 0 <= i < |logs| && Flow(logs[i]) == v
  {
    if Flow(logs[0]) == v {
    } else {
      PositiveFlowsFrom(logs[1..], v);
      var i :| 0 <= i < |logs[1..]| && Flow(logs[1..][i]) == v;
      assert logs[i + 1] == logs[1..][i];
    }
  }

  // ---------------------------------------------------------------------
  // Trend

  datatype IntensityChange = Increasing | Decreasing | Stable

  /** The ±1 threshold on the change in average intensity. */
  function ClassifyChange(diff: real): (r: IntensityChange)
    ensures r == Increasing <==> diff > 1.0
    ensures r == Decreasing <==> diff < -1.0
    ensures r == Stable <==> -1.0 <= diff <= 1.0
  {
    if diff > 1.0 then Increasing else if diff < -1.0 then Decreasing else Stable
  }

  /** The logs ordered by date, oldest first (the comparator
      `a.date - b.date`). */
  function SortedByDate(logs: seq<DailyLog>): seq<DailyLog> {
    SortBy(logs, DateOf)
  }

  /** The first `floor(n/2)` logs; the second half holds the rest. */
  function FirstHalf(sorted: seq<DailyLog>): seq<DailyLog> {
    sorted[..|sorted| / 2]
  }

  function SecondHalf(sorted: seq<DailyLog>): seq<DailyLog> {
    sorted[|sorted| / 2..]
  }

  /** The sorted logs are an ascending permutation of the input, and the two
      halves split them with the odd one out in the second half. */
  lemma SortedHalves(logs: seq<DailyLog>)
    ensures var sorted := SortedByDate(logs);
      && SortedBy(sorted, DateOf)
      && multiset(sorted) == multiset(logs)
      && FirstHalf(sorted) + SecondHalf(sorted) == sorted
      && |FirstHalf(sorted)| == |logs| / 2
      && |SecondHalf(sorted)| - |FirstHalf(sorted)| in {0, 1}
  {
    var sorted := SortedByDate(logs);
    assert |sorted| == |multiset(sorted)| == |logs|;
  }

  /** Whether average flow intensity rises, falls or stays within one point
      from the earlier half of the logs to the later half. */
  function IntensityTrend(logs: seq<DailyLog>): IntensityChange {
    var sorted := SortedByDate(logs);
    ClassifyChange(CalculateAverageIntensity(SecondHalf(sorted)) - CalculateAverageIntensity(FirstHalf(sorted)))
  }

  /** The result of `getTrends`. */
  datatype TrendsReport = TrendsReport(
    mostFrequentSymptom: Option<string>,
    symptomIntensityChange: IntensityChange,
    physicalPainFrequency: FrequencyTable,
    moodMentalFrequency: FrequencyTable,
    periodIndicatorFrequency: FrequencyTable,
    sexualHealthFrequency: FrequencyTable)

  /** `a || b` on nullable strings: `b` unless `a` is a non-empty string. */
  function OrElse(a: Option<string>, b: Option<string>): Option<string> {
    if a.Some? && a.value != "" then a else b
  }

  /** What `getTrends` computes from the logs its query returned. */
  function Trends(logs: seq<DailyLog>): TrendsReport {
    var pain := TableOf(Items(logs, PhysicalPain));
    var mood := TableOf(Items(logs, MoodMental));
    TrendsReport(
      OrElse(MostFrequent(pain), MostFrequent(mood)),
      IntensityTrend(logs),
      pain,
      mood,
      TableOf(Items(logs, PeriodIndicator)),
      TableOf(Items(logs, SexualHealth)))
  }

  /** `getMostFrequent`: scan the map in insertion order, keeping the first
      key that beats the running maximum. */
  method GetMostFrequent(m: FrequencyMap) returns (r: Option<string>)
    requires WellFormed(m.Snapshot())
    ensures r == MostFrequent(m.Snapshot())
    ensures r.None? <==> m.keys == []
    ensures r.Some? ==>
              r.value in m.counts && forall k :: k in m.counts ==> m.counts[k] <= m.counts[r.value]
  {
    MostFrequentIsFirstMaximum(m.Snapshot());
    if |m.keys| == 0 {
      return None;
    }
    var maxCount := 0;
    var mostFrequent := "";
    var i := 0;
    while i < |m.keys|
      invariant 0 <= i <= |m.keys|
      invariant (maxCount, mostFrequent) == Leader(m.keys[..i], m.counts)
    {
      assert m.keys[..i + 1][..i] == m.keys[..i];
      var item := m.keys[i];
      var count := CountOf(m.counts, item);
      if count > maxCount {
        maxCount := count;
        mostFrequent := item;
      }
      i := i + 1;
    }
    assert m.keys[..i] == m.keys;
    r := Some(mostFrequent);
  }

  /** The `forEach` over the logs that fills the four count maps. */
  method CountCategories(logs: seq<DailyLog>) returns (pain: FrequencyMap, mood: FrequencyMap,
                                                       period: FrequencyMap, sexual: FrequencyMap)
    ensures pain.Holds(Items(logs, PhysicalPain)) && mood.Holds(Items(logs, MoodMental))
    ensures period.Holds(Items(logs, PeriodIndicator)) && sexual.Holds(Items(logs, SexualHealth))
  {
    pain := new FrequencyMap();
    mood := new FrequencyMap();
    period := new FrequencyMap();
    sexual := new FrequencyMap();
    var i := 0;
    while i < |logs|
      invariant 0 <= i <= |logs|
      invariant pain.Holds(Items(logs[..i], PhysicalPain))
      invariant mood.Holds(Items(logs[..i], MoodMental))
      invariant period.Holds(Items(logs[..i], PeriodIndicator))
      invariant sexual.Holds(Items(logs[..i], SexualHealth))
    {
      var log := logs[i];
      assert logs[..i + 1][..i] == logs[..i];
      CountAll(pain, Items(logs[..i], PhysicalPain), log.physicalPainSymptoms);
      CountAll(mood, Items(logs[..i], MoodMental), log.moodMentalStates);
      CountAll(period, Items(logs[..i], PeriodIndicator), log.periodIndicators);
      CountAll(sexual, Items(logs[..i], SexualHealth), log.sexualHealthIndicators);
      i := i + 1;
    }
    assert logs[..i] == logs;
  }

  /** `getTrends` over the logs its query returned: fill the four count maps
      log by log, pick the most frequent symptom, sort by date and compare the
      two halves' average intensity. */
  method GetTrends(logs: seq<DailyLog>) returns (report: TrendsReport)
    ensures report == Trends(logs)
  {
    var pain, mood, period, sexual := CountCategories(logs);
    TableOfWellFormed(Items(logs, PhysicalPain));
    TableOfWellFormed(Items(logs, MoodMental));
    var mostFrequentPhysicalPain := GetMostFrequent(pain);
    var mostFrequentMood := GetMostFrequent(mood);

    var sortedLogs := SortedByDate(logs);
    var midpoint := |sortedLogs| / 2;
    var firstHalf, secondHalf := sortedLogs[..midpoint], sortedLogs[midpoint..];
    var firstHalfAvgIntensity := CalculateAverageIntensity(firstHalf);
    var secondHalfAvgIntensity := CalculateAverageIntensity(secondHalf);
    var intensityChange := Stable;
    var diff := secondHalfAvgIntensity - firstHalfAvgIntensity;
    if diff > 1.0 {
      intensityChange := Increasing;
    } else if diff < -1.0 {
      intensityChange := Decreasing;
    }

    report := TrendsReport(
      OrElse(mostFrequentPhysicalPain, mostFrequentMood),
      intensityChange,
      pain.Snapshot(),
      mood.Snapshot(),
      period.Snapshot(),
      sexual.Snapshot());
  }

  /** `getMostFrequentSymptom`: the trends' most frequent symptom, `null`
      when there is none or it is the empty string. */
  method GetMostFrequentSymptom(logs: seq<DailyLog>) returns (r: Option<string>)
    ensures r.Some? ==> r.value != "" && Trends(logs).mostFrequentSymptom == r
    ensures r.None? ==> Trends(logs).mostFrequentSymptom in {None, Some("")}
  {
    var trends := GetTrends(logs);
    r := OrElse(trends.mostFrequentSymptom, None);
  }

  // ---------------------------------------------------------------------
  // Properties of the trends

  /** No logs: empty maps, no symptom, a stable trend. */
  lemma TrendsOfNoLogs()
    ensures Trends([]) == TrendsReport(None, Stable, FrequencyTable([], map[]), FrequencyTable([], map[]),
                                       FrequencyTable([], map[]), FrequencyTable([], map[]))
  {
  }

  /** When no physical-pain symptom is the empty string, the most frequent
      symptom is the physical-pain winner if any pain was logged, else the
      mood winner, else null. */
  lemma MostFrequentSymptomFallback(logs: seq<DailyLog>)
    requires forall i :: 0 <= i < |logs| ==> "" !in logs[i].physicalPainSymptoms
    ensures var pain := TableOf(Items(logs, PhysicalPain));
      Trends(logs).mostFrequentSymptom ==
        if pain.keys != [] then MostFrequent(pain) else MostFrequent(TableOf(Items(logs, MoodMental)))
  {
    var items := Items(logs, PhysicalPain);
    var pain := TableOf(items);
    TableOfWellFormed(items);
    MostFrequentIsFirstMaximum(pain);
    if pain.keys != [] {
      var best := MostFrequent(pain).value;
      DistinctKeys(items);
      ItemsMembers(logs, PhysicalPain);
      assert best != "";
    }
  }

  /** The trend is decided by the two halves of the date-sorted logs alone:
      increasing exactly when the later half averages more than one point
      higher, decreasing exactly when it averages more than one point lower. */
  lemma TrendThresholds(logs: seq<DailyLog>)
    ensures var sorted := SortedByDate(logs);
      var diff := CalculateAverageIntensity(SecondHalf(sorted)) - CalculateAverageIntensity(FirstHalf(sorted));
      && (Trends(logs).symptomIntensityChange == Increasing <==> diff > 1.0)
      && (Trends(logs).symptomIntensityChange == Decreasing <==> diff < -1.0)
      && (Trends(logs).symptomIntensityChange == Stable <==> -1.0 <= diff <= 1.0)
  {
  }

  /** A single log with flow above 1 already reads as increasing: its first
      half is empty and averages 0. */
  lemma SingleLogReadsAsIncreasing(log: DailyLog)
    requires Flow(log) > 1
    ensures Trends([log]).symptomIntensityChange == Increasing
  {
    assert SortedBy([log], DateOf);
    SortSortedIsIdentity([log], DateOf);
    assert FirstHalf([log]) == [];
    assert SecondHalf([log]) == [log];
    assert [log][1..] == [];
    assert PositiveFlows([log]) == [Flow(log)];
    assert Sum([Flow(log)]) == Flow(log);
    assert CalculateAverageIntensity([log]) == Flow(log) as real;
  }

  /** Three logs with positive flows average to their sum over three. */
  lemma AverageOfThree(logs: seq<DailyLog>)
    requires |logs| == 3 && Flow(logs[0]) > 0 && Flow(logs[1]) > 0 && Flow(logs[2]) > 0
    ensures CalculateAverageIntensity(logs) == Mean(Flow(logs[0]) + Flow(logs[1]) + Flow(logs[2]), 3)
  {
    assert PositiveFlows(logs[2..][1..]) == [];
    assert PositiveFlows(logs[1..][1..]) == [Flow(logs[2])];
    assert PositiveFlows(logs[1..]) == [Flow(logs[1]), Flow(logs[2])];
    var flows := PositiveFlows(logs);
    assert flows == [Flow(logs[0]), Flow(logs[1]), Flow(logs[2])];
    assert Sum(flows) == Flow(logs[0]) + Flow(logs[1]) + Flow(logs[2]) by {
      assert flows[1..][1..][1..] == [];
      assert Sum(flows[1..][1..]) == Flow(logs[2]);
      assert Sum(flows[1..]) == Flow(logs[1]) + Flow(logs[2]);
    }
  }

  /** Flow intensities 2, 2, 2, 8, 9, 9 on consecutive days average 2 in the
      first half and 26/3 in the second: increasing. */
  lemma SixDayExample(logs: seq<DailyLog>)
    requires |logs| == 6
    requires forall i :: 0 <= i < 6 ==> logs[i].date == i
    requires Flow(logs[0]) == 2 && Flow(logs[1]) == 2 && Flow(logs[2]) == 2
    requires Flow(logs[3]) == 8 && Flow(logs[4]) == 9 && Flow(logs[5]) == 9
    ensures CalculateAverageIntensity(FirstHalf(logs)) == 2.0
    ensures CalculateAverageIntensity(SecondHalf(logs)) == 26.0 / 3.0
    ensures Trends(logs).symptomIntensityChange == Increasing
  {
    assert SortedBy(logs, DateOf);
    SortSortedIsIdentity(logs, DateOf);
    AverageOfThree(FirstHalf(logs));
    AverageOfThree(SecondHalf(logs));
  }
}
