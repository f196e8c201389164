/** The monthly health report: a cycle summary, symptom percentages, the
    flow pattern, one line per logged day, a summary text and tips, composed
    from the cycle and daily-log services
    (src/modules/health-reports/health-reports.service.ts). */
module HealthReports {
  import opened Wrappers
  import opened Calendar
  import opened Sorting
  import opened Frequencies
  import opened Cycles
  import opened DailyLogs
  import opened Text

  // ---------------------------------------------------------------------
  // Cycle summary

  datatype CycleSummary = CycleSummary(
    cycleLength: int,
    periodDuration: int,
    estimatedNextPeriod: Option<int>,
    ovulationWindow: Option<Window>,
    currentCycleDay: Option<int>)

  /** The number of days from period start to period end, both included; 0
      unless both are recorded. */
  function PeriodDuration(cycle: Cycle): (r: int)
    ensures cycle.periodStartDate.None? || cycle.periodEndDate.None? ==> r == 0
    ensures cycle.periodStartDate.Some? && cycle.periodEndDate.Some? ==>
              AddDays(cycle.periodStartDate.value, r - 1) == cycle.periodEndDate.value
  {
    match (cycle.periodStartDate, cycle.periodEndDate)
    case (Some(periodStart), Some(periodEnd)) => periodEnd - periodStart + 1
    case _ => 0
  }

  /** `getCycleSummary` for `cycle`, whose owner's cycles, newest first, are
      `history`. */
  function GetCycleSummary(cycle: Cycle, history: seq<Cycle>): (r: CycleSummary)
    ensures r.cycleLength == cycle.cycleLength && r.currentCycleDay == cycle.currentCycleDay
    ensures cycle.periodStartDate.None? || cycle.periodEndDate.None? ==> r.periodDuration == 0
    ensures cycle.periodStartDate.Some? && cycle.periodEndDate.Some? ==>
              AddDays(cycle.periodStartDate.value, r.periodDuration - 1) == cycle.periodEndDate.value
    ensures r.estimatedNextPeriod == PredictNextPeriod(history)
    ensures r.estimatedNextPeriod.None? <==> |history| == 0
    ensures r.ovulationWindow.Some? <==> cycle.periodStartDate.Some?
    ensures r.ovulationWindow.Some? ==>
              CalculateCycleDay(cycle.periodStartDate.value, r.ovulationWindow.value.start) == 13 &&
              CalculateCycleDay(cycle.periodStartDate.value, r.ovulationWindow.value.end) == 15
  {
    CycleSummary(
      cycle.cycleLength,
      PeriodDuration(cycle),
      PredictNextPeriod(history),
      CalculateOvulationWindow(cycle),
      cycle.currentCycleDay)
  }

  /** The summary of one of the owner's cycles always carries a prediction,
      and an ovulation window exactly when the period start is recorded. */
  lemma CycleSummaryOfOwnCycle(cycle: Cycle, history: seq<Cycle>)
    requires cycle in history
    ensures var summary := GetCycleSummary(cycle, history);
      && summary.estimatedNextPeriod.Some?
      && (summary.ovulationWindow.Some? <==> cycle.periodStartDate.Some?)
      && summary.cycleLength == cycle.cycleLength
      && summary.currentCycleDay == cycle.currentCycleDay
  {
  }

  // ---------------------------------------------------------------------
  // Symptom frequency

  datatype SymptomFrequency = SymptomFrequency(
    physicalPain: int,
    moodMental: int,
    digestionAppetite: int,
    sexualHealth: int)

  /** `Math.round((count / totalDays) * 100)`: the percentage rounded half
      up. */
  function Percentage(count: int, totalDays: int): (r: int)
    requires totalDays > 0
    ensures 2 * totalDays * r - totalDays <= 200 * count < 2 * totalDays * r + totalDays
  {
    RoundedMean(100 * count, totalDays)
  }

  /** The counts of a frequency object added up. */
  function TableTotal(table: FrequencyTable): int {
    SumCounts(table.keys, table.counts)
  }

  /** `getSymptomFrequency` over the logs of the range: all four fields
      are 0 without logs; otherwise each is the rounded percentage of all
      entries of its category over the number of logs, and the digestion
      field repeats the mood field. */
  function GetSymptomFrequency(logs: seq<DailyLog>): (r: SymptomFrequency)
    ensures r.digestionAppetite == r.moodMental
    ensures |logs| == 0 ==> r == SymptomFrequency(0, 0, 0, 0)
    ensures |logs| > 0 ==>
              && r.physicalPain == Percentage(EntryCount(logs, PhysicalPain), |logs|)
              && r.moodMental == Percentage(EntryCount(logs, MoodMental), |logs|)
              && r.sexualHealth == Percentage(EntryCount(logs, SexualHealth), |logs|)
  {
    var trends := Trends(logs);
    var totalDays := |logs|;
    if totalDays == 0 then SymptomFrequency(0, 0, 0, 0)
    else
      FrequencyTableCounts(logs, PhysicalPain);
      FrequencyTableCounts(logs, MoodMental);
      FrequencyTableCounts(logs, SexualHealth);
      var physicalPainCount := TableTotal(trends.physicalPainFrequency);
      var moodMentalCount := TableTotal(trends.moodMentalFrequency);
      var sexualHealthCount := TableTotal(trends.sexualHealthFrequency);
      SymptomFrequency(
        Percentage(physicalPainCount, totalDays),
        Percentage(moodMentalCount, totalDays),
        Percentage(moodMentalCount, totalDays),
        Percentage(sexualHealthCount, totalDays))
  }

  /** A percentage counts entries, not days, so it can exceed 100: one log
      listing two pain symptoms scores 200. */
  lemma SymptomFrequencyCanExceedHundred(log: DailyLog)
    requires |log.physicalPainSymptoms| == 2
    ensures GetSymptomFrequency([log]).physicalPain == 200
  {
    assert EntryCount([log], PhysicalPain) == 2 by {
      assert [log][1..] == [];
    }
    assert Percentage(2, 1) == 200;
  }

  // ---------------------------------------------------------------------
  // Flow pattern

  datatype FlowPoint = FlowPoint(date: int, intensity: int)

  function PointDate(p: FlowPoint): int {
    p.date
  }

  /** The logs with a positive flow intensity, as points, in log order. */
  function FlowPoints(logs: seq<DailyLog>): seq<FlowPoint> {
    if logs == [] then []
    else
      var log := logs[0];
      (if log.flowIntensity.Some? && log.flowIntensity.value > 0
       then [FlowPoint(log.date, log.flowIntensity.value)] else [])
      + FlowPoints(logs[1..])
  }

  /** A point is listed exactly when some log has that date and that
      positive intensity. */
  lemma {:induction false} FlowPointsMembers(logs: seq<DailyLog>)
    ensures forall p :: p in FlowPoints(logs) <==>
              p.intensity > 0 && exists i :: 0 <= i < |logs| && logs[i].date == p.date &&
                                             logs[i].flowIntensity == Some(p.intensity)
  {
    if logs != [] {
      FlowPointsMembers(logs[1..]);
      forall p: FlowPoint | p.intensity > 0 && exists i :: 0 <= i < |logs| && logs[i].date == p.date &&
                                                logs[i].flowIntensity == Some(p.intensity)
        ensures p in FlowPoints(logs)
      {
        var i :| 0 <= i < |logs| && logs[i].date == p.date && logs[i].flowIntensity == Some(p.intensity);
        if i > 0 {
          assert logs[1..][i - 1] == logs[i];
        }
      }
      forall p: FlowPoint | p in FlowPoints(logs[1..])
        ensures exists i :: 0 <= i < |logs| && logs[i].date == p.date &&
                            logs[i].flowIntensity == Some(p.intensity)
      {
        var i :| 0 <= i < |logs[1..]| && logs[1..][i].date == p.date &&
                 logs[1..][i].flowIntensity == Some(p.intensity);
        assert logs[i + 1] == logs[1..][i];
      }
    }
  }

  /** `getFlowPattern`: the points of the positive-flow logs, ascending by
      date, each as often as it occurs. */
  function GetFlowPattern(logs: seq<DailyLog>): (r: seq<FlowPoint>)
    ensures SortedBy(r, PointDate)
    ensures multiset(r) == multiset(FlowPoints(logs))
    ensures forall p :: p in r <==>
              p.intensity > 0 && exists i :: 0 <= i < |logs| && logs[i].date == p.date &&
                                             logs[i].flowIntensity == Some(p.intensity)
  {
    var r := SortBy(FlowPoints(logs), PointDate);
    FlowPointsMembers(logs);
    assert forall p :: p in r <==> p in FlowPoints(logs) by {
      forall p: FlowPoint ensures p in r <==> p in FlowPoints(logs) {
        assert p in r <==> p in multiset(r);
      }
    }
    r
  }

  /** Points drawn from date-ordered logs are already date-ordered. */
  lemma {:induction false} FlowPointsSorted(logs: seq<DailyLog>)
    requires SortedBy(logs, DateOf)
    ensures SortedBy(FlowPoints(logs), PointDate)
  {
    if logs != [] {
      var tail := logs[1..];
      assert SortedBy(tail, DateOf) by {
        forall i, j | 0 <= i < j < |tail| ensures DateOf(tail[i]) <= DateOf(tail[j]) {
          assert tail[i] == logs[i + 1] && tail[j] == logs[j + 1];
        }
      }
      FlowPointsSorted(tail);
      FlowPointsMembers(tail);
      forall p | p in FlowPoints(tail) ensures logs[0].date <= p.date {
        var i :| 0 <= i < |tail| && tail[i].date == p.date && tail[i].flowIntensity == Some(p.intensity);
        assert tail[i] == logs[i + 1];
        assert DateOf(logs[0]) <= DateOf(logs[i + 1]);
      }
    }
  }

  /** On logs as the range query returns them, oldest first, the sort keeps
      the points in log order. */
  lemma FlowPatternOfFetchedLogs(logs: seq<DailyLog>, userId: string, start: int, end: int)
    requires FetchedByDateRange(logs, userId, start, end)
    ensures GetFlowPattern(logs) == FlowPoints(logs)
  {
    FlowPointsSorted(logs);
    SortSortedIsIdentity(FlowPoints(logs), PointDate);
  }

  // ---------------------------------------------------------------------
  // Historical logs

  /** The categories in the order `getTopSymptom` tries them. */
  const Priority: seq<Category> := [PhysicalPain, MoodMental, PeriodIndicator, SexualHealth]

  function Label(category: Category): string {
    match category
    case PhysicalPain => "Physical Pain"
    case MoodMental => "Mood & Mental"
    case PeriodIndicator => "Period Indicators"
    case SexualHealth => "Sexual Health"
  }

  /** `getTopSymptom`: the label of the first category, in priority order,
      that the log lists anything for; "None" when it lists nothing. */
  function GetTopSymptom(log: DailyLog): (r: string)
    ensures r == "None" <==> forall category :: Entries(log, category) == []
    ensures r != "None" ==>
              exists i :: 0 <= i < |Priority| && r == Label(Priority[i]) &&
                          Entries(log, Priority[i]) != [] &&
                          forall j :: 0 <= j < i ==> Entries(log, Priority[j]) == []
  {
    if |log.physicalPainSymptoms| > 0 then
      assert Entries(log, Priority[0]) != [];
      "Physical Pain"
    else if |log.moodMentalStates| > 0 then
      assert Entries(log, Priority[1]) != [];
      "Mood & Mental"
    else if |log.periodIndicators| > 0 then
      assert Entries(log, Priority[2]) != [];
      "Period Indicators"
    else if |log.sexualHealthIndicators| > 0 then
      assert Entries(log, Priority[3]) != [];
      "Sexual Health"
    else
      "None"
  }

  /** The number of entries a log lists over the four categories. */
  function SymptomTotal(log: DailyLog): nat {
    |log.physicalPainSymptoms| + |log.moodMentalStates| + |log.periodIndicators| + |log.sexualHealthIndicators|
  }

  /** The symptom total capped at 10. */
  function TotalSymptoms(log: DailyLog): (r: nat)
    ensures r <= 10 && r <= SymptomTotal(log)
    ensures r < 10 ==> r == SymptomTotal(log)
  {
    if SymptomTotal(log) < 10 then SymptomTotal(log) else 10
  }

  /** `getTotalSymptoms`: add up the four list lengths, then cap at 10. */
  method GetTotalSymptoms(log: DailyLog) returns (count: int)
    ensures count == TotalSymptoms(log)
  {
    count := 0;
    count := count + |log.physicalPainSymptoms|;
    count := count + |log.moodMentalStates|;
    count := count + |log.periodIndicators|;
    count := count + |log.sexualHealthIndicators|;
    if count > 10 {
      count := 10;
    }
  }

  datatype HistoricalEntry = HistoricalEntry(date: int, topSymptom: string, totalSymptoms: string, note: string)

  const OutOfTen: string := "/10"

  /** One line of `getHistoricalLogs`: the log's date and note (empty when
      absent), its top symptom, and an "n/10" text that reads back to the
      capped symptom total. */
  function HistoricalEntryOf(log: DailyLog): (e: HistoricalEntry)
    ensures e.date == log.date && e.topSymptom == GetTopSymptom(log)
    ensures e.note == if log.notes.Some? then log.notes.value else ""
    ensures var text := e.totalSymptoms;
      && |text| >= 4 && text[|text| - 3..] == OutOfTen
      && AllDigits(text[..|text| - 3])
      && ParseNat(text[..|text| - 3]) == TotalSymptoms(log) <= 10
  {
    var digits := NatToString(TotalSymptoms(log));
    ParseNatToString(TotalSymptoms(log));
    assert (digits + OutOfTen)[..|digits|] == digits;
    assert (digits + OutOfTen)[|digits|..] == OutOfTen;
    HistoricalEntry(log.date, GetTopSymptom(log), digits + OutOfTen, log.notes.GetOr(""))
  }

  /** `getHistoricalLogs`: one entry per log, in log order, each keeping
      its log's date and note, and each "n/10" text reading back to that
      log's capped symptom total. */
  function GetHistoricalLogs(logs: seq<DailyLog>): (r: seq<HistoricalEntry>)
    ensures |r| == |logs|
    ensures forall i :: 0 <= i < |logs| ==>
              var text := r[i].totalSymptoms;
              && r[i].date == logs[i].date
              && r[i].topSymptom == GetTopSymptom(logs[i])
              && r[i].note == (if logs[i].notes.Some? then logs[i].notes.value else "")
              && |text| >= 4 && text[|text| - 3..] == OutOfTen
              && AllDigits(text[..|text| - 3])
              && ParseNat(text[..|text| - 3]) == TotalSymptoms(logs[i]) <= 10
  {
    seq(|logs|, i requires 0 <= i < |logs| => HistoricalEntryOf(logs[i]))
  }

  // ---------------------------------------------------------------------
  // Summary text and tips

  /** How many of the logs satisfy `p` (`logs.filter(p).length`). */
  function CountWhere(logs: seq<DailyLog>, p: DailyLog -> bool): (r: nat)
    ensures r <= |logs|
    ensures r > 0 <==> exists i :: 0 <= i < |logs| && p(logs[i])
  {
    if logs == [] then 0
    else
      var rest := CountWhere(logs[1..], p);
      assert forall i :: 0 <= i < |logs| - 1 ==> logs[1..][i] == logs[i + 1];
      (if p(logs[0]) then 1 else 0) + rest
  }

  /** The count is additive: one log counts 1 exactly when it qualifies,
      and two runs of logs count the sum of their counts. */
  lemma {:induction false} CountWhereAppend(a: seq<DailyLog>, b: seq<DailyLog>, p: DailyLog -> bool)
    ensures CountWhere(a + b, p) == CountWhere(a, p) + CountWhere(b, p)
    ensures |a| == 1 ==> CountWhere(a, p) == if p(a[0]) then 1 else 0
  {
    if a == [] {
      assert a + b == b;
    } else {
      assert (a + b)[1..] == a[1..] + b;
      CountWhereAppend(a[1..], b, p);
      if |a| == 1 {
        assert a[1..] == [];
      }
    }
  }

  predicate HasMood(log: DailyLog) {
    |log.moodMentalStates| > 0
  }

  const NoCycleMessage: string := "No cycle data available for this month."
  const LengthPrefix: string := "Your average cycle length is "
  const LengthSuffix: string := " days. "
  const MoreFrequent: string := "PMS symptoms were more frequent this month. "
  const NormalRange: string := "PMS symptoms were within normal range. "
  const FlowRemark: string := "Flow pattern remains within a typical range."

  /** The sentence on PMS symptoms: "more frequent" when more than half of
      the logs (`pmsSymptoms > dailyLogs.length * 0.5`) list a mood entry. */
  function PmsSentence(logs: seq<DailyLog>): string {
    if 2 * CountWhere(logs, HasMood) > |logs| then MoreFrequent else NormalRange
  }

  /** The opening sentence: the cycle length, 28 when it is 0. */
  function LengthSentence(cycle: Cycle): string {
    LengthPrefix + IntToString(LengthOrDefault(Some(cycle.cycleLength))) + LengthSuffix
  }

  /** What `generateSummaryText` returns. */
  function SummaryText(cycle: Option<Cycle>, logs: seq<DailyLog>): string {
    match cycle
    case None => NoCycleMessage
    case Some(c) => LengthSentence(c) + PmsSentence(logs) + FlowRemark
  }

  /** `generateSummaryText`: builds the text sentence by sentence. */
  method GenerateSummaryText(cycle: Option<Cycle>, logs: seq<DailyLog>) returns (summary: string)
    ensures summary == SummaryText(cycle, logs)
  {
    if cycle.None? {
      return NoCycleMessage;
    }
    var avgCycleLength := LengthOrDefault(Some(cycle.value.cycleLength));
    var pmsSymptoms := CountWhere(logs, HasMood);
    summary := LengthPrefix + IntToString(avgCycleLength) + LengthSuffix;
    if 2 * pmsSymptoms > |logs| {
      summary := summary + MoreFrequent;
    } else {
      summary := summary + NormalRange;
    }
    summary := summary + FlowRemark;
  }

  /** The PMS sentence is the "more frequent" one exactly when more than half
      of the logs list a mood entry, and the "normal range" one exactly
      otherwise. */
  lemma PmsSentenceCases(logs: seq<DailyLog>)
    ensures PmsSentence(logs) == MoreFrequent <==> 2 * CountWhere(logs, HasMood) > |logs|
    ensures PmsSentence(logs) == NormalRange <==> 2 * CountWhere(logs, HasMood) <= |logs|
  {
    SentencesDiffer();
    if 2 * CountWhere(logs, HasMood) > |logs| {
      assert PmsSentence(logs) == MoreFrequent;
    } else {
      assert PmsSentence(logs) == NormalRange;
    }
  }

  lemma SentencesDiffer()
    ensures MoreFrequent != NormalRange
  {
    assert MoreFrequent[18] == 'm' && NormalRange[18] == 'w';
  }

  /** The length named in the opening sentence reads back from it: the
      cycle's length, or 28 when that is 0. */
  lemma LengthSentenceReadsBack(cycle: Cycle)
    ensures var text := LengthSentence(cycle);
      var digits := text[|LengthPrefix|..|text| - |LengthSuffix|];
      && |text| > |LengthPrefix| + |LengthSuffix|
      && IsIntString(digits)
      && ParseInt(digits) == (if cycle.cycleLength == 0 then 28 else cycle.cycleLength)
  {
    var length := LengthOrDefault(Some(cycle.cycleLength));
    var digits := IntToString(length);
    var text := LengthPrefix + digits + LengthSuffix;
    assert text[|LengthPrefix|..|text| - |LengthSuffix|] == digits;
    ParseIntToString(length);
  }

  const CrampTip: string := "Low sleep nights -> higher cramp scores"
  const HydrationTip: string := "Low hydration -> increased bloating"

  /** `log.flowIntensity && log.flowIntensity > 7` */
  predicate HighIntensity(log: DailyLog) {
    Flow(log) > 7
  }

  predicate Bloating(log: DailyLog) {
    "Bloating" in log.physicalPainSymptoms
  }

  /** What `generateTips` returns: the cramp tip exactly when some log has a
      flow above 7, the hydration tip exactly when some log lists
      "Bloating", nothing else, and the cramp tip first. */
  function Tips(logs: seq<DailyLog>): (r: seq<string>)
    ensures CrampTip in r <==> exists i :: 0 <= i < |logs| && HighIntensity(logs[i])
    ensures HydrationTip in r <==> exists i :: 0 <= i < |logs| && Bloating(logs[i])
    ensures |r| <= 2 && forall t :: t in r ==> t == CrampTip || t == HydrationTip
    ensures |r| == 2 ==> r == [CrampTip, HydrationTip]
  {
    assert CrampTip[4] == 's' && HydrationTip[4] == 'h';
    (if CountWhere(logs, HighIntensity) > 0 then [CrampTip] else [])
    + (if CountWhere(logs, Bloating) > 0 then [HydrationTip] else [])
  }

  /** `generateTips`: push each tip whose filter finds a day. */
  method GenerateTips(logs: seq<DailyLog>) returns (tips: seq<string>)
    ensures tips == Tips(logs)
  {
    tips := [];
    var highIntensityDays := CountWhere(logs, HighIntensity);
    if highIntensityDays > 0 {
      tips := tips + [CrampTip];
    }
    var bloatingDays := CountWhere(logs, Bloating);
    if bloatingDays > 0 {
      tips := tips + [HydrationTip];
    }
  }

  // ---------------------------------------------------------------------
  // The monthly report

  /** `cycleStart.getMonth() === month - 1 && cycleStart.getFullYear() === year`:
      the cycle starts within the calendar month. */
  predicate StartsInMonth(cycle: Cycle, month: int, year: int) {
    1 <= month <= 12 && DayNumber(year, month, 1) <= cycle.startDate <= DayNumber(year, month, DaysInMonth(year, month))
  }

  /** `cycles.find(...)`: the first cycle, in list order, that starts in the
      month. */
  function FindCycleInMonth(cycles: seq<Cycle>, month: int, year: int): (r: Option<Cycle>)
    ensures r.None? <==> forall i :: 0 <= i < |cycles| ==> !StartsInMonth(cycles[i], month, year)
    ensures r.Some? ==>
              exists i :: 0 <= i < |cycles| && cycles[i] == r.value && StartsInMonth(r.value, month, year) &&
                          forall j :: 0 <= j < i ==> !StartsInMonth(cycles[j], month, year)
  {
    if cycles == [] then None
    else if StartsInMonth(cycles[0], month, year) then Some(cycles[0])
    else
      var r := FindCycleInMonth(cycles[1..], month, year);
      assert forall i :: 1 <= i < |cycles| ==> cycles[i] == cycles[1..][i - 1];
      if r.Some? then
        var i :| 0 <= i < |cycles[1..]| && cycles[1..][i] == r.value && StartsInMonth(r.value, month, year) &&
                 forall j :: 0 <= j < i ==> !StartsInMonth(cycles[1..][j], month, year);
        assert cycles[i + 1] == r.value;
        r
      else r
  }

  datatype MonthlyReport = MonthlyReport(
    month: int,
    year: int,
    cycleSummary: Option<CycleSummary>,
    symptomFrequency: SymptomFrequency,
    flowPattern: seq<FlowPoint>,
    historicalLogs: seq<HistoricalEntry>,
    summary: string,
    tips: seq<string>)

  /** `getMonthlyReport` over the user's cycles, newest first, and the
      user's logs within the month, oldest first. */
  method GetMonthlyReport(cycles: seq<Cycle>, logs: seq<DailyLog>, month: int, year: int)
    returns (report: MonthlyReport)
    ensures report.month == month && report.year == year
    ensures report.cycleSummary.None? <==> forall i :: 0 <= i < |cycles| ==> !StartsInMonth(cycles[i], month, year)
    ensures report.cycleSummary.Some? ==>
              var cycle := FindCycleInMonth(cycles, month, year).value;
              && report.cycleSummary.value == GetCycleSummary(cycle, cycles)
              && report.cycleSummary.value.estimatedNextPeriod.Some?
    ensures report.symptomFrequency == GetSymptomFrequency(logs)
    ensures report.flowPattern == GetFlowPattern(logs)
    ensures report.historicalLogs == GetHistoricalLogs(logs)
    ensures report.summary == SummaryText(FindCycleInMonth(cycles, month, year), logs)
    ensures report.cycleSummary.None? ==> report.summary == NoCycleMessage
    ensures report.tips == Tips(logs)
  {
    var cycleInMonth := FindCycleInMonth(cycles, month, year);
    var cycleSummary := None;
    if cycleInMonth.Some? {
      CycleSummaryOfOwnCycle(cycleInMonth.value, cycles);
      cycleSummary := Some(GetCycleSummary(cycleInMonth.value, cycles));
    }
    var summary := GenerateSummaryText(cycleInMonth, logs);
    var tips := GenerateTips(logs);
    report := MonthlyReport(
      month,
      year,
      cycleSummary,
      GetSymptomFrequency(logs),
      GetFlowPattern(logs),
      GetHistoricalLogs(logs),
      summary,
      tips);
  }
}
