/** The cycle service: cycle-day arithmetic, the fertile and ovulation
    windows, next-period prediction and the month calendar
    (src/modules/cycles/cycles.service.ts). */
module Cycles {
  import opened Wrappers
  import opened Calendar
  import opened Arithmetic

  datatype CycleStatus = Active | Completed

  /** A stored cycle (src/modules/cycles/schemas/cycle.schema.ts). Dates are
      day numbers; optional fields are `Option`s. */
  datatype Cycle = Cycle(
    userId: string,
    startDate: int,
    endDate: Option<int>,
    cycleLength: int,
    periodStartDate: Option<int>,
    periodEndDate: Option<int>,
    currentCycleDay: Option<int>,
    status: CycleStatus)

  /** The fields a client supplies when it starts tracking a cycle
      (src/modules/cycles/dto/create-cycle.dto.ts). */
  datatype NewCycle = NewCycle(
    userId: string,
    startDate: int,
    periodStartDate: Option<int>,
    periodEndDate: Option<int>,
    cycleLength: Option<int>)

  /** An inclusive range of days. */
  datatype Window = Window(start: int, end: int)

  const DefaultCycleLength: int := 28

  /** `length || 28`: an absent or zero length falls back to 28 days. */
  function LengthOrDefault(length: Option<int>): (r: int)
    ensures r != 0
    ensures length.None? || length.value == 0 ==> r == DefaultCycleLength
    ensures length.Some? && length.value != 0 ==> r == length.value
  {
    if length.None? || length.value == 0 then DefaultCycleLength else length.value
  }

  function Max(a: int, b: int): int { if a < b then b else a }

  function Min(a: int, b: int): int { if a < b then a else b }

  // ---------------------------------------------------------------------
  // Cycle days and windows

  /** The 1-based day of the cycle on which `current` falls; any date before
      the period start counts as day 1. */
  function CalculateCycleDay(periodStart: int, current: int): (r: int)
    ensures r >= 1
    ensures current >= periodStart ==> AddDays(periodStart, r - 1) == current
    ensures current < periodStart ==> r == 1
  {
    Max(1, current - periodStart + 1)
  }

  /** Later dates never fall on an earlier cycle day. */
  lemma CycleDayMonotone(periodStart: int, current: int, later: int)
    requires current <= later
    ensures CalculateCycleDay(periodStart, current) <= CalculateCycleDay(periodStart, later)
  {
  }

  /** The fertile window is cycle days 8 to 19 (twelve days), present exactly
      when the period start is known. */
  function CalculateFertileWindow(cycle: Cycle): (r: Option<Window>)
    ensures r.None? <==> cycle.periodStartDate.None?
    ensures r.Some? ==>
              CalculateCycleDay(cycle.periodStartDate.value, r.value.start) == 8 &&
              CalculateCycleDay(cycle.periodStartDate.value, r.value.end) == 19 &&
              r.value.end - r.value.start + 1 == 12
  {
    match cycle.periodStartDate
    case None => None
    case Some(periodStart) => Some(Window(AddDays(periodStart, 7), AddDays(periodStart, 18)))
  }

  /** The ovulation window is cycle days 13 to 15, present exactly when the
      period start is known. */
  function CalculateOvulationWindow(cycle: Cycle): (r: Option<Window>)
    ensures r.None? <==> cycle.periodStartDate.None?
    ensures r.Some? ==>
              CalculateCycleDay(cycle.periodStartDate.value, r.value.start) == 13 &&
              CalculateCycleDay(cycle.periodStartDate.value, r.value.end) == 15
  {
    match cycle.periodStartDate
    case None => None
    case Some(periodStart) => Some(Window(AddDays(periodStart, 12), AddDays(periodStart, 14)))
  }

  /** Ovulation falls inside the fertile window. */
  lemma OvulationWithinFertileWindow(cycle: Cycle)
    ensures CalculateOvulationWindow(cycle).Some? <==> CalculateFertileWindow(cycle).Some?
    ensures CalculateOvulationWindow(cycle).Some? ==>
              var fertile, ovulation := CalculateFertileWindow(cycle).value, CalculateOvulationWindow(cycle).value;
              fertile.start <= ovulation.start <= ovulation.end <= fertile.end
  {
  }

  /** A period starting on 2024-01-01 has its fertile window from 2024-01-08
      to 2024-01-19 and its ovulation window from 2024-01-13 to 2024-01-15. */
  lemma January2024Windows(cycle: Cycle)
    requires cycle.periodStartDate == Some(DayNumber(2024, 1, 1))
    ensures CalculateFertileWindow(cycle) == Some(Window(DayNumber(2024, 1, 8), DayNumber(2024, 1, 19)))
    ensures CalculateOvulationWindow(cycle) == Some(Window(DayNumber(2024, 1, 13), DayNumber(2024, 1, 15)))
  {
  }

  // ---------------------------------------------------------------------
  // Creating a cycle

  /** `create`: the new cycle is ACTIVE, its length defaults to 28 days, and
      its current cycle day is filled in (relative to `today`) exactly when a
      period start is given. */
  method Create(request: NewCycle, today: int) returns (cycle: Cycle)
    ensures cycle.userId == request.userId && cycle.startDate == request.startDate
    ensures cycle.periodStartDate == request.periodStartDate
    ensures cycle.periodEndDate == request.periodEndDate
    ensures cycle.endDate.None?
    ensures cycle.cycleLength == LengthOrDefault(request.cycleLength)
    ensures cycle.cycleLength != 0
    ensures cycle.status == Active
    ensures cycle.currentCycleDay.Some? <==> request.periodStartDate.Some?
    ensures cycle.currentCycleDay.Some? ==>
              cycle.currentCycleDay.value >= 1 &&
              cycle.currentCycleDay.value == CalculateCycleDay(request.periodStartDate.value, today)
  {
    var cycleLength := LengthOrDefault(request.cycleLength);
    cycle := Cycle(request.userId, request.startDate, None, cycleLength,
                   request.periodStartDate, request.periodEndDate, None, Active);
    if request.periodStartDate.Some? {
      cycle := cycle.(currentCycleDay := Some(CalculateCycleDay(request.periodStartDate.value, today)));
    }
  }

  // ---------------------------------------------------------------------
  // Next-period prediction

  /** The order in which the cycle store lists a user's cycles: newest start
      date first. */
  predicate NewestFirst(cycles: seq<Cycle>) {
    forall i, j :: 0 <= i < j < |cycles| ==> cycles[i].startDate >= cycles[j].startDate
  }

  /** A cycle that enters the average: completed, with a non-zero length. */
  predicate CountsAsCompleted(cycle: Cycle) {
    cycle.status == Completed && cycle.cycleLength != 0
  }

  /** `cycles.filter(c => c.status === COMPLETED && c.cycleLength)`, in
      list order. */
  function CompletedCycles(cycles: seq<Cycle>): (r: seq<Cycle>)
    ensures |r| <= |cycles|
    ensures forall c :: c in r <==> c in cycles && CountsAsCompleted(c)
  {
    if cycles == [] then []
    else (if CountsAsCompleted(cycles[0]) then [cycles[0]] else []) + CompletedCycles(cycles[1..])
  }

  /** The filter keeps each qualifying cycle as often as it occurs, so the
      mean divides by the number of completed entries in the history. */
  lemma {:induction false} CompletedCyclesCounts(cycles: seq<Cycle>)
    ensures forall c :: multiset(CompletedCycles(cycles))[c] == if CountsAsCompleted(c) then multiset(cycles)[c] else 0
  {
    if cycles != [] {
      CompletedCyclesCounts(cycles[1..]);
      assert cycles == [cycles[0]] + cycles[1..];
    }
  }

  function TotalLength(cycles: seq<Cycle>): int {
    if cycles == [] then 0 else cycles[0].cycleLength + TotalLength(cycles[1..])
  }

  /** `Math.round(total / count)`: the integer nearest to the mean, halves
      rounded up. */
  function RoundedMean(total: int, count: int): (r: int)
    requires count > 0
    ensures 2 * count * r - count <= 2 * total < 2 * count * r + count
  {
    var q := (2 * total + count) / (2 * count);
    assert 2 * total + count == (2 * count) * q + (2 * total + count) % (2 * count);
    q
  }

  /** The date a cycle's period is taken to start: `periodStartDate ||
      startDate`. */
  function Anchor(cycle: Cycle): int {
    cycle.periodStartDate.GetOr(cycle.startDate)
  }

  /** The index of the first cycle, in list order, that records a period
      start. */
  function FindWithPeriodStart(cycles: seq<Cycle>): (r: Option<nat>)
    ensures r.Some? ==>
              r.value < |cycles| && cycles[r.value].periodStartDate.Some? &&
              forall j :: 0 <= j < r.value ==> cycles[j].periodStartDate.None?
    ensures r.None? ==> forall j :: 0 <= j < |cycles| ==> cycles[j].periodStartDate.None?
  {
    if cycles == [] then None
    else if cycles[0].periodStartDate.Some? then Some(0)
    else
      match FindWithPeriodStart(cycles[1..])
      case None => None
      case Some(i) => Some(i + 1)
  }

  /** The anchor of the averaged prediction: the period start of the first
      cycle that has one, else the first cycle's start date. */
  function LatestPeriodStart(cycles: seq<Cycle>): (r: int)
    requires |cycles| > 0
    ensures (exists i :: 0 <= i < |cycles| && cycles[i].periodStartDate.Some? &&
              r == cycles[i].periodStartDate.value &&
              forall j :: 0 <= j < i ==> cycles[j].periodStartDate.None?)
            || ((forall j :: 0 <= j < |cycles| ==> cycles[j].periodStartDate.None?) &&
                r == cycles[0].startDate)
  {
    var last := match FindWithPeriodStart(cycles)
                case Some(i) => cycles[i]
                case None => cycles[0];
    Anchor(last)
  }

  /** Listed newest first, as the store lists them, the anchor is the
      period start of the most recently started cycle that records one. */
  lemma AnchorIsNewestPeriodStart(cycles: seq<Cycle>)
    requires NewestFirst(cycles)
    requires exists i :: 0 <= i < |cycles| && cycles[i].periodStartDate.Some?
    ensures exists i :: 0 <= i < |cycles| && cycles[i].periodStartDate == Some(LatestPeriodStart(cycles)) &&
              forall j :: 0 <= j < |cycles| && cycles[j].periodStartDate.Some? ==> cycles[j].startDate <= cycles[i].startDate
  {
    var i := FindWithPeriodStart(cycles).value;
    assert cycles[i].periodStartDate == Some(LatestPeriodStart(cycles));
  }

  /** `predictNextPeriod` over the user's cycles as the store lists them. */
  function PredictNextPeriod(cycles: seq<Cycle>): (r: Option<int>)
    ensures r.None? <==> |cycles| == 0
    ensures |cycles| > 0 && |CompletedCycles(cycles)| == 0 ==>
              r.value - Anchor(cycles[0]) == LengthOrDefault(Some(cycles[0].cycleLength))
    ensures |CompletedCycles(cycles)| > 0 ==>
              var completed := CompletedCycles(cycles);
              var days := r.value - LatestPeriodStart(cycles);
              2 * |completed| * days - |completed| <= 2 * TotalLength(completed) < 2 * |completed| * days + |completed|
  {
    if |cycles| == 0 then None
    else
      var completed := CompletedCycles(cycles);
      if |completed| == 0 then
        Some(AddDays(Anchor(cycles[0]), LengthOrDefault(Some(cycles[0].cycleLength))))
      else
        var avgLength := RoundedMean(TotalLength(completed), |completed|);
        Some(AddDays(LatestPeriodStart(cycles), avgLength))
  }

  /** Bounds on the lengths bound their sum. */
  lemma {:induction false} TotalLengthBounds(cycles: seq<Cycle>, lo: int, hi: int)
    requires forall c :: c in cycles ==> lo <= c.cycleLength <= hi
    ensures |cycles| * lo <= TotalLength(cycles) <= |cycles| * hi
  {
    if cycles != [] {
      TotalLengthBounds(cycles[1..], lo, hi);
      assert cycles[0] in cycles;
      MultiplyStep(|cycles[1..]|, lo);
      MultiplyStep(|cycles[1..]|, hi);
    }
  }

  /** A rounded mean of values in [lo, hi] stays in [lo, hi]. */
  lemma RoundedMeanBounds(total: int, count: int, lo: int, hi: int)
    requires count > 0
    requires count * lo <= total <= count * hi
    ensures lo <= RoundedMean(total, count) <= hi
  {
    var r := RoundedMean(total, count);
    MultiplyMonotone(count, r, lo - 1);
    MultiplyMonotone(count, hi + 1, r);
  }

  /** Once some cycle is completed, the predicted period lies between the
      shortest and the longest completed cycle after the latest period
      start. */
  lemma PredictionWithinCompletedLengths(cycles: seq<Cycle>, lo: int, hi: int)
    requires |CompletedCycles(cycles)| > 0
    requires forall c :: c in cycles && CountsAsCompleted(c) ==> lo <= c.cycleLength <= hi
    ensures PredictNextPeriod(cycles).Some?
    ensures lo <= PredictNextPeriod(cycles).value - LatestPeriodStart(cycles) <= hi
  {
    var completed := CompletedCycles(cycles);
    TotalLengthBounds(completed, lo, hi);
    RoundedMeanBounds(TotalLength(completed), |completed|, lo, hi);
  }

  /** With no usable history, a single active 28-day cycle whose period
      started on day `d` predicts day `d + 28`. */
  lemma SingleActiveCyclePrediction(cycle: Cycle)
    requires cycle.status == Active && cycle.cycleLength == 28 && cycle.periodStartDate.Some?
    ensures PredictNextPeriod([cycle]) == Some(cycle.periodStartDate.value + 28)
  {
    assert CompletedCycles([cycle]) == [] by {
      assert [cycle][1..] == [];
    }
  }

  // ---------------------------------------------------------------------
  // Month calendar

  datatype HighlightKind = PeriodDay | FertileDay

  /** One highlighted calendar day: `{date, type: 'period' | 'fertile'}`. */
  datatype Highlight = Highlight(date: int, kind: HighlightKind)

  datatype CalendarData = CalendarData(month: int, year: int, highlightedDates: seq<Highlight>)

  /** The days `from..to` in order, each tagged with `kind` (empty when
      `from > to`). */
  function DaysBetween(from: int, to: int, kind: HighlightKind): (r: seq<Highlight>)
    ensures |r| == if from <= to then to - from + 1 else 0
    ensures forall i :: 0 <= i < |r| ==> r[i] == Highlight(from + i, kind)
  {
    seq(if from <= to then to - from + 1 else 0, i => Highlight(from + i, kind))
  }

  lemma DaysBetweenMembers(from: int, to: int, kind: HighlightKind)
    ensures forall h :: h in DaysBetween(from, to, kind) <==> h.kind == kind && from <= h.date <= to
  {
    var r := DaysBetween(from, to, kind);
    forall h: Highlight | h.kind == kind && from <= h.date <= to ensures h in r {
      assert r[h.date - from] == h;
    }
  }

  lemma DaysBetweenEmpty(from: int, to: int, kind: HighlightKind)
    requires from > to
    ensures DaysBetween(from, to, kind) == []
  {
  }

  lemma DaysBetweenExtend(from: int, to: int, kind: HighlightKind)
    requires from <= to + 1
    ensures DaysBetween(from, to + 1, kind) == DaysBetween(from, to, kind) + [Highlight(to + 1, kind)]
  {
    var a, b := DaysBetween(from, to + 1, kind), DaysBetween(from, to, kind) + [Highlight(to + 1, kind)];
    assert |a| == |b|;
    forall i | 0 <= i < |a| ensures a[i] == b[i] {
    }
  }

  /** What one cycle contributes to the calendar of the month `[first, last]`:
      the period days inside the month, then the fertile days inside it;
      nothing unless both period dates are known. */
  function CycleHighlights(cycle: Cycle, first: int, last: int): seq<Highlight> {
    match (cycle.periodStartDate, cycle.periodEndDate)
    case (Some(periodStart), Some(periodEnd)) =>
      var fertile := match CalculateFertileWindow(cycle)
                     case Some(w) => DaysBetween(Max(w.start, first), Min(w.end, last), FertileDay)
                     case None => [];
      DaysBetween(Max(periodStart, first), Min(periodEnd, last), PeriodDay) + fertile
    case _ => []
  }

  /** One cycle's highlights are exactly the days of its period inside the
      month and the days of its fertile window (cycle days 8 to 19) inside the
      month: period days first, each kind in strictly ascending order. */
  lemma CycleHighlightsExact(cycle: Cycle, first: int, last: int)
    ensures var r := CycleHighlights(cycle, first, last);
      && (cycle.periodStartDate.None? || cycle.periodEndDate.None? ==> r == [])
      && (forall h :: h in r ==> first <= h.date <= last)
      && (forall d :: Highlight(d, PeriodDay) in r <==>
            cycle.periodStartDate.Some? && cycle.periodEndDate.Some? &&
            cycle.periodStartDate.value <= d <= cycle.periodEndDate.value && first <= d <= last)
      && (forall d :: Highlight(d, FertileDay) in r <==>
            cycle.periodStartDate.Some? && cycle.periodEndDate.Some? &&
            8 <= CalculateCycleDay(cycle.periodStartDate.value, d) <= 19 && first <= d <= last)
      && (forall i, j :: 0 <= i < j < |r| && r[i].kind == r[j].kind ==> r[i].date < r[j].date)
      && (forall i, j :: 0 <= i < j < |r| ==> r[i].kind == PeriodDay || r[j].kind == FertileDay)
  {
    if cycle.periodStartDate.Some? && cycle.periodEndDate.Some? {
      var periodStart, periodEnd := cycle.periodStartDate.value, cycle.periodEndDate.value;
      var w := CalculateFertileWindow(cycle).value;
      var period := DaysBetween(Max(periodStart, first), Min(periodEnd, last), PeriodDay);
      var fertile := DaysBetween(Max(w.start, first), Min(w.end, last), FertileDay);
      DaysBetweenMembers(Max(periodStart, first), Min(periodEnd, last), PeriodDay);
      DaysBetweenMembers(Max(w.start, first), Min(w.end, last), FertileDay);
      assert CycleHighlights(cycle, first, last) == period + fertile;
    }
  }

  /** The highlights of a list of cycles: each cycle's in list order, with no
      deduplication. */
  function Highlights(cycles: seq<Cycle>, first: int, last: int): seq<Highlight> {
    if cycles == [] then []
    else Highlights(cycles[..|cycles| - 1], first, last) + CycleHighlights(cycles[|cycles| - 1], first, last)
  }

  /** Every highlighted day lies inside the month. */
  lemma {:induction false} HighlightsWithinMonth(cycles: seq<Cycle>, first: int, last: int)
    ensures forall h :: h in Highlights(cycles, first, last) ==> first <= h.date <= last
  {
    if cycles != [] {
      HighlightsWithinMonth(cycles[..|cycles| - 1], first, last);
      CycleHighlightsExact(cycles[|cycles| - 1], first, last);
    }
  }

  /** The walk of `getCalendarData`: step a day at a time from `start` while
      the day is no later than `end` or the month's last day, and append the
      days that are in the month. */
  method AppendDays(highlighted: seq<Highlight>, start: int, end: int, first: int, last: int, kind: HighlightKind)
    returns (r: seq<Highlight>)
    ensures r == highlighted + DaysBetween(Max(start, first), Min(end, last), kind)
  {
    r := highlighted;
    var current := start;
    while current <= end && current <= last
      invariant start <= current
      invariant current > start ==> current - 1 <= end && current - 1 <= last
      invariant r == highlighted + DaysBetween(Max(start, first), current - 1, kind)
      decreases last - current
    {
      if current >= first {
        DaysBetweenExtend(Max(start, first), current - 1, kind);
        r := r + [Highlight(current, kind)];
      } else {
        DaysBetweenEmpty(Max(start, first), current, kind);
        DaysBetweenEmpty(Max(start, first), current - 1, kind);
      }
      current := current + 1;
    }
    if current == start {
      DaysBetweenEmpty(Max(start, first), current - 1, kind);
      DaysBetweenEmpty(Max(start, first), Min(end, last), kind);
    }
  }

  /** The `forEach` callback of `getCalendarData`: append one cycle's period
      days and then its fertile days. The period walk runs only when the
      period overlaps the month; the fertile walk only when the window starts
      or ends in it, which loses nothing because no month is shorter than the
      twelve-day window. */
  method AppendCycle(highlighted: seq<Highlight>, cycle: Cycle, first: int, last: int)
    returns (r: seq<Highlight>)
    requires first + 27 <= last
    ensures r == highlighted + CycleHighlights(cycle, first, last)
  {
    r := highlighted;
    if cycle.periodStartDate.Some? && cycle.periodEndDate.Some? {
      var periodStart, periodEnd := cycle.periodStartDate.value, cycle.periodEndDate.value;
      if (first <= periodStart <= last) || (first <= periodEnd <= last) ||
         (periodStart <= first && periodEnd >= last) {
        r := AppendDays(r, periodStart, periodEnd, first, last, PeriodDay);
      } else {
        DaysBetweenEmpty(Max(periodStart, first), Min(periodEnd, last), PeriodDay);
      }
      var fertileWindow := CalculateFertileWindow(cycle);
      var fertileStart, fertileEnd := fertileWindow.value.start, fertileWindow.value.end;
      if (first <= fertileStart <= last) || (first <= fertileEnd <= last) {
        r := AppendDays(r, fertileStart, fertileEnd, first, last, FertileDay);
      } else {
        DaysBetweenEmpty(Max(fertileStart, first), Min(fertileEnd, last), FertileDay);
      }
    }
  }

  /** `getCalendarData(userId, month, year)` over the user's cycles: the
      highlights of every cycle, each inside the requested month. */
  method GetCalendarData(cycles: seq<Cycle>, month: int, year: int) returns (data: CalendarData)
    ensures data.month == month && data.year == year
    ensures data.highlightedDates == Highlights(cycles, MonthStart(year, month), MonthEnd(year, month))
    ensures forall h :: h in data.highlightedDates ==> MonthStart(year, month) <= h.date <= MonthEnd(year, month)
  {
    var first, last := MonthStart(year, month), MonthEnd(year, month);
    MonthSpan(year, month);
    var highlighted: seq<Highlight> := [];
    var i := 0;
    while i < |cycles|
      invariant 0 <= i <= |cycles|
      invariant highlighted == Highlights(cycles[..i], first, last)
    {
      highlighted := AppendCycle(highlighted, cycles[i], first, last);
      assert cycles[..i + 1][..i] == cycles[..i];
      i := i + 1;
    }
    assert cycles[..i] == cycles;
    HighlightsWithinMonth(cycles, first, last);
    data := CalendarData(month, year, highlighted);
  }

  /** A period from 2024-03-28 to 2024-04-02 shows in April 2024 as exactly
      2024-04-01 and 2024-04-02. */
  lemma AprilCalendarExample(cycle: Cycle)
    requires cycle.periodStartDate == Some(DayNumber(2024, 3, 28))
    requires cycle.periodEndDate == Some(DayNumber(2024, 4, 2))
    ensures forall d :: Highlight(d, PeriodDay) in Highlights([cycle], MonthStart(2024, 4), MonthEnd(2024, 4))
                        <==> d == DayNumber(2024, 4, 1) || d == DayNumber(2024, 4, 2)
  {
    var first, last := MonthStart(2024, 4), MonthEnd(2024, 4);
    MonthBounds(2024, 4);
    assert ConstructorYear(2024) == 2024;
    assert first - DayNumber(2024, 3, 28) == 4 && DayNumber(2024, 4, 2) - first == 1 && last - first == 29 by {
      assert DaysBeforeMonth(2024, 3) == 60 && DaysBeforeMonth(2024, 4) == 91;
    }
    assert [cycle][..0] == [];
    assert Highlights([cycle], first, last) == CycleHighlights(cycle, first, last);
    CycleHighlightsExact(cycle, first, last);
  }
}
