/** Daily summaries for one day and the weekly and monthly aggregates
    over them (src/garmer/extractors/daily.py). */
module DailyExtractor {
  import opened Json
  import opened Seqs
  import opened Calendar
  import ExtractorBase
  import opened DailyModel

  /** get_for_date: the day's summary, or None when the request failed in
      any way, the response was falsy, or the record refused it. */
  function GetForDate(response: Result<Json>): (r: Option<DailySummary>)
    ensures response.Err? ==> r == None
    ensures r.Some? <==> response.Ok? && Truthy(response.value) && FromResponse(response.value).Ok?
    ensures r.Some? ==> FromResponse(response.value) == Ok(r.value)
  {
    ExtractorBase.GetForDate(response, FromResponse)
  }

  // ---------------------------------------------------------------------
  // _avg

  /** _avg: the mean of the values that are not None; 0 is a value here.
      None when every value is None. */
  function Avg(values: seq<Option<int>>): Option<real> {
    var valid := Present(values);
    if valid != [] then Some(Mean(valid)) else None
  }

  /** _avg is None exactly when every value is None; otherwise it lies
      between the smallest and largest present value, zeros included. */
  lemma {:induction false} AvgMeaning(values: seq<Option<int>>)
    ensures Avg(values).None? <==> forall k | 0 <= k < |values| :: values[k] == None
    ensures forall v :: v in Present(values) <==> Some(v) in values
    ensures Avg(values).Some? ==>
              Present(values) != [] &&
              Min(Present(values)) as real <= Avg(values).value <= Max(Present(values)) as real
  {
    PresentMembers(values);
    if Present(values) != [] {
      MeanBetweenMinMax(Present(values));
    }
  }

  /** Unlike the averages of the other extractors, a recorded 0 is
      averaged in: [0, 10] averages to 5. */
  lemma ZeroIsAveraged()
    ensures Avg([Some(0), Some(10)]) == Some(5.0)
    ensures Avg([None, Some(0)]) == Some(0.0)
  {
    assert Present([Some(0), Some(10)]) == [0, 10] by {
      assert Present([Some(10)]) == [10] by {
        assert Present([Some(10)][1..]) == [];
      }
      assert [Some(0), Some(10)][1..] == [Some(10)];
    }
    assert Present([None, Some(0)]) == [0] by {
      assert [None, Some(0)][1..] == [Some(0)];
      assert Present([Some(0)]) == [0] by {
        assert Present([Some(0)][1..]) == [];
      }
    }
  }

  // ---------------------------------------------------------------------
  // The per-day columns the aggregates sum

  function StepColumn(days: seq<DailySummary>): (r: seq<int>)
    ensures |r| == |days| && forall k | 0 <= k < |days| :: r[k] == days[k].totalSteps
  {
    seq(|days|, k requires 0 <= k < |days| => days[k].totalSteps)
  }

  function CalorieColumn(days: seq<DailySummary>): (r: seq<int>)
    ensures |r| == |days| && forall k | 0 <= k < |days| :: r[k] == days[k].totalKilocalories
  {
    seq(|days|, k requires 0 <= k < |days| => days[k].totalKilocalories)
  }

  function ActiveCalorieColumn(days: seq<DailySummary>): (r: seq<int>)
    ensures |r| == |days| && forall k | 0 <= k < |days| :: r[k] == days[k].activeKilocalories
  {
    seq(|days|, k requires 0 <= k < |days| => days[k].activeKilocalories)
  }

  function DistanceColumn(days: seq<DailySummary>): (r: seq<int>)
    ensures |r| == |days| && forall k | 0 <= k < |days| :: r[k] == days[k].totalDistanceMeters
  {
    seq(|days|, k requires 0 <= k < |days| => days[k].totalDistanceMeters)
  }

  function FloorColumn(days: seq<DailySummary>): (r: seq<real>)
    ensures |r| == |days| && forall k | 0 <= k < |days| :: r[k] == days[k].floorsAscended
  {
    seq(|days|, k requires 0 <= k < |days| => days[k].floorsAscended)
  }

  function IntensityColumn(days: seq<DailySummary>): (r: seq<int>)
    ensures |r| == |days| && forall k | 0 <= k < |days| :: r[k] == days[k].TotalIntensityMinutes()
  {
    seq(|days|, k requires 0 <= k < |days| => days[k].moderateIntensityMinutes + 2 * days[k].vigorousIntensityMinutes)
  }

  function ModerateColumn(days: seq<DailySummary>): (r: seq<int>)
    ensures |r| == |days| && forall k | 0 <= k < |days| :: r[k] == days[k].moderateIntensityMinutes
  {
    seq(|days|, k requires 0 <= k < |days| => days[k].moderateIntensityMinutes)
  }

  function VigorousColumn(days: seq<DailySummary>): (r: seq<int>)
    ensures |r| == |days| && forall k | 0 <= k < |days| :: r[k] == days[k].vigorousIntensityMinutes
  {
    seq(|days|, k requires 0 <= k < |days| => days[k].vigorousIntensityMinutes)
  }

  function RestingColumn(days: seq<DailySummary>): (r: seq<Option<int>>)
    ensures |r| == |days| && forall k | 0 <= k < |days| :: r[k] == days[k].restingHeartRate
  {
    seq(|days|, k requires 0 <= k < |days| => days[k].restingHeartRate)
  }

  function StressColumn(days: seq<DailySummary>): (r: seq<Option<int>>)
    ensures |r| == |days| && forall k | 0 <= k < |days| :: r[k] == days[k].avgStressLevel
  {
    seq(|days|, k requires 0 <= k < |days| => days[k].avgStressLevel)
  }

  /** The total intensity minutes of a range are its moderate minutes plus
      twice its vigorous minutes. */
  lemma {:induction false} IntensitySplits(days: seq<DailySummary>)
    ensures Sum(IntensityColumn(days)) == Sum(ModerateColumn(days)) + 2 * Sum(VigorousColumn(days))
  {
    if days != [] {
      IntensitySplits(days[1..]);
      assert IntensityColumn(days)[1..] == IntensityColumn(days[1..]);
      assert ModerateColumn(days)[1..] == ModerateColumn(days[1..]);
      assert VigorousColumn(days)[1..] == VigorousColumn(days[1..]);
    }
  }

  // ---------------------------------------------------------------------
  // The aggregates

  /** The dict of get_weekly_summary: NoWeekData stands for
      {"days_with_data": 0}. */
  datatype Weekly =
    | NoWeekData
    | Week(
        daysWithData: int,
        totalSteps: int,
        avgSteps: real,
        totalCalories: int,
        totalActiveCalories: int,
        totalDistanceKm: real,
        avgRestingHr: Option<real>,
        avgStress: Option<real>,
        totalFloors: real,
        totalIntensityMinutes: int,
        dailySummaries: seq<DailySummary>)

  /** The dict of get_monthly_summary: NoMonthData stands for
      {"days_with_data": 0}. */
  datatype Monthly =
    | NoMonthData
    | Month(
        year: int,
        month: int,
        daysWithData: int,
        totalSteps: int,
        avgSteps: real,
        totalCalories: int,
        totalDistanceKm: real,
        avgRestingHr: Option<real>,
        avgStress: Option<real>)

  /** The weekly aggregate of the summaries the range returned. */
  function WeeklyOf(days: seq<DailySummary>): Weekly {
    if days == [] then NoWeekData
    else
      var steps := Sum(StepColumn(days));
      Week(|days|, steps, steps as real / |days| as real,
           Sum(CalorieColumn(days)), Sum(ActiveCalorieColumn(days)),
           Sum(DistanceColumn(days)) as real / 1000.0,
           Avg(RestingColumn(days)), Avg(StressColumn(days)),
           SumReal(FloorColumn(days)), Sum(IntensityColumn(days)), days)
  }

  /** The monthly aggregate of the summaries the range returned. */
  function MonthlyOf(year: int, month: int, days: seq<DailySummary>): Monthly {
    if days == [] then NoMonthData
    else
      var steps := Sum(StepColumn(days));
      Month(year, month, |days|, steps, steps as real / |days| as real,
            Sum(CalorieColumn(days)), Sum(DistanceColumn(days)) as real / 1000.0,
            Avg(RestingColumn(days)), Avg(StressColumn(days)))
  }

  /** An empty range gives exactly {"days_with_data": 0}. Otherwise the
      distance in kilometres is the summed metres over 1000, and the
      intensity minutes count every vigorous minute twice. */
  lemma {:induction false} WeeklyMeaning(days: seq<DailySummary>)
    ensures WeeklyOf(days).NoWeekData? <==> days == []
    ensures days != [] ==>
              var w := WeeklyOf(days);
              w.daysWithData == |days| &&
              w.totalDistanceKm * 1000.0 == Sum(DistanceColumn(days)) as real &&
              w.totalIntensityMinutes == Sum(ModerateColumn(days)) + 2 * Sum(VigorousColumn(days)) &&
              w.avgRestingHr == Avg(RestingColumn(days)) && w.avgStress == Avg(StressColumn(days))
  {
    IntensitySplits(days);
  }

  /** The average steps times the number of days is the total. */
  lemma {:induction false} WeeklyAverageSteps(days: seq<DailySummary>)
    ensures days != [] ==> WeeklyOf(days).avgSteps * |days| as real == WeeklyOf(days).totalSteps as real
  {
    if days != [] {
      DivTimes(Sum(StepColumn(days)) as real, |days| as real);
    }
  }

  lemma DivTimes(x: real, n: real)
    requires n != 0.0
    ensures (x / n) * n == x
  {
  }

  /** Over the same days the monthly aggregate agrees with the weekly one
      on every figure the two share. */
  lemma {:induction false} MonthlyAgreesWithWeekly(year: int, month: int, days: seq<DailySummary>)
    ensures MonthlyOf(year, month, days).NoMonthData? <==> WeeklyOf(days).NoWeekData?
    ensures days != [] ==>
              var m, w := MonthlyOf(year, month, days), WeeklyOf(days);
              m.year == year && m.month == month &&
              m.daysWithData == w.daysWithData && m.totalSteps == w.totalSteps &&
              m.avgSteps == w.avgSteps && m.totalCalories == w.totalCalories &&
              m.totalDistanceKm == w.totalDistanceKm &&
              m.avgRestingHr == w.avgRestingHr && m.avgStress == w.avgStress
  {
  }

  // ---------------------------------------------------------------------
  // The windows, as evidently intended

  /** date.weekday(): Monday is 0; day 1 (0001-01-01) is a Monday. */
  function Weekday(n: int): int {
    (n + 6) % 7
  }

  datatype Window = Window(start: int, end: int)

  /** The week of get_weekly_summary: from week_start, or from this week's
      Monday when none is given, to six days later. Text that does not
      parse raises ValueError; a week running past 9999-12-31 raises
      OverflowError. */
  function WeekWindow(weekStart: Option<ExtractorBase.DateArg>, today: int): (r: Result<Window>)
    requires InRange(today)
    requires weekStart.Some? ==> weekStart.value.WellFormed()
    ensures r.Ok? ==> InRange(r.value.start) && r.value.end == r.value.start + 6 <= MaxOrdinal
    ensures r.Err? ==> r.error == ValueError || r.error == OverflowError
  {
    var first :- if weekStart.None? then Ok(today - Weekday(today)) else ExtractorBase.DayOf(weekStart.value);
    if first + 6 > MaxOrdinal then Err(OverflowError) else Ok(Window(first, first + 6))
  }

  /** The week holds seven days of the calendar. Without a week_start it
      starts on a Monday and contains today; it fails only for the last
      days of 9999. */
  lemma {:induction false} WeekWindowMeaning(weekStart: Option<ExtractorBase.DateArg>, today: int)
    requires InRange(today)
    requires weekStart.Some? ==> weekStart.value.WellFormed()
    ensures WeekWindow(weekStart, today).Ok? ==>
              var w := WeekWindow(weekStart, today).value;
              InRange(w.start) && InRange(w.end) && |ExtractorBase.Days(w.start, w.end)| == 7
    ensures weekStart.None? && WeekWindow(weekStart, today).Ok? ==>
              var w := WeekWindow(weekStart, today).value;
              Weekday(w.start) == 0 && w.start <= today <= w.end
    ensures weekStart.None? ==> (WeekWindow(weekStart, today).Err? <==> today - Weekday(today) + 6 > MaxOrdinal)
    ensures weekStart.Some? && ExtractorBase.DayOf(weekStart.value).Err? ==> WeekWindow(weekStart, today) == Err(ValueError)
  {
    if weekStart.None? {
      var s := today - Weekday(today);
      assert Weekday(s) == 0 by {
        assert (today + 6) % 7 == (today - 1) % 7;
        assert s - 1 == (today - 1) - (today - 1) % 7;
      }
    }
  }

  datatype MonthSpan = MonthSpan(year: int, month: int, start: int, end: int)

  /** The month of get_monthly_summary: `year or today.year` and `month or
      today.month` (None and 0 both fall back), from its first day to the
      day before the first of the next month. An invalid first day raises
      ValueError, and so does December 9999, whose next January does not
      exist. */
  function MonthWindow(year: Option<int>, month: Option<int>, today: Date): (r: Result<MonthSpan>)
    requires Valid(today)
    ensures r.Ok? ==> Valid(Date(r.value.year, r.value.month, 1)) && r.value.start == ToOrdinal(Date(r.value.year, r.value.month, 1))
    ensures r.Ok? && year.Some? && year.value != 0 ==> r.value.year == year.value
    ensures r.Ok? && month.Some? && month.value != 0 ==> r.value.month == month.value
    ensures r.Err? ==> r.error == ValueError
  {
    var y := if year.Some? && year.value != 0 then year.value else today.year;
    var m := if month.Some? && month.value != 0 then month.value else today.month;
    if !Valid(Date(y, m, 1)) then Err(ValueError)
    else if m == 12 then
      if !Valid(Date(y + 1, 1, 1)) then Err(ValueError)
      else Ok(MonthSpan(y, m, ToOrdinal(Date(y, m, 1)), ToOrdinal(Date(y + 1, 1, 1)) - 1))
    else Ok(MonthSpan(y, m, ToOrdinal(Date(y, m, 1)), ToOrdinal(Date(y, m + 1, 1)) - 1))
  }

  /** The window runs from the first to the last day of the month, so it
      holds exactly as many days as the month has. */
  lemma {:induction false} MonthWindowMeaning(year: Option<int>, month: Option<int>, today: Date)
    requires Valid(today)
    ensures var r := MonthWindow(year, month, today);
            r.Ok? ==>
              var s := r.value;
              1 <= s.month <= 12 &&
              Valid(Date(s.year, s.month, DaysInMonth(s.year, s.month))) &&
              s.start == ToOrdinal(Date(s.year, s.month, 1)) &&
              s.end == ToOrdinal(Date(s.year, s.month, DaysInMonth(s.year, s.month))) &&
              FromOrdinal(s.end) == Date(s.year, s.month, DaysInMonth(s.year, s.month)) &&
              |ExtractorBase.Days(s.start, s.end)| == DaysInMonth(s.year, s.month)
  {
    var r := MonthWindow(year, month, today);
    if r.Ok? {
      var s := r.value;
      var last := Date(s.year, s.month, DaysInMonth(s.year, s.month));
      if s.month == 12 {
        DaysBeforeNextYear(s.year);
        assert s.end == ToOrdinal(last);
      } else {
        DaysBeforeNextMonth(s.year, s.month);
        assert s.end == ToOrdinal(last);
      }
      FromOrdinalToOrdinal(last);
    }
  }

  /** The month raises exactly when its first day is not a date or it is
      December 9999, and always with ValueError. */
  lemma MonthWindowErrors(year: Option<int>, month: Option<int>, today: Date)
    requires Valid(today)
    ensures var y := if year.Some? && year.value != 0 then year.value else today.year;
            var m := if month.Some? && month.value != 0 then month.value else today.month;
            MonthWindow(year, month, today).Err? <==> !Valid(Date(y, m, 1)) || (m == 12 && y == 9999)
    ensures MonthWindow(year, month, today).Err? ==> MonthWindow(year, month, today).error == ValueError
  {
  }

  /** get_weekly_summary as intended: the week's summaries aggregated. */
  method GetWeeklySummary(weekStart: Option<ExtractorBase.DateArg>, today: int,
                          fetch: int -> Result<Option<DailySummary>>) returns (r: Result<Weekly>)
    requires InRange(today)
    requires weekStart.Some? ==> weekStart.value.WellFormed()
    ensures r.Err? <==> WeekWindow(weekStart, today).Err?
    ensures r.Err? ==> r.error == WeekWindow(weekStart, today).error
    ensures r.Ok? ==>
              var w := WeekWindow(weekStart, today).value;
              r.value == WeeklyOf(ExtractorBase.Kept(ExtractorBase.Days(w.start, w.end), fetch))
  {
    var window := WeekWindow(weekStart, today);
    if window.Err? {
      return Err(window.error);
    }
    WeekWindowMeaning(weekStart, today);
    var days := ExtractorBase.WalkRange(window.value.start, window.value.end, fetch);
    return Ok(WeeklyOf(days));
  }

  /** get_monthly_summary as intended: the month's summaries aggregated. */
  method GetMonthlySummary(year: Option<int>, month: Option<int>, today: Date,
                           fetch: int -> Result<Option<DailySummary>>) returns (r: Result<Monthly>)
    requires Valid(today)
    ensures r.Err? <==> MonthWindow(year, month, today).Err?
    ensures r.Err? ==> r.error == ValueError
    ensures r.Ok? ==>
              var s := MonthWindow(year, month, today).value;
              r.value == MonthlyOf(s.year, s.month, ExtractorBase.Kept(ExtractorBase.Days(s.start, s.end), fetch))
  {
    var span := MonthWindow(year, month, today);
    MonthWindowMeaning(year, month, today);
    if span.Err? {
      return Err(span.error);
    }
    var s := span.value;
    OrdinalInRange(Date(s.year, s.month, 1));
    OrdinalInRange(Date(s.year, s.month, DaysInMonth(s.year, s.month)));
    var days := ExtractorBase.WalkRange(s.start, s.end, fetch);
    return Ok(MonthlyOf(s.year, s.month, days));
  }

  // ---------------------------------------------------------------------
  // The windows as written

  /** get_weekly_summary as written: `datetime` names the class, which has
      no `timedelta` attribute, so the week's end (and, without a
      week_start, its Monday) raises AttributeError; only text that does
      not parse fails earlier, with ValueError. */
  function WeeklySummaryAsWritten(weekStart: Option<ExtractorBase.DateArg>): (r: Result<Weekly>)
    requires weekStart.Some? ==> weekStart.value.WellFormed()
    ensures r.Err? && (r.error == ValueError || r.error == AttributeError)
    ensures r.error == ValueError ==> weekStart.Some? && weekStart.value.Text?
  {
    if weekStart.Some? && weekStart.value.Text? && ExtractorBase.DayOf(weekStart.value).Err? then Err(ValueError)
    else Err(AttributeError)
  }

  /** get_monthly_summary as written: date(year, month, 1) is built first,
      and in December date(year + 1, 1, 1) too, each raising ValueError
      when it is not a date; only then does the month end's
      `datetime.timedelta` raise AttributeError. */
  function MonthlySummaryAsWritten(year: Option<int>, month: Option<int>, today: Date): (r: Result<Monthly>)
    requires Valid(today)
    ensures r.Err? && (r.error == ValueError || r.error == AttributeError)
  {
    var y := if year.Some? && year.value != 0 then year.value else today.year;
    var m := if month.Some? && month.value != 0 then month.value else today.month;
    if !Valid(Date(y, m, 1)) then Err(ValueError)
    else if m == 12 && !Valid(Date(y + 1, 1, 1)) then Err(ValueError)
    else Err(AttributeError)
  }

  /** Neither summary, as written, ever returns. Where the intended window
      fails on a date that does not exist, the written code fails the same
      way, with ValueError; everywhere else, including the week that would
      run past 9999-12-31, it raises AttributeError. */
  lemma {:induction false} SummariesAlwaysRaise(weekStart: Option<ExtractorBase.DateArg>, today: int,
                                                year: Option<int>, month: Option<int>, day: Date)
    requires InRange(today) && Valid(day)
    requires weekStart.Some? ==> weekStart.value.WellFormed()
    ensures WeeklySummaryAsWritten(weekStart).Err? && MonthlySummaryAsWritten(year, month, day).Err?
    ensures WeeklySummaryAsWritten(weekStart).error == ValueError <==> WeekWindow(weekStart, today) == Err(ValueError)
    ensures WeeklySummaryAsWritten(weekStart).error != ValueError ==> WeeklySummaryAsWritten(weekStart).error == AttributeError
    ensures MonthWindow(year, month, day).Err? ==> MonthlySummaryAsWritten(year, month, day).error == MonthWindow(year, month, day).error
    ensures MonthWindow(year, month, day).Ok? ==> MonthlySummaryAsWritten(year, month, day) == Err(AttributeError)
  {
  }
}
