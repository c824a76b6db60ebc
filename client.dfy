/** The client facade (src/garmer/client.py): a client built from saved
    tokens, and the three composite reports that fan out to the extractors
    (the health snapshot of one day, the weekly health report and the
    data export). Every domain of a report is fetched inside its own try
    block, so a failure there only leaves its own key empty. */
module Client {
  import opened Json
  import opened Seqs
  import opened Calendar
  import Auth
  import ExtractorBase
  import ActivitiesExtractor
  import SleepExtractor
  import StepsExtractor
  import HeartRateExtractor
  import StressExtractor
  import ActivityModel
  import DailyModel
  import SleepModel
  import HeartRateModel
  import StressModel
  import StepsModel
  import HydrationModel
  import RespirationModel

  // ---------------------------------------------------------------------
  // from_saved_tokens

  /** from_saved_tokens: create_auth without credentials, which only tries
      the saved tokens; an unauthenticated handler raises
      AuthenticationError. */
  method FromSavedTokens(tokenDir: Option<string>, home: string, store: Auth.TokenStore, resumed: bool)
    returns (r: Result<Auth.GarminAuth>)
    modifies store
    ensures r.Ok? <==> old(store.present) && resumed
    ensures r.Ok? ==> fresh(r.value) && r.value.isAuthenticated && r.value.store == store
    ensures r.Err? ==> r.error == AuthenticationError
  {
    var created := Auth.CreateAuth(None, None, tokenDir, true, home, store, resumed, Auth.OtherFailure, Auth.OtherFailure);
    if created.Err? || !created.value.isAuthenticated {
      return Err(AuthenticationError);
    }
    return created;
  }

  /** str() of a date argument: text as it is, a date as YYYY-MM-DD. */
  function DateText(a: ExtractorBase.DateArg): (s: string)
    requires a.WellFormed()
    ensures a.Text? ==> s == a.s
    ensures !a.Text? ==> s == IsoFormat(FromOrdinal(a.ordinal))
  {
    match a
    case Text(s) => s
    case Day(n) => FormatOrdinal(n)
    case Moment(n) => FormatOrdinal(n)
  }

  // ---------------------------------------------------------------------
  // get_health_snapshot

  /** The heart rate entry of the snapshot. */
  datatype HeartRateReading = HeartRateReading(resting: Option<int>, max: Option<int>, min: Option<int>, avg: Option<int>)

  /** The stress entry of the snapshot. */
  datatype StressReading = StressReading(avgLevel: Option<int>, maxLevel: Option<int>, restHours: real, highStressHours: real)

  /** The steps entry of the snapshot. */
  datatype StepsReading = StepsReading(total: int, goal: int, goalReached: bool, distanceKm: real,
                                       floorsAscended: int, intensityMinutes: int)

  /** The hydration entry of the snapshot. */
  datatype HydrationReading = HydrationReading(intakeMl: int, goalMl: int, goalPercentage: real)

  /** The respiration entry of the snapshot. */
  datatype RespirationReading = RespirationReading(avgWaking: Option<real>, avgSleeping: Option<real>,
                                                   highest: Option<real>, lowest: Option<real>)

  /** The snapshot dict: the date and seven domain keys, None where the
      domain gave nothing. The daily summary and the sleep record are kept
      as records (their to_dict serialisation is not modelled). */
  datatype Snapshot = Snapshot(
    date: string,
    dailySummary: Option<DailyModel.DailySummary>,
    sleep: Option<SleepModel.SleepData>,
    heartRate: Option<HeartRateReading>,
    stress: Option<StressReading>,
    steps: Option<StepsReading>,
    hydration: Option<HydrationReading>,
    respiration: Option<RespirationReading>)

  /** What each domain getter did for the day: Ok with what it returned
      (a record or None), or Err with the exception that escaped it. */
  datatype Fetched = Fetched(
    daily: Result<Option<DailyModel.DailySummary>>,
    sleep: Result<Option<SleepModel.SleepData>>,
    heartRate: Result<Option<HeartRateModel.HeartRateData>>,
    stress: Result<Option<StressModel.StressData>>,
    steps: Result<Option<StepsModel.StepsData>>,
    hydration: Result<Option<HydrationModel.HydrationData>>,
    respiration: Result<Option<RespirationModel.RespirationData>>)

  /** The seven domains of the snapshot. */
  datatype Domain = Daily | Sleep | HeartRate | Stress | Steps | Hydration | Respiration

  function HeartRateOf(hr: HeartRateModel.HeartRateData): HeartRateReading {
    HeartRateReading(hr.restingHeartRate, hr.maxHeartRate, hr.minHeartRate, hr.avgHeartRate)
  }

  function StressOf(s: StressModel.StressData): StressReading {
    StressReading(s.avgStressLevel, s.maxStressLevel, s.RestHours(), s.HighStressHours())
  }

  function StepsOf(s: StepsModel.StepsData): StepsReading {
    StepsReading(s.totalSteps, s.stepGoal, s.GoalReached(), s.TotalDistanceKm(), s.floorsAscended,
                 s.TotalIntensityMinutes())
  }

  function HydrationOf(h: HydrationModel.HydrationData): HydrationReading {
    HydrationReading(h.totalIntakeMl, h.goalMl, h.GoalPercentage())
  }

  function RespirationOf(r: RespirationModel.RespirationData): RespirationReading {
    RespirationReading(r.avgWakingRespiration, r.avgSleepingRespiration, r.highestRespiration, r.lowestRespiration)
  }

  /** The entry of one domain: its reading when the getter returned a
      record, and None when it returned None or raised. */
  function Entry<T, U>(fetched: Result<Option<T>>, reading: T -> U): (r: Option<U>)
    ensures r.Some? <==> fetched.Ok? && fetched.value.Some?
    ensures r.Some? ==> r.value == reading(fetched.value.value)
  {
    if fetched.Ok? && fetched.value.Some? then Some(reading(fetched.value.value)) else None
  }

  /** The snapshot the key-by-key filling produces. */
  function SnapshotOf(date: string, f: Fetched): Snapshot {
    Snapshot(date,
             Entry(f.daily, (d: DailyModel.DailySummary) => d),
             Entry(f.sleep, (s: SleepModel.SleepData) => s),
             Entry(f.heartRate, HeartRateOf),
             Entry(f.stress, StressOf),
             Entry(f.steps, StepsOf),
             Entry(f.hydration, HydrationOf),
             Entry(f.respiration, RespirationOf))
  }

  /** target_date or date.today(), as str() renders it. */
  function SnapshotDate(target: Option<ExtractorBase.DateArg>, today: int): (s: string)
    requires InRange(today)
    requires target.Some? ==> target.value.WellFormed()
    ensures target.None? || !target.value.IsTruthy() ==> s == IsoFormat(FromOrdinal(today))
    ensures target.Some? && target.value.IsTruthy() ==> s == DateText(target.value)
  {
    if target.Some? && target.value.IsTruthy() then DateText(target.value) else FormatOrdinal(today)
  }

  /** get_health_snapshot: every key starts at None; then each domain, in
      its own try block, fills its key when its getter returned a record.
      The fetches themselves are the arguments. */
  method GetHealthSnapshot(target: Option<ExtractorBase.DateArg>, today: int, f: Fetched) returns (snapshot: Snapshot)
    requires InRange(today)
    requires target.Some? ==> target.value.WellFormed()
    ensures snapshot == SnapshotOf(SnapshotDate(target, today), f)
  {
    var daily: Option<DailyModel.DailySummary> := None;
    if f.daily.Ok? && f.daily.value.Some? {
      daily := Some(f.daily.value.value);
    }
    assert daily == Entry(f.daily, (d: DailyModel.DailySummary) => d);
    var sleep: Option<SleepModel.SleepData> := None;
    if f.sleep.Ok? && f.sleep.value.Some? {
      sleep := Some(f.sleep.value.value);
    }
    assert sleep == Entry(f.sleep, (s: SleepModel.SleepData) => s);
    var heartRate: Option<HeartRateReading> := None;
    if f.heartRate.Ok? && f.heartRate.value.Some? {
      heartRate := Some(HeartRateOf(f.heartRate.value.value));
    }
    assert heartRate == Entry(f.heartRate, HeartRateOf);
    var stress: Option<StressReading> := None;
    if f.stress.Ok? && f.stress.value.Some? {
      stress := Some(StressOf(f.stress.value.value));
    }
    assert stress == Entry(f.stress, StressOf);
    var steps: Option<StepsReading> := None;
    if f.steps.Ok? && f.steps.value.Some? {
      steps := Some(StepsOf(f.steps.value.value));
    }
    assert steps == Entry(f.steps, StepsOf);
    var hydration: Option<HydrationReading> := None;
    if f.hydration.Ok? && f.hydration.value.Some? {
      hydration := Some(HydrationOf(f.hydration.value.value));
    }
    assert hydration == Entry(f.hydration, HydrationOf);
    var respiration: Option<RespirationReading> := None;
    if f.respiration.Ok? && f.respiration.value.Some? {
      respiration := Some(RespirationOf(f.respiration.value.value));
    }
    assert respiration == Entry(f.respiration, RespirationOf);
    snapshot := Snapshot(SnapshotDate(target, today), daily, sleep, heartRate, stress, steps, hydration, respiration);
  }

  /** Whether a domain's getter returned a record. */
  predicate Delivered(f: Fetched, d: Domain) {
    match d
    case Daily => f.daily.Ok? && f.daily.value.Some?
    case Sleep => f.sleep.Ok? && f.sleep.value.Some?
    case HeartRate => f.heartRate.Ok? && f.heartRate.value.Some?
    case Stress => f.stress.Ok? && f.stress.value.Some?
    case Steps => f.steps.Ok? && f.steps.value.Some?
    case Hydration => f.hydration.Ok? && f.hydration.value.Some?
    case Respiration => f.respiration.Ok? && f.respiration.value.Some?
  }

  /** Whether a domain's key of the snapshot is set. */
  predicate Filled(s: Snapshot, d: Domain) {
    match d
    case Daily => s.dailySummary.Some?
    case Sleep => s.sleep.Some?
    case HeartRate => s.heartRate.Some?
    case Stress => s.stress.Some?
    case Steps => s.steps.Some?
    case Hydration => s.hydration.Some?
    case Respiration => s.respiration.Some?
  }

  /** The same fetches, except that domain d raised e. */
  function Fail(f: Fetched, d: Domain, e: Error): (r: Fetched)
    ensures !Delivered(r, d)
  {
    match d
    case Daily => f.(daily := Err(e))
    case Sleep => f.(sleep := Err(e))
    case HeartRate => f.(heartRate := Err(e))
    case Stress => f.(stress := Err(e))
    case Steps => f.(steps := Err(e))
    case Hydration => f.(hydration := Err(e))
    case Respiration => f.(respiration := Err(e))
  }

  /** The same snapshot with domain d's key back at None. */
  function Clear(s: Snapshot, d: Domain): (r: Snapshot)
    ensures !Filled(r, d)
  {
    match d
    case Daily => s.(dailySummary := None)
    case Sleep => s.(sleep := None)
    case HeartRate => s.(heartRate := None)
    case Stress => s.(stress := None)
    case Steps => s.(steps := None)
    case Hydration => s.(hydration := None)
    case Respiration => s.(respiration := None)
  }

  /** A domain's key is set exactly when its getter returned a record, and
      then holds that record's reading; the date is always there. */
  lemma SnapshotKeys(date: string, f: Fetched)
    ensures SnapshotOf(date, f).date == date
    ensures forall d :: Filled(SnapshotOf(date, f), d) <==> Delivered(f, d)
    ensures f.heartRate.Ok? && f.heartRate.value.Some? ==>
              SnapshotOf(date, f).heartRate == Some(HeartRateOf(f.heartRate.value.value))
    ensures f.steps.Ok? && f.steps.value.Some? ==>
              SnapshotOf(date, f).steps.value.goalReached == (f.steps.value.value.totalSteps >= f.steps.value.value.stepGoal)
  {
    forall d ensures Filled(SnapshotOf(date, f), d) <==> Delivered(f, d) {
      match d
      case Daily =>
      case Sleep =>
      case HeartRate =>
      case Stress =>
      case Steps =>
      case Hydration =>
      case Respiration =>
    }
  }

  /** Failure containment: when one domain raises, the snapshot is the
      one the other fetches give with that domain's key left at None;
      every other key is untouched. */
  lemma FailureContained(date: string, f: Fetched, d: Domain, e: Error)
    ensures SnapshotOf(date, Fail(f, d, e)) == Clear(SnapshotOf(date, f), d)
    ensures forall d' | d' != d :: Filled(SnapshotOf(date, Fail(f, d, e)), d') <==> Delivered(f, d')
  {
    SnapshotKeys(date, Fail(f, d, e));
    forall d' | d' != d ensures Delivered(Fail(f, d, e), d') <==> Delivered(f, d') {
      match d
      case Daily =>
      case Sleep =>
      case HeartRate =>
      case Stress =>
      case Steps =>
      case Hydration =>
      case Respiration =>
    }
  }

  // ---------------------------------------------------------------------
  // get_weekly_health_report

  /** The activities entry of the weekly report; the types are a set, as
      list(set(...)) has no meaningful order. */
  datatype ActivitiesWeek = ActivitiesWeek(count: int, totalDurationHours: real, totalDistanceKm: real,
                                           totalCalories: real, types: set<string>)

  datatype SleepWeek = SleepWeek(daysWithData: int, avgHours: real, avgDeepHours: real, avgRemHours: real,
                                 avgScore: Option<real>)

  datatype StepsWeek = StepsWeek(total: int, avgDaily: real, maxDay: int, daysGoalReached: int)

  datatype HeartRateWeek = HeartRateWeek(avgResting: Option<real>, minResting: Option<int>, maxResting: Option<int>)

  datatype StressWeek = StressWeek(avgLevel: Option<real>, avgRestHours: real, avgHighStressHours: real)

  /** The report dict: the period and five domain entries. */
  datatype Report = Report(
    start: string,
    end: string,
    activities: Option<ActivitiesWeek>,
    sleep: Option<SleepWeek>,
    steps: Option<StepsWeek>,
    heartRate: Option<HeartRateWeek>,
    stress: Option<StressWeek>)

  /** The activity type keys of a list. */
  function TypeKeys(activities: seq<ActivityModel.Activity>): (r: set<string>)
    ensures forall k :: k in r <==> exists a :: a in activities && a.activityTypeKey == k
  {
    set a | a in activities :: a.activityTypeKey
  }

  /** The activities entry: None for an empty list. */
  function ActivitiesWeekOf(activities: seq<ActivityModel.Activity>): Option<ActivitiesWeek> {
    if activities == [] then None
    else
      Some(ActivitiesWeek(|activities|,
                          SumReal(ActivitiesExtractor.Durations(activities)) / 3600.0,
                          SumReal(ActivitiesExtractor.Distances(activities)) / 1000.0,
                          SumReal(ActivitiesExtractor.Calories(activities)),
                          TypeKeys(activities)))
  }

  function SleepWeekOf(s: SleepExtractor.SleepStats): SleepWeek {
    SleepWeek(s.daysWithData, s.avgSleepHours, s.avgDeepSleepHours, s.avgRemSleepHours, s.avgSleepScore)
  }

  function StepsWeekOf(s: StepsExtractor.StepsStats): StepsWeek {
    StepsWeek(s.totalSteps, s.avgDailySteps, s.maxStepsDay, s.daysGoalReached)
  }

  function HeartRateWeekOf(s: HeartRateExtractor.HeartRateStats): HeartRateWeek {
    HeartRateWeek(s.avgRestingHr, s.minRestingHr, s.maxRestingHr)
  }

  function StressWeekOf(s: StressExtractor.StressStats): StressWeek {
    StressWeek(s.avgStressLevel, s.avgRestHours, s.avgHighStressHours)
  }

  /** The per-day fetches of the four statistics domains. */
  datatype DayFetches = DayFetches(
    sleep: int -> Result<Option<SleepModel.SleepData>>,
    steps: int -> Result<Option<StepsModel.StepsData>>,
    heartRate: int -> Result<Option<HeartRateModel.HeartRateData>>,
    stress: int -> Result<Option<StressModel.StressData>>)

  /** The report for the seven days ending today. */
  function ReportOf(today: int, activities: seq<ActivityModel.Activity>, fetches: DayFetches): Report
    requires InRange(today - 6) && InRange(today)
  {
    var days := ExtractorBase.Days(today - 6, today);
    Report(FormatOrdinal(today - 6), FormatOrdinal(today),
           ActivitiesWeekOf(activities),
           Some(SleepWeekOf(SleepExtractor.GetSleepStats(ExtractorBase.Kept(days, fetches.sleep)))),
           Some(StepsWeekOf(StepsExtractor.GetStepsStats(ExtractorBase.Kept(days, fetches.steps)))),
           Some(HeartRateWeekOf(HeartRateExtractor.GetHeartRateStats(ExtractorBase.Kept(days, fetches.heartRate)))),
           Some(StressWeekOf(StressExtractor.GetStressStats(ExtractorBase.Kept(days, fetches.stress)))))
  }

  /** The parameters get_activities sends for the week: both ends as
      dates, a limit of 100 and no type. */
  function WeekParams(today: int): map<string, Json>
    requires InRange(today - 6) && InRange(today)
  {
    ActivitiesExtractor.Params(Some(ExtractorBase.Day(today - 6)), Some(ExtractorBase.Day(today)), None, 100, 0)
  }

  /** get_weekly_health_report: the period runs from six days before
      today to today (a start before 0001-01-01 raises OverflowError
      before any key is filled); the activities come from one request,
      each statistics entry from its own walk over the week. A domain that
      raises leaves its key at None. */
  method GetWeeklyHealthReport(today: int, request: map<string, Json> -> Result<Json>, fetches: DayFetches)
    returns (r: Result<Report>)
    requires InRange(today)
    ensures r.Err? <==> !InRange(today - 6)
    ensures r.Err? ==> r.error == OverflowError
    ensures r.Ok? ==> r.value == ReportOf(today, ActivitiesExtractor.ActivityList(request(WeekParams(today))), fetches)
  {
    var startDay := today - 6;
    if !InRange(startDay) {
      return Err(OverflowError);
    }
    var start, end := ExtractorBase.Day(startDay), ExtractorBase.Day(today);
    var report := Report(FormatOrdinal(startDay), FormatOrdinal(today), None, None, None, None, None);

    var activities := ActivitiesExtractor.GetActivities(Some(start), Some(end), None, 100, 0, request);
    if activities != [] {
      report := report.(activities := ActivitiesWeekOf(activities));
    }

    var nights := ExtractorBase.GetForDateRange(start, end, fetches.sleep);
    if nights.Ok? {
      report := report.(sleep := Some(SleepWeekOf(SleepExtractor.GetSleepStats(nights.value))));
    }

    var stepDays := ExtractorBase.GetForDateRange(start, end, fetches.steps);
    if stepDays.Ok? {
      report := report.(steps := Some(StepsWeekOf(StepsExtractor.GetStepsStats(stepDays.value))));
    }

    var hrDays := ExtractorBase.GetForDateRange(start, end, fetches.heartRate);
    if hrDays.Ok? {
      report := report.(heartRate := Some(HeartRateWeekOf(HeartRateExtractor.GetHeartRateStats(hrDays.value))));
    }

    var stressDays := ExtractorBase.GetForDateRange(start, end, fetches.stress);
    if stressDays.Ok? {
      report := report.(stress := Some(StressWeekOf(StressExtractor.GetStressStats(stressDays.value))));
    }
    return Ok(report);
  }

  /** The report covers seven days, from today - 6 to today, written as
      YYYY-MM-DD. Its activities entry is None exactly
      when no activity came back, and otherwise counts them, sums their
      durations, distances and calories, and names exactly their types. */
  lemma {:induction false} ReportMeaning(today: int, activities: seq<ActivityModel.Activity>, fetches: DayFetches)
    requires InRange(today - 6) && InRange(today)
    ensures |ExtractorBase.Days(today - 6, today)| == 7
    ensures ReportOf(today, activities, fetches).start == IsoFormat(FromOrdinal(today - 6))
    ensures ReportOf(today, activities, fetches).end == IsoFormat(FromOrdinal(today))
    ensures ReportOf(today, activities, fetches).activities.None? <==> activities == []
    ensures activities != [] ==>
              var w := ReportOf(today, activities, fetches).activities.value;
              w.count == |activities| &&
              w.totalDurationHours * 3600.0 == SumReal(ActivitiesExtractor.Durations(activities)) &&
              w.totalDistanceKm * 1000.0 == SumReal(ActivitiesExtractor.Distances(activities)) &&
              w.totalCalories == SumReal(ActivitiesExtractor.Calories(activities)) &&
              (forall k :: k in w.types <==> exists a :: a in activities && a.activityTypeKey == k)
  {
    ExtractorBase.LastNDaysWindow(today, 7);
  }

  /** The statistics entries of the report keep what the statistics
      promise: the resting heart rate range holds its average, and the
      sleep and steps entries count the days that had data. */
  lemma {:induction false} ReportStatistics(today: int, activities: seq<ActivityModel.Activity>, fetches: DayFetches)
    requires InRange(today - 6) && InRange(today)
    ensures var r := ReportOf(today, activities, fetches);
            var days := ExtractorBase.Days(today - 6, today);
            r.sleep.value.daysWithData == |ExtractorBase.Kept(days, fetches.sleep)| &&
            r.steps.value.total == Sum(StepsExtractor.DailyTotals(ExtractorBase.Kept(days, fetches.steps))) &&
            (r.heartRate.value.avgResting.Some? <==> r.heartRate.value.minResting.Some?) &&
            (r.heartRate.value.avgResting.Some? ==>
               r.heartRate.value.minResting.value as real <= r.heartRate.value.avgResting.value <= r.heartRate.value.maxResting.value as real)
  {
    var days := ExtractorBase.Days(today - 6, today);
    SleepExtractor.SleepStatsHours(ExtractorBase.Kept(days, fetches.sleep));
    StepsExtractor.StepsStatsMeaning(ExtractorBase.Kept(days, fetches.steps));
    HeartRateExtractor.HeartRateStatsMeaning(ExtractorBase.Kept(days, fetches.heartRate));
  }

  // ---------------------------------------------------------------------
  // export_data

  /** The export dict; None stands for a key the dict does not have. */
  datatype Export = Export(
    start: string,
    end: string,
    activities: Option<seq<ActivityModel.Activity>>,
    sleep: Option<seq<SleepModel.SleepData>>,
    dailySummaries: Option<seq<DailyModel.DailySummary>>)

  /** A range fetch inside its try block: a raise exports []. */
  function RangeOrEmpty<T>(start: ExtractorBase.DateArg, end: ExtractorBase.DateArg, fetch: int -> Result<Option<T>>): (r: seq<T>)
    requires start.WellFormed() && end.WellFormed()
    ensures ExtractorBase.DayOf(start).Err? || ExtractorBase.DayOf(end).Err? ==> r == []
    ensures ExtractorBase.DayOf(start).Ok? && ExtractorBase.DayOf(end).Ok? ==>
              r == ExtractorBase.Kept(ExtractorBase.Days(ExtractorBase.DayOf(start).value, ExtractorBase.DayOf(end).value), fetch)
  {
    var first := ExtractorBase.DayOf(start);
    var last := ExtractorBase.DayOf(end);
    if first.Err? || last.Err? then []
    else ExtractorBase.Kept(ExtractorBase.Days(first.value, last.value), fetch)
  }

  /** export_data: the period, then each requested part in its own try
      block: activities from one request with a limit of 1000, sleep and
      daily summaries from range walks. A part not asked for has no key; a
      part that raises is exported as []. */
  method ExportData(start: ExtractorBase.DateArg, end: ExtractorBase.DateArg,
                    includeActivities: bool, includeSleep: bool, includeDaily: bool,
                    request: map<string, Json> -> Result<Json>,
                    sleepFetch: int -> Result<Option<SleepModel.SleepData>>,
                    dailyFetch: int -> Result<Option<DailyModel.DailySummary>>)
    returns (exported: Export)
    requires start.WellFormed() && end.WellFormed()
    ensures exported.start == DateText(start) && exported.end == DateText(end)
    ensures exported.activities.Some? <==> includeActivities
    ensures exported.sleep.Some? <==> includeSleep
    ensures exported.dailySummaries.Some? <==> includeDaily
    ensures includeActivities ==>
              exported.activities.value ==
              ActivitiesExtractor.ActivityList(request(ActivitiesExtractor.Params(Some(start), Some(end), None, 1000, 0)))
    ensures includeSleep ==> exported.sleep.value == RangeOrEmpty(start, end, sleepFetch)
    ensures includeDaily ==> exported.dailySummaries.value == RangeOrEmpty(start, end, dailyFetch)
  {
    exported := Export(DateText(start), DateText(end), None, None, None);
    if includeActivities {
      var activities := ActivitiesExtractor.GetActivities(Some(start), Some(end), None, 1000, 0, request);
      exported := exported.(activities := Some(activities));
    }
    if includeSleep {
      var nights := ExtractorBase.GetForDateRange(start, end, sleepFetch);
      exported := exported.(sleep := Some(if nights.Ok? then nights.value else []));
    }
    if includeDaily {
      var days := ExtractorBase.GetForDateRange(start, end, dailyFetch);
      exported := exported.(dailySummaries := Some(if days.Ok? then days.value else []));
    }
  }
}
