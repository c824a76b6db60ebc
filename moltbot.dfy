/** The chat-bot integration (scripts/moltbot_integration.py): a lazily
    created client, and three analyses that turn health data into metrics
    and threshold-based insight and recommendation texts: the day's health
    summary, the activity insights of the last days and the sleep trends
    of the last days. */
module Moltbot {
  import opened Json
  import opened Seqs
  import opened Calendar
  import Auth
  import Client
  import ExtractorBase
  import ActivitiesExtractor
  import opened ActivityModel
  import opened SleepModel
  import SleepExtractor

  // ---------------------------------------------------------------------
  // get_health_summary

  /** The insight texts of get_health_summary. */
  datatype Insight =
    | StepsBelowHalf | StepGoalAchieved | SleepTooShort | SleepScoreLow
    | RestingHrElevated | StressElevated | StressExtended | HydrationLow
  {
    function Text(): string {
      match this
      case StepsBelowHalf => "Step count is below 50% of daily goal"
      case StepGoalAchieved => "Daily step goal achieved!"
      case SleepTooShort => "Sleep duration is below recommended 7-9 hours"
      case SleepScoreLow => "Sleep quality score is below average"
      case RestingHrElevated => "Resting heart rate is elevated"
      case StressElevated => "Average stress level is elevated"
      case StressExtended => "Extended periods of high stress detected"
      case HydrationLow => "Hydration is below 50% of daily goal"
    }
  }

  datatype StepsMetric = StepsMetric(value: int, goal: int, goalReached: bool, percentage: real)
  datatype SleepMetric = SleepMetric(hours: real, score: Option<int>, deepSleepHours: real, remSleepHours: real)
  datatype HeartRateMetric = HeartRateMetric(resting: Option<int>, max: Option<int>, min: Option<int>)
  datatype StressMetric = StressMetric(averageLevel: Option<int>, maxLevel: Option<int>, highStressHours: real)
  datatype HydrationMetric = HydrationMetric(intakeMl: int, goalMl: int, percentage: real)

  /** The metrics dict; None stands for a key it does not have. */
  datatype Metrics = Metrics(
    steps: Option<StepsMetric>,
    sleep: Option<SleepMetric>,
    heartRate: Option<HeartRateMetric>,
    stress: Option<StressMetric>,
    hydration: Option<HydrationMetric>)

  datatype HealthSummary = HealthSummary(date: string, metrics: Metrics, insights: seq<Insight>)

  /** The share of the step goal walked, in percent; 0 without a goal. */
  function StepsPercentage(total: int, goal: int): real {
    if goal != 0 then total as real / goal as real * 100.0 else 0.0
  }

  /** The hours slept, unrounded, as the insight compares them. */
  function SleptHours(s: SleepData): real {
    s.totalSleepSeconds as real / 3600.0
  }

  function StepsInsights(steps: Option<Client.StepsReading>): seq<Insight> {
    if steps.None? then []
    else if (steps.value.total as real) < steps.value.goal as real * 0.5 then [StepsBelowHalf]
    else if steps.value.goalReached then [StepGoalAchieved]
    else []
  }

  function SleepInsights(sleep: Option<SleepData>): seq<Insight> {
    if sleep.None? then []
    else
      var score := sleep.value.scores.overall;
      (if SleptHours(sleep.value) < 6.0 then [SleepTooShort] else []) +
      (if score.Some? && score.value != 0 && score.value < 70 then [SleepScoreLow] else [])
  }

  function HeartRateInsights(hr: Option<Client.HeartRateReading>): seq<Insight> {
    if hr.Some? && hr.value.resting.Some? && hr.value.resting.value != 0 && hr.value.resting.value > 80
    then [RestingHrElevated] else []
  }

  function StressInsights(stress: Option<Client.StressReading>): seq<Insight> {
    if stress.None? then []
    else
      var level := stress.value.avgLevel;
      (if level.Some? && level.value != 0 && level.value > 50 then [StressElevated] else []) +
      (if stress.value.highStressHours > 4.0 then [StressExtended] else [])
  }

  function HydrationInsights(hydration: Option<Client.HydrationReading>): seq<Insight> {
    if hydration.Some? && hydration.value.goalPercentage < 50.0 then [HydrationLow] else []
  }

  /** The insights, in the order the domains are looked at. */
  function InsightsOf(snapshot: Client.Snapshot): seq<Insight> {
    StepsInsights(snapshot.steps) + SleepInsights(snapshot.sleep) + HeartRateInsights(snapshot.heartRate) +
    StressInsights(snapshot.stress) + HydrationInsights(snapshot.hydration)
  }

  function StepsMetricOf(steps: Option<Client.StepsReading>): Option<StepsMetric> {
    if steps.Some? then
      var s := steps.value;
      Some(StepsMetric(s.total, s.goal, s.goalReached, StepsPercentage(s.total, s.goal)))
    else None
  }

  function SleepMetricOf(sleep: Option<SleepData>): Option<SleepMetric> {
    if sleep.Some? then
      var s := sleep.value;
      Some(SleepMetric(Round1(SleptHours(s)), s.scores.overall, s.deepSleepSeconds as real / 3600.0,
                       s.remSleepSeconds as real / 3600.0))
    else None
  }

  function HeartRateMetricOf(hr: Option<Client.HeartRateReading>): Option<HeartRateMetric> {
    if hr.Some? then Some(HeartRateMetric(hr.value.resting, hr.value.max, hr.value.min)) else None
  }

  function StressMetricOf(stress: Option<Client.StressReading>): Option<StressMetric> {
    if stress.Some? then Some(StressMetric(stress.value.avgLevel, stress.value.maxLevel, stress.value.highStressHours))
    else None
  }

  function HydrationMetricOf(hydration: Option<Client.HydrationReading>): Option<HydrationMetric> {
    if hydration.Some? then Some(HydrationMetric(hydration.value.intakeMl, hydration.value.goalMl, hydration.value.goalPercentage))
    else None
  }

  function MetricsOf(snapshot: Client.Snapshot): Metrics {
    Metrics(StepsMetricOf(snapshot.steps), SleepMetricOf(snapshot.sleep), HeartRateMetricOf(snapshot.heartRate),
            StressMetricOf(snapshot.stress), HydrationMetricOf(snapshot.hydration))
  }

  function SummaryOf(snapshot: Client.Snapshot): (r: HealthSummary)
    ensures r.date == snapshot.date
    ensures (r.metrics.steps.Some? <==> snapshot.steps.Some?) && (r.metrics.sleep.Some? <==> snapshot.sleep.Some?)
    ensures (snapshot.steps.None? && snapshot.sleep.None? && snapshot.heartRate.None? && snapshot.stress.None? &&
             snapshot.hydration.None?) ==> r.insights == []
  {
    HealthSummary(snapshot.date, MetricsOf(snapshot), InsightsOf(snapshot))
  }

  /** The steps block of get_health_summary. */
  method StepsBlock(steps: Option<Client.StepsReading>, insights: seq<Insight>)
    returns (metric: Option<StepsMetric>, after: seq<Insight>)
    ensures metric == StepsMetricOf(steps) && after == insights + StepsInsights(steps)
  {
    metric, after := None, insights;
    if steps.Some? {
      var s := steps.value;
      metric := Some(StepsMetric(s.total, s.goal, s.goalReached, StepsPercentage(s.total, s.goal)));
      if (s.total as real) < s.goal as real * 0.5 {
        after := after + [StepsBelowHalf];
      } else if s.goalReached {
        after := after + [StepGoalAchieved];
      }
    }
  }

  /** The sleep block of get_health_summary. */
  method SleepBlock(sleep: Option<SleepData>, insights: seq<Insight>)
    returns (metric: Option<SleepMetric>, after: seq<Insight>)
    ensures metric == SleepMetricOf(sleep) && after == insights + SleepInsights(sleep)
  {
    metric, after := None, insights;
    if sleep.Some? {
      var s := sleep.value;
      var totalHours := s.totalSleepSeconds as real / 3600.0;
      metric := Some(SleepMetric(Round1(totalHours), s.scores.overall, s.deepSleepSeconds as real / 3600.0,
                                 s.remSleepSeconds as real / 3600.0));
      if totalHours < 6.0 {
        after := after + [SleepTooShort];
      }
      var score := s.scores.overall;
      if score.Some? && score.value != 0 && score.value < 70 {
        after := after + [SleepScoreLow];
      }
    }
  }

  /** The heart rate block of get_health_summary. */
  method HeartRateBlock(hr: Option<Client.HeartRateReading>, insights: seq<Insight>)
    returns (metric: Option<HeartRateMetric>, after: seq<Insight>)
    ensures metric == HeartRateMetricOf(hr) && after == insights + HeartRateInsights(hr)
  {
    metric, after := None, insights;
    if hr.Some? {
      metric := Some(HeartRateMetric(hr.value.resting, hr.value.max, hr.value.min));
      if hr.value.resting.Some? && hr.value.resting.value != 0 && hr.value.resting.value > 80 {
        after := after + [RestingHrElevated];
      }
    }
  }

  /** The stress block of get_health_summary. */
  method StressBlock(stress: Option<Client.StressReading>, insights: seq<Insight>)
    returns (metric: Option<StressMetric>, after: seq<Insight>)
    ensures metric == StressMetricOf(stress) && after == insights + StressInsights(stress)
  {
    metric, after := None, insights;
    if stress.Some? {
      var s := stress.value;
      metric := Some(StressMetric(s.avgLevel, s.maxLevel, s.highStressHours));
      if s.avgLevel.Some? && s.avgLevel.value != 0 && s.avgLevel.value > 50 {
        after := after + [StressElevated];
      }
      if s.highStressHours > 4.0 {
        after := after + [StressExtended];
      }
    }
  }

  /** The hydration block of get_health_summary. */
  method HydrationBlock(hydration: Option<Client.HydrationReading>, insights: seq<Insight>)
    returns (metric: Option<HydrationMetric>, after: seq<Insight>)
    ensures metric == HydrationMetricOf(hydration) && after == insights + HydrationInsights(hydration)
  {
    metric, after := None, insights;
    if hydration.Some? {
      var h := hydration.value;
      metric := Some(HydrationMetric(h.intakeMl, h.goalMl, h.goalPercentage));
      if h.goalPercentage < 50.0 {
        after := after + [HydrationLow];
      }
    }
  }

  /** The summary of one snapshot: the domains in turn, each present one
      giving its metrics entry and appending the insights its thresholds
      call for. */
  method Summarize(snapshot: Client.Snapshot) returns (summary: HealthSummary)
    ensures summary == SummaryOf(snapshot)
  {
    var insights: seq<Insight>;
    var steps, sleep, heartRate, stress, hydration;
    steps, insights := StepsBlock(snapshot.steps, []);
    assert insights == StepsInsights(snapshot.steps);
    sleep, insights := SleepBlock(snapshot.sleep, insights);
    heartRate, insights := HeartRateBlock(snapshot.heartRate, insights);
    stress, insights := StressBlock(snapshot.stress, insights);
    hydration, insights := HydrationBlock(snapshot.hydration, insights);
    summary := HealthSummary(snapshot.date, Metrics(steps, sleep, heartRate, stress, hydration), insights);
  }

  /** The block of get_health_summary that can add an insight. */
  function Block(snapshot: Client.Snapshot, x: Insight): seq<Insight> {
    match x
    case StepsBelowHalf | StepGoalAchieved => StepsInsights(snapshot.steps)
    case SleepTooShort | SleepScoreLow => SleepInsights(snapshot.sleep)
    case RestingHrElevated => HeartRateInsights(snapshot.heartRate)
    case StressElevated | StressExtended => StressInsights(snapshot.stress)
    case HydrationLow => HydrationInsights(snapshot.hydration)
  }

  /** An insight is in the summary exactly when its own block adds it: no
      block adds another block's insight. */
  lemma InsightSource(snapshot: Client.Snapshot, x: Insight)
    ensures x in InsightsOf(snapshot) <==> x in Block(snapshot, x)
  {
    assert forall y | y in StepsInsights(snapshot.steps) :: y.StepsBelowHalf? || y.StepGoalAchieved?;
    assert forall y | y in SleepInsights(snapshot.sleep) :: y.SleepTooShort? || y.SleepScoreLow?;
    assert forall y | y in HeartRateInsights(snapshot.heartRate) :: y.RestingHrElevated?;
    assert forall y | y in StressInsights(snapshot.stress) :: y.StressElevated? || y.StressExtended?;
    assert forall y | y in HydrationInsights(snapshot.hydration) :: y.HydrationLow?;
  }

  /** The step percentage is 0 without a goal, and with a positive goal
      reaches 100 exactly when the goal is reached. At most one step
      insight is given: "below half" when fewer than half the goal's steps
      were walked, otherwise "achieved" when the goal was reached. */
  lemma StepsRules(snapshot: Client.Snapshot)
    requires snapshot.steps.Some?
    ensures var s := snapshot.steps.value;
            var m := SummaryOf(snapshot).metrics.steps.value;
            (s.goal == 0 ==> m.percentage == 0.0) &&
            (s.goal > 0 ==> (m.percentage >= 100.0 <==> s.total >= s.goal))
    ensures var s := snapshot.steps.value;
            |StepsInsights(snapshot.steps)| <= 1 &&
            (StepsBelowHalf in StepsInsights(snapshot.steps) <==> (s.total as real) < s.goal as real * 0.5) &&
            (StepGoalAchieved in StepsInsights(snapshot.steps) <==> !((s.total as real) < s.goal as real * 0.5) && s.goalReached)
  {
    var s := snapshot.steps.value;
    if s.goal > 0 {
      var p := s.total as real / s.goal as real;
      assert p * s.goal as real == s.total as real;
      assert p >= 1.0 <==> s.total >= s.goal;
    }
  }

  /** The sleep insights: "too short" exactly under 6 hours of sleep,
      "low score" exactly for a non-zero score under 70; none without a
      sleep record. */
  lemma SleepRules(snapshot: Client.Snapshot)
    ensures var i := InsightsOf(snapshot);
            var sl := snapshot.sleep;
            (SleepTooShort in i <==> sl.Some? && SleptHours(sl.value) < 6.0) &&
            (SleepScoreLow in i <==> sl.Some? && sl.value.scores.overall.Some? &&
                                     sl.value.scores.overall.value != 0 && sl.value.scores.overall.value < 70)
  {
    InsightSource(snapshot, SleepTooShort);
    InsightSource(snapshot, SleepScoreLow);
  }

  /** The heart rate insight: given exactly for a resting heart rate over
      80; none without a heart rate reading. */
  lemma HeartRateRule(snapshot: Client.Snapshot)
    ensures var hr := snapshot.heartRate;
            RestingHrElevated in InsightsOf(snapshot) <==> hr.Some? && hr.value.resting.Some? && hr.value.resting.value > 80
  {
    InsightSource(snapshot, RestingHrElevated);
  }

  /** The first stress insight: given exactly for a non-zero average level
      over 50; none without a stress reading. */
  lemma StressLevelRule(snapshot: Client.Snapshot)
    ensures var st := snapshot.stress;
            StressElevated in InsightsOf(snapshot) <==> st.Some? && st.value.avgLevel.Some? && st.value.avgLevel.value > 50
  {
    InsightSource(snapshot, StressElevated);
  }

  /** The second stress insight: given exactly for more than 4 hours of
      high stress; none without a stress reading. */
  lemma StressHoursRule(snapshot: Client.Snapshot)
    ensures var st := snapshot.stress;
            StressExtended in InsightsOf(snapshot) <==> st.Some? && st.value.highStressHours > 4.0
  {
    InsightSource(snapshot, StressExtended);
  }

  /** The hydration insight: given exactly under 50% of the goal; none
      without a hydration reading. */
  lemma HydrationRule(snapshot: Client.Snapshot)
    ensures HydrationLow in InsightsOf(snapshot) <==>
              snapshot.hydration.Some? && snapshot.hydration.value.goalPercentage < 50.0
  {
    InsightSource(snapshot, HydrationLow);
  }

  // ---------------------------------------------------------------------
  // get_activity_insights

  /** The recommendation texts of get_activity_insights and
      get_sleep_trends. */
  datatype Recommendation =
    | BelowWho | ExcellentLevel | AddVariety | NoActivities
    | NoSleepData | GoToBedEarlier | AvoidLateMeals
  {
    function Text(): string {
      match this
      case BelowWho => "Activity level is below WHO recommendation of 150+ minutes per week"
      case ExcellentLevel => "Excellent activity level! Meeting or exceeding recommendations"
      case AddVariety => "Consider adding variety to your workouts for better overall fitness"
      case NoActivities => "No activities recorded this period. Consider starting with light exercise"
      case NoSleepData => "No sleep data available for analysis"
      case GoToBedEarlier => "Try to increase sleep duration by going to bed 30 minutes earlier"
      case AvoidLateMeals => "Avoid alcohol and heavy meals close to bedtime to improve deep sleep"
    }
  }

  /** One row of the per-type table (or the overall totals, whose count
      is the number of activities). */
  datatype TypeTotals = TypeTotals(count: int, durationHours: real, distanceKm: real, calories: real)

  const NoTotals := TypeTotals(0, 0.0, 0.0, 0.0)

  /** A row after one more activity. */
  function AddActivity(t: TypeTotals, a: Activity): TypeTotals {
    TypeTotals(t.count + 1, t.durationHours + a.durationSeconds / 3600.0, t.distanceKm + a.DistanceKm(),
               t.calories + a.calories)
  }

  /** The totals over a list of activities, accumulated in list order. */
  function TotalsOf(activities: seq<Activity>): (t: TypeTotals)
    ensures t.count == |activities|
  {
    if activities == [] then NoTotals
    else AddActivity(TotalsOf(activities[..|activities| - 1]), activities[|activities| - 1])
  }

  /** The per-type table, accumulated in list order. */
  function Breakdown(activities: seq<Activity>): map<string, TypeTotals> {
    if activities == [] then map[]
    else
      var table := Breakdown(activities[..|activities| - 1]);
      var a := activities[|activities| - 1];
      table[a.activityTypeKey := AddActivity(if a.activityTypeKey in table then table[a.activityTypeKey] else NoTotals, a)]
  }

  /** The recommendations of get_activity_insights. */
  function Recommendations(totalHours: real, typeCount: int, activityCount: int): seq<Recommendation> {
    (if totalHours < 2.5 then [BelowWho] else if totalHours >= 5.0 then [ExcellentLevel] else []) +
    (if typeCount == 1 then [AddVariety] else []) +
    (if activityCount == 0 then [NoActivities] else [])
  }

  /** The insights dict; the overall totals are the duration, distance and
      calories of totals. */
  datatype ActivityInsights = ActivityInsights(
    periodDays: int,
    totalActivities: int,
    activityBreakdown: map<string, TypeTotals>,
    totals: TypeTotals,
    recommendations: seq<Recommendation>)

  function ActivityInsightsOf(days: int, activities: seq<Activity>): (r: ActivityInsights)
    ensures r.periodDays == days && r.totalActivities == |activities| == r.totals.count
    ensures activities == [] ==> r.activityBreakdown == map[]
  {
    var totals := TotalsOf(activities);
    var table := Breakdown(activities);
    ActivityInsights(days, |activities|, table, totals, Recommendations(totals.durationHours, |table|, |activities|))
  }

  /** The analysis of a list of activities: one pass that updates the
      activity's row of the per-type table (creating it on first sight)
      and the overall totals, then the recommendations. */
  method AnalyzeActivities(days: int, activities: seq<Activity>) returns (insights: ActivityInsights)
    ensures insights == ActivityInsightsOf(days, activities)
  {
    var table: map<string, TypeTotals> := map[];
    var totals := NoTotals;
    for i := 0 to |activities|
      invariant table == Breakdown(activities[..i])
      invariant totals == TotalsOf(activities[..i])
    {
      var activity := activities[i];
      var typeKey := activity.activityTypeKey;
      assert activities[..i + 1][..i] == activities[..i];
      if typeKey !in table {
        table := table[typeKey := NoTotals];
      }
      var row := table[typeKey];
      table := table[typeKey := TypeTotals(row.count + 1, row.durationHours + activity.durationSeconds / 3600.0,
                                           row.distanceKm + activity.DistanceKm(), row.calories + activity.calories)];
      totals := TypeTotals(totals.count + 1, totals.durationHours + activity.durationSeconds / 3600.0,
                           totals.distanceKm + activity.DistanceKm(), totals.calories + activity.calories);
    }
    assert activities[..|activities|] == activities;
    var recommendations: seq<Recommendation> := [];
    if totals.durationHours < 2.5 {
      recommendations := recommendations + [BelowWho];
    } else if totals.durationHours >= 5.0 {
      recommendations := recommendations + [ExcellentLevel];
    }
    if |table| == 1 {
      recommendations := recommendations + [AddVariety];
    }
    if |activities| == 0 {
      recommendations := recommendations + [NoActivities];
    }
    insights := ActivityInsights(days, |activities|, table, totals, recommendations);
  }

  /** The activities of one type key, in list order. */
  function OfType(activities: seq<Activity>, k: string): (r: seq<Activity>)
    ensures forall a | a in r :: a in activities && a.activityTypeKey == k
  {
    if activities == [] then []
    else
      var last := activities[|activities| - 1];
      OfType(activities[..|activities| - 1], k) + (if last.activityTypeKey == k then [last] else [])
  }

  /** The table after one more activity: only its type's row changes. */
  lemma BreakdownSnoc(init: seq<Activity>, last: Activity)
    ensures var table := Breakdown(init);
            var k := last.activityTypeKey;
            Breakdown(init + [last]) == table[k := AddActivity(if k in table then table[k] else NoTotals, last)]
    ensures forall k :: OfType(init + [last], k) == OfType(init, k) + (if last.activityTypeKey == k then [last] else [])
  {
    assert (init + [last])[..|init|] == init;
  }

  /** A type has a row exactly when some activity has that type. */
  lemma {:induction false} BreakdownKeys(activities: seq<Activity>)
    ensures forall k :: k in Breakdown(activities) <==> exists a :: a in activities && a.activityTypeKey == k
  {
    if activities != [] {
      var init := activities[..|activities| - 1];
      var last := activities[|activities| - 1];
      assert activities == init + [last];
      BreakdownKeys(init);
      BreakdownSnoc(init, last);
      forall k ensures k in Breakdown(activities) <==> exists a :: a in activities && a.activityTypeKey == k {
        if k in Breakdown(activities) {
          if k == last.activityTypeKey {
            assert last in activities;
          } else {
            assert k in Breakdown(init);
            var a :| a in init && a.activityTypeKey == k;
            assert a in activities;
          }
        }
        if exists a :: a in activities && a.activityTypeKey == k {
          var a :| a in activities && a.activityTypeKey == k;
          if a != last {
            assert a in init;
          }
        }
      }
    }
  }

  /** A type without a row has no activities. */
  lemma {:induction false} BreakdownAbsent(activities: seq<Activity>, k: string)
    requires k !in Breakdown(activities)
    ensures OfType(activities, k) == []
  {
    if activities != [] {
      var init := activities[..|activities| - 1];
      var last := activities[|activities| - 1];
      assert activities == init + [last];
      BreakdownSnoc(init, last);
      BreakdownAbsent(init, k);
    }
  }

  /** A type's row is the totals of exactly the activities of that type. */
  lemma {:induction false} BreakdownRows(activities: seq<Activity>, k: string)
    requires k in Breakdown(activities)
    ensures Breakdown(activities)[k] == TotalsOf(OfType(activities, k))
  {
    var init := activities[..|activities| - 1];
    var last := activities[|activities| - 1];
    assert activities == init + [last];
    BreakdownSnoc(init, last);
    var table := Breakdown(init);
    var ofType := OfType(init, k);
    if last.activityTypeKey == k {
      assert (ofType + [last])[..|ofType|] == ofType;
      assert TotalsOf(ofType + [last]) == AddActivity(TotalsOf(ofType), last);
      if k in table {
        BreakdownRows(init, k);
      } else {
        BreakdownAbsent(init, k);
      }
    } else {
      assert Breakdown(activities)[k] == table[k];
      assert OfType(activities, k) == ofType;
      BreakdownRows(init, k);
    }
  }

  function RowCount(t: TypeTotals): real { t.count as real }
  function RowHours(t: TypeTotals): real { t.durationHours }
  function RowKilometres(t: TypeTotals): real { t.distanceKm }
  function RowCalories(t: TypeTotals): real { t.calories }

  /** The rows add up to the overall figures: their counts to the number
      of activities, their hours, kilometres and calories to the totals. */
  lemma {:induction false} BreakdownSums(activities: seq<Activity>)
    ensures MapTotal(Breakdown(activities), RowCount) == |activities| as real
    ensures MapTotal(Breakdown(activities), RowHours) == TotalsOf(activities).durationHours
    ensures MapTotal(Breakdown(activities), RowKilometres) == TotalsOf(activities).distanceKm
    ensures MapTotal(Breakdown(activities), RowCalories) == TotalsOf(activities).calories
  {
    if activities == [] {
      assert Breakdown(activities) == map[];
    } else {
      var init := activities[..|activities| - 1];
      var a := activities[|activities| - 1];
      BreakdownSums(init);
      var table := Breakdown(init);
      var k := a.activityTypeKey;
      var row := AddActivity(if k in table then table[k] else NoTotals, a);
      MapTotalUpdate(table, RowCount, k, row);
      MapTotalUpdate(table, RowHours, k, row);
      MapTotalUpdate(table, RowKilometres, k, row);
      MapTotalUpdate(table, RowCalories, k, row);
    }
  }

  /** At most one of the WHO and the "excellent" recommendations is given,
      depending on the total hours; "no activities" exactly for an empty
      period, which then gets the WHO warning too, and nothing else. */
  lemma RecommendationRules(days: int, activities: seq<Activity>)
    ensures var r := ActivityInsightsOf(days, activities);
            var hours := r.totals.durationHours;
            (BelowWho in r.recommendations <==> hours < 2.5) &&
            (ExcellentLevel in r.recommendations <==> hours >= 5.0) &&
            (NoActivities in r.recommendations <==> activities == [])
    ensures activities == [] ==> ActivityInsightsOf(days, activities).recommendations == [BelowWho, NoActivities]
  {
  }

  /** The breakdown has exactly one row when there are activities and they
      all share one type. */
  lemma {:induction false} SingleType(activities: seq<Activity>)
    ensures |Breakdown(activities)| == 1 <==>
              activities != [] && forall a | a in activities :: a.activityTypeKey == activities[0].activityTypeKey
  {
    BreakdownKeys(activities);
    var table := Breakdown(activities);
    if activities != [] {
      var k0 := activities[0].activityTypeKey;
      assert k0 in table;
      if forall a | a in activities :: a.activityTypeKey == k0 {
        assert table.Keys == {k0};
      } else {
        var b :| b in activities && b.activityTypeKey != k0;
        var both := {k0, b.activityTypeKey};
        var rest := table.Keys - both;
        assert table.Keys == both + rest && both * rest == {};
        assert |both| == 2;
      }
    } else {
      assert table == map[];
    }
  }

  /** The variety hint is given exactly when there are activities and they
      all share one type. */
  lemma VarietyRule(days: int, activities: seq<Activity>)
    ensures AddVariety in ActivityInsightsOf(days, activities).recommendations <==>
              activities != [] && forall a | a in activities :: a.activityTypeKey == activities[0].activityTypeKey
  {
    SingleType(activities);
  }

  // ---------------------------------------------------------------------
  // get_sleep_trends

  /** The trend texts of get_sleep_trends. */
  datatype Trend = SleepBelowRange | DeepSleepLow
  {
    function Text(): string {
      match this
      case SleepBelowRange => "Average sleep is below recommended 7-9 hours"
      case DeepSleepLow => "Deep sleep percentage is below optimal"
    }
  }

  datatype SleepAverages = SleepAverages(sleepHours: real, deepSleepHours: real, remSleepHours: real,
                                         sleepScore: Option<int>, sleepHr: Option<int>)

  /** The trends dict; averages is None where the dict holds {}. */
  datatype SleepTrends = SleepTrends(periodDays: int, daysWithData: int, averages: Option<SleepAverages>,
                                     trends: seq<Trend>, recommendations: seq<Recommendation>)

  /** The share of deep sleep in percent; 0 when nothing was slept. */
  function DeepPercentage(totalDeep: int, totalSleep: int): real {
    if totalSleep > 0 then totalDeep as real / totalSleep as real * 100.0 else 0.0
  }

  /** round(mean) of the non-zero values, or None. */
  function RoundedMean(xs: seq<int>): Option<int> {
    if xs != [] then Some(RoundHalfEven(Mean(xs))) else None
  }

  function AveragesOf(nights: seq<SleepData>): SleepAverages
    requires nights != []
  {
    var n := |nights| as real;
    SleepAverages(Round1(Sum(SleepExtractor.TotalSeconds(nights)) as real / n / 3600.0),
                  Round1(Sum(SleepExtractor.DeepSeconds(nights)) as real / n / 3600.0),
                  Round1(Sum(SleepExtractor.RemSeconds(nights)) as real / n / 3600.0),
                  RoundedMean(TruthyInts(SleepExtractor.OverallScores(nights))),
                  RoundedMean(TruthyInts(SleepExtractor.SleepHeartRates(nights))))
  }

  function SleepTrendsOf(days: int, nights: seq<SleepData>): (r: SleepTrends)
    ensures r.periodDays == days && r.daysWithData == |nights|
    ensures r.averages.Some? <==> nights != []
    ensures |r.trends| == |r.recommendations| - (if nights == [] then 1 else 0)
  {
    if nights == [] then SleepTrends(days, 0, None, [], [NoSleepData])
    else
      var averages := AveragesOf(nights);
      var deep := DeepPercentage(Sum(SleepExtractor.DeepSeconds(nights)), Sum(SleepExtractor.TotalSeconds(nights)));
      var short := averages.sleepHours < 7.0;
      var shallow := deep < 15.0;
      SleepTrends(days, |nights|, Some(averages),
                  (if short then [SleepBelowRange] else []) + (if shallow then [DeepSleepLow] else []),
                  (if short then [GoToBedEarlier] else []) + (if shallow then [AvoidLateMeals] else []))
  }

  /** The analysis of the nights of a period: without nights a single
      recommendation; otherwise the averages, then one trend and one
      recommendation for each threshold crossed. */
  method AnalyzeSleep(days: int, nights: seq<SleepData>) returns (trends: SleepTrends)
    ensures trends == SleepTrendsOf(days, nights)
  {
    trends := SleepTrends(days, |nights|, None, [], []);
    if nights == [] {
      trends := trends.(recommendations := trends.recommendations + [NoSleepData]);
      return;
    }
    var totalSleep := Sum(SleepExtractor.TotalSeconds(nights));
    var totalDeep := Sum(SleepExtractor.DeepSeconds(nights));
    var totalRem := Sum(SleepExtractor.RemSeconds(nights));
    var scores := TruthyInts(SleepExtractor.OverallScores(nights));
    var hrs := TruthyInts(SleepExtractor.SleepHeartRates(nights));
    var n := |nights| as real;
    var averages := SleepAverages(Round1(totalSleep as real / n / 3600.0), Round1(totalDeep as real / n / 3600.0),
                                  Round1(totalRem as real / n / 3600.0),
                                  if scores != [] then Some(RoundHalfEven(Mean(scores))) else None,
                                  if hrs != [] then Some(RoundHalfEven(Mean(hrs))) else None);
    trends := trends.(averages := Some(averages));
    if averages.sleepHours < 7.0 {
      trends := trends.(trends := trends.trends + [SleepBelowRange],
                        recommendations := trends.recommendations + [GoToBedEarlier]);
    }
    var deepPercentage := if totalSleep > 0 then totalDeep as real / totalSleep as real * 100.0 else 0.0;
    if deepPercentage < 15.0 {
      trends := trends.(trends := trends.trends + [DeepSleepLow],
                        recommendations := trends.recommendations + [AvoidLateMeals]);
    }
  }

  /** Without nights there are no averages, no trends and only the "no
      data" recommendation. With nights, the rounded average is within
      0.05 hours of the true one; the "below 7-9 hours" trend is given
      exactly when the rounded average is under 7, and the deep sleep
      trend exactly when deep sleep is under 15% of all sleep, which is
      always the case when nothing was slept; each trend comes with its
      recommendation. */
  lemma SleepTrendRules(days: int, nights: seq<SleepData>)
    ensures nights == [] ==> SleepTrendsOf(days, nights) == SleepTrends(days, 0, None, [], [NoSleepData])
    ensures nights != [] ==>
              var t := SleepTrendsOf(days, nights);
              var total := Sum(SleepExtractor.TotalSeconds(nights));
              var deep := Sum(SleepExtractor.DeepSeconds(nights));
              var mean := total as real / |nights| as real / 3600.0;
              t.daysWithData == |nights| &&
              mean - 0.05 <= t.averages.value.sleepHours <= mean + 0.05 &&
              (SleepBelowRange in t.trends <==> t.averages.value.sleepHours < 7.0) &&
              (GoToBedEarlier in t.recommendations <==> t.averages.value.sleepHours < 7.0) &&
              (DeepSleepLow in t.trends <==> DeepPercentage(deep, total) < 15.0) &&
              (AvoidLateMeals in t.recommendations <==> DeepPercentage(deep, total) < 15.0) &&
              (total <= 0 ==> DeepSleepLow in t.trends) &&
              |t.trends| == |t.recommendations|
  {
  }

  // ---------------------------------------------------------------------
  // The integration object

  /** Where a client comes from when none was given: the saved tokens. */
  datatype TokenSource = TokenSource(tokenDir: Option<string>, home: string, store: Auth.TokenStore, resumed: bool)

  class Integration {
    var client: Option<Auth.GarminAuth>

    constructor(client: Option<Auth.GarminAuth>)
      ensures this.client == client
    {
      this.client := client;
    }

    /** _get_client: the client given or created earlier; otherwise one
        from the saved tokens, kept for later, and RuntimeError when there
        are none. */
    method GetClient(tokens: TokenSource) returns (r: Result<Auth.GarminAuth>)
      modifies this, tokens.store
      ensures old(client).Some? ==> r == Ok(old(client).value) && client == old(client)
      ensures old(client).None? ==> (r.Ok? <==> old(tokens.store.present) && tokens.resumed)
      ensures r.Ok? ==> client == Some(r.value)
      ensures r.Err? ==> r.error == RuntimeError && client.None?
    {
      if client.Some? {
        return Ok(client.value);
      }
      var created := Client.FromSavedTokens(tokens.tokenDir, tokens.home, tokens.store, tokens.resumed);
      if created.Err? {
        return Err(RuntimeError);
      }
      client := Some(created.value);
      return created;
    }

    /** is_connected: whether a client can be had. */
    method IsConnected(tokens: TokenSource) returns (connected: bool)
      modifies this, tokens.store
      ensures connected <==> old(client).Some? || (old(tokens.store.present) && tokens.resumed)
      ensures connected <==> client.Some?
    {
      var r := GetClient(tokens);
      connected := r.Ok?;
    }

    /** get_health_summary: the summary of today's snapshot. */
    method GetHealthSummary(tokens: TokenSource, today: int, fetched: Client.Fetched) returns (r: Result<HealthSummary>)
      requires InRange(today)
      modifies this, tokens.store
      ensures r.Err? <==> old(client).None? && !(old(tokens.store.present) && tokens.resumed)
      ensures r.Err? ==> r.error == RuntimeError
      ensures r.Ok? ==> r.value == SummaryOf(Client.SnapshotOf(FormatOrdinal(today), fetched))
    {
      var c := GetClient(tokens);
      if c.Err? {
        return Err(c.error);
      }
      var snapshot := Client.GetHealthSnapshot(None, today, fetched);
      var summary := Summarize(snapshot);
      return Ok(summary);
    }

    /** get_activity_insights: the insights of the last `days` days, once
        a client is had. */
    method GetActivityInsights(tokens: TokenSource, days: int, today: int, request: map<string, Json> -> Result<Json>)
      returns (r: Result<ActivityInsights>)
      requires InRange(today)
      modifies this, tokens.store
      ensures old(client).None? && !(old(tokens.store.present) && tokens.resumed) ==> r == Err(RuntimeError)
      ensures old(client).Some? || (old(tokens.store.present) && tokens.resumed) ==> r == ActivityInsightsFor(days, WindowStart(days, today), today, request)
    {
      var c := GetClient(tokens);
      if c.Err? {
        return Err(c.error);
      }
      r := InsightsOfWindow(days, WindowStart(days, today), today, request);
    }

    /** get_sleep_trends: the trends of the last `days` days, once a
        client is had. */
    method GetSleepTrends(tokens: TokenSource, days: int, today: int, fetch: int -> Result<Option<SleepData>>)
      returns (r: Result<SleepTrends>)
      requires InRange(today)
      modifies this, tokens.store
      ensures old(client).None? && !(old(tokens.store.present) && tokens.resumed) ==> r == Err(RuntimeError)
      ensures old(client).Some? || (old(tokens.store.present) && tokens.resumed) ==> r == SleepTrendsFor(days, WindowStart(days, today), today, fetch)
    {
      var c := GetClient(tokens);
      if c.Err? {
        return Err(c.error);
      }
      r := TrendsOfWindow(days, WindowStart(days, today), today, fetch);
    }
  }

  /** The first day of a window of `days` days ending today, as
      `end_date - timedelta(days=days - 1)` computes it. */
  function WindowStart(days: int, today: int): int {
    today - (days - 1)
  }

  /** The activity insights of the `days` days ending today: a start
      before 0001-01-01 or after 9999-12-31 raises OverflowError;
      otherwise the window is analysed. */
  function ActivityInsightsFor(days: int, start: int, today: int, request: map<string, Json> -> Result<Json>): Result<ActivityInsights>
    requires InRange(today)
  {
    if !InRange(start) then Err(OverflowError) else Ok(WindowInsights(days, start, today, request))
  }

  /** Up to 100 activities from `start` to `today`, analysed. */
  function WindowInsights(days: int, start: int, today: int, request: map<string, Json> -> Result<Json>): ActivityInsights
    requires InRange(start) && InRange(today)
  {
    ActivityInsightsOf(days, ActivitiesExtractor.ActivityList(request(
      ActivitiesExtractor.Params(Some(ExtractorBase.Day(start)), Some(ExtractorBase.Day(today)), None, 100, 0))))
  }

  /** The sleep trends of the `days` days ending today; a start out of
      range raises OverflowError. */
  function SleepTrendsFor(days: int, start: int, today: int, fetch: int -> Result<Option<SleepData>>): Result<SleepTrends>
    requires InRange(today)
  {
    if !InRange(start) then Err(OverflowError) else Ok(WindowTrends(days, start, today, fetch))
  }

  /** The nights from `start` to `today` that have data, analysed. */
  function WindowTrends(days: int, start: int, today: int, fetch: int -> Result<Option<SleepData>>): SleepTrends
    requires InRange(start) && InRange(today)
  {
    SleepTrendsOf(days, ExtractorBase.Kept(ExtractorBase.Days(start, today), fetch))
  }

  /** The window check of get_activity_insights. */
  method InsightsOfWindow(days: int, start: int, today: int, request: map<string, Json> -> Result<Json>)
    returns (r: Result<ActivityInsights>)
    requires InRange(today)
    ensures r == ActivityInsightsFor(days, start, today, request)
  {
    if !InRange(start) {
      return Err(OverflowError);
    }
    var insights := AnalyzeWindow(days, start, today, request);
    return Ok(insights);
  }

  /** The request and the analysis of get_activity_insights. */
  method AnalyzeWindow(days: int, start: int, today: int, request: map<string, Json> -> Result<Json>)
    returns (insights: ActivityInsights)
    requires InRange(start) && InRange(today)
    ensures insights == WindowInsights(days, start, today, request)
  {
    var activities := ActivitiesExtractor.GetActivities(Some(ExtractorBase.Day(start)), Some(ExtractorBase.Day(today)),
                                                       None, 100, 0, request);
    insights := AnalyzeActivities(days, activities);
  }

  /** The window check of get_sleep_trends. */
  method TrendsOfWindow(days: int, start: int, today: int, fetch: int -> Result<Option<SleepData>>)
    returns (r: Result<SleepTrends>)
    requires InRange(today)
    ensures r == SleepTrendsFor(days, start, today, fetch)
  {
    if !InRange(start) {
      return Err(OverflowError);
    }
    var trends := TrendsOfNights(days, start, today, fetch);
    return Ok(trends);
  }

  /** The range walk and the analysis of get_sleep_trends. */
  method TrendsOfNights(days: int, start: int, today: int, fetch: int -> Result<Option<SleepData>>)
    returns (trends: SleepTrends)
    requires InRange(start) && InRange(today)
    ensures trends == WindowTrends(days, start, today, fetch)
  {
    var nights := ExtractorBase.GetForDateRange(ExtractorBase.Day(start), ExtractorBase.Day(today), fetch);
    assert nights == Ok(ExtractorBase.Kept(ExtractorBase.Days(start, today), fetch));
    trends := AnalyzeSleep(days, if nights.Ok? then nights.value else []);
  }
}
