/** Steps for one day and statistics over a range of days
    (src/garmer/extractors/steps.py). */
module StepsExtractor {
  import opened Json
  import opened Seqs
  import ExtractorBase
  import opened StepsModel

  /** get_for_date: the day's summary, or None when the request failed in
      any way, the response was falsy, or the record refused it. */
  function GetForDate(response: Result<Json>): (r: Option<StepsData>)
    ensures response.Err? ==> r == None
    ensures r.Some? <==> response.Ok? && Truthy(response.value) && FromResponse(response.value).Ok?
    ensures r.Some? ==> FromResponse(response.value) == Ok(r.value)
  {
    ExtractorBase.GetForDate(response, FromResponse)
  }

  /** get_total_steps */
  function GetTotalSteps(response: Result<Json>): (r: Option<int>)
    ensures r.None? <==> GetForDate(response).None?
    ensures r.Some? ==> r.value == GetForDate(response).value.totalSteps
  {
    var data := GetForDate(response);
    if data.Some? then Some(data.value.totalSteps) else None
  }

  /** The statistics dict of get_steps_stats. goalReachedPercentage is
      None, and stepsData empty, where the dict has no such key. */
  datatype StepsStats = StepsStats(
    daysWithData: int,
    totalSteps: int,
    avgDailySteps: real,
    maxStepsDay: int,
    minStepsDay: int,
    daysGoalReached: int,
    goalReachedPercentage: Option<real>,
    stepsData: seq<StepsData>)

  /** The daily totals, in day order. */
  function DailyTotals(days: seq<StepsData>): (r: seq<int>)
    ensures |r| == |days| && forall k | 0 <= k < |days| :: r[k] == days[k].totalSteps
  {
    seq(|days|, k requires 0 <= k < |days| => days[k].totalSteps)
  }

  /** get_steps_stats over the days get_for_date_range returned. */
  function GetStepsStats(days: seq<StepsData>): (r: StepsStats)
    ensures r.daysWithData == |days| && r.stepsData == days
    ensures r.goalReachedPercentage.Some? <==> days != []
  {
    if days == [] then StepsStats(0, 0, 0.0, 0, 0, 0, None, [])
    else
      var totals := DailyTotals(days);
      var total := Sum(totals);
      var n := |days|;
      var reached := Count(days, (d: StepsData) => d.GoalReached());
      StepsStats(n, total, total as real / n as real, Max(totals), Min(totals), reached,
                 Some(reached as real / n as real * 100.0), days)
  }

  /** With no days every counter is 0. Otherwise the total is the sum of
      the daily totals over the days with data, the largest and smallest
      day are daily totals bounding every day, the average lies between
      them, and the days that reached the goal are at most all of them, so
      their percentage lies in [0, 100]. */
  lemma {:induction false} StepsStatsMeaning(days: seq<StepsData>)
    ensures days == [] ==> GetStepsStats(days) == StepsStats(0, 0, 0.0, 0, 0, 0, None, [])
    ensures GetStepsStats(days).daysWithData == |days|
    ensures GetStepsStats(days).totalSteps == Sum(DailyTotals(days))
    ensures days != [] ==>
              var s := GetStepsStats(days);
              s.maxStepsDay in DailyTotals(days) && s.minStepsDay in DailyTotals(days) &&
              (forall k | 0 <= k < |days| :: s.minStepsDay <= days[k].totalSteps <= s.maxStepsDay) &&
              s.minStepsDay as real <= s.avgDailySteps <= s.maxStepsDay as real
    ensures 0 <= GetStepsStats(days).daysGoalReached <= GetStepsStats(days).daysWithData
    ensures days != [] ==>
              GetStepsStats(days).daysGoalReached == Count(days, (d: StepsData) => d.GoalReached()) &&
              0.0 <= GetStepsStats(days).goalReachedPercentage.value <= 100.0
  {
    if days != [] {
      var totals := DailyTotals(days);
      MaxMinBound(totals);
      MeanBetweenMinMax(totals);
      var reached := Count(days, (d: StepsData) => d.GoalReached());
      var n := |days| as real;
      QuotientBounds(reached as real, n, 0.0, 1.0);
    }
  }

  /** A day counts towards the goal exactly when its total reaches its own
      goal: the count grows by one per such day. */
  lemma {:induction false} GoalDaysCounted(days: seq<StepsData>, d: StepsData)
    ensures Count(days + [d], (x: StepsData) => x.GoalReached())
         == Count(days, (x: StepsData) => x.GoalReached()) + (if d.totalSteps >= d.stepGoal then 1 else 0)
  {
    if days == [] {
      assert [d][1..] == [];
    } else {
      GoalDaysCounted(days[1..], d);
      assert (days + [d])[1..] == days[1..] + [d];
    }
  }
}
