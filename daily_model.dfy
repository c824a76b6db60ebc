/** The daily summary record and its simplified statistics form
    (src/garmer/models/daily.py). */
module DailyModel {
  import opened Json
  import opened ModelBase

  /** The simplified statistics a summary converts to. */
  datatype DailyStats = DailyStats(
    calendarDate: string,
    totalSteps: int,
    stepGoal: int,
    totalDistanceMeters: real,
    activeCalories: int,
    totalCalories: int,
    floorsAscended: real,
    restingHeartRate: Option<int>,
    maxHeartRate: Option<int>,
    minHeartRate: Option<int>,
    sleepDurationSeconds: int,
    sleepScore: Option<int>,
    avgStressLevel: Option<int>,
    maxStressLevel: Option<int>,
    bodyBatteryHigh: Option<int>,
    bodyBatteryLow: Option<int>,
    bodyBatteryCharged: Option<int>,
    bodyBatteryDrained: Option<int>,
    moderateIntensityMinutes: int,
    vigorousIntensityMinutes: int,
    avgRespirationRate: Option<real>,
    avgSpo2: Option<real>,
    lowestSpo2: Option<real>)

  /** The start and end timestamps of the record are never filled in by
      from_garmin_response, so they are always None and are not kept here. */
  datatype DailySummary = DailySummary(
    calendarDate: string,
    totalSteps: int,
    dailyStepGoal: int,
    totalDistanceMeters: int,
    totalKilocalories: int,
    activeKilocalories: int,
    bmrKilocalories: int,
    consumedKilocalories: Option<int>,
    netCalorieGoal: Option<int>,
    remainingKilocalories: Option<int>,
    restingHeartRate: Option<int>,
    minHeartRate: Option<int>,
    maxHeartRate: Option<int>,
    avgHeartRate: Option<int>,
    avgStressLevel: Option<int>,
    maxStressLevel: Option<int>,
    stressDuration: int,
    restStressDuration: int,
    bodyBatteryChargedValue: Option<int>,
    bodyBatteryDrainedValue: Option<int>,
    bodyBatteryHighestValue: Option<int>,
    bodyBatteryLowestValue: Option<int>,
    bodyBatteryMostRecentValue: Option<int>,
    floorsAscended: real,
    floorsDescended: real,
    floorsAscendedGoal: int,
    moderateIntensityMinutes: int,
    vigorousIntensityMinutes: int,
    intensityMinutesGoal: int,
    highlyActiveSeconds: int,
    activeSeconds: int,
    sedentarySeconds: int,
    sleepingSeconds: int,
    avgWakingRespirationValue: Option<real>,
    highestRespirationValue: Option<real>,
    lowestRespirationValue: Option<real>,
    avgSpo2Value: Option<real>,
    lowestSpo2Value: Option<real>,
    latestSpo2Value: Option<real>,
    hrvStatus: Option<string>,
    activitiesCount: int,
    userDailySummaryId: Option<int>)
  {
    /** Percentage of the step goal walked; 0 when there is no positive goal. */
    function StepGoalPercentage(): real {
      if dailyStepGoal > 0 then totalSteps as real / dailyStepGoal as real * 100.0 else 0.0
    }

    /** Vigorous minutes count double. */
    function TotalIntensityMinutes(): int {
      moderateIntensityMinutes + 2 * vigorousIntensityMinutes
    }

    function BodyBatteryNetChange(): Option<int> {
      if bodyBatteryChargedValue.Some? && bodyBatteryDrainedValue.Some? then
        Some(bodyBatteryChargedValue.value - bodyBatteryDrainedValue.value)
      else None
    }

    /** to_stats: the summary's fields under the statistics' names; the sleep
        duration stays 0 and the sleep score None. */
    function ToStats(): (s: DailyStats)
      ensures s.calendarDate == calendarDate && s.totalSteps == totalSteps && s.stepGoal == dailyStepGoal
      ensures s.sleepDurationSeconds == 0 && s.sleepScore.None?
    {
      DailyStats(calendarDate, totalSteps, dailyStepGoal, totalDistanceMeters as real,
                 activeKilocalories, totalKilocalories, floorsAscended,
                 restingHeartRate, maxHeartRate, minHeartRate, 0, None,
                 avgStressLevel, maxStressLevel,
                 bodyBatteryHighestValue, bodyBatteryLowestValue,
                 bodyBatteryChargedValue, bodyBatteryDrainedValue,
                 moderateIntensityMinutes, vigorousIntensityMinutes,
                 avgWakingRespirationValue, avgSpo2Value, lowestSpo2Value)
    }

    /** The record in JSON form, under its field names. */
    function ToJson(): Json {
      JObj(map[
        "calendar_date" := JStr(calendarDate),
        "total_steps" := JInt(totalSteps),
        "daily_step_goal" := JInt(dailyStepGoal),
        "total_distance_meters" := JInt(totalDistanceMeters),
        "total_kilocalories" := JInt(totalKilocalories),
        "active_kilocalories" := JInt(activeKilocalories),
        "bmr_kilocalories" := JInt(bmrKilocalories),
        "consumed_kilocalories" := OptIntJson(consumedKilocalories),
        "net_calorie_goal" := OptIntJson(netCalorieGoal),
        "remaining_kilocalories" := OptIntJson(remainingKilocalories),
        "resting_heart_rate" := OptIntJson(restingHeartRate),
        "min_heart_rate" := OptIntJson(minHeartRate),
        "max_heart_rate" := OptIntJson(maxHeartRate),
        "avg_heart_rate" := OptIntJson(avgHeartRate),
        "avg_stress_level" := OptIntJson(avgStressLevel),
        "max_stress_level" := OptIntJson(maxStressLevel),
        "stress_duration" := JInt(stressDuration),
        "rest_stress_duration" := JInt(restStressDuration),
        "body_battery_charged_value" := OptIntJson(bodyBatteryChargedValue),
        "body_battery_drained_value" := OptIntJson(bodyBatteryDrainedValue),
        "body_battery_highest_value" := OptIntJson(bodyBatteryHighestValue),
        "body_battery_lowest_value" := OptIntJson(bodyBatteryLowestValue),
        "body_battery_most_recent_value" := OptIntJson(bodyBatteryMostRecentValue),
        "floors_ascended" := JReal(floorsAscended),
        "floors_descended" := JReal(floorsDescended),
        "floors_ascended_goal" := JInt(floorsAscendedGoal),
        "moderate_intensity_minutes" := JInt(moderateIntensityMinutes),
        "vigorous_intensity_minutes" := JInt(vigorousIntensityMinutes),
        "intensity_minutes_goal" := JInt(intensityMinutesGoal),
        "highly_active_seconds" := JInt(highlyActiveSeconds),
        "active_seconds" := JInt(activeSeconds),
        "sedentary_seconds" := JInt(sedentarySeconds),
        "sleeping_seconds" := JInt(sleepingSeconds),
        "avg_waking_respiration_value" := OptRealJson(avgWakingRespirationValue),
        "highest_respiration_value" := OptRealJson(highestRespirationValue),
        "lowest_respiration_value" := OptRealJson(lowestRespirationValue),
        "avg_spo2_value" := OptRealJson(avgSpo2Value),
        "lowest_spo2_value" := OptRealJson(lowestSpo2Value),
        "latest_spo2_value" := OptRealJson(latestSpo2Value),
        "hrv_status" := OptStrJson(hrvStatus),
        "activities_count" := JInt(activitiesCount),
        "user_daily_summary_id" := OptIntJson(userDailySummaryId)
      ])
    }
  }

  /** With a positive goal the percentage reaches 100 exactly when the goal
      is walked; without one it is 0. */
  lemma {:induction false} StepPercentageAgreesWithGoal(d: DailySummary)
    ensures d.dailyStepGoal > 0 ==> (d.StepGoalPercentage() >= 100.0 <==> d.totalSteps >= d.dailyStepGoal)
    ensures d.dailyStepGoal > 0 ==> d.StepGoalPercentage() * d.dailyStepGoal as real == 100.0 * d.totalSteps as real
    ensures d.dailyStepGoal <= 0 ==> d.StepGoalPercentage() == 0.0
  {
    if d.dailyStepGoal > 0 {
      var g, t := d.dailyStepGoal as real, d.totalSteps as real;
      assert t / g >= 1.0 <==> t >= g;
    }
  }

  /** A vigorous minute adds two intensity minutes, a moderate one adds one;
      the net battery change is known exactly when both sides are, and
      then accounts for the drain. */
  lemma {:induction false} DerivedCounters(d: DailySummary)
    ensures d.(vigorousIntensityMinutes := d.vigorousIntensityMinutes + 1).TotalIntensityMinutes()
         == d.TotalIntensityMinutes() + 2
    ensures d.(moderateIntensityMinutes := d.moderateIntensityMinutes + 1).TotalIntensityMinutes()
         == d.TotalIntensityMinutes() + 1
    ensures d.BodyBatteryNetChange().Some? <==> d.bodyBatteryChargedValue.Some? && d.bodyBatteryDrainedValue.Some?
    ensures d.BodyBatteryNetChange().Some? ==>
              d.BodyBatteryNetChange().value + d.bodyBatteryDrainedValue.value == d.bodyBatteryChargedValue.value
  {
  }

  /** The statistics keep the summary's steps, goal, calories, heart rates,
      stress, body battery and intensity values; they carry no sleep data. */
  lemma {:induction false} ToStatsKeepsMetrics(d: DailySummary)
    ensures d.ToStats().totalSteps == d.totalSteps && d.ToStats().stepGoal == d.dailyStepGoal
    ensures d.ToStats().totalDistanceMeters == d.totalDistanceMeters as real
    ensures d.ToStats().totalCalories == d.totalKilocalories && d.ToStats().activeCalories == d.activeKilocalories
    ensures d.ToStats().bodyBatteryHigh == d.bodyBatteryHighestValue
    ensures d.ToStats().bodyBatteryLow == d.bodyBatteryLowestValue
    ensures d.ToStats().avgRespirationRate == d.avgWakingRespirationValue
    ensures d.ToStats().sleepDurationSeconds == 0 && d.ToStats().sleepScore == None
  {
  }

  /** get_int: a missing key and an explicit null both give the default. */
  function IntOr(m: map<string, Json>, key: string, default: int): Json {
    if key in m && m[key] != JNull then m[key] else JInt(default)
  }

  /** `get_float(key, 0.0) or 0.0`: any falsy value becomes 0.0. */
  function FloorsOr(m: map<string, Json>, key: string): Json {
    if key in m && Truthy(m[key]) then m[key] else JReal(0.0)
  }

  /** DailySummary.from_garmin_response. */
  function FromResponse(data: Json): (r: Result<DailySummary>)
    ensures !data.JObj? ==> r == Err(AttributeError)
    ensures data.JObj? && r.Err? ==> r.error == ValidationError
    ensures r.Ok? ==> ToInt(IntOr(data.fields, "totalSteps", 0)) == Ok(r.value.totalSteps) &&
                      ToInt(IntOr(data.fields, "dailyStepGoal", 10000)) == Ok(r.value.dailyStepGoal)
  {
    if !data.JObj? then Err(AttributeError)
    else
      var m := data.fields;
      var date := ToStr(if "calendarDate" in m && Truthy(m["calendarDate"]) then m["calendarDate"] else JStr(""));
      var steps := ToInt(IntOr(m, "totalSteps", 0));
      var stepGoal := ToInt(IntOr(m, "dailyStepGoal", 10000));
      var distance := ToInt(IntOr(m, "totalDistanceMeters", 0));
      var kcal := ToInt(IntOr(m, "totalKilocalories", 0));
      var activeKcal := ToInt(IntOr(m, "activeKilocalories", 0));
      var bmrKcal := ToInt(IntOr(m, "bmrKilocalories", 0));
      var consumed := ToOptInt(Get(m, "consumedKilocalories", JNull));
      var netGoal := ToOptInt(Get(m, "netCalorieGoal", JNull));
      var remaining := ToOptInt(Get(m, "remainingKilocalories", JNull));
      var resting := ToOptInt(Get(m, "restingHeartRate", JNull));
      var minHr := ToOptInt(Get(m, "minHeartRate", JNull));
      var maxHr := ToOptInt(Get(m, "maxHeartRate", JNull));
      var avgHr := ToOptInt(Get(m, "averageHeartRate", JNull));
      var avgStress := ToOptInt(Get(m, "averageStressLevel", JNull));
      var maxStress := ToOptInt(Get(m, "maxStressLevel", JNull));
      var stressSecs := ToInt(IntOr(m, "stressDuration", 0));
      var restSecs := ToInt(IntOr(m, "restStressDuration", 0));
      var charged := ToOptInt(Get(m, "bodyBatteryChargedValue", JNull));
      var drained := ToOptInt(Get(m, "bodyBatteryDrainedValue", JNull));
      var highest := ToOptInt(Get(m, "bodyBatteryHighestValue", JNull));
      var lowest := ToOptInt(Get(m, "bodyBatteryLowestValue", JNull));
      var recent := ToOptInt(Get(m, "bodyBatteryMostRecentValue", JNull));
      var up := ToReal(FloorsOr(m, "floorsAscended"));
      var down := ToReal(FloorsOr(m, "floorsDescended"));
      var floorsGoal := ToInt(IntOr(m, "floorsAscendedGoal", 10));
      var moderate := ToInt(IntOr(m, "moderateIntensityMinutes", 0));
      var vigorous := ToInt(IntOr(m, "vigorousIntensityMinutes", 0));
      var intensityGoal := ToInt(IntOr(m, "intensityMinutesGoal", 150));
      var highlyActive := ToInt(IntOr(m, "highlyActiveSeconds", 0));
      var active := ToInt(IntOr(m, "activeSeconds", 0));
      var sedentary := ToInt(IntOr(m, "sedentarySeconds", 0));
      var sleeping := ToInt(IntOr(m, "sleepingSeconds", 0));
      var respAvg := ToOptReal(Get(m, "avgWakingRespirationValue", JNull));
      var respHigh := ToOptReal(Get(m, "highestRespirationValue", JNull));
      var respLow := ToOptReal(Get(m, "lowestRespirationValue", JNull));
      var spo2Avg := ToOptReal(Get(m, "averageSpO2", JNull));
      var spo2Low := ToOptReal(Get(m, "lowestSpO2", JNull));
      var spo2Latest := ToOptReal(Get(m, "latestSpO2", JNull));
      var hrv := ToOptStr(Get(m, "hrvStatus", JNull));
      var count := ToInt(IntOr(m, "activitiesCount", 0));
      var summaryId := ToOptInt(Get(m, "userDailySummaryId", JNull));
      if date.Ok? && steps.Ok? && stepGoal.Ok? && distance.Ok? && kcal.Ok? && activeKcal.Ok? &&
         bmrKcal.Ok? && consumed.Ok? && netGoal.Ok? && remaining.Ok? && resting.Ok? && minHr.Ok? &&
         maxHr.Ok? && avgHr.Ok? && avgStress.Ok? && maxStress.Ok? && stressSecs.Ok? && restSecs.Ok? &&
         charged.Ok? && drained.Ok? && highest.Ok? && lowest.Ok? && recent.Ok? && up.Ok? && down.Ok? &&
         floorsGoal.Ok? && moderate.Ok? && vigorous.Ok? && intensityGoal.Ok? && highlyActive.Ok? &&
         active.Ok? && sedentary.Ok? && sleeping.Ok? && respAvg.Ok? && respHigh.Ok? && respLow.Ok? &&
         spo2Avg.Ok? && spo2Low.Ok? && spo2Latest.Ok? && hrv.Ok? && count.Ok? && summaryId.Ok? then
        Ok(DailySummary(date.value, steps.value, stepGoal.value, distance.value, kcal.value,
                        activeKcal.value, bmrKcal.value, consumed.value, netGoal.value, remaining.value,
                        resting.value, minHr.value, maxHr.value, avgHr.value, avgStress.value,
                        maxStress.value, stressSecs.value, restSecs.value, charged.value, drained.value,
                        highest.value, lowest.value, recent.value, up.value, down.value, floorsGoal.value,
                        moderate.value, vigorous.value, intensityGoal.value, highlyActive.value,
                        active.value, sedentary.value, sleeping.value, respAvg.value, respHigh.value,
                        respLow.value, spo2Avg.value, spo2Low.value, spo2Latest.value, hrv.value,
                        count.value, summaryId.value))
      else
        Err(ValidationError)
  }

  /** For a counter, a missing key and an explicit null are the same thing:
      both give the documented default. */
  lemma {:induction false} NullCounterMeansDefault(m: map<string, Json>, key: string, default: int)
    ensures IntOr(m[key := JNull], key, default) == IntOr(m - {key}, key, default) == JInt(default)
  {
  }

  /** An empty response gives a summary of zeros with a 10000-step goal,
      a 10-floor goal, a 150-minute intensity goal and an empty date. */
  lemma {:induction false} EmptyResponseDefaults()
    ensures FromResponse(JObj(map[])).Ok?
    ensures FromResponse(JObj(map[])).value.dailyStepGoal == 10000
    ensures FromResponse(JObj(map[])).value.floorsAscendedGoal == 10
    ensures FromResponse(JObj(map[])).value.intensityMinutesGoal == 150
    ensures FromResponse(JObj(map[])).value.totalSteps == 0
    ensures FromResponse(JObj(map[])).value.calendarDate == ""
    ensures FromResponse(JObj(map[])).value.restingHeartRate == None
  {
  }

  /** The date is "" whenever calendarDate is missing, null or otherwise
      falsy, and the floor counts are 0.0 whenever their value is. */
  lemma {:induction false} FalsyDateAndFloorsFallBack(m: map<string, Json>)
    requires FromResponse(JObj(m)).Ok?
    ensures !("calendarDate" in m && Truthy(m["calendarDate"])) ==> FromResponse(JObj(m)).value.calendarDate == ""
    ensures !("floorsAscended" in m && Truthy(m["floorsAscended"])) ==> FromResponse(JObj(m)).value.floorsAscended == 0.0
  {
  }
}
