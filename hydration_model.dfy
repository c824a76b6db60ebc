/** A day's water intake record (src/garmer/models/hydration.py). */
module HydrationModel {
  import opened Json
  import opened ModelBase

  datatype HydrationData = HydrationData(
    calendarDate: Option<string>,
    totalIntakeMl: int,
    goalMl: int,
    sweatLossMl: int,
    activityIntakeMl: int,
    lastEntryTimestamp: Option<Instant>)
  {
    function TotalIntakeLiters(): real {
      totalIntakeMl as real / 1000.0
    }

    function TotalIntakeOz(): real {
      totalIntakeMl as real / 29.5735
    }

    function GoalLiters(): real {
      goalMl as real / 1000.0
    }

    function GoalOz(): real {
      goalMl as real / 29.5735
    }

    /** Percentage of the goal drunk; 0 when there is no positive goal. */
    function GoalPercentage(): real {
      if goalMl > 0 then totalIntakeMl as real / goalMl as real * 100.0 else 0.0
    }

    predicate GoalReached() {
      totalIntakeMl >= goalMl
    }

    function NetIntakeMl(): int {
      totalIntakeMl - sweatLossMl
    }

    function RemainingMl(): int {
      if goalMl - totalIntakeMl > 0 then goalMl - totalIntakeMl else 0
    }
  }

  /** With a positive goal the percentage reaches 100 exactly when the goal
      is reached; without one it is 0 whatever was drunk. */
  lemma {:induction false} PercentageAgreesWithGoalReached(h: HydrationData)
    ensures h.goalMl > 0 ==> (h.GoalPercentage() >= 100.0 <==> h.GoalReached())
    ensures h.goalMl > 0 ==> h.GoalPercentage() * h.goalMl as real == 100.0 * h.totalIntakeMl as real
    ensures h.goalMl <= 0 ==> h.GoalPercentage() == 0.0
  {
    if h.goalMl > 0 {
      var g, t := h.goalMl as real, h.totalIntakeMl as real;
      assert h.GoalPercentage() == t / g * 100.0;
      assert t / g >= 1.0 <==> t >= g;
    }
  }

  /** What is left to drink is never negative, is zero exactly when the goal
      is reached, and tops the intake up to the goal otherwise. */
  lemma {:induction false} RemainingClosesTheGap(h: HydrationData)
    ensures h.RemainingMl() >= 0
    ensures h.RemainingMl() == 0 <==> h.GoalReached()
    ensures !h.GoalReached() ==> h.totalIntakeMl + h.RemainingMl() == h.goalMl
    ensures h.NetIntakeMl() + h.sweatLossMl == h.totalIntakeMl
  {
  }

  /** Liters and fluid ounces are the same quantity in other units. */
  lemma {:induction false} UnitConversions(h: HydrationData)
    ensures h.TotalIntakeLiters() * 1000.0 == h.totalIntakeMl as real
    ensures h.TotalIntakeOz() * 29.5735 == h.totalIntakeMl as real
    ensures h.GoalLiters() * 1000.0 == h.goalMl as real
    ensures h.GoalOz() * 29.5735 == h.goalMl as real
  {
  }

  /** HydrationData.from_garmin_response: every value is looked up under its
      camelCase key, then its snake_case key, then the default, and the
      amounts go through Python int(). */
  function FromResponse(data: Json): (r: Result<HydrationData>)
    ensures !data.JObj? ==> r == Err(AttributeError)
    ensures r.Ok? ==> PyInt(GetEither(data.fields, "valueInML", "value_in_ml", JInt(0))) == Ok(r.value.totalIntakeMl)
    ensures r.Ok? ==> PyInt(GetEither(data.fields, "goalInML", "goal_in_ml", JInt(2500))) == Ok(r.value.goalMl)
  {
    if !data.JObj? then Err(AttributeError)
    else
      var m := data.fields;
      var intake :- PyInt(GetEither(m, "valueInML", "value_in_ml", JInt(0)));
      var goal :- PyInt(GetEither(m, "goalInML", "goal_in_ml", JInt(2500)));
      var sweat :- PyInt(GetEither(m, "sweatLossInML", "sweat_loss_in_ml", JInt(0)));
      var activity :- PyInt(GetEither(m, "activityIntakeInML", "activity_intake_in_ml", JInt(0)));
      var last :- ParseTimestamp(GetEither(m, "lastEntryTimestampGMT", "last_entry_timestamp_gmt", JNull));
      var date :- ToOptStr(GetEither(m, "calendarDate", "calendar_date", JNull));
      Ok(HydrationData(date, intake, goal, sweat, activity, last))
  }

  /** An empty response means nothing drunk against a 2500 mL goal. */
  lemma {:induction false} EmptyResponseDefaults()
    ensures FromResponse(JObj(map[])) == Ok(HydrationData(None, 0, 2500, 0, 0, None))
  {
  }

  /** The camelCase key is used whenever present, the snake_case key only
      when it is absent, and a float amount is truncated toward zero. */
  lemma {:induction false} IntakeKeyProbing(m: map<string, Json>, n: int, r: real)
    requires r >= 0.0
    ensures FromResponse(JObj(m["valueInML" := JInt(n)]["value_in_ml" := JInt(n + 1)])).Ok? ==>
              FromResponse(JObj(m["valueInML" := JInt(n)]["value_in_ml" := JInt(n + 1)])).value.totalIntakeMl == n
    ensures "valueInML" !in m && FromResponse(JObj(m["value_in_ml" := JReal(r)])).Ok? ==>
              FromResponse(JObj(m["value_in_ml" := JReal(r)])).value.totalIntakeMl == r.Floor
  {
    assert "valueInML" != "value_in_ml";
  }

  /** A camelCase intake key that is present but null is not replaced by the
      default: int(None) raises TypeError. */
  lemma {:induction false} NullIntakeRaises(m: map<string, Json>)
    ensures FromResponse(JObj(m["valueInML" := JNull])) == Err(TypeError)
  {
  }
}
