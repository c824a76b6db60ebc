/** A day's step counts with their per-interval samples
    (src/garmer/models/steps.py). */
module StepsModel {
  import opened Json
  import opened ModelBase

  datatype StepsSample = StepsSample(
    startTime: Option<Instant>,
    endTime: Option<Instant>,
    steps: int,
    activityType: Option<string>)

  /** StepsSample.from_garmin_response: a missing step count is 0. Only a
      dict has `.get`; any other element raises AttributeError. */
  function SampleFromElement(j: Json): (r: Result<Option<StepsSample>>)
    ensures r.Ok? ==> j.JObj? && r.value.Some?
    ensures r.Ok? && "steps" !in j.fields ==> r.value.value.steps == 0
  {
    if !j.JObj? then Err(AttributeError)
    else
      var m := j.fields;
      var start :- ParseTimestamp(Get(m, "startGMT", JNull));
      var end :- ParseTimestamp(Get(m, "endGMT", JNull));
      var steps :- ToInt(Get(m, "steps", JInt(0)));
      var level :- ToOptStr(Get(m, "primaryActivityLevel", JNull));
      Ok(Some(StepsSample(start, end, steps, level)))
  }

  /** The loop over stepsSamples (lines 66-70): one sample per element. */
  method ParseSamples(raw: seq<Json>) returns (r: Result<seq<StepsSample>>)
    ensures r == Collect(raw, SampleFromElement)
  {
    var samples: seq<StepsSample> := [];
    var i := 0;
    while i < |raw|
      invariant 0 <= i <= |raw|
      invariant Collect(raw[..i], SampleFromElement) == Ok(samples)
    {
      CollectAppend(raw[..i], raw[i], SampleFromElement);
      assert raw[..i + 1] == raw[..i] + [raw[i]];
      var s := SampleFromElement(raw[i]);
      if s.Err? {
        CollectFailsFromPrefix(raw, i + 1, SampleFromElement);
        return Err(s.error);
      }
      samples := samples + [s.value.value];
      i := i + 1;
    }
    assert raw[..i] == raw;
    return Ok(samples);
  }

  datatype StepsData = StepsData(
    calendarDate: Option<string>,
    totalSteps: int,
    stepGoal: int,
    totalDistanceMeters: real,
    highlyActiveSeconds: int,
    activeSeconds: int,
    sedentarySeconds: int,
    sleepingSeconds: int,
    floorsAscended: int,
    floorsDescended: int,
    floorsGoal: int,
    moderateIntensityMinutes: int,
    vigorousIntensityMinutes: int,
    intensityMinutesGoal: int,
    stepsSamples: seq<StepsSample>)
  {
    /** Percentage of the goal walked; 0 when there is no positive goal. */
    function GoalPercentage(): real {
      if stepGoal > 0 then totalSteps as real / stepGoal as real * 100.0 else 0.0
    }

    predicate GoalReached() {
      totalSteps >= stepGoal
    }

    function TotalDistanceKm(): real {
      totalDistanceMeters / 1000.0
    }

    function TotalDistanceMiles(): real {
      totalDistanceMeters / 1609.344
    }

    function HighlyActiveMinutes(): real {
      highlyActiveSeconds as real / 60.0
    }

    function ActiveMinutes(): real {
      activeSeconds as real / 60.0
    }

    function SedentaryHours(): real {
      sedentarySeconds as real / 3600.0
    }

    /** Vigorous minutes count double. */
    function TotalIntensityMinutes(): int {
      moderateIntensityMinutes + 2 * vigorousIntensityMinutes
    }

    predicate FloorsGoalReached() {
      floorsAscended >= floorsGoal
    }
  }

  /** With a positive goal the percentage reaches 100 exactly when the goal
      is reached; without one it is 0 whatever was walked. */
  lemma {:induction false} PercentageAgreesWithGoalReached(d: StepsData)
    ensures d.stepGoal > 0 ==> (d.GoalPercentage() >= 100.0 <==> d.GoalReached())
    ensures d.stepGoal > 0 ==> d.GoalPercentage() * d.stepGoal as real == 100.0 * d.totalSteps as real
    ensures d.stepGoal <= 0 ==> d.GoalPercentage() == 0.0
  {
    if d.stepGoal > 0 {
      var g, t := d.stepGoal as real, d.totalSteps as real;
      assert t / g >= 1.0 <==> t >= g;
    }
  }

  /** Intensity minutes weigh a vigorous minute as two moderate ones; the
      unit conversions are exact rescalings. */
  lemma {:induction false} DerivedQuantities(d: StepsData)
    ensures d.(vigorousIntensityMinutes := d.vigorousIntensityMinutes + 1).TotalIntensityMinutes()
         == d.(moderateIntensityMinutes := d.moderateIntensityMinutes + 2).TotalIntensityMinutes()
    ensures d.TotalDistanceKm() * 1000.0 == d.totalDistanceMeters
    ensures d.TotalDistanceMiles() * 1609.344 == d.totalDistanceMeters
    ensures d.ActiveMinutes() * 60.0 == d.activeSeconds as real
    ensures d.SedentaryHours() * 3600.0 == d.sedentarySeconds as real
    ensures d.FloorsGoalReached() <==> !(d.floorsAscended < d.floorsGoal)
  {
  }

  /** StepsData.from_garmin_response: stepsSamples is walked without a
      truthiness check, so a null there raises TypeError. */
  function FromResponse(data: Json): (r: Result<StepsData>)
    ensures !data.JObj? ==> r == Err(AttributeError)
    ensures r.Ok? ==> Elements(Get(data.fields, "stepsSamples", JList([]))).Ok?
    ensures r.Ok? ==> Collect(Elements(Get(data.fields, "stepsSamples", JList([]))).value, SampleFromElement)
                      == Ok(r.value.stepsSamples)
    ensures r.Ok? ==> ToInt(Get(data.fields, "stepGoal", JInt(10000))) == Ok(r.value.stepGoal)
  {
    if !data.JObj? then Err(AttributeError)
    else
      var m := data.fields;
      var raw :- Elements(Get(m, "stepsSamples", JList([])));
      var samples :- Collect(raw, SampleFromElement);
      var date :- ToOptStr(Get(m, "calendarDate", JNull));
      var steps :- ToInt(Get(m, "totalSteps", JInt(0)));
      var goal :- ToInt(Get(m, "stepGoal", JInt(10000)));
      var distance :- ToReal(Get(m, "totalDistanceMeters", JReal(0.0)));
      var highlyActive :- ToInt(Get(m, "highlyActiveSeconds", JInt(0)));
      var active :- ToInt(Get(m, "activeSeconds", JInt(0)));
      var sedentary :- ToInt(Get(m, "sedentarySeconds", JInt(0)));
      var sleeping :- ToInt(Get(m, "sleepingSeconds", JInt(0)));
      var up :- ToInt(Get(m, "floorsAscended", JInt(0)));
      var down :- ToInt(Get(m, "floorsDescended", JInt(0)));
      var floorsGoal :- ToInt(Get(m, "floorsGoal", JInt(10)));
      var moderate :- ToInt(Get(m, "moderateIntensityMinutes", JInt(0)));
      var vigorous :- ToInt(Get(m, "vigorousIntensityMinutes", JInt(0)));
      var intensityGoal :- ToInt(Get(m, "intensityMinutesGoal", JInt(150)));
      Ok(StepsData(date, steps, goal, distance, highlyActive, active, sedentary, sleeping,
                   up, down, floorsGoal, moderate, vigorous, intensityGoal, samples))
  }

  /** Missing keys give 0 steps against a 10000-step goal, a 10-floor goal
      and a 150-minute intensity goal, and no samples. */
  lemma {:induction false} EmptyResponseDefaults()
    ensures FromResponse(JObj(map[])) == Ok(StepsData(None, 0, 10000, 0.0, 0, 0, 0, 0, 0, 0, 10, 0, 0, 150, []))
  {
  }

  /** A list of sample objects that all parse gives one sample per element,
      in input order, each with 0 steps where the count is missing. */
  lemma {:induction false} OneSamplePerElement(m: map<string, Json>, raw: seq<Json>)
    requires Get(m, "stepsSamples", JList([])) == JList(raw)
    requires FromResponse(JObj(m)).Ok?
    ensures |FromResponse(JObj(m)).value.stepsSamples| == |raw|
    ensures forall k | 0 <= k < |raw| ::
              SampleFromElement(raw[k]) == Ok(Some(FromResponse(JObj(m)).value.stepsSamples[k]))
  {
    CollectFails(raw, SampleFromElement);
    CollectOneEach(raw, SampleFromElement);
  }
}
