/** Stress records: one measurement sample, and a day's stress summary with
    its samples (src/garmer/models/stress.py). */
module StressModel {
  import opened Json
  import opened Seqs
  import opened ModelBase

  /** A stress level of -1 marks a sample the watch could not measure. */
  datatype StressSample = StressSample(timestamp: Option<Instant>, stressLevel: int) {
    predicate IsValid() {
      stressLevel >= 0
    }

    function Category(): string {
      if stressLevel < 0 then "unmeasured"
      else if stressLevel <= 25 then "rest"
      else if stressLevel <= 50 then "low"
      else if stressLevel <= 75 then "medium"
      else "high"
    }

    function ToJson(): Json {
      JObj(map["timestamp" := InstantJson(timestamp), "stress_level" := JInt(stressLevel)])
    }
  }

  /** The five categories partition the levels: each level falls in exactly
      one band, and only unmeasured samples are invalid. */
  lemma {:induction false} CategoryBands(s: StressSample)
    ensures s.Category() == "unmeasured" <==> s.stressLevel < 0
    ensures s.Category() == "rest" <==> 0 <= s.stressLevel <= 25
    ensures s.Category() == "low" <==> 26 <= s.stressLevel <= 50
    ensures s.Category() == "medium" <==> 51 <= s.stressLevel <= 75
    ensures s.Category() == "high" <==> 75 < s.stressLevel
    ensures s.IsValid() <==> s.Category() != "unmeasured"
  {
  }

  /** StressSample.from_garmin_response: a missing stressLevel means -1. */
  function SampleFromObject(m: map<string, Json>): Result<StressSample> {
    var ts :- ParseTimestamp(Get(m, "timestamp", JNull));
    var level :- ToInt(Get(m, "stressLevel", JInt(-1)));
    Ok(StressSample(ts, level))
  }

  /** One element of stressValuesArray: a [timestamp, level] pair (a null
      level means -1), an object, or anything else, which is skipped. */
  function SampleFromElement(j: Json): (r: Result<Option<StressSample>>)
    ensures !(j.JList? && |j.items| >= 2) && !j.JObj? ==> r == Ok(None)
    ensures r.Ok? && (j.JObj? || (j.JList? && |j.items| >= 2)) ==> r.value.Some?
  {
    if j.JList? && |j.items| >= 2 then
      var ts :- ParseTimestamp(j.items[0]);
      var level :- if j.items[1] == JNull then Ok(-1) else ToInt(j.items[1]);
      Ok(Some(StressSample(ts, level)))
    else if j.JObj? then
      var s :- SampleFromObject(j.fields);
      Ok(Some(s))
    else
      Ok(None)
  }

  /** An object sample without stressLevel, and a pair whose level is null,
      both become a kept sample with level -1. */
  lemma {:induction false} MissingLevelIsMinusOne(m: map<string, Json>, ts: Json)
    requires "stressLevel" !in m && ParseTimestamp(Get(m, "timestamp", JNull)).Ok?
    requires ParseTimestamp(ts).Ok?
    ensures SampleFromObject(m).Ok? && SampleFromObject(m).value.stressLevel == -1
    ensures SampleFromElement(JList([ts, JNull])) == Ok(Some(StressSample(ParseTimestamp(ts).value, -1)))
  {
  }

  /** The loop over stressValuesArray (lines 89-101): append one sample per
      pair or object element, in order. */
  method ParseSamples(raw: seq<Json>) returns (r: Result<seq<StressSample>>)
    ensures r == Collect(raw, SampleFromElement)
  {
    var samples: seq<StressSample> := [];
    var i := 0;
    while i < |raw|
      invariant 0 <= i <= |raw|
      invariant Collect(raw[..i], SampleFromElement) == Ok(samples)
    {
      CollectAppend(raw[..i], raw[i], SampleFromElement);
      assert raw[..i + 1] == raw[..i] + [raw[i]];
      var s := SampleFromElement(raw[i]);
      if s.Err? {
        CollectFailsFromPrefix(raw, i + 1, SampleFromElement);
        return Err(s.error);
      }
      if s.value.Some? {
        samples := samples + [s.value.value];
      } else {
        assert samples + [] == samples;
      }
      i := i + 1;
    }
    assert raw[..i] == raw;
    return Ok(samples);
  }

  datatype StressData = StressData(
    calendarDate: Option<string>,
    startTimestamp: Option<Instant>,
    endTimestamp: Option<Instant>,
    overallStressLevel: Option<int>,
    avgStressLevel: Option<int>,
    maxStressLevel: Option<int>,
    restStressDuration: int,
    lowStressDuration: int,
    mediumStressDuration: int,
    highStressDuration: int,
    activityStressDuration: int,
    uncategorizedStressDuration: int,
    bodyBatteryCharged: Option<int>,
    bodyBatteryDrained: Option<int>,
    stressSamples: seq<StressSample>)
  {
    function RestHours(): real {
      restStressDuration as real / 3600.0
    }

    function LowStressHours(): real {
      lowStressDuration as real / 3600.0
    }

    function MediumStressHours(): real {
      mediumStressDuration as real / 3600.0
    }

    function HighStressHours(): real {
      highStressDuration as real / 3600.0
    }

    function TotalMeasuredHours(): real {
      (restStressDuration + lowStressDuration + mediumStressDuration + highStressDuration) as real / 3600.0
    }

    /** [s for s in stress_samples if s.is_valid] */
    function ValidSamples(): seq<StressSample> {
      Filter(stressSamples, (s: StressSample) => s.IsValid())
    }
  }

  /** The measured total is the sum of the four banded durations; activity
      and uncategorised time do not count toward it. */
  lemma {:induction false} TotalMeasuredIsFourBands(d: StressData, activity: int, uncategorized: int)
    ensures d.TotalMeasuredHours() == d.RestHours() + d.LowStressHours() + d.MediumStressHours() + d.HighStressHours()
    ensures d.(activityStressDuration := activity, uncategorizedStressDuration := uncategorized).TotalMeasuredHours()
         == d.TotalMeasuredHours()
  {
  }

  /** The valid samples are exactly the samples with a level of at least
      zero, in their original order. */
  lemma {:induction false} ValidSamplesAreTheMeasuredOnes(d: StressData, more: seq<StressSample>)
    ensures forall s :: s in d.ValidSamples() <==> s in d.stressSamples && s.stressLevel >= 0
    ensures d.(stressSamples := d.stressSamples + more).ValidSamples()
         == d.ValidSamples() + d.(stressSamples := more).ValidSamples()
  {
    FilterMembers(d.stressSamples, (s: StressSample) => s.IsValid());
    FilterAppend(d.stressSamples, more, (s: StressSample) => s.IsValid());
  }

  /** The samples of a response: only a truthy stressValuesArray is walked. */
  function SamplesOf(data: map<string, Json>): Result<seq<StressSample>> {
    var raw := Get(data, "stressValuesArray", JList([]));
    if !Truthy(raw) then Ok([])
    else
      var elements :- Elements(raw);
      Collect(elements, SampleFromElement)
  }

  /** StressData.from_garmin_response. Each field prefers its camelCase key
      and falls back to the snake_case one; the summary values may be
      None, the durations default to 0 and must be integers. */
  function FromResponse(data: Json): (r: Result<StressData>)
    ensures !data.JObj? ==> r == Err(AttributeError)
    ensures r.Ok? ==> SamplesOf(data.fields) == Ok(r.value.stressSamples)
    ensures r.Ok? ==> ToInt(GetEither(data.fields, "highStressDuration", "high_stress_duration", JInt(0)))
                      == Ok(r.value.highStressDuration)
  {
    if !data.JObj? then Err(AttributeError)
    else
      var m := data.fields;
      var samples :- SamplesOf(m);
      var start :- ParseTimestamp(GetEither(m, "startTimestampGMT", "start_timestamp_gmt", JNull));
      var end :- ParseTimestamp(GetEither(m, "endTimestampGMT", "end_timestamp_gmt", JNull));
      var date :- ToOptStr(GetEither(m, "calendarDate", "calendar_date", JNull));
      var overall :- ToOptInt(GetEither(m, "overallStressLevel", "overall_stress_level", JNull));
      var avg :- ToOptInt(GetEither(m, "avgStressLevel", "avg_stress_level", JNull));
      var max :- ToOptInt(GetEither(m, "maxStressLevel", "max_stress_level", JNull));
      var rest :- ToInt(GetEither(m, "restStressDuration", "rest_stress_duration", JInt(0)));
      var low :- ToInt(GetEither(m, "lowStressDuration", "low_stress_duration", JInt(0)));
      var medium :- ToInt(GetEither(m, "mediumStressDuration", "medium_stress_duration", JInt(0)));
      var high :- ToInt(GetEither(m, "highStressDuration", "high_stress_duration", JInt(0)));
      var activity :- ToInt(GetEither(m, "activityStressDuration", "activity_stress_duration", JInt(0)));
      var uncategorized :- ToInt(GetEither(m, "uncategorizedStressDuration", "uncategorized_stress_duration", JInt(0)));
      var charged :- ToOptInt(GetEither(m, "bodyBatteryChargedValue", "body_battery_charged_value", JNull));
      var drained :- ToOptInt(GetEither(m, "bodyBatteryDrainedValue", "body_battery_drained_value", JNull));
      Ok(StressData(date, start, end, overall, avg, max, rest, low, medium, high, activity, uncategorized,
                    charged, drained, samples))
  }

  /** A list of pair and object samples that all parse yields one sample per
      element, in input order, and a response without stressValuesArray
      yields none. */
  lemma {:induction false} OneSamplePerElement(data: map<string, Json>, raw: seq<Json>)
    requires Get(data, "stressValuesArray", JList([])) == JList(raw)
    requires forall k | 0 <= k < |raw| :: SampleFromElement(raw[k]).Ok? && (raw[k].JObj? || (raw[k].JList? && |raw[k].items| >= 2))
    ensures SamplesOf(data).Ok? && |SamplesOf(data).value| == |raw|
    ensures forall k | 0 <= k < |raw| :: SamplesOf(data).value[k] == SampleFromElement(raw[k]).value.value
    ensures "stressValuesArray" !in data ==> SamplesOf(data) == Ok([])
  {
    CollectOneEach(raw, SampleFromElement);
  }

  /** The camelCase key wins whenever it is present, even holding null: a
      null camelCase duration is refused although the snake_case key holds
      a number, and a null camelCase level hides the snake_case one. */
  lemma {:induction false} CamelCaseKeyWins(m: map<string, Json>, n: int)
    requires SamplesOf(m).Ok?
    ensures FromResponse(JObj(m["restStressDuration" := JNull]["rest_stress_duration" := JInt(n)])).Err?
  {
    var m' := m["restStressDuration" := JNull]["rest_stress_duration" := JInt(n)];
    assert Get(m', "stressValuesArray", JList([])) == Get(m, "stressValuesArray", JList([]));
  }

  /** With neither key present, each duration defaults to 0 and each
      summary value to None. */
  lemma {:induction false} MissingKeysDefault(m: map<string, Json>)
    requires FromResponse(JObj(m)).Ok?
    requires "restStressDuration" !in m && "rest_stress_duration" !in m
    requires "avgStressLevel" !in m && "avg_stress_level" !in m
    ensures FromResponse(JObj(m)).value.restStressDuration == 0
    ensures FromResponse(JObj(m)).value.avgStressLevel == None
  {
  }
}
