/** Stress for one day, its samples as a time series, statistics over a
    range of days and the body battery report
    (src/garmer/extractors/stress.py). */
module StressExtractor {
  import opened Json
  import opened Seqs
  import opened ModelBase
  import ExtractorBase
  import opened StressModel

  /** get_for_date: the daily stats endpoint answers with a list; the day
      is its first element. Anything else, a failed request, or an element
      the record refuses gives None. */
  function GetForDate(response: Result<Json>): (r: Option<StressData>)
    ensures r.Some? <==> ExtractorBase.FirstOfList(response).Some? && FromResponse(ExtractorBase.FirstOfList(response).value).Ok?
    ensures r.Some? ==> FromResponse(response.value.items[0]) == Ok(r.value)
  {
    var first := ExtractorBase.FirstOfList(response);
    if first.Some? then FromResponse(first.value).ToOption() else None
  }

  /** The (timestamp, level) pairs of the samples that have a timestamp
      and a level of 0 or more, in sample order. */
  function TimedLevels(samples: seq<StressSample>): seq<(Instant, int)> {
    if samples == [] then [] else LevelPoint(samples[0]) + TimedLevels(samples[1..])
  }

  /** The pair a sample contributes: none without a timestamp or with a negative level. */
  function LevelPoint(s: StressSample): seq<(Instant, int)> {
    if s.timestamp.Some? && s.stressLevel >= 0 then [(s.timestamp.value, s.stressLevel)] else []
  }

  /** A pair is in the series exactly when a sample carries that
      timestamp and that level and the level is not negative; the
      unmeasured samples (level -1 or -2) are left out. */
  lemma {:induction false} TimedLevelsMembers(samples: seq<StressSample>)
    ensures |TimedLevels(samples)| <= |samples|
    ensures forall t, l :: (t, l) in TimedLevels(samples) <==> l >= 0 && StressSample(Some(t), l) in samples
  {
    if samples != [] {
      TimedLevelsMembers(samples[1..]);
      assert samples == [samples[0]] + samples[1..];
    }
  }

  /** The series keeps the order of the samples. */
  lemma {:induction false} TimedLevelsAppend(xs: seq<StressSample>, ys: seq<StressSample>)
    ensures TimedLevels(xs + ys) == TimedLevels(xs) + TimedLevels(ys)
  {
    if xs == [] {
      assert xs + ys == ys;
    } else {
      calc {
        TimedLevels(xs + ys);
        { assert (xs + ys)[0] == xs[0] && (xs + ys)[1..] == xs[1..] + ys; }
        LevelPoint(xs[0]) + TimedLevels(xs[1..] + ys);
        { TimedLevelsAppend(xs[1..], ys); }
        LevelPoint(xs[0]) + (TimedLevels(xs[1..]) + TimedLevels(ys));
        (LevelPoint(xs[0]) + TimedLevels(xs[1..])) + TimedLevels(ys);
      }
    }
  }

  /** get_stress_timeseries: empty when there is no record. */
  function GetStressTimeseries(response: Result<Json>): (r: seq<(Instant, int)>)
    ensures GetForDate(response).None? ==> r == []
    ensures GetForDate(response).Some? ==> r == TimedLevels(GetForDate(response).value.stressSamples)
  {
    var data := GetForDate(response);
    if data.Some? then TimedLevels(data.value.stressSamples) else []
  }

  /** The statistics dict of get_stress_stats; stressData is empty where
      the dict has no such key. */
  datatype StressStats = StressStats(
    daysWithData: int,
    avgStressLevel: Option<real>,
    avgRestHours: real,
    avgHighStressHours: real,
    stressData: seq<StressData>)

  function AverageLevels(days: seq<StressData>): (r: seq<Option<int>>)
    ensures |r| == |days| && forall k | 0 <= k < |days| :: r[k] == days[k].avgStressLevel
  {
    seq(|days|, k requires 0 <= k < |days| => days[k].avgStressLevel)
  }

  function RestSeconds(days: seq<StressData>): (r: seq<int>)
    ensures |r| == |days| && forall k | 0 <= k < |days| :: r[k] == days[k].restStressDuration
  {
    seq(|days|, k requires 0 <= k < |days| => days[k].restStressDuration)
  }

  function HighSeconds(days: seq<StressData>): (r: seq<int>)
    ensures |r| == |days| && forall k | 0 <= k < |days| :: r[k] == days[k].highStressDuration
  {
    seq(|days|, k requires 0 <= k < |days| => days[k].highStressDuration)
  }

  /** get_stress_stats over the days get_for_date_range returned. */
  function GetStressStats(days: seq<StressData>): (r: StressStats)
    ensures r.daysWithData == |days| && r.stressData == days
    ensures r.avgStressLevel.Some? ==> days != []
  {
    if days == [] then StressStats(0, None, 0.0, 0.0, [])
    else
      var levels := TruthyInts(AverageLevels(days));
      var n := |days| as real;
      StressStats(|days|,
                  if levels != [] then Some(Mean(levels)) else None,
                  (Sum(RestSeconds(days)) as real / n) / 3600.0,
                  (Sum(HighSeconds(days)) as real / n) / 3600.0,
                  days)
  }

  /** With no days the hours are 0 and the level None. Otherwise the rest
      and high-stress hours, times 3600 and the number of days, give back
      the summed durations. */
  lemma {:induction false} StressStatsHours(days: seq<StressData>)
    ensures days == [] ==> GetStressStats(days) == StressStats(0, None, 0.0, 0.0, [])
    ensures GetStressStats(days).daysWithData == |days|
    ensures days != [] ==>
              var s, n := GetStressStats(days), |days| as real;
              s.avgRestHours * 3600.0 * n == Sum(RestSeconds(days)) as real &&
              s.avgHighStressHours * 3600.0 * n == Sum(HighSeconds(days)) as real
  {
    if days != [] {
      var s, n := GetStressStats(days), |days| as real;
      HoursScaleBack(s.avgRestHours, Sum(RestSeconds(days)) as real, n);
      HoursScaleBack(s.avgHighStressHours, Sum(HighSeconds(days)) as real, n);
    }
  }

  /** The average level is None exactly when no day has a non-zero
      average level, and otherwise lies between the smallest and largest
      of those levels. */
  lemma {:induction false} StressStatsLevel(days: seq<StressData>)
    ensures GetStressStats(days).avgStressLevel.None? <==>
              forall k | 0 <= k < |days| :: days[k].avgStressLevel == None || days[k].avgStressLevel == Some(0)
    ensures GetStressStats(days).avgStressLevel.Some? ==>
              var levels := TruthyInts(AverageLevels(days));
              levels != [] && Min(levels) as real <= GetStressStats(days).avgStressLevel.value <= Max(levels) as real
  {
    var levels := TruthyInts(AverageLevels(days));
    TruthyIntsEmpty(AverageLevels(days));
    if days != [] && levels != [] {
      MeanBetweenMinMax(levels);
    }
  }

  /** get_body_battery: the first element of the report list, as sent;
      anything else, or a failed request, gives None. A first element that
      is null is returned as well, and is then the same None. */
  function GetBodyBattery(response: Result<Json>): (r: Option<Json>)
    ensures response.Err? ==> r == None
    ensures r.Some? <==> response.Ok? && response.value.JList? && |response.value.items| > 0 &&
                         response.value.items[0] != JNull
    ensures r.Some? ==> r.value == response.value.items[0]
  {
    var first := ExtractorBase.FirstOfList(response);
    if first.Some? && first.value != JNull then first else None
  }
}
