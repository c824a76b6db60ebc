/** Sleep for one night and statistics over a range of nights
    (src/garmer/extractors/sleep.py). */
module SleepExtractor {
  import opened Json
  import opened Seqs
  import ExtractorBase
  import opened SleepModel

  /** get_for_date: the night ending on the day, or None when the request
      failed in any way (the username lookup included), the response was
      falsy, or the record refused it. */
  function GetForDate(response: Result<Json>): (r: Option<SleepData>)
    ensures response.Err? ==> r == None
    ensures r.Some? <==> response.Ok? && Truthy(response.value) && FromResponse(response.value).Ok?
    ensures r.Some? ==> FromResponse(response.value) == Ok(r.value)
  {
    ExtractorBase.GetForDate(response, FromResponse)
  }

  /** The statistics dict of get_sleep_stats; sleepData is empty where the
      dict has no such key. */
  datatype SleepStats = SleepStats(
    daysWithData: int,
    avgSleepHours: real,
    avgDeepSleepHours: real,
    avgRemSleepHours: real,
    avgSleepScore: Option<real>,
    avgRestingHr: Option<real>,
    sleepData: seq<SleepData>)

  function TotalSeconds(nights: seq<SleepData>): (r: seq<int>)
    ensures |r| == |nights| && forall k | 0 <= k < |nights| :: r[k] == nights[k].totalSleepSeconds
  {
    seq(|nights|, k requires 0 <= k < |nights| => nights[k].totalSleepSeconds)
  }

  function DeepSeconds(nights: seq<SleepData>): (r: seq<int>)
    ensures |r| == |nights| && forall k | 0 <= k < |nights| :: r[k] == nights[k].deepSleepSeconds
  {
    seq(|nights|, k requires 0 <= k < |nights| => nights[k].deepSleepSeconds)
  }

  function RemSeconds(nights: seq<SleepData>): (r: seq<int>)
    ensures |r| == |nights| && forall k | 0 <= k < |nights| :: r[k] == nights[k].remSleepSeconds
  {
    seq(|nights|, k requires 0 <= k < |nights| => nights[k].remSleepSeconds)
  }

  /** The overall scores, as recorded or absent. */
  function OverallScores(nights: seq<SleepData>): (r: seq<Option<int>>)
    ensures |r| == |nights| && forall k | 0 <= k < |nights| :: r[k] == nights[k].scores.overall
  {
    seq(|nights|, k requires 0 <= k < |nights| => nights[k].scores.overall)
  }

  function SleepHeartRates(nights: seq<SleepData>): (r: seq<Option<int>>)
    ensures |r| == |nights| && forall k | 0 <= k < |nights| :: r[k] == nights[k].avgSleepHeartRate
  {
    seq(|nights|, k requires 0 <= k < |nights| => nights[k].avgSleepHeartRate)
  }

  /** sum(xs) / len(xs) when xs is non-empty, else None. */
  function MeanOrNone(xs: seq<int>): Option<real> {
    if xs != [] then Some(Mean(xs)) else None
  }

  /** get_sleep_stats over the nights get_for_date_range returned. */
  function GetSleepStats(nights: seq<SleepData>): (r: SleepStats)
    ensures r.daysWithData == |nights| && r.sleepData == nights
    ensures r.avgSleepScore.Some? || r.avgRestingHr.Some? ==> nights != []
  {
    if nights == [] then SleepStats(0, 0.0, 0.0, 0.0, None, None, [])
    else
      var n := |nights| as real;
      SleepStats(|nights|,
                 (Sum(TotalSeconds(nights)) as real / n) / 3600.0,
                 (Sum(DeepSeconds(nights)) as real / n) / 3600.0,
                 (Sum(RemSeconds(nights)) as real / n) / 3600.0,
                 MeanOrNone(TruthyInts(OverallScores(nights))),
                 MeanOrNone(TruthyInts(SleepHeartRates(nights))),
                 nights)
  }

  /** With no nights the averages are 0 and score and heart rate None.
      Otherwise each average in hours, times 3600 seconds and the number
      of nights, gives back the summed seconds. */
  lemma {:induction false} SleepStatsHours(nights: seq<SleepData>)
    ensures nights == [] ==> GetSleepStats(nights) == SleepStats(0, 0.0, 0.0, 0.0, None, None, [])
    ensures GetSleepStats(nights).daysWithData == |nights|
    ensures nights != [] ==>
              var s, n := GetSleepStats(nights), |nights| as real;
              s.avgSleepHours * 3600.0 * n == Sum(TotalSeconds(nights)) as real &&
              s.avgDeepSleepHours * 3600.0 * n == Sum(DeepSeconds(nights)) as real &&
              s.avgRemSleepHours * 3600.0 * n == Sum(RemSeconds(nights)) as real
  {
    if nights != [] {
      SleepHoursScaleBack(nights);
      DeepHoursScaleBack(nights);
      RemHoursScaleBack(nights);
    }
  }

  lemma SleepHoursScaleBack(nights: seq<SleepData>)
    requires nights != []
    ensures GetSleepStats(nights).avgSleepHours * 3600.0 * |nights| as real == Sum(TotalSeconds(nights)) as real
  {
    HoursScaleBack(GetSleepStats(nights).avgSleepHours, Sum(TotalSeconds(nights)) as real, |nights| as real);
  }

  lemma DeepHoursScaleBack(nights: seq<SleepData>)
    requires nights != []
    ensures GetSleepStats(nights).avgDeepSleepHours * 3600.0 * |nights| as real == Sum(DeepSeconds(nights)) as real
  {
    HoursScaleBack(GetSleepStats(nights).avgDeepSleepHours, Sum(DeepSeconds(nights)) as real, |nights| as real);
  }

  lemma RemHoursScaleBack(nights: seq<SleepData>)
    requires nights != []
    ensures GetSleepStats(nights).avgRemSleepHours * 3600.0 * |nights| as real == Sum(RemSeconds(nights)) as real
  {
    HoursScaleBack(GetSleepStats(nights).avgRemSleepHours, Sum(RemSeconds(nights)) as real, |nights| as real);
  }

  /** The average of the non-zero values of an optional field: None when
      every value is absent or 0, and otherwise between the smallest and
      largest of exactly those values. */
  lemma {:induction false} TruthyAverage(xs: seq<Option<int>>)
    ensures MeanOrNone(TruthyInts(xs)).None? <==> forall k | 0 <= k < |xs| :: xs[k] == None || xs[k] == Some(0)
    ensures forall v :: v in TruthyInts(xs) <==> v != 0 && Some(v) in xs
    ensures MeanOrNone(TruthyInts(xs)).Some? ==>
              Min(TruthyInts(xs)) as real <= MeanOrNone(TruthyInts(xs)).value <= Max(TruthyInts(xs)) as real
  {
    TruthyIntsEmpty(xs);
    TruthyIntsMembers(xs);
    if TruthyInts(xs) != [] {
      MeanBetweenMinMax(TruthyInts(xs));
    }
  }

  /** The average score uses only the nights with a non-zero overall score
      and the average heart rate only those with a non-zero sleeping heart
      rate; each is None when no night has one. */
  lemma {:induction false} SleepStatsAverages(nights: seq<SleepData>)
    ensures GetSleepStats(nights).avgSleepScore.None? <==>
              forall k | 0 <= k < |nights| :: nights[k].scores.overall == None || nights[k].scores.overall == Some(0)
    ensures GetSleepStats(nights).avgSleepScore.Some? ==>
              GetSleepStats(nights).avgSleepScore.value == Mean(TruthyInts(OverallScores(nights)))
    ensures GetSleepStats(nights).avgRestingHr.None? <==>
              forall k | 0 <= k < |nights| :: nights[k].avgSleepHeartRate == None || nights[k].avgSleepHeartRate == Some(0)
    ensures GetSleepStats(nights).avgRestingHr.Some? ==>
              GetSleepStats(nights).avgRestingHr.value == Mean(TruthyInts(SleepHeartRates(nights)))
  {
    TruthyAverage(OverallScores(nights));
    TruthyAverage(SleepHeartRates(nights));
  }
}
