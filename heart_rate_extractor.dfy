/** Heart rate for one day, its samples as a time series, the resting
    heart rate trend and statistics over a range of days
    (src/garmer/extractors/heart_rate.py). */
module HeartRateExtractor {
  import opened Json
  import opened Seqs
  import opened ModelBase
  import ExtractorBase
  import opened HeartRateModel

  /** get_for_date: the day's record, or None when the request failed in
      any way, the response was falsy, or the record refused it. */
  function GetForDate(response: Result<Json>): (r: Option<HeartRateData>)
    ensures response.Err? ==> r == None
    ensures r.Some? <==> response.Ok? && Truthy(response.value) && FromResponse(response.value).Ok?
    ensures r.Some? ==> FromResponse(response.value) == Ok(r.value)
  {
    ExtractorBase.GetForDate(response, FromResponse)
  }

  /** get_resting_heart_rate: None when there is no record for the day. */
  function GetRestingHeartRate(response: Result<Json>): (r: Option<int>)
    ensures GetForDate(response).None? ==> r == None
    ensures GetForDate(response).Some? ==> r == GetForDate(response).value.restingHeartRate
  {
    var data := GetForDate(response);
    if data.Some? then data.value.restingHeartRate else None
  }

  /** The (timestamp, rate) pairs of the samples that have a timestamp and
      a positive rate, in sample order. */
  function TimedRates(samples: seq<HeartRateSample>): seq<(Instant, int)> {
    if samples == [] then [] else RatePoint(samples[0]) + TimedRates(samples[1..])
  }

  /** The pair a sample contributes: none without a timestamp or with a rate of 0 or less. */
  function RatePoint(s: HeartRateSample): seq<(Instant, int)> {
    if s.timestamp.Some? && s.heartRate > 0 then [(s.timestamp.value, s.heartRate)] else []
  }

  /** A pair is in the series exactly when a sample carries that
      timestamp and that rate and the rate is positive. */
  lemma {:induction false} TimedRatesMembers(samples: seq<HeartRateSample>)
    ensures |TimedRates(samples)| <= |samples|
    ensures forall t, h :: (t, h) in TimedRates(samples) <==> h > 0 && HeartRateSample(Some(t), h) in samples
  {
    if samples != [] {
      TimedRatesMembers(samples[1..]);
      assert samples == [samples[0]] + samples[1..];
    }
  }

  /** The series keeps the order of the samples. */
  lemma {:induction false} TimedRatesAppend(xs: seq<HeartRateSample>, ys: seq<HeartRateSample>)
    ensures TimedRates(xs + ys) == TimedRates(xs) + TimedRates(ys)
  {
    if xs == [] {
      assert xs + ys == ys;
    } else {
      calc {
        TimedRates(xs + ys);
        { assert (xs + ys)[0] == xs[0] && (xs + ys)[1..] == xs[1..] + ys; }
        RatePoint(xs[0]) + TimedRates(xs[1..] + ys);
        { TimedRatesAppend(xs[1..], ys); }
        RatePoint(xs[0]) + (TimedRates(xs[1..]) + TimedRates(ys));
        (RatePoint(xs[0]) + TimedRates(xs[1..])) + TimedRates(ys);
      }
    }
  }

  /** get_heart_rate_timeseries: empty when there is no record. */
  function GetHeartRateTimeseries(response: Result<Json>): (r: seq<(Instant, int)>)
    ensures GetForDate(response).None? ==> r == []
    ensures GetForDate(response).Some? ==> r == TimedRates(GetForDate(response).value.heartRateSamples)
  {
    var data := GetForDate(response);
    if data.Some? then TimedRates(data.value.heartRateSamples) else []
  }

  /** The (calendar date, resting rate) pairs of the records with a
      non-empty calendar date, in day order. */
  function Trend(days: seq<HeartRateData>): seq<(string, Option<int>)> {
    if days == [] then []
    else
      var d := days[0];
      (if d.calendarDate.Some? && d.calendarDate.value != "" then [(d.calendarDate.value, d.restingHeartRate)] else [])
      + Trend(days[1..])
  }

  /** A pair is in the trend exactly when some record with a non-empty
      date carries it. */
  lemma {:induction false} TrendMembers(days: seq<HeartRateData>)
    ensures |Trend(days)| <= |days|
    ensures forall p :: p in Trend(days) <==>
              p.0 != "" && exists d :: d in days && d.calendarDate == Some(p.0) && d.restingHeartRate == p.1
  {
    if days != [] {
      TrendMembers(days[1..]);
      assert days == [days[0]] + days[1..];
      forall p | p in Trend(days[1..]) ensures exists d :: d in days && d.calendarDate == Some(p.0) && d.restingHeartRate == p.1 {
        var d :| d in days[1..] && d.calendarDate == Some(p.0) && d.restingHeartRate == p.1;
        assert d in days;
      }
    }
  }

  /** get_resting_hr_trend: the records of the last n days, reduced to
      their dated resting rates; the window fails as get_last_n_days does. */
  method GetRestingHrTrend(today: int, n: int, fetch: int -> Result<Option<HeartRateData>>)
    returns (r: Result<seq<(string, Option<int>)>>)
    requires ExtractorBase.Calendar.InRange(today)
    ensures r.Err? <==> !ExtractorBase.Calendar.InRange(today - (n - 1))
    ensures r.Ok? ==> r.value == Trend(ExtractorBase.Kept(ExtractorBase.Days(today - (n - 1), today), fetch))
  {
    var data := ExtractorBase.GetLastNDays(today, n, fetch);
    if data.Err? {
      return Err(data.error);
    }
    return Ok(Trend(data.value));
  }

  /** The statistics dict of get_heart_rate_stats; hrData is empty where
      the dict has no such key. */
  datatype HeartRateStats = HeartRateStats(
    daysWithData: int,
    avgRestingHr: Option<real>,
    minRestingHr: Option<int>,
    maxRestingHr: Option<int>,
    avgMaxHr: Option<real>,
    hrData: seq<HeartRateData>)

  function RestingRates(days: seq<HeartRateData>): (r: seq<Option<int>>)
    ensures |r| == |days| && forall k | 0 <= k < |days| :: r[k] == days[k].restingHeartRate
  {
    seq(|days|, k requires 0 <= k < |days| => days[k].restingHeartRate)
  }

  function MaxRates(days: seq<HeartRateData>): (r: seq<Option<int>>)
    ensures |r| == |days| && forall k | 0 <= k < |days| :: r[k] == days[k].maxHeartRate
  {
    seq(|days|, k requires 0 <= k < |days| => days[k].maxHeartRate)
  }

  /** get_heart_rate_stats over the days get_for_date_range returned:
      zero and false rates are left out. */
  function GetHeartRateStats(days: seq<HeartRateData>): (r: HeartRateStats)
    ensures r.daysWithData == |days| && r.hrData == days
    ensures r.avgRestingHr.Some? || r.avgMaxHr.Some? ==> days != []
  {
    if days == [] then HeartRateStats(0, None, None, None, None, [])
    else
      var resting := TruthyInts(RestingRates(days));
      var maxes := TruthyInts(MaxRates(days));
      HeartRateStats(|days|,
                     if resting != [] then Some(Mean(resting)) else None,
                     if resting != [] then Some(Min(resting)) else None,
                     if resting != [] then Some(Max(resting)) else None,
                     if maxes != [] then Some(Mean(maxes)) else None,
                     days)
  }

  /** With no days everything is None. Otherwise the resting figures are
      present together, exactly when some day has a non-zero resting
      rate; the smallest and largest are such rates, bound every one of
      them, and enclose the average. The average maximum is None exactly
      when no day has a non-zero maximum. */
  lemma {:induction false} HeartRateStatsMeaning(days: seq<HeartRateData>)
    ensures days == [] ==> GetHeartRateStats(days) == HeartRateStats(0, None, None, None, None, [])
    ensures GetHeartRateStats(days).daysWithData == |days|
    ensures var s := GetHeartRateStats(days);
            s.avgRestingHr.Some? == s.minRestingHr.Some? == s.maxRestingHr.Some?
    ensures GetHeartRateStats(days).avgRestingHr.None? <==>
              forall k | 0 <= k < |days| :: days[k].restingHeartRate == None || days[k].restingHeartRate == Some(0)
    ensures var s := GetHeartRateStats(days);
            s.minRestingHr.Some? ==>
              s.minRestingHr.value != 0 && Some(s.minRestingHr.value) in RestingRates(days) &&
              s.maxRestingHr.value != 0 && Some(s.maxRestingHr.value) in RestingRates(days) &&
              (forall k | 0 <= k < |days| && days[k].restingHeartRate.Some? && days[k].restingHeartRate.value != 0 ::
                 s.minRestingHr.value <= days[k].restingHeartRate.value <= s.maxRestingHr.value) &&
              s.minRestingHr.value as real <= s.avgRestingHr.value <= s.maxRestingHr.value as real
    ensures GetHeartRateStats(days).avgMaxHr.None? <==>
              forall k | 0 <= k < |days| :: days[k].maxHeartRate == None || days[k].maxHeartRate == Some(0)
  {
    var rs := RestingRates(days);
    var resting := TruthyInts(rs);
    TruthyIntsEmpty(rs);
    TruthyIntsMembers(rs);
    TruthyIntsEmpty(MaxRates(days));
    if days != [] && resting != [] {
      MaxMinBound(resting);
      MeanBetweenMinMax(resting);
      forall k | 0 <= k < |days| && days[k].restingHeartRate.Some? && days[k].restingHeartRate.value != 0
        ensures Min(resting) <= days[k].restingHeartRate.value <= Max(resting)
      {
        var v := days[k].restingHeartRate.value;
        assert rs[k] == Some(v);
        assert v in resting;
      }
    }
  }
}
