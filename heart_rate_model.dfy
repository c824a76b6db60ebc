/** Heart-rate records: samples, training zones and a day's summary
    (src/garmer/models/heart_rate.py). */
module HeartRateModel {
  import opened Json
  import opened Seqs
  import opened ModelBase

  datatype HeartRateSample = HeartRateSample(timestamp: Option<Instant>, heartRate: int)

  /** HeartRateSample.from_garmin_response: heartRate, else value, else 0. */
  function SampleFromObject(m: map<string, Json>): Result<HeartRateSample> {
    var ts :- ParseTimestamp(Get(m, "timestamp", JNull));
    var rate :- ToInt(GetEither(m, "heartRate", "value", JInt(0)));
    Ok(HeartRateSample(ts, rate))
  }

  /** One element of heartRateValues: a [timestamp, rate] pair whose falsy
      rate (null or 0) becomes 0, an object, or anything else, skipped. */
  function SampleFromElement(j: Json): (r: Result<Option<HeartRateSample>>)
    ensures !(j.JList? && |j.items| >= 2) && !j.JObj? ==> r == Ok(None)
    ensures r.Ok? && (j.JObj? || (j.JList? && |j.items| >= 2)) ==> r.value.Some?
  {
    if j.JList? && |j.items| >= 2 then
      var ts :- ParseTimestamp(j.items[0]);
      var rate :- ToInt(if Truthy(j.items[1]) then j.items[1] else JInt(0));
      Ok(Some(HeartRateSample(ts, rate)))
    else if j.JObj? then
      var s :- SampleFromObject(j.fields);
      Ok(Some(s))
    else
      Ok(None)
  }

  /** A pair with a falsy rate is kept with rate 0; an object sample reads
      heartRate before value and defaults to 0. */
  lemma {:induction false} SampleRateFallbacks(ts: Json, m: map<string, Json>, a: int, b: int)
    requires ParseTimestamp(ts).Ok? && ParseTimestamp(Get(m, "timestamp", JNull)).Ok?
    ensures SampleFromElement(JList([ts, JNull])) == Ok(Some(HeartRateSample(ParseTimestamp(ts).value, 0)))
    ensures SampleFromElement(JList([ts, JInt(0)])) == Ok(Some(HeartRateSample(ParseTimestamp(ts).value, 0)))
    ensures SampleFromObject(m["heartRate" := JInt(a)]["value" := JInt(b)]).Ok?
    ensures SampleFromObject(m["heartRate" := JInt(a)]["value" := JInt(b)]).value.heartRate == a
    ensures "heartRate" !in m ==> SampleFromObject(m["value" := JInt(b)]).value.heartRate == b
    ensures "heartRate" !in m && "value" !in m ==> SampleFromObject(m).value.heartRate == 0
  {
    var m' := m["heartRate" := JInt(a)]["value" := JInt(b)];
    assert Get(m', "timestamp", JNull) == Get(m, "timestamp", JNull);
    assert Get(m["value" := JInt(b)], "timestamp", JNull) == Get(m, "timestamp", JNull);
  }

  /** The loop over heartRateValues (lines 89-98): append one sample per
      pair or object element, in order. */
  method ParseSamples(raw: seq<Json>) returns (r: Result<seq<HeartRateSample>>)
    ensures r == Collect(raw, SampleFromElement)
  {
    var samples: seq<HeartRateSample> := [];
    var i := 0;
    while i < |raw|
      invariant 0 <= i <= |raw|
      invariant Collect(raw[..i], SampleFromElement) == Ok(samples)
    {
      CollectAppend(raw[..i], raw[i], SampleFromElement);
      assert raw[..i + 1] == raw[..i] + [raw[i]];
      var s := SampleFromElement(raw[i]);
      if s.Err? {
        CollectFailsFromPrefix(raw, i + 1, SampleFromElement);
        return Err(s.error);
      }
      if s.value.Some? {
        samples := samples + [s.value.value];
      } else {
        assert samples + [] == samples;
      }
      i := i + 1;
    }
    assert raw[..i] == raw;
    return Ok(samples);
  }

  datatype HeartRateZone = HeartRateZone(
    zoneNumber: int,
    zoneName: string,
    minHr: int,
    maxHr: int,
    timeInZoneSeconds: int)
  {
    function TimeInZoneMinutes(): real {
      timeInZoneSeconds as real / 60.0
    }
  }

  /** str() of the zone number as the default name interpolates it, for the
      values a zone number can validly hold: integers, booleans and floats
      with no fractional part. Anything else fails the zone number's own
      check, so the text it would give is never seen. */
  function NumberText(j: Json): string {
    match j
    case JInt(i) => IntToString(i)
    case JBool(b) => if b then "True" else "False"
    case JReal(r) => if r.Floor as real == r then IntToString(r.Floor) + ".0" else ""
    case _ => ""
  }

  /** HeartRateZone.from_garmin_response; the element must be a dict. */
  function ZoneFromElement(j: Json): (r: Result<Option<HeartRateZone>>)
    ensures r.Ok? ==> j.JObj? && r.value.Some?
  {
    if !j.JObj? then Err(AttributeError)
    else
      var m := j.fields;
      var number :- ToInt(Get(m, "zoneNumber", JInt(0)));
      var name :- ToStr(Get(m, "zoneName", JStr("Zone " + NumberText(Get(m, "zoneNumber", JInt(0))))));
      var low :- ToInt(Get(m, "zoneLowBoundary", JInt(0)));
      var high :- ToInt(Get(m, "zoneHighBoundary", JInt(0)));
      var secs :- ToInt(Get(m, "secsInZone", JInt(0)));
      Ok(Some(HeartRateZone(number, name, low, high, secs)))
  }

  /** A zone without a name is called "Zone n" after its number, and a zone
      without a number is zone 0, "Zone 0". */
  lemma {:induction false} DefaultZoneName(n: int)
    ensures ZoneFromElement(JObj(map["zoneNumber" := JInt(n)]))
         == Ok(Some(HeartRateZone(n, "Zone " + IntToString(n), 0, 0, 0)))
    ensures ZoneFromElement(JObj(map[])) == Ok(Some(HeartRateZone(0, "Zone 0", 0, 0, 0)))
  {
    assert "Zone " + IntToString(0) == "Zone 0";
  }

  /** A zone's minutes are its seconds over 60. */
  lemma {:induction false} ZoneMinutes(z: HeartRateZone)
    ensures z.TimeInZoneMinutes() * 60.0 == z.timeInZoneSeconds as real
  {
  }

  /** The loop over heartRateZones (lines 101-104): one zone per element. */
  method ParseZones(raw: seq<Json>) returns (r: Result<seq<HeartRateZone>>)
    ensures r == Collect(raw, ZoneFromElement)
  {
    var zones: seq<HeartRateZone> := [];
    var i := 0;
    while i < |raw|
      invariant 0 <= i <= |raw|
      invariant Collect(raw[..i], ZoneFromElement) == Ok(zones)
    {
      CollectAppend(raw[..i], raw[i], ZoneFromElement);
      assert raw[..i + 1] == raw[..i] + [raw[i]];
      var z := ZoneFromElement(raw[i]);
      if z.Err? {
        CollectFailsFromPrefix(raw, i + 1, ZoneFromElement);
        return Err(z.error);
      }
      zones := zones + [z.value.value];
      i := i + 1;
    }
    assert raw[..i] == raw;
    return Ok(zones);
  }

  datatype HeartRateData = HeartRateData(
    calendarDate: Option<string>,
    startTimestamp: Option<Instant>,
    endTimestamp: Option<Instant>,
    restingHeartRate: Option<int>,
    maxHeartRate: Option<int>,
    minHeartRate: Option<int>,
    avgHeartRate: Option<int>,
    lastSevenDaysAvgRestingHr: Option<int>,
    heartRateSamples: seq<HeartRateSample>,
    heartRateZones: seq<HeartRateZone>)
  {
    /** The samples timestamped within [start, end], both ends included. */
    function SamplesInRange(start: Instant, end: Instant): seq<HeartRateSample> {
      Filter(heartRateSamples, (s: HeartRateSample) => InRange(s, start, end))
    }

    /** Mean of the positive rates in [start, end]; None when there are none. */
    function AverageInRange(start: Instant, end: Instant): Option<real> {
      var rates := PositiveRates(SamplesInRange(start, end));
      if rates != [] then Some(Mean(rates)) else None
    }
  }

  predicate InRange(s: HeartRateSample, start: Instant, end: Instant) {
    s.timestamp.Some? && start.epochSeconds <= s.timestamp.value.epochSeconds <= end.epochSeconds
  }

  /** [s.heart_rate for s in samples if s.heart_rate > 0] */
  function PositiveRates(samples: seq<HeartRateSample>): (r: seq<int>)
    ensures forall k | 0 <= k < |r| :: r[k] > 0
    ensures forall v :: v in r <==> v > 0 && exists s :: s in samples && s.heartRate == v
  {
    if samples == [] then []
    else (if samples[0].heartRate > 0 then [samples[0].heartRate] else []) + PositiveRates(samples[1..])
  }

  lemma PositiveRateKept(samples: seq<HeartRateSample>, s: HeartRateSample)
    ensures s in samples && s.heartRate > 0 ==> s.heartRate in PositiveRates(samples)
  {
  }

  /** The samples in range are exactly the timestamped samples between the
      two bounds, both included, in their original order. */
  lemma {:induction false} SamplesInRangeSelects(d: HeartRateData, start: Instant, end: Instant, more: seq<HeartRateSample>)
    ensures forall s :: s in d.SamplesInRange(start, end) <==>
              s in d.heartRateSamples && s.timestamp.Some? &&
              start.epochSeconds <= s.timestamp.value.epochSeconds <= end.epochSeconds
    ensures |d.SamplesInRange(start, end)| <= |d.heartRateSamples|
    ensures d.(heartRateSamples := d.heartRateSamples + more).SamplesInRange(start, end)
         == d.SamplesInRange(start, end) + d.(heartRateSamples := more).SamplesInRange(start, end)
  {
    FilterMembers(d.heartRateSamples, (s: HeartRateSample) => InRange(s, start, end));
    FilterAppend(d.heartRateSamples, more, (s: HeartRateSample) => InRange(s, start, end));
  }

  /** The average is None exactly when no sample in range has a positive
      rate; otherwise it lies between the smallest and largest such rate
      and is itself positive. */
  lemma {:induction false} AverageOfPositiveRates(d: HeartRateData, start: Instant, end: Instant)
    ensures d.AverageInRange(start, end).None? <==>
              forall s | s in d.SamplesInRange(start, end) :: s.heartRate <= 0
    ensures d.AverageInRange(start, end).Some? ==>
              var rates := PositiveRates(d.SamplesInRange(start, end));
              Min(rates) as real <= d.AverageInRange(start, end).value <= Max(rates) as real &&
              d.AverageInRange(start, end).value > 0.0
  {
    var rates := PositiveRates(d.SamplesInRange(start, end));
    if rates != [] {
      MeanBetweenMinMax(rates);
      MaxMinBound(rates);
      assert rates[0] in rates;
      var s :| s in d.SamplesInRange(start, end) && s.heartRate == rates[0];
      assert s.heartRate > 0;
    } else {
      forall s | s in d.SamplesInRange(start, end) ensures s.heartRate <= 0 {
        PositiveRateKept(d.SamplesInRange(start, end), s);
      }
    }
  }

  /** The samples of a response: only a truthy heartRateValues is walked. */
  function SamplesOf(m: map<string, Json>): Result<seq<HeartRateSample>> {
    var raw := Get(m, "heartRateValues", JList([]));
    if !Truthy(raw) then Ok([])
    else
      var elements :- Elements(raw);
      Collect(elements, SampleFromElement)
  }

  /** HeartRateData.from_garmin_response. heartRateZones is walked without a
      truthiness check. */
  function FromResponse(data: Json): (r: Result<HeartRateData>)
    ensures r.Ok? ==> data.JObj? && SamplesOf(data.fields) == Ok(r.value.heartRateSamples)
    ensures r.Ok? ==> Elements(Get(data.fields, "heartRateZones", JList([]))).Ok?
    ensures r.Ok? ==> Collect(Elements(Get(data.fields, "heartRateZones", JList([]))).value, ZoneFromElement)
                      == Ok(r.value.heartRateZones)
  {
    if !data.JObj? then Err(AttributeError)
    else
      var m := data.fields;
      var samples :- SamplesOf(m);
      var rawZones :- Elements(Get(m, "heartRateZones", JList([])));
      var zones :- Collect(rawZones, ZoneFromElement);
      var start :- ParseTimestamp(Get(m, "startTimestampGMT", JNull));
      var end :- ParseTimestamp(Get(m, "endTimestampGMT", JNull));
      var date :- ToOptStr(Get(m, "calendarDate", JNull));
      var resting :- ToOptInt(Get(m, "restingHeartRate", JNull));
      var max :- ToOptInt(Get(m, "maxHeartRate", JNull));
      var min :- ToOptInt(Get(m, "minHeartRate", JNull));
      var avg :- ToOptInt(Get(m, "averageHeartRate", JNull));
      var lastSeven :- ToOptInt(Get(m, "lastSevenDaysAvgRestingHeartRate", JNull));
      Ok(HeartRateData(date, start, end, resting, max, min, avg, lastSeven, samples, zones))
  }

  /** There is one zone per heartRateZones element, in order. */
  lemma {:induction false} OneZonePerElement(m: map<string, Json>, raw: seq<Json>)
    requires Get(m, "heartRateZones", JList([])) == JList(raw)
    requires FromResponse(JObj(m)).Ok?
    ensures |FromResponse(JObj(m)).value.heartRateZones| == |raw|
    ensures forall k | 0 <= k < |raw| ::
              ZoneFromElement(raw[k]) == Ok(Some(FromResponse(JObj(m)).value.heartRateZones[k]))
  {
    CollectFails(raw, ZoneFromElement);
    CollectOneEach(raw, ZoneFromElement);
  }

  /** An empty response has no samples, no zones and no summary values. */
  lemma {:induction false} EmptyResponseDefaults()
    ensures FromResponse(JObj(map[])) == Ok(HeartRateData(None, None, None, None, None, None, None, None, [], []))
  {
  }
}
