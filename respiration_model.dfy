/** Breathing-rate records: samples and a day's summary
    (src/garmer/models/respiration.py). */
module RespirationModel {
  import opened Json
  import opened Seqs
  import opened ModelBase

  /** A sample whose value is None is one the watch could not measure. */
  datatype RespirationSample = RespirationSample(timestamp: Option<Instant>, respirationValue: Option<real>)

  /** RespirationSample.from_garmin_response: startTimeGMT and
      respirationValue, both optional. */
  function SampleFromObject(m: map<string, Json>): Result<RespirationSample> {
    var ts :- ParseTimestamp(Get(m, "startTimeGMT", JNull));
    var value :- ToOptReal(Get(m, "respirationValue", JNull));
    Ok(RespirationSample(ts, value))
  }

  /** One element of respirationValuesArray: a [timestamp, value] pair whose
      value is kept as given, null included; an object; or anything else,
      which is skipped. */
  function SampleFromElement(j: Json): (r: Result<Option<RespirationSample>>)
    ensures !(j.JList? && |j.items| >= 2) && !j.JObj? ==> r == Ok(None)
    ensures r.Ok? && (j.JObj? || (j.JList? && |j.items| >= 2)) ==> r.value.Some?
  {
    if j.JList? && |j.items| >= 2 then
      var ts :- ParseTimestamp(j.items[0]);
      var value :- ToOptReal(j.items[1]);
      Ok(Some(RespirationSample(ts, value)))
    else if j.JObj? then
      var s :- SampleFromObject(j.fields);
      Ok(Some(s))
    else
      Ok(None)
  }

  /** A pair keeps a null value as None and a zero value as 0, unlike the
      heart-rate pairs; an object without respirationValue has None. */
  lemma {:induction false} PairValueKeptAsGiven(ts: Json, m: map<string, Json>)
    requires ParseTimestamp(ts).Ok? && ParseTimestamp(Get(m, "startTimeGMT", JNull)).Ok?
    ensures SampleFromElement(JList([ts, JNull])) == Ok(Some(RespirationSample(ParseTimestamp(ts).value, None)))
    ensures SampleFromElement(JList([ts, JInt(0)])) == Ok(Some(RespirationSample(ParseTimestamp(ts).value, Some(0.0))))
    ensures "respirationValue" !in m ==> SampleFromObject(m).Ok? && SampleFromObject(m).value.respirationValue == None
  {
  }

  /** The loop over respirationValuesArray (lines 63-72): append one sample
      per pair or object element, in order. */
  method ParseSamples(raw: seq<Json>) returns (r: Result<seq<RespirationSample>>)
    ensures r == Collect(raw, SampleFromElement)
  {
    var samples: seq<RespirationSample> := [];
    var i := 0;
    while i < |raw|
      invariant 0 <= i <= |raw|
      invariant Collect(raw[..i], SampleFromElement) == Ok(samples)
    {
      CollectAppend(raw[..i], raw[i], SampleFromElement);
      assert raw[..i + 1] == raw[..i] + [raw[i]];
      var s := SampleFromElement(raw[i]);
      if s.Err? {
        CollectFailsFromPrefix(raw, i + 1, SampleFromElement);
        return Err(s.error);
      }
      if s.value.Some? {
        samples := samples + [s.value.value];
      } else {
        assert samples + [] == samples;
      }
      i := i + 1;
    }
    assert raw[..i] == raw;
    return Ok(samples);
  }

  datatype RespirationData = RespirationData(
    calendarDate: Option<string>,
    startTimestamp: Option<Instant>,
    endTimestamp: Option<Instant>,
    avgWakingRespiration: Option<real>,
    avgSleepingRespiration: Option<real>,
    highestRespiration: Option<real>,
    lowestRespiration: Option<real>,
    respirationSamples: seq<RespirationSample>)
  {
    /** The samples that carry a value. */
    function ValidSamples(): seq<RespirationSample> {
      Filter(respirationSamples, (s: RespirationSample) => s.respirationValue.Some?)
    }

    /** Highest minus lowest, when both are present and non-zero. */
    function RespirationRange(): Option<real> {
      if highestRespiration.Some? && highestRespiration.value != 0.0 &&
         lowestRespiration.Some? && lowestRespiration.value != 0.0
      then Some(highestRespiration.value - lowestRespiration.value)
      else None
    }
  }

  /** The valid samples are exactly the samples with a value, in their
      original order. */
  lemma {:induction false} ValidSamplesHaveValues(d: RespirationData, more: seq<RespirationSample>)
    ensures forall s :: s in d.ValidSamples() <==> s in d.respirationSamples && s.respirationValue.Some?
    ensures d.(respirationSamples := d.respirationSamples + more).ValidSamples()
         == d.ValidSamples() + d.(respirationSamples := more).ValidSamples()
  {
    FilterMembers(d.respirationSamples, (s: RespirationSample) => s.respirationValue.Some?);
    FilterAppend(d.respirationSamples, more, (s: RespirationSample) => s.respirationValue.Some?);
  }

  /** The range exists exactly when both extremes are truthy, and then
      adding it to the lowest gives the highest. */
  lemma {:induction false} RangeNeedsBothExtremes(d: RespirationData)
    ensures d.RespirationRange().Some? <==>
              d.highestRespiration.Some? && d.highestRespiration.value != 0.0 &&
              d.lowestRespiration.Some? && d.lowestRespiration.value != 0.0
    ensures d.RespirationRange().Some? ==>
              d.lowestRespiration.value + d.RespirationRange().value == d.highestRespiration.value
  {
  }

  /** The samples of a response: only a truthy respirationValuesArray is
      walked. */
  function SamplesOf(m: map<string, Json>): Result<seq<RespirationSample>> {
    var raw := Get(m, "respirationValuesArray", JList([]));
    if !Truthy(raw) then Ok([])
    else
      var elements :- Elements(raw);
      Collect(elements, SampleFromElement)
  }

  /** RespirationData.from_garmin_response. */
  function FromResponse(data: Json): (r: Result<RespirationData>)
    ensures r.Ok? ==> data.JObj? && SamplesOf(data.fields) == Ok(r.value.respirationSamples)
  {
    if !data.JObj? then Err(AttributeError)
    else
      var m := data.fields;
      var samples :- SamplesOf(m);
      var start :- ParseTimestamp(Get(m, "startTimestampGMT", JNull));
      var end :- ParseTimestamp(Get(m, "endTimestampGMT", JNull));
      var date :- ToOptStr(Get(m, "calendarDate", JNull));
      var waking :- ToOptReal(Get(m, "avgWakingRespirationValue", JNull));
      var sleeping :- ToOptReal(Get(m, "avgSleepingRespirationValue", JNull));
      var highest :- ToOptReal(Get(m, "highestRespirationValue", JNull));
      var lowest :- ToOptReal(Get(m, "lowestRespirationValue", JNull));
      Ok(RespirationData(date, start, end, waking, sleeping, highest, lowest, samples))
  }

  /** A list of pair and object samples that all parse yields one sample per
      element, in input order; elements of any other shape are skipped. */
  lemma {:induction false} OneSamplePerElement(m: map<string, Json>, raw: seq<Json>, junk: Json)
    requires Get(m, "respirationValuesArray", JList([])) == JList(raw)
    requires forall k | 0 <= k < |raw| :: SampleFromElement(raw[k]).Ok? && (raw[k].JObj? || (raw[k].JList? && |raw[k].items| >= 2))
    requires !junk.JObj? && !(junk.JList? && |junk.items| >= 2)
    ensures SamplesOf(m).Ok? && |SamplesOf(m).value| == |raw|
    ensures forall k | 0 <= k < |raw| :: SamplesOf(m).value[k] == SampleFromElement(raw[k]).value.value
    ensures Collect(raw + [junk], SampleFromElement) == Collect(raw, SampleFromElement)
  {
    CollectOneEach(raw, SampleFromElement);
    CollectAppend(raw, junk, SampleFromElement);
    assert Collect(raw, SampleFromElement).value + [] == Collect(raw, SampleFromElement).value;
  }

  /** An empty response has no samples and no summary values. */
  lemma {:induction false} EmptyResponseDefaults()
    ensures FromResponse(JObj(map[])) == Ok(RespirationData(None, None, None, None, None, None, None, []))
  {
  }
}
