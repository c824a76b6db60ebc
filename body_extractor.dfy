/** Body composition, weight, hydration and respiration for a day, and
    weight statistics over a range (src/garmer/extractors/body.py). */
module BodyExtractor {
  import opened Json
  import opened Seqs
  import ExtractorBase
  import opened BodyModel
  import HydrationModel
  import RespirationModel

  /** Python's x[key] on a decoded JSON value: a dict looks the key up
      (KeyError when it is missing); lists, strings and scalars refuse a
      string index with TypeError. */
  function Subscript(j: Json, key: string): (r: Result<Json>)
    ensures r.Ok? <==> j.JObj? && key in j.fields
    ensures r.Ok? ==> r.value == j.fields[key]
    ensures j.JObj? && key !in j.fields ==> r == Err(KeyError)
  {
    if j.JObj? then (if key in j.fields then Ok(j.fields[key]) else Err(KeyError))
    else Err(TypeError)
  }

  /** Python's x[0] on a decoded JSON value: a list's or a string's first
      element (IndexError when empty); a dict has only string keys, so 0 is
      a KeyError; scalars refuse an index. */
  function FirstItem(j: Json): (r: Result<Json>)
    ensures j.JList? && j.items != [] ==> r == Ok(j.items[0])
    ensures r.Ok? ==> (j.JList? && j.items != []) || (j.JStr? && j.s != "")
  {
    match j
    case JList(xs) => if xs != [] then Ok(xs[0]) else Err(IndexError)
    case JStr(s) => if s != "" then Ok(JStr([s[0]])) else Err(IndexError)
    case JObj(_) => Err(KeyError)
    case _ => Err(TypeError)
  }

  /** The summaries list of a weight response: only a dict can hold the
      key (`in` on a list or string tests elements or substrings, and the
      subscript that follows raises). */
  function Summaries(response: Result<Json>): (r: Option<Json>)
    ensures r.Some? <==> response.Ok? && response.value.JObj? && "dailyWeightSummaries" in response.value.fields
    ensures r.Some? ==> r.value == response.value.fields["dailyWeightSummaries"]
  {
    if response.Ok? && response.value.JObj? && "dailyWeightSummaries" in response.value.fields then
      Some(response.value.fields["dailyWeightSummaries"])
    else None
  }

  /** get_for_date: the first daily weight summary as a body composition
      record; None when the key is absent, the summaries are falsy, or
      anything on the way raises. */
  function GetForDate(response: Result<Json>): (r: Option<BodyComposition>)
    ensures r.Some? <==>
              Summaries(response).Some? && Summaries(response).value.JList? &&
              Summaries(response).value.items != [] &&
              CompositionFromResponse(Summaries(response).value.items[0]).Ok?
    ensures r.Some? ==> Ok(r.value) == CompositionFromResponse(Summaries(response).value.items[0])
  {
    var summaries := Summaries(response);
    if summaries.None? || !Truthy(summaries.value) then None
    else
      match FirstItem(summaries.value)
      case Err(_) => None
      case Ok(first) => CompositionFromResponse(first).ToOption()
  }

  /** get_weight_for_date: a Weight carrying only the requested date and
      int(totalAverage["weight"]) in grams, when totalAverage is truthy.
      A non-dict response, a missing weight or a value int() refuses gives
      None. */
  function GetWeightForDate(dateStr: string, response: Result<Json>): (r: Option<Weight>)
    ensures r.Some? ==>
              response.Ok? && response.value.JObj? && "totalAverage" in response.value.fields &&
              Truthy(response.value.fields["totalAverage"]) &&
              Subscript(response.value.fields["totalAverage"], "weight").Ok? &&
              PyInt(response.value.fields["totalAverage"].fields["weight"]) == Ok(r.value.weightGrams) &&
              r.value == Weight(None, Some(dateStr), None, r.value.weightGrams, None)
    ensures response.Ok? && response.value.JObj? && !Truthy(Get(response.value.fields, "totalAverage", JNull)) ==> r == None
  {
    if response.Err? || !response.value.JObj? || !Truthy(Get(response.value.fields, "totalAverage", JNull)) then None
    else
      var average := response.value.fields["totalAverage"];
      match Subscript(average, "weight")
      case Err(_) => None
      case Ok(w) =>
        match PyInt(w)
        case Err(_) => None
        case Ok(grams) => Some(Weight(None, Some(dateStr), None, grams, None))
  }

  /** get_weight_range: one Weight per daily summary, in order; [] when
      the key is absent or any summary raises. */
  function GetWeightRange(response: Result<Json>): (r: seq<Weight>)
    ensures Summaries(response).None? ==> r == []
  {
    var summaries := Summaries(response);
    if summaries.None? || !Truthy(response.value) then []
    else
      match Elements(summaries.value)
      case Err(_) => []
      case Ok(items) =>
        match Collect(items, WeightFromElement)
        case Err(_) => []
        case Ok(weights) => weights
  }

  /** A list of dict summaries that all parse gives exactly one Weight per
      summary, in order; a single element that is not a dict, or that does
      not parse, empties the whole result. */
  lemma {:induction false} WeightRangeOnePerSummary(m: map<string, Json>, items: seq<Json>)
    requires "dailyWeightSummaries" in m && m["dailyWeightSummaries"] == JList(items)
    ensures (forall k | 0 <= k < |items| :: WeightFromElement(items[k]).Ok?) ==>
              var r := GetWeightRange(Ok(JObj(m)));
              |r| == |items| && forall k | 0 <= k < |items| :: items[k].JObj? && Ok(r[k]) == WeightFromObject(items[k].fields)
    ensures (exists k | 0 <= k < |items| :: WeightFromElement(items[k]).Err?) ==> GetWeightRange(Ok(JObj(m))) == []
  {
    assert Truthy(JObj(m));
    CollectFails(items, WeightFromElement);
    if forall k | 0 <= k < |items| :: WeightFromElement(items[k]).Ok? {
      CollectOneEach(items, WeightFromElement);
    }
  }

  /** Weight.from_garmin_response on any decoded value: only a dict has .get. */
  function WeightOf(j: Json): (r: Result<Weight>)
    ensures r.Ok? ==> j.JObj? && WeightFromObject(j.fields) == r
  {
    if j.JObj? then WeightFromObject(j.fields) else Err(AttributeError)
  }

  /** get_latest_weight: the latest measurement, or None when the request
      fails, the response is falsy or not a parsable dict. */
  function GetLatestWeight(response: Result<Json>): (r: Option<Weight>)
    ensures r.Some? <==> response.Ok? && Truthy(response.value) && response.value.JObj? &&
                         WeightFromObject(response.value.fields).Ok?
    ensures r.Some? ==> WeightFromObject(response.value.fields) == Ok(r.value)
  {
    ExtractorBase.GetForDate(response, WeightOf)
  }

  /** get_hydration_for_date: the first element of a non-empty list. */
  function GetHydrationForDate(response: Result<Json>): (r: Option<HydrationModel.HydrationData>)
    ensures r.Some? <==> ExtractorBase.FirstOfList(response).Some? &&
                         HydrationModel.FromResponse(ExtractorBase.FirstOfList(response).value).Ok?
    ensures r.Some? ==> HydrationModel.FromResponse(response.value.items[0]) == Ok(r.value)
  {
    var first := ExtractorBase.FirstOfList(response);
    if first.Some? then HydrationModel.FromResponse(first.value).ToOption() else None
  }

  /** get_respiration_for_date: the day's record, or None. */
  function GetRespirationForDate(response: Result<Json>): (r: Option<RespirationModel.RespirationData>)
    ensures r.Some? <==> response.Ok? && Truthy(response.value) && RespirationModel.FromResponse(response.value).Ok?
    ensures r.Some? ==> RespirationModel.FromResponse(response.value) == Ok(r.value)
  {
    ExtractorBase.GetForDate(response, RespirationModel.FromResponse)
  }

  // ---------------------------------------------------------------------
  // get_weight_stats

  /** The dict of get_weight_stats. avgWeightKg is None where the dict has
      no such key (no measurements), and weights is empty where it has no
      weights key. */
  datatype WeightStats = WeightStats(
    measurements: int,
    startWeightKg: Option<real>,
    endWeightKg: Option<real>,
    minWeightKg: Option<real>,
    maxWeightKg: Option<real>,
    avgWeightKg: Option<real>,
    weightChangeKg: Option<real>,
    weights: seq<Weight>)

  function Kilograms(weights: seq<Weight>): (r: seq<real>)
    ensures |r| == |weights| && forall k | 0 <= k < |weights| :: r[k] == weights[k].WeightKg()
  {
    seq(|weights|, k requires 0 <= k < |weights| => weights[k].weightGrams as real / GramsPerKg)
  }

  /** get_weight_stats over the weights get_weight_range returned. */
  function GetWeightStats(weights: seq<Weight>): (r: WeightStats)
    ensures r.measurements == |weights| && r.weights == weights
    ensures r.startWeightKg.Some? <==> weights != []
  {
    if weights == [] then WeightStats(0, None, None, None, None, None, None, [])
    else
      var kgs := Kilograms(weights);
      var first := weights[0].WeightKg();
      var last := weights[|weights| - 1].WeightKg();
      WeightStats(|weights|, Some(first), Some(last), Some(MinReal(kgs)), Some(MaxReal(kgs)),
                  Some(MeanReal(kgs)), Some(last - first), weights)
  }

  /** With no weights there is no statistic at all. Otherwise the start
      and end are the first and last measurements, the change leads from
      one to the other, and the minimum and maximum are measurements that
      bound every measurement, the average included. */
  lemma {:induction false} WeightStatsMeaning(weights: seq<Weight>)
    ensures weights == [] ==> GetWeightStats(weights) == WeightStats(0, None, None, None, None, None, None, [])
    ensures GetWeightStats(weights).measurements == |weights|
    ensures weights != [] ==>
              var s := GetWeightStats(weights);
              var kgs := Kilograms(weights);
              s.startWeightKg == Some(weights[0].WeightKg()) &&
              s.endWeightKg == Some(weights[|weights| - 1].WeightKg()) &&
              s.startWeightKg.value + s.weightChangeKg.value == s.endWeightKg.value &&
              s.minWeightKg.value in kgs && s.maxWeightKg.value in kgs &&
              (forall k | 0 <= k < |weights| :: s.minWeightKg.value <= weights[k].WeightKg() <= s.maxWeightKg.value) &&
              s.minWeightKg.value <= s.avgWeightKg.value <= s.maxWeightKg.value
  {
    if weights != [] {
      var kgs := Kilograms(weights);
      MaxMinBoundReal(kgs);
      MeanRealBetweenMinMax(kgs);
    }
  }
}
