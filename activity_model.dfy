/** Fitness activities and their laps (src/garmer/models/activity.py). */
module ActivityModel {
  import opened Json
  import opened ModelBase

  datatype Lap = Lap(
    lapNumber: int,
    startTime: Option<Instant>,
    endTime: Option<Instant>,
    durationSeconds: real,
    distanceMeters: real,
    calories: real,
    avgHeartRate: Option<int>,
    maxHeartRate: Option<int>,
    avgSpeed: Option<real>,
    maxSpeed: Option<real>,
    avgCadence: Option<real>,
    elevationGain: Option<real>,
    elevationLoss: Option<real>)

  /** Lap.from_garmin_response; the element must be a dict. */
  function LapFromElement(j: Json): (r: Result<Option<Lap>>)
    ensures r.Ok? ==> j.JObj? && r.value.Some?
  {
    if !j.JObj? then Err(AttributeError)
    else
      var m := j.fields;
      var start :- ParseTimestamp(Get(m, "startTimeGMT", JNull));
      var end :- ParseTimestamp(Get(m, "endTimeGMT", JNull));
      var index :- ToInt(Get(m, "lapIndex", JInt(0)));
      var duration :- ToReal(Get(m, "duration", JReal(0.0)));
      var distance :- ToReal(Get(m, "distance", JReal(0.0)));
      var calories :- ToReal(Get(m, "calories", JReal(0.0)));
      var avgHr :- ToOptInt(Get(m, "averageHR", JNull));
      var maxHr :- ToOptInt(Get(m, "maxHR", JNull));
      var avgSpeed :- ToOptReal(Get(m, "averageSpeed", JNull));
      var maxSpeed :- ToOptReal(Get(m, "maxSpeed", JNull));
      var cadence :- ToOptReal(Get(m, "averageRunCadence", JNull));
      var gain :- ToOptReal(Get(m, "elevationGain", JNull));
      var loss :- ToOptReal(Get(m, "elevationLoss", JNull));
      Ok(Some(Lap(index, start, end, duration, distance, calories, avgHr, maxHr, avgSpeed, maxSpeed,
                  cadence, gain, loss)))
  }

  /** An empty lap object is lap 0 with zero duration, distance and
      calories and nothing else known; a lap that is not a dict raises. */
  lemma {:induction false} LapDefaults()
    ensures LapFromElement(JObj(map[]))
         == Ok(Some(Lap(0, None, None, 0.0, 0.0, 0.0, None, None, None, None, None, None, None)))
    ensures LapFromElement(JList([])) == Err(AttributeError)
  {
  }

  /** str(x) for an activityType that is neither a dict nor falsy: exact for
      strings, integers and booleans. */
  function PyStr(j: Json): string {
    match j
    case JStr(s) => s
    case JInt(i) => IntToString(i)
    case JBool(b) => if b then "True" else "False"
    case _ => ""
  }

  /** The activity type as lines 166-170 derive it: a dict's typeKey
      (default "other"), else str() of a truthy value, else "other". The
      result is still to be checked as a string field, since a typeKey
      can hold anything. */
  function ActivityTypeOf(data: map<string, Json>): (r: Json)
    ensures var raw := Get(data, "activityType", JObj(map[]));
            !raw.JObj? ==> r.JStr?
  {
    var raw := Get(data, "activityType", JObj(map[]));
    if raw.JObj? then Get(raw.fields, "typeKey", JStr("other"))
    else if Truthy(raw) then JStr(PyStr(raw))
    else JStr("other")
  }

  datatype Activity = Activity(
    activityId: int,
    activityName: string,
    activityType: string,
    activityTypeKey: string,
    startTime: Option<Instant>,
    startTimeGmt: Option<Instant>,
    durationSeconds: real,
    elapsedDuration: real,
    movingDuration: real,
    distanceMeters: real,
    avgSpeed: Option<real>,
    maxSpeed: Option<real>,
    avgHeartRate: Option<int>,
    maxHeartRate: Option<int>,
    minHeartRate: Option<int>,
    calories: real,
    activeCalories: real,
    elevationGain: Option<real>,
    elevationLoss: Option<real>,
    minElevation: Option<real>,
    maxElevation: Option<real>,
    avgCadence: Option<real>,
    maxCadence: Option<real>,
    avgPower: Option<real>,
    maxPower: Option<real>,
    normalizedPower: Option<real>,
    aerobicTrainingEffect: Option<real>,
    anaerobicTrainingEffect: Option<real>,
    trainingEffectLabel: Option<string>,
    startLatitude: Option<real>,
    startLongitude: Option<real>,
    endLatitude: Option<real>,
    endLongitude: Option<real>,
    steps: Option<int>,
    avgStrokeCount: Option<real>,
    totalStrokes: Option<int>,
    poolLength: Option<real>,
    avgSwolf: Option<real>,
    deviceId: Option<int>)
  {
    function DistanceKm(): real {
      distanceMeters / 1000.0
    }

    function DistanceMiles(): real {
      distanceMeters / 1609.344
    }

    function DurationMinutes(): real {
      durationSeconds / 60.0
    }

    /** Minutes per kilometre, when both distance and duration are positive. */
    function PacePerKm(): Option<real> {
      if distanceMeters > 0.0 && durationSeconds > 0.0 then Some(DurationMinutes() / DistanceKm()) else None
    }

    /** Minutes per mile, when both distance and duration are positive. */
    function PacePerMile(): Option<real> {
      if distanceMeters > 0.0 && durationSeconds > 0.0 then Some(DurationMinutes() / DistanceMiles()) else None
    }
  }

  /** The conversions are exact rescalings of metres and seconds. */
  lemma {:induction false} Conversions(a: Activity)
    ensures a.DistanceKm() * 1000.0 == a.distanceMeters
    ensures a.DistanceMiles() * 1609.344 == a.distanceMeters
    ensures a.DurationMinutes() * 60.0 == a.durationSeconds
  {
  }

  /** A pace exists exactly when distance and duration are both positive;
      it is then the time it takes per unit of distance, and a mile takes
      1.609344 times as long as a kilometre. */
  lemma {:induction false} PaceIsTimePerDistance(a: Activity)
    ensures a.PacePerKm().Some? <==> a.distanceMeters > 0.0 && a.durationSeconds > 0.0
    ensures a.PacePerMile().Some? <==> a.PacePerKm().Some?
    ensures a.PacePerKm().Some? ==> a.PacePerKm().value * a.DistanceKm() == a.DurationMinutes()
    ensures a.PacePerMile().Some? ==> a.PacePerMile().value * a.DistanceMiles() == a.DurationMinutes()
    ensures a.PacePerKm().Some? ==> a.PacePerMile().value == a.PacePerKm().value * 1.609344
    ensures a.PacePerKm().Some? ==> a.PacePerKm().value > 0.0
  {
    if a.distanceMeters > 0.0 && a.durationSeconds > 0.0 {
      var t, km, mi := a.DurationMinutes(), a.DistanceKm(), a.DistanceMiles();
      assert km > 0.0 && mi > 0.0 && t > 0.0;
      assert mi * 1.609344 == km;
      assert (t / mi) * mi == t;
      assert (t / km) * km == t;
      assert t / mi == (t / km) * 1.609344 by {
        assert (t / km) * 1.609344 * mi == (t / km) * km;
      }
    }
  }

  /** Activity.from_garmin_response. Every field is computed first and the
      record checks them all at once, so any bad field means a
      ValidationError. */
  function FromResponse(data: Json): (r: Result<Activity>)
    ensures r.Ok? ==> data.JObj?
  {
    if !data.JObj? then Err(AttributeError)
    else
      var m := data.fields;
      var kind := ActivityTypeOf(m);
      var start :- ParseTimestamp(Get(m, "startTimeLocal", JNull));
      var startGmt :- ParseTimestamp(Get(m, "startTimeGMT", JNull));
      Validate(m, kind, start, startGmt)
  }

  /** The record's field checks. */
  function Validate(m: map<string, Json>, kind: Json, start: Option<Instant>, startGmt: Option<Instant>): (r: Result<Activity>)
    ensures r.Ok? ==> r.value.startTime == start && r.value.startTimeGmt == startGmt
    ensures r.Ok? ==> ToStr(kind) == Ok(r.value.activityType)
    ensures r.Ok? ==> ToStr(Get(m, "activityTypeKey", kind)) == Ok(r.value.activityTypeKey)
    ensures r.Ok? ==> ToInt(Get(m, "activityId", JInt(0))) == Ok(r.value.activityId)
  {
    var id := ToInt(Get(m, "activityId", JInt(0)));
    var name := ToStr(Get(m, "activityName", JStr("")));
    var activityType := ToStr(kind);
    var typeKey := ToStr(Get(m, "activityTypeKey", kind));
    var duration := ToReal(Get(m, "duration", JReal(0.0)));
    var elapsed := ToReal(Get(m, "elapsedDuration", JReal(0.0)));
    var moving := ToReal(Get(m, "movingDuration", JReal(0.0)));
    var distance := ToReal(Get(m, "distance", JReal(0.0)));
    var avgSpeed := ToOptReal(Get(m, "averageSpeed", JNull));
    var maxSpeed := ToOptReal(Get(m, "maxSpeed", JNull));
    var avgHr := ToOptInt(Get(m, "averageHR", JNull));
    var maxHr := ToOptInt(Get(m, "maxHR", JNull));
    var minHr := ToOptInt(Get(m, "minHR", JNull));
    var calories := ToReal(Get(m, "calories", JReal(0.0)));
    var active := ToReal(Get(m, "activeCalories", JReal(0.0)));
    var gain := ToOptReal(Get(m, "elevationGain", JNull));
    var loss := ToOptReal(Get(m, "elevationLoss", JNull));
    var minElev := ToOptReal(Get(m, "minElevation", JNull));
    var maxElev := ToOptReal(Get(m, "maxElevation", JNull));
    var avgCad := ToOptReal(Get(m, "averageRunningCadenceInStepsPerMinute", JNull));
    var maxCad := ToOptReal(Get(m, "maxRunningCadenceInStepsPerMinute", JNull));
    var avgPower := ToOptReal(Get(m, "avgPower", JNull));
    var maxPower := ToOptReal(Get(m, "maxPower", JNull));
    var normPower := ToOptReal(Get(m, "normPower", JNull));
    var aerobic := ToOptReal(Get(m, "aerobicTrainingEffect", JNull));
    var anaerobic := ToOptReal(Get(m, "anaerobicTrainingEffect", JNull));
    var effectLabel := ToOptStr(Get(m, "trainingEffectLabel", JNull));
    var startLat := ToOptReal(Get(m, "startLatitude", JNull));
    var startLon := ToOptReal(Get(m, "startLongitude", JNull));
    var endLat := ToOptReal(Get(m, "endLatitude", JNull));
    var endLon := ToOptReal(Get(m, "endLongitude", JNull));
    var steps := ToOptInt(Get(m, "steps", JNull));
    var strokeCount := ToOptReal(Get(m, "avgStrokes", JNull));
    var strokes := ToOptInt(Get(m, "strokes", JNull));
    var pool := ToOptReal(Get(m, "poolLength", JNull));
    var swolf := ToOptReal(Get(m, "avgSwolf", JNull));
    var device := ToOptInt(Get(m, "deviceId", JNull));
    if id.Ok? && name.Ok? && activityType.Ok? && typeKey.Ok? && duration.Ok? && elapsed.Ok? && moving.Ok? &&
       distance.Ok? && avgSpeed.Ok? && maxSpeed.Ok? && avgHr.Ok? && maxHr.Ok? && minHr.Ok? && calories.Ok? &&
       active.Ok? && gain.Ok? && loss.Ok? && minElev.Ok? && maxElev.Ok? && avgCad.Ok? && maxCad.Ok? &&
       avgPower.Ok? && maxPower.Ok? && normPower.Ok? && aerobic.Ok? && anaerobic.Ok? && effectLabel.Ok? &&
       startLat.Ok? && startLon.Ok? && endLat.Ok? && endLon.Ok? && steps.Ok? && strokeCount.Ok? &&
       strokes.Ok? && pool.Ok? && swolf.Ok? && device.Ok? then
      Ok(Activity(id.value, name.value, activityType.value, typeKey.value, start, startGmt,
                  duration.value, elapsed.value, moving.value, distance.value, avgSpeed.value, maxSpeed.value,
                  avgHr.value, maxHr.value, minHr.value, calories.value, active.value, gain.value, loss.value,
                  minElev.value, maxElev.value, avgCad.value, maxCad.value, avgPower.value, maxPower.value,
                  normPower.value, aerobic.value, anaerobic.value, effectLabel.value, startLat.value, startLon.value,
                  endLat.value, endLon.value, steps.value, strokeCount.value, strokes.value, pool.value,
                  swolf.value, device.value))
    else
      Err(ValidationError)
  }

  /** The activity type comes from a dict's typeKey (default "other"), from
      a truthy string as it is, and is "other" when the value is falsy or
      absent. */
  lemma {:induction false} ActivityTypeShapes(m: map<string, Json>, key: string, s: string)
    requires s != ""
    ensures ActivityTypeOf(m["activityType" := JObj(map["typeKey" := JStr(key)])]) == JStr(key)
    ensures ActivityTypeOf(m["activityType" := JObj(map[])]) == JStr("other")
    ensures ActivityTypeOf(m["activityType" := JStr(s)]) == JStr(s)
    ensures ActivityTypeOf(m["activityType" := JStr("")]) == JStr("other")
    ensures ActivityTypeOf(m["activityType" := JNull]) == JStr("other")
    ensures "activityType" !in m ==> ActivityTypeOf(m) == JStr("other")
  {
  }

  /** activityTypeKey is taken as given when present and falls back to the
      derived activity type otherwise; a missing activityId is 0. */
  lemma {:induction false} TypeKeyFallsBackToType(m: map<string, Json>)
    requires FromResponse(JObj(m)).Ok?
    ensures "activityTypeKey" !in m ==>
              FromResponse(JObj(m)).value.activityTypeKey == FromResponse(JObj(m)).value.activityType
    ensures "activityTypeKey" in m ==> m["activityTypeKey"] == JStr(FromResponse(JObj(m)).value.activityTypeKey)
    ensures "activityId" !in m ==> FromResponse(JObj(m)).value.activityId == 0
  {
  }
}
