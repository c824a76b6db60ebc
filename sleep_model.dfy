/** A night's sleep session with its phases, movement and scores
    (src/garmer/models/sleep.py). */
module SleepModel {
  import opened Json
  import opened ModelBase

  datatype SleepLevel = Deep | Light | Rem | Awake | Unmeasurable {
    /** The enum's value, which is what serialisation writes. */
    function Name(): string {
      match this
      case Deep => "deep"
      case Light => "light"
      case Rem => "rem"
      case Awake => "awake"
      case Unmeasurable => "unmeasurable"
    }
  }

  /** str.lower() on one character, for ASCII letters. */
  function LowerChar(c: char): char {
    if 'A' <= c <= 'Z' then (c as int + 32) as char else c
  }

  /** str.lower() on ASCII letters. */
  function Lower(s: string): (r: string)
    ensures |r| == |s|
  {
    if s == [] then [] else [LowerChar(s[0])] + Lower(s[1..])
  }

  /** The level map: the four known names, anything else unmeasurable. */
  function LevelNamed(name: string): SleepLevel {
    if name == "deep" then Deep
    else if name == "light" then Light
    else if name == "rem" then Rem
    else if name == "awake" then Awake
    else Unmeasurable
  }

  datatype SleepPhase = SleepPhase(
    startTime: Option<Instant>,
    endTime: Option<Instant>,
    level: SleepLevel,
    durationSeconds: int)
  {
    function ToJson(): Json {
      JObj(map["start_time" := InstantJson(startTime), "end_time" := InstantJson(endTime),
               "level" := JStr(level.Name()), "duration_seconds" := JInt(durationSeconds)])
    }
  }

  datatype SleepMovement = SleepMovement(
    startTime: Option<Instant>,
    endTime: Option<Instant>,
    activityLevel: real)
  {
    function ToJson(): Json {
      JObj(map["start_time" := InstantJson(startTime), "end_time" := InstantJson(endTime),
               "activity_level" := JReal(activityLevel)])
    }
  }

  /** The phase level of a sleepLevels entry: looked up lower-cased, a
      missing level is "unmeasurable", and a level that is not a string
      (null included) has no .lower() and raises AttributeError. */
  function PhaseLevel(m: map<string, Json>): Result<SleepLevel> {
    var raw := Get(m, "sleepLevel", JStr("unmeasurable"));
    if raw.JStr? then Ok(LevelNamed(Lower(raw.s))) else Err(AttributeError)
  }

  /** SleepPhase.from_garmin_response. */
  function PhaseFromElement(j: Json): (r: Result<Option<SleepPhase>>)
    ensures r.Ok? ==> j.JObj? && r.value.Some? && PhaseLevel(j.fields) == Ok(r.value.value.level)
  {
    if !j.JObj? then Err(AttributeError)
    else
      var m := j.fields;
      var level :- PhaseLevel(m);
      var start :- ParseTimestamp(Get(m, "startGMT", JNull));
      var end :- ParseTimestamp(Get(m, "endGMT", JNull));
      var duration :- ToInt(Get(m, "durationInSeconds", JInt(0)));
      Ok(Some(SleepPhase(start, end, level, duration)))
  }

  lemma LowerExamples()
    ensures Lower("DEEP") == "deep" && Lower("Rem") == "rem" && Lower("nap") == "nap"
  {
    assert "DEEP"[1..] == "EEP" && "EEP"[1..] == "EP" && "EP"[1..] == "P" && "P"[1..] == "";
    assert "Rem"[1..] == "em" && "em"[1..] == "m" && "m"[1..] == "";
    assert "nap"[1..] == "ap" && "ap"[1..] == "p" && "p"[1..] == "";
  }

  /** The level lookup ignores case, and an unknown name is unmeasurable. */
  lemma {:induction false} PhaseLevelMapping()
    ensures PhaseLevel(map["sleepLevel" := JStr("DEEP")]) == Ok(Deep)
    ensures PhaseLevel(map["sleepLevel" := JStr("Rem")]) == Ok(Rem)
    ensures PhaseLevel(map["sleepLevel" := JStr("nap")]) == Ok(Unmeasurable)
  {
    LowerExamples();
  }

  /** A missing level is unmeasurable, and a null one raises. */
  lemma {:induction false} MissingOrNullLevel()
    ensures PhaseLevel(map[]) == Ok(Unmeasurable)
    ensures PhaseLevel(map["sleepLevel" := JNull]) == Err(AttributeError)
  {
    var u := Lower("unmeasurable");
    assert |u| == 12;
    assert u != "deep" && u != "light" && u != "rem" && u != "awake";
  }

  /** A level is known exactly when its lower-cased form is one of the four
      names; spelling a known name in any case gives the same level. */
  lemma {:induction false} LevelIgnoresCase(s: string, t: string)
    requires Lower(s) == Lower(t)
    ensures LevelNamed(Lower(s)) == LevelNamed(Lower(t))
    ensures LevelNamed(Lower(s)) == Deep <==> Lower(s) == "deep"
    ensures LevelNamed(Lower(s)) == Unmeasurable <==>
              Lower(s) !in {"deep", "light", "rem", "awake"}
  {
  }

  /** SleepMovement.from_garmin_response. */
  function MovementFromElement(j: Json): Result<Option<SleepMovement>> {
    if !j.JObj? then Err(AttributeError)
    else
      var m := j.fields;
      var start :- ParseTimestamp(Get(m, "startGMT", JNull));
      var end :- ParseTimestamp(Get(m, "endGMT", JNull));
      var level :- ToReal(Get(m, "activityLevel", JReal(0.0)));
      Ok(Some(SleepMovement(start, end, level)))
  }

  /** The loop over sleepLevels (lines 138-141): one phase per element. */
  method ParsePhases(raw: seq<Json>) returns (r: Result<seq<SleepPhase>>)
    ensures r == Collect(raw, PhaseFromElement)
  {
    var phases: seq<SleepPhase> := [];
    var i := 0;
    while i < |raw|
      invariant 0 <= i <= |raw|
      invariant Collect(raw[..i], PhaseFromElement) == Ok(phases)
    {
      CollectAppend(raw[..i], raw[i], PhaseFromElement);
      assert raw[..i + 1] == raw[..i] + [raw[i]];
      var p := PhaseFromElement(raw[i]);
      if p.Err? {
        CollectFailsFromPrefix(raw, i + 1, PhaseFromElement);
        return Err(p.error);
      }
      phases := phases + [p.value.value];
      i := i + 1;
    }
    assert raw[..i] == raw;
    return Ok(phases);
  }

  /** The loop over sleepMovement (lines 144-147): one movement per element. */
  method ParseMovements(raw: seq<Json>) returns (r: Result<seq<SleepMovement>>)
    ensures r == Collect(raw, MovementFromElement)
  {
    var movements: seq<SleepMovement> := [];
    var i := 0;
    while i < |raw|
      invariant 0 <= i <= |raw|
      invariant Collect(raw[..i], MovementFromElement) == Ok(movements)
    {
      CollectAppend(raw[..i], raw[i], MovementFromElement);
      assert raw[..i + 1] == raw[..i] + [raw[i]];
      var v := MovementFromElement(raw[i]);
      if v.Err? {
        CollectFailsFromPrefix(raw, i + 1, MovementFromElement);
        return Err(v.error);
      }
      movements := movements + [v.value.value];
      i := i + 1;
    }
    assert raw[..i] == raw;
    return Ok(movements);
  }

  /** The scores of a session. The record also declares a sleep_score field
      that nothing ever fills in; it is always None and is not kept. */
  datatype SleepScores = SleepScores(
    overall: Option<int>,
    quality: Option<int>,
    recovery: Option<int>,
    rem: Option<int>,
    light: Option<int>,
    deep: Option<int>)

  datatype SleepData = SleepData(
    sleepId: Option<int>,
    userProfilePk: Option<int>,
    calendarDate: Option<string>,
    sleepStart: Option<Instant>,
    sleepEnd: Option<Instant>,
    sleepStartLocal: Option<Instant>,
    sleepEndLocal: Option<Instant>,
    totalSleepSeconds: int,
    deepSleepSeconds: int,
    lightSleepSeconds: int,
    remSleepSeconds: int,
    awakeSeconds: int,
    unmeasurableSeconds: int,
    scores: SleepScores,
    restlessnessScore: Option<int>,
    avgSleepHeartRate: Option<int>,
    lowestSleepHeartRate: Option<int>,
    highestSleepHeartRate: Option<int>,
    avgSleepRespiration: Option<real>,
    lowestSleepRespiration: Option<real>,
    highestSleepRespiration: Option<real>,
    avgSpo2: Option<real>,
    lowestSpo2: Option<real>,
    avgSleepStress: Option<real>,
    avgHrv: Option<real>,
    hrvStatus: Option<string>,
    bodyBatteryChange: Option<int>,
    sleepPhases: seq<SleepPhase>,
    sleepMovements: seq<SleepMovement>,
    sleepFeedback: Option<string>,
    sleepNeed: Option<int>)
  {
    function TotalSleepHours(): real {
      totalSleepSeconds as real / 3600.0
    }

    function DeepSleepHours(): real {
      deepSleepSeconds as real / 3600.0
    }

    function LightSleepHours(): real {
      lightSleepSeconds as real / 3600.0
    }

    function RemSleepHours(): real {
      remSleepSeconds as real / 3600.0
    }

    /** Time asleep as a percentage of time in bed. */
    function SleepEfficiency(): Option<real> {
      if sleepStart.Some? && sleepEnd.Some? && sleepEnd.value.epochSeconds - sleepStart.value.epochSeconds > 0.0 then
        Some(totalSleepSeconds as real / (sleepEnd.value.epochSeconds - sleepStart.value.epochSeconds) * 100.0)
      else None
    }

    function DeepSleepPercentage(): real {
      if totalSleepSeconds > 0 then deepSleepSeconds as real / totalSleepSeconds as real * 100.0 else 0.0
    }

    function RemSleepPercentage(): real {
      if totalSleepSeconds > 0 then remSleepSeconds as real / totalSleepSeconds as real * 100.0 else 0.0
    }

    /** The record in JSON form, under its field names. */
    function ToJson(): Json {
      JObj(map[
        "sleep_id" := OptIntJson(sleepId),
        "user_profile_pk" := OptIntJson(userProfilePk),
        "calendar_date" := OptStrJson(calendarDate),
        "sleep_start" := InstantJson(sleepStart),
        "sleep_end" := InstantJson(sleepEnd),
        "sleep_start_local" := InstantJson(sleepStartLocal),
        "sleep_end_local" := InstantJson(sleepEndLocal),
        "total_sleep_seconds" := JInt(totalSleepSeconds),
        "deep_sleep_seconds" := JInt(deepSleepSeconds),
        "light_sleep_seconds" := JInt(lightSleepSeconds),
        "rem_sleep_seconds" := JInt(remSleepSeconds),
        "awake_seconds" := JInt(awakeSeconds),
        "unmeasurable_seconds" := JInt(unmeasurableSeconds),
        "sleep_score" := JNull,
        "overall_score" := OptIntJson(scores.overall),
        "quality_score" := OptIntJson(scores.quality),
        "recovery_score" := OptIntJson(scores.recovery),
        "rem_score" := OptIntJson(scores.rem),
        "light_score" := OptIntJson(scores.light),
        "deep_score" := OptIntJson(scores.deep),
        "restlessness_score" := OptIntJson(restlessnessScore),
        "avg_sleep_heart_rate" := OptIntJson(avgSleepHeartRate),
        "lowest_sleep_heart_rate" := OptIntJson(lowestSleepHeartRate),
        "highest_sleep_heart_rate" := OptIntJson(highestSleepHeartRate),
        "avg_sleep_respiration" := OptRealJson(avgSleepRespiration),
        "lowest_sleep_respiration" := OptRealJson(lowestSleepRespiration),
        "highest_sleep_respiration" := OptRealJson(highestSleepRespiration),
        "avg_spo2" := OptRealJson(avgSpo2),
        "lowest_spo2" := OptRealJson(lowestSpo2),
        "avg_sleep_stress" := OptRealJson(avgSleepStress),
        "avg_hrv" := OptRealJson(avgHrv),
        "hrv_status" := OptStrJson(hrvStatus),
        "body_battery_change" := OptIntJson(bodyBatteryChange),
        "sleep_phases" := JList(seq(|sleepPhases|, k requires 0 <= k < |sleepPhases| => sleepPhases[k].ToJson())),
        "sleep_movements" := JList(seq(|sleepMovements|, k requires 0 <= k < |sleepMovements| => sleepMovements[k].ToJson())),
        "sleep_feedback" := OptStrJson(sleepFeedback),
        "sleep_need" := OptIntJson(sleepNeed)
      ])
    }
  }

  /** The hours accessors are the second counts in hours. */
  lemma {:induction false} HoursAreSecondsOver3600(s: SleepData)
    ensures s.TotalSleepHours() * 3600.0 == s.totalSleepSeconds as real
    ensures s.DeepSleepHours() * 3600.0 == s.deepSleepSeconds as real
    ensures s.LightSleepHours() * 3600.0 == s.lightSleepSeconds as real
    ensures s.RemSleepHours() * 3600.0 == s.remSleepSeconds as real
  {
  }

  /** Efficiency exists exactly when both ends of the night are known and
      the end is after the start; it then scales sleep time by time in bed. */
  lemma {:induction false} EfficiencyNeedsTimeInBed(s: SleepData)
    ensures s.SleepEfficiency().Some? <==>
              s.sleepStart.Some? && s.sleepEnd.Some? && s.sleepEnd.value.epochSeconds > s.sleepStart.value.epochSeconds
    ensures s.SleepEfficiency().Some? ==>
              s.SleepEfficiency().value * (s.sleepEnd.value.epochSeconds - s.sleepStart.value.epochSeconds)
              == 100.0 * s.totalSleepSeconds as real
  {
  }

  /** The phase percentages are shares of the total sleep time, and 0 when
      no sleep was recorded. */
  lemma {:induction false} PercentagesAreShares(s: SleepData)
    ensures s.totalSleepSeconds <= 0 ==> s.DeepSleepPercentage() == 0.0 && s.RemSleepPercentage() == 0.0
    ensures s.totalSleepSeconds > 0 ==>
              s.DeepSleepPercentage() * s.totalSleepSeconds as real == 100.0 * s.deepSleepSeconds as real
    ensures s.totalSleepSeconds > 0 ==>
              s.RemSleepPercentage() * s.totalSleepSeconds as real == 100.0 * s.remSleepSeconds as real
    ensures 0 <= s.deepSleepSeconds <= s.totalSleepSeconds ==> 0.0 <= s.DeepSleepPercentage() <= 100.0
  {
    if s.totalSleepSeconds > 0 {
      var t := s.totalSleepSeconds as real;
      assert s.DeepSleepPercentage() == s.deepSleepSeconds as real / t * 100.0;
      assert s.RemSleepPercentage() == s.remSleepSeconds as real / t * 100.0;
    }
  }

  /** `sleep_scores.get(key, {}).get("value")`: the inner value must be a
      dict (a missing key counts as an empty one), else AttributeError. */
  function RawScore(scores: map<string, Json>, key: string): Result<Json> {
    var inner := Get(scores, key, JObj(map[]));
    if inner.JObj? then Ok(Get(inner.fields, "value", JNull)) else Err(AttributeError)
  }

  /** The six nested scores, before they are checked to be integers; when
      sleepScores is not a dict they are all None. */
  function RawScores(m: map<string, Json>): Result<seq<Json>> {
    var sleepScores := Get(m, "sleepScores", JObj(map[]));
    if !sleepScores.JObj? then Ok([JNull, JNull, JNull, JNull, JNull, JNull])
    else
      var s := sleepScores.fields;
      var overall :- RawScore(s, "overall");
      var quality :- RawScore(s, "quality");
      var recovery :- RawScore(s, "recovery");
      var rem :- RawScore(s, "rem");
      var light :- RawScore(s, "light");
      var deep :- RawScore(s, "deep");
      Ok([overall, quality, recovery, rem, light, deep])
  }

  /** SleepData.from_garmin_response. */
  function FromResponse(data: Json): (r: Result<SleepData>)
    ensures r.Ok? ==> data.JObj? && Elements(Get(data.fields, "sleepLevels", JList([]))).Ok?
    ensures r.Ok? ==> Collect(Elements(Get(data.fields, "sleepLevels", JList([]))).value, PhaseFromElement)
                      == Ok(r.value.sleepPhases)
    ensures r.Ok? ==> Elements(Get(data.fields, "sleepMovement", JList([]))).Ok?
    ensures r.Ok? ==> Collect(Elements(Get(data.fields, "sleepMovement", JList([]))).value, MovementFromElement)
                      == Ok(r.value.sleepMovements)
  {
    if !data.JObj? then Err(AttributeError)
    else
      var m := data.fields;
      var rawPhases :- Elements(Get(m, "sleepLevels", JList([])));
      var phases :- Collect(rawPhases, PhaseFromElement);
      var rawMovements :- Elements(Get(m, "sleepMovement", JList([])));
      var movements :- Collect(rawMovements, MovementFromElement);
      var raw :- RawScores(m);
      var start :- ParseTimestamp(Get(m, "sleepStartTimestampGMT", JNull));
      var end :- ParseTimestamp(Get(m, "sleepEndTimestampGMT", JNull));
      var startLocal :- ParseTimestamp(Get(m, "sleepStartTimestampLocal", JNull));
      var endLocal :- ParseTimestamp(Get(m, "sleepEndTimestampLocal", JNull));
      Validate(m, raw, start, end, startLocal, endLocal, phases, movements)
  }

  /** The record's field checks, which run once every argument is computed. */
  function Validate(m: map<string, Json>, raw: seq<Json>, start: Option<Instant>, end: Option<Instant>,
                    startLocal: Option<Instant>, endLocal: Option<Instant>,
                    phases: seq<SleepPhase>, movements: seq<SleepMovement>): (r: Result<SleepData>)
    requires |raw| == 6
    ensures r.Ok? ==> r.value.sleepPhases == phases && r.value.sleepMovements == movements
    ensures r.Ok? ==> r.value.sleepStart == start && r.value.sleepEnd == end
  {
    var id := ToOptInt(Get(m, "id", JNull));
    var pk := ToOptInt(Get(m, "userProfilePK", JNull));
    var date := ToOptStr(Get(m, "calendarDate", JNull));
    var total := ToInt(Get(m, "sleepTimeSeconds", JInt(0)));
    var deepSecs := ToInt(Get(m, "deepSleepSeconds", JInt(0)));
    var lightSecs := ToInt(Get(m, "lightSleepSeconds", JInt(0)));
    var remSecs := ToInt(Get(m, "remSleepSeconds", JInt(0)));
    var awake := ToInt(Get(m, "awakeSleepSeconds", JInt(0)));
    var unmeasurable := ToInt(Get(m, "unmeasurableSleepSeconds", JInt(0)));
    var overall := ToOptInt(raw[0]);
    var quality := ToOptInt(raw[1]);
    var recovery := ToOptInt(raw[2]);
    var rem := ToOptInt(raw[3]);
    var light := ToOptInt(raw[4]);
    var deep := ToOptInt(raw[5]);
    var restless := ToOptInt(Get(m, "restlessnessScore", JNull));
    var avgHr := ToOptInt(Get(m, "averageSleepHeartRate", JNull));
    var lowHr := ToOptInt(Get(m, "lowestSleepHeartRate", JNull));
    var highHr := ToOptInt(Get(m, "highestSleepHeartRate", JNull));
    var avgResp := ToOptReal(Get(m, "averageSleepRespiration", JNull));
    var lowResp := ToOptReal(Get(m, "lowestSleepRespiration", JNull));
    var highResp := ToOptReal(Get(m, "highestSleepRespiration", JNull));
    var avgSpo2 := ToOptReal(Get(m, "averageSpO2", JNull));
    var lowSpo2 := ToOptReal(Get(m, "lowestSpO2", JNull));
    var stress := ToOptReal(Get(m, "averageSleepStress", JNull));
    var hrv := ToOptReal(Get(m, "avgSleepHrv", JNull));
    var hrvStatus := ToOptStr(Get(m, "hrvStatus", JNull));
    var battery := ToOptInt(Get(m, "bodyBatteryChange", JNull));
    var feedback := ToOptStr(Get(m, "sleepFeedback", JNull));
    var need := ToOptInt(Get(m, "sleepNeed", JNull));
    if id.Ok? && pk.Ok? && date.Ok? && total.Ok? && deepSecs.Ok? && lightSecs.Ok? && remSecs.Ok? &&
       awake.Ok? && unmeasurable.Ok? && overall.Ok? && quality.Ok? && recovery.Ok? && rem.Ok? &&
       light.Ok? && deep.Ok? && restless.Ok? && avgHr.Ok? && lowHr.Ok? && highHr.Ok? && avgResp.Ok? &&
       lowResp.Ok? && highResp.Ok? && avgSpo2.Ok? && lowSpo2.Ok? && stress.Ok? && hrv.Ok? &&
       hrvStatus.Ok? && battery.Ok? && feedback.Ok? && need.Ok? then
      Ok(SleepData(id.value, pk.value, date.value, start, end, startLocal, endLocal,
                   total.value, deepSecs.value, lightSecs.value, remSecs.value, awake.value, unmeasurable.value,
                   SleepScores(overall.value, quality.value, recovery.value, rem.value, light.value, deep.value),
                   restless.value, avgHr.value, lowHr.value, highHr.value, avgResp.value, lowResp.value,
                   highResp.value, avgSpo2.value, lowSpo2.value, stress.value, hrv.value, hrvStatus.value,
                   battery.value, phases, movements, feedback.value, need.value))
    else
      Err(ValidationError)
  }

  /** Scores are read from {metric: {"value": n}}: a dict gives each nested
      value (None where absent), anything else gives six Nones, and a
      metric whose entry is not a dict raises. */
  lemma {:induction false} NestedScores(m: map<string, Json>, n: int)
    ensures var s := map["overall" := JObj(map["value" := JInt(n)])];
            RawScores(m["sleepScores" := JObj(s)]) == Ok([JInt(n), JNull, JNull, JNull, JNull, JNull])
    ensures RawScores(m["sleepScores" := JInt(n)]) == Ok([JNull, JNull, JNull, JNull, JNull, JNull])
    ensures "sleepScores" !in m ==> RawScores(m) == Ok([JNull, JNull, JNull, JNull, JNull, JNull])
    ensures RawScores(m["sleepScores" := JObj(map["rem" := JNull])]) == Err(AttributeError)
  {
  }

  /** Phases correspond one-to-one with the sleepLevels entries, in order. */
  lemma {:induction false} OnePhasePerElement(m: map<string, Json>, raw: seq<Json>)
    requires Get(m, "sleepLevels", JList([])) == JList(raw)
    requires FromResponse(JObj(m)).Ok?
    ensures |FromResponse(JObj(m)).value.sleepPhases| == |raw|
    ensures forall k | 0 <= k < |raw| ::
              PhaseFromElement(raw[k]) == Ok(Some(FromResponse(JObj(m)).value.sleepPhases[k]))
  {
    CollectFails(raw, PhaseFromElement);
    CollectOneEach(raw, PhaseFromElement);
  }

  /** Movements correspond one-to-one with the sleepMovement entries, in
      order. */
  lemma {:induction false} OneMovementPerElement(m: map<string, Json>, raw: seq<Json>)
    requires Get(m, "sleepMovement", JList([])) == JList(raw)
    requires FromResponse(JObj(m)).Ok?
    ensures |FromResponse(JObj(m)).value.sleepMovements| == |raw|
    ensures forall k | 0 <= k < |raw| ::
              MovementFromElement(raw[k]) == Ok(Some(FromResponse(JObj(m)).value.sleepMovements[k]))
  {
    CollectFails(raw, MovementFromElement);
    CollectOneEach(raw, MovementFromElement);
  }
}
