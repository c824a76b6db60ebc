/** The account's profile and settings (src/garmer/models/user.py). */
module UserModel {
  import opened Json
  import opened Calendar
  import opened Seqs

  const CmPerInch: real := 2.54
  const PoundsPerKg: real := 2.20462

  datatype UserSettings = UserSettings(
    preferredLocale: Option<string>,
    measurementSystem: Option<string>,
    dateFormat: Option<string>,
    timeFormat: Option<string>,
    stepGoal: int,
    floorsGoal: int,
    intensityMinutesGoal: int,
    caloriesGoal: Option<int>,
    maxHeartRate: Option<int>,
    restingHeartRate: Option<int>,
    sleepTime: Option<string>,
    wakeTime: Option<string>)

  /** UserSettings.from_garmin_response: record validation of a dict, which
      reads each field under its camelCase alias, else under its own name,
      else takes the default; anything but a dict is refused. */
  function SettingsFromJson(j: Json): (r: Result<UserSettings>)
    ensures !j.JObj? ==> r == Err(ValidationError)
  {
    if !j.JObj? then Err(ValidationError)
    else
      var m := j.fields;
      var locale :- ToOptStr(GetEither(m, "preferredLocale", "preferred_locale", JNull));
      var system :- ToOptStr(GetEither(m, "measurementSystem", "measurement_system", JNull));
      var dateFormat :- ToOptStr(GetEither(m, "dateFormat", "date_format", JNull));
      var timeFormat :- ToOptStr(GetEither(m, "timeFormat", "time_format", JNull));
      var steps :- ToInt(GetEither(m, "stepGoal", "step_goal", JInt(10000)));
      var floors :- ToInt(GetEither(m, "floorsGoal", "floors_goal", JInt(10)));
      var intensity :- ToInt(GetEither(m, "intensityMinutesGoal", "intensity_minutes_goal", JInt(150)));
      var calories :- ToOptInt(GetEither(m, "caloriesGoal", "calories_goal", JNull));
      var maxHr :- ToOptInt(GetEither(m, "maxHeartRate", "max_heart_rate", JNull));
      var restingHr :- ToOptInt(GetEither(m, "restingHeartRate", "resting_heart_rate", JNull));
      var sleep :- ToOptStr(GetEither(m, "sleepTime", "sleep_time", JNull));
      var wake :- ToOptStr(GetEither(m, "wakeTime", "wake_time", JNull));
      Ok(UserSettings(locale, system, dateFormat, timeFormat, steps, floors, intensity, calories,
                      maxHr, restingHr, sleep, wake))
  }

  /** Empty settings carry the default goals: 10000 steps, 10 floors and
      150 intensity minutes. */
  lemma {:induction false} SettingsDefaults()
    ensures SettingsFromJson(JObj(map[]))
         == Ok(UserSettings(None, None, None, None, 10000, 10, 150, None, None, None, None, None))
  {
  }

  datatype UserProfile = UserProfile(
    profileId: Option<int>,
    garminGuid: Option<string>,
    displayName: Option<string>,
    fullName: Option<string>,
    userName: Option<string>,
    email: Option<string>,
    gender: Option<string>,
    birthDate: Option<Date>,
    age: Option<int>,
    heightCm: Option<real>,
    weightKg: Option<real>,
    countryCode: Option<string>,
    timeZone: Option<string>,
    locale: Option<string>,
    profileImageUrl: Option<string>,
    profileImageUrlLarge: Option<string>,
    settings: Option<UserSettings>)
  {
    predicate HasHeight() {
      heightCm.Some? && heightCm.value != 0.0
    }

    predicate HasWeight() {
      weightKg.Some? && weightKg.value != 0.0
    }

    function HeightInches(): Option<real> {
      if HasHeight() then Some(heightCm.value / CmPerInch) else None
    }

    /** Whole feet, floored, and the inches left over. */
    function HeightFeetInches(): Option<(int, real)> {
      if HasHeight() then
        var total := heightCm.value / CmPerInch;
        var feet := (total / 12.0).Floor;
        Some((feet, Round1(total - 12.0 * feet as real)))
      else None
    }

    function WeightLbs(): Option<real> {
      if HasWeight() then Some(weightKg.value * PoundsPerKg) else None
    }

    /** Weight over the square of height in metres. */
    function Bmi(): Option<real> {
      if HasHeight() && HasWeight() then
        var heightM := heightCm.value / 100.0;
        Some(weightKg.value / (heightM * heightM))
      else None
    }
  }

  /** birthDate: a string is read with date.fromisoformat and becomes None
      when it does not parse; null stays None; any other value is refused
      by the date field. */
  function BirthDateOf(j: Json): (r: Result<Option<Date>>)
    ensures j.JStr? ==> r == Ok(FromIsoFormat(j.s))
  {
    match j
    case JNull => Ok(None)
    case JStr(s) => Ok(FromIsoFormat(s))
    case _ => Err(ValidationError)
  }

  /** `data.get("userSettings") or data.get("settings")`, parsed when truthy. */
  function SettingsOf(m: map<string, Json>): Result<Option<UserSettings>> {
    var raw := if Truthy(Get(m, "userSettings", JNull)) then Get(m, "userSettings", JNull) else Get(m, "settings", JNull);
    if Truthy(raw) then
      var s :- SettingsFromJson(raw);
      Ok(Some(s))
    else Ok(None)
  }

  /** `data.get("profileId") or data.get("id")` */
  function ProfileIdOf(m: map<string, Json>): Json {
    if Truthy(Get(m, "profileId", JNull)) then Get(m, "profileId", JNull) else Get(m, "id", JNull)
  }

  /** UserProfile.from_garmin_response. */
  function FromResponse(data: Json): (r: Result<UserProfile>)
    ensures r.Ok? ==> data.JObj? && ToOptInt(ProfileIdOf(data.fields)) == Ok(r.value.profileId)
    ensures r.Ok? ==> SettingsOf(data.fields) == Ok(r.value.settings)
    ensures r.Ok? ==> BirthDateOf(Get(data.fields, "birthDate", JNull)) == Ok(r.value.birthDate)
  {
    if !data.JObj? then Err(AttributeError)
    else
      var m := data.fields;
      var birth :- BirthDateOf(Get(m, "birthDate", JNull));
      var settings :- SettingsOf(m);
      var id :- ToOptInt(ProfileIdOf(m));
      var guid :- ToOptStr(Get(m, "garminGUID", JNull));
      var display :- ToOptStr(Get(m, "displayName", JNull));
      var full :- ToOptStr(Get(m, "fullName", JNull));
      var user :- ToOptStr(Get(m, "userName", JNull));
      var email :- ToOptStr(Get(m, "email", JNull));
      var gender :- ToOptStr(Get(m, "gender", JNull));
      var age :- ToOptInt(Get(m, "age", JNull));
      var height :- ToOptReal(Get(m, "height", JNull));
      var weight :- ToOptReal(Get(m, "weight", JNull));
      var country :- ToOptStr(Get(m, "countryCode", JNull));
      var zone :- ToOptStr(Get(m, "timeZone", JNull));
      var locale :- ToOptStr(Get(m, "locale", JNull));
      var image :- ToOptStr(Get(m, "profileImageUrl", JNull));
      var imageLarge :- ToOptStr(Get(m, "profileImageUrlLarge", JNull));
      Ok(UserProfile(id, guid, display, full, user, email, gender, birth, age, height, weight,
                     country, zone, locale, image, imageLarge, settings))
  }

  /** The profile id is profileId when that is truthy and id otherwise;
      settings come from userSettings when truthy, else from settings, and
      are None when neither is truthy. */
  lemma {:induction false} IdAndSettingsFallbacks(m: map<string, Json>, a: int, b: int)
    requires a != 0
    ensures ProfileIdOf(m["profileId" := JInt(a)]["id" := JInt(b)]) == JInt(a)
    ensures ProfileIdOf(m["profileId" := JInt(0)]["id" := JInt(b)]) == JInt(b)
    ensures ProfileIdOf(m["profileId" := JNull]["id" := JInt(b)]) == JInt(b)
    ensures !Truthy(Get(m, "userSettings", JNull)) && !Truthy(Get(m, "settings", JNull)) ==> SettingsOf(m) == Ok(None)
    ensures Truthy(Get(m, "userSettings", JNull)) ==> SettingsOf(m) == SettingsOf(m["settings" := JNull])
    ensures !Truthy(Get(m, "userSettings", JNull)) && Truthy(Get(m, "settings", JNull)) ==>
              SettingsOf(m) == (var s :- SettingsFromJson(m["settings"]); Ok(Some(s)))
  {
    assert Get(m["settings" := JNull], "userSettings", JNull) == Get(m, "userSettings", JNull);
  }

  /** A birth date in ISO form is kept, and one that is not a real date in
      that form becomes None rather than an error. */
  lemma {:induction false} BirthDateParsing(d: Date)
    requires Valid(d)
    ensures BirthDateOf(JStr(IsoFormat(d))) == Ok(Some(d))
    ensures BirthDateOf(JStr("2023-02-29")) == Ok(None)
    ensures BirthDateOf(JStr("yesterday")) == Ok(None)
  {
    FromIsoFormatOfIsoFormat(d);
    var s := "2023-02-29";
    assert s[..4] == "2023" && s[5..7] == "02" && s[8..] == "29";
    assert DigitsValue("2023") == 2023 by {
      assert "2023"[..3] == "202" && "202"[..2] == "20" && "20"[..1] == "2" && "2"[..0] == "";
    }
    assert DigitsValue("02") == 2 by {
      assert "02"[..1] == "0" && "0"[..0] == "";
    }
    assert DigitsValue("29") == 29 by {
      assert "29"[..1] == "2" && "2"[..0] == "";
    }
    assert !IsLeap(2023);
  }

  /** Height in inches needs a truthy height; feet are the whole twelves
      of it, and the inches reported are what is left over, in [0, 12),
      rounded to a tenth. */
  lemma {:induction false} HeightSplit(p: UserProfile)
    ensures p.HeightInches().Some? <==> p.HasHeight()
    ensures p.HeightInches().Some? ==> p.HeightInches().value * CmPerInch == p.heightCm.value
    ensures p.HeightFeetInches().Some? <==> p.HasHeight()
    ensures p.HeightFeetInches().Some? ==>
              var (feet, inches) := p.HeightFeetInches().value;
              var exact := p.HeightInches().value - 12.0 * feet as real;
              0.0 <= exact < 12.0 && inches == Round1(exact)
  {
    if p.HasHeight() {
      var total := p.heightCm.value / CmPerInch;
      var feet := (total / 12.0).Floor;
      assert feet as real <= total / 12.0 < feet as real + 1.0;
      assert 12.0 * feet as real <= total < 12.0 * feet as real + 12.0;
    }
  }

  /** Pounds and BMI need truthy inputs: BMI exists exactly when both height
      and weight do, and then BMI times the squared height in metres is the
      weight. */
  lemma {:induction false} BmiNeedsHeightAndWeight(p: UserProfile)
    ensures p.WeightLbs().Some? <==> p.HasWeight()
    ensures p.WeightLbs().Some? ==> p.WeightLbs().value == p.weightKg.value * 2.20462
    ensures p.Bmi().Some? <==> p.HasHeight() && p.HasWeight()
    ensures p.Bmi().Some? ==>
              var h := p.heightCm.value / 100.0;
              p.Bmi().value * (h * h) == p.weightKg.value
  {
    if p.HasHeight() && p.HasWeight() {
      var h := p.heightCm.value / 100.0;
      SquarePositive(h);
      assert p.Bmi().value == p.weightKg.value / (h * h);
    }
  }

  lemma SquarePositive(h: real)
    requires h != 0.0
    ensures h * h > 0.0
  {
    if h < 0.0 {
      assert h * h == (-h) * (-h);
    }
  }
}
