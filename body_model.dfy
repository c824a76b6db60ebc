/** Weight measurements and body composition
    (src/garmer/models/body_composition.py). */
module BodyModel {
  import opened Json
  import opened ModelBase

  const GramsPerKg: real := 1000.0
  const PoundsPerKg: real := 2.20462

  datatype Weight = Weight(
    samplePk: Option<int>,
    date: Option<string>,
    timestamp: Option<Instant>,
    weightGrams: int,
    sourceType: Option<string>)
  {
    function WeightKg(): real {
      weightGrams as real / GramsPerKg
    }

    function WeightLbs(): real {
      WeightKg() * PoundsPerKg
    }
  }

  /** Weight.from_garmin_response: a missing weight is 0 grams. */
  function WeightFromObject(m: map<string, Json>): (r: Result<Weight>)
    ensures r.Ok? && "weight" !in m ==> r.value.weightGrams == 0
  {
    var ts :- ParseTimestamp(Get(m, "timestampGMT", JNull));
    var pk :- ToOptInt(Get(m, "samplePk", JNull));
    var date :- ToOptStr(Get(m, "calendarDate", JNull));
    var grams :- ToInt(Get(m, "weight", JInt(0)));
    var source :- ToOptStr(Get(m, "sourceType", JNull));
    Ok(Weight(pk, date, ts, grams, source))
  }

  /** One element of a list of weight summaries; only a dict has .get. */
  function WeightFromElement(j: Json): (r: Result<Option<Weight>>)
    ensures r.Ok? ==> j.JObj? && r.value.Some?
  {
    if !j.JObj? then Err(AttributeError)
    else
      var w :- WeightFromObject(j.fields);
      Ok(Some(w))
  }

  datatype BodyComposition = BodyComposition(
    samplePk: Option<int>,
    date: Option<string>,
    timestamp: Option<Instant>,
    weightGrams: int,
    bodyFatPercentage: Option<real>,
    bodyWaterPercentage: Option<real>,
    boneMassGrams: Option<int>,
    muscleMassGrams: Option<int>,
    visceralFatLevel: Option<int>,
    metabolicAge: Option<int>,
    physiqueRating: Option<int>,
    bmi: Option<real>,
    sourceType: Option<string>)
  {
    function WeightKg(): real {
      weightGrams as real / GramsPerKg
    }

    function WeightLbs(): real {
      WeightKg() * PoundsPerKg
    }

    /** Bone mass in kilograms, when it is known and non-zero. */
    function BoneMassKg(): Option<real> {
      if boneMassGrams.Some? && boneMassGrams.value != 0 then Some(boneMassGrams.value as real / GramsPerKg) else None
    }

    /** Muscle mass in kilograms, when it is known and non-zero. */
    function MuscleMassKg(): Option<real> {
      if muscleMassGrams.Some? && muscleMassGrams.value != 0 then Some(muscleMassGrams.value as real / GramsPerKg) else None
    }

    /** The weight less the fat share of it, when the fat share is known. */
    function LeanBodyMassKg(): Option<real> {
      if bodyFatPercentage.Some? then
        var fatMass := WeightKg() * (bodyFatPercentage.value / 100.0);
        Some(WeightKg() - fatMass)
      else None
    }
  }

  /** BodyComposition.from_garmin_response. */
  function CompositionFromResponse(data: Json): (r: Result<BodyComposition>)
    ensures r.Ok? && data.JObj? && "weight" !in data.fields ==> r.value.weightGrams == 0
  {
    if !data.JObj? then Err(AttributeError)
    else
      var m := data.fields;
      var ts :- ParseTimestamp(Get(m, "timestampGMT", JNull));
      var pk :- ToOptInt(Get(m, "samplePk", JNull));
      var date :- ToOptStr(Get(m, "calendarDate", JNull));
      var grams :- ToInt(Get(m, "weight", JInt(0)));
      var fat :- ToOptReal(Get(m, "bodyFat", JNull));
      var water :- ToOptReal(Get(m, "bodyWater", JNull));
      var bone :- ToOptInt(Get(m, "boneMass", JNull));
      var muscle :- ToOptInt(Get(m, "muscleMass", JNull));
      var visceral :- ToOptInt(Get(m, "visceralFat", JNull));
      var age :- ToOptInt(Get(m, "metabolicAge", JNull));
      var physique :- ToOptInt(Get(m, "physiqueRating", JNull));
      var bmi :- ToOptReal(Get(m, "bMI", JNull));
      var source :- ToOptStr(Get(m, "sourceType", JNull));
      Ok(BodyComposition(pk, date, ts, grams, fat, water, bone, muscle, visceral, age, physique, bmi, source))
  }

  /** Both records convert grams to kilograms and kilograms to pounds the
      same way: a kilogram is 1000 grams and 2.20462 pounds. */
  lemma {:induction false} WeightConversions(w: Weight, b: BodyComposition)
    ensures w.WeightKg() * 1000.0 == w.weightGrams as real
    ensures w.WeightLbs() == w.weightGrams as real * 2.20462 / 1000.0
    ensures b.WeightKg() * 1000.0 == b.weightGrams as real
    ensures b.WeightLbs() == b.weightGrams as real * 2.20462 / 1000.0
    ensures w.weightGrams == b.weightGrams ==> w.WeightLbs() == b.WeightLbs()
  {
  }

  /** Bone and muscle mass are absent exactly when their gram counts are
      None or 0, and otherwise are those grams in kilograms. */
  lemma {:induction false} MassesNeedTruthyGrams(b: BodyComposition)
    ensures b.BoneMassKg().None? <==> b.boneMassGrams == None || b.boneMassGrams == Some(0)
    ensures b.BoneMassKg().Some? ==> b.BoneMassKg().value * 1000.0 == b.boneMassGrams.value as real
    ensures b.MuscleMassKg().None? <==> b.muscleMassGrams == None || b.muscleMassGrams == Some(0)
    ensures b.MuscleMassKg().Some? ==> b.MuscleMassKg().value * 1000.0 == b.muscleMassGrams.value as real
  {
  }

  /** Lean mass is known exactly when body fat is, even at 0 %; lean mass
      and fat mass add up to the weight, and with a fat share between 0 and
      100 % the lean mass lies between 0 and the weight. */
  lemma {:induction false} LeanMassIsWeightLessFat(b: BodyComposition)
    ensures b.LeanBodyMassKg().None? <==> b.bodyFatPercentage.None?
    ensures b.LeanBodyMassKg().Some? ==>
              b.LeanBodyMassKg().value + b.WeightKg() * b.bodyFatPercentage.value / 100.0 == b.WeightKg()
    ensures b.LeanBodyMassKg().Some? && b.weightGrams >= 0 && 0.0 <= b.bodyFatPercentage.value <= 100.0 ==>
              0.0 <= b.LeanBodyMassKg().value <= b.WeightKg()
  {
    if b.bodyFatPercentage.Some? {
      var kg, pct := b.WeightKg(), b.bodyFatPercentage.value;
      assert b.LeanBodyMassKg().value == kg * (1.0 - pct / 100.0);
      if b.weightGrams >= 0 && 0.0 <= pct <= 100.0 {
        ShareOfNonNegative(kg, 1.0 - pct / 100.0);
      }
    }
  }

  lemma ShareOfNonNegative(a: real, f: real)
    requires a >= 0.0 && 0.0 <= f <= 1.0
    ensures 0.0 <= a * f <= a
  {
    assert a - a * f == a * (1.0 - f);
  }

  /** An empty response weighs 0 grams and knows nothing else. */
  lemma {:induction false} EmptyResponseDefaults()
    ensures CompositionFromResponse(JObj(map[]))
         == Ok(BodyComposition(None, None, None, 0, None, None, None, None, None, None, None, None, None))
    ensures WeightFromObject(map[]) == Ok(Weight(None, None, None, 0, None))
  {
  }
}
