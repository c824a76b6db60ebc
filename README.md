# garmer, modelled in Dafny

garmer is a Python library that pulls health and fitness data from Garmin
Connect. It normalises the loosely-typed JSON of the vendor API into typed
records, aggregates them over date ranges, and keeps an authentication
session alive. A small integration script turns the results into insight
and recommendation strings for a chat assistant. This project models the
deterministic logic under the I/O and proves what it promises:

- **Raw values and records** (`json.dfy`, `model_base.dfy`, `*_model.dfy`).
  - JSON is a datatype.
  - Python exceptions are the `Error` cases of a `Result`.
  - Each `from_garmin_response` is a function from a decoded value to a record or an error, with the source's defaults, key probing (camelCase before snake_case), sample shapes (`[ts, value]` pairs or objects), sentinels and nested scores.
  - The derived accessors are functions on the records: percentages, goal flags, unit conversions, paces, BMI and so on.
  - The date arithmetic of Python's `datetime` is in `calendar.dfy`: proleptic Gregorian dates and their day numbers, `isoformat`, `fromisoformat` and `strptime("%Y-%m-%d")`.
- **Extractors** (`extractor_base.dfy`, `*_extractor.dfy`).
  - Dates are day numbers.
  - Every HTTP request is an outcome given as an argument: a value, or the exception it raised.
  - The day-by-day range walk is a method with a loop, proved against the specification function `Kept`.
  - The per-domain statistics are functions with lemmas about their sums, averages and bounds.
- **Authentication** (`auth.dfy`).
  - `GarminAuth` is a class whose one flag, `isAuthenticated`, the methods update.
  - The OAuth library and the token file are outcomes passed in, and a `TokenStore` object records whether the token file exists.
- **Client facade** (`client.dfy`).
  - The health snapshot, the weekly report and the export are filled key by key.
  - Each domain sits in its own try block. A lemma proves that a failure in one domain leaves every other key as it would otherwise be.
- **Chat integration** (`moltbot.dfy`).
  - The threshold rules of the health summary.
  - The per-type accumulation table and the recommendations of the activity insights.
  - The averages, rounding and trends of the sleep analysis.
  - The integration object caches its client.

`date.today()` is a parameter wherever the source calls it. Where the
documented behaviour and the code disagree, the model follows the code:

- Every extractor's `get_for_date` wraps the request itself in its `try`, so authentication errors are caught and give `None` like any other failure; they do not propagate.
- The daily `get_weekly_summary` and `get_monthly_summary` always raise as written. They are modelled both as written and as evidently intended, and the rest of the model uses the intended versions (see Findings).
- The day-by-day range walk raises OverflowError as written when a range ends on 9999-12-31 (Findings, row 1). It is modelled both ways, and every range consumer uses the intended walk, which stops after the end day. On such a range the code as written instead propagates the error from `get_last_n_days`, `get_resting_hr_trend` and the sleep trends, exports `[]` for the part, and leaves the weekly report's statistics at None. The rows marked "as intended" below state the intended walk.

## Model

| member | source | states |
|---|---|---|
| DailyModel.StepPercentageAgreesWithGoal | src/garmer/models/daily.py:212-217 | with a positive goal the percentage reaches 100 exactly when the steps reach the goal, and percentage × goal = 100 × steps; with no goal it is 0 |
| DailyModel.DerivedCounters | src/garmer/models/daily.py:219-232 | one more vigorous minute adds two intensity minutes and a moderate one adds one; the net battery change exists exactly when charged and drained both do, and then is charged − drained |
| DailyModel.ToStatsKeepsMetrics | src/garmer/models/daily.py:234-258 | to_stats keeps steps, goal, distance (as a float), calories, battery high and low, respiration, and carries no sleep data |
| DailyModel.NullCounterMeansDefault | src/garmer/models/daily.py:158-160 | for a counter an explicit null and a missing key both give the default |
| DailyModel.EmptyResponseDefaults | src/garmer/models/daily.py:166-209 | an empty response parses, with a 10000-step goal, a 10-floor goal, a 150-minute intensity goal, 0 steps, an empty date and no resting heart rate |
| DailyModel.FalsyDateAndFloorsFallBack | src/garmer/models/daily.py:167-191 | a missing or falsy calendarDate gives "" and a missing or falsy floor count gives 0.0 |
| DailyModel.FromResponse | src/garmer/models/daily.py:153-210 | a non-dict raises AttributeError and a dict with a field of the wrong type a validation error; the step count and goal are the get_int values with defaults 0 and 10000 |
| DailyModel.ToStats | src/garmer/models/daily.py:234-258 | the statistics keep the date, steps and goal, with a sleep duration of 0 and no sleep score |
| StepsModel.SampleFromElement | src/garmer/models/steps.py:19-27 | a sample parses only from a dict, and a missing step count is 0 |
| StepsModel.ParseSamples | src/garmer/models/steps.py:66-70 | the loop over stepsSamples yields what visiting the elements one by one yields: the first element that raises ends it, otherwise one sample per element in order |
| StepsModel.PercentageAgreesWithGoalReached | src/garmer/models/steps.py:91-101 | with a positive goal the percentage reaches 100 exactly when goal_reached holds, and percentage × goal = 100 × steps; with no goal it is 0 |
| StepsModel.DerivedQuantities | src/garmer/models/steps.py:103-136 | a vigorous minute counts as two moderate ones; km, miles, minutes and hours are exact rescalings; the floor goal is reached exactly when the floors are not below it |
| StepsModel.EmptyResponseDefaults | src/garmer/models/steps.py:63-89 | an empty response gives 0 steps, a 10000-step goal, a 10-floor goal, a 150-minute intensity goal and no samples |
| StepsModel.FromResponse | src/garmer/models/steps.py:63-89 | a non-dict raises AttributeError; the samples are those of the stepsSamples loop, and the goal defaults to 10000 |
| StepsModel.OneSamplePerElement | src/garmer/models/steps.py:66-70 | when the response parses, it holds one sample per element of stepsSamples, in order, each the element's own parse |
| HeartRateModel.SampleFromElement | src/garmer/models/heart_rate.py:89-98 | an element that is neither a pair-or-longer list nor a dict is skipped; one that is yields a sample when it parses |
| HeartRateModel.SampleRateFallbacks | src/garmer/models/heart_rate.py:17-23 | a pair with a falsy rate (null or 0) keeps rate 0; a dict sample reads heartRate before value and defaults to 0 |
| HeartRateModel.ParseSamples | src/garmer/models/heart_rate.py:86-98 | the loop over heartRateValues yields what visiting the elements one by one yields, in order |
| HeartRateModel.ZoneFromElement | src/garmer/models/heart_rate.py:35-44 | a zone parses only from a dict |
| HeartRateModel.DefaultZoneName | src/garmer/models/heart_rate.py:38-43 | a zone with no name is named "Zone n" after its number, and a zone with no number is zone 0, "Zone 0" |
| HeartRateModel.ZoneMinutes | src/garmer/models/heart_rate.py:46-49 | minutes × 60 are the zone's seconds |
| HeartRateModel.ParseZones | src/garmer/models/heart_rate.py:101-104 | the loop over heartRateZones yields one zone per element, stopping at the first that raises |
| HeartRateModel.PositiveRates | src/garmer/models/heart_rate.py:133 | the list holds exactly the positive rates of the samples |
| HeartRateModel.PositiveRateKept | src/garmer/models/heart_rate.py:133 | every sample with a positive rate contributes its rate |
| HeartRateModel.SamplesInRangeSelects | src/garmer/models/heart_rate.py:120-128 | the samples in range are exactly the timestamped ones between the bounds, both included, in order; filtering commutes with appending samples |
| HeartRateModel.AverageOfPositiveRates | src/garmer/models/heart_rate.py:130-136 | the average is None exactly when no sample in range has a positive rate, and otherwise lies between the smallest and largest such rate |
| HeartRateModel.FromResponse | src/garmer/models/heart_rate.py:82-118 | a parsed response holds the parsed samples and one parsed zone per heartRateZones element |
| HeartRateModel.OneZonePerElement | src/garmer/models/heart_rate.py:100-104 | there is one zone per heartRateZones element, in order |
| HeartRateModel.EmptyResponseDefaults | src/garmer/models/heart_rate.py:106-118 | an empty response has no samples, no zones and no summary values |
| HydrationModel.PercentageAgreesWithGoalReached | src/garmer/models/hydration.py:80-90 | with a positive goal the percentage reaches 100 exactly when goal_reached holds, and percentage × goal = 100 × intake; with no goal it is 0 |
| HydrationModel.RemainingClosesTheGap | src/garmer/models/hydration.py:92-100 | what is left to drink is never negative, is 0 exactly when the goal is reached, and otherwise tops the intake up to the goal; net intake plus sweat loss is the intake |
| HydrationModel.UnitConversions | src/garmer/models/hydration.py:60-78 | liters and fluid ounces are exact rescalings of millilitres |
| HydrationModel.EmptyResponseDefaults | src/garmer/models/hydration.py:46-58 | an empty response means nothing drunk against a 2500 mL goal |
| HydrationModel.IntakeKeyProbing | src/garmer/models/hydration.py:43-48 | the camelCase key wins whenever present, the snake_case key is read only when it is absent, and int() truncates a float amount |
| HydrationModel.NullIntakeRaises | src/garmer/models/hydration.py:43-48 | a camelCase intake key present but null is not replaced by the default: int(None) raises TypeError |
| HydrationModel.FromResponse | src/garmer/models/hydration.py:35-58 | a non-dict raises AttributeError; intake and goal are int() of the camelCase value, else the snake_case one, else 0 and 2500 |
| RespirationModel.SampleFromElement | src/garmer/models/respiration.py:63-72 | an element that is neither a pair-or-longer list nor a dict is skipped; one that is yields a sample when it parses |
| RespirationModel.PairValueKeptAsGiven | src/garmer/models/respiration.py:17-23 | a pair keeps a null value as None and 0 as 0; a dict without respirationValue has None |
| RespirationModel.ParseSamples | src/garmer/models/respiration.py:60-72 | the loop over respirationValuesArray yields what visiting the elements one by one yields, in order |
| RespirationModel.ValidSamplesHaveValues | src/garmer/models/respiration.py:86-88 | the valid samples are exactly those with a value, in order; filtering commutes with appending samples |
| RespirationModel.RangeNeedsBothExtremes | src/garmer/models/respiration.py:90-95 | the range exists exactly when both extremes are truthy, and then lowest + range = highest |
| RespirationModel.FromResponse | src/garmer/models/respiration.py:56-84 | a parsed response holds the parsed samples |
| RespirationModel.OneSamplePerElement | src/garmer/models/respiration.py:60-72 | pair and dict elements that parse give one sample each, in order; elements of any other shape are skipped |
| RespirationModel.EmptyResponseDefaults | src/garmer/models/respiration.py:74-84 | an empty response has no samples and no summary values |
| StressModel.CategoryBands | src/garmer/models/stress.py:25-42 | the five categories partition the levels (below 0, 0-25, 26-50, 51-75, above 75), and a sample is valid exactly when it is not unmeasured |
| StressModel.SampleFromElement | src/garmer/models/stress.py:92-101 | an element that is neither a pair-or-longer list nor a dict is skipped; one that is yields a sample when it parses |
| StressModel.MissingLevelIsMinusOne | src/garmer/models/stress.py:17-23 | a dict sample without stressLevel, and a pair whose level is null, both become a sample with level -1 |
| StressModel.ParseSamples | src/garmer/models/stress.py:89-101 | the loop over stressValuesArray yields what visiting the elements one by one yields, in order |
| StressModel.TotalMeasuredIsFourBands | src/garmer/models/stress.py:130-159 | the measured total is the sum of the four banded durations; activity and uncategorised time do not count |
| StressModel.ValidSamplesAreTheMeasuredOnes | src/garmer/models/stress.py:161-163 | the valid samples are exactly those with a level of 0 or more, in order; filtering commutes with appending samples |
| StressModel.OneSamplePerElement | src/garmer/models/stress.py:89-101 | pair and dict elements that parse give one sample each, in order; no stressValuesArray gives none |
| StressModel.CamelCaseKeyWins | src/garmer/models/stress.py:104-118 | a present but null camelCase duration is used as is, so validation refuses it although the snake_case key holds a number |
| StressModel.MissingKeysDefault | src/garmer/models/stress.py:104-118 | with neither key present a duration is 0 and a summary value is None |
| StressModel.FromResponse | src/garmer/models/stress.py:82-128 | a non-dict raises AttributeError; the samples are those of the stressValuesArray loop, and the high-stress time is read camelCase first with default 0 |
| SleepModel.Lower | src/garmer/models/sleep.py:39 | lower-casing keeps the length |
| SleepModel.LowerExamples | src/garmer/models/sleep.py:39 | "DEEP" lowers to "deep", "Rem" to "rem", and "nap" stays "nap" |
| SleepModel.PhaseFromElement | src/garmer/models/sleep.py:30-47 | a phase parses only from a dict, and its level is the looked-up sleepLevel |
| SleepModel.PhaseLevelMapping | src/garmer/models/sleep.py:33-40 | the level lookup ignores case, and an unknown name is unmeasurable |
| SleepModel.MissingOrNullLevel | src/garmer/models/sleep.py:39 | a missing sleepLevel is unmeasurable, and a null one raises AttributeError on .lower() |
| SleepModel.LevelIgnoresCase | src/garmer/models/sleep.py:33-40 | names equal up to case give the same level; a level is deep exactly for "deep", and unmeasurable exactly when the name is none of the four |
| SleepModel.ParsePhases | src/garmer/models/sleep.py:138-141 | the loop over sleepLevels yields one phase per element, stopping at the first that raises |
| SleepModel.ParseMovements | src/garmer/models/sleep.py:144-147 | the loop over sleepMovement yields one movement per element, stopping at the first that raises |
| SleepModel.HoursAreSecondsOver3600 | src/garmer/models/sleep.py:202-220 | the hours accessors × 3600 are the second counts |
| SleepModel.EfficiencyNeedsTimeInBed | src/garmer/models/sleep.py:222-229 | efficiency exists exactly when both ends of the night are known and the end is after the start, and then efficiency × time in bed = 100 × sleep time |
| SleepModel.PercentagesAreShares | src/garmer/models/sleep.py:231-243 | the phase percentages are shares of the total sleep time, 0 with no sleep, and within 0-100 when the phase fits in the total |
| SleepModel.FromResponse | src/garmer/models/sleep.py:134-200 | a parsed record holds one parsed phase per sleepLevels element and one parsed movement per sleepMovement element |
| SleepModel.Validate | src/garmer/models/sleep.py:162-200 | the checked record keeps the phases, movements and sleep start and end it was given |
| SleepModel.NestedScores | src/garmer/models/sleep.py:149-160 | scores come from {metric: {"value": n}}: a dict gives each nested value (None where absent), anything else gives six Nones, and a metric entry that is not a dict raises |
| SleepModel.OnePhasePerElement | src/garmer/models/sleep.py:138-141 | there is one phase per sleepLevels element, in order |
| SleepModel.OneMovementPerElement | src/garmer/models/sleep.py:144-147 | there is one movement per sleepMovement element, in order |
| ActivityModel.LapFromElement | src/garmer/models/activity.py:58-75 | a lap parses only from a dict |
| ActivityModel.LapDefaults | src/garmer/models/activity.py:58-75 | an empty dict is lap 0 with zero duration, distance and calories and nothing else known; a lap that is not a dict raises AttributeError |
| ActivityModel.ActivityTypeOf | src/garmer/models/activity.py:166-170 | a non-dict activityType always gives a string |
| ActivityModel.Conversions | src/garmer/models/activity.py:215-228 | km, miles and minutes are exact rescalings of metres and seconds |
| ActivityModel.PaceIsTimePerDistance | src/garmer/models/activity.py:230-242 | a pace exists exactly when distance and duration are both positive; it is then minutes per unit of distance, positive, and a mile takes 1.609344 times a kilometre's |
| ActivityModel.FromResponse | src/garmer/models/activity.py:162-213 | only a dict parses |
| ActivityModel.Validate | src/garmer/models/activity.py:172-213 | the checked record keeps the given start times, the derived activity type, activityTypeKey (falling back to the type) and activityId (default 0) |
| ActivityModel.ActivityTypeShapes | src/garmer/models/activity.py:166-170 | the type is a dict's typeKey (default "other"), a truthy string as it is, and "other" for a falsy or absent value |
| ActivityModel.TypeKeyFallsBackToType | src/garmer/models/activity.py:173-176 | activityTypeKey is taken as given when present and is the activity type otherwise; a missing activityId is 0 |
| BodyModel.WeightFromObject | src/garmer/models/body_composition.py:25-34 | a weight without a "weight" key is 0 grams |
| BodyModel.WeightFromElement | src/garmer/extractors/body.py:106-109 | an entry of the weight-summary list parses to a weight only when it is a dict |
| BodyModel.CompositionFromResponse | src/garmer/models/body_composition.py:78-96 | a composition without a "weight" key is 0 grams |
| BodyModel.WeightConversions | src/garmer/models/body_composition.py:36-44 | both records turn grams into kilograms (÷1000) and kilograms into pounds (×2.20462) the same way |
| BodyModel.MassesNeedTruthyGrams | src/garmer/models/body_composition.py:108-120 | bone and muscle mass are absent exactly when their grams are None or 0, and otherwise are the grams in kilograms |
| BodyModel.LeanMassIsWeightLessFat | src/garmer/models/body_composition.py:122-128 | lean mass is known exactly when body fat is (even 0 %); lean plus fat mass is the weight, and with a fat share in [0, 100] lean mass lies between 0 and the weight |
| BodyModel.ShareOfNonNegative | src/garmer/models/body_composition.py:126 | a share in [0, 1] of a non-negative mass lies between 0 and the mass |
| BodyModel.EmptyResponseDefaults | src/garmer/models/body_composition.py:78-96 | an empty response weighs 0 grams and knows nothing else |
| UserModel.SettingsFromJson | src/garmer/models/user.py:34-37 | anything but a dict is refused with a ValidationError |
| UserModel.SettingsDefaults | src/garmer/models/user.py:20-23 | empty settings carry the default goals: 10000 steps, 10 floors, 150 intensity minutes |
| UserModel.BirthDateOf | src/garmer/models/user.py:83-89 | a string birth date is read with date.fromisoformat, and one that does not parse becomes None |
| UserModel.FromResponse | src/garmer/models/user.py:80-125 | a parsed profile holds the derived profile id, the settings and the birth date |
| UserModel.IdAndSettingsFallbacks | src/garmer/models/user.py:99-106 | the id is profileId when truthy and id otherwise; settings come from a truthy userSettings, else a truthy settings, else None |
| UserModel.BirthDateParsing | src/garmer/models/user.py:83-89 | an ISO birth date is kept; "2023-02-29" and "yesterday" become None rather than an error |
| UserModel.HeightSplit | src/garmer/models/user.py:127-142 | inches need a truthy height and × 2.54 give it back; feet are the whole twelves and the inches left over, in [0, 12), are rounded to a tenth |
| UserModel.BmiNeedsHeightAndWeight | src/garmer/models/user.py:144-157 | pounds need a truthy weight; BMI exists exactly when height and weight both do, and then BMI × (height in m)² is the weight |
| UserModel.SquarePositive | src/garmer/models/user.py:156 | a non-zero height has a positive square |
| ModelBase.TimestampIsMilliseconds | src/garmer/models/base.py:31-41 | an integer is milliseconds, n meaning n/1000 seconds, exactly when that instant lies in years 1 to 9999; outside them it raises ValueError; None gives no instant |
| ModelBase.TimestampText | src/garmer/models/base.py:34-39 | a string of digits means what its integer means, and a string that int() refuses gives no instant; text only ever raises ValueError |
| ModelBase.ParseTimestamp | src/garmer/models/base.py:31-41 | an instant it yields lies in years 1 to 9999; it yields no instant exactly for None and for text int() refuses; lists and dicts raise TypeError and every other failure is ValueError |
| ModelBase.ParseDate | src/garmer/models/base.py:44-51 | a parsed date is a real calendar date; None and every string are accepted (a malformed one gives None), and any other value raises |
| ModelBase.ParseDateOfIsoFormat | src/garmer/models/base.py:44-51 | every valid date written as YYYY-MM-DD parses back to itself |
| ModelBase.ToDictDropsNone | src/garmer/models/base.py:18-20 | the dump holds no None anywhere; it keeps exactly the fields whose value is not None, and a value that is not None stays not None |
| Json.CamelCaseWins | src/garmer/models/hydration.py:42-44 | the camelCase key wins over the snake_case one, which wins over the default |
| Json.NullOnlyFitsOptionalFields | src/garmer/models/base.py:22-28 | validation refuses null for a required int, float or str field and reads it as None for an optional one; any other value fits the optional field exactly when it fits the required one |
| Json.Elements | src/garmer/models/heart_rate.py:89 | iterating a list visits its items; only lists, strings and dicts can be iterated; a string or a dict yields strings; nothing is visited exactly when the value is falsy |
| Json.CollectAppend | src/garmer/extractors/body.py:106-109 | the list comprehension, one element further: it keeps a raised error, raises the new element's error, or appends the new element's value |
| Json.CollectFailsFromPrefix | src/garmer/extractors/body.py:106-109 | once an element has raised, the later elements are never looked at |
| Json.CollectOneEach | src/garmer/extractors/body.py:106-109 | when every element parses, the result holds one value per element, in input order |
| Json.CollectFails | src/garmer/extractors/body.py:106-109 | the comprehension raises exactly when some element raises |
| Json.ParseIntOfIntToString | src/garmer/models/base.py:35-39 | int() of str(i) is i, for every integer |
| Json.DigitsValueOfNatToString | src/garmer/models/base.py:35-39 | the decimal digits printed for n read back as n |
| Json.ParseIntIgnoresSpace | src/garmer/models/hydration.py:48-49 | int() reads " 2500\n" as 2500 and refuses text that is only whitespace |
| Json.ParseIntReadsUnderscores | src/garmer/models/hydration.py:48-49 | int() reads "1_000" as 1000 |
| Json.ParseIntRefusals | src/garmer/models/hydration.py:48-49 | int() refuses a doubled, leading or trailing underscore and a space after the sign |
| Calendar.FromOrdinal | src/garmer/extractors/base.py:134-137 | the day a day number stands for is a real calendar date |
| Calendar.ToOrdinalFromOrdinal | src/garmer/extractors/base.py:134-137 | a day number turned into a date and back is the same number, so stepping a date by timedelta(days=1) is stepping its number by one |
| Calendar.FromOrdinalToOrdinal | src/garmer/extractors/base.py:134-137 | a valid date turned into its day number and back is the same date |
| Calendar.OrdinalInRange | src/garmer/extractors/base.py:134-137 | every valid date has a day number between those of 0001-01-01 and 9999-12-31, inside its own year |
| Calendar.DaysBeforeNextYear | src/garmer/extractors/base.py:134-137 | the Gregorian count of days before a year grows by that year's length, 366 in a leap year |
| Calendar.MakeDate | src/garmer/models/base.py:48-51 | date(y, m, d) is built exactly when it is a real calendar date |
| Calendar.ParseYmd | src/garmer/extractors/base.py:87-98 | strptime "%Y-%m-%d" only ever yields real dates |
| Calendar.IsoFormat | src/garmer/extractors/base.py:85 | isoformat() writes ten characters, with dashes at positions 4 and 7 |
| Calendar.ParseYmdOfIsoFormat | src/garmer/extractors/base.py:87-98 | strptime "%Y-%m-%d" reads back every date isoformat() writes |
| Calendar.FromIsoFormatOfIsoFormat | src/garmer/models/user.py:86 | date.fromisoformat reads back every date isoformat() writes |
| Calendar.ParsersAgree | src/garmer/extractors/base.py:87-98 | on text date.fromisoformat accepts, strptime "%Y-%m-%d" gives the same date |
| ExtractorBase.FourDigitYear | src/garmer/extractors/base.py:82-85 | from year 1000 to 9999, strftime's unpadded year and isoformat's four-digit year are the same text |
| ExtractorBase.FormattedDateReadsBack | src/garmer/extractors/base.py:70-85 | a string is passed through untouched; a date, or a datetime from year 1000 on, becomes YYYY-MM-DD, which both date parsers read back as the same day |
| ExtractorBase.FormatDate | src/garmer/extractors/base.py:70-85 | text is passed through untouched; a date or datetime is written with a dash before its month and its day |
| ExtractorBase.GetDateRange | src/garmer/extractors/base.py:100-117 | the start is formatted; a missing or falsy end means the start, any other end is formatted |
| ExtractorBase.Days | src/garmer/extractors/base.py:119-137 | the days the iterator is meant to yield: start, start + 1, …, end, and none when start > end |
| ExtractorBase.DaysSnoc | src/garmer/extractors/base.py:134-137 | one more step of the iterator adds the next day at the end |
| ExtractorBase.KeptSnoc | src/garmer/extractors/base.py:181-188 | one more day adds that day's data to the results, if it gave any |
| ExtractorBase.KeptAppend | src/garmer/extractors/base.py:180-190 | the results of two consecutive stretches of days are those of the first, then those of the second |
| ExtractorBase.KeptMembers | src/garmer/extractors/base.py:180-190 | a value is in the results exactly when some day of the range returned it |
| ExtractorBase.KeptAll | src/garmer/extractors/base.py:180-190 | when every day returns data, the results hold one value per day, in day order |
| ExtractorBase.KeptStep | src/garmer/extractors/base.py:181-188 | the results up to a day are the results up to the day before, plus that day's data |
| ExtractorBase.WalkRange | src/garmer/extractors/base.py:180-190 | the loop as intended returns exactly the data of every day from start to end, in order, skipping days that gave none or raised |
| ExtractorBase.WalkRangeAsWritten | src/garmer/extractors/base.py:134-137 | the loop as written: the iterator stepping past 9999-12-31 raises OverflowError outside the per-day try |
| ExtractorBase.RangeAsWritten | src/garmer/extractors/base.py:134-137 | as written: a non-empty range ending on 9999-12-31 raises OverflowError; any other range gives the data of its days |
| ExtractorBase.LastDayRaises | src/garmer/extractors/base.py:134-137 | a one-day range on 9999-12-31 that finds data raises OverflowError instead of returning that data |
| ExtractorBase.WalksAgreeBeforeLastDay | src/garmer/extractors/base.py:180-190 | when the range does not end on 9999-12-31, the walk as written gives the intended results |
| ExtractorBase.DayOf | src/garmer/extractors/base.py:165-177 | a date or datetime stands for its own day; text is read with strptime, and text that does not parse raises ValueError |
| ExtractorBase.GetForDateRange | src/garmer/extractors/base.py:152-190 | as intended (the walk stops after the end day): it raises (ValueError) exactly when one end is text that does not parse; otherwise it returns the data of every day between the two ends |
| ExtractorBase.GetLastNDays | src/garmer/extractors/base.py:200-212 | as intended (the walk stops after the end day): it raises OverflowError exactly when n - 1 days before today is not a date; otherwise it returns the data of the days from then to today |
| ExtractorBase.LastNDaysWindow | src/garmer/extractors/base.py:210-212 | for positive n the window holds exactly n days, ending today; otherwise it is empty |
| ExtractorBase.GetForDate | src/garmer/extractors/steps.py:29-40 | data comes back exactly when the request succeeds with a truthy response that the record accepts; any exception means none |
| ExtractorBase.FirstOfList | src/garmer/extractors/stress.py:36-37 | the first entry exists exactly when the response is a non-empty list |
| Seqs.FilterMembers | src/garmer/models/stress.py:163 | a list comprehension with a condition keeps exactly the elements that pass, and never more than it was given |
| Seqs.FilterAppend | src/garmer/models/stress.py:163 | filtering keeps relative order: filtering a concatenation concatenates the filtered parts |
| Seqs.SumAppend | src/garmer/extractors/steps.py:112 | sum() over a concatenation is the sum of the sums |
| Seqs.MaxMinBound | src/garmer/extractors/steps.py:121-122 | max() and min() of a non-empty list are elements of it and bound every element |
| Seqs.MeanBetweenMinMax | src/garmer/extractors/steps.py:120-122 | the average of a non-empty list lies between its min() and max() |
| Seqs.MeanRealBetweenMinMax | src/garmer/extractors/body.py:211-219 | the same for lists of floats |
| Seqs.TruthyIntsMembers | src/garmer/extractors/sleep.py:95 | [v for v in xs if v] keeps exactly the present non-zero values, never more than given |
| Seqs.TruthyIntsEmpty | src/garmer/extractors/sleep.py:95 | that list is empty exactly when every value is None or 0 |
| Seqs.PresentMembers | src/garmer/extractors/daily.py:133-137 | [v for v in xs if v is not None] keeps exactly the present values, zeros included, and is empty exactly when all are None |
| Seqs.Count | src/garmer/extractors/steps.py:115 | sum(1 for x in xs if p(x)) lies between 0 and the length of the list |
| Seqs.MapTotalUpdate | scripts/moltbot_integration.py:169-190 | updating one entry of a per-key tally changes the total by the difference |
| Seqs.RoundHalfEven | scripts/moltbot_integration.py:256-257 | round(x) is within a half of x and takes the even integer on a tie |
| Seqs.Round1 | scripts/moltbot_integration.py:253-255 | round(x, 1) is within 0.05 of x |
| StepsExtractor.GetForDate | src/garmer/extractors/steps.py:20-40 | a failed request gives None; a day comes back exactly when the request succeeds with a truthy response the record accepts, and it is that record |
| StepsExtractor.GetTotalSteps | src/garmer/extractors/steps.py:42-56 | the day's total steps when get_for_date finds the day, else None |
| StepsExtractor.DailyTotals | src/garmer/extractors/steps.py:114 | one total per day, in day order |
| StepsExtractor.StepsStatsMeaning | src/garmer/extractors/steps.py:85-126 | no days gives all zeros; otherwise the total is the sum of the daily totals, the largest and smallest day are daily totals bounding every day, the average lies between them, and the days reaching the goal are at most all days, so their percentage is in [0, 100] |
| StepsExtractor.GetStepsStats | src/garmer/extractors/steps.py:85-126 | one entry per day, the days kept as given; a goal percentage exactly when there are days |
| StepsExtractor.GoalDaysCounted | src/garmer/extractors/steps.py:115 | one more day adds one to the goal count exactly when its total reaches its own goal |
| SleepExtractor.GetForDate | src/garmer/extractors/sleep.py:20-44 | a failed request, the username lookup included, gives None; a night comes back exactly when the request succeeds with a truthy response the record accepts |
| SleepExtractor.TotalSeconds | src/garmer/extractors/sleep.py:89 | one total sleep duration per night, in order |
| SleepExtractor.DeepSeconds | src/garmer/extractors/sleep.py:90 | one deep sleep duration per night, in order |
| SleepExtractor.RemSeconds | src/garmer/extractors/sleep.py:91 | one REM sleep duration per night, in order |
| SleepExtractor.OverallScores | src/garmer/extractors/sleep.py:95 | one overall score per night, absent where the night has none |
| SleepExtractor.SleepHeartRates | src/garmer/extractors/sleep.py:98 | one sleeping heart rate per night, absent where the night has none |
| SleepExtractor.SleepStatsHours | src/garmer/extractors/sleep.py:62-109 | no nights gives zero hours and no score or heart rate; otherwise each average in hours, times 3600 and the number of nights, gives back the summed seconds |
| SleepExtractor.GetSleepStats | src/garmer/extractors/sleep.py:62-109 | one entry per night, the nights kept as given; an average score or heart rate only when there are nights |
| SleepExtractor.TruthyAverage | src/garmer/extractors/sleep.py:95-106 | the average of the truthy values is None exactly when every value is None or 0, and otherwise lies between the smallest and largest of them |
| SleepExtractor.SleepStatsAverages | src/garmer/extractors/sleep.py:95-106 | the average score uses only nights with a non-zero score and the heart rate only nights with a non-zero rate; each is None exactly when no night has one |
| HeartRateExtractor.GetForDate | src/garmer/extractors/heart_rate.py:20-40 | a failed request gives None; a day comes back exactly when the request succeeds with a truthy response the record accepts, and it is that record |
| HeartRateExtractor.GetRestingHeartRate | src/garmer/extractors/heart_rate.py:42-56 | the day's resting rate when get_for_date finds the day, else None |
| HeartRateExtractor.TimedRatesMembers | src/garmer/extractors/heart_rate.py:75-79 | a (time, rate) pair is in the series exactly when a sample carries that time and rate and the rate is positive; the series is never longer than the samples |
| HeartRateExtractor.TimedRatesAppend | src/garmer/extractors/heart_rate.py:75-79 | the series keeps the order of the samples |
| HeartRateExtractor.GetHeartRateTimeseries | src/garmer/extractors/heart_rate.py:58-79 | no record gives an empty series; otherwise it is the series of the record's samples |
| HeartRateExtractor.TrendMembers | src/garmer/extractors/heart_rate.py:95-99 | a (date, rate) pair is in the trend exactly when some record with that non-empty date carries that resting rate |
| HeartRateExtractor.GetRestingHrTrend | src/garmer/extractors/heart_rate.py:81-99 | as intended (the walk stops after the end day): it raises exactly when the window start is not a date; otherwise it is the trend of the records of the last n days |
| HeartRateExtractor.RestingRates | src/garmer/extractors/heart_rate.py:127 | one resting rate per day, in order |
| HeartRateExtractor.MaxRates | src/garmer/extractors/heart_rate.py:128 | one maximum rate per day, in order |
| HeartRateExtractor.HeartRateStatsMeaning | src/garmer/extractors/heart_rate.py:101-137 | no days gives None everywhere; the resting average, minimum and maximum are present together, exactly when some day has a non-zero resting rate, and then min and max are such rates, bound them all and enclose the average; the average maximum is None exactly when no day has a non-zero maximum |
| HeartRateExtractor.GetHeartRateStats | src/garmer/extractors/heart_rate.py:101-137 | one entry per day, the days kept as given; an average only when there are days |
| StressExtractor.GetForDate | src/garmer/extractors/stress.py:20-41 | a day comes back exactly when the response is a non-empty list whose first element the record accepts, and it is that record |
| StressExtractor.TimedLevelsMembers | src/garmer/extractors/stress.py:60-64 | a (time, level) pair is in the series exactly when a sample carries that time and level and the level is not negative |
| StressExtractor.TimedLevelsAppend | src/garmer/extractors/stress.py:60-64 | the series keeps the order of the samples |
| StressExtractor.GetStressTimeseries | src/garmer/extractors/stress.py:43-64 | no record gives an empty series; otherwise it is the series of the record's samples |
| StressExtractor.AverageLevels | src/garmer/extractors/stress.py:91 | one average level per day, in order |
| StressExtractor.RestSeconds | src/garmer/extractors/stress.py:92 | one rest duration per day, in order |
| StressExtractor.HighSeconds | src/garmer/extractors/stress.py:93 | one high-stress duration per day, in order |
| StressExtractor.StressStatsHours | src/garmer/extractors/stress.py:66-102 | no days gives zero hours and no level; otherwise the rest and high-stress hours, times 3600 and the number of days, give back the summed durations |
| StressExtractor.GetStressStats | src/garmer/extractors/stress.py:66-102 | one entry per day, the days kept as given; an average level only when there are days |
| StressExtractor.StressStatsLevel | src/garmer/extractors/stress.py:91-98 | the average level is None exactly when no day has a non-zero level, and otherwise lies between the smallest and largest such level |
| StressExtractor.GetBodyBattery | src/garmer/extractors/stress.py:104-131 | the first element of a non-empty list response, as sent, unless it is null; a failed request, a null first element or any other response gives None |
| DailyExtractor.GetForDate | src/garmer/extractors/daily.py:20-40 | a failed request gives None; a day comes back exactly when the request succeeds with a truthy response the record accepts, and it is that record |
| DailyExtractor.AvgMeaning | src/garmer/extractors/daily.py:133-137 | _avg is None exactly when every value is None, and otherwise lies between the smallest and largest present value, zeros included |
| DailyExtractor.ZeroIsAveraged | src/garmer/extractors/daily.py:135-137 | a recorded 0 counts: [0, 10] averages to 5 and [None, 0] to 0 |
| DailyExtractor.StepColumn | src/garmer/extractors/daily.py:75 | one step total per day, in order |
| DailyExtractor.CalorieColumn | src/garmer/extractors/daily.py:77 | one calorie total per day, in order |
| DailyExtractor.ActiveCalorieColumn | src/garmer/extractors/daily.py:78 | one active-calorie total per day, in order |
| DailyExtractor.DistanceColumn | src/garmer/extractors/daily.py:79 | one distance per day, in order |
| DailyExtractor.FloorColumn | src/garmer/extractors/daily.py:82 | one floor count per day, in order |
| DailyExtractor.IntensityColumn | src/garmer/extractors/daily.py:83-86 | one moderate + 2 × vigorous figure per day, in order |
| DailyExtractor.ModerateColumn | src/garmer/extractors/daily.py:84 | one moderate-minutes figure per day, in order |
| DailyExtractor.VigorousColumn | src/garmer/extractors/daily.py:84 | one vigorous-minutes figure per day, in order |
| DailyExtractor.RestingColumn | src/garmer/extractors/daily.py:80 | one resting heart rate per day, in order |
| DailyExtractor.StressColumn | src/garmer/extractors/daily.py:81 | one average stress level per day, in order |
| DailyExtractor.IntensitySplits | src/garmer/extractors/daily.py:83-86 | the range's intensity minutes are its moderate minutes plus twice its vigorous minutes |
| DailyExtractor.WeeklyMeaning | src/garmer/extractors/daily.py:70-88 | an empty range gives only days_with_data 0; otherwise the kilometres are the summed metres over 1000, the intensity minutes count vigorous minutes twice, and the heart rate and stress are _avg of the days |
| DailyExtractor.WeeklyAverageSteps | src/garmer/extractors/daily.py:75-76 | the average steps times the number of days is the total |
| DailyExtractor.MonthlyAgreesWithWeekly | src/garmer/extractors/daily.py:117-131 | over the same days the monthly aggregate agrees with the weekly one on every figure they share, and carries the year and month |
| DailyExtractor.WeekWindowMeaning | src/garmer/extractors/daily.py:55-66 | the week holds seven days; without week_start it starts on a Monday and contains today, and fails only in the last days of 9999; week_start text that does not parse raises ValueError |
| DailyExtractor.MonthWindowMeaning | src/garmer/extractors/daily.py:104-113 | the window runs from the first to the last day of the month and holds as many days as the month has |
| DailyExtractor.MonthWindowErrors | src/garmer/extractors/daily.py:104-113 | a falsy year or month means today's; the month raises ValueError exactly when its first day is not a date or it is December 9999 |
| DailyExtractor.WeekWindow | src/garmer/extractors/daily.py:55-66 | as intended: a week of seven representable days; it fails only with ValueError or OverflowError |
| DailyExtractor.MonthWindow | src/garmer/extractors/daily.py:104-114 | as intended: the month of the given (truthy) year and month starts on its first day, a valid date; it fails only with ValueError |
| DailyExtractor.WeeklySummaryAsWritten | src/garmer/extractors/daily.py:55-66 | as written: it always raises, ValueError only for week_start text, otherwise AttributeError |
| DailyExtractor.MonthlySummaryAsWritten | src/garmer/extractors/daily.py:104-114 | as written: it always raises, with ValueError or AttributeError |
| DailyExtractor.GetWeeklySummary | src/garmer/extractors/daily.py:42-88 | as intended: it fails exactly when the week does, and otherwise aggregates the summaries of the week's days |
| DailyExtractor.GetMonthlySummary | src/garmer/extractors/daily.py:90-131 | as intended: it fails (ValueError) exactly when the month does, and otherwise aggregates the summaries of the month's days |
| DailyExtractor.SummariesAlwaysRaise | src/garmer/extractors/daily.py:55-114 | as written, neither summary ever returns: where the intended window fails on a date that does not exist (week_start text, the month, December 9999) the code raises the same ValueError, and everywhere else AttributeError, including the week that would overflow |
| BodyExtractor.Subscript | src/garmer/extractors/body.py:72 | x[key] succeeds exactly on a dict holding the key, and is then its value; a dict without it raises KeyError |
| BodyExtractor.FirstItem | src/garmer/extractors/body.py:45 | x[0] of a non-empty list is its first item; it succeeds only on a non-empty list or string |
| BodyExtractor.Summaries | src/garmer/extractors/body.py:43 | the summaries are found exactly when the response is a dict holding "dailyWeightSummaries" |
| BodyExtractor.GetForDate | src/garmer/extractors/body.py:20-49 | a composition comes back exactly when the summaries are a non-empty list whose first entry parses, and it is that entry |
| BodyExtractor.GetWeightForDate | src/garmer/extractors/body.py:51-77 | a weight comes back only from a truthy totalAverage whose weight int() accepts, and carries only the requested date and those grams; a falsy totalAverage gives None |
| BodyExtractor.GetWeightRange | src/garmer/extractors/body.py:79-113 | no summaries key gives [] |
| BodyExtractor.WeightRangeOnePerSummary | src/garmer/extractors/body.py:105-112 | summaries that all parse give one weight per summary, in order; one that raises empties the whole result |
| BodyExtractor.WeightOf | src/garmer/extractors/body.py:127 | a weight parses only from a dict |
| BodyExtractor.GetLatestWeight | src/garmer/extractors/body.py:115-131 | a weight comes back exactly when the request succeeds with a truthy dict that parses |
| BodyExtractor.GetHydrationForDate | src/garmer/extractors/body.py:133-157 | a day comes back exactly when the response is a non-empty list whose first element parses, and it is that element |
| BodyExtractor.GetRespirationForDate | src/garmer/extractors/body.py:159-182 | a day comes back exactly when the request succeeds with a truthy response the record accepts |
| BodyExtractor.Kilograms | src/garmer/extractors/body.py:211 | one weight in kilograms per measurement, in order |
| BodyExtractor.WeightStatsMeaning | src/garmer/extractors/body.py:184-222 | no weights gives no statistic; otherwise start and end are the first and last measurements, the change leads from one to the other, and min and max are measurements bounding every one and the average |
| BodyExtractor.GetWeightStats | src/garmer/extractors/body.py:184-222 | one entry per measurement, the weights kept as given; a start weight exactly when there are measurements |
| ActivitiesExtractor.ActivityFromElement | src/garmer/extractors/activities.py:53 | one element parses to exactly the activity the record builds from it, and raises exactly when the record refuses it |
| ActivitiesExtractor.ActivityList | src/garmer/extractors/activities.py:91-103 | a failed request or a falsy response gives [] |
| ActivitiesExtractor.ActivityListOnePerElement | src/garmer/extractors/activities.py:100-101 | elements that all parse give one activity per element, in order; one that raises empties the result |
| ActivitiesExtractor.GetActivitiesForDate | src/garmer/extractors/activities.py:30-58 | a failed request gives [] |
| ActivitiesExtractor.GetForDate | src/garmer/extractors/activities.py:21-28 | None exactly when the day has no activities, otherwise the first of them |
| ActivitiesExtractor.GetActivityById | src/garmer/extractors/activities.py:117-136 | an activity comes back exactly when the request succeeds with a truthy response the record accepts |
| ActivitiesExtractor.ParamsMeaning | src/garmer/extractors/activities.py:82-92 | limit and start (the offset) are always sent; startDate, endDate and activityType exactly when given and truthy, the dates formatted by _format_date; nothing else |
| ActivitiesExtractor.BuildParams | src/garmer/extractors/activities.py:82-92 | the parameter dict filled step by step is the one ParamsMeaning describes |
| ActivitiesExtractor.GetActivities | src/garmer/extractors/activities.py:60-103 | the activities are the parsed response to exactly those parameters |
| ActivitiesExtractor.GetRecentActivities | src/garmer/extractors/activities.py:105-115 | the request sends exactly {"limit": n, "start": 0} |
| ActivitiesExtractor.GetActivityLaps | src/garmer/extractors/activities.py:157-176 | a response that is not a dict holding "lapDTOs" gives [] |
| ActivitiesExtractor.LapsOnePerEntry | src/garmer/extractors/activities.py:172 | laps that all parse give one Lap per entry, in order; one that raises empties the result |
| ActivitiesExtractor.TypeFilterSnoc | src/garmer/extractors/activities.py:258-263 | appending one activity appends it to its own type's group only |
| ActivitiesExtractor.GroupByTypeMeaning | src/garmer/extractors/activities.py:257-263 | a type is a key exactly when some activity has it, and its group is the activities of that type in list order |
| ActivitiesExtractor.Distances | src/garmer/extractors/activities.py:252 | one distance per activity, in order |
| ActivitiesExtractor.Durations | src/garmer/extractors/activities.py:253 | one duration per activity, in order |
| ActivitiesExtractor.Calories | src/garmer/extractors/activities.py:254 | one calorie figure per activity, in order |
| ActivitiesExtractor.WeeklySummary | src/garmer/extractors/activities.py:251-276 | the count, the kilometres (metres / 1000), hours (seconds / 3600) and calories of the activities; a type is counted exactly when some activity has it, with the number of activities of that type |
| Auth.TokenStore.constructor | src/garmer/auth.py:54-57 | the token file starts present or absent as given |
| Auth.GarminAuth.constructor | src/garmer/auth.py:37-52 | a falsy directory or file name falls back to ~/.garmer and "garmin_tokens"; a new handler is not authenticated |
| Auth.GarminAuth.TokenPath | src/garmer/auth.py:54-57 | an absolute token file name is the path on its own; otherwise the path is the directory, a separator, then the file name |
| Auth.GarminAuth.SaveTokens | src/garmer/auth.py:100-111 | the file exists afterwards when it existed or the write succeeded; every failure is swallowed and the flag is untouched |
| Auth.GarminAuth.Login | src/garmer/auth.py:64-98 | it answers true and sets the flag exactly when the library login succeeds, saving the tokens when asked; any failure becomes AuthenticationError and changes nothing |
| Auth.GarminAuth.LoadTokens | src/garmer/auth.py:113-134 | it answers true exactly when the token file exists and the session resumes, and then sets the flag |
| Auth.GarminAuth.Logout | src/garmer/auth.py:136-150 | the handler is unauthenticated afterwards; the file is gone when deletion was asked for and worked |
| Auth.GarminAuth.EnsureAuthenticated | src/garmer/auth.py:152-169 | an authenticated handler succeeds; otherwise it succeeds exactly when the saved tokens load, else AuthenticationError; afterwards the flag holds exactly when it succeeded |
| Auth.GarminAuth.RefreshIfNeeded | src/garmer/auth.py:171-187 | it always answers true and never changes the flag, saving the tokens when authenticated |
| Auth.GarminAuth.GetClient | src/garmer/auth.py:189-200 | the client is handed out exactly when authentication succeeds, else AuthenticationError |
| Auth.GarminAuth.Request | src/garmer/auth.py:202-242 | without authentication it raises AuthenticationError; a 401 clears the flag and raises SessionExpiredError; any other HTTP, garth or other failure passes through and keeps the flag; success returns the response |
| Auth.CreateAuth | src/garmer/auth.py:245-284 | the saved tokens are tried first, then a login when asked and both credentials are truthy; it raises AuthenticationError exactly when neither worked and the login was tried, and otherwise the handler is authenticated exactly when one of them worked |
| Client.FromSavedTokens | src/garmer/client.py:114-137 | a client comes back exactly when the saved tokens exist and the session resumes, and it is authenticated; otherwise AuthenticationError |
| Client.DateText | src/garmer/client.py:431 | str() of text is the text, of a date its YYYY-MM-DD form |
| Client.Entry | src/garmer/client.py:435-515 | a domain's entry is filled exactly when its getter returned a record, with that record's reading; a None or a raise leaves it None |
| Client.SnapshotDate | src/garmer/client.py:422-431 | a missing or falsy target date means today, written as YYYY-MM-DD; otherwise the target as str() writes it |
| Client.GetHealthSnapshot | src/garmer/client.py:406-517 | the snapshot filled key by key is the one SnapshotOf describes for the target date and the fetch outcomes |
| Client.Fail | src/garmer/client.py:435-515 | a domain whose getter raised delivers nothing |
| Client.Clear | src/garmer/client.py:424-433 | a domain's key set back to None is not filled |
| Client.SnapshotKeys | src/garmer/client.py:424-515 | the date is always there; a domain's key is filled exactly when its getter returned a record, with that record's reading (goal reached when steps reach the goal) |
| Client.FailureContained | src/garmer/client.py:435-515 | when one domain raises, the snapshot is the one the other outcomes give with that key at None; every other key is unaffected |
| Client.TypeKeys | src/garmer/client.py:554 | a type is listed exactly when some activity has it |
| Client.GetWeeklyHealthReport | src/garmer/client.py:519-606 | as intended (the walk stops after the end day): it raises OverflowError exactly when six days before today is not a date; otherwise the report is that of the week's activities (one request, limit 100) and the four range statistics |
| Client.ReportMeaning | src/garmer/client.py:526-555 | the period is seven days, today - 6 to today, as YYYY-MM-DD; the activities entry is None exactly when none came back, and otherwise counts them, sums their hours, kilometres and calories and names exactly their types |
| Client.ReportStatistics | src/garmer/client.py:559-604 | the sleep entry counts the nights with data, the steps total is the sum of the daily totals, and the resting heart rate range is present together with, and encloses, its average |
| Client.RangeOrEmpty | src/garmer/client.py:644-664 | as intended (the walk stops after the end day): a range fetch whose date text does not parse exports []; otherwise it exports the data of every day of the range |
| Client.ExportData | src/garmer/client.py:608-666 | as intended (the walk stops after the end day): the period is str() of both ends; a part has a key exactly when it was asked for; activities come from one request with limit 1000, sleep and daily summaries from range walks, and a part that raises is [] |
| Moltbot.StepsBlock | scripts/moltbot_integration.py:70-82 | the steps block gives the steps metric and appends exactly the steps insights |
| Moltbot.SleepBlock | scripts/moltbot_integration.py:84-97 | the sleep block gives the sleep metric and appends exactly the sleep insights |
| Moltbot.HeartRateBlock | scripts/moltbot_integration.py:99-108 | the heart rate block gives its metric and appends exactly its insight |
| Moltbot.StressBlock | scripts/moltbot_integration.py:110-121 | the stress block gives its metric and appends exactly its insights |
| Moltbot.HydrationBlock | scripts/moltbot_integration.py:123-132 | the hydration block gives its metric and appends exactly its insight |
| Moltbot.Summarize | scripts/moltbot_integration.py:63-134 | the summary built block by block is the one SummaryOf describes |
| Moltbot.SummaryOf | scripts/moltbot_integration.py:63-134 | the summary carries the snapshot's date, a steps or sleep metric exactly when that reading exists, and no insight without readings |
| Moltbot.InsightSource | scripts/moltbot_integration.py:70-132 | an insight is in the summary exactly when its own block adds it; no block adds another block's insight |
| Moltbot.StepsRules | scripts/moltbot_integration.py:71-82 | the percentage is 0 without a goal, and with a positive goal reaches 100 exactly when the goal is reached; at most one steps insight: "below 50%" exactly when under half the goal, otherwise "achieved" exactly when the goal was reached |
| Moltbot.SleepRules | scripts/moltbot_integration.py:85-97 | "duration below" exactly under 6 hours of sleep, "quality below average" exactly for a non-zero score under 70; none without a sleep record |
| Moltbot.HeartRateRule | scripts/moltbot_integration.py:100-108 | "resting heart rate is elevated" exactly for a resting rate over 80 |
| Moltbot.StressLevelRule | scripts/moltbot_integration.py:118-119 | "average stress level is elevated" exactly for a non-zero average over 50 |
| Moltbot.StressHoursRule | scripts/moltbot_integration.py:120-121 | "extended periods of high stress" exactly for more than 4 hours of high stress |
| Moltbot.HydrationRule | scripts/moltbot_integration.py:124-132 | "hydration below 50%" exactly under half the goal |
| Moltbot.TotalsOf | scripts/moltbot_integration.py:186-188 | the totals count every activity |
| Moltbot.AnalyzeActivities | scripts/moltbot_integration.py:156-214 | the one-pass loop over the activities gives exactly the insights ActivityInsightsOf describes |
| Moltbot.ActivityInsightsOf | scripts/moltbot_integration.py:156-214 | the period and the activity count, which the totals agree with; no breakdown rows without activities |
| Moltbot.OfType | scripts/moltbot_integration.py:171-184 | the activities of a type are activities of the list with that type |
| Moltbot.BreakdownSnoc | scripts/moltbot_integration.py:170-184 | one more activity changes only its own type's row, created on first sight |
| Moltbot.BreakdownKeys | scripts/moltbot_integration.py:173-179 | a type has a row exactly when some activity has that type |
| Moltbot.BreakdownAbsent | scripts/moltbot_integration.py:173-179 | a type without a row has no activities |
| Moltbot.BreakdownRows | scripts/moltbot_integration.py:181-184 | a type's row holds the totals of exactly the activities of that type |
| Moltbot.BreakdownSums | scripts/moltbot_integration.py:181-188 | the rows add up to the overall figures: counts to the number of activities, and hours, kilometres and calories to the totals |
| Moltbot.RecommendationRules | scripts/moltbot_integration.py:193-212 | the WHO warning exactly under 2.5 hours, "excellent" exactly from 5 hours, "no activities" exactly for an empty period, which gets only the WHO warning besides |
| Moltbot.SingleType | scripts/moltbot_integration.py:204 | the table has exactly one row exactly when there are activities and they all share one type |
| Moltbot.VarietyRule | scripts/moltbot_integration.py:204-207 | the variety hint is given exactly when there are activities and they all share one type |
| Moltbot.AnalyzeSleep | scripts/moltbot_integration.py:232-275 | the analysis of the nights is exactly what SleepTrendsOf describes |
| Moltbot.SleepTrendsOf | scripts/moltbot_integration.py:232-275 | the period and one night counted per night; averages exactly when there are nights; one recommendation per trend, plus the no-data one |
| Moltbot.SleepTrendRules | scripts/moltbot_integration.py:240-275 | no nights gives only the "no data" recommendation; otherwise the rounded average is within 0.05 hours of the true one, "below 7-9 hours" exactly when it is under 7, and "deep sleep below optimal" exactly under 15 % deep sleep (always when nothing was slept), each with its recommendation |
| Moltbot.Integration.constructor | scripts/moltbot_integration.py:24-32 | the integration keeps the client it was given, if any |
| Moltbot.Integration.GetClient | scripts/moltbot_integration.py:34-43 | a client already held is returned unchanged; otherwise one comes from the saved tokens exactly when they exist and resume, and is kept; else RuntimeError and no client |
| Moltbot.Integration.IsConnected | scripts/moltbot_integration.py:45-51 | connected exactly when a client is held or can be had from the saved tokens, and then it is held |
| Moltbot.Integration.GetHealthSummary | scripts/moltbot_integration.py:53-134 | RuntimeError exactly when no client can be had; otherwise the summary of today's snapshot |
| Moltbot.Integration.GetActivityInsights | scripts/moltbot_integration.py:136-214 | RuntimeError when no client can be had; otherwise the insights of the window from days - 1 days before today |
| Moltbot.Integration.GetSleepTrends | scripts/moltbot_integration.py:216-275 | as intended (the walk stops after the end day): RuntimeError when no client can be had; otherwise the trends of the window from days - 1 days before today |
| Moltbot.InsightsOfWindow | scripts/moltbot_integration.py:147-154 | a window start that is not a date raises OverflowError; otherwise the insights of the window's activities |
| Moltbot.AnalyzeWindow | scripts/moltbot_integration.py:150-214 | one request for the window with limit 100, then the analysis |
| Moltbot.TrendsOfWindow | scripts/moltbot_integration.py:227-230 | as intended (the walk stops after the end day): a window start that is not a date raises OverflowError; otherwise the trends of the window's nights |
| Moltbot.TrendsOfNights | scripts/moltbot_integration.py:230-275 | as intended (the walk stops after the end day): the range walk over the window, then the analysis |
| ExtractorBase.Kept | src/garmer/extractors/base.py:180-190 | the results are never more than the days walked |

## Left out

- HTTP, the garth OAuth library, the filesystem, logging and the clock: each request or library call is an outcome passed in as an argument, and `date.today()` is a parameter.
- `GarminClient` is modelled through the `GarminAuth` it holds. Its one-line passthrough getters (`get_sleep`, `get_steps`, …) are the extractor functions they call.
- `cli.py` and `extractors/user.py` are not part of this model (command-line formatting and a thin profile fetch).
- `format_for_chat`, `get_daily_briefing` and `moltbot_health_query_handler` are left out: they only format strings and call `json.dumps`.
- The extractor conveniences `get_today` and `get_yesterday` are left out: each is `get_for_date` on today or the day before, with today a parameter.
- The steps extractor's `get_steps_timeseries`, `get_weekly_steps`, `get_floors` and `get_intensity_minutes`, and the sleep extractor's `get_sleep_details` and `get_weekly_sleep`, are outside the modelled core.
- `get_activity_details`, `get_activity_hr_zones` and `get_activities_by_type` are left out: the first two return the response as sent, and the third is `get_activities` with a type filter.
- The activities extractor's `get_weekly_summary`: only its aggregation is modelled (`ActivitiesExtractor.WeeklySummary`). Its window has the same `datetime.timedelta` defect as the daily summaries.
- Pydantic's lax coercion of numeric strings ("42" accepted as an int field) is left out: a string is refused where a number is expected.
- Pydantic's coercion of strings into date and datetime fields is left out; such fields hold the text or the parsed value the code itself produces.
- `UserProfile.registration_date` is not modelled: it is parsed with `datetime.fromisoformat`, whose time-of-day grammar is outside the model.
- The fields that `from_garmin_response` never sets keep their defaults and are not represented: the activity's laps, splits and device name; the sleep record's raw `sleep_score`; `raw_data`.
- Local-time conversion in `datetime.fromtimestamp` is left out: an instant is its seconds since the epoch.
- ModelBase.ParseTimestamp: the bounds of years 1 to 9999 are taken in UTC, not shifted by the local time zone; every out-of-range instant raises ValueError, where CPython raises OverflowError or OSError for some magnitudes and platforms.
- Json.ParseInt: non-ASCII decimal digits, which `int()` also reads, are refused.
- Calendar.ParseYmd: the non-ASCII digits that strptime's `\d` also matches are refused.
- UserModel.BirthDateOf: pydantic's coercion of an integer Unix timestamp that falls on midnight into a date is left out; every birthDate that is neither a string nor null is refused.
- Auth.GarminAuth.TokenPath: pathlib's normalisation (doubled or trailing separators, `.` components) is not modelled; the path is the textual join.
- The time part that `str()` gives a `datetime` argument is left out: `Client.DateText` writes a date as YYYY-MM-DD.
- `to_dict`'s rendering of datetimes and floats as JSON text is left out; only the dropping of `None` fields is modelled.
- The platform `strftime` of years before 1000 (which glibc does not zero-pad) is left out: `ExtractorBase.FormattedDateReadsBack` states the round trip from year 1000 on.
- Floating point is modelled by exact reals: sums, quotients, `round()` and `round(x, 1)` carry no binary rounding error.
- ActivityModel.PyStr: `str()` of a float or a list used as an activity type is rendered as "" rather than Python's text.
- HeartRateModel.NumberText: `str()` of a float zone number of 1e16 or more is rendered in positional form rather than Python's exponent form.
- SleepModel.Lower: `str.lower()` is modelled on ASCII letters only; other Unicode case mappings are left out.
- Calendar.FromIsoFormat: `date.fromisoformat` is modelled for the YYYY-MM-DD form only; the other ISO 8601 forms it accepts since Python 3.11 are read as malformed.
- Client.TypeKeys: `list(set(...))` has an unspecified order, so the model keeps the set of type keys.
- Json.Elements: iterating a dict yields placeholder strings rather than its keys, because map key order is not observable; every consumer only checks the kind of each element.

## Findings

| source | as written | input that shows it | evidently intended | confidence | as-written member | corrected member |
|---|---|---|---|---|---|---|
| src/garmer/extractors/base.py:134-137 | `_date_range_iterator` adds a day after yielding the last one, outside the per-day `try` of `get_for_date_range` (lines 180-190) | a range ending on 9999-12-31, e.g. `get_for_date_range(date.max, date.max)`: `date.max + timedelta(days=1)` raises OverflowError, and the data already fetched is lost | the walk stops after the end day and returns the data of every day | not executed | ExtractorBase.LastDayRaises | ExtractorBase.WalkRange |
| src/garmer/extractors/daily.py:57-66 | `datetime.timedelta(...)`, where `datetime` is the class imported from the module, which has no `timedelta` attribute (also lines 112 and 114, activities.py:238 and 248, steps.py:136 and sleep.py:119; client.py:358-360 passes the daily summary through) | any call, e.g. `get_weekly_summary(date(2024, 1, 1))`: line 66 raises AttributeError | `timedelta(days=6)`: the week or month is aggregated | not executed | DailyExtractor.SummariesAlwaysRaise | DailyExtractor.GetWeeklySummary |
