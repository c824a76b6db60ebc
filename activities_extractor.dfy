/** Activity lists, single activities, laps and the weekly activity
    summary (src/garmer/extractors/activities.py). */
module ActivitiesExtractor {
  import opened Json
  import opened Seqs
  import ExtractorBase
  import opened ActivityModel

  /** Activity.from_garmin_response on one element of a response list. */
  function ActivityFromElement(j: Json): (r: Result<Option<Activity>>)
    ensures r.Ok? ==> r.value.Some? && FromResponse(j) == Ok(r.value.value)
    ensures r.Err? <==> FromResponse(j).Err?
  {
    var a :- FromResponse(j);
    Ok(Some(a))
  }

  /** [Activity.from_garmin_response(a) for a in response] inside the
      fetchers' try: [] when the request fails, the response is falsy, it
      cannot be iterated, or any element raises. */
  function ActivityList(response: Result<Json>): (r: seq<Activity>)
    ensures response.Err? || !Truthy(response.value) ==> r == []
  {
    if response.Err? || !Truthy(response.value) then []
    else
      match Elements(response.value)
      case Err(_) => []
      case Ok(items) =>
        match Collect(items, ActivityFromElement)
        case Err(_) => []
        case Ok(activities) => activities
  }

  /** A list response whose elements all parse gives one activity per
      element, in order; one element that does not parse empties the
      result. A dict response iterates its keys, which never parse. */
  lemma {:induction false} ActivityListOnePerElement(items: seq<Json>)
    ensures (forall k | 0 <= k < |items| :: FromResponse(items[k]).Ok?) ==>
              var r := ActivityList(Ok(JList(items)));
              |r| == |items| && forall k | 0 <= k < |items| :: Ok(r[k]) == FromResponse(items[k])
    ensures (exists k | 0 <= k < |items| :: FromResponse(items[k]).Err?) ==> ActivityList(Ok(JList(items))) == []
  {
    CollectFails(items, ActivityFromElement);
    if forall k | 0 <= k < |items| :: FromResponse(items[k]).Ok? {
      CollectOneEach(items, ActivityFromElement);
    }
  }

  /** get_activities_for_date. */
  function GetActivitiesForDate(response: Result<Json>): (r: seq<Activity>)
    ensures response.Err? ==> r == []
  {
    ActivityList(response)
  }

  /** get_for_date: the first activity of the day, or None. */
  function GetForDate(response: Result<Json>): (r: Option<Activity>)
    ensures r.None? <==> GetActivitiesForDate(response) == []
    ensures r.Some? ==> r.value == GetActivitiesForDate(response)[0]
  {
    var activities := GetActivitiesForDate(response);
    if activities != [] then Some(activities[0]) else None
  }

  /** get_activity_by_id: the activity, or None. */
  function GetActivityById(response: Result<Json>): (r: Option<Activity>)
    ensures r.Some? <==> response.Ok? && Truthy(response.value) && FromResponse(response.value).Ok?
    ensures r.Some? ==> FromResponse(response.value) == Ok(r.value)
  {
    ExtractorBase.GetForDate(response, FromResponse)
  }

  // ---------------------------------------------------------------------
  // get_activities

  /** The query parameters get_activities sends. */
  function Params(start: Option<ExtractorBase.DateArg>, end: Option<ExtractorBase.DateArg>,
                  activityType: Option<string>, limit: int, offset: int): map<string, Json>
    requires start.Some? ==> start.value.WellFormed()
    requires end.Some? ==> end.value.WellFormed()
  {
    var base := map["limit" := JInt(limit), "start" := JInt(offset)];
    var withStart := if start.Some? && start.value.IsTruthy() then base["startDate" := JStr(ExtractorBase.FormatDate(start.value))] else base;
    var withEnd := if end.Some? && end.value.IsTruthy() then withStart["endDate" := JStr(ExtractorBase.FormatDate(end.value))] else withStart;
    if activityType.Some? && activityType.value != "" then withEnd["activityType" := JStr(activityType.value)] else withEnd
  }

  /** The limit and the offset (as "start") are always sent; a start date,
      end date or activity type only when it is given and truthy, and then
      formatted as _format_date does. Nothing else is sent. */
  lemma {:induction false} ParamsMeaning(start: Option<ExtractorBase.DateArg>, end: Option<ExtractorBase.DateArg>,
                                         activityType: Option<string>, limit: int, offset: int)
    requires start.Some? ==> start.value.WellFormed()
    requires end.Some? ==> end.value.WellFormed()
    ensures var p := Params(start, end, activityType, limit, offset);
            "limit" in p && p["limit"] == JInt(limit) && "start" in p && p["start"] == JInt(offset) &&
            ("startDate" in p <==> start.Some? && start.value.IsTruthy()) &&
            ("startDate" in p ==> p["startDate"] == JStr(ExtractorBase.FormatDate(start.value))) &&
            ("endDate" in p <==> end.Some? && end.value.IsTruthy()) &&
            ("endDate" in p ==> p["endDate"] == JStr(ExtractorBase.FormatDate(end.value))) &&
            ("activityType" in p <==> activityType.Some? && activityType.value != "") &&
            ("activityType" in p ==> p["activityType"] == JStr(activityType.value)) &&
            p.Keys <= {"limit", "start", "startDate", "endDate", "activityType"}
  {
  }

  /** The parameter dict of get_activities, filled step by step. */
  method BuildParams(start: Option<ExtractorBase.DateArg>, end: Option<ExtractorBase.DateArg>,
                     activityType: Option<string>, limit: int, offset: int) returns (params: map<string, Json>)
    requires start.Some? ==> start.value.WellFormed()
    requires end.Some? ==> end.value.WellFormed()
    ensures params == Params(start, end, activityType, limit, offset)
  {
    params := map["limit" := JInt(limit), "start" := JInt(offset)];
    if start.Some? && start.value.IsTruthy() {
      params := params["startDate" := JStr(ExtractorBase.FormatDate(start.value))];
    }
    if end.Some? && end.value.IsTruthy() {
      params := params["endDate" := JStr(ExtractorBase.FormatDate(end.value))];
    }
    if activityType.Some? && activityType.value != "" {
      params := params["activityType" := JStr(activityType.value)];
    }
  }

  /** get_activities: the request, given its parameters, is an argument. */
  method GetActivities(start: Option<ExtractorBase.DateArg>, end: Option<ExtractorBase.DateArg>,
                       activityType: Option<string>, limit: int, offset: int,
                       request: map<string, Json> -> Result<Json>) returns (activities: seq<Activity>)
    requires start.Some? ==> start.value.WellFormed()
    requires end.Some? ==> end.value.WellFormed()
    ensures activities == ActivityList(request(Params(start, end, activityType, limit, offset)))
  {
    var params := BuildParams(start, end, activityType, limit, offset);
    activities := ActivityList(request(params));
  }

  /** get_recent_activities: get_activities with the limit only, which
      sends exactly {"limit": n, "start": 0}. */
  method GetRecentActivities(limit: int, request: map<string, Json> -> Result<Json>) returns (activities: seq<Activity>)
    ensures activities == ActivityList(request(map["limit" := JInt(limit), "start" := JInt(0)]))
  {
    activities := GetActivities(None, None, None, limit, 0, request);
  }

  // ---------------------------------------------------------------------
  // get_activity_laps

  /** get_activity_laps: one Lap per entry of "lapDTOs", in order; []
      when the response is not a dict holding that key, or any entry
      raises. */
  function GetActivityLaps(response: Result<Json>): (r: seq<Lap>)
    ensures !(response.Ok? && response.value.JObj? && "lapDTOs" in response.value.fields) ==> r == []
  {
    if response.Err? || !response.value.JObj? || "lapDTOs" !in response.value.fields then []
    else
      match Elements(response.value.fields["lapDTOs"])
      case Err(_) => []
      case Ok(items) =>
        match Collect(items, LapFromElement)
        case Err(_) => []
        case Ok(laps) => laps
  }

  /** A list of laps that all parse gives one Lap per entry, in order;
      an entry that is not a dict, or does not parse, empties the result. */
  lemma {:induction false} LapsOnePerEntry(m: map<string, Json>, items: seq<Json>)
    requires "lapDTOs" in m && m["lapDTOs"] == JList(items)
    ensures (forall k | 0 <= k < |items| :: LapFromElement(items[k]).Ok?) ==>
              var r := GetActivityLaps(Ok(JObj(m)));
              |r| == |items| && forall k | 0 <= k < |items| :: LapFromElement(items[k]) == Ok(Some(r[k]))
    ensures (exists k | 0 <= k < |items| :: LapFromElement(items[k]).Err?) ==> GetActivityLaps(Ok(JObj(m))) == []
  {
    CollectFails(items, LapFromElement);
    if forall k | 0 <= k < |items| :: LapFromElement(items[k]).Ok? {
      CollectOneEach(items, LapFromElement);
    }
  }

  // ---------------------------------------------------------------------
  // The weekly activity summary

  /** The activities grouped by activity type key, each group in list
      order. */
  function GroupByType(activities: seq<Activity>): map<string, seq<Activity>> {
    if activities == [] then map[]
    else
      var groups := GroupByType(activities[..|activities| - 1]);
      var a := activities[|activities| - 1];
      groups[a.activityTypeKey := (if a.activityTypeKey in groups then groups[a.activityTypeKey] else []) + [a]]
  }

  /** Activities of type k after appending one activity. */
  lemma {:induction false} TypeFilterSnoc(init: seq<Activity>, last: Activity, k: string)
    ensures Filter(init + [last], (a: Activity) => a.activityTypeKey == k)
         == Filter(init, (a: Activity) => a.activityTypeKey == k) + (if last.activityTypeKey == k then [last] else [])
  {
    FilterAppend(init, [last], (a: Activity) => a.activityTypeKey == k);
    assert [last][1..] == [];
  }

  /** A type is a key exactly when some activity has it, and its group is
      the activities of that type, in list order. */
  lemma {:induction false} GroupByTypeMeaning(activities: seq<Activity>)
    ensures forall k :: k in GroupByType(activities) <==> exists a :: a in activities && a.activityTypeKey == k
    ensures forall k | k in GroupByType(activities) ::
              GroupByType(activities)[k] == Filter(activities, (a: Activity) => a.activityTypeKey == k)
  {
    if activities != [] {
      var init := activities[..|activities| - 1];
      var last := activities[|activities| - 1];
      assert activities == init + [last];
      GroupByTypeMeaning(init);
      var groups := GroupByType(init);
      forall k | k in GroupByType(activities)
        ensures GroupByType(activities)[k] == Filter(activities, (a: Activity) => a.activityTypeKey == k)
      {
        TypeFilterSnoc(init, last, k);
        if k !in groups {
          forall j | 0 <= j < |init| ensures init[j].activityTypeKey != k {
            assert init[j] in init;
          }
          FilterNone(init, (a: Activity) => a.activityTypeKey == k);
        }
      }
    }
  }

  /** The dict of get_weekly_summary. */
  datatype ActivityWeek = ActivityWeek(
    weekStart: string,
    activityCount: int,
    totalDistanceKm: real,
    totalDurationHours: real,
    totalCalories: real,
    activitiesByType: map<string, int>,
    activities: seq<Activity>)

  function Distances(activities: seq<Activity>): (r: seq<real>)
    ensures |r| == |activities| && forall k | 0 <= k < |activities| :: r[k] == activities[k].distanceMeters
  {
    seq(|activities|, k requires 0 <= k < |activities| => activities[k].distanceMeters)
  }

  function Durations(activities: seq<Activity>): (r: seq<real>)
    ensures |r| == |activities| && forall k | 0 <= k < |activities| :: r[k] == activities[k].durationSeconds
  {
    seq(|activities|, k requires 0 <= k < |activities| => activities[k].durationSeconds)
  }

  function Calories(activities: seq<Activity>): (r: seq<real>)
    ensures |r| == |activities| && forall k | 0 <= k < |activities| :: r[k] == activities[k].calories
  {
    seq(|activities|, k requires 0 <= k < |activities| => activities[k].calories)
  }

  /** The summary of the week's activities: the totals, and by_type built
      one activity at a time, then reduced to counts. */
  method WeeklySummary(weekStart: string, activities: seq<Activity>) returns (week: ActivityWeek)
    ensures week.weekStart == weekStart && week.activities == activities
    ensures week.activityCount == |activities|
    ensures week.totalDistanceKm == SumReal(Distances(activities)) / 1000.0
    ensures week.totalDurationHours == SumReal(Durations(activities)) / 3600.0
    ensures week.totalCalories == SumReal(Calories(activities))
    ensures forall k :: k in week.activitiesByType <==> exists a :: a in activities && a.activityTypeKey == k
    ensures forall k | k in week.activitiesByType ::
              week.activitiesByType[k] == |Filter(activities, (a: Activity) => a.activityTypeKey == k)|
  {
    var byType: map<string, seq<Activity>> := map[];
    var i := 0;
    while i < |activities|
      invariant 0 <= i <= |activities|
      invariant byType == GroupByType(activities[..i])
    {
      var activity := activities[i];
      var typeKey := activity.activityTypeKey;
      assert activities[..i + 1][..i] == activities[..i];
      if typeKey !in byType {
        byType := byType[typeKey := []];
      }
      byType := byType[typeKey := byType[typeKey] + [activity]];
      i := i + 1;
    }
    assert activities[..i] == activities;
    GroupByTypeMeaning(activities);
    var counts := map k | k in byType :: |byType[k]|;
    week := ActivityWeek(weekStart, |activities|, SumReal(Distances(activities)) / 1000.0,
                         SumReal(Durations(activities)) / 3600.0, SumReal(Calories(activities)), counts, activities);
  }
}
