/** What every extractor shares (src/garmer/extractors/base.py): the text a
    date argument becomes in a request, the day-by-day walk over a date
    range, and the shape of a single-day fetch that turns every failure
    into "no data". Dates are day numbers as in the Calendar module. */
module ExtractorBase {
  import opened Json
  import opened Calendar

  /** A date argument as callers pass one: text, a date, or a datetime
      (whose date part is all that is used). */
  datatype DateArg = Text(s: string) | Day(ordinal: int) | Moment(ordinal: int)
  {
    /** A date or datetime always denotes a representable day. */
    predicate WellFormed() {
      Text? || InRange(ordinal)
    }

    /** Dates and datetimes are always truthy; text when it is non-empty. */
    predicate IsTruthy() {
      !Text? || s != ""
    }
  }

  /** strftime("%Y-%m-%d") as glibc renders it: the year is written
      without padding. */
  function StrftimeYmd(d: Date): string
    requires Valid(d)
  {
    NatToString(d.year) + "-" + Digits2(d.month) + "-" + Digits2(d.day)
  }

  /** _format_date: text as it is, a date by isoformat(), a datetime by
      strftime. */
  function FormatDate(a: DateArg): (r: string)
    requires a.WellFormed()
    ensures a.Text? ==> r == a.s
    ensures !a.Text? ==> |r| >= 7 && r[|r| - 3] == '-' && r[|r| - 6] == '-'
  {
    match a
    case Text(s) => s
    case Day(n) => FormatOrdinal(n)
    case Moment(n) => StrftimeYmd(FromOrdinal(n))
  }

  /** Four-digit years print the same with or without padding. */
  lemma {:induction false} FourDigitYear(y: int)
    requires 1000 <= y <= 9999
    ensures NatToString(y) == Digits4(y)
  {
    var a, b, c, d := y / 1000, (y / 100) % 10, (y / 10) % 10, y % 10;
    assert y / 10 / 10 == y / 100 && y / 100 / 10 == a;
    assert (y % 100) / 10 == c && (y % 100) % 10 == d;
    assert NatToString(y / 100) == [DigitChar(a), DigitChar(b)];
    assert NatToString(y / 10) == [DigitChar(a), DigitChar(b), DigitChar(c)];
  }

  /** A date or a datetime from year 1000 on is rendered as YYYY-MM-DD
      (the extended calendar date form of section 4.1.2.2 of ISO
      8601:2004), and reading that text back with date.fromisoformat or
      with strptime gives the same day; text is passed through untouched. */
  lemma {:induction false} FormattedDateReadsBack(a: DateArg)
    requires a.WellFormed()
    ensures a.Text? ==> FormatDate(a) == a.s
    ensures a.Day? || (a.Moment? && FromOrdinal(a.ordinal).year >= 1000) ==>
              FormatDate(a) == IsoFormat(FromOrdinal(a.ordinal)) &&
              FromIsoFormat(FormatDate(a)) == Some(FromOrdinal(a.ordinal)) &&
              ParseYmd(FormatDate(a)) == Some(FromOrdinal(a.ordinal)) &&
              ToOrdinal(FromOrdinal(a.ordinal)) == a.ordinal
  {
    if !a.Text? {
      var d := FromOrdinal(a.ordinal);
      if a.Moment? && d.year >= 1000 {
        FourDigitYear(d.year);
      }
      FromIsoFormatOfIsoFormat(d);
      ParseYmdOfIsoFormat(d);
      ToOrdinalFromOrdinal(a.ordinal);
    }
  }

  /** _get_date_range: both ends formatted; a missing or falsy end means
      the start. */
  function GetDateRange(start: DateArg, end: Option<DateArg>): (r: (string, string))
    requires start.WellFormed() && (end.Some? ==> end.value.WellFormed())
    ensures r.0 == FormatDate(start)
    ensures end.None? || !end.value.IsTruthy() ==> r.1 == r.0
    ensures end.Some? && end.value.IsTruthy() ==> r.1 == FormatDate(end.value)
  {
    var first := FormatDate(start);
    (first, if end.Some? && end.value.IsTruthy() then FormatDate(end.value) else first)
  }

  // ---------------------------------------------------------------------
  // The range walk

  /** The days from start to end, both included, one apart: what
      _date_range_iterator is meant to yield. */
  function Days(start: int, end: int): (r: seq<int>)
    ensures |r| == if start <= end then end - start + 1 else 0
    ensures forall k | 0 <= k < |r| :: r[k] == start + k
    decreases end - start
  {
    if start > end then [] else [start] + Days(start + 1, end)
  }

  lemma {:induction false} DaysSnoc(start: int, end: int)
    requires start <= end + 1
    ensures Days(start, end + 1) == Days(start, end) + [end + 1]
  {
    var a, b := Days(start, end + 1), Days(start, end) + [end + 1];
    assert |a| == |b|;
    forall k | 0 <= k < |a| ensures a[k] == b[k] {
      if k < |Days(start, end)| {
        assert b[k] == Days(start, end)[k];
      }
    }
  }

  /** What one day contributes: its value when the fetch returned one. */
  function DayValue<T>(outcome: Result<Option<T>>): seq<T> {
    if outcome.Ok? && outcome.value.Some? then [outcome.value.value] else []
  }

  /** The results get_for_date_range keeps for the given days: each value a
      fetch returned, in day order; a day that returned nothing or raised
      contributes nothing. */
  function Kept<T>(days: seq<int>, fetch: int -> Result<Option<T>>): (r: seq<T>)
    ensures |r| <= |days|
  {
    if days == [] then []
    else Kept(days[..|days| - 1], fetch) + DayValue(fetch(days[|days| - 1]))
  }

  lemma {:induction false} KeptSnoc<T>(days: seq<int>, d: int, fetch: int -> Result<Option<T>>)
    ensures Kept(days + [d], fetch) == Kept(days, fetch) + DayValue(fetch(d))
  {
    assert (days + [d])[..|days + [d]| - 1] == days;
  }

  /** Keeping is done day by day: the results of two consecutive stretches
      are the results of the first followed by those of the second. */
  lemma {:induction false} KeptAppend<T>(xs: seq<int>, ys: seq<int>, fetch: int -> Result<Option<T>>)
    ensures Kept(xs + ys, fetch) == Kept(xs, fetch) + Kept(ys, fetch)
    decreases |ys|
  {
    if ys == [] {
      assert xs + ys == xs;
    } else {
      var init := ys[..|ys| - 1];
      assert (xs + ys)[..|xs + ys| - 1] == xs + init;
      KeptAppend(xs, init, fetch);
    }
  }

  /** A value is kept exactly when some day of the range returned it. */
  lemma {:induction false} KeptMembers<T>(days: seq<int>, fetch: int -> Result<Option<T>>)
    ensures forall x :: x in Kept(days, fetch) <==> exists d :: d in days && fetch(d) == Ok(Some(x))
  {
    if days != [] {
      var init, last := days[..|days| - 1], days[|days| - 1];
      KeptMembers(init, fetch);
      assert days == init + [last];
      forall x | exists d :: d in days && fetch(d) == Ok(Some(x))
        ensures x in Kept(days, fetch)
      {
        var d :| d in days && fetch(d) == Ok(Some(x));
        if d != last {
          assert d in init;
        }
      }
    }
  }

  /** When every day returns a value, one result is kept per day. */
  lemma {:induction false} KeptAll<T>(days: seq<int>, fetch: int -> Result<Option<T>>)
    requires forall k | 0 <= k < |days| :: fetch(days[k]).Ok? && fetch(days[k]).value.Some?
    ensures |Kept(days, fetch)| == |days|
    ensures forall k | 0 <= k < |days| :: Kept(days, fetch)[k] == fetch(days[k]).value.value
  {
    if days != [] {
      KeptAll(days[..|days| - 1], fetch);
    }
  }

  /** One more day of a walk keeps that day's value, if any. */
  lemma KeptStep<T>(start: int, current: int, fetch: int -> Result<Option<T>>)
    requires start <= current
    ensures Kept(Days(start, current), fetch) == Kept(Days(start, current - 1), fetch) + DayValue(fetch(current))
  {
    DaysSnoc(start, current - 1);
    KeptSnoc(Days(start, current - 1), current, fetch);
  }

  /** get_for_date_range over day numbers, as evidently intended: the
      counter stepping past the end day is not a date, so the last
      representable day raises nothing. */
  method WalkRange<T>(start: int, end: int, fetch: int -> Result<Option<T>>) returns (results: seq<T>)
    requires InRange(start) && InRange(end)
    ensures results == Kept(Days(start, end), fetch)
  {
    results := [];
    var current := start;
    while current <= end
      invariant start <= current <= MaxOrdinal + 1
      invariant current == start || current <= end + 1
      invariant results == Kept(Days(start, current - 1), fetch)
      decreases end - current
    {
      KeptStep(start, current, fetch);
      var data := fetch(current);
      if data.Ok? && data.value.Some? {
        results := results + [data.value.value];
      }
      current := current + 1;
    }
  }

  /** What get_for_date_range as written returns for day numbers: after
      the fetch for the end day the iterator still adds one day, which
      raises OverflowError when the end is the last representable day. */
  function RangeAsWritten<T>(start: int, end: int, fetch: int -> Result<Option<T>>): (r: Result<seq<T>>)
    ensures r.Err? <==> start <= end == MaxOrdinal
    ensures r.Err? ==> r.error == OverflowError
    ensures r.Ok? ==> r.value == Kept(Days(start, end), fetch)
  {
    if start <= end && end == MaxOrdinal then Err(OverflowError) else Ok(Kept(Days(start, end), fetch))
  }

  /** Lines 134-137 and 180-190 as written: the OverflowError is raised by
      the iterator, outside the per-day try, so it escapes. */
  method WalkRangeAsWritten<T>(start: int, end: int, fetch: int -> Result<Option<T>>) returns (r: Result<seq<T>>)
    requires InRange(start) && InRange(end)
    ensures r == RangeAsWritten(start, end, fetch)
  {
    var results := [];
    var current := start;
    while current <= end
      invariant start <= current <= MaxOrdinal
      invariant current == start || current <= end + 1
      invariant results == Kept(Days(start, current - 1), fetch)
      decreases end - current
    {
      KeptStep(start, current, fetch);
      var data := fetch(current);
      if data.Ok? && data.value.Some? {
        results := results + [data.value.value];
      }
      if current == MaxOrdinal {
        return Err(OverflowError);
      }
      current := current + 1;
    }
    return Ok(results);
  }

  /** The discrepancy: a one-day range on 9999-12-31 whose fetch finds data
      raises instead of returning that day's data, which the corrected walk
      returns. */
  lemma {:induction false} LastDayRaises(x: int)
    ensures RangeAsWritten(MaxOrdinal, MaxOrdinal, (d: int) => Ok(Some(x))) == Err(OverflowError)
    ensures Kept(Days(MaxOrdinal, MaxOrdinal), (d: int) => Ok(Some(x))) == [x]
  {
    assert Days(MaxOrdinal, MaxOrdinal) == [MaxOrdinal];
    assert Days(MaxOrdinal, MaxOrdinal)[..0] == [];
  }

  /** Away from the last representable day both walks agree. */
  lemma {:induction false} WalksAgreeBeforeLastDay<T>(start: int, end: int, fetch: int -> Result<Option<T>>)
    requires end < MaxOrdinal || start > end
    ensures RangeAsWritten(start, end, fetch) == Ok(Kept(Days(start, end), fetch))
  {
  }

  /** The day a date argument of get_for_date_range stands for: text is
      read with strptime("%Y-%m-%d") and raises ValueError when it does not
      parse. */
  function DayOf(a: DateArg): (r: Result<int>)
    requires a.WellFormed()
    ensures r.Ok? ==> InRange(r.value)
    ensures a.Text? && r.Ok? ==> ParseYmd(a.s).Some? && FromOrdinal(r.value) == ParseYmd(a.s).value
    ensures a.Text? && r.Err? ==> ParseYmd(a.s).None? && r.error == ValueError
    ensures !a.Text? ==> r == Ok(a.ordinal)
  {
    match a
    case Text(s) =>
      var d := ParseYmd(s);
      if d.Some? then
        OrdinalInRange(d.value);
        FromOrdinalToOrdinal(d.value);
        Ok(ToOrdinal(d.value))
      else Err(ValueError)
    case Day(n) => Ok(n)
    case Moment(n) => Ok(n)
  }

  /** get_for_date_range: both ends are turned into days (text that does
      not parse raises ValueError), then the range is walked. */
  method GetForDateRange<T>(start: DateArg, end: DateArg, fetch: int -> Result<Option<T>>) returns (r: Result<seq<T>>)
    requires start.WellFormed() && end.WellFormed()
    ensures r.Err? <==> DayOf(start).Err? || DayOf(end).Err?
    ensures r.Err? ==> r.error == ValueError
    ensures r.Ok? ==> r.value == Kept(Days(DayOf(start).value, DayOf(end).value), fetch)
  {
    var first := DayOf(start);
    if first.Err? {
      return Err(first.error);
    }
    var last := DayOf(end);
    if last.Err? {
      return Err(last.error);
    }
    var results := WalkRange(first.value, last.value, fetch);
    return Ok(results);
  }

  /** get_last_n_days: the window ends today and starts n - 1 days
      earlier; a start before 0001-01-01 or after 9999-12-31 raises
      OverflowError. */
  method GetLastNDays<T>(today: int, n: int, fetch: int -> Result<Option<T>>) returns (r: Result<seq<T>>)
    requires InRange(today)
    ensures r.Err? <==> !InRange(today - (n - 1))
    ensures r.Err? ==> r.error == OverflowError
    ensures r.Ok? ==> r.value == Kept(Days(today - (n - 1), today), fetch)
  {
    var start := today - (n - 1);
    if !InRange(start) {
      return Err(OverflowError);
    }
    var results := WalkRange(start, today, fetch);
    return Ok(results);
  }

  /** The window of get_last_n_days holds exactly n days for positive n,
      from today - (n - 1) up to today, and none otherwise. */
  lemma {:induction false} LastNDaysWindow(today: int, n: int)
    ensures n >= 1 ==> |Days(today - (n - 1), today)| == n
    ensures n >= 1 ==> Days(today - (n - 1), today)[0] == today - (n - 1)
    ensures n >= 1 ==> Days(today - (n - 1), today)[n - 1] == today
    ensures n <= 0 ==> Days(today - (n - 1), today) == []
  {
  }

  // ---------------------------------------------------------------------
  // A single day

  /** The shape of every get_for_date: the request runs inside a try that
      catches every exception, authentication failures included; a falsy
      response means no data; a response the record refuses means no data. */
  function GetForDate<T>(response: Result<Json>, parse: Json -> Result<T>): (r: Option<T>)
    ensures r.Some? <==> response.Ok? && Truthy(response.value) && parse(response.value).Ok?
    ensures r.Some? ==> parse(response.value) == Ok(r.value)
  {
    if response.Err? || !Truthy(response.value) then None else parse(response.value).ToOption()
  }

  /** The first element of a response that is a non-empty list: the
      stats endpoints answer a one-day query with a list of one day. */
  function FirstOfList(response: Result<Json>): (r: Option<Json>)
    ensures r.Some? <==> response.Ok? && response.value.JList? && response.value.items != []
    ensures r.Some? ==> r.value == response.value.items[0]
  {
    if response.Ok? && response.value.JList? && response.value.items != [] then Some(response.value.items[0])
    else None
  }
}
