/** The helpers every record shares: timestamp and date parsing, and the
    serialisation that leaves out fields holding None. */
module ModelBase {
  import opened Json
  import opened Calendar

  /** A point in time, as the seconds since the Unix epoch that
      datetime.fromtimestamp receives. */
  datatype Instant = Instant(epochSeconds: real)

  /** The seconds from the Unix epoch to 0001-01-01 and to 10000-01-01, in
      UTC: datetime.fromtimestamp only yields instants of years 1 to 9999.
      719162 days precede 1970-01-01 and 2932897 days run from it to the
      end of 9999-12-31. */
  const FirstSecond: real := -719162.0 * 86400.0
  const EndSecond: real := 2932897.0 * 86400.0

  /** datetime.fromtimestamp(ms / 1000): an instant outside years 1 to
      9999 raises ValueError. */
  function FromMillis(ms: real): Result<Option<Instant>> {
    var seconds := ms / 1000.0;
    if FirstSecond <= seconds < EndSecond then Ok(Some(Instant(seconds))) else Err(ValueError)
  }

  /** parse_garmin_timestamp: the vendor sends milliseconds since the epoch,
      as a number or as a string of digits. None and strings that are not
      integers give None; values that cannot be divided raise TypeError,
      and instants datetime cannot hold raise ValueError. */
  function ParseTimestamp(j: Json): (r: Result<Option<Instant>>)
    ensures r.Ok? && r.value.Some? ==> FirstSecond <= r.value.value.epochSeconds < EndSecond
    ensures r.Ok? && r.value.None? <==> j.JNull? || (j.JStr? && ParseInt(j.s).None?)
    ensures r.Err? ==> (r.error == TypeError <==> j.JList? || j.JObj?)
    ensures r.Err? && r.error != TypeError ==> r.error == ValueError
  {
    match j
    case JNull => Ok(None)
    case JStr(s) => if ParseInt(s).Some? then FromMillis(ParseInt(s).value as real) else Ok(None)
    case JInt(i) => FromMillis(i as real)
    case JReal(r) => FromMillis(r)
    case JBool(b) => FromMillis(if b then 1.0 else 0.0)
    case _ => Err(TypeError)
  }

  /** The input is milliseconds: a number n denotes n/1000 seconds when that
      falls in years 1 to 9999 and raises ValueError otherwise. */
  lemma {:induction false} TimestampIsMilliseconds(n: int)
    ensures ParseTimestamp(JNull) == Ok(None)
    ensures ParseTimestamp(JInt(n)).Ok? <==> -62135596800000 <= n < 253402300800000
    ensures ParseTimestamp(JInt(n)).Ok? ==> ParseTimestamp(JInt(n)) == Ok(Some(Instant(n as real / 1000.0)))
    ensures ParseTimestamp(JInt(n)).Err? ==> ParseTimestamp(JInt(n)).error == ValueError
  {
  }

  /** A string of digits denotes the same as its integer, and None or a
      non-integer string denotes no instant at all (never epoch zero). */
  lemma {:induction false} TimestampText(n: int, s: string)
    ensures ParseTimestamp(JStr(IntToString(n))) == ParseTimestamp(JInt(n))
    ensures ParseInt(s).None? ==> ParseTimestamp(JStr(s)) == Ok(None)
    ensures ParseTimestamp(JStr(s)).Err? ==> ParseTimestamp(JStr(s)).error == ValueError
  {
    ParseIntOfIntToString(n);
  }

  /** parse_garmin_date: strptime with "%Y-%m-%d". None and malformed text
      give None; a value that is not a string makes strptime raise
      TypeError, which is not caught. */
  function ParseDate(j: Json): (r: Result<Option<Date>>)
    ensures r.Ok? && r.value.Some? ==> Valid(r.value.value)
    ensures j.JStr? || j.JNull? <==> r.Ok?
  {
    match j
    case JNull => Ok(None)
    case JStr(s) => Ok(ParseYmd(s))
    case _ => Err(TypeError)
  }

  /** Every valid date printed as YYYY-MM-DD parses back to itself. */
  lemma {:induction false} ParseDateOfIsoFormat(d: Date)
    requires Valid(d)
    ensures ParseDate(JStr(IsoFormat(d))) == Ok(Some(d))
  {
    ParseYmdOfIsoFormat(d);
  }

  /** A datetime field serialised to JSON; local-time rendering is left out,
      so the instant is written as its epoch seconds. */
  function InstantJson(t: Option<Instant>): Json {
    if t.Some? then JReal(t.value.epochSeconds) else JNull
  }

  function OptIntJson(v: Option<int>): Json {
    if v.Some? then JInt(v.value) else JNull
  }

  function OptRealJson(v: Option<real>): Json {
    if v.Some? then JReal(v.value) else JNull
  }

  function OptStrJson(v: Option<string>): Json {
    if v.Some? then JStr(v.value) else JNull
  }

  /** No dict anywhere inside the value maps a key to None. */
  predicate NoneFree(j: Json) {
    match j
    case JList(xs) => forall k | 0 <= k < |xs| :: NoneFree(xs[k])
    case JObj(m) => forall key | key in m :: m[key] != JNull && NoneFree(m[key])
    case _ => true
  }

  /** to_dict: the record's JSON form with every None-valued field removed,
      in nested records too. */
  function ToDict(j: Json): Json {
    match j
    case JList(xs) => JList(seq(|xs|, k requires 0 <= k < |xs| => ToDict(xs[k])))
    case JObj(m) => JObj(map key | key in m && m[key] != JNull :: ToDict(m[key]))
    case _ => j
  }

  /** to_dict never emits a None-valued field, keeps exactly the fields
      whose value is not None, and keeps the kind of every value. */
  lemma {:induction false} ToDictDropsNone(j: Json)
    ensures NoneFree(ToDict(j))
    ensures j.JObj? ==> ToDict(j).JObj? && forall key :: key in ToDict(j).fields <==> key in j.fields && j.fields[key] != JNull
    ensures j != JNull ==> ToDict(j) != JNull
  {
    match j
    case JList(xs) =>
      forall k | 0 <= k < |xs| ensures NoneFree(ToDict(xs[k])) {
        ToDictDropsNone(xs[k]);
      }
    case JObj(m) =>
      forall key | key in m && m[key] != JNull ensures ToDict(m[key]) != JNull && NoneFree(ToDict(m[key])) {
        ToDictDropsNone(m[key]);
      }
    case _ =>
  }
}
