/** Proleptic Gregorian dates as Python's `date` type keeps them: years 1
    to 9999, each date numbered by its ordinal (1 January of year 1 is day
    1, date.max is day 3652059). Date arithmetic is ordinal arithmetic;
    this module converts between ordinals and year/month/day, prints dates
    as YYYY-MM-DD and parses the two textual forms the library accepts. */
module Calendar {
  import opened Json

  /** The ordinal of 9999-12-31, the last date Python can represent. */
  const MaxOrdinal := 3652059

  predicate InRange(n: int) {
    1 <= n <= MaxOrdinal
  }

  datatype Date = Date(year: int, month: int, day: int)

  predicate IsLeap(y: int) {
    y % 4 == 0 && (y % 100 != 0 || y % 400 == 0)
  }

  function DaysInMonth(y: int, m: int): int
    requires 1 <= m <= 12
  {
    if m == 2 then (if IsLeap(y) then 29 else 28)
    else if m == 4 || m == 6 || m == 9 || m == 11 then 30
    else 31
  }

  function DaysInYear(y: int): int {
    if IsLeap(y) then 366 else 365
  }

  /** The dates `date(y, m, d)` accepts without raising ValueError. */
  predicate Valid(d: Date) {
    1 <= d.year <= 9999 && 1 <= d.month <= 12 && 1 <= d.day <= DaysInMonth(d.year, d.month)
  }

  /** Days in the years before year y. */
  function DaysBeforeYear(y: int): int
    requires y >= 1
  {
    var p := y - 1;
    p * 365 + p / 4 - p / 100 + p / 400
  }

  /** Days in the months of year y before month m. */
  function DaysBeforeMonth(y: int, m: int): int
    requires 1 <= m <= 13
  {
    var before := [0, 31, 59, 90, 120, 151, 181, 212, 243, 273, 304, 334, 365];
    before[m - 1] + if m > 2 && IsLeap(y) then 1 else 0
  }

  function ToOrdinal(d: Date): int
    requires Valid(d)
  {
    DaysBeforeYear(d.year) + DaysBeforeMonth(d.year, d.month) + d.day
  }

  lemma DivisionStep(y: int)
    requires y >= 1
    ensures y / 4 - (y - 1) / 4 == if y % 4 == 0 then 1 else 0
    ensures y / 100 - (y - 1) / 100 == if y % 100 == 0 then 1 else 0
    ensures y / 400 - (y - 1) / 400 == if y % 400 == 0 then 1 else 0
  {
  }

  lemma {:induction false} DaysBeforeNextYear(y: int)
    requires y >= 1
    ensures DaysBeforeYear(y + 1) == DaysBeforeYear(y) + DaysInYear(y)
  {
    DivisionStep(y);
    var p := y - 1;
    assert DaysBeforeYear(y) == p * 365 + p / 4 - p / 100 + p / 400;
    assert DaysBeforeYear(y + 1) == y * 365 + y / 4 - y / 100 + y / 400;
    assert y * 365 == p * 365 + 365;
  }

  lemma {:induction false} DaysBeforeYearMonotone(a: int, b: int)
    requires 1 <= a <= b
    ensures DaysBeforeYear(a) + 365 * (b - a) <= DaysBeforeYear(b)
    decreases b - a
  {
    if a < b {
      DaysBeforeNextYear(a);
      DaysBeforeYearMonotone(a + 1, b);
    }
  }

  lemma DaysBeforeNextMonth(y: int, m: int)
    requires 1 <= m <= 12
    ensures DaysBeforeMonth(y, m + 1) == DaysBeforeMonth(y, m) + DaysInMonth(y, m)
  {
  }

  /** The year that holds day n, searching upward from year y. */
  function YearHolding(n: int, y: int): (r: int)
    requires 1 <= y && DaysBeforeYear(y) < n
    ensures r >= y && DaysBeforeYear(r) < n <= DaysBeforeYear(r + 1)
    decreases n - DaysBeforeYear(y)
  {
    DaysBeforeNextYear(y);
    if n <= DaysBeforeYear(y + 1) then y else YearHolding(n, y + 1)
  }

  /** The month of year y that holds day r of that year, searching upward
      from month m. */
  function MonthHolding(y: int, r: int, m: int): (res: int)
    requires 1 <= m <= 12 && DaysBeforeMonth(y, m) < r <= DaysInYear(y)
    ensures m <= res <= 12
    ensures DaysBeforeMonth(y, res) < r <= DaysBeforeMonth(y, res) + DaysInMonth(y, res)
    decreases 12 - m
  {
    DaysBeforeNextMonth(y, m);
    if r <= DaysBeforeMonth(y, m) + DaysInMonth(y, m) || m == 12 then m
    else MonthHolding(y, r, m + 1)
  }

  /** date.fromordinal(n) */
  function FromOrdinal(n: int): (d: Date)
    requires InRange(n)
    ensures Valid(d)
  {
    var y := YearHolding(n, 1);
    DaysBeforeNextYear(y);
    if y > 9999 then
      DaysBeforeYearMonotone(10000, y);
      assert false;
      Date(1, 1, 1)
    else
      var r := n - DaysBeforeYear(y);
      var m := MonthHolding(y, r, 1);
      Date(y, m, r - DaysBeforeMonth(y, m))
  }

  /** Every valid date has an ordinal inside the representable range. */
  lemma {:induction false} OrdinalInRange(d: Date)
    requires Valid(d)
    ensures InRange(ToOrdinal(d))
    ensures DaysBeforeYear(d.year) < ToOrdinal(d) <= DaysBeforeYear(d.year + 1)
  {
    DaysBeforeNextYear(d.year);
    DaysBeforeNextMonth(d.year, d.month);
    assert DaysBeforeMonth(d.year, d.month + 1) <= DaysBeforeMonth(d.year, 13);
    DaysBeforeYearMonotone(d.year + 1, 10000);
  }

  lemma {:induction false} YearIsUnique(n: int, a: int, b: int)
    requires 1 <= a && 1 <= b
    requires DaysBeforeYear(a) < n <= DaysBeforeYear(a + 1)
    requires DaysBeforeYear(b) < n <= DaysBeforeYear(b + 1)
    ensures a == b
  {
    if a < b {
      DaysBeforeYearMonotone(a + 1, b);
    } else if b < a {
      DaysBeforeYearMonotone(b + 1, a);
    }
  }

  lemma {:induction false} MonthIsUnique(y: int, r: int, a: int, b: int)
    requires 1 <= a <= 12 && 1 <= b <= 12
    requires DaysBeforeMonth(y, a) < r <= DaysBeforeMonth(y, a) + DaysInMonth(y, a)
    requires DaysBeforeMonth(y, b) < r <= DaysBeforeMonth(y, b) + DaysInMonth(y, b)
    ensures a == b
  {
    DaysBeforeNextMonth(y, a);
    DaysBeforeNextMonth(y, b);
  }

  /** Ordinals and dates are in one-to-one correspondence: converting a
      day number to a date and back gives the day number ... */
  lemma {:induction false} ToOrdinalFromOrdinal(n: int)
    requires InRange(n)
    ensures ToOrdinal(FromOrdinal(n)) == n
  {
  }

  /** ... and converting a date to its day number and back gives the date. */
  lemma {:induction false} FromOrdinalToOrdinal(d: Date)
    requires Valid(d)
    ensures FromOrdinal(ToOrdinal(d)) == d
  {
    var n := ToOrdinal(d);
    OrdinalInRange(d);
    var e := FromOrdinal(n);
    var y := YearHolding(n, 1);
    YearIsUnique(n, y, d.year);
    var r := n - DaysBeforeYear(y);
    DaysBeforeNextMonth(d.year, d.month);
    MonthIsUnique(y, r, MonthHolding(y, r, 1), d.month);
  }

  // ---------------------------------------------------------------------
  // Text forms

  function Digits2(n: int): string
    requires 0 <= n < 100
  {
    [DigitChar(n / 10), DigitChar(n % 10)]
  }

  function Digits4(n: int): string
    requires 0 <= n < 10000
  {
    Digits2(n / 100) + Digits2(n % 100)
  }

  /** date.isoformat(): YYYY-MM-DD with zero padding, the extended calendar
      date form of ISO 8601 (section 4.1.2.2 of ISO 8601:2004). */
  function IsoFormat(d: Date): (s: string)
    requires Valid(d)
    ensures |s| == 10 && s[4] == '-' && s[7] == '-'
  {
    Digits4(d.year) + "-" + Digits2(d.month) + "-" + Digits2(d.day)
  }

  /** The date a day number denotes, as YYYY-MM-DD. */
  function FormatOrdinal(n: int): string
    requires InRange(n)
  {
    IsoFormat(FromOrdinal(n))
  }

  function Digit(c: char): int {
    c as int - '0' as int
  }

  /** The value of a strptime %m field, which matches 1[0-2], 0[1-9] or a
      single digit 1-9. */
  function MonthField(t: string): Option<int> {
    if |t| == 1 && '1' <= t[0] <= '9' then Some(Digit(t[0]))
    else if |t| == 2 && ((t[0] == '1' && '0' <= t[1] <= '2') || (t[0] == '0' && '1' <= t[1] <= '9')) then
      Some(10 * Digit(t[0]) + Digit(t[1]))
    else None
  }

  /** The value of a strptime %d field, which matches 3[01], [12] followed
      by a digit, 0[1-9], a single digit 1-9, or a space and a digit 1-9. */
  function DayField(t: string): Option<int> {
    if |t| == 1 && '1' <= t[0] <= '9' then Some(Digit(t[0]))
    else if |t| == 2 && t[0] == ' ' && '1' <= t[1] <= '9' then Some(Digit(t[1]))
    else if |t| == 2 && ((t[0] == '3' && '0' <= t[1] <= '1') || ('1' <= t[0] <= '2' && IsDigit(t[1]))
                         || (t[0] == '0' && '1' <= t[1] <= '9')) then
      Some(10 * Digit(t[0]) + Digit(t[1]))
    else None
  }

  /** The date `date(y, m, d)` builds, or None where it raises ValueError. */
  function MakeDate(y: int, m: int, d: int): (r: Option<Date>)
    ensures r.Some? ==> Valid(r.value) && r.value == Date(y, m, d)
    ensures Valid(Date(y, m, d)) ==> r == Some(Date(y, m, d))
  {
    if Valid(Date(y, m, d)) then Some(Date(y, m, d)) else None
  }

  /** datetime.strptime(s, "%Y-%m-%d").date(), or None where it raises
      ValueError: exactly four year digits, a 1-2 character month field, a
      1-2 character day field, nothing left over, and a real date. */
  function ParseYmd(s: string): (r: Option<Date>)
    ensures r.Some? ==> Valid(r.value)
  {
    if |s| < 7 || !AllDigits(s[..4]) || s[4] != '-' then None
    else
      var monthEnd := if s[6] == '-' then 6 else 7;
      if monthEnd == 7 && (|s| < 8 || s[7] != '-') then None
      else
        var m := MonthField(s[5..monthEnd]);
        var d := DayField(s[monthEnd + 1..]);
        if m.None? || d.None? then None
        else MakeDate(DigitsValue(s[..4]), m.value, d.value)
  }

  /** date.fromisoformat(s) in its strict form, or None where it raises
      ValueError: exactly YYYY-MM-DD with ASCII digits and a real date. */
  function FromIsoFormat(s: string): Option<Date> {
    if |s| != 10 || s[4] != '-' || s[7] != '-' then None
    else if !AllDigits(s[..4]) || !AllDigits(s[5..7]) || !AllDigits(s[8..]) then None
    else MakeDate(DigitsValue(s[..4]), DigitsValue(s[5..7]), DigitsValue(s[8..]))
  }

  lemma TwoDigitsValue(t: string)
    requires |t| == 2 && AllDigits(t)
    ensures DigitsValue(t) == 10 * Digit(t[0]) + Digit(t[1])
  {
    var u := t[..1];
    assert u[..0] == [] && u[0] == t[0];
    assert DigitsValue(u) == Digit(t[0]);
    assert t[..|t| - 1] == u;
  }

  lemma Digits2Value(n: int)
    requires 0 <= n < 100
    ensures AllDigits(Digits2(n)) && DigitsValue(Digits2(n)) == n
  {
    TwoDigitsValue(Digits2(n));
  }

  lemma Digits4Value(n: int)
    requires 0 <= n < 10000
    ensures AllDigits(Digits4(n)) && DigitsValue(Digits4(n)) == n
  {
    var s := Digits4(n);
    var hi, lo := n / 100, n % 100;
    Digits2Value(hi);
    Digits2Value(lo);
    assert s[..3] == Digits2(hi) + [Digits2(lo)[0]];
    assert s[..2] == Digits2(hi);
    assert s[..3][..2] == Digits2(hi);
    assert s[..4][..3] == s[..3];
  }

  /** Reading back a printed date with fromisoformat gives the date. */
  lemma {:induction false} FromIsoFormatOfIsoFormat(d: Date)
    requires Valid(d)
    ensures FromIsoFormat(IsoFormat(d)) == Some(d)
  {
    var s := IsoFormat(d);
    Digits4Value(d.year);
    Digits2Value(d.month);
    Digits2Value(d.day);
    assert s[..4] == Digits4(d.year);
    assert s[5..7] == Digits2(d.month);
    assert s[8..] == Digits2(d.day);
  }

  /** Reading back a printed date with strptime gives the date. */
  lemma {:induction false} ParseYmdOfIsoFormat(d: Date)
    requires Valid(d)
    ensures ParseYmd(IsoFormat(d)) == Some(d)
  {
    var s := IsoFormat(d);
    Digits4Value(d.year);
    assert s[..4] == Digits4(d.year);
    assert s[5..7] == Digits2(d.month);
    assert s[8..] == Digits2(d.day);
  }

  /** The two parsers agree on well-formed ISO text. */
  lemma {:induction false} ParsersAgree(s: string)
    requires FromIsoFormat(s).Some?
    ensures ParseYmd(s) == FromIsoFormat(s)
  {
    TwoDigitsValue(s[5..7]);
    TwoDigitsValue(s[8..]);
    assert s[6] == s[5..7][1];
  }
}
