/** Raw JSON values as the vendor API returns them, the outcome type that
    stands for Python exceptions, and the Python built-ins the normalisers
    lean on: truthiness, dict.get, int(), str() of an integer, iteration,
    and the coercions a typed record field applies to the value it is given. */
module Json {

  datatype Option<+T> = None | Some(value: T)

  /** The exceptions the modelled code raises, catches or lets through. */
  datatype Error =
    | ValidationError       // a typed record field refused its value
    | TypeError
    | AttributeError
    | KeyError
    | IndexError
    | ValueError
    | OverflowError
    | AuthenticationError
    | SessionExpiredError
    | HttpError(status: int)
    | GarthError
    | RuntimeError
  {
    /** SessionExpiredError is a subclass of AuthenticationError. */
    predicate IsAuthenticationError() {
      AuthenticationError? || SessionExpiredError?
    }
  }

  /** A value, or the exception raised instead of producing it. */
  datatype Result<+T> = Ok(value: T) | Err(error: Error) {
    predicate IsFailure() {
      Err?
    }

    function PropagateFailure<U>(): Result<U>
      requires Err?
    {
      Err(error)
    }

    function Extract(): T
      requires Ok?
    {
      value
    }

    /** What a caller that catches every exception and returns None sees. */
    function ToOption(): Option<T> {
      if Ok? then Some(value) else None
    }
  }

  datatype Json =
    | JNull
    | JBool(b: bool)
    | JInt(i: int)
    | JReal(r: real)
    | JStr(s: string)
    | JList(items: seq<Json>)
    | JObj(fields: map<string, Json>)

  /** Python truthiness: None, False, zero, and empty strings, lists and
      dicts are false. */
  predicate Truthy(j: Json) {
    match j
    case JNull => false
    case JBool(b) => b
    case JInt(i) => i != 0
    case JReal(r) => r != 0.0
    case JStr(s) => s != ""
    case JList(xs) => xs != []
    case JObj(m) => m != map[]
  }

  /** dict.get(key, default) */
  function Get(m: map<string, Json>, key: string, default: Json): Json {
    if key in m then m[key] else default
  }

  /** data.get(camel, data.get(snake, default)): the camelCase key wins
      whenever it is present, whatever its value. */
  function GetEither(m: map<string, Json>, camel: string, snake: string, default: Json): Json {
    if camel in m then m[camel] else Get(m, snake, default)
  }

  lemma {:induction false} CamelCaseWins(m: map<string, Json>, camel: string, snake: string, default: Json)
    ensures camel in m ==> GetEither(m, camel, snake, default) == m[camel]
    ensures camel !in m && snake in m ==> GetEither(m, camel, snake, default) == m[snake]
    ensures camel !in m && snake !in m ==> GetEither(m, camel, snake, default) == default
  {
  }

  // ---------------------------------------------------------------------
  // Coercions applied by typed record fields

  /** An `int` field: integers, booleans, and floats with no fractional part. */
  function ToInt(j: Json): Result<int> {
    match j
    case JInt(i) => Ok(i)
    case JBool(b) => Ok(if b then 1 else 0)
    case JReal(r) => if r.Floor as real == r then Ok(r.Floor) else Err(ValidationError)
    case _ => Err(ValidationError)
  }

  /** An `int | None` field. */
  function ToOptInt(j: Json): Result<Option<int>> {
    if j == JNull then Ok(None) else var i :- ToInt(j); Ok(Some(i))
  }

  /** A `float` field. */
  function ToReal(j: Json): Result<real> {
    match j
    case JInt(i) => Ok(i as real)
    case JReal(r) => Ok(r)
    case JBool(b) => Ok(if b then 1.0 else 0.0)
    case _ => Err(ValidationError)
  }

  /** A `float | None` field. */
  function ToOptReal(j: Json): Result<Option<real>> {
    if j == JNull then Ok(None) else var r :- ToReal(j); Ok(Some(r))
  }

  /** A `str` field: no other kind of value is converted to a string. */
  function ToStr(j: Json): Result<string> {
    if j.JStr? then Ok(j.s) else Err(ValidationError)
  }

  /** A `str | None` field. */
  function ToOptStr(j: Json): Result<Option<string>> {
    match j
    case JNull => Ok(None)
    case JStr(s) => Ok(Some(s))
    case _ => Err(ValidationError)
  }

  lemma {:induction false} NullOnlyFitsOptionalFields(j: Json)
    ensures ToInt(JNull).Err? && ToReal(JNull).Err? && ToStr(JNull).Err?
    ensures ToOptInt(JNull) == Ok(None) && ToOptReal(JNull) == Ok(None) && ToOptStr(JNull) == Ok(None)
    ensures j != JNull ==> (ToOptInt(j).Ok? <==> ToInt(j).Ok?)
    ensures j != JNull ==> (ToOptReal(j).Ok? <==> ToReal(j).Ok?)
  {
  }

  // ---------------------------------------------------------------------
  // Decimal integers: Python's str(n) and int(s)

  predicate IsDigit(c: char) {
    '0' <= c <= '9'
  }

  predicate AllDigits(s: string) {
    forall k | 0 <= k < |s| :: IsDigit(s[k])
  }

  function DigitChar(d: nat): char
    requires d < 10
  {
    ('0' as int + d) as char
  }

  /** The value of a run of decimal digits, most significant first. */
  function DigitsValue(s: string): nat
    requires AllDigits(s)
  {
    if s == [] then 0 else DigitsValue(s[..|s| - 1]) * 10 + (s[|s| - 1] as int - '0' as int)
  }

  function NatToString(n: nat): (s: string)
    ensures |s| > 0 && AllDigits(s)
  {
    if n < 10 then [DigitChar(n)] else NatToString(n / 10) + [DigitChar(n % 10)]
  }

  /** str(n) for a Python int. */
  function IntToString(i: int): string {
    if i < 0 then "-" + NatToString(-i) else NatToString(i)
  }

  /** The characters str.strip() and int() treat as whitespace. */
  predicate IsSpace(c: char) {
    var n := c as int;
    n == 0x20 || 0x09 <= n <= 0x0D || 0x1C <= n <= 0x1F || n == 0x85 || n == 0xA0 || n == 0x1680 ||
    0x2000 <= n <= 0x200A || n == 0x2028 || n == 0x2029 || n == 0x202F || n == 0x205F || n == 0x3000
  }

  /** s without its leading and trailing whitespace. */
  function Strip(s: string): (r: string)
    ensures |r| <= |s|
    ensures r != [] ==> !IsSpace(r[0]) && !IsSpace(r[|r| - 1])
  {
    if s != [] && IsSpace(s[0]) then Strip(s[1..])
    else if s != [] && IsSpace(s[|s| - 1]) then Strip(s[..|s| - 1])
    else s
  }

  /** ASCII digits in which single underscores may separate two digits. */
  predicate Grouped(s: string) {
    s != [] && IsDigit(s[0]) && IsDigit(s[|s| - 1]) &&
    (forall k | 0 <= k < |s| :: IsDigit(s[k]) || s[k] == '_') &&
    (forall j, k | 0 <= j < |s| && 0 <= k < |s| && k == j + 1 :: s[j] != '_' || s[k] != '_')
  }

  /** The digits of s with the underscores taken out. */
  function Ungrouped(s: string): (r: string)
    requires forall k | 0 <= k < |s| :: IsDigit(s[k]) || s[k] == '_'
    ensures AllDigits(r)
    ensures AllDigits(s) ==> r == s
  {
    if s == [] then [] else (if s[0] == '_' then [] else [s[0]]) + Ungrouped(s[1..])
  }

  /** int(s) for a string: surrounding whitespace is ignored, then an
      optional sign and ASCII digits, single underscores allowed between
      them. */
  function ParseInt(s: string): Option<int> {
    ParseSigned(Strip(s))
  }

  /** An optional sign, then grouped digits. */
  function ParseSigned(t: string): Option<int> {
    if |t| > 1 && (t[0] == '-' || t[0] == '+') && Grouped(t[1..]) then
      var v := GroupedValue(t[1..]);
      Some(if t[0] == '-' then -v else v)
    else if Grouped(t) then
      Some(GroupedValue(t))
    else
      None
  }

  function GroupedValue(g: string): int
    requires Grouped(g)
  {
    DigitsValue(Ungrouped(g)) as int
  }

  lemma {:induction false} DigitsValueOfNatToString(n: nat)
    ensures DigitsValue(NatToString(n)) == n
  {
    if n >= 10 {
      DigitsValueOfNatToString(n / 10);
      var s := NatToString(n / 10) + [DigitChar(n % 10)];
      assert s[..|s| - 1] == NatToString(n / 10);
    }
  }

  /** Printing an integer and reading it back gives the integer. */
  lemma ParseIntOfIntToString(i: int)
    ensures ParseInt(IntToString(i)) == Some(i)
  {
    var d := NatToString(if i < 0 then -i else i);
    DigitsValueOfNatToString(if i < 0 then -i else i);
    if i < 0 {
      ParseIntOfSignedDigits(d);
      GroupedDigits(d);
      assert IntToString(i) == ['-'] + d;
    } else {
      ParseIntOfDigits(d);
    }
  }

  lemma ParseIntOfDigits(d: string)
    requires d != [] && AllDigits(d)
    ensures ParseInt(d) == Some(DigitsValue(d) as int)
  {
    StripWithoutSpaceAtEnds(d);
    GroupedDigits(d);
  }

  lemma ParseIntOfSignedDigits(d: string)
    requires d != [] && AllDigits(d)
    ensures Grouped(d) && ParseInt(['-'] + d) == Some(-GroupedValue(d))
  {
    var s := ['-'] + d;
    assert s[0] == '-' && s[1..] == d && s[|s| - 1] == d[|d| - 1];
    GroupedDigits(d);
    calc {
      ParseInt(s);
      ParseSigned(Strip(s));
      { StripWithoutSpaceAtEnds(s); }
      ParseSigned(s);
      { NegativeValue(s); }
      Some(-GroupedValue(d));
    }
  }

  lemma NegativeValue(t: string)
    requires |t| > 1 && t[0] == '-' && Grouped(t[1..])
    ensures ParseSigned(t) == Some(-GroupedValue(t[1..]))
  {
  }

  lemma StripWithoutSpaceAtEnds(s: string)
    requires s != [] && !IsSpace(s[0]) && !IsSpace(s[|s| - 1])
    ensures Strip(s) == s
  {
  }

  lemma GroupedDigits(d: string)
    requires d != [] && AllDigits(d)
    ensures Grouped(d) && GroupedValue(d) == DigitsValue(d) as int
  {
  }

  /** int() ignores the whitespace around the digits. */
  lemma {:induction false} ParseIntIgnoresSpace()
    ensures ParseInt(" 2500\n") == Some(2500)
    ensures ParseInt(" ").None?
  {
    StripAround();
    assert DigitsValue("2500") == 2500 by {
      assert "2500"[..3] == "250" && "250"[..2] == "25" && "25"[..1] == "2" && "2"[..0] == "";
    }
    ParseIntOfDigits("2500");
    assert Strip(" ") == "" by {
      assert " "[1..] == "";
    }
  }

  lemma StripAround()
    ensures Strip(" 2500\n") == "2500"
  {
    var t := " 2500\n";
    var u := "2500\n";
    assert IsSpace(t[0]) && t[1..] == u;
    assert Strip(t) == Strip(u);
    assert IsSpace(u[|u| - 1]) && !IsSpace(u[0]) && u[..|u| - 1] == "2500";
    assert Strip(u) == Strip("2500");
    assert Strip("2500") == "2500";
  }

  /** int() reads single underscores between digits. */
  lemma {:induction false} ParseIntReadsUnderscores()
    ensures ParseInt("1_000") == Some(1000)
  {
    var g := "1_000";
    StripWithoutSpaceAtEnds(g);
    GroupedExample();
    assert DigitsValue("1000") == 1000 by {
      assert "1000"[..3] == "100" && "100"[..2] == "10" && "10"[..1] == "1" && "1"[..0] == "";
    }
  }

  lemma GroupedExample()
    ensures Grouped("1_000") && Ungrouped("1_000") == "1000"
  {
    var g := "1_000";
    assert Ungrouped("000") == "000";
    assert g[1..] == "_000" && g[1..][1..] == "000";
  }

  /** int() refuses a doubled, leading or trailing underscore and a space
      after the sign. */
  lemma {:induction false} ParseIntRefusals()
    ensures ParseInt("1__0").None? && ParseInt("_1").None? && ParseInt("1_").None?
    ensures ParseInt("- 1").None?
  {
    var d := "1__0";
    StripWithoutSpaceAtEnds(d);
    assert !Grouped(d) by {
      assert d[1] == '_' && d[2] == '_';
    }
    assert Strip("_1") == "_1";
    assert Strip("1_") == "1_";
    var m := "- 1";
    assert Strip(m) == m;
    assert !Grouped(m[1..]) by {
      assert m[1..][0] == ' ';
    }
  }

  /** Python int(x): truncates floats toward zero, parses strings, and
      refuses None, lists and dicts. */
  function PyInt(j: Json): Result<int> {
    match j
    case JInt(i) => Ok(i)
    case JBool(b) => Ok(if b then 1 else 0)
    case JReal(r) => Ok(if r >= 0.0 then r.Floor else -((-r).Floor))
    case JStr(s) => if ParseInt(s).Some? then Ok(ParseInt(s).value) else Err(ValueError)
    case _ => Err(TypeError)
  }

  // ---------------------------------------------------------------------
  // Iteration

  /** The elements a Python `for` loop visits: a list's items, a string's
      characters, a dict's keys. A map does not record the order of its
      keys; every consumer here only looks at what kind of value each
      element is, so each key stands as an empty string. Numbers, booleans
      and None are not iterable. */
  function Elements(j: Json): (r: Result<seq<Json>>)
    ensures j.JList? ==> r == Ok(j.items)
    ensures r.Ok? ==> (j.JList? || j.JStr? || j.JObj?)
    ensures r.Ok? && !j.JList? ==> forall k | 0 <= k < |r.value| :: r.value[k].JStr?
    ensures r.Ok? ==> (|r.value| == 0 <==> !Truthy(j))
  {
    match j
    case JList(xs) => Ok(xs)
    case JStr(s) => Ok(seq(|s|, k requires 0 <= k < |s| => JStr([s[k]])))
    case JObj(m) => Ok(seq(|m|, k => JStr("")))
    case _ => Err(TypeError)
  }

  /** A loop that turns each element into zero or one value, in order,
      and stops at the first element that raises. */
  function Collect<T>(xs: seq<Json>, f: Json -> Result<Option<T>>): Result<seq<T>> {
    if xs == [] then Ok([])
    else
      var init :- Collect(xs[..|xs| - 1], f);
      var last :- f(xs[|xs| - 1]);
      Ok(init + if last.Some? then [last.value] else [])
  }

  /** The outcome of the whole loop, told element by element: it succeeds
      iff every element does, and then yields each element's value in
      input order. */
  lemma {:induction false} CollectAppend<T>(xs: seq<Json>, x: Json, f: Json -> Result<Option<T>>)
    ensures Collect(xs + [x], f) ==
      if Collect(xs, f).Err? then Collect(xs, f)
      else if f(x).Err? then Err(f(x).error)
      else Ok(Collect(xs, f).value + if f(x).value.Some? then [f(x).value.value] else [])
  {
    assert (xs + [x])[..|xs + [x]| - 1] == xs;
  }

  /** Once the loop has raised, the rest of the elements are never visited. */
  lemma {:induction false} CollectFailsFromPrefix<T>(xs: seq<Json>, i: int, f: Json -> Result<Option<T>>)
    requires 0 <= i <= |xs| && Collect(xs[..i], f).Err?
    ensures Collect(xs, f) == Collect(xs[..i], f)
    decreases |xs| - i
  {
    if i < |xs| {
      CollectAppend(xs[..i], xs[i], f);
      assert xs[..i + 1] == xs[..i] + [xs[i]];
      CollectFailsFromPrefix(xs, i + 1, f);
    } else {
      assert xs[..i] == xs;
    }
  }

  /** When every element yields exactly one value, the loop yields one
      value per element, in order. */
  lemma {:induction false} CollectOneEach<T>(xs: seq<Json>, f: Json -> Result<Option<T>>)
    requires forall k | 0 <= k < |xs| :: f(xs[k]).Ok? && f(xs[k]).value.Some?
    ensures Collect(xs, f).Ok?
    ensures |Collect(xs, f).value| == |xs|
    ensures forall k | 0 <= k < |xs| :: Collect(xs, f).value[k] == f(xs[k]).value.value
  {
    if xs != [] {
      var init := xs[..|xs| - 1];
      CollectOneEach(init, f);
      assert xs == init + [xs[|xs| - 1]];
    }
  }

  /** The loop fails iff some element fails. */
  lemma {:induction false} CollectFails<T>(xs: seq<Json>, f: Json -> Result<Option<T>>)
    ensures Collect(xs, f).Err? <==> exists k | 0 <= k < |xs| :: f(xs[k]).Err?
  {
    if xs != [] {
      var init := xs[..|xs| - 1];
      CollectFails(init, f);
      if Collect(init, f).Err? {
        var k :| 0 <= k < |init| && f(init[k]).Err?;
        assert xs[k] == init[k];
      } else if f(xs[|xs| - 1]).Ok? {
        forall k | 0 <= k < |xs| ensures f(xs[k]).Ok? {
          if k < |init| { assert xs[k] == init[k]; }
        }
      }
    }
  }
}
