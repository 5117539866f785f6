/**
 * utils/duration_parser.go: durations written as Go durations ("90m", "2h") or as a
 * whole number of days or weeks ("3d", "2w"), and the inverse that prints whole weeks
 * and days.
 */
module DurationParser {
  import opened Wrappers
  import opened Numeric
  import opened GoTime

  /** time.ParseDuration, left abstract: nanoseconds, or Go's error text. */
  type GoParser = string -> Result<int, string>

  /** Duration.String(), left abstract. */
  type GoFormatter = int -> string

  datatype ParseError =
    | InvalidDurationFormat(input: string)
    | UnsupportedDurationUnit(unit: string)

  /**
   * ParseDuration: Go's own syntax first; otherwise "%d%s" must scan, and the word must be
   * "d" or "w". The products wrap around like Go's int64 multiplications.
   */
  function ParseDuration(s: string, goParse: GoParser): (r: Result<int, ParseError>)
    ensures goParse(s).Success? ==> r == Success(goParse(s).value)
    ensures goParse(s).Failure? && r.Success? ==> InInt64(r.value)
    ensures r == Failure(InvalidDurationFormat(s)) <==> goParse(s).Failure? && ScanIntWord(s).None?
  {
    if goParse(s).Success? then Success(goParse(s).value)
    else
      match ScanIntWord(s)
      case None => Failure(InvalidDurationFormat(s))
      case Some(nu) =>
        var (n, unit) := nu;
        if unit == "d" then Success(Wrap64(Wrap64(n * 24) * Hour))
        else if unit == "w" then Success(Wrap64(Wrap64(Wrap64(n * 7) * 24) * Hour))
        else Failure(UnsupportedDurationUnit(unit))
  }

  /**
   * FormatDuration: at least a week prints the whole weeks and "w"; at least a day prints
   * the whole days and "d"; anything shorter is Go's own text.
   */
  function FormatDuration(d: int, goString: GoFormatter): (r: string)
    ensures d >= Week ==> |r| >= 2 && r[|r| - 1] == 'w' && AllDigits(r[..|r| - 1]) && r[0] != '0'
    ensures Day <= d < Week ==> |r| >= 2 && r[|r| - 1] == 'd' && AllDigits(r[..|r| - 1]) && r[0] != '0'
    ensures d < Day ==> r == goString(d)
  {
    if d >= Week then NatToString(d / Week) + "w"
    else if d >= Day then NatToString(d / Day) + "d"
    else goString(d)
  }

  lemma MulAtLeast(p: int, b: int)
    requires b >= 1
    ensures p >= 0 ==> p * b >= p && b * p >= p
    ensures p < 0 ==> p * b <= p && b * p <= p
  {
    var c := b - 1;
    assert p * b == p * c + p;
    if p >= 0 {
      assert p * c >= 0;
    } else {
      assert p * c <= 0;
    }
  }

  lemma InRangeFactor(n: int, a: int, b: int)
    requires a >= 1 && b >= 1 && InInt64(n * a * b)
    ensures InInt64(n * a)
  {
    MulAtLeast(n * a, b);
  }

  lemma DivUnique(x: int, d: int, q: int, r: int)
    requires d > 0 && 0 <= r < d && x == q * d + r
    ensures x / d == q
  {
    var q0, r0 := x / d, x % d;
    assert (q - q0) * d == r0 - r;
    if q - q0 >= 1 {
      MulAtLeast(d, q - q0);
    } else if q0 - q >= 1 {
      MulAtLeast(d, q0 - q);
    }
  }

  /** Go's two wrapping multiplications give n days when n days fit an int64. */
  lemma DayProduct(n: int)
    requires InInt64(n * Day)
    ensures Wrap64(Wrap64(n * 24) * Hour) == n * Day
  {
    assert n * Day == n * 24 * Hour;
    InRangeFactor(n, 24, Hour);
  }

  /** Go's three wrapping multiplications give n weeks when n weeks fit an int64. */
  lemma WeekProduct(n: int)
    requires InInt64(n * Week)
    ensures Wrap64(Wrap64(Wrap64(n * 7) * 24) * Hour) == n * Week
  {
    assert n * Week == n * 7 * 24 * Hour;
    InRangeFactor(n * 7, 24, Hour);
    InRangeFactor(n, 7, 24);
  }

  /** A word the %s verb reads whole, which Go's parser did not accept. */
  lemma UnitScansWhole(n: int, unit: string)
    requires InInt64(n)
    requires unit == "d" || unit == "w"
    ensures ScanIntWord(IntToString(n) + unit) == Some((n, unit))
  {
    ScanPrintedIntWord(n, unit);
  }

  /** "<n>d" is n days, sign included ("-2d" is minus 48 hours). */
  lemma DaySuffix(n: int, goParse: GoParser)
    requires InInt64(n * Day)
    requires goParse(IntToString(n) + "d").Failure?
    ensures ParseDuration(IntToString(n) + "d", goParse) == Success(n * Day)
  {
    InRangeFactor(n, 1, Day);
    DayProduct(n);
    UnitScansWhole(n, "d");
  }

  /** "<n>w" is n weeks. */
  lemma WeekSuffix(n: int, goParse: GoParser)
    requires InInt64(n * Week)
    requires goParse(IntToString(n) + "w").Failure?
    ensures ParseDuration(IntToString(n) + "w", goParse) == Success(n * Week)
  {
    InRangeFactor(n, 1, Week);
    WeekProduct(n);
    UnitScansWhole(n, "w");
  }

  /** A text with no digit at all, refused by Go's parser, has no leading integer. */
  lemma NoLeadingInteger(s: string, goParse: GoParser)
    requires goParse(s).Failure?
    requires forall i | 0 <= i < |s| :: !IsDigit(s[i])
    ensures ParseDuration(s, goParse) == Failure(InvalidDurationFormat(s))
  {
    match SkipSpace(s)
    case None =>
    case Some(t) =>
      assert forall i | 0 <= i < |t| :: t[i] == s[|s| - |t| + i];
      var u := if |t| > 0 && (t[0] == '+' || t[0] == '-') then t[1..] else t;
      assert u == [] || !IsDigit(u[0]);
      assert DigitRun(u) == 0;
  }

  /** A bare number that Go's parser refuses (it lacks a unit) is "invalid duration format". */
  lemma BareNumberInvalid(n: int, goParse: GoParser)
    requires InInt64(n) && goParse(IntToString(n)).Failure?
    ensures ParseDuration(IntToString(n), goParse) == Failure(InvalidDurationFormat(IntToString(n)))
  {
    ScanNoUnit(n);
  }

  /** Text that does not start with an optionally signed number ("abc5d") is "invalid duration format". */
  lemma LeadingNonDigitInvalid(s: string, goParse: GoParser)
    requires goParse(s).Failure?
    requires |s| > 0 && !IsScanSpace(s[0])
    requires Unsigned(s) == [] || !IsDigit(Unsigned(s)[0])
    ensures ParseDuration(s, goParse) == Failure(InvalidDurationFormat(s))
  {
    ScanNoLeadingDigit(s);
  }

  /** A count outside int64 ("99999999999999999999d") is "invalid duration format". */
  lemma OverflowingCountInvalid(s: string, d: string, rest: string, goParse: GoParser)
    requires goParse(s).Failure?
    requires |s| > 0 && !IsScanSpace(s[0])
    requires |d| > 0 && AllDigits(d) && Unsigned(s) == d + rest
    requires rest == [] || !IsDigit(rest[0])
    requires !InInt64(if s[0] == '-' then -(DigitsValue(d) as int) else DigitsValue(d))
    ensures ParseDuration(s, goParse) == Failure(InvalidDurationFormat(s))
  {
    ScanOverflow(s, d, rest);
  }

  /** A newline before the number is "invalid duration format". */
  lemma NewlineFirstInvalid(s: string, goParse: GoParser)
    requires goParse(s).Failure? && |s| > 0 && s[0] == '\n'
    ensures ParseDuration(s, goParse) == Failure(InvalidDurationFormat(s))
  {
    ScanNewlineFirst(s);
  }

  /** A scanned integer followed by any word other than "d" or "w" is an unsupported unit. */
  lemma OtherUnit(n: int, unit: string, goParse: GoParser)
    requires InInt64(n)
    requires |unit| > 0 && !IsDigit(unit[0]) && unit != "d" && unit != "w"
    requires forall i | 0 <= i < |unit| :: !IsScanSpace(unit[i])
    requires goParse(IntToString(n) + unit).Failure?
    ensures ParseDuration(IntToString(n) + unit, goParse) == Failure(UnsupportedDurationUnit(unit))
  {
    ScanPrintedIntWord(n, unit);
  }

  /**
   * The %d verb reads decimal digits only: an underscore ends the number and starts the
   * word, so "1_0d" names the unit "_0d".
   */
  lemma UnderscoreEndsNumber(goParse: GoParser)
    requires goParse("1_0d").Failure?
    ensures ParseDuration("1_0d", goParse) == Failure(UnsupportedDurationUnit("_0d"))
  {
    assert IntToString(1) + "_0d" == "1_0d";
    OtherUnit(1, "_0d", goParse);
  }

  /** Formatting a whole number of weeks gives back "<n>w". */
  lemma FormatWeeks(n: nat, goString: GoFormatter)
    requires n >= 1
    ensures FormatDuration(n * Week, goString) == NatToString(n) + "w"
  {
    DivUnique(n * Week, Week, n, 0);
  }

  /** Round trip: "<n>w" parses and formats back to itself. */
  lemma WeeksRoundTrip(n: nat, goParse: GoParser, goString: GoFormatter)
    requires n >= 1 && n * Week <= MaxInt64
    requires goParse(NatToString(n) + "w").Failure?
    ensures ParseDuration(NatToString(n) + "w", goParse).Success?
    ensures FormatDuration(ParseDuration(NatToString(n) + "w", goParse).value, goString) == NatToString(n) + "w"
  {
    assert IntToString(n) == NatToString(n);
    WeekSuffix(n, goParse);
    FormatWeeks(n, goString);
  }

  /** Round trip: "<n>d" for one to six days parses and formats back to itself. */
  lemma DaysRoundTrip(n: nat, goParse: GoParser, goString: GoFormatter)
    requires 1 <= n <= 6
    requires goParse(NatToString(n) + "d").Failure?
    ensures ParseDuration(NatToString(n) + "d", goParse).Success?
    ensures FormatDuration(ParseDuration(NatToString(n) + "d", goParse).value, goString) == NatToString(n) + "d"
  {
    assert IntToString(n) == NatToString(n);
    DaySuffix(n, goParse);
    DivUnique(n * Day, Day, n, 0);
  }

  /** Seven days or more format as whole weeks, dropping the odd days: "10d" prints as "1w". */
  lemma DaysFoldIntoWeeks(n: nat, goParse: GoParser, goString: GoFormatter)
    requires n >= 7 && n * Day <= MaxInt64
    requires goParse(NatToString(n) + "d").Failure?
    ensures ParseDuration(NatToString(n) + "d", goParse).Success?
    ensures FormatDuration(ParseDuration(NatToString(n) + "d", goParse).value, goString) == NatToString(n / 7) + "w"
  {
    assert IntToString(n) == NatToString(n);
    DaySuffix(n, goParse);
    var q, r := n / 7, n % 7;
    assert n == q * 7 + r;
    assert n * Day == q * Week + r * Day;
    DivUnique(n * Day, Week, q, r * Day);
  }
}
