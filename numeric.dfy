/** Go's 64-bit integers and the decimal text conversions of the fmt and strconv packages. */
module Numeric {
  import opened Wrappers

  const TwoTo64: int := 0x1_0000_0000_0000_0000
  const MinInt64: int := -0x8000_0000_0000_0000
  const MaxInt64: int := 0x7FFF_FFFF_FFFF_FFFF
  const MaxUint64: int := 0xFFFF_FFFF_FFFF_FFFF

  predicate InInt64(x: int) { MinInt64 <= x <= MaxInt64 }

  /** The two's-complement wrap-around of Go's int64 (and time.Duration) arithmetic. */
  function Wrap64(x: int): (r: int)
    ensures InInt64(r)
    ensures (x - r) % TwoTo64 == 0
    ensures InInt64(x) ==> r == x
  {
    var q := (x - MinInt64) / TwoTo64;
    assert x - ((x - MinInt64) % TwoTo64 + MinInt64) == q * TwoTo64;
    (x - MinInt64) % TwoTo64 + MinInt64
  }

  predicate IsDigit(c: char) { '0' <= c <= '9' }

  predicate AllDigits(s: string) { forall i | 0 <= i < |s| :: IsDigit(s[i]) }

  function DigitChar(d: nat): (c: char)
    requires d < 10
    ensures IsDigit(c) && c as int - '0' as int == d
  {
    ('0' as int + d) as char
  }

  function DigitValue(c: char): (d: nat)
    requires IsDigit(c)
    ensures d < 10
  {
    c as int - '0' as int
  }

  /** The text fmt's %d prints for a non-negative integer: decimal digits, no leading zero. */
  function NatToString(n: nat): (s: string)
    ensures |s| > 0 && AllDigits(s)
    ensures s[0] == '0' ==> n == 0
    decreases n
  {
    if n < 10 then [DigitChar(n)] else NatToString(n / 10) + [DigitChar(n % 10)]
  }

  /** The number a string of decimal digits denotes. */
  function DigitsValue(s: string): nat
    requires AllDigits(s)
  {
    if s == [] then 0 else DigitsValue(s[..|s| - 1]) * 10 + DigitValue(s[|s| - 1])
  }

  /** Reading back what %d printed gives the same number. */
  lemma {:induction false} NatToStringRoundTrip(n: nat)
    ensures DigitsValue(NatToString(n)) == n
  {
    if n >= 10 {
      var s := NatToString(n);
      assert s == NatToString(n / 10) + [DigitChar(n % 10)];
      assert s[..|s| - 1] == NatToString(n / 10);
      NatToStringRoundTrip(n / 10);
    }
  }

  /** Distinct numbers print as distinct texts. */
  lemma NatToStringInjective(m: nat, n: nat)
    requires NatToString(m) == NatToString(n)
    ensures m == n
  {
    NatToStringRoundTrip(m);
    NatToStringRoundTrip(n);
  }

  /** The text fmt's %d prints for a signed integer. */
  function IntToString(i: int): (s: string)
    ensures |s| > 0 && (s[0] == '-' || IsDigit(s[0]))
  {
    if i < 0 then "-" + NatToString(-i) else NatToString(i)
  }

  /** The characters fmt's scanner treats as white space (the ASCII part of its table). */
  predicate IsScanSpace(c: char) {
    c == ' ' || c == '\t' || c == '\n' || c == '\r' || c as int == 11 || c as int == 12
  }

  /** fmt's SkipSpace under Sscanf: skips blanks, but a newline is an error ("unexpected newline"). */
  function SkipSpace(s: string): (r: Option<string>)
    ensures r.Some? ==> |r.value| <= |s| && (r.value == [] || !IsScanSpace(r.value[0]))
    ensures r.Some? ==> r.value == s[|s| - |r.value|..]
  {
    if s == [] then Some(s)
    else if s[0] == '\n' then None
    else if IsScanSpace(s[0]) then SkipSpace(s[1..])
    else Some(s)
  }

  /** Length of the longest prefix of decimal digits. */
  function DigitRun(s: string): (k: nat)
    ensures k <= |s| && AllDigits(s[..k])
    ensures k < |s| ==> !IsDigit(s[k])
  {
    if s != [] && IsDigit(s[0]) then 1 + DigitRun(s[1..]) else 0
  }

  /** Length of the longest prefix holding no white space: the word %s reads. */
  function WordRun(s: string): (k: nat)
    ensures k <= |s|
    ensures forall i | 0 <= i < k :: !IsScanSpace(s[i])
    ensures k < |s| ==> IsScanSpace(s[k])
  {
    if s != [] && !IsScanSpace(s[0]) then 1 + WordRun(s[1..]) else 0
  }

  /** At least one decimal digit: their value and the rest. */
  function ScanDigits(u: string): (r: Option<(nat, string)>)
    ensures r.Some? ==> |r.value.1| < |u|
  {
    var k := DigitRun(u);
    if k == 0 then None else Some((DigitsValue(u[..k]), u[k..]))
  }

  /** The %d verb after blanks: an optional sign and at least one digit, within int64; the value and the rest. */
  function ScanSigned(t: string): (r: Option<(int, string)>)
    ensures r.Some? ==> InInt64(r.value.0)
  {
    var neg := |t| > 0 && t[0] == '-';
    var u := Unsigned(t);
    match ScanDigits(u)
    case None => None
    case Some(mr) =>
      var v: int := if neg then -(mr.0 as int) else mr.0;
      if InInt64(v) then Some((v, mr.1)) else None
  }

  /** The %s verb: blanks, then a non-empty word. */
  function ScanWord(r: string): (w: Option<string>)
    ensures w.Some? ==> |w.value| > 0
  {
    match SkipSpace(r)
    case None => None
    case Some(t) => if t == [] then None else Some(t[..WordRun(t)])
  }

  /**
   * fmt.Sscanf(s, "%d%s", &n, &unit): blanks, an optional sign, at least one digit
   * (the value must fit an int64), blanks, then a non-empty word; text after the word
   * is ignored. None when Sscanf reports an error.
   */
  function ScanIntWord(s: string): (r: Option<(int, string)>)
    ensures r.Some? ==> InInt64(r.value.0) && |r.value.1| > 0
  {
    match SkipSpace(s)
    case None => None
    case Some(t) =>
      match ScanSigned(t)
      case None => None
      case Some(vr) =>
        match ScanWord(vr.1)
        case None => None
        case Some(unit) => Some((vr.0, unit))
  }

  lemma {:induction false} DigitRunAfterDigits(d: string, t: string)
    requires AllDigits(d)
    ensures DigitRun(d + t) == |d| + DigitRun(t)
  {
    if d != [] {
      assert (d + t)[0] == d[0] && IsDigit(d[0]);
      assert (d + t)[1..] == d[1..] + t;
      DigitRunAfterDigits(d[1..], t);
    } else {
      assert d + t == t;
    }
  }

  lemma {:induction false} WordRunWhole(w: string)
    requires forall i | 0 <= i < |w| :: !IsScanSpace(w[i])
    ensures WordRun(w) == |w|
  {
    if w != [] {
      WordRunWhole(w[1..]);
    }
  }

  /** The %s verb reads a whole word that starts without blanks. */
  lemma ScanWholeWord(unit: string)
    requires |unit| > 0
    requires forall i | 0 <= i < |unit| :: !IsScanSpace(unit[i])
    ensures ScanWord(unit) == Some(unit)
  {
    assert !IsScanSpace(unit[0]);
    assert SkipSpace(unit) == Some(unit);
    WordRunWhole(unit);
    assert unit[..|unit|] == unit;
  }

  /** Digits followed by a non-digit: the digit run ends exactly where the digits do. */
  lemma DigitsThenNonDigit(d: string, unit: string)
    requires AllDigits(d)
    requires unit == [] || !IsDigit(unit[0])
    ensures DigitRun(d + unit) == |d|
    ensures (d + unit)[..|d|] == d && (d + unit)[|d|..] == unit
  {
    DigitRunAfterDigits(d, unit);
    assert DigitRun(unit) == 0;
    assert (d + unit)[..|d|] == d;
    assert (d + unit)[|d|..] == unit;
  }

  /** Digits followed by a non-digit scan as their value and leave the rest. */
  lemma ScanDigitsThenNonDigit(d: string, unit: string)
    requires |d| > 0 && AllDigits(d)
    requires unit == [] || !IsDigit(unit[0])
    ensures ScanDigits(d + unit) == Some((DigitsValue(d), unit))
  {
    DigitsThenNonDigit(d, unit);
  }

  /** The %d verb on unsigned digits followed by a non-digit. */
  lemma ScanUnsignedDigits(d: string, unit: string)
    requires |d| > 0 && AllDigits(d) && InInt64(DigitsValue(d))
    requires unit == [] || !IsDigit(unit[0])
    ensures ScanSigned(d + unit) == Some((DigitsValue(d), unit))
  {
    assert (d + unit)[0] == d[0];
    ScanDigitsThenNonDigit(d, unit);
  }

  /** The %d verb on a minus sign, digits and a non-digit. */
  lemma ScanNegativeDigits(t: string, d: string, unit: string)
    requires |d| > 0 && AllDigits(d) && InInt64(-(DigitsValue(d) as int))
    requires unit == [] || !IsDigit(unit[0])
    requires |t| > 0 && t[0] == '-' && t[1..] == d + unit
    ensures ScanSigned(t) == Some((-(DigitsValue(d) as int), unit))
  {
    assert Unsigned(t) == d + unit;
    ScanDigitsThenNonDigit(d, unit);
  }

  /** The %d verb on a minus sign, digits and a non-digit, written as one text. */
  lemma ScanMinusDigits(d: string, unit: string)
    requires |d| > 0 && AllDigits(d) && InInt64(-(DigitsValue(d) as int))
    requires unit == [] || !IsDigit(unit[0])
    ensures ScanSigned("-" + d + unit) == Some((-(DigitsValue(d) as int), unit))
  {
    var t := "-" + d + unit;
    assert t == ['-'] + (d + unit);
    ScanNegativeDigits(t, d, unit);
  }

  /** The %d verb reads back a printed negative integer and leaves a following non-digit text alone. */
  lemma ScanPrintedNegative(n: int, unit: string)
    requires MinInt64 <= n < 0
    requires unit == [] || !IsDigit(unit[0])
    ensures ScanSigned(IntToString(n) + unit) == Some((n, unit))
  {
    var d := NatToString(-n);
    NatToStringRoundTrip(-n);
    assert IntToString(n) == "-" + d;
    ScanMinusDigits(d, unit);
  }

  /** The %d verb reads back a printed integer and leaves a following non-digit text alone. */
  lemma ScanPrintedSigned(n: int, unit: string)
    requires InInt64(n)
    requires unit == [] || !IsDigit(unit[0])
    ensures ScanSigned(IntToString(n) + unit) == Some((n, unit))
  {
    if n < 0 {
      ScanPrintedNegative(n, unit);
    } else {
      NatToStringRoundTrip(n);
      ScanUnsignedDigits(NatToString(n), unit);
    }
  }

  /** Sscanf("%d%s") reads back a printed integer followed directly by a word. */
  lemma ScanPrintedIntWord(n: int, unit: string)
    requires InInt64(n)
    requires |unit| > 0 && !IsDigit(unit[0])
    requires forall i | 0 <= i < |unit| :: !IsScanSpace(unit[i])
    ensures ScanIntWord(IntToString(n) + unit) == Some((n, unit))
  {
    var s := IntToString(n) + unit;
    assert !IsScanSpace(s[0]);
    assert SkipSpace(s) == Some(s);
    ScanPrintedSigned(n, unit);
    ScanWholeWord(unit);
  }

  /** Sscanf("%d%s") fails on a printed integer with no word after it. */
  lemma ScanNoUnit(n: int)
    requires InInt64(n)
    ensures ScanIntWord(IntToString(n)).None?
  {
    var s := IntToString(n);
    assert !IsScanSpace(s[0]);
    assert SkipSpace(s) == Some(s);
    ScanPrintedSigned(n, []);
    assert s + [] == s;
  }

  /** Sscanf("%d%s") fails when, after the blanks and an optional sign, no digit follows. */
  lemma ScanNoLeadingDigit(s: string)
    requires |s| > 0 && !IsScanSpace(s[0])
    requires Unsigned(s) == [] || !IsDigit(Unsigned(s)[0])
    ensures ScanIntWord(s).None?
  {
    assert SkipSpace(s) == Some(s);
  }

  /** Sscanf("%d%s") fails when the number it reads does not fit an int64. */
  lemma ScanOverflow(s: string, d: string, rest: string)
    requires |s| > 0 && !IsScanSpace(s[0])
    requires |d| > 0 && AllDigits(d) && Unsigned(s) == d + rest
    requires rest == [] || !IsDigit(rest[0])
    requires !InInt64(if s[0] == '-' then -(DigitsValue(d) as int) else DigitsValue(d))
    ensures ScanIntWord(s).None?
  {
    assert SkipSpace(s) == Some(s);
    ScanSignedOverflow(s, d, rest);
  }

  /** The %d verb refuses a number outside int64. */
  lemma ScanSignedOverflow(t: string, d: string, rest: string)
    requires |t| > 0
    requires |d| > 0 && AllDigits(d) && Unsigned(t) == d + rest
    requires rest == [] || !IsDigit(rest[0])
    requires !InInt64(if t[0] == '-' then -(DigitsValue(d) as int) else DigitsValue(d))
    ensures ScanSigned(t).None?
  {
    ScanDigitsOfUnsigned(t, d, rest);
    ScanSignedOfDigits(t, d, rest);
  }

  /** After the sign, the %d verb reads the whole run of digits. */
  lemma ScanDigitsOfUnsigned(t: string, d: string, rest: string)
    requires |d| > 0 && AllDigits(d) && Unsigned(t) == d + rest
    requires rest == [] || !IsDigit(rest[0])
    ensures ScanDigits(Unsigned(t)) == Some((DigitsValue(d), rest))
  {
    ScanDigitsThenNonDigit(d, rest);
  }

  /** Once the digits after the sign are read, the %d verb refuses a value, negated after a minus sign, outside int64. */
  lemma ScanSignedOfDigits(t: string, d: string, rest: string)
    requires |t| > 0 && AllDigits(d) && ScanDigits(Unsigned(t)) == Some((DigitsValue(d), rest))
    requires !InInt64(if t[0] == '-' then -(DigitsValue(d) as int) else DigitsValue(d))
    ensures ScanSigned(t).None?
  {
  }

  /** Sscanf("%d%s") fails on a newline before the number ("unexpected newline"). */
  lemma ScanNewlineFirst(s: string)
    requires |s| > 0 && s[0] == '\n'
    ensures ScanIntWord(s).None?
  {
  }

  /** The text after one leading sign, if there is one. */
  function Unsigned(s: string): (u: string)
    ensures |u| >= |s| - 1
  {
    if |s| > 0 && (s[0] == '+' || s[0] == '-') then s[1..] else s
  }

  /** The value of the longest prefix of decimal digits (0 when there is none). */
  function LeadingValue(s: string): nat {
    DigitsValue(s[..DigitRun(s)])
  }

  /**
   * The value strconv.Atoi returns when its error is ignored. Its digit loop stops with
   * ErrRange as soon as the digits read exceed 2^64 - 1, before it can see a later
   * non-digit, and then the result is the int64 bound of the sign. Otherwise a text that
   * is not a sign followed by digits is a syntax error (0), and a number outside int64 is
   * the nearest bound.
   */
  function AtoiValue(s: string): (v: int)
    ensures InInt64(v)
  {
    var neg := |s| > 0 && s[0] == '-';
    var u := Unsigned(s);
    if LeadingValue(u) > MaxUint64 then (if neg then MinInt64 else MaxInt64)
    else if u == [] || !AllDigits(u) then 0
    else
      var m: int := if neg then -(DigitsValue(u) as int) else DigitsValue(u);
      if m > MaxInt64 then MaxInt64 else if m < MinInt64 then MinInt64 else m
  }

  /** Leading digits worth more than 2^64 - 1 give the bound of the sign, whatever follows them. */
  lemma AtoiOverflowAfterSign(s: string, d: string, rest: string)
    requires |d| > 0 && AllDigits(d) && DigitsValue(d) > MaxUint64
    requires rest == [] || !IsDigit(rest[0])
    requires Unsigned(s) == d + rest
    ensures AtoiValue(s) == if |s| > 0 && s[0] == '-' then MinInt64 else MaxInt64
  {
    DigitsThenNonDigit(d, rest);
    assert LeadingValue(Unsigned(s)) == DigitsValue(d);
  }

  /**
   * A text that is not a sign followed by digits reads as 0, as long as its leading digits
   * stay within 2^64 - 1.
   */
  lemma AtoiSyntaxError(s: string)
    requires Unsigned(s) == [] || !AllDigits(Unsigned(s))
    requires LeadingValue(Unsigned(s)) <= MaxUint64
    ensures AtoiValue(s) == 0
  {
  }

  /** strconv.Atoi reads back every int64 that %d printed. */
  lemma AtoiOfPrinted(n: int)
    requires InInt64(n)
    ensures AtoiValue(IntToString(n)) == n
  {
    var m: nat := if n < 0 then -n else n;
    NatToStringRoundTrip(m);
    var s := IntToString(n);
    var d := NatToString(m);
    if n < 0 {
      assert s[1..] == d;
    }
    assert Unsigned(s) == d;
    DigitsThenNonDigit(d, []);
    assert d + [] == d;
    assert LeadingValue(d) == m;
  }
}
