/**
 * Date texts and their parsing. The downloaders build a text per row with an
 * f-string (`f"{y}-{m}-{d}"`) and hand it to `pd.to_datetime` with an explicit
 * strptime format; this module models both halves: Python's decimal rendering
 * of an integer, and a strptime-style parser for the directives the package
 * uses (`%Y`, `%m`, `%d` and literal characters).
 */
module Dates {
  import opened Outcomes

  /** The key of a normalised row. */
  datatype Date = Date(year: int, month: int, day: int)

  predicate IsDigit(c: char) {
    '0' <= c <= '9'
  }

  predicate AllDigits(s: string) {
    forall i :: 0 <= i < |s| ==> IsDigit(s[i])
  }

  function DigitChar(d: nat): (c: char)
    requires d < 10
    ensures IsDigit(c) && c as int - '0' as int == d
  {
    ('0' as int + d) as char
  }

  function DigitValue(c: char): (d: nat)
    requires IsDigit(c)
    ensures d < 10
  {
    c as int - '0' as int
  }

  function Pow10(k: nat): (p: nat)
    ensures p >= 1
  {
    if k == 0 then 1 else 10 * Pow10(k - 1)
  }

  // ---------------------------------------------------------------------------
  // Rendering: what `f"{n}"` writes for a Python int
  // ---------------------------------------------------------------------------

  /** Decimal digits of n without leading zeros. */
  function NatText(n: nat): (s: string)
    ensures 1 <= |s| && AllDigits(s)
  {
    if n < 10 then [DigitChar(n)] else NatText(n / 10) + [DigitChar(n % 10)]
  }

  /** `f"{n}"`: a minus sign for negative numbers, then the digits. */
  function IntText(n: int): (s: string)
    ensures 1 <= |s|
    ensures n < 0 <==> s[0] == '-'
    ensures n >= 0 ==> AllDigits(s)
  {
    if n < 0 then "-" + NatText(-n) else NatText(n)
  }

  /** "MM": a month number padded to two digits, as in an "MM/YYYY" label. */
  function TwoDigitText(n: nat): (s: string)
    requires n < 100
    ensures |s| == 2 && AllDigits(s)
  {
    [DigitChar(n / 10), DigitChar(n % 10)]
  }

  /** The number a run of decimal digits denotes. */
  function DigitsValue(s: string): nat
    requires AllDigits(s)
  {
    if s == [] then 0 else 10 * DigitsValue(s[..|s| - 1]) + DigitValue(s[|s| - 1])
  }

  lemma {:induction false} NatTextValue(n: nat)
    ensures DigitsValue(NatText(n)) == n
  {
    if n >= 10 {
      var s := NatText(n);
      assert s[..|s| - 1] == NatText(n / 10);
      NatTextValue(n / 10);
    }
  }

  lemma TwoDigitTextValue(n: nat)
    requires n < 100
    ensures DigitsValue(TwoDigitText(n)) == n
  {
    var s := TwoDigitText(n);
    assert s[..1] == [DigitChar(n / 10)] && s[..1][..0] == [];
    assert DigitsValue(s[..1]) == n / 10;
  }

  /** NatText(n) has at most k digits exactly when n < 10^k. */
  lemma {:induction false} NatTextLength(n: nat, k: nat)
    requires k >= 1
    ensures |NatText(n)| <= k <==> n < Pow10(k)
  {
    if n >= 10 {
      if k == 1 {
        assert |NatText(n)| == |NatText(n / 10)| + 1;
      } else {
        NatTextLength(n / 10, k - 1);
        assert n / 10 < Pow10(k - 1) <==> n < 10 * Pow10(k - 1);
      }
    } else {
      assert Pow10(k) == 10 * Pow10(k - 1);
    }
  }

  // ---------------------------------------------------------------------------
  // Parsing: `pd.to_datetime(texts, format=...)` on one text
  // ---------------------------------------------------------------------------

  datatype Field = Year | Month | Day

  /** One element of a strptime format: a numeric directive or a literal character. */
  datatype Directive = Number(field: Field) | Literal(c: char)

  /** "%Y-%m-%d" */
  const YearMonthDayFormat: seq<Directive> :=
    [Number(Year), Literal('-'), Number(Month), Literal('-'), Number(Day)]

  /** "%Y-%m" */
  const YearMonthFormat: seq<Directive> := [Number(Year), Literal('-'), Number(Month)]

  /** "%m/%Y" */
  const MonthYearFormat: seq<Directive> := [Number(Month), Literal('/'), Number(Year)]

  /** The fields strptime fills in when a format does not mention them. */
  const Defaults := Date(1900, 1, 1)

  /** `%Y` reads exactly four digits; `%m` and `%d` one or two. */
  function MinWidth(f: Field): nat {
    if f == Year then 4 else 1
  }

  function MaxWidth(f: Field): nat {
    if f == Year then 4 else 2
  }

  /** The values a directive accepts: months 1..12, days 1..31, any four-digit year. */
  predicate InRange(f: Field, v: int) {
    match f
    case Year => true
    case Month => 1 <= v <= 12
    case Day => 1 <= v <= 31
  }

  function WithField(d: Date, f: Field, v: int): Date {
    match f
    case Year => d.(year := v)
    case Month => d.(month := v)
    case Day => d.(day := v)
  }

  /** Length of the run of digits that starts s, read greedily up to w characters. */
  function DigitRun(s: string, w: nat): (n: nat)
    ensures n <= w && n <= |s|
    ensures AllDigits(s[..n])
    ensures n < w && n < |s| ==> !IsDigit(s[n])
  {
    if w == 0 || s == [] || !IsDigit(s[0]) then 0
    else
      var k := DigitRun(s[1..], w - 1);
      assert s[..1 + k] == [s[0]] + s[1..][..k];
      1 + k
  }

  function FieldOf(d: Date, f: Field): int {
    match f
    case Year => d.year
    case Month => d.month
    case Day => d.day
  }

  /**
   * Matches all of s against format, filling acc; None when a directive
   * fails or text remains. A field the format does not mention keeps its
   * value in acc (strptime's default), and a field it reads is in range.
   */
  function Parse(format: seq<Directive>, s: string, acc: Date): (r: Option<Date>)
    ensures r.Some? ==> forall f :: Number(f) !in format ==> FieldOf(r.value, f) == FieldOf(acc, f)
    ensures r.Some? ==> forall f :: Number(f) in format ==> InRange(f, FieldOf(r.value, f))
    decreases format
  {
    if format == [] then
      if s == [] then Some(acc) else None
    else
      assert forall d :: d in format <==> d == format[0] || d in format[1..];
      match format[0]
      case Literal(c) =>
        if s != [] && s[0] == c then Parse(format[1..], s[1..], acc) else None
      case Number(f) =>
        var n := DigitRun(s, MaxWidth(f));
        if n < MinWidth(f) || !InRange(f, DigitsValue(s[..n])) then None
        else Parse(format[1..], s[n..], WithField(acc, f, DigitsValue(s[..n])))
  }

  function ParseDate(format: seq<Directive>, s: string): Option<Date> {
    Parse(format, s, Defaults)
  }

  // ---------------------------------------------------------------------------
  // How one rendered number is read back
  // ---------------------------------------------------------------------------

  function Min(a: nat, b: nat): nat {
    if a <= b then a else b
  }

  lemma {:induction false} DigitRunOfDigits(ds: string, rest: string, w: nat)
    requires AllDigits(ds)
    requires rest == [] || !IsDigit(rest[0])
    ensures DigitRun(ds + rest, w) == Min(|ds|, w)
  {
    if w != 0 && ds != [] {
      assert (ds + rest)[1..] == ds[1..] + rest;
      DigitRunOfDigits(ds[1..], rest, w - 1);
    }
  }

  /** What a directive accepts of a rendered integer: `%Y` a four-digit year, `%m` 1..12, `%d` 1..31. */
  predicate Accepts(f: Field, n: int) {
    match f
    case Year => 1000 <= n <= 9999
    case Month => 1 <= n <= 12
    case Day => 1 <= n <= 31
  }

  /** A numeric directive consumes exactly the rendering of n when it accepts n, and the parse fails otherwise. */
  lemma NumberStep(f: Field, n: int, rest: string, tail: seq<Directive>, acc: Date)
    requires rest == [] || !IsDigit(rest[0])
    requires tail == [] || (tail[0].Literal? && !IsDigit(tail[0].c))
    ensures Parse([Number(f)] + tail, IntText(n) + rest, acc)
         == if Accepts(f, n) then Parse(tail, rest, WithField(acc, f, n)) else None
  {
    var format := [Number(f)] + tail;
    assert format[0] == Number(f) && format[1..] == tail;
    if n < 0 {
      NegativeRejected(f, n, rest);
    } else {
      var ds, s := NatText(n), IntText(n) + rest;
      DigitRunOfDigits(ds, rest, MaxWidth(f));
      var k := DigitRun(s, MaxWidth(f));
      if |ds| <= MaxWidth(f) {
        assert k == |ds|;
        assert s[..k] == ds && s[k..] == rest;
        NatTextValue(n);
        WidthAccepts(f, n);
      } else {
        TooWideRejected(f, n);
        assert k == MaxWidth(f) && IsDigit(s[k]);
        assert s[k..][0] == s[k];
      }
    }
  }

  /** A minus sign is not a digit: no numeric directive reads a negative number. */
  lemma NegativeRejected(f: Field, n: int, rest: string)
    requires n < 0
    ensures DigitRun(IntText(n) + rest, MaxWidth(f)) == 0 && !Accepts(f, n)
  {
    assert (IntText(n) + rest)[0] == '-';
  }

  /** A rendering that fits the directive's width is accepted exactly when it is long enough and in range. */
  lemma WidthAccepts(f: Field, n: nat)
    requires |NatText(n)| <= MaxWidth(f)
    ensures (MinWidth(f) <= |NatText(n)| && InRange(f, n)) == Accepts(f, n)
  {
    if f == Year {
      NatTextLength(n, 4);
      NatTextLength(n, 3);
      assert Pow10(3) == 1000 && Pow10(4) == 10000;
    } else {
      NatTextLength(n, 2);
      assert Pow10(2) == 100;
    }
  }

  /** A rendering wider than the directive is not a value it accepts. */
  lemma TooWideRejected(f: Field, n: nat)
    requires |NatText(n)| > MaxWidth(f)
    ensures !Accepts(f, n)
  {
    NatTextLength(n, MaxWidth(f));
    assert Pow10(2) == 100 && Pow10(4) == 10000;
  }

  lemma LiteralStep(c: char, rest: string, tail: seq<Directive>, acc: Date)
    ensures Parse([Literal(c)] + tail, [c] + rest, acc) == Parse(tail, rest, acc)
  {
    var format := [Literal(c)] + tail;
    assert format[0] == Literal(c) && format[1..] == tail;
    assert ([c] + rest)[1..] == rest;
  }

  // ---------------------------------------------------------------------------
  // The per-row texts of the downloaders and what they parse to
  // ---------------------------------------------------------------------------

  /** `f"{y}-{m}-{d}"` */
  function YearMonthDayText(y: int, m: int, d: int): string {
    IntText(y) + "-" + IntText(m) + "-" + IntText(d)
  }

  /** `f"{y}-{m}-01"` */
  function YearMonthFirstText(y: int, m: int): string {
    IntText(y) + "-" + IntText(m) + "-01"
  }

  /** An "MM/YYYY" label. */
  function MonthYearLabel(m: nat, y: nat): string
    requires m < 100
  {
    TwoDigitText(m) + "/" + NatText(y)
  }

  /** A year, month and day that `%Y-%m-%d` can denote. */
  predicate ValidParts(y: int, m: int, d: int) {
    1000 <= y <= 9999 && 1 <= m <= 12 && 1 <= d <= 31
  }

  /** "%m-%d" after the year: the month text, a dash, then the day text. */
  lemma MonthDayTail(m: int, dayText: string, acc: Date)
    ensures Parse([Number(Month), Literal('-'), Number(Day)], IntText(m) + ("-" + dayText), acc)
         == if Accepts(Month, m) then Parse([Number(Day)], dayText, WithField(acc, Month, m)) else None
  {
    var f3 := [Literal('-'), Number(Day)];
    assert [Number(Month), Literal('-'), Number(Day)] == [Number(Month)] + f3;
    NumberStep(Month, m, "-" + dayText, f3, acc);
    if Accepts(Month, m) {
      assert f3 == [Literal('-')] + [Number(Day)];
      LiteralStep('-', dayText, [Number(Day)], WithField(acc, Month, m));
    }
  }

  /** "%Y-" then the rest of a format: the year text and a dash. */
  lemma YearDashHead(y: int, rest: string, tail: seq<Directive>)
    ensures Parse([Number(Year), Literal('-')] + tail, IntText(y) + ("-" + rest), Defaults)
         == if Accepts(Year, y) then Parse(tail, rest, WithField(Defaults, Year, y)) else None
  {
    var f1 := [Literal('-')] + tail;
    assert [Number(Year), Literal('-')] + tail == [Number(Year)] + f1;
    NumberStep(Year, y, "-" + rest, f1, Defaults);
    if Accepts(Year, y) {
      LiteralStep('-', rest, tail, WithField(Defaults, Year, y));
    }
  }

  /** The text built from integer parts parses with "%Y-%m-%d" exactly when the parts are in range, and then to those parts. */
  lemma YearMonthDayRoundTrip(y: int, m: int, d: int)
    ensures ParseDate(YearMonthDayFormat, YearMonthDayText(y, m, d))
         == if ValidParts(y, m, d) then Some(Date(y, m, d)) else None
  {
    var dayText := IntText(d);
    var rest := IntText(m) + ("-" + dayText);
    var tail := [Number(Month), Literal('-'), Number(Day)];
    var a1 := WithField(Defaults, Year, y);
    assert ParseDate(YearMonthDayFormat, YearMonthDayText(y, m, d))
        == if Accepts(Year, y) then Parse(tail, rest, a1) else None by {
      assert YearMonthDayText(y, m, d) == IntText(y) + ("-" + rest);
      assert YearMonthDayFormat == [Number(Year), Literal('-')] + tail;
      YearDashHead(y, rest, tail);
    }
    assert Parse(tail, rest, a1) == if Accepts(Month, m) && Accepts(Day, d) then Some(Date(y, m, d)) else None by {
      MonthDayTail(m, dayText, a1);
      DayLast(d, WithField(a1, Month, m));
    }
  }

  /** "%d" at the end of the format reads the whole day text. */
  lemma DayLast(d: int, acc: Date)
    ensures Parse([Number(Day)], IntText(d), acc) == if Accepts(Day, d) then Some(WithField(acc, Day, d)) else None
  {
    assert IntText(d) == IntText(d) + [] && [Number(Day)] == [Number(Day)] + [];
    NumberStep(Day, d, [], [], acc);
  }

  /** The text `f"{y}-{m}-01"` with the day-less format "%Y-%m" never parses: "-01" is left over. */
  lemma YearMonthFirstRejected(y: int, m: int)
    ensures ParseDate(YearMonthFormat, YearMonthFirstText(y, m)) == None
  {
    var rest := IntText(m) + "-01";
    assert YearMonthFirstText(y, m) == IntText(y) + ("-" + rest);
    assert YearMonthFormat == [Number(Year), Literal('-')] + [Number(Month)];
    YearDashHead(y, rest, [Number(Month)]);
    assert [Number(Month)] == [Number(Month)] + [];
    NumberStep(Month, m, "-01", [], WithField(Defaults, Year, y));
  }

  /** A numeric directive consumes all of a digit run it accepts. */
  lemma DigitsStep(f: Field, ds: string, rest: string, tail: seq<Directive>, acc: Date)
    requires AllDigits(ds) && MinWidth(f) <= |ds| <= MaxWidth(f) && InRange(f, DigitsValue(ds))
    requires rest == [] || !IsDigit(rest[0])
    ensures Parse([Number(f)] + tail, ds + rest, acc) == Parse(tail, rest, WithField(acc, f, DigitsValue(ds)))
  {
    var format := [Number(f)] + tail;
    assert format[0] == Number(f) && format[1..] == tail;
    DigitRunOfDigits(ds, rest, MaxWidth(f));
    assert (ds + rest)[..|ds|] == ds && (ds + rest)[|ds|..] == rest;
  }

  /** "01", the day the illiquidity text appends, is read by `%d` as day 1. */
  lemma FirstDayText(acc: Date)
    ensures Parse([Number(Day)], "01", acc) == Some(WithField(acc, Day, 1))
  {
    var ds := TwoDigitText(1);
    TwoDigitTextValue(1);
    DigitsStep(Day, ds, [], [], acc);
    assert [Number(Day)] + [] == [Number(Day)] && ds + [] == ds;
    assert ds == "01";
  }

  /** The text `f"{y}-{m}-01"` with "%Y-%m-%d" parses to the first of the month when year and month are in range. */
  lemma YearMonthFirstRoundTrip(y: int, m: int)
    ensures ParseDate(YearMonthDayFormat, YearMonthFirstText(y, m))
         == if ValidParts(y, m, 1) then Some(Date(y, m, 1)) else None
  {
    var rest := IntText(m) + ("-" + "01");
    var tail := [Number(Month), Literal('-'), Number(Day)];
    var a1 := WithField(Defaults, Year, y);
    assert ParseDate(YearMonthDayFormat, YearMonthFirstText(y, m))
        == if Accepts(Year, y) then Parse(tail, rest, a1) else None by {
      assert YearMonthFirstText(y, m) == IntText(y) + ("-" + rest);
      assert YearMonthDayFormat == [Number(Year), Literal('-')] + tail;
      YearDashHead(y, rest, tail);
    }
    assert Parse(tail, rest, a1) == if Accepts(Month, m) then Some(Date(y, m, 1)) else None by {
      MonthDayTail(m, "01", a1);
      FirstDayText(WithField(a1, Month, m));
    }
  }

  /** An "MM/YYYY" label parses with "%m/%Y" to the first of that month. */
  lemma MonthYearLabelRoundTrip(m: nat, y: nat)
    requires 1 <= m <= 12 && 1000 <= y <= 9999
    ensures ParseDate(MonthYearFormat, MonthYearLabel(m, y)) == Some(Date(y, m, 1))
  {
    var mm := TwoDigitText(m);
    var r1 := "/" + NatText(y);
    assert MonthYearLabel(m, y) == mm + r1;
    var f1 := [Literal('/'), Number(Year)];
    assert MonthYearFormat == [Number(Month)] + f1;
    assert f1 == [Literal('/')] + [Number(Year)];
    DigitRunOfDigits(mm, r1, 2);
    assert (mm + r1)[..2] == mm && (mm + r1)[2..] == r1;
    TwoDigitTextValue(m);
    var a1 := WithField(Defaults, Month, m);
    assert ParseDate(MonthYearFormat, mm + r1) == Parse(f1, r1, a1);
    LiteralStep('/', NatText(y), [Number(Year)], a1);
    assert IntText(y) == NatText(y);
    assert NatText(y) == NatText(y) + [];
    NumberStep(Year, y, [], [], a1);
  }
}
