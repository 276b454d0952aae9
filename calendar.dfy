/**
 * Proleptic Gregorian dates as Python's `datetime` sees them: the
 * `strptime` formats "%Y-%m-%d" and "%Y-%m", the `strftime` renderings
 * used for file names and query bounds, and month-by-month stepping.
 */
module Calendar {
  import opened Wrappers
  import opened Text
  import opened Numbers

  datatype Date = Date(year: int, month: int, day: int)

  predicate IsLeap(year: int) {
    year % 4 == 0 && (year % 100 != 0 || year % 400 == 0)
  }

  /** `calendar.monthrange(year, month)[1]`. */
  function DaysInMonth(year: int, month: int): (n: int)
    requires 1 <= month <= 12
    ensures 28 <= n <= 31
    ensures month == 2 ==> (n == 29 <==> IsLeap(year))
  {
    if month == 2 then (if IsLeap(year) then 29 else 28)
    else if month == 4 || month == 6 || month == 9 || month == 11 then 30
    else 31
  }

  /** The dates `datetime` can represent (years 1 to 9999). */
  predicate ValidDate(d: Date) {
    1 <= d.year <= 9999 && 1 <= d.month <= 12 && 1 <= d.day <= DaysInMonth(d.year, d.month)
  }

  /** `datetime` ordering: by year, then month, then day. */
  predicate DateLe(a: Date, b: Date) {
    a.year < b.year || (a.year == b.year && (a.month < b.month || (a.month == b.month && a.day <= b.day)))
  }

  predicate DateLt(a: Date, b: Date) {
    DateLe(a, b) && a != b
  }

  /** The order is total: a date is at most another exactly when it is not after it. */
  lemma DateLeNotLt(a: Date, b: Date)
    ensures DateLe(a, b) <==> !DateLt(b, a)
  {
  }

  function TwoDigitValue(t: string): int
    requires |t| == 2 && IsDigit(t[0]) && IsDigit(t[1])
  {
    10 * DigitValue(t[0]) + DigitValue(t[1])
  }

  /**
   * A whole `%m` field: the pattern `1[0-2]|0[1-9]|[1-9]`.  The field is
   * followed by '-' or by the end of the text, neither of which the
   * alternatives can consume, so a match is exactly one of these tokens.
   */
  function MonthField(t: string): (r: Option<int>)
    ensures r.Some? ==> 1 <= r.value <= 12
  {
    if |t| == 1 && '1' <= t[0] <= '9' then Some(DigitValue(t[0]))
    else if |t| == 2 && ((t[0] == '0' && '1' <= t[1] <= '9') || (t[0] == '1' && '0' <= t[1] <= '2')) then
      Some(TwoDigitValue(t))
    else None
  }

  /**
   * A whole `%d` field: the pattern `3[01]|[12]\d|0[1-9]|[1-9]| [1-9]`
   * followed by the end of the text.
   */
  function DayField(t: string): (r: Option<int>)
    ensures r.Some? ==> 1 <= r.value <= 31
  {
    if |t| == 1 && '1' <= t[0] <= '9' then Some(DigitValue(t[0]))
    else if |t| == 2 && t[0] == ' ' && '1' <= t[1] <= '9' then Some(DigitValue(t[1]))
    else if |t| == 2 && IsDigit(t[1]) && ((t[0] == '3' && t[1] <= '1') || t[0] == '1' || t[0] == '2' || (t[0] == '0' && t[1] != '0')) then
      Some(TwoDigitValue(t))
    else None
  }

  /** The `%Y-` prefix: exactly four digits and a dash; the year is at least 1. */
  function YearPrefix(s: string): (r: Option<int>)
    ensures r.Some? ==> 1 <= r.value <= 9999
  {
    if |s| >= 5 && AllDigits(s[..4]) && s[4] == '-' && DigitsValue(s[..4]) >= 1 then
      FourDigitsBound(s[..4]);
      Some(DigitsValue(s[..4]))
    else None
  }

  lemma FourDigitsBound(t: string)
    requires |t| == 4 && AllDigits(t)
    ensures DigitsValue(t) <= 9999
  {
    DigitsValueBound(t);
    assert Pow10(4) == 10000;
  }

  /** `datetime.strptime(s, "%Y-%m-%d")`; `None` where it raises `ValueError`. */
  function StrptimeYmd(s: string): (r: Option<Date>)
    ensures r.Some? ==> ValidDate(r.value)
  {
    match YearPrefix(s)
    case None => None
    case Some(y) =>
      var rest := s[5..];
      var j := IndexOf(rest, '-');
      if j == |rest| then None
      else
        match (MonthField(rest[..j]), DayField(rest[j + 1..]))
        case (Some(m), Some(d)) => if d <= DaysInMonth(y, m) then Some(Date(y, m, d)) else None
        case _ => None
  }

  /** `datetime.strptime(s, "%Y-%m")` as (year, month). */
  function StrptimeYm(s: string): (r: Option<(int, int)>)
    ensures r.Some? ==> 1 <= r.value.0 <= 9999 && 1 <= r.value.1 <= 12
  {
    match YearPrefix(s)
    case None => None
    case Some(y) =>
      match MonthField(s[5..])
      case Some(m) => Some((y, m))
      case None => None
  }

  /** `strftime("%Y-%m")`. */
  function FormatYm(year: int, month: int): string {
    FormatInt(year, 4) + "-" + FormatInt(month, 2)
  }

  /** `strftime("%Y-%m-%d")`. */
  function FormatYmd(d: Date): string {
    FormatYm(d.year, d.month) + "-" + FormatInt(d.day, 2)
  }

  /** `strftime("%Y-%m-01")`: the first day of the month. */
  function FirstOfMonth(year: int, month: int): string {
    FormatYm(year, month) + "-01"
  }

  function TwoDigits(n: nat): (t: string)
    requires n < 100
    ensures |t| == 2 && IsDigit(t[0]) && IsDigit(t[1]) && TwoDigitValue(t) == n
  {
    [DigitChar(n / 10), DigitChar(n % 10)]
  }

  lemma FormatTwoDigits(n: nat)
    requires n < 100
    ensures FormatInt(n, 2) == TwoDigits(n)
  {
    if n >= 10 {
      assert NatToString(n / 10) == [DigitChar(n / 10)];
    }
  }

  lemma MonthFieldTwoDigits(m: int)
    requires 1 <= m <= 12
    ensures MonthField(TwoDigits(m)) == Some(m)
  {
  }

  lemma DayFieldTwoDigits(d: int)
    requires 1 <= d <= 31
    ensures DayField(TwoDigits(d)) == Some(d)
  {
  }

  lemma YearPrefixOf(year: int, rest: string)
    requires 1 <= year <= 9999
    ensures YearPrefix(FormatInt(year, 4) + "-" + rest) == Some(year)
  {
    var y := FormatInt(year, 4);
    FormatIntWidth(year, 4);
    FormatIntValue(year, 4);
    var s := y + "-" + rest;
    assert s[..4] == y;
    assert s[4] == '-';
    assert s[5..] == rest;
  }

  /** Rendering a valid date and reading it back gives the same date. */
  lemma StrptimeFormatYmd(d: Date)
    requires ValidDate(d)
    ensures StrptimeYmd(FormatYmd(d)) == Some(d)
  {
    var mt := TwoDigits(d.month);
    var dt := TwoDigits(d.day);
    FormatTwoDigits(d.month);
    FormatTwoDigits(d.day);
    var rest := mt + "-" + dt;
    assert FormatYmd(d) == FormatInt(d.year, 4) + "-" + rest;
    YearPrefixOf(d.year, rest);
    assert FormatYmd(d)[5..] == rest;
    IndexOfAfter(mt, '-', dt);
    assert rest[..2] == mt && rest[3..] == dt;
    MonthFieldTwoDigits(d.month);
    DayFieldTwoDigits(d.day);
  }

  /** Rendering a valid month and reading it back with "%Y-%m" gives it again. */
  lemma StrptimeFormatYm(year: int, month: int)
    requires 1 <= year <= 9999 && 1 <= month <= 12
    ensures StrptimeYm(FormatYm(year, month)) == Some((year, month))
  {
    FormatTwoDigits(month);
    YearPrefixOf(year, TwoDigits(month));
    MonthFieldTwoDigits(month);
  }

  /** Months are numbered consecutively: January of year y is 12 * y. */
  function MonthIndex(year: int, month: int): int {
    12 * year + month - 1
  }

  function YearOf(i: int): int { i / 12 }

  function MonthOf(i: int): (m: int)
    ensures 1 <= m <= 12
  {
    i % 12 + 1
  }

  lemma MonthIndexInverse(i: int)
    ensures MonthIndex(YearOf(i), MonthOf(i)) == i
  {
  }

  lemma MonthIndexOf(year: int, month: int)
    requires 1 <= month <= 12
    ensures YearOf(MonthIndex(year, month)) == year && MonthOf(MonthIndex(year, month)) == month
  {
  }

  /** The months from the start date's to the end date's, both included. */
  function MonthCount(start: Date, end: Date): nat {
    var lo := MonthIndex(start.year, start.month);
    var hi := MonthIndex(end.year, end.month);
    if lo <= hi then hi - lo + 1 else 0
  }

  /** The month after (year, month), with December rolling over to January. */
  function NextMonth(year: int, month: int): (r: (int, int))
    requires 1 <= month <= 12
    ensures 1 <= r.1 <= 12
    ensures MonthIndex(r.0, r.1) == MonthIndex(year, month) + 1
  {
    if month == 12 then (year + 1, 1) else (year, month + 1)
  }

  function PrevMonth(year: int, month: int): (r: (int, int))
    requires 1 <= month <= 12
    ensures 1 <= r.1 <= 12
    ensures MonthIndex(r.0, r.1) == MonthIndex(year, month) - 1
  {
    if month == 1 then (year - 1, 12) else (year, month - 1)
  }

  /** Two valid months with the same index are the same month. */
  lemma MonthIndexInjective(y1: int, m1: int, y2: int, m2: int)
    requires 1 <= m1 <= 12 && 1 <= m2 <= 12 && MonthIndex(y1, m1) == MonthIndex(y2, m2)
    ensures y1 == y2 && m1 == m2
  {
    MonthIndexOf(y1, m1);
    MonthIndexOf(y2, m2);
  }

  /** Month order agrees with `(year, month)` tuple order. */
  lemma MonthIndexOrder(y1: int, m1: int, y2: int, m2: int)
    requires 1 <= m1 <= 12 && 1 <= m2 <= 12
    ensures MonthIndex(y1, m1) <= MonthIndex(y2, m2) <==> (y1 < y2 || (y1 == y2 && m1 <= m2))
  {
  }

  /** The month indices lo, lo + 1, ..., hi in increasing order. */
  function MonthSpan(lo: int, hi: int): (r: seq<int>)
    ensures |r| == if lo <= hi then hi - lo + 1 else 0
    ensures forall k :: 0 <= k < |r| ==> r[k] == lo + k
    decreases hi - lo
  {
    if lo > hi then [] else [lo] + MonthSpan(lo + 1, hi)
  }

  /** Every month of the window appears in the span, exactly once and in order. */
  lemma MonthSpanCoverage(lo: int, hi: int)
    ensures forall i :: i in MonthSpan(lo, hi) <==> lo <= i <= hi
    ensures forall a, b :: 0 <= a < b < |MonthSpan(lo, hi)| ==> MonthSpan(lo, hi)[a] < MonthSpan(lo, hi)[b]
  {
    var r := MonthSpan(lo, hi);
    forall i | lo <= i <= hi ensures i in r {
      assert r[i - lo] == i;
    }
  }
}
