/**
 * `BaseAdapter`: the shape every adapter gives its points, and the two
 * date helpers it offers.
 */
module BaseAdapter {
  import opened Wrappers
  import opened Text
  import opened Numbers
  import opened Calendar
  import opened Points

  /** `BaseAdapter.fetch_data`: subclasses must override it. */
  function BaseFetchData(start: Option<string>, end: Option<string>): (r: Outcome<seq<Point>>)
    ensures r.Raised? && r.exc == NotImplementedError
  {
    Raised(NotImplementedError)
  }

  /**
   * One item of `format_data`: the adapter's name as source, the item's date
   * (today's date when it has none), its Linux share (0 when absent) and its
   * details ({} when absent); every other share is dropped.
   */
  function FormatItem(name: string, item: RawPoint, today: string): (p: Point)
    ensures p.source == Some(name)
    ensures p.date == Some(if item.date.Some? then item.date.value else today)
    ensures p.linux == (if item.linux.Some? then item.linux.value else 0)
    ensures p.details == (if item.details.Some? then item.details.value else map[])
  {
    Point(Some(name), Some(item.date.GetOr(today)), item.linux.GetOr(0), item.details.GetOr(map[]))
  }

  /** `format_data` as a value: one formatted point per input item, in order. */
  function Formatted(name: string, raw: seq<RawPoint>, today: string): (r: seq<Point>)
    ensures |r| == |raw|
    ensures forall i :: 0 <= i < |raw| ==> r[i] == FormatItem(name, raw[i], today)
  {
    seq(|raw|, i requires 0 <= i < |raw| => FormatItem(name, raw[i], today))
  }

  /** `BaseAdapter.format_data`: builds the list item by item. */
  method FormatData(name: string, raw: seq<RawPoint>, today: string) returns (formatted: seq<Point>)
    ensures |formatted| == |raw|
    ensures forall i :: 0 <= i < |raw| ==> formatted[i] == FormatItem(name, raw[i], today)
    ensures forall p :: p in formatted ==> p.source == Some(name)
    ensures formatted == Formatted(name, raw, today)
  {
    formatted := [];
    for k := 0 to |raw|
      invariant |formatted| == k
      invariant forall i :: 0 <= i < k ==> formatted[i] == FormatItem(name, raw[i], today)
    {
      formatted := formatted + [FormatItem(name, raw[k], today)];
    }
  }

  /** A bound argument: parsed when given, else the first of the current month; `None` where `strptime` raises. */
  function BoundDate(arg: Option<string>, now: Date): Option<Date> {
    if Given(arg) then StrptimeYmd(arg.value) else Some(Date(now.year, now.month, 1))
  }

  /** A year bound: the given date's year (`ValueError` when it does not parse), else the current year. */
  function BoundYear(arg: Option<string>, now: Date): Option<int> {
    if Given(arg) then
      match StrptimeYmd(arg.value)
      case Some(d) => Some(d.year)
      case None => None
    else Some(now.year)
  }

  /** The number of years from `lo` to `hi` inclusive. */
  function YearSpan(lo: int, hi: int): nat {
    if hi + 1 - lo > 0 then hi + 1 - lo else 0
  }

  /** `parse_date_range`: the parsed date, or `None` where `strptime` raises. */
  function ParseDateRange(s: string): (r: Option<Date>)
    ensures r.Some? ==> ValidDate(r.value)
    ensures r.Some? ==> StrptimeYmd(FormatYmd(r.value)) == r
  {
    var d := StrptimeYmd(s);
    if d.Some? then StrptimeFormatYmd(d.value); d else d
  }

  /**
   * `get_month_range("YYYY-MM")`: the first day of the month and the first
   * day of the next one, or (None, None) wherever Python raises
   * `ValueError` (not exactly two '-'-separated parts, a part `int()`
   * rejects, a year or month out of range, or no year after 9999).
   */
  function GetMonthRange(ym: string): (r: (Option<string>, Option<string>))
    ensures r.0.Some? <==> r.1.Some?
  {
    var parts := Split(ym, '-');
    if |parts| != 2 then (None, None)
    else
      var year := PyInt(parts[0]);
      var month := PyInt(parts[1]);
      if year.Some? && month.Some? then MonthBounds(year.value, month.value) else (None, None)
  }

  /** The `datetime` part of `get_month_range` once both numbers are read. */
  function MonthBounds(year: int, month: int): (r: (Option<string>, Option<string>))
    ensures r.0.Some? <==> r.1.Some?
    ensures r.0.Some? <==> 1 <= year <= 9999 && 1 <= month <= 12 && (year < 9999 || month < 12)
  {
    if 1 <= year <= 9999 && 1 <= month <= 12 then
      var next := NextMonth(year, month);
      if next.0 <= 9999 then
        (Some(FormatYmd(Date(year, month, 1))), Some(FormatYmd(Date(next.0, next.1, 1))))
      else (None, None)
    else (None, None)
  }

  lemma SplitAroundDash(a: string, b: string)
    requires forall j :: 0 <= j < |a| ==> a[j] != '-'
    requires forall j :: 0 <= j < |b| ==> b[j] != '-'
    ensures Split(a + "-" + b, '-') == [a, b]
  {
    IndexOfAfter(a, '-', b);
    var s := a + "-" + b;
    assert s[..|a|] == a;
    assert s[|a| + 1..] == b;
    assert IndexOf(b, '-') == |b|;
  }

  lemma FirstDayFormat(year: int, month: int)
    ensures FormatYmd(Date(year, month, 1)) == FirstOfMonth(year, month)
  {
    assert FormatInt(1, 2) == "01";
  }

  /**
   * For every month of years 1000 to 9999 except December 9999, the range
   * is that month's first day and the next month's, with December rolling
   * over to January of the next year.
   */
  lemma GetMonthRangeOfMonth(year: int, month: int)
    requires 1000 <= year <= 9999 && 1 <= month <= 12
    requires year < 9999 || month < 12
    ensures var next := if month == 12 then (year + 1, 1) else (year, month + 1);
      GetMonthRange(FormatYm(year, month)) == (Some(FirstOfMonth(year, month)), Some(FirstOfMonth(next.0, next.1)))
  {
    GetMonthRangeParses(year, month);
    MonthBoundsOfMonth(year, month);
  }

  /** `get_month_range` reads back the year and month `FormatYm` wrote. */
  lemma GetMonthRangeParses(year: int, month: int)
    requires 1000 <= year <= 9999 && 1 <= month <= 12
    ensures GetMonthRange(FormatYm(year, month)) == MonthBounds(year, month)
  {
    var y := FormatInt(year, 4);
    var m := FormatInt(month, 2);
    FormatIntValue(year, 4);
    FormatIntValue(month, 2);
    FormatIntWidth(year, 4);
    SplitAroundDash(y, m);
    assert Split(FormatYm(year, month), '-') == [y, m];
    PyIntDigits(y);
    PyIntDigits(m);
  }

  lemma MonthBoundsOfMonth(year: int, month: int)
    requires 1 <= year <= 9999 && 1 <= month <= 12
    requires year < 9999 || month < 12
    ensures var next := if month == 12 then (year + 1, 1) else (year, month + 1);
      MonthBounds(year, month) == (Some(FirstOfMonth(year, month)), Some(FirstOfMonth(next.0, next.1)))
  {
    var next := NextMonth(year, month);
    FirstDayFormat(year, month);
    FirstDayFormat(next.0, next.1);
  }

  /** The months the range covers are consecutive and both ranges start on day 1. */
  lemma MonthBoundsConsecutive(year: int, month: int)
    requires MonthBounds(year, month).0.Some?
    ensures var a := ParseDateRange(MonthBounds(year, month).0.value);
      var b := ParseDateRange(MonthBounds(year, month).1.value);
      a.Some? && b.Some? && a.value.day == 1 && b.value.day == 1
      && MonthIndex(b.value.year, b.value.month) == MonthIndex(a.value.year, a.value.month) + 1
  {
    var next := NextMonth(year, month);
    StrptimeFormatYmd(Date(year, month, 1));
    StrptimeFormatYmd(Date(next.0, next.1, 1));
  }

  /** Whenever `get_month_range` succeeds, it names two consecutive month starts. */
  lemma GetMonthRangeConsecutive(ym: string)
    requires GetMonthRange(ym).0.Some?
    ensures var a := ParseDateRange(GetMonthRange(ym).0.value);
      var b := ParseDateRange(GetMonthRange(ym).1.value);
      a.Some? && b.Some? && a.value.day == 1 && b.value.day == 1
      && MonthIndex(b.value.year, b.value.month) == MonthIndex(a.value.year, a.value.month) + 1
  {
    var parts := Split(ym, '-');
    MonthBoundsConsecutive(PyInt(parts[0]).value, PyInt(parts[1]).value);
  }

  /** Text with other than one '-' gives (None, None). */
  lemma GetMonthRangeNeedsOneDash(ym: string)
    requires |Split(ym, '-')| != 2
    ensures GetMonthRange(ym) == (None, None)
  {
  }
}
