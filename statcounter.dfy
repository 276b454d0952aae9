/**
 * `StatCounterAdapter`: desktop operating-system shares from StatCounter's
 * CSV export.  Columns (time-series export) or rows (single-month export)
 * are grouped into five buckets by their lower-cased name; a month whose
 * Linux and Windows shares are both zero is dropped.
 */
module StatCounter {
  import opened Wrappers
  import opened Text
  import opened Numbers
  import opened Calendar
  import opened Points
  import opened BaseAdapter

  const SourceName := "StatCounter"

  /** Column names that count as macOS. */
  const MacColumns: set<string> := {"os x", "macos", "mac os x", "osx"}

  datatype Bucket = LinuxCol | MacCol | ChromeCol | WindowsCol | OtherCol

  /**
   * The bucket of a lower-cased column name; the tests are tried in this
   * order: exactly "linux", a macOS name, exactly "chrome os", a name
   * starting with "win", anything else.
   */
  function BucketOf(colL: string): Bucket {
    if colL == "linux" then LinuxCol
    else if colL in MacColumns then MacCol
    else if colL == "chrome os" then ChromeCol
    else if StartsWith(colL, "win") then WindowsCol
    else OtherCol
  }

  /** The buckets are disjoint by name, so the order of the tests never matters. */
  lemma BucketOfNames(colL: string)
    ensures BucketOf(colL) == LinuxCol <==> colL == "linux"
    ensures BucketOf(colL) == MacCol <==> colL in MacColumns
    ensures BucketOf(colL) == ChromeCol <==> colL == "chrome os"
    ensures BucketOf(colL) == WindowsCol <==> StartsWith(colL, "win")
  {
    if StartsWith(colL, "win") {
      assert colL[0] == 'w';
      assert "linux"[0] == 'l' && "chrome os"[0] == 'c';
      assert "os x"[0] == 'o' && "macos"[0] == 'm' && "mac os x"[0] == 'm' && "osx"[0] == 'o';
      assert colL !in MacColumns;
    }
  }

  /** A header cell or row label with whitespace, then double quotes, stripped. */
  function Clean(h: string): (r: string)
    ensures |r| <= |h|
  {
    StripChar(Strip(h), '"')
  }

  /** `str.replace(c, "")`. */
  function RemoveChar(s: string, c: char): (r: string)
    ensures |r| <= |s|
    ensures forall i :: 0 <= i < |r| ==> r[i] != c
  {
    if s == [] then []
    else if s[0] == c then RemoveChar(s[1..], c)
    else [s[0]] + RemoveChar(s[1..], c)
  }

  /** `_parse_float`: a share cell in hundredths; "" and text `float()` refuses give 0. */
  function ParseShare(value: string): int {
    if value == "" then 0
    else ParseFloat(RemoveChar(Strip(value), '%')).GetOr(0)
  }

  /** The five running sums of `_parse_timeseries` and `_parse_aggregate`. */
  datatype Shares = Shares(linux: int, win: int, mac: int, chrome: int, other: int)

  function NoShares(): Shares {
    Shares(0, 0, 0, 0, 0)
  }

  function AddShare(s: Shares, b: Bucket, v: int): Shares {
    match b
    case LinuxCol => s.(linux := s.linux + v)
    case MacCol => s.(mac := s.mac + v)
    case ChromeCol => s.(chrome := s.chrome + v)
    case WindowsCol => s.(win := s.win + v)
    case OtherCol => s.(other := s.other + v)
  }

  function Share(s: Shares, b: Bucket): int {
    match b
    case LinuxCol => s.linux
    case MacCol => s.mac
    case ChromeCol => s.chrome
    case WindowsCol => s.win
    case OtherCol => s.other
  }

  function Total(s: Shares): int {
    s.linux + s.win + s.mac + s.chrome + s.other
  }

  /** A (lower-cased name, raw cell) pair; each adds its value to the name's bucket. */
  type Cell = (string, string)

  /** The sums after adding the cells in order. */
  function Tally(cells: seq<Cell>): Shares {
    if cells == [] then NoShares()
    else
      var last := cells[|cells| - 1];
      AddShare(Tally(cells[..|cells| - 1]), BucketOf(last.0), ParseShare(last.1))
  }

  /** Independent reference: the values of the cells that fall in bucket `b`. */
  function BucketSum(cells: seq<Cell>, b: Bucket): int {
    if cells == [] then 0
    else BucketSum(cells[1..], b) + (if BucketOf(cells[0].0) == b then ParseShare(cells[0].1) else 0)
  }

  /** Every value of the cells. */
  function CellSum(cells: seq<Cell>): int {
    if cells == [] then 0 else CellSum(cells[1..]) + ParseShare(cells[0].1)
  }

  lemma {:induction false} BucketSumSnoc(cells: seq<Cell>, c: Cell, b: Bucket)
    ensures BucketSum(cells + [c], b) == BucketSum(cells, b) + (if BucketOf(c.0) == b then ParseShare(c.1) else 0)
    decreases |cells|
  {
    if cells != [] {
      assert (cells + [c])[1..] == cells[1..] + [c];
      BucketSumSnoc(cells[1..], c, b);
    } else {
      assert (cells + [c])[1..] == [];
    }
  }

  lemma {:induction false} CellSumSnoc(cells: seq<Cell>, c: Cell)
    ensures CellSum(cells + [c]) == CellSum(cells) + ParseShare(c.1)
    decreases |cells|
  {
    if cells != [] {
      assert (cells + [c])[1..] == cells[1..] + [c];
      CellSumSnoc(cells[1..], c);
    } else {
      assert (cells + [c])[1..] == [];
    }
  }

  lemma ShareAfterAdd(s: Shares, c: Bucket, v: int, b: Bucket)
    ensures Share(AddShare(s, c, v), b) == Share(s, b) + (if c == b then v else 0)
    ensures Total(AddShare(s, c, v)) == Total(s) + v
  {
  }

  /** Each bucket's sum is the total of exactly the cells its name selects. */
  lemma {:induction false} TallyByBucket(cells: seq<Cell>, b: Bucket)
    ensures Share(Tally(cells), b) == BucketSum(cells, b)
    decreases |cells|
  {
    if cells != [] {
      var init := cells[..|cells| - 1];
      var last := cells[|cells| - 1];
      assert cells == init + [last];
      TallyByBucket(init, b);
      BucketSumSnoc(init, last, b);
      ShareAfterAdd(Tally(init), BucketOf(last.0), ParseShare(last.1), b);
    }
  }

  /** No value is lost or counted twice: the five sums add up to all the values. */
  lemma {:induction false} TallyConserves(cells: seq<Cell>)
    ensures Total(Tally(cells)) == CellSum(cells)
    decreases |cells|
  {
    if cells != [] {
      var init := cells[..|cells| - 1];
      var last := cells[|cells| - 1];
      assert cells == init + [last];
      TallyConserves(init);
      CellSumSnoc(init, last);
      ShareAfterAdd(Tally(init), BucketOf(last.0), ParseShare(last.1), LinuxCol);
    }
  }

  lemma TallyStep(cells: seq<Cell>, k: nat)
    requires k < |cells|
    ensures Tally(cells[..k + 1]) == AddShare(Tally(cells[..k]), BucketOf(cells[k].0), ParseShare(cells[k].1))
  {
    assert cells[..k + 1][..k] == cells[..k];
  }

  /** `_make_point`: all five shares, repeated under display names in `details`. */
  function MakePoint(date: string, s: Shares): (p: RawPoint)
    ensures p.date == Some(date)
    ensures p.linux == Some(s.linux) && p.windows == Some(s.win) && p.mac == Some(s.mac)
    ensures p.chromeos == Some(s.chrome) && p.other == Some(s.other)
    ensures p.details.Some? && p.details.value.Keys == {"Linux", "Windows", "macOS", "ChromeOS", "Other"}
  {
    RawPoint(Some(date), Some(s.linux), Some(s.win), Some(s.mac), Some(s.chrome), Some(s.other),
      Some(map["Linux" := Num(s.linux), "Windows" := Num(s.win), "macOS" := Num(s.mac),
               "ChromeOS" := Num(s.chrome), "Other" := Num(s.other)]))
  }

  /** Lower-case three-letter month names, January first. */
  const MonthAbbrevs: seq<string> :=
    ["jan", "feb", "mar", "apr", "may", "jun", "jul", "aug", "sep", "oct", "nov", "dec"]

  function MonthNumber(mon: string): (r: Option<int>)
    ensures r.Some? ==> 1 <= r.value <= 12 && MonthAbbrevs[r.value - 1] == mon
    ensures r.None? ==> mon !in MonthAbbrevs
  {
    MonthNumberFrom(mon, 0)
  }

  function MonthNumberFrom(mon: string, i: nat): (r: Option<int>)
    requires i <= 12
    ensures r.Some? ==> i + 1 <= r.value <= 12 && MonthAbbrevs[r.value - 1] == mon
    ensures r.None? ==> forall j :: i <= j < 12 ==> MonthAbbrevs[j] != mon
    decreases 12 - i
  {
    if i == 12 then None
    else if MonthAbbrevs[i] == mon then Some(i + 1)
    else MonthNumberFrom(mon, i + 1)
  }

  lemma MonthNumberOf(m: int)
    requires 1 <= m <= 12
    ensures MonthNumber(MonthAbbrevs[m - 1]) == Some(m)
  {
    var r := MonthNumber(MonthAbbrevs[m - 1]);
    assert r.Some?;
    assert forall i, j :: 0 <= i < j < 12 ==> MonthAbbrevs[i] != MonthAbbrevs[j];
  }

  /**
   * `_parse_date`: "YYYY-MM", or a month name and a year ("Jan 25",
   * "Jan 2025"), as the first day of the month; `None` for anything else.
   * A year `int()` refuses raises `ValueError`.
   */
  function ParseDate(s: string): (r: Outcome<Option<string>>)
    ensures r.Returned? && r.value.Some? ==> EndsWith(r.value.value, "-01")
  {
    if s == "" then Returned(None)
    else match StrptimeYm(s)
      case Some((y, m)) =>
        var d := FirstOfMonth(y, m);
        assert d[|d| - 3..] == "-01";
        Returned(Some(d))
      case None => NamedMonth(s)
  }

  /** The year a year field names: four characters are the year itself, others count from 2000. */
  function FullYear(yr: string, v: int): int {
    if |yr| == 4 then v else 2000 + v
  }

  /** A month name and a year: "Jan 25" or "Jan 2025". */
  function NamedMonth(s: string): (r: Outcome<Option<string>>)
    ensures r.Returned? && r.value.Some? ==> EndsWith(r.value.value, "-01")
  {
    var parts := SplitWs(s);
    if |parts| != 2 then Returned(None)
    else
      var mon := Lower(parts[0])[..Min(3, |parts[0]|)];
      match MonthNumber(mon)
      case None => Returned(None)
      case Some(m) =>
        var yr := parts[1];
        match PyInt(yr)
        case None => Raised(ValueError)
        case Some(v) =>
          var d := FirstOfMonth(FullYear(yr, v), m);
          assert d[|d| - 3..] == "-01";
          Returned(Some(d))
  }

  /** "YYYY-MM" reads as the first of that month. */
  lemma ParseDateIso(year: int, month: int)
    requires 1 <= year <= 9999 && 1 <= month <= 12
    ensures ParseDate(FormatYm(year, month)) == Returned(Some(FirstOfMonth(year, month)))
  {
    StrptimeFormatYm(year, month);
    FormatIntWidth(year, 4);
  }

  /**
   * A month name and a year of digits: four digits are the year itself,
   * any other count is a year after 2000 ("25" is 2025).
   */
  lemma {:induction false} ParseDateMonthName(name: string, yr: string, m: int)
    requires 1 <= m <= 12 && |name| >= 3 && Lower(name)[..3] == MonthAbbrevs[m - 1]
    requires forall i :: 0 <= i < |name| ==> !IsSpace(name[i])
    requires yr != [] && AllDigits(yr)
    ensures ParseDate(name + " " + yr) ==
      Returned(Some(FirstOfMonth(FullYear(yr, DigitsValue(yr)), m)))
  {
    var s := name + " " + yr;
    var year := FullYear(yr, DigitsValue(yr));
    assert StrptimeYm(s).None? by {
      MonthAbbrevShape(m);
      assert Lower(name)[0] == MonthAbbrevs[m - 1][0];
      assert s[0] == name[0];
      NotIsoMonth(s);
    }
    assert NamedMonth(s) == Returned(Some(FirstOfMonth(year, m))) by {
      SplitTwoWords(name, yr);
      assert Lower(name)[..Min(3, |name|)] == MonthAbbrevs[m - 1];
      MonthNumberOf(m);
      PyIntDigits(yr);
      NamedMonthOf(s, name, yr, m, DigitsValue(yr));
    }
    ParseDateNamed(s, Returned(Some(FirstOfMonth(year, m))));
  }

  lemma ParseDateNamed(s: string, r: Outcome<Option<string>>)
    requires s != "" && StrptimeYm(s).None? && NamedMonth(s) == r
    ensures ParseDate(s) == r
  {
  }

  lemma NamedMonthOf(s: string, a: string, b: string, m: int, v: int)
    requires SplitWs(s) == [a, b]
    requires MonthNumber(Lower(a)[..Min(3, |a|)]) == Some(m)
    requires PyInt(b) == Some(v)
    ensures NamedMonth(s) == Returned(Some(FirstOfMonth(FullYear(b, v), m)))
  {
  }

  lemma MonthAbbrevShape(m: int)
    requires 1 <= m <= 12
    ensures |MonthAbbrevs[m - 1]| == 3 && 'a' <= MonthAbbrevs[m - 1][0] <= 'z'
  {
  }

  /** Text not starting with a digit is not "YYYY-MM". */
  lemma NotIsoMonth(s: string)
    requires s != [] && !IsDigit(s[0])
    ensures StrptimeYm(s) == None
  {
    if |s| >= 5 {
      assert s[..4][0] == s[0];
    }
  }

  /** Length of the longest prefix of `\w` characters. */
  function WordRun(s: string): (n: nat)
    ensures n <= |s|
    ensures forall j :: 0 <= j < n ==> IsWordChar(s[j])
    ensures n < |s| ==> !IsWordChar(s[n])
    decreases |s|
  {
    if s != [] && IsWordChar(s[0]) then 1 + WordRun(s[1..]) else 0
  }

  lemma {:induction false} WordRunOf(w: string, rest: string)
    requires forall j :: 0 <= j < |w| ==> IsWordChar(w[j])
    requires rest != [] && !IsWordChar(rest[0])
    ensures WordRun(w + rest) == |w|
    decreases |w|
  {
    if w != [] {
      assert (w + rest)[1..] == w[1..] + rest;
      WordRunOf(w[1..], rest);
    } else {
      assert w + rest == rest;
    }
  }

  /**
   * A match of `\((\w+ \d{4})\)` starting at `i`: its group.  A space is
   * not a word character, so the word run must be maximal.
   */
  function PeriodAt(s: string, i: nat): Option<string>
    requires i < |s|
  {
    if s[i] != '(' then None
    else
      var j := i + 1 + WordRun(s[i + 1..]);
      if j > i + 1 && j + 6 <= |s| && s[j] == ' ' && AllDigits(s[j + 1..j + 5]) && s[j + 5] == ')' then
        Some(s[i + 1..j + 5])
      else None
  }

  /** `re.search`: the group of the leftmost match at or after `i`. */
  function FindPeriod(s: string, i: nat): Option<string>
    requires i <= |s|
    decreases |s| - i
  {
    if i == |s| then None
    else match PeriodAt(s, i)
      case Some(g) => Some(g)
      case None => FindPeriod(s, i + 1)
  }

  lemma {:induction false} FindPeriodSkips(s: string, i: nat, k: nat)
    requires i <= k < |s|
    requires forall j :: i <= j < k ==> s[j] != '('
    ensures FindPeriod(s, i) == FindPeriod(s, k)
    decreases k - i
  {
    if i < k {
      FindPeriodSkips(s, i + 1, k);
    }
  }

  /** `_extract_period_from_header`: the bracketed period, else the whole header. */
  function ExtractPeriod(header: string): Outcome<Option<string>> {
    match FindPeriod(header, 0)
    case Some(g) => ParseDate(g)
    case None => ParseDate(Strip(header))
  }

  /** The first bracketed "word YYYY" of a header is the period it names. */
  lemma FindPeriodOf(prefix: string, w: string, d: string, rest: string)
    requires forall j :: 0 <= j < |prefix| ==> prefix[j] != '('
    requires w != [] && forall j :: 0 <= j < |w| ==> IsWordChar(w[j])
    requires |d| == 4 && AllDigits(d)
    ensures FindPeriod(prefix + "(" + w + " " + d + ")" + rest, 0) == Some(w + " " + d)
  {
    var s := prefix + "(" + w + " " + d + ")" + rest;
    var i := |prefix|;
    FindPeriodSkips(s, 0, i);
    PeriodAtOf(prefix, w, d, rest);
    assert FindPeriod(s, i) == PeriodAt(s, i);
  }

  lemma PeriodAtOf(prefix: string, w: string, d: string, rest: string)
    requires w != [] && forall j :: 0 <= j < |w| ==> IsWordChar(w[j])
    requires |d| == 4 && AllDigits(d)
    ensures PeriodAt(prefix + "(" + w + " " + d + ")" + rest, |prefix|) == Some(w + " " + d)
  {
    var s := prefix + "(" + w + " " + d + ")" + rest;
    var i := |prefix|;
    assert s[i] == '(';
    assert s[i + 1..] == w + (" " + d + ")" + rest);
    WordRunOf(w, " " + d + ")" + rest);
    var j := i + 1 + |w|;
    assert s[j] == ' ';
    assert s[j + 1..j + 5] == d;
    assert s[j + 5] == ')';
    assert s[i + 1..j + 5] == w + " " + d;
  }

  /** "Market Share Perc. (Jan 2026)" names January 2026. */
  lemma ExtractPeriodMonthName(prefix: string, name: string, yr: string, rest: string, m: int)
    requires forall j :: 0 <= j < |prefix| ==> prefix[j] != '('
    requires 1 <= m <= 12 && |name| >= 3 && Lower(name)[..3] == MonthAbbrevs[m - 1]
    requires forall j :: 0 <= j < |name| ==> IsWordChar(name[j])
    requires |yr| == 4 && AllDigits(yr)
    ensures ExtractPeriod(prefix + "(" + name + " " + yr + ")" + rest) == Returned(Some(FirstOfMonth(DigitsValue(yr), m)))
  {
    FindPeriodOf(prefix, name, yr, rest);
    ParseDateMonthName(name, yr, m);
  }

  /** The cells of one time-series row: `zip(headers[1:], row[1:])`, names lower-cased. */
  function ColumnCells(headers: seq<string>, row: seq<string>): (cells: seq<Cell>)
    ensures |cells| == (if |headers| == 0 || |row| == 0 then 0 else Min(|headers|, |row|) - 1)
    ensures forall k :: 0 <= k < |cells| ==> cells[k] == (Lower(headers[k + 1]), row[k + 1])
  {
    var n := if |headers| == 0 || |row| == 0 then 0 else Min(|headers|, |row|) - 1;
    seq(n, k requires 0 <= k < n => (Lower(headers[k + 1]), row[k + 1]))
  }

  /** One time-series row: skipped when short, undated or with no Linux and no Windows share. */
  function RowPoint(headers: seq<string>, row: seq<string>): Outcome<Option<RawPoint>> {
    if |row| < 2 then Returned(None)
    else match ParseDate(Clean(row[0]))
      case Raised(e) => Raised(e)
      case Returned(None) => Returned(None)
      case Returned(Some(date)) =>
        var s := Tally(ColumnCells(headers, row));
        if s.linux == 0 && s.win == 0 then Returned(None) else Returned(Some(MakePoint(date, s)))
  }

  /** `_parse_timeseries` as a value: the rows' points in order; the first raise escapes. */
  function Timeseries(headers: seq<string>, rows: seq<seq<string>>): Outcome<seq<RawPoint>> {
    if rows == [] then Returned([])
    else match Timeseries(headers, rows[..|rows| - 1])
      case Raised(e) => Raised(e)
      case Returned(ps) =>
        match RowPoint(headers, rows[|rows| - 1])
        case Raised(e) => Raised(e)
        case Returned(None) => Returned(ps)
        case Returned(Some(p)) => Returned(ps + [p])
  }

  /** What every point StatCounter yields satisfies. */
  predicate GoodPoint(p: RawPoint) {
    && p.date.Some? && EndsWith(p.date.value, "-01")
    && p.linux.Some? && p.windows.Some?
    && (p.linux.value != 0 || p.windows.value != 0)
  }

  /** At most one point per row, each dated on a first of the month with a Linux or Windows share. */
  lemma {:induction false} TimeseriesShape(headers: seq<string>, rows: seq<seq<string>>)
    ensures Timeseries(headers, rows).Returned? ==>
      |Timeseries(headers, rows).value| <= |rows| && forall p :: p in Timeseries(headers, rows).value ==> GoodPoint(p)
  {
    if rows != [] {
      TimeseriesShape(headers, rows[..|rows| - 1]);
    }
  }

  /** The cells of the single-month export: each row of two or more cells, as (name, share). */
  function AggregateCells(rows: seq<seq<string>>): seq<Cell> {
    if rows == [] then []
    else
      var row := rows[|rows| - 1];
      AggregateCells(rows[..|rows| - 1]) + (if |row| < 2 then [] else [(Lower(Clean(row[0])), row[1])])
  }

  /** `_parse_aggregate` as a value: one point for the period, or none. */
  function AggregatePoints(rows: seq<seq<string>>, period: Option<string>): seq<RawPoint> {
    if period.None? then []
    else
      var s := Tally(AggregateCells(rows));
      if s.linux == 0 && s.win == 0 then [] else [MakePoint(period.value, s)]
  }

  /** `[h.strip().strip('"') for h in rows[0]]`. */
  function CleanAll(row: seq<string>): (r: seq<string>)
    ensures |r| == |row| && forall k :: 0 <= k < |row| ==> r[k] == Clean(row[k])
  {
    seq(|row|, k requires 0 <= k < |row| => Clean(row[k]))
  }

  /**
   * `_parse_csv` as a value, on the rows `csv.reader` gives: the first
   * header chooses the time-series ("date") or single-month ("os") layout;
   * an empty first row raises `IndexError`.
   */
  function CsvPoints(rows: seq<seq<string>>): Outcome<seq<RawPoint>> {
    if rows == [] then Returned([])
    else if rows[0] == [] then Raised(IndexError)
    else
      var headers := CleanAll(rows[0]);
      if Lower(headers[0]) == "date" then Timeseries(headers, rows[1..])
      else if Lower(headers[0]) == "os" then
        match ExtractPeriod(if |headers| > 1 then headers[1] else "")
        case Raised(e) => Raised(e)
        case Returned(period) => Returned(AggregatePoints(rows[1..], period))
      else Returned([])
  }

  /** Every point of the export is a good one, the single-month layout gives at most one. */
  lemma CsvPointsShape(rows: seq<seq<string>>)
    ensures CsvPoints(rows).Returned? ==> forall p :: p in CsvPoints(rows).value ==> GoodPoint(p)
    ensures rows != [] && rows[0] != [] && Lower(Clean(rows[0][0])) == "os" ==>
      CsvPoints(rows).Returned? ==> |CsvPoints(rows).value| <= 1
    ensures rows != [] && rows[0] != [] && Lower(Clean(rows[0][0])) != "os" && Lower(Clean(rows[0][0])) != "date" ==>
      CsvPoints(rows) == Returned([])
  {
    if rows != [] && rows[0] != [] {
      var headers := CleanAll(rows[0]);
      assert headers[0] == Clean(rows[0][0]);
      if Lower(headers[0]) == "date" {
        TimeseriesShape(headers, rows[1..]);
      } else if Lower(headers[0]) == "os" {
        var period := ExtractPeriod(if |headers| > 1 then headers[1] else "");
        if period.Returned? {
          assert CsvPoints(rows) == Returned(AggregatePoints(rows[1..], period.value));
          AggregatePointsShape(rows[1..], period.value);
        }
      }
    }
  }

  lemma AggregatePointsShape(rows: seq<seq<string>>, period: Option<string>)
    requires period.Some? ==> EndsWith(period.value, "-01")
    ensures |AggregatePoints(rows, period)| <= 1
    ensures forall p :: p in AggregatePoints(rows, period) ==> GoodPoint(p)
  {
  }

  /** The single-month point's Linux share is the total of the "linux" rows. */
  lemma AggregateLinux(rows: seq<seq<string>>, period: string)
    ensures AggregatePoints(rows, Some(period)) != [] ==>
      AggregatePoints(rows, Some(period))[0].linux == Some(BucketSum(AggregateCells(rows), LinuxCol))
  {
    TallyByBucket(AggregateCells(rows), LinuxCol);
  }

  /** `_parse_timeseries` on the rows after the header. */
  method ParseTimeseries(headers: seq<string>, rows: seq<seq<string>>) returns (r: Outcome<seq<RawPoint>>)
    ensures r == Timeseries(headers, rows)
  {
    var points := [];
    for k := 0 to |rows|
      invariant Timeseries(headers, rows[..k]) == Returned(points)
    {
      assert rows[..k + 1][..k] == rows[..k];
      var row := rows[k];
      if |row| < 2 {
        continue;
      }
      var date := ParseDate(Clean(row[0]));
      if date.Raised? {
        TimeseriesRaises(headers, rows, k + 1);
        return Raised(date.exc);
      }
      if date.value.None? {
        continue;
      }
      var s := SumColumns(headers, row);
      if s.linux == 0 && s.win == 0 {
        continue;
      }
      points := points + [MakePoint(date.value.value, s)];
    }
    assert rows[..|rows|] == rows;
    r := Returned(points);
  }

  /** A raise in the first `k` rows is the result of the whole table. */
  lemma {:induction false} TimeseriesRaises(headers: seq<string>, rows: seq<seq<string>>, k: nat)
    requires k <= |rows| && Timeseries(headers, rows[..k]).Raised?
    ensures Timeseries(headers, rows) == Timeseries(headers, rows[..k])
    decreases |rows| - k
  {
    if k < |rows| {
      assert rows[..k + 1][..k] == rows[..k];
      TimeseriesRaises(headers, rows, k + 1);
    } else {
      assert rows[..k] == rows;
    }
  }

  /** The inner loop of `_parse_timeseries`: one row's cells added to their buckets. */
  method SumColumns(headers: seq<string>, row: seq<string>) returns (s: Shares)
    ensures s == Tally(ColumnCells(headers, row))
  {
    var cells := ColumnCells(headers, row);
    var linux, win, mac, chrome, other := 0, 0, 0, 0, 0;
    for k := 0 to |cells|
      invariant Shares(linux, win, mac, chrome, other) == Tally(cells[..k])
    {
      var colL := Lower(headers[k + 1]);
      var val := ParseShare(row[k + 1]);
      linux, win, mac, chrome, other := AddNamed(linux, win, mac, chrome, other, colL, val);
      TallyStep(cells, k);
    }
    assert cells[..|cells|] == cells;
    s := Shares(linux, win, mac, chrome, other);
  }

  /** The bucket test of both loops: the value goes to the first bucket whose test the name passes. */
  method AddNamed(linux: int, win: int, mac: int, chrome: int, other: int, colL: string, val: int)
    returns (linux': int, win': int, mac': int, chrome': int, other': int)
    ensures Shares(linux', win', mac', chrome', other') == AddShare(Shares(linux, win, mac, chrome, other), BucketOf(colL), val)
  {
    linux', win', mac', chrome', other' := linux, win, mac, chrome, other;
    if colL == "linux" {
      linux' := linux + val;
    } else if colL in MacColumns {
      mac' := mac + val;
    } else if colL == "chrome os" {
      chrome' := chrome + val;
    } else if StartsWith(colL, "win") {
      win' := win + val;
    } else {
      other' := other + val;
    }
  }

  /** `_parse_aggregate`: every row of two or more cells added to its bucket. */
  method ParseAggregate(rows: seq<seq<string>>, period: Option<string>) returns (points: seq<RawPoint>)
    ensures points == AggregatePoints(rows, period)
  {
    if period.None? {
      return [];
    }
    var linux, win, mac, chrome, other := 0, 0, 0, 0, 0;
    for k := 0 to |rows|
      invariant Shares(linux, win, mac, chrome, other) == Tally(AggregateCells(rows[..k]))
    {
      var row := rows[k];
      if |row| < 2 {
        AggregateSkip(rows, k);
        continue;
      }
      var colL := Lower(Clean(row[0]));
      var val := ParseShare(row[1]);
      linux, win, mac, chrome, other := AddNamed(linux, win, mac, chrome, other, colL, val);
      AggregateStep(rows, k);
    }
    assert rows[..|rows|] == rows;
    if linux == 0 && win == 0 {
      return [];
    }
    points := [MakePoint(period.value, Shares(linux, win, mac, chrome, other))];
  }

  lemma AggregateSkip(rows: seq<seq<string>>, k: nat)
    requires k < |rows| && |rows[k]| < 2
    ensures AggregateCells(rows[..k + 1]) == AggregateCells(rows[..k])
  {
    assert rows[..k + 1][..k] == rows[..k];
    assert AggregateCells(rows[..k]) + [] == AggregateCells(rows[..k]);
  }

  lemma AggregateStep(rows: seq<seq<string>>, k: nat)
    requires k < |rows| && |rows[k]| >= 2
    ensures Tally(AggregateCells(rows[..k + 1])) ==
      AddShare(Tally(AggregateCells(rows[..k])), BucketOf(Lower(Clean(rows[k][0]))), ParseShare(rows[k][1]))
  {
    assert rows[..k + 1][..k] == rows[..k];
    var c := AggregateCells(rows[..k]);
    var cell := (Lower(Clean(rows[k][0])), rows[k][1]);
    assert AggregateCells(rows[..k + 1]) == c + [cell];
    assert (c + [cell])[..|c|] == c;
  }

  /** `_parse_csv`. */
  method ParseCsv(rows: seq<seq<string>>) returns (r: Outcome<seq<RawPoint>>)
    ensures r == CsvPoints(rows)
  {
    if rows == [] {
      return Returned([]);
    }
    if rows[0] == [] {
      return Raised(IndexError);
    }
    var headers := CleanAll(rows[0]);
    if Lower(headers[0]) == "date" {
      r := ParseTimeseries(headers, rows[1..]);
    } else if Lower(headers[0]) == "os" {
      var period := ExtractPeriod(if |headers| > 1 then headers[1] else "");
      if period.Raised? {
        return Raised(period.exc);
      }
      var points := ParseAggregate(rows[1..], period.value);
      r := Returned(points);
    } else {
      r := Returned([]);
    }
  }

  /** `strftime("%Y%m")`: the `fromInt`/`toInt` parameter. */
  function YearMonthInt(d: Date): string {
    FormatInt(d.year, 4) + FormatInt(d.month, 2)
  }

  /** The parameter is six digits whose value is 100 * year + month. */
  lemma YearMonthIntValue(d: Date)
    requires 0 <= d.year <= 9999 && 1 <= d.month <= 12
    ensures |YearMonthInt(d)| == 6 && AllDigits(YearMonthInt(d))
    ensures DigitsValue(YearMonthInt(d)) == 100 * d.year + d.month
  {
    FormatIntWidth(d.year, 4);
    FormatIntWidth(d.month, 2);
    FormatIntValue(d.year, 4);
    FormatIntValue(d.month, 2);
    DigitsValueAppend(FormatInt(d.year, 4), FormatInt(d.month, 2));
    assert Pow10(2) == 100;
  }

  /** `fromInt == toInt`, which selects the single-month export, exactly when the months agree. */
  lemma SameMonthParameters(a: Date, b: Date)
    requires 0 <= a.year <= 9999 && 1 <= a.month <= 12
    requires 0 <= b.year <= 9999 && 1 <= b.month <= 12
    ensures YearMonthInt(a) == YearMonthInt(b) <==> a.year == b.year && a.month == b.month
  {
    YearMonthIntValue(a);
    YearMonthIntValue(b);
  }

  /** The parameters that vary between exports: the `fromInt`/`toInt` and `fromMonthYear`/`toMonthYear` pairs. */
  datatype ExportQuery = ExportQuery(fromInt: string, toInt: string, fromMonthYear: string, toMonthYear: string)
  {
    /** `_build_url`'s text: the chart endpoint, the fixed monthly desktop-OS worldwide query, then the range. */
    function Url(): string {
      "https://gs.statcounter.com/os-market-share/desktop/worldwide/chart.php"
        + "?period=monthly&statType_hidden=os&region_hidden=ww"
        + "&granularity=monthly&statType=Operating+System&region=Worldwide"
        + "&fromInt=" + fromInt + "&toInt=" + toInt
        + "&fromMonthYear=" + fromMonthYear + "&toMonthYear=" + toMonthYear
        + "&csv=1&chartWidth=600"
    }
  }

  /** `_build_url`: the range parameters for two dates. */
  function BuildUrl(from: Date, to: Date): ExportQuery {
    ExportQuery(YearMonthInt(from), YearMonthInt(to), FormatYm(from.year, from.month), FormatYm(to.year, to.month))
  }

  /** The export for a URL: the status and the rows `csv.reader` reads from the stripped body. */
  type Network = ExportQuery -> Reply<seq<seq<string>>>

  /** What a reply yields: a non-200 reply, a connection error or a raise while parsing gives nothing. */
  function ReplyPoints(reply: Reply<seq<seq<string>>>, today: string): seq<Point> {
    if reply.Response? && reply.status == 200 then
      match CsvPoints(reply.body)
      case Returned(ps) => Formatted(SourceName, ps, today)
      case Raised(_) => []
    else []
  }

  /** `fetch_data` as a value: a bound that does not parse raises before any request. */
  function Fetch(start: Option<string>, end: Option<string>, net: Network, now: Date): Outcome<seq<Point>> {
    var from := BoundDate(start, now);
    var to := BoundDate(end, now);
    if from.None? || to.None? then Raised(ValueError)
    else Returned(ReplyPoints(net(BuildUrl(from.value, to.value)), FormatYmd(now)))
  }

  /** Formatted good points carry the source name and a first-of-month date. */
  lemma FormattedGood(ps: seq<RawPoint>, today: string)
    requires forall p :: p in ps ==> GoodPoint(p)
    ensures forall q :: q in Formatted(SourceName, ps, today) ==>
      q.source == Some(SourceName) && q.date.Some? && EndsWith(q.date.value, "-01")
  {
    var r := Formatted(SourceName, ps, today);
    forall q | q in r
      ensures q.source == Some(SourceName) && q.date.Some? && EndsWith(q.date.value, "-01")
    {
      var i :| 0 <= i < |r| && r[i] == q;
      assert ps[i] in ps;
    }
  }

  /** Every point a reply yields carries the source name and a first-of-month date. */
  lemma ReplyPointsShape(reply: Reply<seq<seq<string>>>, today: string)
    ensures forall q :: q in ReplyPoints(reply, today) ==>
      q.source == Some(SourceName) && q.date.Some? && EndsWith(q.date.value, "-01")
    ensures !(reply.Response? && reply.status == 200) ==> ReplyPoints(reply, today) == []
  {
    if reply.Response? && reply.status == 200 {
      CsvPointsShape(reply.body);
      match CsvPoints(reply.body)
      case Returned(ps) => FormattedGood(ps, today);
      case Raised(_) =>
    }
  }

  /** The fetch raises only for a given bound that is not a date, and then asks nothing. */
  lemma FetchRaises(start: Option<string>, end: Option<string>, net: Network, now: Date)
    ensures Fetch(start, end, net, now).Raised? <==>
      (Given(start) && StrptimeYmd(start.value).None?) || (Given(end) && StrptimeYmd(end.value).None?)
    ensures Fetch(start, end, net, now).Returned? ==>
      forall p :: p in Fetch(start, end, net, now).value ==> p.source == Some(SourceName) && p.date.Some? && EndsWith(p.date.value, "-01")
  {
    var from := BoundDate(start, now);
    var to := BoundDate(end, now);
    if from.Some? && to.Some? {
      ReplyPointsShape(net(BuildUrl(from.value, to.value)), FormatYmd(now));
    }
  }

  /** `fetch_data`: returns the points and the URLs requested. */
  method FetchData(start: Option<string>, end: Option<string>, net: Network, now: Date)
    returns (r: Outcome<seq<Point>>, requested: seq<ExportQuery>)
    ensures r == Fetch(start, end, net, now)
    ensures r.Raised? ==> requested == []
    ensures r.Returned? ==> requested == [BuildUrl(BoundDate(start, now).value, BoundDate(end, now).value)]
  {
    var from := BoundDate(start, now);
    var to := BoundDate(end, now);
    if from.None? || to.None? {
      return Raised(ValueError), [];
    }
    var url := BuildUrl(from.value, to.value);
    requested := [url];
    var reply := net(url);
    assert Fetch(start, end, net, now) == Returned(ReplyPoints(reply, FormatYmd(now)));
    if reply.Response? && reply.status == 200 {
      var points := ParseCsv(reply.body);
      if points.Returned? {
        var formatted := FormatData(SourceName, points.value, FormatYmd(now));
        return Returned(formatted), requested;
      }
    }
    r := Returned([]);
  }
}
