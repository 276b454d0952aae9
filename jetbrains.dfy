/**
 * The JetBrains Developer Ecosystem Survey adapter.  JetBrains publishes no
 * raw data for most years, so the adapter reads its shares from a table
 * kept in the code: one entry per survey year, shares of respondents who
 * develop on each system (a multi-select question, so they may add up to
 * more than 100%).  `fetch_data` walks the survey years of the range and
 * emits the table's entry for every year that has one and is not stored.
 */
module JetBrains {
  import opened Wrappers
  import opened Numbers
  import opened Calendar
  import opened Points
  import opened Lists
  import opened BaseAdapter

  const SourceName: string := "JetBrains"

  /** The first survey year the adapter asks for. */
  const FirstYear: int := 2019

  /** One survey's figures: three shares in hundredths of a percent and the number of respondents. */
  datatype Survey = Survey(linux: int, windows: int, mac: int, respondents: nat)

  /** `KNOWN_DATA`: the published figures, year by year. */
  const KnownData: map<int, Survey> := map[
    2019 := Survey(4700, 5600, 4900, 6000),
    2020 := Survey(4900, 5900, 4900, 19696),
    2021 := Survey(4700, 6100, 4500, 31743),
    2022 := Survey(4000, 6200, 4400, 29000),
    2023 := Survey(4600, 6200, 4200, 26348),
    2024 := Survey(4900, 5800, 4200, 23000),
    2025 := Survey(4750, 5990, 5300, 24534)]

  /** The note attached to every point. */
  const MultiSelect: string := "Multi-select; shares can exceed 100%"

  /** A year is stored when `data/jetbrains/YYYY-01.json` exists. */
  predicate Stored(listing: Listing, year: int) {
    FormatInt(year, 4) + "-01.json" in listing
  }

  /** A survey's point is dated January 1 of its year. */
  function SurveyDate(year: int): string {
    FormatInt(year, 4) + "-01-01"
  }

  /** The point built from a year's table entry. */
  function KnownPoint(year: int, d: Survey): RawPoint {
    RawPoint(Some(SurveyDate(year)), Some(d.linux), Some(d.windows), Some(d.mac), None, None,
      Some(map["Linux" := Num(d.linux), "Windows" := Num(d.windows), "macOS" := Num(d.mac),
               "total_respondents" := Count(d.respondents), "note" := Label(MultiSelect)]))
  }

  /**
   * The point carries the entry unchanged: dated January 1, the three
   * shares as given, the same figures and the respondents in its details.
   */
  lemma KnownPointShape(year: int, d: Survey)
    ensures var p := KnownPoint(year, d);
      && p.date == Some(SurveyDate(year))
      && p.linux == Some(d.linux) && p.windows == Some(d.windows) && p.mac == Some(d.mac)
      && p.chromeos.None? && p.other.None? && p.details.Some?
      && p.details.value.Keys == {"Linux", "Windows", "macOS", "total_respondents", "note"}
      && p.details.value["Linux"] == Num(d.linux)
      && p.details.value["Windows"] == Num(d.windows)
      && p.details.value["macOS"] == Num(d.mac)
      && p.details.value["total_respondents"] == Count(d.respondents)
  {
  }

  /** A year emits a point when it is not stored and the table has it. */
  predicate Emits(listing: Listing, year: int) {
    !Stored(listing, year) && year in KnownData
  }

  function EmittedAt(listing: Listing): int -> seq<int> {
    y => if Emits(listing, y) then [y] else []
  }

  /** The years from `lo` on, `n` of them, that emit a point, in order. */
  function EmittedYears(lo: int, n: nat, listing: Listing): seq<int> {
    Walk(lo, n, EmittedAt(listing))
  }

  /** What year `y` adds to the results. */
  function YearResult(listing: Listing, today: string, y: int): seq<Point> {
    if Stored(listing, y) || y !in KnownData then []
    else Formatted(SourceName, [KnownPoint(y, KnownData[y])], today)
  }

  function YearPoints(listing: Listing, today: string): int -> seq<Point> {
    y => YearResult(listing, today, y)
  }

  /** The points of the `n` years from `lo` on. */
  function KnownPoints(lo: int, n: nat, listing: Listing, today: string): seq<Point> {
    Walk(lo, n, YearPoints(listing, today))
  }

  /**
   * `fetch_data` as a value: the years from the later of `start`'s and
   * 2019 up to `end`'s; `ValueError` when a given bound does not parse.
   */
  function Fetch(start: Option<string>, end: Option<string>, listing: Listing, now: Date): Outcome<seq<Point>> {
    match (BoundYear(start, now), BoundYear(end, now))
    case (Some(first), Some(last)) =>
      var lo := Max(first, FirstYear);
      Returned(KnownPoints(lo, YearSpan(lo, last), listing, FormatYmd(now)))
    case _ => Raised(ValueError)
  }

  /** The point a year emits, as `format_data` leaves it. */
  function Emitted(y: int, today: string): Point
    requires y in KnownData
  {
    FormatItem(SourceName, KnownPoint(y, KnownData[y]), today)
  }

  /** Year `y` adds its table entry's point exactly when it emits, and nothing otherwise. */
  lemma YearAt(listing: Listing, today: string, y: int)
    ensures var more, emitted := YearResult(listing, today, y), EmittedAt(listing)(y);
      && (emitted == [] || emitted == [y])
      && |more| == |emitted|
      && (more != [] ==> y in KnownData && more[0] == Emitted(y, today))
  {
  }

  /**
   * The points line up with the years that emit one: one point per such
   * year, in the same order, each carrying that year's table entry.
   */
  lemma PointsOfYears(lo: int, n: nat, listing: Listing, today: string)
    ensures var ps, ys := KnownPoints(lo, n, listing, today), EmittedYears(lo, n, listing);
      && |ps| == |ys|
      && forall j :: 0 <= j < |ps| ==> ys[j] in KnownData && ps[j] == Emitted(ys[j], today)
  {
    var f, g := YearPoints(listing, today), EmittedAt(listing);
    forall y | lo <= y < lo + n
      ensures |f(y)| == |g(y)| && (g(y) == [] || g(y) == [y])
      ensures f(y) != [] ==> y in KnownData && f(y)[0] == Emitted(y, today)
    {
      YearAt(listing, today, y);
    }
    WalkAligned(lo, n, f, g, (p: Point, y: int) => y in KnownData && p == Emitted(y, today));
  }

  /**
   * The emitting years are increasing, inside the range, unstored and in
   * the table, and every such year of the range emits: at most one point
   * per year, in year order.
   */
  lemma EmittedYearsShape(lo: int, n: nat, listing: Listing)
    ensures var ys := EmittedYears(lo, n, listing);
      && (forall a, b :: 0 <= a < b < |ys| ==> ys[a] < ys[b])
      && (forall y :: y in ys <==> lo <= y < lo + n && Emits(listing, y))
  {
    var f := EmittedAt(listing);
    WalkIncreasing(lo, n, f);
    forall y ensures y in EmittedYears(lo, n, listing) <==> lo <= y < lo + n && Emits(listing, y) {
      WalkContents(lo, n, f, y);
      if lo <= y < lo + n && Emits(listing, y) {
        assert y in f(y);
      }
    }
  }

  /** Each point is dated January 1 of its year and carries that year's shares. */
  lemma EmittedShape(y: int, today: string)
    requires y in KnownData
    ensures var p, d := Emitted(y, today), KnownData[y];
      && p.source == Some(SourceName) && p.date == Some(SurveyDate(y)) && p.linux == d.linux
      && p.details["Windows"] == Num(d.windows) && p.details["macOS"] == Num(d.mac)
      && p.details["total_respondents"] == Count(d.respondents)
  {
    KnownPointShape(y, KnownData[y]);
  }

  /** No survey year precedes 2019, whatever `start` says. */
  lemma NoEarlyPoints(lo: int, n: nat, listing: Listing, y: int)
    requires y in EmittedYears(lo, n, listing)
    ensures 2019 <= y <= 2025
  {
    EmittedYearsShape(lo, n, listing);
  }

  /** An `end` before the first year searched gives no point at all. */
  lemma EmptyWhenReversed(start: Option<string>, end: Option<string>, listing: Listing, now: Date)
    requires BoundYear(start, now).Some? && BoundYear(end, now).Some?
    requires BoundYear(end, now).value < Max(BoundYear(start, now).value, FirstYear)
    ensures Fetch(start, end, listing, now) == Returned([])
  {
  }

  lemma YearStep(lo: int, k: nat, y: int, listing: Listing, today: string)
    requires y == lo + k
    ensures KnownPoints(lo, k + 1, listing, today) == KnownPoints(lo, k, listing, today) + YearResult(listing, today, y)
  {
  }

  /**
   * `fetch_data`: for each year of the range, skip it when its file exists
   * or the table has no entry, otherwise format and keep its point.
   */
  method FetchData(start: Option<string>, end: Option<string>, listing: Listing, now: Date) returns (r: Outcome<seq<Point>>)
    ensures r == Fetch(start, end, listing, now)
  {
    var first := BoundYear(start, now);
    var last := BoundYear(end, now);
    if first.None? || last.None? {
      return Raised(ValueError);
    }
    var lo := Max(first.value, FirstYear);
    var today := FormatYmd(now);
    var results: seq<Point> := [];
    for k := 0 to YearSpan(lo, last.value)
      invariant results == KnownPoints(lo, k, listing, today)
    {
      var year := lo + k;
      YearStep(lo, k, year, listing, today);
      if Stored(listing, year) {
        continue;
      }
      if year !in KnownData {
        continue;
      }
      var d := KnownData[year];
      var point := KnownPoint(year, d);
      var formatted := FormatData(SourceName, [point], today);
      results := results + formatted;
    }
    r := Returned(results);
  }
}
