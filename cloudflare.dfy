/**
 * `CloudflareAdapter`: operating-system shares of all HTTP traffic from
 * Cloudflare Radar, one request per calendar month.  A single month is
 * fetched directly; a longer range is walked month by month, skipping
 * the months whose file already exists.
 */
module Cloudflare {
  import opened Wrappers
  import opened Numbers
  import opened Calendar
  import opened Points
  import opened Lists
  import opened BaseAdapter

  const SourceName := "Cloudflare"

  /** A value of the `summary_0` object, as `float(v or 0)` sees it. */
  datatype CfValue =
    | Number(n: int)          // a JSON number, in hundredths
    | Text(s: string)         // a JSON string
    | Flag(b: bool)           // true or false
    | Null
    | Compound                // an array or an object: `float()` refuses it, an empty one is falsy

  /**
   * A decoded reply: `result.summary_0` when both are objects (a missing
   * key reads as `{}`), or anything `_parse_response` cannot read (a body
   * that is not JSON, a `result` or `summary_0` that is not an object).
   */
  datatype CfBody = Summary(summary: map<string, CfValue>) | Malformed

  /**
   * One GET of the summary endpoint: the bearer token and the month asked
   * for, whose query bounds are `DateStart` and `DateEnd` below.
   */
  datatype CfRequest = CfRequest(token: string, year: int, month: int)
  {
    /** The `dateStart` and `dateEnd` query parameters. */
    function Bounds(): (string, string)
      requires 1 <= month <= 12
    {
      (DateStart(year, month), DateEnd(year, month))
    }
  }

  type Network = CfRequest -> Reply<CfBody>

  /** `dateStart`: midnight at the start of the month's first day. */
  function DateStart(year: int, month: int): string {
    FormatYm(year, month) + "-01T00:00:00Z"
  }

  /** `dateEnd`: the last second of the month's last day. */
  function DateEnd(year: int, month: int): string
    requires 1 <= month <= 12
  {
    FormatYm(year, month) + "-" + FormatInt(DaysInMonth(year, month), 2) + "T23:59:59Z"
  }

  /**
   * The bounds cover the whole month and nothing else: the start is the
   * 1st, the end is a valid date and the day after it is not in the month.
   */
  lemma QueryBoundsCover(year: int, month: int)
    requires 1 <= year <= 9999 && 1 <= month <= 12
    ensures |DateStart(year, month)| == 20 && |DateEnd(year, month)| == 20
    ensures StrptimeYmd(DateStart(year, month)[..10]) == Some(Date(year, month, 1))
    ensures StrptimeYmd(DateEnd(year, month)[..10]) == Some(Date(year, month, DaysInMonth(year, month)))
    ensures !ValidDate(Date(year, month, DaysInMonth(year, month) + 1))
  {
    StartBoundDate(year, month);
    EndBoundDate(year, month);
  }

  lemma StartBoundDate(year: int, month: int)
    requires 1 <= year <= 9999 && 1 <= month <= 12
    ensures |DateStart(year, month)| == 20
    ensures StrptimeYmd(DateStart(year, month)[..10]) == Some(Date(year, month, 1))
  {
    var first := Date(year, month, 1);
    FormatIntWidth(year, 4);
    FormatIntWidth(month, 2);
    assert FormatInt(1, 2) == "01";
    assert DateStart(year, month) == FormatYmd(first) + "T00:00:00Z";
    assert DateStart(year, month)[..10] == FormatYmd(first);
    StrptimeFormatYmd(first);
  }

  lemma EndBoundDate(year: int, month: int)
    requires 1 <= year <= 9999 && 1 <= month <= 12
    ensures |DateEnd(year, month)| == 20
    ensures StrptimeYmd(DateEnd(year, month)[..10]) == Some(Date(year, month, DaysInMonth(year, month)))
  {
    var last := Date(year, month, DaysInMonth(year, month));
    FormatIntWidth(year, 4);
    FormatIntWidth(month, 2);
    FormatIntWidth(DaysInMonth(year, month), 2);
    assert DateEnd(year, month) == FormatYmd(last) + "T23:59:59Z";
    assert DateEnd(year, month)[..10] == FormatYmd(last);
    StrptimeFormatYmd(last);
  }

  /** February's bound ends on the 29th exactly in leap years. */
  lemma FebruaryEnd(year: int)
    ensures DateEnd(year, 2) == FormatYm(year, 2) + (if IsLeap(year) then "-29" else "-28") + "T23:59:59Z"
  {
    assert FormatInt(29, 2) == "29" && FormatInt(28, 2) == "28";
  }

  /** `pct(key)`: the share under `key`, 0 when it is missing, falsy or not a number. */
  function Pct(summary: map<string, CfValue>, key: string): int {
    if key !in summary then 0
    else match summary[key]
      case Number(n) => n
      case Text(s) => if s == "" then 0 else ParseFloat(s).GetOr(0)
      case Flag(b) => if b then 100 else 0
      case Null => 0
      case Compound => 0
  }

  /** `_parse_response`: no point for an unreadable or empty summary. */
  function ParseResponse(body: CfBody, year: int, month: int): Option<RawPoint> {
    if body.Malformed? || body.summary == map[] then None
    else
      var s := body.summary;
      var linux := Pct(s, "LINUX");
      var windows := Pct(s, "WINDOWS");
      var mac := Pct(s, "MACOS");
      var android := Pct(s, "ANDROID");
      var ios := Pct(s, "IOS");
      var other := Pct(s, "OTHER");
      Some(RawPoint(Some(FirstOfMonth(year, month)), Some(linux), Some(windows), Some(mac), None,
        Some(android + ios + other),
        Some(map["Linux" := Num(linux), "Windows" := Num(windows), "macOS" := Num(mac),
                 "Android" := Num(android), "iOS" := Num(ios), "Other" := Num(other)])))
  }

  /** The `Num` value of `details[key]`, 0 when missing or not a number. */
  function DetailNum(details: Details, key: string): int {
    if key in details && details[key].Num? then details[key].n else 0
  }

  /**
   * A point exists exactly for a readable, non-empty summary; it is dated
   * the 1st of the month, has no ChromeOS share, reads each share from
   * its own summary key, with Android, iOS and other together as other,
   * and its four shares account for all six detail entries.
   */
  lemma ParseResponseShape(body: CfBody, year: int, month: int)
    ensures ParseResponse(body, year, month).None? <==> body.Malformed? || body.summary == map[]
    ensures ParseResponse(body, year, month).Some? ==>
      var p := ParseResponse(body, year, month).value;
      && p.date == Some(FirstOfMonth(year, month))
      && p.chromeos.None? && p.linux.Some? && p.windows.Some? && p.mac.Some? && p.other.Some?
      && p.details.Some?
      && p.details.value.Keys == {"Linux", "Windows", "macOS", "Android", "iOS", "Other"}
      && p.linux.value + p.windows.value + p.mac.value + p.other.value ==
           DetailNum(p.details.value, "Linux") + DetailNum(p.details.value, "Windows")
           + DetailNum(p.details.value, "macOS") + DetailNum(p.details.value, "Android")
           + DetailNum(p.details.value, "iOS") + DetailNum(p.details.value, "Other")
      && p.linux.value == Pct(body.summary, "LINUX")
      && p.windows.value == Pct(body.summary, "WINDOWS")
      && p.mac.value == Pct(body.summary, "MACOS")
      && p.other.value == Pct(body.summary, "ANDROID") + Pct(body.summary, "IOS") + Pct(body.summary, "OTHER")
      && p.details.value["Linux"] == Num(Pct(body.summary, "LINUX"))
      && p.details.value["Windows"] == Num(Pct(body.summary, "WINDOWS"))
      && p.details.value["macOS"] == Num(Pct(body.summary, "MACOS"))
      && p.details.value["Android"] == Num(Pct(body.summary, "ANDROID"))
      && p.details.value["iOS"] == Num(Pct(body.summary, "IOS"))
      && p.details.value["Other"] == Num(Pct(body.summary, "OTHER"))
  {
  }

  /** `_fetch_one_month` as a value: only a 200 reply is parsed. */
  function MonthRaw(year: int, month: int, token: string, net: Network): Option<RawPoint>
    requires 1 <= month <= 12
  {
    var reply := net(CfRequest(token, year, month));
    if reply.ConnectionError? then None
    else if reply.status == 400 then None
    else if reply.status != 200 then None
    else ParseResponse(reply.body, year, month)
  }

  /** A month yields a point only from a 200 reply with a readable, non-empty summary. */
  lemma MonthRawShape(year: int, month: int, token: string, net: Network)
    requires 1 <= month <= 12
    ensures var reply := net(CfRequest(token, year, month));
      MonthRaw(year, month, token, net).Some? <==>
        reply.Response? && reply.status == 200 && reply.body.Summary? && reply.body.summary != map[]
    ensures MonthRaw(year, month, token, net).Some? ==>
      MonthRaw(year, month, token, net).value.date == Some(FirstOfMonth(year, month))
  {
    var reply := net(CfRequest(token, year, month));
    if reply.Response? && reply.status == 200 {
      ParseResponseShape(reply.body, year, month);
    }
  }

  /** `_fetch_one_month`: one GET, then the status checks and the parse. */
  method FetchOneMonth(year: int, month: int, token: string, net: Network) returns (point: Option<RawPoint>, req: CfRequest)
    requires 1 <= month <= 12
    ensures point == MonthRaw(year, month, token, net)
    ensures req == CfRequest(token, year, month)
  {
    req := CfRequest(token, year, month);
    var resp := net(req);
    if resp.ConnectionError? {
      return None, req;
    }
    if resp.status == 400 {
      return None, req;
    }
    if resp.status != 200 {
      return None, req;
    }
    point := ParseResponse(resp.body, year, month);
  }

  /** A month's formatted points: `format_data([point])`, or none. */
  function MonthPoints(year: int, month: int, token: string, net: Network, today: string): seq<Point>
    requires 1 <= month <= 12
  {
    match MonthRaw(year, month, token, net)
    case None => []
    case Some(p) => Formatted(SourceName, [p], today)
  }

  lemma MonthPointsOf(year: int, month: int, token: string, net: Network, today: string, point: Option<RawPoint>)
    requires 1 <= month <= 12 && point == MonthRaw(year, month, token, net)
    ensures MonthPoints(year, month, token, net, today) == if point.Some? then Formatted(SourceName, [point.value], today) else []
  {
  }

  // ---------------------------------------------------------------------
  // _fetch_historical
  // ---------------------------------------------------------------------

  /** `data/cloudflare/YYYY-MM.json` exists (its size is not looked at). */
  predicate Stored(listing: Listing, year: int, month: int) {
    FormatYm(year, month) + ".json" in listing
  }

  /** Month `i` of the walk, when it is fetched. */
  function UnstoredAt(listing: Listing): int -> seq<int> {
    i => if Stored(listing, YearOf(i), MonthOf(i)) then [] else [i]
  }

  /** The months of the `n` from month index `lo` on that the walk fetches, in walk order. */
  function FetchedMonths(lo: int, n: nat, listing: Listing): seq<int> {
    Walk(lo, n, UnstoredAt(listing))
  }

  /** The requests for a list of months, in the same order. */
  function RequestsFor(months: seq<int>, token: string): seq<CfRequest> {
    seq(|months|, j requires 0 <= j < |months| => CfRequest(token, YearOf(months[j]), MonthOf(months[j])))
  }

  /** What month `i` of the walk asks the network for. */
  function LogAt(token: string, listing: Listing): int -> seq<CfRequest> {
    i => if Stored(listing, YearOf(i), MonthOf(i)) then [] else [CfRequest(token, YearOf(i), MonthOf(i))]
  }

  function BackfillLog(lo: int, n: nat, token: string, listing: Listing): seq<CfRequest> {
    Walk(lo, n, LogAt(token, listing))
  }

  /**
   * The walk fetches each month of the range that has no file, exactly
   * once and in calendar order, and no other month.
   */
  lemma FetchedMonthsExactly(lo: int, n: nat, listing: Listing)
    ensures forall a, b :: 0 <= a < b < |FetchedMonths(lo, n, listing)| ==>
      FetchedMonths(lo, n, listing)[a] < FetchedMonths(lo, n, listing)[b]
    ensures forall i :: i in FetchedMonths(lo, n, listing) <==>
      lo <= i < lo + n && !Stored(listing, YearOf(i), MonthOf(i))
  {
    var f := UnstoredAt(listing);
    WalkIncreasing(lo, n, f);
    forall i ensures i in FetchedMonths(lo, n, listing) <==> lo <= i < lo + n && !Stored(listing, YearOf(i), MonthOf(i)) {
      WalkContents(lo, n, f, i);
      if lo <= i < lo + n && !Stored(listing, YearOf(i), MonthOf(i)) {
        assert f(i) == [i];
      }
      if i in FetchedMonths(lo, n, listing) {
        var j :| lo <= j < lo + n && i in f(j);
        assert f(j) == (if Stored(listing, YearOf(j), MonthOf(j)) then [] else [j]);
      }
    }
  }

  lemma FetchedMonthsStep(lo: int, k: nat, year: int, month: int, listing: Listing)
    requires 1 <= month <= 12 && MonthIndex(year, month) == lo + k
    ensures FetchedMonths(lo, k + 1, listing) ==
      FetchedMonths(lo, k, listing) + (if Stored(listing, year, month) then [] else [lo + k])
  {
    var f := UnstoredAt(listing);
    calc {
      FetchedMonths(lo, k + 1, listing);
      Walk(lo, k + 1, f);
      Walk(lo, k, f) + f(lo + k);
      { UnstoredAtIndex(listing, year, month); }
      FetchedMonths(lo, k, listing) + (if Stored(listing, year, month) then [] else [lo + k]);
    }
  }

  lemma UnstoredAtIndex(listing: Listing, year: int, month: int)
    requires 1 <= month <= 12
    ensures UnstoredAt(listing)(MonthIndex(year, month)) ==
      if Stored(listing, year, month) then [] else [MonthIndex(year, month)]
  {
    MonthIndexOf(year, month);
  }

  lemma LogStep(lo: int, k: nat, year: int, month: int, token: string, listing: Listing)
    requires 1 <= month <= 12 && MonthIndex(year, month) == lo + k
    ensures RequestsFor(FetchedMonths(lo, k + 1, listing), token) ==
      RequestsFor(FetchedMonths(lo, k, listing), token) + (if Stored(listing, year, month) then [] else [CfRequest(token, year, month)])
  {
    FetchedMonthsStep(lo, k, year, month, listing);
    var ms := FetchedMonths(lo, k, listing);
    if Stored(listing, year, month) {
      assert FetchedMonths(lo, k + 1, listing) == ms;
    } else {
      MonthIndexOf(year, month);
      assert FetchedMonths(lo, k + 1, listing) == ms + [lo + k];
      RequestsForAppend(ms, lo + k, token);
    }
  }

  lemma RequestsForAppend(ms: seq<int>, m: int, token: string)
    ensures RequestsFor(ms + [m], token) == RequestsFor(ms, token) + [CfRequest(token, YearOf(m), MonthOf(m))]
  {
    var a, b := RequestsFor(ms + [m], token), RequestsFor(ms, token) + [CfRequest(token, YearOf(m), MonthOf(m))];
    assert |a| == |b|;
    forall j | 0 <= j < |a| ensures a[j] == b[j] {
      if j < |ms| {
        assert (ms + [m])[j] == ms[j];
      }
    }
  }

  lemma BackfillLogStep(lo: int, k: nat, year: int, month: int, token: string, listing: Listing)
    requires 1 <= month <= 12 && MonthIndex(year, month) == lo + k
    ensures BackfillLog(lo, k + 1, token, listing) ==
      BackfillLog(lo, k, token, listing) + (if Stored(listing, year, month) then [] else [CfRequest(token, year, month)])
  {
    var f := LogAt(token, listing);
    calc {
      BackfillLog(lo, k + 1, token, listing);
      Walk(lo, k + 1, f);
      Walk(lo, k, f) + f(lo + k);
      { LogAtIndex(token, listing, year, month); }
      BackfillLog(lo, k, token, listing) + (if Stored(listing, year, month) then [] else [CfRequest(token, year, month)]);
    }
  }

  lemma LogAtIndex(token: string, listing: Listing, year: int, month: int)
    requires 1 <= month <= 12
    ensures LogAt(token, listing)(MonthIndex(year, month)) ==
      if Stored(listing, year, month) then [] else [CfRequest(token, year, month)]
  {
    MonthIndexOf(year, month);
  }

  /** The walk's requests are exactly one request per fetched month, in month order. */
  lemma {:induction false} BackfillLogRequests(lo: int, n: nat, token: string, listing: Listing)
    ensures BackfillLog(lo, n, token, listing) == RequestsFor(FetchedMonths(lo, n, listing), token)
  {
    if n > 0 {
      var k := n - 1;
      BackfillLogRequests(lo, k, token, listing);
      MonthIndexInverse(lo + k);
      BackfillLogStep(lo, k, YearOf(lo + k), MonthOf(lo + k), token, listing);
      LogStep(lo, k, YearOf(lo + k), MonthOf(lo + k), token, listing);
    }
  }

  /** What the loop has gathered so far: the formatted points and the requests made. */
  datatype Progress = Progress(points: seq<Point>, requests: seq<CfRequest>)

  /**
   * The loop's turns for the months from `(fromYear, fromMonth)` up to, but
   * not including, `(year, month)`: a month whose file exists adds nothing,
   * any other adds its request and the points of its reply.
   */
  function Visited(fromYear: int, fromMonth: int, year: int, month: int, token: string, listing: Listing, net: Network, today: string): Progress
    requires 1 <= fromMonth <= 12 && 1 <= month <= 12
    decreases MonthIndex(year, month) - MonthIndex(fromYear, fromMonth)
  {
    if MonthIndex(year, month) <= MonthIndex(fromYear, fromMonth) then Progress([], [])
    else
      var (py, pm) := PrevMonth(year, month);
      var p := Visited(fromYear, fromMonth, py, pm, token, listing, net, today);
      if Stored(listing, py, pm) then p
      else Progress(p.points + MonthPoints(py, pm, token, net, today), p.requests + [CfRequest(token, py, pm)])
  }

  /** One more turn of the loop visits the month it stands on. */
  lemma VisitedNext(fromYear: int, fromMonth: int, year: int, month: int, token: string, listing: Listing, net: Network, today: string)
    requires 1 <= fromMonth <= 12 && 1 <= month <= 12 && MonthIndex(fromYear, fromMonth) <= MonthIndex(year, month)
    ensures var p := Visited(fromYear, fromMonth, year, month, token, listing, net, today);
      Visited(fromYear, fromMonth, NextMonth(year, month).0, NextMonth(year, month).1, token, listing, net, today) ==
        if Stored(listing, year, month) then p
        else Progress(p.points + MonthPoints(year, month, token, net, today), p.requests + [CfRequest(token, year, month)])
  {
    var next := NextMonth(year, month);
    var prev := PrevMonth(next.0, next.1);
    MonthIndexInjective(prev.0, prev.1, year, month);
  }

  /** The requests of the loop's turns are the month walk's requests. */
  lemma {:induction false} VisitedRequests(fromYear: int, fromMonth: int, year: int, month: int, n: nat, token: string, listing: Listing, net: Network, today: string)
    requires 1 <= fromMonth <= 12 && 1 <= month <= 12 && MonthIndex(year, month) == MonthIndex(fromYear, fromMonth) + n
    ensures Visited(fromYear, fromMonth, year, month, token, listing, net, today).requests ==
      BackfillLog(MonthIndex(fromYear, fromMonth), n, token, listing)
    decreases n
  {
    if n > 0 {
      var lo, k := MonthIndex(fromYear, fromMonth), n - 1;
      var py, pm := PrevMonth(year, month).0, PrevMonth(year, month).1;
      var added := if Stored(listing, py, pm) then [] else [CfRequest(token, py, pm)];
      calc {
        Visited(fromYear, fromMonth, year, month, token, listing, net, today).requests;
        Visited(fromYear, fromMonth, py, pm, token, listing, net, today).requests + added;
        { VisitedRequests(fromYear, fromMonth, py, pm, k, token, listing, net, today); }
        BackfillLog(lo, k, token, listing) + added;
        { BackfillLogStep(lo, k, py, pm, token, listing); }
        BackfillLog(lo, k + 1, token, listing);
      }
    }
  }

  /** From `from` through `to`, the loop requests exactly the unstored months of the range, in order. */
  lemma HistoricalRequests(from: Date, to: Date, token: string, listing: Listing, net: Network, today: string)
    requires 1 <= from.month <= 12 && 1 <= to.month <= 12
    ensures Visited(from.year, from.month, NextMonth(to.year, to.month).0, NextMonth(to.year, to.month).1, token, listing, net, today).requests
      == RequestsFor(FetchedMonths(MonthIndex(from.year, from.month), MonthCount(from, to), listing), token)
  {
    var ny, nm := NextMonth(to.year, to.month).0, NextMonth(to.year, to.month).1;
    var lo := MonthIndex(from.year, from.month);
    var n := MonthCount(from, to);
    var after := Visited(from.year, from.month, ny, nm, token, listing, net, today);
    if lo <= MonthIndex(ny, nm) {
      VisitedRequests(from.year, from.month, ny, nm, n, token, listing, net, today);
      assert after.requests == BackfillLog(lo, n, token, listing);
    } else {
      assert after == Progress([], []);
      assert BackfillLog(lo, n, token, listing) == [];
    }
    BackfillLogRequests(lo, n, token, listing);
  }

  /**
   * Each month adds at most one point; every point carries the source's
   * name and is dated the 1st of an unstored month of the range.
   */
  lemma {:induction false} VisitedShape(fromYear: int, fromMonth: int, year: int, month: int, n: nat,
                                         token: string, listing: Listing, net: Network, today: string, p: Point)
    requires 1 <= fromMonth <= 12 && 1 <= month <= 12 && MonthIndex(year, month) == MonthIndex(fromYear, fromMonth) + n
    ensures |Visited(fromYear, fromMonth, year, month, token, listing, net, today).points| <= n
    ensures p in Visited(fromYear, fromMonth, year, month, token, listing, net, today).points ==>
      && p.source == Some(SourceName)
      && exists y, m :: 1 <= m <= 12 && MonthIndex(fromYear, fromMonth) <= MonthIndex(y, m) < MonthIndex(year, month)
           && !Stored(listing, y, m) && p.date == Some(FirstOfMonth(y, m))
    decreases n
  {
    if n > 0 {
      var py, pm := PrevMonth(year, month).0, PrevMonth(year, month).1;
      var before := Visited(fromYear, fromMonth, py, pm, token, listing, net, today);
      var added := if Stored(listing, py, pm) then [] else MonthPoints(py, pm, token, net, today);
      assert Visited(fromYear, fromMonth, year, month, token, listing, net, today).points == before.points + added;
      VisitedShape(fromYear, fromMonth, py, pm, n - 1, token, listing, net, today, p);
      MonthRawShape(py, pm, token, net);
      if p in added {
        assert p.date == Some(FirstOfMonth(py, pm));
      }
    }
  }

  /** One turn of the month loop: a month whose file exists is skipped, any other is fetched. */
  method VisitMonth(year: int, month: int, token: string, listing: Listing, net: Network, today: string,
                    ghost fromYear: int, ghost fromMonth: int, results: seq<Point>, log: seq<CfRequest>)
    returns (results': seq<Point>, log': seq<CfRequest>)
    requires 1 <= month <= 12 && 1 <= fromMonth <= 12 && MonthIndex(fromYear, fromMonth) <= MonthIndex(year, month)
    requires Progress(results, log) == Visited(fromYear, fromMonth, year, month, token, listing, net, today)
    ensures Progress(results', log') == Visited(fromYear, fromMonth, NextMonth(year, month).0, NextMonth(year, month).1, token, listing, net, today)
  {
    VisitedNext(fromYear, fromMonth, year, month, token, listing, net, today);
    results', log' := results, log;
    var ym := FormatYm(year, month);
    if ym + ".json" !in listing {
      var point, req := FetchOneMonth(year, month, token, net);
      MonthPointsOf(year, month, token, net, today, point);
      log' := log' + [req];
      if point.Some? {
        var points := FormatData(SourceName, [point.value], today);
        results' := results' + points;
      } else {
        assert results' + [] == results';
      }
    }
  }

  /** `_fetch_historical`: the month loop from `from`'s month to `to`'s, both included. */
  method FetchHistorical(from: Date, to: Date, token: string, listing: Listing, net: Network, today: string)
    returns (results: seq<Point>, log: seq<CfRequest>)
    requires 1 <= from.month <= 12 && 1 <= to.month <= 12
    ensures Progress(results, log) == Visited(from.year, from.month, NextMonth(to.year, to.month).0, NextMonth(to.year, to.month).1, token, listing, net, today)
  {
    var lo := MonthIndex(from.year, from.month);
    var hi := MonthIndex(to.year, to.month);
    results := [];
    log := [];
    var year, month := from.year, from.month;
    var endYear, endMonth := to.year, to.month;
    while year < endYear || (year == endYear && month <= endMonth)
      invariant 1 <= month <= 12
      invariant lo <= MonthIndex(year, month) && (MonthIndex(year, month) == lo || MonthIndex(year, month) <= hi + 1)
      invariant Progress(results, log) == Visited(from.year, from.month, year, month, token, listing, net, today)
      decreases hi - MonthIndex(year, month)
    {
      MonthIndexOrder(year, month, endYear, endMonth);
      results, log := VisitMonth(year, month, token, listing, net, today, from.year, from.month, results, log);
      year, month := StepMonth(year, month);
    }
    HistoricalLoopEnd(from, to, year, month, token, listing, net, today);
  }

  /** The loop's `month += 1`, rolling December over into January of the next year. */
  method StepMonth(year: int, month: int) returns (year': int, month': int)
    requires 1 <= month <= 12
    ensures (year', month') == NextMonth(year, month)
  {
    year', month' := year, month + 1;
    if month' > 12 {
      month' := 1;
      year' := year' + 1;
    }
  }

  /** Where the month loop stops, it has visited every month from `from`'s to `to`'s. */
  lemma HistoricalLoopEnd(from: Date, to: Date, year: int, month: int, token: string, listing: Listing, net: Network, today: string)
    requires 1 <= from.month <= 12 && 1 <= to.month <= 12 && 1 <= month <= 12
    requires var i := MonthIndex(year, month); var lo := MonthIndex(from.year, from.month);
      lo <= i && (i == lo || i <= MonthIndex(to.year, to.month) + 1)
    requires !(year < to.year || (year == to.year && month <= to.month))
    ensures Visited(from.year, from.month, year, month, token, listing, net, today) ==
      Visited(from.year, from.month, NextMonth(to.year, to.month).0, NextMonth(to.year, to.month).1, token, listing, net, today)
  {
    MonthIndexOrder(year, month, to.year, to.month);
    if MonthIndex(from.year, from.month) <= MonthIndex(to.year, to.month) {
      MonthIndexInjective(year, month, NextMonth(to.year, to.month).0, NextMonth(to.year, to.month).1);
    }
  }

  // ---------------------------------------------------------------------
  // fetch_data
  // ---------------------------------------------------------------------

  /**
   * `fetch_data` as a value: nothing without a token; `ValueError` for a
   * given bound that is not a date; one month directly when both bounds
   * fall in the same month, else the walk.
   */
  function Fetch(start: Option<string>, end: Option<string>, token: string, listing: Listing, net: Network, now: Date): Outcome<seq<Point>>
    requires 1 <= now.month <= 12
  {
    if token == "" then Returned([])
    else
      var from := BoundDate(start, now);
      var to := BoundDate(end, now);
      if from.None? || to.None? then Raised(ValueError)
      else if from.value.year == to.value.year && from.value.month == to.value.month then
        Returned(MonthPoints(from.value.year, from.value.month, token, net, FormatYmd(now)))
      else
        Returned(Visited(from.value.year, from.value.month, NextMonth(to.value.year, to.value.month).0, NextMonth(to.value.year, to.value.month).1,
          token, listing, net, FormatYmd(now)).points)
  }

  /** The requests `fetch_data` makes. */
  function FetchLog(start: Option<string>, end: Option<string>, token: string, listing: Listing, now: Date): seq<CfRequest>
    requires 1 <= now.month <= 12
  {
    if token == "" then []
    else
      var from := BoundDate(start, now);
      var to := BoundDate(end, now);
      if from.None? || to.None? then []
      else if from.value.year == to.value.year && from.value.month == to.value.month then
        [CfRequest(token, from.value.year, from.value.month)]
      else
        RequestsFor(FetchedMonths(MonthIndex(from.value.year, from.value.month), MonthCount(from.value, to.value), listing), token)
  }

  lemma BoundMonth(arg: Option<string>, now: Date)
    requires 1 <= now.month <= 12
    ensures BoundDate(arg, now).Some? ==> 1 <= BoundDate(arg, now).value.month <= 12
  {
  }

  /**
   * Without a token nothing is requested; a single month is requested
   * once, even when its file exists; otherwise the requests are those of
   * the unstored months of the range, in order.
   */
  method FetchData(start: Option<string>, end: Option<string>, token: string, listing: Listing, net: Network, now: Date)
    returns (r: Outcome<seq<Point>>, log: seq<CfRequest>)
    requires 1 <= now.month <= 12
    ensures r == Fetch(start, end, token, listing, net, now)
    ensures log == FetchLog(start, end, token, listing, now)
    ensures token == "" ==> r == Returned([]) && log == []
    ensures r.Raised? ==> log == []
  {
    if token == "" {
      return Returned([]), [];
    }
    var from := BoundDate(start, now);
    var to := BoundDate(end, now);
    if from.None? || to.None? {
      return Raised(ValueError), [];
    }
    BoundMonth(start, now);
    BoundMonth(end, now);
    var today := FormatYmd(now);
    if from.value.year == to.value.year && from.value.month == to.value.month {
      var point, req := FetchOneMonth(from.value.year, from.value.month, token, net);
      log := [req];
      if point.Some? {
        var formatted := FormatData(SourceName, [point.value], today);
        return Returned(formatted), log;
      }
      return Returned([]), log;
    }
    var results;
    results, log := FetchHistorical(from.value, to.value, token, listing, net, today);
    HistoricalRequests(from.value, to.value, token, listing, net, today);
    r := Returned(results);
  }
}
