/**
 * The US Digital Analytics Program adapter: OS names are classified into
 * six buckets by keyword, visits are summed per OS name, the live endpoint
 * gives the current month and the GSA API is walked month by month.
 *
 * Shares are hundredths of a percent; every HTTP call is an answer of the
 * oracle `net`, which is told the request and whether it is the first
 * attempt (0) or the retry after a 429 (1).
 */
module Dap {
  import opened Wrappers
  import opened Text
  import opened Numbers
  import opened Calendar
  import opened Points
  import opened Lists
  import opened BaseAdapter

  const SourceName: string := "DAP"

  const MobileKeywords: seq<string> := ["android", "ios", "iphone", "ipad", "ipod", "blackberry", "windows phone"]
  const ChromeOsKeywords: seq<string> := ["chromeos", "chrome os", "cros"]
  const LinuxKeywords: seq<string> := ["linux"]
  const WindowsKeywords: seq<string> := ["windows"]
  const MacKeywords: seq<string> := ["macintosh", "mac os", "macos", "os x"]

  datatype Bucket = Mobile | ChromeOs | Linux | Windows | Mac | OtherOs

  /** The bucket of an OS name: the first keyword family found in its lower-cased text. */
  function Classify(osName: string): Bucket {
    var lower := Lower(osName);
    if ContainsAny(lower, MobileKeywords) then Mobile
    else if ContainsAny(lower, ChromeOsKeywords) then ChromeOs
    else if ContainsAny(lower, LinuxKeywords) then Linux
    else if ContainsAny(lower, WindowsKeywords) then Windows
    else if ContainsAny(lower, MacKeywords) then Mac
    else OtherOs
  }

  /**
   * A keyword family wins over every later one: a name is put in a bucket
   * exactly when it holds one of that bucket's keywords and none of an
   * earlier family's.
   */
  lemma ClassifyPrecedence(osName: string)
    ensures var l := Lower(osName);
      && (Classify(osName) == Mobile <==> ContainsAny(l, MobileKeywords))
      && (Classify(osName) == ChromeOs <==> !ContainsAny(l, MobileKeywords) && ContainsAny(l, ChromeOsKeywords))
      && (Classify(osName) == Linux <==>
            !ContainsAny(l, MobileKeywords) && !ContainsAny(l, ChromeOsKeywords) && Contains(l, "linux"))
      && (Classify(osName) == Windows <==>
            !ContainsAny(l, MobileKeywords) && !ContainsAny(l, ChromeOsKeywords) && !Contains(l, "linux")
            && Contains(l, "windows"))
      && (Classify(osName) == Mac <==>
            !ContainsAny(l, MobileKeywords) && !ContainsAny(l, ChromeOsKeywords) && !Contains(l, "linux")
            && !Contains(l, "windows") && ContainsAny(l, MacKeywords))
  {
    var l := Lower(osName);
    assert ContainsAny(l, LinuxKeywords) <==> Contains(l, "linux") by {
      assert LinuxKeywords[0] == "linux";
    }
    assert ContainsAny(l, WindowsKeywords) <==> Contains(l, "windows") by {
      assert WindowsKeywords[0] == "windows";
    }
  }

  // ---------------------------------------------------------------------
  // _parse_dap_data
  // ---------------------------------------------------------------------

  /** The bucket sums of `_parse_dap_data`, in hundredths. */
  datatype Buckets = Buckets(linux: int, windows: int, mac: int, chromeos: int, mobile: int, other: int)

  /** The share of the entries of `byOs` whose name falls in bucket `b`. */
  function BucketSum(byOs: seq<(string, int)>, total: int, b: Bucket): int
    requires total != 0
  {
    if byOs == [] then 0
    else
      var e := byOs[|byOs| - 1];
      BucketSum(byOs[..|byOs| - 1], total, b) + (if Classify(e.0) == b then Percent(e.1, total) else 0)
  }

  /** The share of every entry of `byOs`. */
  function PctSum(byOs: seq<(string, int)>, total: int): int
    requires total != 0
  {
    if byOs == [] then 0 else PctSum(byOs[..|byOs| - 1], total) + Percent(byOs[|byOs| - 1].1, total)
  }

  /** Each bucket holds the shares of exactly the names classified into it. */
  function Tally(byOs: seq<(string, int)>, total: int): Buckets
    requires total != 0
  {
    Buckets(BucketSum(byOs, total, Linux), BucketSum(byOs, total, Windows), BucketSum(byOs, total, Mac),
      BucketSum(byOs, total, ChromeOs), BucketSum(byOs, total, Mobile), BucketSum(byOs, total, OtherOs))
  }

  function BucketTotal(b: Buckets): int {
    b.linux + b.windows + b.mac + b.chromeos + b.mobile + b.other
  }

  /** Every entry's share lands in exactly one bucket, so the buckets add up to the whole. */
  lemma {:induction false} TallyConserves(byOs: seq<(string, int)>, total: int)
    requires total != 0
    ensures BucketTotal(Tally(byOs, total)) == PctSum(byOs, total)
  {
    if byOs != [] {
      TallyConserves(byOs[..|byOs| - 1], total);
    }
  }

  /** The names classified as Linux, each with its own share (a later entry of a name wins). */
  function LinuxDetails(byOs: seq<(string, int)>, total: int): Details
    requires total != 0
  {
    if byOs == [] then map[]
    else
      var rest := LinuxDetails(byOs[..|byOs| - 1], total);
      var e := byOs[|byOs| - 1];
      if Classify(e.0) == Linux then rest[e.0 := Num(Percent(e.1, total))] else rest
  }

  /** The Linux details name exactly the OS names classified as Linux. */
  lemma {:induction false} LinuxDetailsKeys(byOs: seq<(string, int)>, total: int, name: string)
    requires total != 0
    ensures name in LinuxDetails(byOs, total) <==>
      Classify(name) == Linux && exists i :: 0 <= i < |byOs| && byOs[i].0 == name
  {
    if byOs != [] {
      var init := byOs[..|byOs| - 1];
      LinuxDetailsKeys(init, total, name);
      if exists i :: 0 <= i < |init| && init[i].0 == name {
        var i :| 0 <= i < |init| && init[i].0 == name;
        assert byOs[i].0 == name;
      }
      if exists i :: 0 <= i < |byOs| && byOs[i].0 == name {
        var i :| 0 <= i < |byOs| && byOs[i].0 == name;
        if i < |init| {
          assert init[i].0 == name;
        }
      }
    }
  }

  /** A name without an "x" in any case is never classified as Linux, so it is no Linux detail. */
  lemma NotLinuxName(byOs: seq<(string, int)>, total: int, name: string)
    requires total != 0
    requires 'x' !in name && 'X' !in name
    ensures Classify(name) != Linux && name !in LinuxDetails(byOs, total)
  {
    ClassifyPrecedence(name);
    var l := Lower(name);
    assert forall i :: 0 <= i < |l| ==> l[i] != 'x';
    ContainsChar(l, "linux", 'x');
    LinuxDetailsKeys(byOs, total, name);
  }

  /** The bucket names of the details never collide with a Linux name, "Linux" itself aside. */
  lemma BucketNamesNotLinux(byOs: seq<(string, int)>, total: int)
    requires total != 0
    ensures var d := LinuxDetails(byOs, total);
      "Windows" !in d && "macOS" !in d && "ChromeOS" !in d && "Mobile (Android/iOS)" !in d
  {
    NotLinuxName(byOs, total, "Windows");
    NotLinuxName(byOs, total, "macOS");
    NotLinuxName(byOs, total, "ChromeOS");
    NotLinuxName(byOs, total, "Mobile (Android/iOS)");
  }

  /** No mobile or ChromeOS keyword occurs in "linux": each has an "a" or an "o". */
  lemma LinuxIsLinux()
    ensures Classify("Linux") == Linux
  {
    var l := Lower("Linux");
    assert l == "linux" by { assert LowerChar('L') == 'l'; }
    forall k | k in MobileKeywords + ChromeOsKeywords ensures !Contains(l, k) {
      var c := if 'a' in k then 'a' else 'o';
      assert c in k;
      ContainsChar(l, k, c);
    }
    assert !ContainsAny(l, MobileKeywords);
    assert !ContainsAny(l, ChromeOsKeywords);
    assert Contains(l, "linux");
    assert LinuxKeywords[0] == "linux";
  }

  /**
   * The "Linux" bucket entry of the details is overridden exactly when an
   * OS is called "Linux".
   */
  lemma LinuxEntryOverridden(byOs: seq<(string, int)>, total: int)
    requires total != 0
    ensures "Linux" in LinuxDetails(byOs, total) <==> exists i :: 0 <= i < |byOs| && byOs[i].0 == "Linux"
  {
    LinuxIsLinux();
    LinuxDetailsKeys(byOs, total, "Linux");
  }

  /** What `_parse_dap_data` returns when it returns a dictionary. */
  datatype OsData = OsData(linux: int, windows: int, mac: int, chromeos: int, other: int, details: Details)

  /**
   * The result dictionary: the five shares, mobile counted as other, and
   * details naming each bucket followed by the Linux names, which override
   * the "Linux" bucket entry when an OS is called exactly that.
   */
  function SharesOf(b: Buckets, linuxDetails: Details): OsData {
    OsData(b.linux, b.windows, b.mac, b.chromeos, b.mobile + b.other,
      map["Linux" := Num(b.linux), "Windows" := Num(b.windows), "macOS" := Num(b.mac),
          "ChromeOS" := Num(b.chromeos), "Mobile (Android/iOS)" := Num(b.mobile)] + linuxDetails)
  }

  /** `_parse_dap_data` over the `by_os` entries and `totalUsers`. */
  function DapShares(byOs: seq<(string, int)>, totalUsers: int): (r: Option<OsData>)
    ensures r.None? <==> (byOs == [] || totalUsers == 0 ||
      (Tally(byOs, totalUsers).linux == 0 && Tally(byOs, totalUsers).windows == 0))
    ensures r.Some? ==>
      && r.value.linux + r.value.windows + r.value.mac + r.value.chromeos + r.value.other == PctSum(byOs, totalUsers)
      && r.value.other == BucketSum(byOs, totalUsers, Mobile) + BucketSum(byOs, totalUsers, OtherOs)
      && r.value.linux == BucketSum(byOs, totalUsers, Linux)
      && r.value.windows == BucketSum(byOs, totalUsers, Windows)
      && r.value.mac == BucketSum(byOs, totalUsers, Mac)
      && r.value.chromeos == BucketSum(byOs, totalUsers, ChromeOs)
      && r.value.details.Keys ==
           {"Linux", "Windows", "macOS", "ChromeOS", "Mobile (Android/iOS)"} + LinuxDetails(byOs, totalUsers).Keys
      && (forall n :: n in LinuxDetails(byOs, totalUsers) ==> r.value.details[n] == LinuxDetails(byOs, totalUsers)[n])
      && ("Linux" !in LinuxDetails(byOs, totalUsers) ==> r.value.details["Linux"] == Num(BucketSum(byOs, totalUsers, Linux)))
      && r.value.details["Windows"] == Num(BucketSum(byOs, totalUsers, Windows))
      && r.value.details["macOS"] == Num(BucketSum(byOs, totalUsers, Mac))
      && r.value.details["ChromeOS"] == Num(BucketSum(byOs, totalUsers, ChromeOs))
      && r.value.details["Mobile (Android/iOS)"] == Num(BucketSum(byOs, totalUsers, Mobile))
  {
    if byOs == [] || totalUsers == 0 then None
    else
      var b := Tally(byOs, totalUsers);
      if b.linux == 0 && b.windows == 0 then None
      else
        TallyConserves(byOs, totalUsers);
        BucketNamesNotLinux(byOs, totalUsers);
        Some(SharesOf(b, LinuxDetails(byOs, totalUsers)))
  }

  lemma BucketSumStep(byOs: seq<(string, int)>, total: int, k: nat, b: Bucket)
    requires total != 0 && k < |byOs|
    ensures BucketSum(byOs[..k + 1], total, b) ==
      BucketSum(byOs[..k], total, b) + (if Classify(byOs[k].0) == b then Percent(byOs[k].1, total) else 0)
  {
    assert byOs[..k + 1][..k] == byOs[..k];
  }

  /** One more entry adds its share to the bucket it is classified into and to no other. */
  lemma TallyStep(byOs: seq<(string, int)>, total: int, k: nat)
    requires total != 0 && k < |byOs|
    ensures var t := Tally(byOs[..k], total);
      var pct := Percent(byOs[k].1, total);
      var c := Classify(byOs[k].0);
      Tally(byOs[..k + 1], total) == Buckets(
        t.linux + (if c == Linux then pct else 0), t.windows + (if c == Windows then pct else 0),
        t.mac + (if c == Mac then pct else 0), t.chromeos + (if c == ChromeOs then pct else 0),
        t.mobile + (if c == Mobile then pct else 0), t.other + (if c == OtherOs then pct else 0))
  {
    BucketSumStep(byOs, total, k, Linux);
    BucketSumStep(byOs, total, k, Windows);
    BucketSumStep(byOs, total, k, Mac);
    BucketSumStep(byOs, total, k, ChromeOs);
    BucketSumStep(byOs, total, k, Mobile);
    BucketSumStep(byOs, total, k, OtherOs);
  }

  lemma LinuxDetailsStep(byOs: seq<(string, int)>, total: int, k: nat)
    requires total != 0 && k < |byOs|
    ensures LinuxDetails(byOs[..k + 1], total) ==
      if Classify(byOs[k].0) == Linux then LinuxDetails(byOs[..k], total)[byOs[k].0 := Num(Percent(byOs[k].1, total))]
      else LinuxDetails(byOs[..k], total)
  {
    assert byOs[..k + 1][..k] == byOs[..k];
  }

  /** `_parse_dap_data`: one pass over `by_os`, adding each share to its bucket. */
  method ParseDapData(byOs: seq<(string, int)>, totalUsers: int) returns (r: Option<OsData>)
    ensures r == DapShares(byOs, totalUsers)
  {
    if byOs == [] || totalUsers == 0 {
      return None;
    }
    var linux, windows, mac, chromeos, mobile, other := 0, 0, 0, 0, 0, 0;
    var linuxDetails: Details := map[];
    for k := 0 to |byOs|
      invariant Buckets(linux, windows, mac, chromeos, mobile, other) == Tally(byOs[..k], totalUsers)
      invariant linuxDetails == LinuxDetails(byOs[..k], totalUsers)
    {
      var osName := byOs[k].0;
      var pct := Percent(byOs[k].1, totalUsers);
      var lower := Lower(osName);
      TallyStep(byOs, totalUsers, k);
      LinuxDetailsStep(byOs, totalUsers, k);
      if ContainsAny(lower, MobileKeywords) {
        mobile := mobile + pct;
      } else if ContainsAny(lower, ChromeOsKeywords) {
        chromeos := chromeos + pct;
      } else if ContainsAny(lower, LinuxKeywords) {
        linux := linux + pct;
        linuxDetails := linuxDetails[osName := Num(pct)];
      } else if ContainsAny(lower, WindowsKeywords) {
        windows := windows + pct;
      } else if ContainsAny(lower, MacKeywords) {
        mac := mac + pct;
      } else {
        other := other + pct;
      }
    }
    assert byOs[..|byOs|] == byOs;
    if linux == 0 && windows == 0 {
      return None;
    }
    r := Some(SharesOf(Buckets(linux, windows, mac, chromeos, mobile, other), linuxDetails));
  }

  // ---------------------------------------------------------------------
  // Visit aggregation (_fetch_one_month)
  // ---------------------------------------------------------------------

  /** One API record, with `os` defaulted to "" and a missing or null `visits` to 0. */
  datatype DapRecord = DapRecord(os: string, visits: int)

  /** Names that are counted: not empty and not "(not set)". */
  predicate Usable(osName: string) {
    osName != "" && osName != "(not set)"
  }

  /** `by_os[name] = by_os.get(name, 0) + visits` on an insertion-ordered dictionary. */
  function AddVisits(byOs: seq<(string, int)>, name: string, visits: int): seq<(string, int)> {
    if byOs == [] then [(name, visits)]
    else if byOs[0].0 == name then [(name, byOs[0].1 + visits)] + byOs[1..]
    else [byOs[0]] + AddVisits(byOs[1..], name, visits)
  }

  /** The value stored under `name`, if any. */
  function Lookup(byOs: seq<(string, int)>, name: string): Option<int> {
    if byOs == [] then None
    else if byOs[0].0 == name then Some(byOs[0].1)
    else Lookup(byOs[1..], name)
  }

  function SumValues(byOs: seq<(string, int)>): int {
    if byOs == [] then 0 else byOs[0].1 + SumValues(byOs[1..])
  }

  /** The per-name sums, keys in order of first appearance. */
  function Aggregate(records: seq<DapRecord>): seq<(string, int)> {
    if records == [] then []
    else
      var rest := Aggregate(records[..|records| - 1]);
      var rec := records[|records| - 1];
      if Usable(rec.os) then AddVisits(rest, rec.os, rec.visits) else rest
  }

  /** The visits of the records named `name`. */
  function VisitsOf(records: seq<DapRecord>, name: string): int {
    if records == [] then 0
    else
      var rec := records[|records| - 1];
      VisitsOf(records[..|records| - 1], name) + (if rec.os == name then rec.visits else 0)
  }

  /** The visits of every usable record. */
  function UsableVisits(records: seq<DapRecord>): int {
    if records == [] then 0
    else
      var rec := records[|records| - 1];
      UsableVisits(records[..|records| - 1]) + (if Usable(rec.os) then rec.visits else 0)
  }

  lemma {:induction false} VisitsOfAbsent(records: seq<DapRecord>, x: string)
    requires forall i :: 0 <= i < |records| ==> records[i].os != x
    ensures VisitsOf(records, x) == 0
  {
    if records != [] {
      VisitsOfAbsent(records[..|records| - 1], x);
    }
  }

  lemma {:induction false} AddVisitsLookup(byOs: seq<(string, int)>, name: string, visits: int, x: string)
    ensures Lookup(AddVisits(byOs, name, visits), x) ==
      if x == name then Some(Lookup(byOs, name).GetOr(0) + visits) else Lookup(byOs, x)
  {
    if byOs == [] {
    } else if byOs[0].0 == name {
      var r := [(name, byOs[0].1 + visits)] + byOs[1..];
      assert r[0].0 == name && r[1..] == byOs[1..];
    } else {
      var r := [byOs[0]] + AddVisits(byOs[1..], name, visits);
      assert r[0] == byOs[0] && r[1..] == AddVisits(byOs[1..], name, visits);
      AddVisitsLookup(byOs[1..], name, visits, x);
    }
  }

  lemma {:induction false} AddVisitsSum(byOs: seq<(string, int)>, name: string, visits: int)
    ensures SumValues(AddVisits(byOs, name, visits)) == SumValues(byOs) + visits
  {
    if byOs != [] && byOs[0].0 != name {
      AddVisitsSum(byOs[1..], name, visits);
    }
  }

  /**
   * A usable name that occurs among the records is summed over all its
   * records; any other name is absent.
   */
  lemma {:induction false} AggregateLookup(records: seq<DapRecord>, x: string)
    ensures Lookup(Aggregate(records), x) ==
      if Usable(x) && exists i :: 0 <= i < |records| && records[i].os == x then Some(VisitsOf(records, x)) else None
  {
    if records != [] {
      var init := records[..|records| - 1];
      var rec := records[|records| - 1];
      AggregateLookup(init, x);
      if forall i :: 0 <= i < |init| ==> init[i].os != x {
        VisitsOfAbsent(init, x);
      }
      if Usable(rec.os) {
        AddVisitsLookup(Aggregate(init), rec.os, rec.visits, x);
      }
      if exists i :: 0 <= i < |init| && init[i].os == x {
        var i :| 0 <= i < |init| && init[i].os == x;
        assert records[i].os == x;
      }
      if exists i :: 0 <= i < |records| && records[i].os == x {
        var i :| 0 <= i < |records| && records[i].os == x;
        if i < |init| {
          assert init[i].os == x;
        }
      }
    }
  }

  /** `sum(by_os.values())` is the visits of the usable records. */
  lemma {:induction false} AggregateTotal(records: seq<DapRecord>)
    ensures SumValues(Aggregate(records)) == UsableVisits(records)
  {
    if records != [] {
      var init := records[..|records| - 1];
      var rec := records[|records| - 1];
      AggregateTotal(init);
      if Usable(rec.os) {
        AddVisitsSum(Aggregate(init), rec.os, rec.visits);
      }
    }
  }

  /** The aggregation loop of `_fetch_one_month`. */
  method AggregateVisits(records: seq<DapRecord>) returns (byOs: seq<(string, int)>)
    ensures byOs == Aggregate(records)
    ensures SumValues(byOs) == UsableVisits(records)
  {
    byOs := [];
    for k := 0 to |records|
      invariant byOs == Aggregate(records[..k])
    {
      var rec := records[k];
      assert records[..k + 1][..k] == records[..k];
      if rec.os != "" && rec.os != "(not set)" {
        byOs := AddVisits(byOs, rec.os, rec.visits);
      }
    }
    assert records[..|records|] == records;
    AggregateTotal(records);
  }

  // ---------------------------------------------------------------------
  // Requests and replies
  // ---------------------------------------------------------------------

  datatype ApiVersion = V1_1 | V2

  /** A GET: the live `os.json`, or one month of the GSA API (`after`..`before`). */
  datatype DapRequest = LiveRequest | MonthRequest(version: ApiVersion, after: string, before: string)

  /** A decoded reply body: a list of records, the live `totals` object, or anything else. */
  datatype DapBody = RecordList(records: seq<DapRecord>) | Totals(byOs: seq<(string, int)>, totalUsers: int) | OtherBody

  type Network = (DapRequest, nat) -> Reply<DapBody>

  /** `f"{year}-{month:02d}"`: the year is not padded. */
  function DapMonthText(year: int, month: int): string {
    IntToString(year) + "-" + FormatInt(month, 2)
  }

  /** v2 from August 2023 on, v1.1 before: a comparison of (year, month) pairs. */
  function VersionFor(year: int, month: int): ApiVersion {
    if year > 2023 || (year == 2023 && month >= 8) then V2 else V1_1
  }

  function MonthRequestFor(year: int, month: int): DapRequest
    requires 1 <= month <= 12
  {
    MonthRequest(VersionFor(year, month), DapMonthText(year, month) + "-01",
      DapMonthText(year, month) + "-" + FormatInt(DaysInMonth(year, month), 2))
  }

  /** The tuple comparison picks v2 exactly for the months from August 2023 on. */
  lemma VersionByMonthIndex(year: int, month: int)
    requires 1 <= month <= 12
    ensures VersionFor(year, month) == V2 <==> MonthIndex(year, month) >= MonthIndex(2023, 8)
  {
  }

  /** For four-digit years the unpadded month text is the "YYYY-MM" the store uses. */
  lemma DapMonthTextOf(year: int, month: int)
    requires 1000 <= year && 1 <= month <= 12
    ensures DapMonthText(year, month) == FormatYm(year, month)
  {
    NatToStringLong(year, 3);
  }

  predicate IsStatus(r: Reply<DapBody>, status: int) {
    r.Response? && r.status == status
  }

  /** The requests of one month: the first, and a single retry after a 429. */
  function MonthLog(year: int, month: int, net: Network): seq<DapRequest>
    requires 1 <= month <= 12
  {
    var req := MonthRequestFor(year, month);
    if IsStatus(net(req, 0), 429) then [req, req] else [req]
  }

  /** The reply `_fetch_one_month` goes on with. */
  function FinalReply(year: int, month: int, net: Network): Reply<DapBody>
    requires 1 <= month <= 12
  {
    var req := MonthRequestFor(year, month);
    if IsStatus(net(req, 0), 429) then net(req, 1) else net(req, 0)
  }

  /** One point from a parsed dictionary, through `format_data`. */
  function OsPoint(date: string, d: OsData): Point {
    FormatItem(SourceName, RawPoint(Some(date), Some(d.linux), Some(d.windows), Some(d.mac), Some(d.chromeos), Some(d.other), Some(d.details)), date)
  }

  /** The points of one month's records: none unless some usable visits were counted and the parse succeeds. */
  function RecordsPoints(records: seq<DapRecord>, date: string): seq<Point> {
    if records == [] then []
    else
      var byOs := Aggregate(records);
      var total := SumValues(byOs);
      if total == 0 then []
      else match DapShares(byOs, total)
        case None => []
        case Some(d) => [OsPoint(date, d)]
  }

  /** `_fetch_one_month` as a value. */
  function MonthPoints(year: int, month: int, net: Network): seq<Point>
    requires 1 <= month <= 12
  {
    match FinalReply(year, month, net)
    case Response(status, RecordList(records)) =>
      if status == 200 then RecordsPoints(records, DapMonthText(year, month) + "-01") else []
    case _ => []
  }

  /**
   * A 429 is retried exactly once; every request of the month is that
   * month's, on the API version its date calls for, from the 1st to the
   * month's last day.
   */
  lemma MonthLogShape(year: int, month: int, net: Network)
    requires 1 <= month <= 12
    ensures var log := MonthLog(year, month, net);
      && 1 <= |log| <= 2
      && (|log| == 2 <==> IsStatus(net(MonthRequestFor(year, month), 0), 429))
      && (forall r :: r in log ==> r == MonthRequestFor(year, month))
      && (forall r :: r in log ==>
            && r.after == DapMonthText(year, month) + "-01"
            && r.before == DapMonthText(year, month) + "-" + FormatInt(DaysInMonth(year, month), 2)
            && (r.version == V2 <==> MonthIndex(year, month) >= MonthIndex(2023, 8)))
  {
  }

  /**
   * A month gives at most one point, dated the 1st of the month and from
   * "DAP", and only when the final reply is a 200 carrying a list of records.
   */
  lemma MonthPointsShape(year: int, month: int, net: Network)
    requires 1 <= month <= 12
    ensures var ps := MonthPoints(year, month, net);
      && |ps| <= 1
      && (forall p :: p in ps ==> p.source == Some(SourceName) && p.date == Some(DapMonthText(year, month) + "-01"))
      && (ps != [] ==> IsStatus(FinalReply(year, month, net), 200) && FinalReply(year, month, net).body.RecordList?)
  {
  }

  /** A month whose records count no usable visit gives no point. */
  lemma NoUsableVisitsNoPoint(records: seq<DapRecord>, date: string)
    requires UsableVisits(records) == 0
    ensures RecordsPoints(records, date) == []
  {
    AggregateTotal(records);
  }

  /** `_fetch_one_month`: at most two GETs, then aggregation and parsing. */
  method FetchOneMonth(year: int, month: int, net: Network) returns (points: seq<Point>, log: seq<DapRequest>)
    requires 1 <= month <= 12
    ensures points == MonthPoints(year, month, net)
    ensures log == MonthLog(year, month, net)
  {
    var req := MonthRequestFor(year, month);
    var dateText := DapMonthText(year, month) + "-01";
    var resp := net(req, 0);
    log := [req];
    if resp.Response? && resp.status == 429 {
      resp := net(req, 1);
      log := log + [req];
    }
    points := [];
    if resp.ConnectionError? || resp.status != 200 || !resp.body.RecordList? {
      return;
    }
    var records := resp.body.records;
    if records == [] {
      return;
    }
    var byOs := AggregateVisits(records);
    var total := SumValues(byOs);
    if total == 0 {
      return;
    }
    var osData := ParseDapData(byOs, total);
    if osData.Some? {
      points := [OsPoint(dateText, osData.value)];
    }
  }

  // ---------------------------------------------------------------------
  // _fetch_historical
  // ---------------------------------------------------------------------

  /** `_month_file_exists`: `data/dap/<year>-<MM>.json` exists and holds more than 20 bytes. */
  predicate MonthStored(listing: Listing, year: int, month: int) {
    var name := DapMonthText(year, month) + ".json";
    name in listing && listing[name] > 20
  }

  /** What month `i` of the walk yields: nothing when it is stored, else `_fetch_one_month`'s points. */
  function MonthPointsAt(listing: Listing, net: Network): int -> seq<Point> {
    i => if MonthStored(listing, YearOf(i), MonthOf(i)) then [] else MonthPoints(YearOf(i), MonthOf(i), net)
  }

  /** The requests month `i` of the walk makes. */
  function MonthLogAt(listing: Listing, net: Network): int -> seq<DapRequest> {
    i => if MonthStored(listing, YearOf(i), MonthOf(i)) then [] else MonthLog(YearOf(i), MonthOf(i), net)
  }

  /** The points of the `n` months from month index `lo` on, skipping stored months. */
  function BackfillPoints(lo: int, n: nat, listing: Listing, net: Network): seq<Point> {
    Walk(lo, n, MonthPointsAt(listing, net))
  }

  /** The requests of the same walk. */
  function BackfillLog(lo: int, n: nat, listing: Listing, net: Network): seq<DapRequest> {
    Walk(lo, n, MonthLogAt(listing, net))
  }

  /**
   * `_fetch_historical` as a value: `ValueError` when a date does not parse,
   * or after December 9999 is fetched, when the month cannot advance.
   */
  function Historical(start: string, end: string, listing: Listing, net: Network): Outcome<seq<Point>> {
    match (StrptimeYmd(start), StrptimeYmd(end))
    case (Some(s), Some(e)) => HistoricalRange(s, e, listing, net)
    case _ => Raised(ValueError)
  }

  /** The walk between two parsed dates. */
  function HistoricalRange(s: Date, e: Date, listing: Listing, net: Network): Outcome<seq<Point>> {
    var n := MonthCount(s, e);
    if n > 0 && MonthIndex(e.year, e.month) == MonthIndex(9999, 12) then Raised(ValueError)
    else Returned(BackfillPoints(MonthIndex(s.year, s.month), n, listing, net))
  }

  function HistoricalLog(start: string, end: string, listing: Listing, net: Network): seq<DapRequest> {
    match (StrptimeYmd(start), StrptimeYmd(end))
    case (Some(s), Some(e)) => BackfillLog(MonthIndex(s.year, s.month), MonthCount(s, e), listing, net)
    case _ => []
  }

  /** Month `i` is not stored and `r` is its request. */
  predicate RequestedAt(listing: Listing, i: int, r: DapRequest) {
    !MonthStored(listing, YearOf(i), MonthOf(i)) && r == MonthRequestFor(YearOf(i), MonthOf(i))
  }

  lemma MonthLogMembers(year: int, month: int, net: Network, r: DapRequest)
    requires 1 <= month <= 12
    ensures r in MonthLog(year, month, net) <==> r == MonthRequestFor(year, month)
  {
  }

  /**
   * Every request of the walk is for a month of the range that is not
   * stored, and every such month is requested.
   */
  lemma BackfillRequests(lo: int, n: nat, listing: Listing, net: Network, r: DapRequest)
    ensures r in BackfillLog(lo, n, listing, net) <==> exists i :: lo <= i < lo + n && RequestedAt(listing, i, r)
  {
    var f := MonthLogAt(listing, net);
    WalkContents(lo, n, f, r);
    forall i ensures r in f(i) <==> RequestedAt(listing, i, r) {
      MonthLogMembers(YearOf(i), MonthOf(i), net, r);
    }
  }

  /** Each month adds at most one point, each from an unstored month of the range and dated its 1st. */
  lemma BackfillPointsShape(lo: int, n: nat, listing: Listing, net: Network, p: Point)
    ensures |BackfillPoints(lo, n, listing, net)| <= n
    ensures p in BackfillPoints(lo, n, listing, net) ==>
      exists i :: lo <= i < lo + n && !MonthStored(listing, YearOf(i), MonthOf(i)) && p.date == Some(DapMonthText(YearOf(i), MonthOf(i)) + "-01")
  {
    var f := MonthPointsAt(listing, net);
    forall i | lo <= i < lo + n ensures |f(i)| <= 1 {
      MonthPointsShape(YearOf(i), MonthOf(i), net);
    }
    WalkLength(lo, n, f, 1);
    WalkContents(lo, n, f, p);
    if p in BackfillPoints(lo, n, listing, net) {
      var i :| lo <= i < lo + n && p in f(i);
      MonthPointsShape(YearOf(i), MonthOf(i), net);
    }
  }

  /** Stored months cost no request: with every month stored, nothing is fetched. */
  lemma AllStoredNoRequests(lo: int, n: nat, listing: Listing, net: Network)
    requires forall i :: lo <= i < lo + n ==> MonthStored(listing, YearOf(i), MonthOf(i))
    ensures BackfillLog(lo, n, listing, net) == [] && BackfillPoints(lo, n, listing, net) == []
  {
    WalkLength(lo, n, MonthLogAt(listing, net), 0);
    WalkLength(lo, n, MonthPointsAt(listing, net), 0);
  }

  lemma BackfillPointsStep(lo: int, k: nat, year: int, month: int, listing: Listing, net: Network)
    requires 1 <= month <= 12 && MonthIndex(year, month) == lo + k
    ensures BackfillPoints(lo, k + 1, listing, net) ==
      BackfillPoints(lo, k, listing, net) + (if MonthStored(listing, year, month) then [] else MonthPoints(year, month, net))
  {
    var f := MonthPointsAt(listing, net);
    calc {
      BackfillPoints(lo, k + 1, listing, net);
      Walk(lo, k + 1, f);
      Walk(lo, k, f) + f(lo + k);
      { MonthPointsAtIndex(listing, net, year, month); }
      BackfillPoints(lo, k, listing, net) + (if MonthStored(listing, year, month) then [] else MonthPoints(year, month, net));
    }
  }

  lemma MonthPointsAtIndex(listing: Listing, net: Network, year: int, month: int)
    requires 1 <= month <= 12
    ensures MonthPointsAt(listing, net)(MonthIndex(year, month)) ==
      if MonthStored(listing, year, month) then [] else MonthPoints(year, month, net)
  {
    MonthIndexOf(year, month);
  }

  lemma BackfillLogStep(lo: int, k: nat, year: int, month: int, listing: Listing, net: Network)
    requires 1 <= month <= 12 && MonthIndex(year, month) == lo + k
    ensures BackfillLog(lo, k + 1, listing, net) ==
      BackfillLog(lo, k, listing, net) + (if MonthStored(listing, year, month) then [] else MonthLog(year, month, net))
  {
    var f := MonthLogAt(listing, net);
    calc {
      BackfillLog(lo, k + 1, listing, net);
      Walk(lo, k + 1, f);
      Walk(lo, k, f) + f(lo + k);
      { MonthLogAtIndex(listing, net, year, month); }
      BackfillLog(lo, k, listing, net) + (if MonthStored(listing, year, month) then [] else MonthLog(year, month, net));
    }
  }

  lemma MonthLogAtIndex(listing: Listing, net: Network, year: int, month: int)
    requires 1 <= month <= 12
    ensures MonthLogAt(listing, net)(MonthIndex(year, month)) ==
      if MonthStored(listing, year, month) then [] else MonthLog(year, month, net)
  {
    MonthIndexOf(year, month);
  }

  /** Only December 9999 has no next month among the months up to it. */
  lemma BeforeLastMonth(year: int, month: int)
    requires 1 <= month <= 12 && MonthIndex(year, month) <= MonthIndex(9999, 12)
    requires !(month == 12 && year + 1 > 9999)
    ensures MonthIndex(year, month) < MonthIndex(9999, 12)
  {
  }

  /** `_fetch_historical`: the month loop, with the request log. */
  method FetchHistorical(start: string, end: string, listing: Listing, net: Network)
    returns (r: Outcome<seq<Point>>, log: seq<DapRequest>)
    ensures r == Historical(start, end, listing, net)
    ensures log == HistoricalLog(start, end, listing, net)
  {
    var s := StrptimeYmd(start);
    var e := StrptimeYmd(end);
    if s.None? || e.None? {
      return Raised(ValueError), [];
    }
    var lo := MonthIndex(s.value.year, s.value.month);
    var hi := MonthIndex(e.value.year, e.value.month);
    ghost var n := MonthCount(s.value, e.value);
    var results := [];
    log := [];
    var year, month := s.value.year, s.value.month;
    ghost var k: nat := 0;
    assert hi <= MonthIndex(9999, 12);
    while MonthIndex(year, month) <= hi
      invariant 1 <= month <= 12
      invariant MonthIndex(year, month) == lo + k
      invariant k <= n
      invariant k > 0 ==> lo + k - 1 < MonthIndex(9999, 12)
      invariant results == BackfillPoints(lo, k, listing, net)
      invariant log == BackfillLog(lo, k, listing, net)
      decreases hi - MonthIndex(year, month)
    {
      BackfillPointsStep(lo, k, year, month, listing, net);
      BackfillLogStep(lo, k, year, month, listing, net);
      if !MonthStored(listing, year, month) {
        var points, requests := FetchOneMonth(year, month, net);
        results := results + points;
        log := log + requests;
      }
      k := k + 1;
      if month == 12 && year + 1 > 9999 {
        assert k == n;
        assert HistoricalRange(s.value, e.value, listing, net) == Raised(ValueError);
        return Raised(ValueError), log;
      }
      BeforeLastMonth(year, month);
      year, month := if month == 12 then year + 1 else year, if month == 12 then 1 else month + 1;
    }
    assert k == n;
    assert HistoricalRange(s.value, e.value, listing, net) == Returned(results);
    r := Returned(results);
  }

  // ---------------------------------------------------------------------
  // _fetch_current and fetch_data
  // ---------------------------------------------------------------------

  /** `_fetch_current` as a value: a 200 carrying the `totals` object yields this month's point. */
  function CurrentPoints(reply: Reply<DapBody>, now: Date): seq<Point> {
    if reply.ConnectionError? || reply.status != 200 || !reply.body.Totals? then []
    else match DapShares(reply.body.byOs, reply.body.totalUsers)
      case None => []
      case Some(d) => [OsPoint(FirstOfMonth(now.year, now.month), d)]
  }

  /** The live endpoint gives at most one point, dated the first of the current month. */
  lemma CurrentPointsShape(reply: Reply<DapBody>, now: Date)
    ensures |CurrentPoints(reply, now)| <= 1
    ensures forall p :: p in CurrentPoints(reply, now) ==> p.date == Some(FirstOfMonth(now.year, now.month))
    ensures !IsStatus(reply, 200) ==> CurrentPoints(reply, now) == []
  {
  }

  /** `_fetch_current`: one GET of the live endpoint. */
  method FetchCurrent(net: Network, now: Date) returns (points: seq<Point>, log: seq<DapRequest>)
    ensures points == CurrentPoints(net(LiveRequest, 0), now)
    ensures log == [LiveRequest]
  {
    log := [LiveRequest];
    points := [];
    var resp := net(LiveRequest, 0);
    if resp.Response? && resp.status == 200 && resp.body.Totals? {
      var osData := ParseDapData(resp.body.byOs, resp.body.totalUsers);
      if osData.Some? {
        points := [OsPoint(FirstOfMonth(now.year, now.month), osData.value)];
      }
    }
  }

  /**
   * `fetch_data`: the month-by-month history when both dates are given
   * (non-empty), otherwise the live endpoint.
   */
  method FetchData(start: Option<string>, end: Option<string>, listing: Listing, net: Network, now: Date)
    returns (r: Outcome<seq<Point>>, log: seq<DapRequest>)
    ensures Given(start) && Given(end) ==>
      r == Historical(start.value, end.value, listing, net) && log == HistoricalLog(start.value, end.value, listing, net)
    ensures !(Given(start) && Given(end)) ==> r == Returned(CurrentPoints(net(LiveRequest, 0), now)) && log == [LiveRequest]
  {
    if Given(start) && Given(end) {
      r, log := FetchHistorical(start.value, end.value, listing, net);
    } else {
      var points;
      points, log := FetchCurrent(net, now);
      r := Returned(points);
    }
  }
}
