/**
 * `StackOverflowAdapter`: one point per year from the Stack Overflow
 * Developer Survey.  Each year's ZIP is downloaded (with retries on 429),
 * the results CSV is picked out of it, and the respondents whose
 * operating-system answer mentions a Linux, Windows or macOS keyword are
 * counted.  The ZIP container and the CSV tokenizer are abstracted: a
 * reply body is the list of archive members, each with its CSV already
 * split into field names and rows.
 */
module StackOverflow {
  import opened Wrappers
  import opened Text
  import opened Numbers
  import opened Calendar
  import opened Points
  import opened Lists
  import opened BaseAdapter

  const SourceName := "StackOverflow"
  const FirstYear := 2017

  /** The OS column of each survey era: 2021 on, 2020, 2017 to 2019. */
  const ColPersonal := "OpSysPersonal use"
  const ColOpSys := "OpSys"
  const ColOld := "OperatingSystem"

  const LinuxKeywords: seq<string> :=
    ["linux", "ubuntu", "debian", "fedora", "arch", "centos", "red hat", "suse", "mint", "manjaro",
     "elementary", "pop!_os", "kali"]
  const WindowsKeywords: seq<string> := ["windows"]
  const MacKeywords: seq<string> := ["macos", "mac os", "os x"]

  /** Seconds slept before the second, third and fourth attempt. */
  const Delays: seq<int> := [10, 30, 60]

  /** Retries after a 429, one per delay. */
  const Retries: nat := 3

  // ---------------------------------------------------------------------
  // The survey archive
  // ---------------------------------------------------------------------

  /** A CSV as `csv.DictReader` reads it, or one whose reading raises `csv.Error`. */
  datatype CsvText = Table(fieldnames: seq<string>, rows: seq<map<string, string>>) | Unreadable

  datatype ZipMember = ZipMember(name: string, csv: CsvText)

  /** A downloaded body: the members of a ZIP archive in `namelist()` order, or bytes that are not one. */
  datatype ZipBody = Archive(members: seq<ZipMember>) | NotAZip

  /** The GET of one survey year's archive. */
  datatype ZipRequest = ZipRequest(year: int) {
    function Url(): string {
      "https://survey.stackoverflow.co/datasets/stack-overflow-developer-survey-" + IntToString(year) + ".zip"
    }
  }

  /** The reply to a request on a numbered attempt (0 to 3). */
  type Network = (ZipRequest, nat) -> Reply<ZipBody>

  /** A member that can hold the results: a `.csv` whose name mentions neither "schema" nor "readme". */
  predicate IsSurveyCsv(name: string) {
    EndsWith(name, ".csv") && !Contains(Lower(name), "schema") && !Contains(Lower(name), "readme")
  }

  function Names(members: seq<ZipMember>): seq<string> {
    seq(|members|, i requires 0 <= i < |members| => members[i].name)
  }

  /** The survey CSV candidates, in archive order. */
  function CsvNames(names: seq<string>): seq<string> {
    if names == [] then []
    else
      var rest := CsvNames(names[..|names| - 1]);
      var last := names[|names| - 1];
      if IsSurveyCsv(last) then rest + [last] else rest
  }

  /** The candidates are exactly the survey CSVs of the archive. */
  lemma {:induction false} CsvNamesMembers(names: seq<string>)
    ensures forall n :: n in CsvNames(names) <==> n in names && IsSurveyCsv(n)
  {
    if names != [] {
      var init, last := names[..|names| - 1], names[|names| - 1];
      CsvNamesMembers(init);
      assert names == init + [last];
    }
  }

  /** The first name mentioning "result", if any. */
  function FirstResult(names: seq<string>): Option<string> {
    if names == [] then None
    else if Contains(Lower(names[0]), "result") then Some(names[0])
    else FirstResult(names[1..])
  }

  lemma {:induction false} FirstResultShape(names: seq<string>)
    ensures FirstResult(names).Some? ==> FirstResult(names).value in names && Contains(Lower(FirstResult(names).value), "result")
    ensures FirstResult(names).None? <==> forall n :: n in names ==> !Contains(Lower(n), "result")
  {
    if names != [] && !Contains(Lower(names[0]), "result") {
      FirstResultShape(names[1..]);
      assert forall n :: n in names ==> n == names[0] || n in names[1..];
    }
  }

  /** The member `_parse_zip` reads: the first "result" candidate, else the first candidate; none without candidates. */
  function ChooseCsv(names: seq<string>): Option<string> {
    var candidates := CsvNames(names);
    if candidates == [] then None
    else match FirstResult(candidates)
      case Some(n) => Some(n)
      case None => Some(candidates[0])
  }

  /**
   * The choice is a survey CSV of the archive; a candidate naming results
   * wins over the others; no candidate means no choice.
   */
  lemma ChooseCsvShape(names: seq<string>)
    ensures ChooseCsv(names).Some? ==> ChooseCsv(names).value in names && IsSurveyCsv(ChooseCsv(names).value)
    ensures ChooseCsv(names).None? <==> forall n :: n in names ==> !IsSurveyCsv(n)
    ensures (exists n :: n in names && IsSurveyCsv(n) && Contains(Lower(n), "result")) ==>
      ChooseCsv(names).Some? && Contains(Lower(ChooseCsv(names).value), "result")
  {
    var candidates := CsvNames(names);
    CsvNamesMembers(names);
    FirstResultShape(candidates);
    if candidates != [] {
      assert candidates[0] in candidates;
    }
    if exists n :: n in names && IsSurveyCsv(n) && Contains(Lower(n), "result") {
      var n :| n in names && IsSurveyCsv(n) && Contains(Lower(n), "result");
      assert n in candidates;
    }
  }

  /** `zf.open(name)`: the last member carrying that name. */
  function LastNamed(members: seq<ZipMember>, name: string): ZipMember
    requires name in Names(members)
  {
    var last := members[|members| - 1];
    if last.name == name then last
    else
      assert Names(members) == Names(members[..|members| - 1]) + [last.name];
      LastNamed(members[..|members| - 1], name)
  }

  /** Member `i` carries the name, and no later member does. */
  predicate LastWithName(members: seq<ZipMember>, i: int, name: string) {
    0 <= i < |members| && members[i].name == name && forall j :: i < j < |members| ==> members[j].name != name
  }

  /** The member opened is the last one carrying the name. */
  lemma {:induction false} LastNamedShape(members: seq<ZipMember>, name: string)
    requires name in Names(members)
    ensures exists i :: LastWithName(members, i, name) && LastNamed(members, name) == members[i]
  {
    var last := members[|members| - 1];
    if last.name == name {
      assert LastWithName(members, |members| - 1, name);
    } else {
      var init := members[..|members| - 1];
      assert Names(members) == Names(init) + [last.name];
      LastNamedShape(init, name);
      var i :| LastWithName(init, i, name) && LastNamed(init, name) == init[i];
      assert members[i] == init[i];
      forall j | i < j < |init| ensures members[j].name != name {
        assert members[j] == init[j];
      }
      forall j | |init| <= j < |members| ensures members[j].name != name {
        assert j == |members| - 1;
      }
      assert LastWithName(members, i, name);
    }
  }

  // ---------------------------------------------------------------------
  // _detect_column and _parse_csv
  // ---------------------------------------------------------------------

  /** A header the fuzzy fallback accepts: "operating", or "os" with "personal" or "use". */
  predicate IsOsHeader(h: string) {
    var hl := Lower(h);
    Contains(hl, "operating") || (Contains(hl, "os") && (Contains(hl, "personal") || Contains(hl, "use")))
  }

  function FirstOsHeader(headers: seq<string>): Option<string> {
    if headers == [] then None
    else if IsOsHeader(headers[0]) then Some(headers[0])
    else FirstOsHeader(headers[1..])
  }

  lemma {:induction false} FirstOsHeaderShape(headers: seq<string>)
    ensures FirstOsHeader(headers).Some? ==> FirstOsHeader(headers).value in headers && IsOsHeader(FirstOsHeader(headers).value)
    ensures FirstOsHeader(headers).None? <==> forall h :: h in headers ==> !IsOsHeader(h)
  {
    if headers != [] && !IsOsHeader(headers[0]) {
      FirstOsHeaderShape(headers[1..]);
      assert forall h :: h in headers ==> h == headers[0] || h in headers[1..];
    }
  }

  /**
   * `_detect_column`: the era's column names in order of preference, then
   * the first header that looks like an OS question.
   */
  function DetectColumn(headers: seq<string>): Option<string> {
    if ColPersonal in headers then Some(ColPersonal)
    else if ColOpSys in headers then Some(ColOpSys)
    else if ColOld in headers then Some(ColOld)
    else FirstOsHeader(headers)
  }

  /**
   * The column found is a header; the newest era's name wins, then the
   * older ones; none is found only when no header names or looks like an
   * OS question.
   */
  lemma DetectColumnShape(headers: seq<string>)
    ensures DetectColumn(headers).Some? ==> DetectColumn(headers).value in headers
    ensures ColPersonal in headers ==> DetectColumn(headers) == Some(ColPersonal)
    ensures ColPersonal !in headers && ColOpSys in headers ==> DetectColumn(headers) == Some(ColOpSys)
    ensures ColPersonal !in headers && ColOpSys !in headers && ColOld in headers ==> DetectColumn(headers) == Some(ColOld)
    ensures DetectColumn(headers).None? <==>
      ColPersonal !in headers && ColOpSys !in headers && ColOld !in headers && forall h :: h in headers ==> !IsOsHeader(h)
  {
    FirstOsHeaderShape(headers);
  }

  /** `(row.get(col) or "").strip()`: a short row has no value for the column. */
  function RowValue(row: map<string, string>, col: string): string {
    Strip(if col in row then row[col] else "")
  }

  /** The non-blank `;`-separated choices of an answer, stripped and lower-cased. */
  function Choices(parts: seq<string>): seq<string> {
    if parts == [] then []
    else
      var rest := Choices(parts[..|parts| - 1]);
      var p := parts[|parts| - 1];
      if Strip(p) != "" then rest + [Lower(Strip(p))] else rest
  }

  /** Some choice contains some keyword. */
  predicate Mentions(choices: seq<string>, keywords: seq<string>) {
    choices != [] && (ContainsAny(choices[0], keywords) || Mentions(choices[1..], keywords))
  }

  /** Respondent counts: with a Linux, a Windows and a macOS choice, and in all. */
  datatype Counts = Counts(linux: nat, windows: nat, mac: nat, total: nat)

  /** One answer counted: a blank answer is skipped, any other is one respondent. */
  function CountAnswer(c: Counts, val: string): Counts {
    if val == "" then c
    else
      var choices := Choices(Split(val, ';'));
      Counts(c.linux + (if Mentions(choices, LinuxKeywords) then 1 else 0),
             c.windows + (if Mentions(choices, WindowsKeywords) then 1 else 0),
             c.mac + (if Mentions(choices, MacKeywords) then 1 else 0),
             c.total + 1)
  }

  /** The counts over the rows, in order. */
  function CountRows(rows: seq<map<string, string>>, col: string): Counts {
    if rows == [] then Counts(0, 0, 0, 0)
    else CountAnswer(CountRows(rows[..|rows| - 1], col), RowValue(rows[|rows| - 1], col))
  }

  /** Rows with a non-blank answer to the column. */
  function Answered(rows: seq<map<string, string>>, col: string): nat {
    if rows == [] then 0
    else Answered(rows[..|rows| - 1], col) + (if RowValue(rows[|rows| - 1], col) == "" then 0 else 1)
  }

  /** Every respondent is counted once in all, and at most once per system. */
  lemma {:induction false} CountsBounded(rows: seq<map<string, string>>, col: string)
    ensures var c := CountRows(rows, col);
      c.total == Answered(rows, col) && c.linux <= c.total && c.windows <= c.total && c.mac <= c.total
  {
    if rows != [] {
      CountsBounded(rows[..|rows| - 1], col);
    }
  }

  /** The row answers the column, and one of its choices names a system of the family. */
  predicate MentionsIn(row: map<string, string>, col: string, keywords: seq<string>) {
    RowValue(row, col) != "" && Mentions(Choices(Split(RowValue(row, col), ';')), keywords)
  }

  /** For each row, whether it mentions a system of the family. */
  function MentionMarks(rows: seq<map<string, string>>, col: string, keywords: seq<string>): (m: seq<bool>)
    ensures |m| == |rows| && forall i :: 0 <= i < |rows| ==> m[i] == MentionsIn(rows[i], col, keywords)
  {
    seq(|rows|, i requires 0 <= i < |rows| => MentionsIn(rows[i], col, keywords))
  }

  /** The positions of the respondents who mention a system of the family. */
  function Respondents(rows: seq<map<string, string>>, col: string, keywords: seq<string>): (r: set<nat>)
    ensures forall i: nat :: i in r <==> i < |rows| && MentionsIn(rows[i], col, keywords)
  {
    Positions(MentionMarks(rows, col, keywords))
  }

  /** The last row joins the respondents exactly when it mentions the family. */
  lemma RespondentsStep(rows: seq<map<string, string>>, col: string, keywords: seq<string>)
    requires rows != []
    ensures var n := |rows| - 1;
      |Respondents(rows, col, keywords)| ==
        |Respondents(rows[..n], col, keywords)| + (if MentionsIn(rows[n], col, keywords) then 1 else 0)
  {
    MentionMarksPrefix(rows, |rows| - 1, col, keywords);
    PositionsStep(MentionMarks(rows, col, keywords));
  }

  lemma MentionMarksPrefix(rows: seq<map<string, string>>, n: nat, col: string, keywords: seq<string>)
    requires n <= |rows|
    ensures MentionMarks(rows[..n], col, keywords) == MentionMarks(rows, col, keywords)[..n]
  {
    var a, b := MentionMarks(rows[..n], col, keywords), MentionMarks(rows, col, keywords)[..n];
    forall i | 0 <= i < n ensures a[i] == b[i] {
      assert rows[..n][i] == rows[i];
    }
  }

  /** Each system's count is the number of respondents who mention it. */
  lemma {:induction false} CountsAreRespondents(rows: seq<map<string, string>>, col: string)
    ensures var c := CountRows(rows, col);
      && c.linux == |Respondents(rows, col, LinuxKeywords)|
      && c.windows == |Respondents(rows, col, WindowsKeywords)|
      && c.mac == |Respondents(rows, col, MacKeywords)|
  {
    if rows == [] {
      assert Respondents(rows, col, LinuxKeywords) == {};
      assert Respondents(rows, col, WindowsKeywords) == {};
      assert Respondents(rows, col, MacKeywords) == {};
    } else {
      CountsAreRespondents(rows[..|rows| - 1], col);
      RespondentsStep(rows, col, LinuxKeywords);
      RespondentsStep(rows, col, WindowsKeywords);
      RespondentsStep(rows, col, MacKeywords);
    }
  }

  /** Surveys publish around June: a year's point is dated June 1. */
  function SurveyMonth(year: int): string {
    FormatInt(year, 4) + "-06"
  }

  function SurveyDate(year: int): string {
    SurveyMonth(year) + "-01"
  }

  /** The point of a year's counts: three shares, what is left as other, and the respondent count. */
  function SurveyPoint(year: int, c: Counts): RawPoint
    requires c.total > 0
  {
    var linux := Percent(c.linux, c.total);
    var windows := Percent(c.windows, c.total);
    var mac := Percent(c.mac, c.total);
    var other := Max(0, 10000 - linux - windows - mac);
    RawPoint(Some(SurveyDate(year)), Some(linux), Some(windows), Some(mac), None, Some(other),
      Some(map["Linux" := Num(linux), "Windows" := Num(windows), "macOS" := Num(mac), "Other" := Num(other),
               "total_respondents" := Count(c.total)]))
  }

  /** `_parse_csv` as a value. */
  function SurveyShares(fieldnames: seq<string>, rows: seq<map<string, string>>, year: int): Option<RawPoint> {
    match DetectColumn(fieldnames)
    case None => None
    case Some(col) =>
      var c := CountRows(rows, col);
      if c.total == 0 then None else Some(SurveyPoint(year, c))
  }

  /**
   * A point needs an OS column and at least one answer in it; its shares
   * lie between 0 and 100%, other is what the three leave (never
   * negative), and it is dated June 1 of the survey year.
   */
  lemma SurveySharesShape(fieldnames: seq<string>, rows: seq<map<string, string>>, year: int)
    ensures var r := SurveyShares(fieldnames, rows, year);
      && (r.Some? <==> DetectColumn(fieldnames).Some? && Answered(rows, DetectColumn(fieldnames).value) > 0)
      && (r.Some? ==>
            && r.value.date == Some(SurveyDate(year))
            && 0 <= r.value.linux.value <= 10000 && 0 <= r.value.windows.value <= 10000 && 0 <= r.value.mac.value <= 10000
            && r.value.other.value >= 0
            && (r.value.linux.value + r.value.windows.value + r.value.mac.value <= 10000 ==>
                  r.value.linux.value + r.value.windows.value + r.value.mac.value + r.value.other.value == 10000)
            && (r.value.linux.value + r.value.windows.value + r.value.mac.value > 10000 ==> r.value.other.value == 0)
            && r.value.details.value["total_respondents"] == Count(Answered(rows, DetectColumn(fieldnames).value)))
  {
    if DetectColumn(fieldnames).Some? {
      var col := DetectColumn(fieldnames).value;
      var c := CountRows(rows, col);
      CountsBounded(rows, col);
      if c.total > 0 {
        PercentBounds(c.linux, c.total);
        PercentBounds(c.windows, c.total);
        PercentBounds(c.mac, c.total);
      }
    }
  }

  /**
   * The Linux, Windows and macOS shares are the respondents who mention
   * that system, as a part of all who answered.
   */
  lemma SurveySharesValues(fieldnames: seq<string>, rows: seq<map<string, string>>, year: int)
    requires SurveyShares(fieldnames, rows, year).Some?
    ensures var r := SurveyShares(fieldnames, rows, year).value;
      var col := DetectColumn(fieldnames).value;
      var answered := Answered(rows, col);
      && answered > 0
      && r.linux == Some(Percent(|Respondents(rows, col, LinuxKeywords)|, answered))
      && r.windows == Some(Percent(|Respondents(rows, col, WindowsKeywords)|, answered))
      && r.mac == Some(Percent(|Respondents(rows, col, MacKeywords)|, answered))
  {
    var col := DetectColumn(fieldnames).value;
    CountsBounded(rows, col);
    CountsAreRespondents(rows, col);
  }

  lemma CountStep(rows: seq<map<string, string>>, k: nat, col: string)
    requires k < |rows|
    ensures CountRows(rows[..k + 1], col) == CountAnswer(CountRows(rows[..k], col), RowValue(rows[k], col))
  {
    assert rows[..k + 1][..k] == rows[..k];
  }

  /** One row of the counting loop of `_parse_csv`: a blank answer is skipped. */
  method CountOne(linux: nat, windows: nat, mac: nat, total: nat, val: string)
    returns (linux': nat, windows': nat, mac': nat, total': nat)
    ensures Counts(linux', windows', mac', total') == CountAnswer(Counts(linux, windows, mac, total), val)
  {
    linux', windows', mac', total' := linux, windows, mac, total;
    if val != "" {
      total' := total' + 1;
      var choices := Choices(Split(val, ';'));
      if Mentions(choices, LinuxKeywords) {
        linux' := linux' + 1;
      }
      if Mentions(choices, WindowsKeywords) {
        windows' := windows' + 1;
      }
      if Mentions(choices, MacKeywords) {
        mac' := mac' + 1;
      }
    }
  }

  /** `_parse_csv`: detects the column, then counts row by row. */
  method ParseCsv(fieldnames: seq<string>, rows: seq<map<string, string>>, year: int) returns (r: Option<RawPoint>)
    ensures r == SurveyShares(fieldnames, rows, year)
  {
    var col := DetectColumn(fieldnames);
    if col.None? {
      return None;
    }
    var linux: nat, windows: nat, mac: nat, total: nat := 0, 0, 0, 0;
    for k := 0 to |rows|
      invariant Counts(linux, windows, mac, total) == CountRows(rows[..k], col.value)
    {
      CountStep(rows, k, col.value);
      linux, windows, mac, total := CountOne(linux, windows, mac, total, RowValue(rows[k], col.value));
    }
    assert rows[..|rows|] == rows;
    if total == 0 {
      return None;
    }
    r := Some(SurveyPoint(year, Counts(linux, windows, mac, total)));
  }

  /** `_parse_zip` as a value: the chosen member's CSV parsed; a bad archive or CSV raises. */
  function ParseZip(body: ZipBody, year: int): Outcome<Option<RawPoint>> {
    match body
    case NotAZip => Raised(BadZipFile)
    case Archive(members) =>
      match ChooseCsv(Names(members))
      case None => Returned(None)
      case Some(name) =>
        ChooseCsvShape(Names(members));
        match LastNamed(members, name).csv
        case Unreadable => Raised(CsvError)
        case Table(fieldnames, rows) => Returned(SurveyShares(fieldnames, rows, year))
  }

  // ---------------------------------------------------------------------
  // _fetch_one_year
  // ---------------------------------------------------------------------

  predicate IsStatus(r: Reply<ZipBody>, status: int) {
    r.Response? && r.status == status
  }

  /** A parse that raises is caught and logged: no point. */
  function Caught(r: Outcome<Option<RawPoint>>): Option<RawPoint> {
    match r
    case Returned(p) => p
    case Raised(_) => None
  }

  /** The point of a final reply: a 200's archive parsed, nothing for any other status or an exception. */
  function ReplyPoint(reply: Reply<ZipBody>, year: int): Option<RawPoint> {
    if IsStatus(reply, 200) then Caught(ParseZip(reply.body, year)) else None
  }

  /** The reply the attempts from `attempt` on end with, and how many requests were made in all. */
  datatype Attempts = Attempts(last: Reply<ZipBody>, tries: nat)

  function TriesFrom(year: int, net: Network, attempt: nat): Attempts
    requires attempt <= Retries
    decreases Retries - attempt
  {
    var reply := net(ZipRequest(year), attempt);
    if IsStatus(reply, 429) && attempt < Retries then TriesFrom(year, net, attempt + 1)
    else Attempts(reply, attempt + 1)
  }

  /** The requests of `_fetch_one_year`. */
  function YearFetch(year: int, net: Network): Attempts {
    TriesFrom(year, net, 0)
  }

  /** `_fetch_one_year` as a value: the point of the reply the attempts end with. */
  function YearPoint(year: int, net: Network): Option<RawPoint> {
    ReplyPoint(YearFetch(year, net).last, year)
  }

  /**
   * From attempt `a` on: one to four requests in all; every attempt but
   * the last met a 429, and the last did not unless it was the fourth.
   */
  lemma {:induction false} TriesShape(year: int, net: Network, a: nat)
    requires a <= Retries
    decreases Retries - a
    ensures var r := TriesFrom(year, net, a);
      && a + 1 <= r.tries <= Retries + 1
      && r.last == net(ZipRequest(year), r.tries - 1)
      && (forall j :: a <= j < r.tries - 1 ==> IsStatus(net(ZipRequest(year), j), 429))
      && (r.tries <= Retries ==> !IsStatus(r.last, 429))
  {
    var reply := net(ZipRequest(year), a);
    if IsStatus(reply, 429) && a < Retries {
      TriesShape(year, net, a + 1);
      assert TriesFrom(year, net, a) == TriesFrom(year, net, a + 1);
    } else {
      assert TriesFrom(year, net, a) == Attempts(reply, a + 1);
    }
  }

  /** A point comes only from a 200, and is dated June 1 of the survey year. */
  lemma YearPointShape(year: int, net: Network)
    ensures YearPoint(year, net).Some? ==>
      && IsStatus(YearFetch(year, net).last, 200)
      && YearPoint(year, net).value.date == Some(SurveyDate(year))
  {
  }

  /** `n` copies of the same request. */
  function Repeat(r: ZipRequest, n: nat): (log: seq<ZipRequest>)
    ensures |log| == n && forall x :: x in log ==> x == r
  {
    seq(n, _ => r)
  }

  /**
   * `_fetch_one_year`: up to four GETs of the year's archive, sleeping the
   * next delay before each retry; a 429 is retried, anything else ends it.
   */
  method FetchOneYear(year: int, net: Network) returns (point: Option<RawPoint>, log: seq<ZipRequest>, waits: seq<int>)
    ensures point == YearPoint(year, net)
    ensures log == Repeat(ZipRequest(year), YearFetch(year, net).tries)
    ensures |log| >= 1 && waits == Delays[..|log| - 1]
  {
    var req := ZipRequest(year);
    log := [];
    waits := [];
    for attempt := 0 to Retries + 1
      invariant attempt <= Retries ==> YearFetch(year, net) == TriesFrom(year, net, attempt)
      invariant attempt == Retries + 1 ==> YearFetch(year, net).tries == Retries + 1 && IsStatus(YearFetch(year, net).last, 429)
      invariant log == Repeat(req, attempt)
      invariant waits == if attempt == 0 then [] else Delays[..attempt - 1]
    {
      if attempt > 0 {
        waits := waits + [Delays[attempt - 1]];
        assert Delays[..attempt] == Delays[..attempt - 1] + [Delays[attempt - 1]];
      }
      var resp := net(req, attempt);
      log := log + [req];
      if resp.ConnectionError? {
        return None, log, waits;
      }
      if resp.status == 429 {
        if attempt < Retries {
          continue;
        }
        return None, log, waits;
      }
      if resp.status != 200 {
        return None, log, waits;
      }
      point := ReplyPoint(resp, year);
      return;
    }
    point := None;
  }

  // ---------------------------------------------------------------------
  // fetch_data
  // ---------------------------------------------------------------------

  /** `data/stackoverflow/YYYY-06.json` exists (its size is not looked at). */
  predicate Stored(listing: Listing, year: int) {
    SurveyMonth(year) + ".json" in listing
  }

  /** `[y]` when year `y` is fetched and gives a point. */
  function Found(listing: Listing, net: Network, y: int): seq<int> {
    if !Stored(listing, y) && YearPoint(y, net).Some? then [y] else []
  }

  function FoundAt(listing: Listing, net: Network): int -> seq<int> {
    y => Found(listing, net, y)
  }

  /** The years from `lo` on, `n` of them, that give a point, in order. */
  function FoundYears(lo: int, n: nat, listing: Listing, net: Network): seq<int> {
    Walk(lo, n, FoundAt(listing, net))
  }

  /** What year `y` adds to the results. */
  function YearResult(listing: Listing, net: Network, today: string, y: int): seq<Point> {
    if Stored(listing, y) then []
    else match YearPoint(y, net)
      case Some(p) => [FormatItem(SourceName, p, today)]
      case None => []
  }

  function YearPoints(listing: Listing, net: Network, today: string): int -> seq<Point> {
    y => YearResult(listing, net, today, y)
  }

  function SurveyPoints(lo: int, n: nat, listing: Listing, net: Network, today: string): seq<Point> {
    Walk(lo, n, YearPoints(listing, net, today))
  }

  /** The requests year `y` makes. */
  function YearRequests(listing: Listing, net: Network, y: int): seq<ZipRequest> {
    if Stored(listing, y) then [] else Repeat(ZipRequest(y), YearFetch(y, net).tries)
  }

  function YearLog(listing: Listing, net: Network): int -> seq<ZipRequest> {
    y => YearRequests(listing, net, y)
  }

  function SurveyLog(lo: int, n: nat, listing: Listing, net: Network): seq<ZipRequest> {
    Walk(lo, n, YearLog(listing, net))
  }

  /** `fetch_data` as a value: the years from the later of `start` and 2017 up to `end`. */
  function Fetch(start: Option<string>, end: Option<string>, listing: Listing, net: Network, now: Date): Outcome<seq<Point>> {
    match (BoundYear(start, now), BoundYear(end, now))
    case (Some(first), Some(last)) =>
      var lo := Max(first, FirstYear);
      Returned(SurveyPoints(lo, YearSpan(lo, last), listing, net, FormatYmd(now)))
    case _ => Raised(ValueError)
  }

  function FetchLog(start: Option<string>, end: Option<string>, listing: Listing, net: Network, now: Date): seq<ZipRequest> {
    match (BoundYear(start, now), BoundYear(end, now))
    case (Some(first), Some(last)) =>
      var lo := Max(first, FirstYear);
      SurveyLog(lo, YearSpan(lo, last), listing, net)
    case _ => []
  }

  /** The points line up with the years that give one: same count, each from its year, dated June 1. */
  lemma PointsOfYears(lo: int, n: nat, listing: Listing, net: Network, today: string)
    ensures var ps := SurveyPoints(lo, n, listing, net, today);
      var ys := FoundYears(lo, n, listing, net);
      && |ps| == |ys|
      && forall j :: 0 <= j < |ps| ==> ps[j].source == Some(SourceName) && ps[j].date == Some(SurveyDate(ys[j]))
  {
    var f, g := YearPoints(listing, net, today), FoundAt(listing, net);
    forall y | lo <= y < lo + n
      ensures |f(y)| == |g(y)| && (g(y) == [] || g(y) == [y])
      ensures f(y) != [] ==> f(y)[0].source == Some(SourceName) && f(y)[0].date == Some(SurveyDate(y))
    {
      YearAt(listing, net, today, y);
    }
    WalkAligned(lo, n, f, g, (p: Point, y: int) => p.source == Some(SourceName) && p.date == Some(SurveyDate(y)));
  }

  /** Year `y` adds one point exactly when it is found, and that point is dated June 1 of `y`. */
  lemma YearAt(listing: Listing, net: Network, today: string, y: int)
    ensures var more, found := YearResult(listing, net, today, y), Found(listing, net, y);
      && (found == [] || found == [y])
      && |more| == |found|
      && (more != [] ==> more[0].source == Some(SourceName) && more[0].date == Some(SurveyDate(y)))
  {
    YearPointShape(y, net);
  }

  /**
   * The years that give a point are distinct, increasing, inside the range
   * and not stored: at most one point per survey year, in year order.
   */
  lemma FoundYearsShape(lo: int, n: nat, listing: Listing, net: Network)
    ensures var ys := FoundYears(lo, n, listing, net);
      && (forall a, b :: 0 <= a < b < |ys| ==> ys[a] < ys[b])
      && (forall a :: 0 <= a < |ys| ==> lo <= ys[a] < lo + n && !Stored(listing, ys[a]))
  {
    var f := FoundAt(listing, net);
    WalkIncreasing(lo, n, f);
    var ys := FoundYears(lo, n, listing, net);
    forall a | 0 <= a < |ys| ensures !Stored(listing, ys[a]) {
      WalkContents(lo, n, f, ys[a]);
    }
  }

  /** Every request is for a year of the range without a file, and every such year is requested. */
  lemma SurveyLogRequests(lo: int, n: nat, listing: Listing, net: Network, r: ZipRequest)
    ensures r in SurveyLog(lo, n, listing, net) <==> lo <= r.year < lo + n && !Stored(listing, r.year)
  {
    var f := YearLog(listing, net);
    WalkContents(lo, n, f, r);
    if lo <= r.year < lo + n && !Stored(listing, r.year) {
      TriesShape(r.year, net, 0);
      assert f(r.year)[0] == r;
    }
  }

  /** At most four requests per year of the range. */
  lemma SurveyLogLength(lo: int, n: nat, listing: Listing, net: Network)
    ensures |SurveyLog(lo, n, listing, net)| <= 4 * n
  {
    var f := YearLog(listing, net);
    forall y | lo <= y < lo + n ensures |f(y)| <= 4 {
      TriesShape(y, net, 0);
    }
    WalkLength(lo, n, f, 4);
  }

  /** Nothing before 2017 is fetched, whatever `start` says. */
  lemma NoEarlySurveys(start: Option<string>, end: Option<string>, listing: Listing, net: Network, now: Date, r: ZipRequest)
    requires r in FetchLog(start, end, listing, net, now)
    ensures r.year >= FirstYear
  {
    var first, last := BoundYear(start, now), BoundYear(end, now);
    var lo := Max(first.value, FirstYear);
    SurveyLogRequests(lo, YearSpan(lo, last.value), listing, net, r);
  }

  lemma YearStep(lo: int, k: nat, y: int, listing: Listing, net: Network, today: string)
    requires y == lo + k
    ensures SurveyPoints(lo, k + 1, listing, net, today) ==
      SurveyPoints(lo, k, listing, net, today) + YearResult(listing, net, today, y)
  {
  }

  lemma LogStep(lo: int, k: nat, y: int, listing: Listing, net: Network)
    requires y == lo + k
    ensures SurveyLog(lo, k + 1, listing, net) == SurveyLog(lo, k, listing, net) + YearRequests(listing, net, y)
  {
  }

  /** One pass of the year loop: a stored year is skipped, any other is fetched and its point formatted. */
  method VisitYear(year: int, listing: Listing, net: Network, today: string) returns (points: seq<Point>, requests: seq<ZipRequest>)
    ensures points == YearResult(listing, net, today, year)
    ensures requests == YearRequests(listing, net, year)
  {
    points, requests := [], [];
    if !Stored(listing, year) {
      var point, log, _ := FetchOneYear(year, net);
      requests := log;
      if point.Some? {
        points := FormatData(SourceName, [point.value], today);
      }
    }
  }

  /** The year loop of `fetch_data`, from `lo` to `last` inclusive. */
  method VisitYears(lo: int, last: int, listing: Listing, net: Network, today: string)
    returns (results: seq<Point>, log: seq<ZipRequest>)
    ensures results == SurveyPoints(lo, YearSpan(lo, last), listing, net, today)
    ensures log == SurveyLog(lo, YearSpan(lo, last), listing, net)
  {
    results, log := [], [];
    for k := 0 to YearSpan(lo, last)
      invariant results == SurveyPoints(lo, k, listing, net, today)
      invariant log == SurveyLog(lo, k, listing, net)
    {
      var year := lo + k;
      YearStep(lo, k, year, listing, net, today);
      LogStep(lo, k, year, listing, net);
      var points, requests := VisitYear(year, listing, net, today);
      results := results + points;
      log := log + requests;
    }
  }

  /** `fetch_data`: the year bounds, then one survey year after another, skipping years already stored. */
  method FetchData(start: Option<string>, end: Option<string>, listing: Listing, net: Network, now: Date)
    returns (r: Outcome<seq<Point>>, log: seq<ZipRequest>)
    ensures r == Fetch(start, end, listing, net, now)
    ensures log == FetchLog(start, end, listing, net, now)
  {
    var first := BoundYear(start, now);
    var last := BoundYear(end, now);
    if first.None? || last.None? {
      return Raised(ValueError), [];
    }
    var lo := Max(first.value, FirstYear);
    var results;
    results, log := VisitYears(lo, last.value, listing, net, FormatYmd(now));
    r := Returned(results);
  }
}
