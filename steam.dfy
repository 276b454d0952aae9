/**
 * The Steam Hardware & Software Survey adapter.  Steam publishes only the
 * current month, so `fetch_data` makes one request, reads the top-level
 * system rows of the page's `osversion_details` block (and the Linux
 * distributions listed under the Linux row), and dates the point with the
 * survey month named on the page.
 *
 * The HTML parser is not modelled: a page is given as the children of its
 * `osversion_details` element (when it has one), each an element with its
 * class list and its text (`get_text(" ", strip=True)`) or a bare text
 * node, together with the raw page text the date is searched in.
 */
module Steam {
  import opened Wrappers
  import opened Text
  import opened Numbers
  import opened Calendar
  import opened Points
  import opened BaseAdapter

  const SourceName: string := "Steam"

  /** A child of the `osversion_details` element. */
  datatype Node = Element(classes: seq<string>, text: string) | TextNode

  /** A fetched page: the details block's children, if the block exists, and the raw text. */
  datatype Page = Page(details: Option<seq<Node>>, html: string)

  // ---------------------------------------------------------------------
  // _extract_first_pct: the regular expression `([\d.]+)\s*%`
  // ---------------------------------------------------------------------

  predicate IsNumChar(c: char) {
    IsDigit(c) || c == '.'
  }

  /** The end of the run of digits and dots starting at `i`. */
  function RunEnd(s: string, i: nat): (j: nat)
    requires i <= |s|
    ensures i <= j <= |s|
    decreases |s| - i
  {
    if i < |s| && IsNumChar(s[i]) then RunEnd(s, i + 1) else i
  }

  /** The end of the run of whitespace starting at `i`. */
  function SpaceEnd(s: string, i: nat): (j: nat)
    requires i <= |s|
    ensures i <= j <= |s|
    decreases |s| - i
  {
    if i < |s| && IsSpace(s[i]) then SpaceEnd(s, i + 1) else i
  }

  /** `\s*%` matches at `j`. */
  predicate PctAfter(s: string, j: nat)
    requires j <= |s|
  {
    SpaceEnd(s, j) < |s| && s[SpaceEnd(s, j)] == '%'
  }

  /**
   * The pattern matches from position `i`.  `[\d.]+` is greedy and only
   * its longest run can be followed by whitespace or `%`, so a match from
   * `i` always spans the whole run.
   */
  predicate MatchAt(s: string, i: nat) {
    i < |s| && IsNumChar(s[i]) && PctAfter(s, RunEnd(s, i))
  }

  /** `re.search`: the leftmost position from `i` on where the pattern matches. */
  function FindPct(s: string, i: nat): (r: Option<nat>)
    requires i <= |s|
    ensures r.Some? ==> i <= r.value < |s|
    decreases |s| - i
  {
    if i == |s| then None
    else if !IsNumChar(s[i]) then FindPct(s, i + 1)
    else if PctAfter(s, RunEnd(s, i)) then Some(i)
    else FindPct(s, RunEnd(s, i))
  }

  /** Inside a run, the run ends where it ends from its start. */
  lemma {:induction false} RunEndInside(s: string, i: nat, p: nat)
    requires i <= |s| && i <= p < RunEnd(s, i)
    ensures RunEnd(s, p) == RunEnd(s, i)
    decreases p - i
  {
    if p > i {
      RunEndInside(s, i + 1, p);
    }
  }

  lemma {:induction false} RunEndDigits(s: string, i: nat)
    requires i <= |s|
    ensures forall k :: i <= k < RunEnd(s, i) ==> IsNumChar(s[k])
    decreases |s| - i
  {
    if i < |s| && IsNumChar(s[i]) {
      RunEndDigits(s, i + 1);
    }
  }

  /**
   * The search finds the leftmost match from `i` on, and finds none only
   * when the pattern matches nowhere from `i` on.
   */
  lemma {:induction false} FindPctLeftmost(s: string, i: nat)
    requires i <= |s|
    ensures FindPct(s, i).Some? ==>
      var m := FindPct(s, i).value;
      i <= m && MatchAt(s, m) && forall p :: i <= p < m ==> !MatchAt(s, p)
    ensures FindPct(s, i).None? ==> forall p :: i <= p < |s| ==> !MatchAt(s, p)
    decreases |s| - i
  {
    if i == |s| {
    } else if !IsNumChar(s[i]) {
      FindPctLeftmost(s, i + 1);
    } else if !PctAfter(s, RunEnd(s, i)) {
      var e := RunEnd(s, i);
      forall p | i <= p < e ensures !MatchAt(s, p) {
        RunEndInside(s, i, p);
      }
      FindPctLeftmost(s, e);
    }
  }

  /**
   * `_extract_first_pct`: the number of the first match, in hundredths; 0
   * when nothing matches; `float()` raises `ValueError` on a run such as
   * "." or "1.2.3".
   */
  function ExtractFirstPct(text: string): Outcome<int> {
    match FindPct(text, 0)
    case None => Returned(0)
    case Some(m) =>
      match ParseDecimal(text[m..RunEnd(text, m)])
      case Some(v) => Returned(v)
      case None => Raised(ValueError)
  }

  /** Text in which the pattern matches nowhere reads as 0. */
  lemma ExtractFirstPctNone(text: string)
    requires forall p :: 0 <= p < |text| ==> !MatchAt(text, p)
    ensures ExtractFirstPct(text) == Returned(0)
  {
    FindPctLeftmost(text, 0);
  }

  /**
   * Otherwise the value is that of the leftmost match: the whole run of
   * digits and dots before the `%`, or `ValueError` when it is no number.
   */
  lemma ExtractFirstPctAt(text: string, m: nat)
    requires m < |text| && MatchAt(text, m) && forall p :: 0 <= p < m ==> !MatchAt(text, p)
    ensures ExtractFirstPct(text) == (match ParseDecimal(text[m..RunEnd(text, m)])
      case Some(v) => Returned(v)
      case None => Raised(ValueError))
  {
    FindPctLeftmost(text, 0);
    var r := FindPct(text, 0);
    assert r.Some?;
    assert !(r.value < m);
    assert !(m < r.value);
  }

  // ---------------------------------------------------------------------
  // _parse_page
  // ---------------------------------------------------------------------

  /** The top-level categories of the details block. */
  datatype Os = Windows | Mac | Linux

  /** The `totals` dictionary, in hundredths. */
  datatype Totals = Totals(windows: int, mac: int, linux: int)

  /**
   * What the row loop carries: the totals, `current_category`, the
   * recorded distributions of `linux_details` and its pending
   * `"_last_name"` entry, kept apart.
   */
  datatype Scan = Scan(totals: Totals, category: Option<Os>, details: map<string, int>, pending: Option<string>)

  const Start: Scan := Scan(Totals(0, 0, 0), None, map[], None)

  /** The category a top-level row opens, from its lower-cased text. */
  function RowCategory(lower: string): Option<Os> {
    if StartsWith(lower, "windows") then Some(Windows)
    else if StartsWith(lower, "osx") || StartsWith(lower, "mac") then Some(Mac)
    else if StartsWith(lower, "linux") then Some(Linux)
    else None
  }

  /** The totals with one category's figure replaced. */
  function Assign(t: Totals, os: Os, pct: int): Totals {
    match os
    case Windows => t.(windows := pct)
    case Mac => t.(mac := pct)
    case Linux => t.(linux := pct)
  }

  predicate IsStatsRow(n: Node) {
    n.Element? && "stats_row" in n.classes
  }

  predicate IsDistroName(n: Node) {
    n.Element? && "stats_col_mid" in n.classes
  }

  predicate IsDistroShare(n: Node) {
    n.Element? && "stats_col_right" in n.classes && "stats_col_right2" !in n.classes
  }

  /** One child of the details block: the body of the row loop. */
  function Step(s: Scan, n: Node): Outcome<Scan> {
    if IsStatsRow(n) then
      match ExtractFirstPct(n.text)
      case Raised(e) => Raised(e)
      case Returned(pct) =>
        match RowCategory(Lower(n.text))
        case Some(os) => Returned(s.(totals := Assign(s.totals, os, pct), category := Some(os)))
        case None => Returned(s.(category := None))
    else if s.category == Some(Linux) && IsDistroName(n) then
      Returned(s.(pending := Some(n.text)))
    else if s.category == Some(Linux) && IsDistroShare(n) then
      var name := s.pending;
      if name.Some? && name.value != "" then
        match ExtractFirstPct(n.text)
        case Raised(e) => Raised(e)
        case Returned(pct) => Returned(s.(pending := None, details := s.details[name.value := pct]))
      else Returned(s.(pending := None))
    else Returned(s)
  }

  /** The loop over the children, in order; an exception ends it. */
  function ScanRows(nodes: seq<Node>): Outcome<Scan> {
    if nodes == [] then Returned(Start)
    else
      match ScanRows(nodes[..|nodes| - 1])
      case Raised(e) => Raised(e)
      case Returned(s) => Step(s, nodes[|nodes| - 1])
  }

  /**
   * A top-level row assigns its figure to the category it opens, leaving
   * the other totals and the distributions alone; a row opening no
   * category only closes the current one.
   */
  lemma StatsRowAssigns(s: Scan, n: Node, pct: int)
    requires IsStatsRow(n) && ExtractFirstPct(n.text) == Returned(pct)
    ensures var os := RowCategory(Lower(n.text));
      && Step(s, n).Returned?
      && Step(s, n).value.category == os
      && Step(s, n).value.totals == (if os.Some? then Assign(s.totals, os.value, pct) else s.totals)
      && Step(s, n).value.details == s.details && Step(s, n).value.pending == s.pending
  {
  }

  /** Assigning replaces the figure: the old one plays no part. */
  lemma AssignReplaces(t: Totals, os: Os, pct: int)
    ensures var u := Assign(t, os, pct);
      && (os == Windows ==> u.windows == pct && u.mac == t.mac && u.linux == t.linux)
      && (os == Mac ==> u.mac == pct && u.windows == t.windows && u.linux == t.linux)
      && (os == Linux ==> u.linux == pct && u.windows == t.windows && u.mac == t.mac)
  {
  }

  /** Outside the Linux category, only top-level rows do anything. */
  lemma OnlyLinuxDistros(s: Scan, n: Node)
    requires s.category != Some(Linux) && !IsStatsRow(n)
    ensures Step(s, n) == Returned(s)
  {
  }

  /**
   * Inside the Linux category a name cell sets the pending name, and a
   * share cell consumes it, recording the share under it when it is not
   * empty.
   */
  lemma LinuxDistros(s: Scan, n: Node)
    requires s.category == Some(Linux) && !IsStatsRow(n)
    ensures IsDistroName(n) ==> Step(s, n) == Returned(s.(pending := Some(n.text)))
    ensures !IsDistroName(n) && IsDistroShare(n) && Step(s, n).Returned? ==>
      && Step(s, n).value.pending.None?
      && Step(s, n).value.totals == s.totals && Step(s, n).value.category == s.category
      && (s.pending.Some? && s.pending.value != "" ==>
            Step(s, n).value.details == s.details[s.pending.value := ExtractFirstPct(n.text).value])
      && (s.pending.None? || s.pending.value == "" ==> Step(s, n).value.details == s.details)
  {
  }

  /** What `_parse_page` returns: the three shares, the rest, and the Linux distributions. */
  datatype Shares = Shares(linux: int, windows: int, mac: int, other: int, details: map<string, int>)

  /**
   * The end of `_parse_page` as written: no result when the Linux and
   * Windows totals are both 0; otherwise `round(v, 2)` over every value of
   * `linux_details`, which raises `TypeError` on a pending name still
   * stored there (a string).
   */
  function FinishAsWritten(s: Scan): Outcome<Option<Shares>> {
    var t := s.totals;
    if t.linux == 0 && t.windows == 0 then Returned(None)
    else if s.pending.Some? then Raised(TypeError)
    else Returned(Some(Shares(t.linux, t.windows, t.mac, Max(0, 10000 - t.windows - t.mac - t.linux), s.details)))
  }

  /** The end of `_parse_page` with a pending name left out of the details. */
  function Finish(s: Scan): Option<Shares> {
    var t := s.totals;
    if t.linux == 0 && t.windows == 0 then None
    else Some(Shares(t.linux, t.windows, t.mac, Max(0, 10000 - t.windows - t.mac - t.linux), s.details))
  }

  function PageSharesAsWritten(container: Option<seq<Node>>): Outcome<Option<Shares>> {
    match container
    case None => Returned(None)
    case Some(nodes) =>
      match ScanRows(nodes)
      case Raised(e) => Raised(e)
      case Returned(s) => FinishAsWritten(s)
  }

  /** `_parse_page`, with the pending name ignored at the end. */
  function PageShares(container: Option<seq<Node>>): Outcome<Option<Shares>> {
    match container
    case None => Returned(None)
    case Some(nodes) =>
      match ScanRows(nodes)
      case Raised(e) => Raised(e)
      case Returned(s) => Returned(Finish(s))
  }

  /**
   * No details block gives no result; a block whose rows read without an
   * exception gives its totals exactly when the Linux or Windows total is
   * not 0, with the rest never negative.
   */
  lemma PageSharesShape(container: Option<seq<Node>>)
    ensures container.None? ==> PageShares(container) == Returned(None)
    ensures container.Some? ==> (PageShares(container).Raised? <==> ScanRows(container.value).Raised?)
    ensures container.Some? && ScanRows(container.value).Returned? ==>
      PageShares(container) == Returned(Finish(ScanRows(container.value).value))
  {
  }

  /**
   * The totals give shares exactly when the Linux or Windows total is not
   * 0; the rest is never negative and completes the three to 100% when
   * they do not exceed it.
   */
  lemma FinishShape(s: Scan)
    ensures var t := s.totals;
      && (Finish(s).Some? <==> t.linux != 0 || t.windows != 0)
      && (Finish(s).Some? ==>
            var sh := Finish(s).value;
            && sh.linux == t.linux && sh.windows == t.windows && sh.mac == t.mac && sh.details == s.details
            && sh.other >= 0
            && (t.windows + t.mac + t.linux <= 10000 ==> sh.windows + sh.mac + sh.linux + sh.other == 10000)
            && (t.windows + t.mac + t.linux > 10000 ==> sh.other == 0))
  {
  }

  /** A Linux row followed by a distribution name with no share cell after it. */
  const PendingExample: seq<Node> := [Element(["stats_row"], "Linux 3.38%"), Element(["stats_col_mid", "data_row"], "Ubuntu")]

  lemma LinuxRowPct()
    ensures ExtractFirstPct("Linux 3.38%") == Returned(338)
  {
    var s := "Linux 3.38%";
    assert RunEnd(s, 10) == 10;
    assert RunEnd(s, 6) == 10;
    assert SpaceEnd(s, 10) == 10;
    assert FindPct(s, 6) == Some(6);
    assert FindPct(s, 0) == Some(6);
    assert s[6..10] == "3.38";
    assert IndexOf("3.38", '.') == 1;
    assert ParseDecimal("3.38") == Some(338);
  }

  /**
   * As written, a pending name loses the whole page: the example has a
   * Linux share of 3.38% but `_parse_page` raises `TypeError`, so
   * `fetch_data` returns nothing; without the pending name the page gives
   * its shares.
   */
  lemma PendingNameDropsPage()
    ensures PageSharesAsWritten(Some(PendingExample)) == Raised(TypeError)
    ensures PageShares(Some(PendingExample)) == Returned(Some(Shares(338, 0, 0, 9662, map[])))
  {
    PendingExampleScan();
  }

  /** The loop over the example ends in the Linux category with "Ubuntu" pending. */
  lemma PendingExampleScan()
    ensures ScanRows(PendingExample) == Returned(Scan(Totals(0, 0, 338), Some(Linux), map[], Some("Ubuntu")))
  {
    ScanStep(PendingExample, 1);
    assert PendingExample[..2] == PendingExample;
    FirstRowScan();
    NameStep();
  }

  /** After the Linux row: the Linux total set, the Linux category open. */
  const AfterLinuxRow: Scan := Scan(Totals(0, 0, 338), Some(Linux), map[], None)

  lemma FirstRowScan()
    ensures ScanRows(PendingExample[..1]) == Returned(AfterLinuxRow)
  {
    assert PendingExample[..1] == [Element(["stats_row"], "Linux 3.38%")];
    LinuxRowStep();
  }

  lemma NameStep()
    ensures Step(AfterLinuxRow, PendingExample[1]) == Returned(AfterLinuxRow.(pending := Some("Ubuntu")))
  {
  }

  lemma LinuxRowStep()
    ensures Step(Start, Element(["stats_row"], "Linux 3.38%")) == Returned(AfterLinuxRow)
  {
    LinuxRowPct();
    LinuxRowCategory();
  }

  lemma LinuxRowCategory()
    ensures RowCategory(Lower("Linux 3.38%")) == Some(Linux)
  {
    var l := Lower("Linux 3.38%");
    assert l[0] == 'l';
    assert l[1] == 'i';
    assert l[2] == 'n';
    assert l[3] == 'u';
    assert l[4] == 'x';
  }

  /** One more child of the loop. */
  lemma ScanStep(nodes: seq<Node>, k: nat)
    requires k < |nodes|
    ensures ScanRows(nodes[..k + 1]) ==
      match ScanRows(nodes[..k])
      case Raised(e) => Raised(e)
      case Returned(s) => Step(s, nodes[k])
  {
    assert nodes[..k + 1][..k] == nodes[..k];
  }

  /** The loop body of `_parse_page` on one child. */
  method VisitChild(s: Scan, child: Node) returns (r: Outcome<Scan>)
    ensures r == Step(s, child)
  {
    if IsStatsRow(child) {
      var pct := ExtractFirstPct(child.text);
      if pct.Raised? {
        return Raised(pct.exc);
      }
      var lower := Lower(child.text);
      if StartsWith(lower, "windows") {
        r := Returned(s.(totals := s.totals.(windows := pct.value), category := Some(Windows)));
      } else if StartsWith(lower, "osx") || StartsWith(lower, "mac") {
        r := Returned(s.(totals := s.totals.(mac := pct.value), category := Some(Mac)));
      } else if StartsWith(lower, "linux") {
        r := Returned(s.(totals := s.totals.(linux := pct.value), category := Some(Linux)));
      } else {
        r := Returned(s.(category := None));
      }
    } else if s.category == Some(Linux) && IsDistroName(child) {
      r := Returned(s.(pending := Some(child.text)));
    } else if s.category == Some(Linux) && IsDistroShare(child) {
      var name := s.pending;
      var popped := s.(pending := None);
      if name.Some? && name.value != "" {
        var pct := ExtractFirstPct(child.text);
        if pct.Raised? {
          return Raised(pct.exc);
        }
        r := Returned(popped.(details := popped.details[name.value := pct.value]));
      } else {
        r := Returned(popped);
      }
    } else {
      r := Returned(s);
    }
  }

  /** `_parse_page`: the row loop, then the totals check and the result. */
  method ParsePage(container: Option<seq<Node>>) returns (r: Outcome<Option<Shares>>)
    ensures r == PageShares(container)
  {
    if container.None? {
      return Returned(None);
    }
    var nodes := container.value;
    var scan := Start;
    for k := 0 to |nodes|
      invariant ScanRows(nodes[..k]) == Returned(scan)
    {
      ScanStep(nodes, k);
      var next := VisitChild(scan, nodes[k]);
      if next.Raised? {
        assert nodes[..|nodes|] == nodes;
        ScanRaisedStays(nodes, k + 1);
        return Raised(next.exc);
      }
      scan := next.value;
    }
    assert nodes[..|nodes|] == nodes;
    var t := scan.totals;
    if t.linux == 0 && t.windows == 0 {
      return Returned(None);
    }
    var other := Max(0, 10000 - t.windows - t.mac - t.linux);
    r := Returned(Some(Shares(t.linux, t.windows, t.mac, other, scan.details)));
  }

  /** Once the loop has raised, it has raised for good. */
  lemma {:induction false} ScanRaisedStays(nodes: seq<Node>, k: nat)
    requires k <= |nodes| && ScanRows(nodes[..k]).Raised?
    ensures ScanRows(nodes) == ScanRows(nodes[..k])
    decreases |nodes| - k
  {
    if k < |nodes| {
      ScanStep(nodes, k);
      ScanRaisedStays(nodes, k + 1);
    } else {
      assert nodes[..k] == nodes;
    }
  }

  // ---------------------------------------------------------------------
  // _extract_survey_date: `Survey[:\s]+(\w+ \d{4})`, case-insensitive
  // ---------------------------------------------------------------------

  predicate IsSeparator(c: char) {
    c == ':' || IsSpace(c)
  }

  function SeparatorEnd(s: string, i: nat): (j: nat)
    requires i <= |s|
    ensures i <= j <= |s|
    decreases |s| - i
  {
    if i < |s| && IsSeparator(s[i]) then SeparatorEnd(s, i + 1) else i
  }

  function WordEnd(s: string, i: nat): (j: nat)
    requires i <= |s|
    ensures i <= j <= |s|
    decreases |s| - i
  {
    if i < |s| && IsWordChar(s[i]) then WordEnd(s, i + 1) else i
  }

  /**
   * The pattern at position `i`: "survey" in any case, separators, a word,
   * one space and four digits.  Both runs are greedy and can only end
   * where they do, so the word is the whole run.  The result is the word's
   * bounds.
   */
  function SurveyAt(s: string, i: nat): (r: Option<(nat, nat)>)
    requires i <= |s|
    ensures r.Some? ==> i + 6 < r.value.0 < r.value.1 && r.value.1 + 5 <= |s| && AllDigits(s[r.value.1 + 1..r.value.1 + 5])
  {
    if i + 6 <= |s| && Lower(s[i..i + 6]) == "survey" then
      var k := SeparatorEnd(s, i + 6);
      var w := WordEnd(s, k);
      if k > i + 6 && w > k && w + 5 <= |s| && s[w] == ' ' && AllDigits(s[w + 1..w + 5]) then Some((k, w))
      else None
    else None
  }

  /** `re.search`: the first position from `i` on where the pattern matches. */
  function FindSurvey(s: string, i: nat): (r: Option<(nat, nat)>)
    requires i <= |s|
    ensures r.Some? ==> r.value.0 < r.value.1 && r.value.1 + 5 <= |s| && AllDigits(s[r.value.1 + 1..r.value.1 + 5])
    decreases |s| - i
  {
    if i == |s| then None
    else if SurveyAt(s, i).Some? then SurveyAt(s, i)
    else FindSurvey(s, i + 1)
  }

  /** The search finds the leftmost position from `i` on where the pattern matches. */
  lemma {:induction false} FindSurveyLeftmost(s: string, i: nat)
    requires i <= |s|
    ensures FindSurvey(s, i).Some? ==>
      exists m :: i <= m < |s| && FindSurvey(s, i) == SurveyAt(s, m) && (forall p :: i <= p < m ==> SurveyAt(s, p).None?)
    decreases |s| - i
  {
    if i < |s| && SurveyAt(s, i).None? {
      FindSurveyLeftmost(s, i + 1);
      if FindSurvey(s, i + 1).Some? {
        var m :| i + 1 <= m < |s| && FindSurvey(s, i + 1) == SurveyAt(s, m) &&
          forall p :: i + 1 <= p < m ==> SurveyAt(s, p).None?;
        assert forall p :: i <= p < m ==> SurveyAt(s, p).None?;
      }
    }
  }

  /** The search finds nothing only when the pattern matches nowhere from `i` on. */
  lemma {:induction false} FindSurveyNone(s: string, i: nat)
    requires i <= |s|
    ensures FindSurvey(s, i).None? ==> forall p :: i <= p < |s| ==> SurveyAt(s, p).None?
    decreases |s| - i
  {
    if i < |s| && SurveyAt(s, i).None? {
      FindSurveyNone(s, i + 1);
    }
  }

  const MonthNames: seq<string> := ["january", "february", "march", "april", "may", "june", "july",
    "august", "september", "october", "november", "december"]

  /** `%B`: a full English month name in any case, as its number. */
  function MonthNumber(word: string): (r: Option<int>)
    ensures r.Some? ==> 1 <= r.value <= 12 && MonthNames[r.value - 1] == Lower(word)
    ensures r.None? ==> Lower(word) !in MonthNames
  {
    MonthNumberFrom(Lower(word), 0)
  }

  function MonthNumberFrom(name: string, i: nat): (r: Option<int>)
    requires i <= 12
    ensures r.Some? ==> i + 1 <= r.value <= 12 && MonthNames[r.value - 1] == name
    ensures r.None? ==> forall j :: i <= j < 12 ==> MonthNames[j] != name
    decreases 12 - i
  {
    if i == 12 then None
    else if MonthNames[i] == name then Some(i + 1)
    else MonthNumberFrom(name, i + 1)
  }

  /**
   * `strptime(group, "%B %Y")`: the word must be a month name; year 0 is
   * refused by `datetime`.
   */
  function MonthYear(word: string, digits: string): Option<(int, int)>
    requires AllDigits(digits)
  {
    var year := DigitsValue(digits);
    match MonthNumber(word)
    case Some(m) => if year >= 1 then Some((year, m)) else None
    case None => None
  }

  /**
   * `_extract_survey_date`: the first "Survey <Month> <YYYY>" of the page
   * as `YYYY-MM-01`; the current month when there is none or it does not
   * name a month.
   */
  function SurveyDate(html: string, now: Date): string {
    var month := SurveyMonth(html);
    if month.Some? then FirstOfMonth(month.value.0, month.value.1)
    else FirstOfMonth(now.year, now.month)
  }

  /** The year and month the first match names, if it names one. */
  function SurveyMonth(html: string): (r: Option<(int, int)>)
    ensures r.Some? ==> 1 <= r.value.0 && 1 <= r.value.1 <= 12
  {
    match FindSurvey(html, 0)
    case Some(w) => MatchMonth(html, w)
    case None => None
  }

  /** `strptime` of the match whose word has the bounds `w`: its word and four digits. */
  function MatchMonth(html: string, w: (nat, nat)): (r: Option<(int, int)>)
    requires w.0 <= w.1 && w.1 + 5 <= |html| && AllDigits(html[w.1 + 1..w.1 + 5])
    ensures r.Some? ==> 1 <= r.value.0 && 1 <= r.value.1 <= 12
  {
    MonthYear(html[w.0..w.1], html[w.1 + 1..w.1 + 5])
  }

  /**
   * The date is always the first of a month: that of the month the page
   * names or, failing that, the current one; the current one when the
   * pattern matches nowhere.
   */
  lemma SurveyDateShape(html: string, now: Date)
    ensures (exists y, m :: 1 <= y && 1 <= m <= 12 && SurveyDate(html, now) == FirstOfMonth(y, m)) ||
      SurveyDate(html, now) == FirstOfMonth(now.year, now.month)
    ensures SurveyMonth(html).Some? ==>
      SurveyDate(html, now) == FirstOfMonth(SurveyMonth(html).value.0, SurveyMonth(html).value.1)
    ensures SurveyMonth(html).None? ==> SurveyDate(html, now) == FirstOfMonth(now.year, now.month)
    ensures (forall p :: 0 <= p < |html| ==> SurveyAt(html, p).None?) ==>
      SurveyDate(html, now) == FirstOfMonth(now.year, now.month)
  {
    if FindSurvey(html, 0).Some? {
      FindSurveyLeftmost(html, 0);
    }
    var month := SurveyMonth(html);
    if month.Some? {
      assert SurveyDate(html, now) == FirstOfMonth(month.value.0, month.value.1);
    }
  }

  /** A match at `m` with none between `i` and `m` is the one the search finds. */
  lemma {:induction false} FindSurveyAt(s: string, i: nat, m: nat)
    requires i <= m < |s| && SurveyAt(s, m).Some?
    requires forall p :: i <= p < m ==> SurveyAt(s, p).None?
    ensures FindSurvey(s, i) == SurveyAt(s, m)
    decreases m - i
  {
    if i < m {
      FindSurveyAt(s, i + 1, m);
    }
  }

  /**
   * The month is read from the leftmost match: the month and year its
   * word and four digits name under "%B %Y", if they name one.  The date
   * is then the first of that month, or of the current month.
   */
  lemma SurveyMonthAt(html: string, m: nat)
    requires m < |html| && SurveyAt(html, m).Some?
    requires forall p :: 0 <= p < m ==> SurveyAt(html, p).None?
    ensures SurveyMonth(html) == MatchMonth(html, SurveyAt(html, m).value)
  {
    FindSurveyAt(html, 0, m);
  }

  /** A page title as the survey page shows it. */
  const SurveyTitle: string := "Survey: January 2026"

  /** The separators of the title end at 8 and its word at 15. */
  lemma SurveyTitleRuns()
    ensures SeparatorEnd(SurveyTitle, 6) == 8 && WordEnd(SurveyTitle, 8) == 15
  {
    var s := SurveyTitle;
    assert SeparatorEnd(s, 8) == 8 by { assert s[8] == 'J'; }
    assert SeparatorEnd(s, 6) == 8 by { assert s[6] == ':' && s[7] == ' '; }
    assert WordEnd(s, 15) == 15 by { assert s[15] == ' '; }
    assert s[8..15] == "January";
    assert forall k :: 8 <= k < 15 ==> IsWordChar(s[k]);
  }

  lemma SurveyTitleMatch()
    ensures SurveyAt(SurveyTitle, 0) == Some((8, 15))
  {
    var s := SurveyTitle;
    assert Lower(s[0..6]) == "survey" by {
      assert s[0..6] == "Survey";
      assert LowerChar('S') == 's';
    }
    SurveyTitleRuns();
    assert s[15] == ' ';
    assert s[16..20] == "2026";
  }

  lemma JanuaryNumber()
    ensures MonthNumber("January") == Some(1)
  {
    assert Lower("January") == "january" by {
      assert LowerChar('J') == 'j';
    }
    assert MonthNumberFrom("january", 0) == Some(1);
  }

  lemma YearValue()
    ensures DigitsValue("2026") == 2026
  {
    assert "2026"[..3] == "202" && "202"[..2] == "20" && "20"[..1] == "2" && "2"[..0] == [];
  }

  lemma FirstOfJanuary2026()
    ensures FirstOfMonth(2026, 1) == "2026-01-01"
  {
    assert NatToString(2026) == "2026" by {
      assert NatToString(2) == "2";
      assert NatToString(20) == "20";
      assert NatToString(202) == "202";
    }
    assert NatToString(1) == "1";
    assert Zeros(1) == "0";
  }

  /** "Survey: January 2026" dates the point 2026-01-01, whatever the current date. */
  lemma SurveyTitleDate(now: Date)
    ensures SurveyDate(SurveyTitle, now) == "2026-01-01"
  {
    SurveyTitleMonth();
    FirstOfJanuary2026();
  }

  /** The title names January 2026. */
  lemma SurveyTitleMonth()
    ensures SurveyMonth(SurveyTitle) == Some((2026, 1))
  {
    SurveyTitleMatch();
    assert FindSurvey(SurveyTitle, 0) == Some((8, 15));
    assert MatchMonth(SurveyTitle, (8, 15)) == Some((2026, 1)) by {
      assert SurveyTitle[8..15] == "January" && SurveyTitle[16..20] == "2026";
      JanuaryNumber();
      YearValue();
    }
  }

  // ---------------------------------------------------------------------
  // fetch_data
  // ---------------------------------------------------------------------

  /** The point: the survey date merged into the result dictionary. */
  function SharesPoint(sh: Shares, date: string): RawPoint {
    RawPoint(Some(date), Some(sh.linux), Some(sh.windows), Some(sh.mac), None, Some(sh.other),
      Some(map k | k in sh.details :: Num(sh.details[k])))
  }

  /**
   * `fetch_data` as a value: the reply to the one request; nothing on a
   * status other than 200, a failed request, no result or an exception.
   */
  function Fetch(reply: Reply<Page>, now: Date): seq<Point> {
    if !(reply.Response? && reply.status == 200) then []
    else match PageShares(reply.body.details)
      case Returned(Some(sh)) => Formatted(SourceName, [SharesPoint(sh, SurveyDate(reply.body.html, now))], FormatYmd(now))
      case _ => []
  }

  /**
   * At most one point, from a 200 reply whose page gives shares; it keeps
   * the page's Linux share and is dated the first of a month.
   */
  lemma FetchShape(reply: Reply<Page>, now: Date)
    ensures |Fetch(reply, now)| <= 1
    ensures Fetch(reply, now) != [] <==>
      reply.Response? && reply.status == 200 && PageShares(reply.body.details).Returned? &&
      PageShares(reply.body.details).value.Some?
    ensures Fetch(reply, now) != [] ==>
      var p := Fetch(reply, now)[0];
      && p.source == Some(SourceName)
      && p.linux == PageShares(reply.body.details).value.value.linux
      && p.date == Some(SurveyDate(reply.body.html, now))
  {
  }

  /** `fetch_data`: one GET, the status check, the parse and the date; any exception gives nothing. */
  method FetchData(reply: Reply<Page>, now: Date) returns (r: seq<Point>)
    ensures r == Fetch(reply, now)
  {
    if reply.ConnectionError? {
      return [];
    }
    if reply.status != 200 {
      return [];
    }
    var result := ParsePage(reply.body.details);
    if result.Raised? {
      return [];
    }
    if result.value.None? {
      return [];
    }
    var date := SurveyDate(reply.body.html, now);
    r := FormatData(SourceName, [SharesPoint(result.value.value, date)], FormatYmd(now));
  }
}
