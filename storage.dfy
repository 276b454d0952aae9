/**
 * The partitioned JSON store as values: where `store_data` files a point,
 * how a partition is upserted, what `get_data` reads back and filters, and
 * the two derived views (`manifest.json` and `combined.json`).
 *
 * The data folder is a map from (directory, file name) to the file's
 * content: a decoded list of points, or text `json.load` rejects.  A file
 * name is a path relative to its directory, cleaned as pathlib cleans one.
 */
module Storage {
  import opened Wrappers
  import opened Text
  import opened Numbers
  import opened Calendar
  import opened StringOrder
  import opened Points
  import opened Lists

  datatype Path = Path(dir: string, name: string)

  datatype Content = Entries(entries: seq<Point>) | Corrupt

  type Disk = map<Path, Content>

  /**
   * One entry of `SOURCE_METADATA`, named by its source; the entry's text
   * fields are the functions below.
   */
  datatype SourceMeta = SteamSurvey | StatCounterStats | DapAnalytics | CloudflareRadar | StackOverflowSurvey | JetBrainsSurvey
  {
    /** The `id`: the source's data directory. */
    function Id(): string {
      match this
      case SteamSurvey => "steam"
      case StatCounterStats => "statcounter"
      case DapAnalytics => "dap"
      case CloudflareRadar => "cloudflare"
      case StackOverflowSurvey => "stackoverflow"
      case JetBrainsSurvey => "jetbrains"
    }

    function Name(): string {
      match this
      case SteamSurvey => "Steam Hardware Survey"
      case StatCounterStats => "StatCounter Global Stats"
      case DapAnalytics => "US Digital Analytics Program"
      case CloudflareRadar => "Cloudflare Radar"
      case StackOverflowSurvey => "Stack Overflow Survey"
      case JetBrainsSurvey => "JetBrains Developer Ecosystem Survey"
    }

    function Description(): string {
      match this
      case SteamSurvey => "OS distribution among active Steam users (gaming population)"
      case StatCounterStats => "Desktop OS market share based on web traffic analysis"
      case DapAnalytics => "OS distribution across US federal government websites (all devices)"
      case CloudflareRadar => "OS share across all HTTP traffic observed by Cloudflare (all devices, worldwide)"
      case StackOverflowSurvey => "OS used for personal use among software developers (annual survey)"
      case JetBrainsSurvey => "OS used for development among software developers (annual survey)"
    }

    function Url(): string {
      match this
      case SteamSurvey => "https://store.steampowered.com/hwsurvey/"
      case StatCounterStats => "https://gs.statcounter.com/"
      case DapAnalytics => "https://analytics.usa.gov/"
      case CloudflareRadar => "https://radar.cloudflare.com/"
      case StackOverflowSurvey => "https://insights.stackoverflow.com/survey"
      case JetBrainsSurvey => "https://www.jetbrains.com/lp/devecosystem/"
    }

    function Methodology(): string {
      match this
      case SteamSurvey => "Monthly opt-in survey of Steam users worldwide"
      case StatCounterStats => "Aggregated web traffic from millions of websites globally"
      case DapAnalytics => "Analytics from participating US government agencies"
      case CloudflareRadar => "Aggregated from Cloudflare's global network traffic"
      case StackOverflowSurvey => "Self-reported annual survey of ~65,000 developers worldwide"
      case JetBrainsSurvey => "Self-reported annual survey of ~20,000+ developers worldwide. Multi-select OS question; shares can exceed 100%."
    }

    /** The `covers` field: the devices the source counts. */
    function Covers(): string {
      match this
      case DapAnalytics => "all_devices"
      case CloudflareRadar => "all_devices"
      case _ => "desktop"
    }

    function Region(): string {
      if this == DapAnalytics then "us" else "global"
    }
  }

  /** `SOURCE_METADATA`, in its declaration order. */
  function SourceMetadata(): (ms: seq<SourceMeta>)
    ensures |ms| == 6
  {
    [SteamSurvey, StatCounterStats, DapAnalytics, CloudflareRadar, StackOverflowSurvey, JetBrainsSurvey]
  }

  /** The metadata ids are the six source directories, in the same order. */
  lemma MetadataIds()
    ensures forall i :: 0 <= i < 6 ==> SourceMetadata()[i].Id() == KnownDirs()[i]
  {
  }

  /** The six source directories, in the order `get_data` visits them. */
  function KnownDirs(): seq<string> {
    ["steam", "statcounter", "dap", "cloudflare", "stackoverflow", "jetbrains"]
  }

  /** `_source_dir`: the directory a source display name is filed under. */
  function SourceDir(sourceName: string): (dir: string)
    ensures dir == Lower(sourceName)
  {
    if sourceName == "Steam" then (assert Lower(sourceName) == "steam"; "steam")
    else if sourceName == "StatCounter" then (assert Lower(sourceName) == "statcounter"; "statcounter")
    else if sourceName == "DAP" then (assert Lower(sourceName) == "dap"; "dap")
    else if sourceName == "Cloudflare" then (assert Lower(sourceName) == "cloudflare"; "cloudflare")
    else if sourceName == "StackOverflow" then (assert Lower(sourceName) == "stackoverflow"; "stackoverflow")
    else if sourceName == "JetBrains" then (assert Lower(sourceName) == "jetbrains"; "jetbrains")
    else Lower(sourceName)
  }

  /** Two relative paths joined by '/', an empty side left out. */
  function JoinPath(x: string, y: string): string {
    if x == "" then y else if y == "" then x else x + "/" + y
  }

  /**
   * pathlib's clean-up of the '/'-separated segments of a path: empty and
   * "." segments are dropped, so "./a//b" names the same file as "a/b".
   * A ".." segment is kept as it is.
   */
  function CleanPath(s: string): (r: string)
    ensures |r| <= |s|
    decreases |s|
  {
    var i := IndexOf(s, '/');
    if i == |s| then (if s == "." then "" else s)
    else
      var seg, rest := s[..i], CleanPath(s[i + 1..]);
      if seg == "" || seg == "." then rest else JoinPath(seg, rest)
  }

  /**
   * The file `data_dir / dir / name` opens: the name is cleaned, and a name
   * starting with '/' is absolute, so pathlib drops the base and the file
   * lands under the root directory "/".
   */
  function FileAt(dir: string, name: string): Path {
    if name != [] && name[0] == '/' then Path("/", CleanPath(name)) else Path(dir, CleanPath(name))
  }

  /**
   * A ".json" file listed by `iterdir` with `is_file()`: the name ends in
   * ".json" after a non-empty stem (`Path(name).suffix`), and has no '/'.
   * A file name is a cleaned path relative to its directory, so one with a
   * '/' is a file of a subdirectory, which the listing shows as a directory.
   */
  predicate IsJsonName(name: string) {
    |name| > 5 && EndsWith(name, ".json") && '/' !in name
  }

  /** `Path(name).stem` of a ".json" file name. */
  function Stem(name: string): (s: string)
    requires IsJsonName(name)
    ensures s + ".json" == name
  {
    name[..|name| - 5]
  }

  /**
   * The partition a date is filed under: "YYYY-MM" when the date parses as
   * "%Y-%m-%d", otherwise its first seven characters.
   */
  function PartitionKey(date: string): (key: string)
    ensures StrptimeYmd(date).Some? ==>
      StrptimeYm(key) == Some((StrptimeYmd(date).value.year, StrptimeYmd(date).value.month))
    ensures StrptimeYmd(date).None? ==> |key| <= Min(7, |date|) && key == date[..|key|] && (|date| >= 7 ==> |key| == 7)
  {
    match StrptimeYmd(date)
    case Some(d) =>
      StrptimeFormatYm(d.year, d.month);
      FormatYm(d.year, d.month)
    case None => date[..Min(7, |date|)]
  }

  /** The file `store_data` writes a point to; `today` stands in for a missing date. */
  function PartitionOf(p: Point, today: string): Path {
    FileAt(SourceDir(p.source.GetOr("unknown")), PartitionKey(p.date.GetOr(today)) + ".json")
  }

  /** The entries of a file; a missing or undecodable file reads as empty. */
  function Existing(disk: Disk, path: Path): seq<Point> {
    if path in disk && disk[path].Entries? then disk[path].entries else []
  }

  /** The entries whose `date` is not `key` (an entry without a date is kept). */
  function WithoutDate(entries: seq<Point>, key: string): (r: seq<Point>)
    ensures forall e :: e in r <==> e in entries && e.date != Some(key)
    ensures |r| <= |entries|
  {
    if entries == [] then []
    else
      var rest := WithoutDate(entries[..|entries| - 1], key);
      var last := entries[|entries| - 1];
      assert entries == entries[..|entries| - 1] + [last];
      if last.date == Some(key) then rest else rest + [last]
  }

  /** Each kept entry keeps its number of copies. */
  lemma {:induction false} WithoutDateCounts(entries: seq<Point>, key: string, e: Point)
    ensures multiset(WithoutDate(entries, key))[e] == if e.date == Some(key) then 0 else multiset(entries)[e]
  {
    if entries != [] {
      var init, last := entries[..|entries| - 1], entries[|entries| - 1];
      WithoutDateCounts(init, key, e);
      assert entries == init + [last];
      assert multiset(entries) == multiset(init) + multiset{last};
    }
  }

  /**
   * The filter keeps the order of the entries: filtering a concatenation
   * concatenates the filtered parts.
   */
  lemma {:induction false} WithoutDateAppend(a: seq<Point>, b: seq<Point>, key: string)
    ensures WithoutDate(a + b, key) == WithoutDate(a, key) + WithoutDate(b, key)
    decreases |b|
  {
    if b == [] {
      assert a + b == a;
    } else {
      var init, last := b[..|b| - 1], b[|b| - 1];
      assert (a + b)[..|a + b| - 1] == a + init;
      assert (a + b)[|a + b| - 1] == last;
      WithoutDateAppend(a, init, key);
      var kept := if last.date == Some(key) then [] else [last];
      assert WithoutDate(b, key) == WithoutDate(init, key) + kept;
      assert WithoutDate(a + b, key) == WithoutDate(a + init, key) + kept;
      var x, y := WithoutDate(a, key), WithoutDate(init, key);
      assert (x + y) + kept == x + (y + kept);
    }
  }

  /** A single entry is kept exactly when its date differs. */
  lemma WithoutDateSingle(e: Point, key: string)
    ensures WithoutDate([e], key) == if e.date == Some(key) then [] else [e]
  {
    assert [e][..0] == [];
  }


  /** Replaces any entry with the point's date by the point, appended last. */
  function Upsert(entries: seq<Point>, p: Point): (r: seq<Point>)
    ensures 1 <= |r| <= |entries| + 1 && r[|r| - 1] == p
    ensures forall i :: 0 <= i < |r| - 1 ==> r[i].date != Some(p.date.GetOr(""))
    ensures forall e :: e in r[..|r| - 1] <==> e in entries && e.date != Some(p.date.GetOr(""))
  {
    var kept := WithoutDate(entries, p.date.GetOr(""));
    assert (kept + [p])[..|kept|] == kept;
    kept + [p]
  }

  /** One iteration of `store_data`: the point's partition is upserted, nothing else changes. */
  function StoreOne(disk: Disk, p: Point, today: string): (d: Disk)
    ensures PartitionOf(p, today) in d
    ensures d[PartitionOf(p, today)] == Entries(Upsert(Existing(disk, PartitionOf(p, today)), p))
    ensures forall q :: q != PartitionOf(p, today) ==> (q in d <==> q in disk) && (q in disk ==> d[q] == disk[q])
  {
    var path := PartitionOf(p, today);
    disk[path := Entries(Upsert(Existing(disk, path), p))]
  }

  /** `store_data`: the points are stored one after the other, in order. */
  function StoreAll(disk: Disk, points: seq<Point>, today: string): Disk {
    if points == [] then disk
    else StoreOne(StoreAll(disk, points[..|points| - 1], today), points[|points| - 1], today)
  }

  lemma StoreAllStep(disk: Disk, points: seq<Point>, k: nat, today: string)
    requires k < |points|
    ensures StoreAll(disk, points[..k + 1], today) == StoreOne(StoreAll(disk, points[..k], today), points[k], today)
  {
    var pre := points[..k + 1];
    assert pre[..|pre| - 1] == points[..k] && pre[|pre| - 1] == points[k];
  }

  // ---------------------------------------------------------------------
  // Properties of routing and upsert
  // ---------------------------------------------------------------------

  /** A single segment other than "." is already clean. */
  lemma CleanPathPlain(s: string)
    requires '/' !in s && s != "."
    ensures CleanPath(s) == s
  {
    assert IndexOf(s, '/') == |s|;
  }

  /** Joining is associative. */
  lemma JoinPathAssoc(x: string, y: string, z: string)
    ensures JoinPath(x, JoinPath(y, z)) == JoinPath(JoinPath(x, y), z)
  {
    if x != "" && y != "" && z != "" {
      assert x + "/" + (y + "/" + z) == (x + "/" + y) + "/" + z;
    }
  }

  /** Cleaning a path whose first segment is `seg`: that segment is cleaned apart from the rest. */
  lemma CleanPathFirst(seg: string, t: string)
    requires '/' !in seg
    ensures CleanPath(seg + "/" + t) == JoinPath(CleanPath(seg), CleanPath(t))
  {
    var s := seg + "/" + t;
    IndexOfAfter(seg, '/', t);
    assert s[..|seg|] == seg && s[|seg| + 1..] == t;
    if seg != "." {
      CleanPathPlain(seg);
    }
  }

  /** Cleaning distributes over a '/': the two sides are cleaned apart and joined. */
  lemma {:induction false} CleanPathJoin(a: string, b: string)
    ensures CleanPath(a + "/" + b) == JoinPath(CleanPath(a), CleanPath(b))
    decreases |a|
  {
    var i := IndexOf(a, '/');
    if i == |a| {
      CleanPathFirst(a, b);
    } else {
      var a1, a2 := a[..i], a[i + 1..];
      assert a == a1 + "/" + a2;
      assert a + "/" + b == a1 + "/" + (a2 + "/" + b);
      CleanPathFirst(a1, a2 + "/" + b);
      CleanPathFirst(a1, a2);
      CleanPathJoin(a2, b);
      JoinPathAssoc(CleanPath(a1), CleanPath(a2), CleanPath(b));
    }
  }

  /** A cleaned path is clean: cleaning twice changes nothing. */
  lemma {:induction false} CleanPathClean(s: string)
    ensures CleanPath(CleanPath(s)) == CleanPath(s)
    decreases |s|
  {
    var i := IndexOf(s, '/');
    if i == |s| {
      if s != "." {
        CleanPathPlain(s);
      }
    } else {
      var seg, rest := s[..i], CleanPath(s[i + 1..]);
      CleanPathClean(s[i + 1..]);
      if seg != "" && seg != "." {
        CleanPathPlain(seg);
        if rest != "" {
          CleanPathJoin(seg, rest);
        }
      }
    }
  }

  /** A "./" in front names the same file. */
  lemma CleanPathDropsDot(s: string)
    ensures CleanPath("./" + s) == CleanPath(s)
  {
    assert "./" + s == "." + "/" + s;
    CleanPathFirst(".", s);
  }

  /** A name ending in ".json" keeps its last segment, so it never cleans to nothing. */
  lemma {:induction false} CleanJsonName(s: string)
    requires EndsWith(s, ".json")
    ensures CleanPath(s) != ""
    decreases |s|
  {
    var i := IndexOf(s, '/');
    if i < |s| {
      assert i < |s| - 5;
      var t := s[i + 1..];
      assert t[|t| - 5..] == s[|s| - 5..];
      CleanJsonName(t);
    }
  }

  /** A point with a well-formed date goes to `<source dir>/<YYYY-MM>.json` and is read back from there. */
  lemma RoutingOfValidDate(p: Point, today: string, d: Date)
    requires p.date == Some(FormatYmd(d)) && ValidDate(d)
    ensures PartitionOf(p, today) == Path(Lower(p.source.GetOr("unknown")), FormatYm(d.year, d.month) + ".json")
    ensures IsJsonName(PartitionOf(p, today).name) && Stem(PartitionOf(p, today).name) == FormatYm(d.year, d.month)
  {
    StrptimeFormatYmd(d);
    var y, m := FormatInt(d.year, 4), FormatInt(d.month, 2);
    assert '/' !in y && '/' !in m;
    var key := y + "-" + m;
    assert key == FormatYm(d.year, d.month);
    assert '/' !in key;
    var name := key + ".json";
    assert '/' !in name && name[0] != '/';
    CleanPathPlain(name);
    assert name == PartitionOf(p, today).name;
  }

  /**
   * A point whose unparsed date has a '/' among its first seven characters,
   * after a part that does not clean away, is written into a subdirectory:
   * `get_data` and the manifest never read it.  (A ".." segment is not
   * resolved by the model, so such keys are left aside.)
   */
  lemma SubdirectoryIsNeverRead(p: Point, today: string, i: nat)
    requires StrptimeYmd(p.date.GetOr(today)).None?
    requires var date := p.date.GetOr(today); var key := date[..Min(7, |date|)];
      i < |key| && key[i] == '/' && CleanPath(key[..i]) != "" && ".." !in Split(key, '/')
    ensures !IsJsonName(PartitionOf(p, today).name)
  {
    var date := p.date.GetOr(today);
    var key := date[..Min(7, |date|)];
    assert PartitionOf(p, today).name == CleanPath(key + ".json");
    SubdirectoryName(key, i);
  }

  /** A '/' after a part that does not clean away survives the clean-up. */
  lemma SubdirectoryName(key: string, i: nat)
    requires i < |key| && key[i] == '/' && CleanPath(key[..i]) != ""
    ensures '/' in CleanPath(key + ".json")
  {
    CutAtSlash(key, i);
    SlashSurvives(key[..i], key[i + 1..] + ".json");
  }

  lemma CutAtSlash(key: string, i: nat)
    requires i < |key| && key[i] == '/'
    ensures key + ".json" == key[..i] + "/" + (key[i + 1..] + ".json")
    ensures EndsWith(key[i + 1..] + ".json", ".json")
  {
    assert key[i..] == "/" + key[i + 1..];
    assert key == key[..i] + key[i..];
  }

  lemma SlashSurvives(a: string, b: string)
    requires CleanPath(a) != "" && EndsWith(b, ".json")
    ensures '/' in CleanPath(a + "/" + b)
  {
    CleanPathJoin(a, b);
    CleanJsonName(b);
    var x, y := CleanPath(a), CleanPath(b);
    assert (x + "/" + y)[|x|] == '/';
  }

  /**
   * A point whose date does not parse goes to the file named by its first
   * seven characters, cleaned as pathlib cleans a path.
   */
  lemma RoutingOfOtherDate(p: Point, today: string)
    requires StrptimeYmd(p.date.GetOr(today)).None?
    ensures var date := p.date.GetOr(today);
      PartitionOf(p, today).name == CleanPath(date[..Min(7, |date|)] + ".json")
  {
  }

  /**
   * A point whose date is the empty string is written to a file named
   * ".json", whose suffix is empty: `get_data` and the manifest never read it.
   */
  lemma EmptyDateIsNeverRead(p: Point, today: string)
    requires p.date == Some("")
    ensures !IsJsonName(PartitionOf(p, today).name)
  {
  }

  /** After an upsert the point is last and is the only entry with its date; the others keep their order. */
  lemma UpsertPlacesPointLast(entries: seq<Point>, p: Point, key: string)
    requires p.date == Some(key)
    ensures var r := Upsert(entries, p);
      && r[|r| - 1] == p
      && (forall i :: 0 <= i < |r| - 1 ==> r[i].date != Some(key))
      && r[..|r| - 1] == WithoutDate(entries, key)
  {
    var r := Upsert(entries, p);
    assert r[..|r| - 1] == WithoutDate(entries, key);
    forall i | 0 <= i < |r| - 1 ensures r[i].date != Some(key) {
      assert r[i] in WithoutDate(entries, key);
    }
  }

  lemma {:induction false} WithoutDateTwice(entries: seq<Point>, key: string)
    ensures WithoutDate(WithoutDate(entries, key), key) == WithoutDate(entries, key)
  {
    if entries != [] {
      var init := entries[..|entries| - 1];
      WithoutDateTwice(init, key);
      var w := WithoutDate(init, key);
      var last := entries[|entries| - 1];
      if last.date != Some(key) {
        assert (w + [last])[..|w + [last]| - 1] == w;
      }
    }
  }

  lemma WithoutDateAppendSame(entries: seq<Point>, p: Point, key: string)
    requires p.date == Some(key)
    ensures WithoutDate(entries + [p], key) == WithoutDate(entries, key)
  {
    assert (entries + [p])[..|entries + [p]| - 1] == entries;
  }

  /** Storing the same dated point twice leaves its partition as storing it once. */
  lemma UpsertIdempotent(entries: seq<Point>, p: Point)
    requires p.date.Some?
    ensures Upsert(Upsert(entries, p), p) == Upsert(entries, p)
  {
    var key := p.date.value;
    WithoutDateAppendSame(WithoutDate(entries, key), p, key);
    WithoutDateTwice(entries, key);
  }

  /** A second point with the same date replaces the first one. */
  lemma UpsertReplaces(entries: seq<Point>, p: Point, q: Point)
    requires p.date.Some? && q.date == p.date
    ensures Upsert(Upsert(entries, p), q) == Upsert(entries, q)
  {
    var key := p.date.value;
    WithoutDateAppendSame(WithoutDate(entries, key), p, key);
    WithoutDateTwice(entries, key);
  }

  /**
   * A point with no `date` key is upserted under the key "" while it is
   * itself kept, so storing it twice leaves two copies.
   */
  lemma UpsertDatelessKeepsCopies(entries: seq<Point>, p: Point)
    requires p.date.None?
    ensures Upsert(Upsert(entries, p), p) == Upsert(entries, p) + [p]
  {
    var w := WithoutDate(entries, "");
    assert (w + [p])[..|w + [p]| - 1] == w;
    WithoutDateTwice(entries, "");
  }

  /** A partition file that is missing and one that does not decode are upserted alike. */
  lemma CorruptReadsAsEmpty(disk: Disk, p: Point, today: string)
    requires PartitionOf(p, today) !in disk || disk[PartitionOf(p, today)].Corrupt?
    ensures StoreOne(disk, p, today)[PartitionOf(p, today)] == Entries([p])
  {
  }

  /** No two entries of a partition share a date. */
  predicate DatesDistinct(entries: seq<Point>) {
    forall i, j :: 0 <= i < j < |entries| && entries[i].date.Some? ==> entries[i].date != entries[j].date
  }

  predicate PartitionsDatesDistinct(disk: Disk) {
    forall q :: q in disk && disk[q].Entries? ==> DatesDistinct(disk[q].entries)
  }

  lemma {:induction false} WithoutDateSubsequence(entries: seq<Point>, key: string)
    requires DatesDistinct(entries)
    ensures DatesDistinct(WithoutDate(entries, key))
  {
    if entries != [] {
      var init := entries[..|entries| - 1];
      assert DatesDistinct(init);
      WithoutDateSubsequence(init, key);
      var w := WithoutDate(init, key);
      var last := entries[|entries| - 1];
      if last.date != Some(key) {
        forall i | 0 <= i < |w| && w[i].date.Some? ensures w[i].date != last.date {
          assert w[i] in init;
        }
      }
    }
  }

  /** Upserting a dated point keeps the dates of a partition distinct. */
  lemma UpsertKeepsDatesDistinct(entries: seq<Point>, p: Point)
    requires DatesDistinct(entries) && p.date.Some?
    ensures DatesDistinct(Upsert(entries, p))
  {
    var key := p.date.value;
    WithoutDateSubsequence(entries, key);
    var w := WithoutDate(entries, key);
    forall i | 0 <= i < |w| ensures w[i].date != Some(key) {
      assert w[i] in w;
    }
  }

  /** Storing dated points keeps every partition free of duplicate dates. */
  lemma {:induction false} StoreAllKeepsDatesDistinct(disk: Disk, points: seq<Point>, today: string)
    requires PartitionsDatesDistinct(disk)
    requires forall p :: p in points ==> p.date.Some?
    ensures PartitionsDatesDistinct(StoreAll(disk, points, today))
  {
    if points != [] {
      var init := points[..|points| - 1];
      var p := points[|points| - 1];
      assert forall x :: x in init ==> x in points;
      StoreAllKeepsDatesDistinct(disk, init, today);
      var d := StoreAll(disk, init, today);
      var path := PartitionOf(p, today);
      UpsertKeepsDatesDistinct(Existing(d, path), p);
    }
  }

  /**
   * Every file name is a cleaned path relative to its directory, as the
   * file system names files: no empty or "." segment.
   */
  predicate NamesClean(disk: Disk) {
    forall q :: q in disk ==> CleanPath(q.name) == q.name
  }

  /** `store_data` only creates files under cleaned names. */
  lemma {:induction false} StoreAllKeepsNamesClean(disk: Disk, points: seq<Point>, today: string)
    requires NamesClean(disk)
    ensures NamesClean(StoreAll(disk, points, today))
  {
    if points != [] {
      var p := points[|points| - 1];
      StoreAllKeepsNamesClean(disk, points[..|points| - 1], today);
      CleanPathClean(PartitionKey(p.date.GetOr(today)) + ".json");
    }
  }

  /** Files outside the partitions of the stored points are untouched. */
  lemma {:induction false} StoreAllFrame(disk: Disk, points: seq<Point>, today: string, q: Path)
    requires forall p :: p in points ==> PartitionOf(p, today) != q
    ensures var d := StoreAll(disk, points, today); (q in d <==> q in disk) && (q in disk ==> d[q] == disk[q])
  {
    if points != [] {
      assert forall x :: x in points[..|points| - 1] ==> x in points;
      StoreAllFrame(disk, points[..|points| - 1], today, q);
    }
  }

  // ---------------------------------------------------------------------
  // Reading back: get_data
  // ---------------------------------------------------------------------

  ghost function SetToSeq(s: set<string>): (r: seq<string>)
    ensures forall y :: y in r <==> y in s
  {
    if s == {} then [] else var x :| x in s; [x] + SetToSeq(s - {x})
  }

  /** `sorted()` of a set of strings. */
  ghost function SortedSet(s: set<string>): (r: seq<string>)
    ensures StrictlySorted(r)
    ensures forall y :: y in r <==> y in s
  {
    SortedDistinct(SetToSeq(s))
  }

  /** The ".json" files of a directory. */
  function JsonNames(disk: Disk, dir: string): (names: set<string>)
    ensures forall n :: n in names <==> Path(dir, n) in disk && IsJsonName(n)
  {
    set q | q in disk && q.dir == dir && IsJsonName(q.name) :: q.name
  }

  /** The entries of each named file of `dir`; a missing or undecodable file gives none. */
  function FileEntries(disk: Disk, dir: string, names: seq<string>): (r: seq<seq<Point>>)
    ensures |r| == |names| && forall k :: 0 <= k < |names| ==> r[k] == Existing(disk, Path(dir, names[k]))
  {
    seq(|names|, k requires 0 <= k < |names| => Existing(disk, Path(dir, names[k])))
  }

  /** The entries of the named files of `dir`, file after file. */
  function LoadNames(disk: Disk, dir: string, names: seq<string>): seq<Point> {
    Flatten(FileEntries(disk, dir, names))
  }

  /** All points of one directory, its ".json" files read in name order. */
  ghost function LoadDir(disk: Disk, dir: string): seq<Point> {
    LoadNames(disk, dir, SortedSet(JsonNames(disk, dir)))
  }

  ghost function DirEntries(disk: Disk, dirs: seq<string>): (r: seq<seq<Point>>)
    ensures |r| == |dirs| && forall k :: 0 <= k < |dirs| ==> r[k] == LoadDir(disk, dirs[k])
  {
    seq(|dirs|, k requires 0 <= k < |dirs| => LoadDir(disk, dirs[k]))
  }

  /** The directories' points, directory after directory. */
  ghost function LoadDirs(disk: Disk, dirs: seq<string>): seq<Point> {
    Flatten(DirEntries(disk, dirs))
  }

  /** The directories `get_data` reads: the lower-cased source id, or all six. */
  function DirsToRead(sourceId: Option<string>): (dirs: seq<string>)
    ensures Given(sourceId) ==> dirs == [Lower(sourceId.value)]
    ensures !Given(sourceId) ==> dirs == KnownDirs()
  {
    if Given(sourceId) then [Lower(sourceId.value)] else KnownDirs()
  }

  /** Whether a point passes the date window; a date that does not parse always passes. */
  predicate InWindow(p: Point, start: Option<Date>, end: Option<Date>) {
    match StrptimeYmd(p.date.GetOr(""))
    case None => true
    case Some(d) => !(start.Some? && DateLt(d, start.value)) && !(end.Some? && DateLt(end.value, d))
  }

  /** The points that pass the window, in their order. */
  function Window(data: seq<Point>, start: Option<Date>, end: Option<Date>): (r: seq<Point>)
    ensures forall p :: p in r <==> p in data && InWindow(p, start, end)
    ensures |r| <= |data|
  {
    if data == [] then []
    else
      var rest := Window(data[..|data| - 1], start, end);
      var last := data[|data| - 1];
      assert data == data[..|data| - 1] + [last];
      if InWindow(last, start, end) then rest + [last] else rest
  }

  /** A bound given as text: absent or empty means no bound; unparsable text raises `ValueError`. */
  function ParseBound(s: Option<string>): (r: Outcome<Option<Date>>)
    ensures !Given(s) ==> r == Returned(None)
    ensures Given(s) ==> (r.Returned? <==> StrptimeYmd(s.value).Some?)
    ensures Given(s) && r.Returned? ==> r.value == StrptimeYmd(s.value)
  {
    if !Given(s) then Returned(None)
    else match StrptimeYmd(s.value)
      case Some(d) => Returned(Some(d))
      case None => Raised(ValueError)
  }

  /** `get_data`: the stored points of the chosen directories, then the date window. */
  ghost function Query(disk: Disk, sourceId: Option<string>, start: Option<string>, end: Option<string>): Outcome<seq<Point>> {
    var data := LoadDirs(disk, DirsToRead(sourceId));
    if !Given(start) && !Given(end) then Returned(data)
    else
      match (ParseBound(start), ParseBound(end))
      case (Returned(s), Returned(e)) => Returned(Window(data, s, e))
      case _ => Raised(ValueError)
  }

  /** Every point of every ".json" file of the directory is read, and nothing else. */
  lemma LoadDirContents(disk: Disk, dir: string, p: Point)
    ensures p in LoadDir(disk, dir) <==>
      exists n :: Path(dir, n) in disk && IsJsonName(n) && disk[Path(dir, n)].Entries? && p in disk[Path(dir, n)].entries
  {
    var names := SortedSet(JsonNames(disk, dir));
    var files := FileEntries(disk, dir, names);
    FlattenContents(files, p);
    if p in LoadDir(disk, dir) {
      var k :| 0 <= k < |names| && p in files[k];
      assert names[k] in JsonNames(disk, dir);
    }
    if exists n :: Path(dir, n) in disk && IsJsonName(n) && disk[Path(dir, n)].Entries? && p in disk[Path(dir, n)].entries {
      var n :| Path(dir, n) in disk && IsJsonName(n) && disk[Path(dir, n)].Entries? && p in disk[Path(dir, n)].entries;
      assert n in names;
      var k :| 0 <= k < |names| && names[k] == n;
      assert p in files[k];
    }
  }

  lemma LoadDirsContents(disk: Disk, dirs: seq<string>, p: Point)
    ensures p in LoadDirs(disk, dirs) <==> exists k :: 0 <= k < |dirs| && p in LoadDir(disk, dirs[k])
  {
    FlattenContents(DirEntries(disk, dirs), p);
  }

  /** With no bounds `get_data` returns every stored point of the six directories. */
  lemma QueryAllReturnsEverything(disk: Disk, p: Point)
    ensures Query(disk, None, None, None).Returned?
    ensures p in Query(disk, None, None, None).value <==>
      exists q :: q in disk && q.dir in KnownDirs() && IsJsonName(q.name) && disk[q].Entries? && p in disk[q].entries
  {
    LoadDirsContents(disk, KnownDirs(), p);
    if p in Query(disk, None, None, None).value {
      var k :| 0 <= k < 6 && p in LoadDir(disk, KnownDirs()[k]);
      LoadDirContents(disk, KnownDirs()[k], p);
    }
    if exists q :: q in disk && q.dir in KnownDirs() && IsJsonName(q.name) && disk[q].Entries? && p in disk[q].entries {
      var q :| q in disk && q.dir in KnownDirs() && IsJsonName(q.name) && disk[q].Entries? && p in disk[q].entries;
      var k :| 0 <= k < 6 && KnownDirs()[k] == q.dir;
      LoadDirContents(disk, q.dir, p);
    }
  }

  /**
   * With a bound given, `get_data` keeps exactly the read points whose date
   * lies in [start, end], and every point whose date does not parse; a
   * given bound that does not parse raises `ValueError`.
   */
  lemma QueryWindow(disk: Disk, sourceId: Option<string>, start: Option<string>, end: Option<string>, p: Point)
    requires Given(start) || Given(end)
    ensures Query(disk, sourceId, start, end).Returned? <==>
      (!Given(start) || StrptimeYmd(start.value).Some?) && (!Given(end) || StrptimeYmd(end.value).Some?)
    ensures Query(disk, sourceId, start, end).Returned? ==>
      (p in Query(disk, sourceId, start, end).value <==>
        p in LoadDirs(disk, DirsToRead(sourceId)) &&
        match StrptimeYmd(p.date.GetOr(""))
        case None => true
        case Some(d) =>
          (Given(start) ==> DateLe(StrptimeYmd(start.value).value, d)) &&
          (Given(end) ==> DateLe(d, StrptimeYmd(end.value).value)))
  {
    var data := LoadDirs(disk, DirsToRead(sourceId));
    var bounds := (ParseBound(start), ParseBound(end));
    if bounds.0.Returned? && bounds.1.Returned? {
      assert Query(disk, sourceId, start, end) == Returned(Window(data, bounds.0.value, bounds.1.value));
      var pd := StrptimeYmd(p.date.GetOr(""));
      if pd.Some? {
        if Given(start) {
          DateLeNotLt(StrptimeYmd(start.value).value, pd.value);
        }
        if Given(end) {
          DateLeNotLt(pd.value, StrptimeYmd(end.value).value);
        }
      }
    } else {
      assert Query(disk, sourceId, start, end) == Raised(ValueError);
    }
  }

  // ---------------------------------------------------------------------
  // manifest.json
  // ---------------------------------------------------------------------

  datatype ManifestEntry = ManifestEntry(meta: SourceMeta, files: seq<string>, from: string, to: string)

  datatype Manifest = Manifest(lastUpdated: string, sources: seq<ManifestEntry>)

  /** The stems of a directory's ".json" files. */
  function JsonStems(disk: Disk, dir: string): (stems: set<string>)
    ensures forall s :: s in stems <==> s != [] && '/' !in s && Path(dir, s + ".json") in disk
  {
    var stems := set q | q in disk && q.dir == dir && IsJsonName(q.name) :: Stem(q.name);
    assert forall s :: s != [] && '/' !in s && Path(dir, s + ".json") in disk ==> s in stems by {
      forall s | s != [] && '/' !in s && Path(dir, s + ".json") in disk ensures s in stems {
        var q := Path(dir, s + ".json");
        assert q.name[|q.name| - 5..] == ".json";
        assert q.name[..|q.name| - 5] == s;
      }
    }
    stems
  }

  /** The manifest entries for the given metadata, in order, skipping sources with no files. */
  ghost function ManifestEntries(disk: Disk, metas: seq<SourceMeta>): seq<ManifestEntry> {
    if metas == [] then []
    else
      var rest := ManifestEntries(disk, metas[..|metas| - 1]);
      var meta := metas[|metas| - 1];
      var files := SortedSet(JsonStems(disk, meta.Id()));
      if files == [] then rest else rest + [ManifestEntry(meta, files, files[0], files[|files| - 1])]
  }

  /** `generate_manifest` as a value. */
  ghost function BuildManifest(disk: Disk, lastUpdated: string): Manifest {
    Manifest(lastUpdated, ManifestEntries(disk, SourceMetadata()))
  }

  /**
   * A manifest entry lists its source's file stems sorted and without
   * repeats, and its date range runs from the first stem to the last,
   * which are the least and greatest.
   */
  ghost predicate EntryMatchesDisk(disk: Disk, e: ManifestEntry) {
    && e.files == SortedSet(JsonStems(disk, e.meta.Id()))
    && e.files != []
    && StrictlySorted(e.files)
    && e.from == e.files[0] && e.to == e.files[|e.files| - 1]
    && (forall f :: f in e.files ==> StrLe(e.from, f) && StrLe(f, e.to))
  }

  lemma NewEntryMatchesDisk(disk: Disk, meta: SourceMeta)
    requires SortedSet(JsonStems(disk, meta.Id())) != []
    ensures var files := SortedSet(JsonStems(disk, meta.Id()));
      EntryMatchesDisk(disk, ManifestEntry(meta, files, files[0], files[|files| - 1]))
  {
    SortedEnds(SortedSet(JsonStems(disk, meta.Id())));
  }

  /** Every entry belongs to one of the sources and matches its directory. */
  ghost predicate EntriesMatchDisk(disk: Disk, metas: seq<SourceMeta>, es: seq<ManifestEntry>) {
    && |es| <= |metas|
    && forall e :: e in es ==> e.meta in metas && EntryMatchesDisk(disk, e)
  }

  /** Each manifest entry belongs to a known source and matches its directory. */
  lemma {:induction false} ManifestEntriesShape(disk: Disk, metas: seq<SourceMeta>)
    ensures EntriesMatchDisk(disk, metas, ManifestEntries(disk, metas))
  {
    if metas != [] {
      var init := metas[..|metas| - 1];
      ManifestEntriesShape(disk, init);
      ManifestShapeStep(disk, init, metas[|metas| - 1]);
      assert init + [metas[|metas| - 1]] == metas;
    }
  }

  lemma ManifestShapeStep(disk: Disk, init: seq<SourceMeta>, meta: SourceMeta)
    requires EntriesMatchDisk(disk, init, ManifestEntries(disk, init))
    ensures EntriesMatchDisk(disk, init + [meta], ManifestEntries(disk, init + [meta]))
  {
    var metas := init + [meta];
    assert metas[..|metas| - 1] == init;
    var files := SortedSet(JsonStems(disk, meta.Id()));
    var before := ManifestEntries(disk, init);
    if files != [] {
      var entry := ManifestEntry(meta, files, files[0], files[|files| - 1]);
      assert ManifestEntries(disk, metas) == before + [entry];
      NewEntryMatchesDisk(disk, meta);
      EntriesMatchAppend(disk, init, meta, before, entry);
    } else {
      assert ManifestEntries(disk, metas) == before;
      EntriesMatchWiden(disk, init, meta, before);
    }
  }

  lemma EntriesMatchAppend(disk: Disk, init: seq<SourceMeta>, meta: SourceMeta, es: seq<ManifestEntry>, entry: ManifestEntry)
    requires EntriesMatchDisk(disk, init, es)
    requires entry.meta == meta && EntryMatchesDisk(disk, entry)
    ensures EntriesMatchDisk(disk, init + [meta], es + [entry])
  {
    forall e | e in es + [entry] ensures e.meta in init + [meta] && EntryMatchesDisk(disk, e) {
      if e != entry {
        assert e in es;
      }
    }
  }

  lemma EntriesMatchWiden(disk: Disk, init: seq<SourceMeta>, meta: SourceMeta, es: seq<ManifestEntry>)
    requires EntriesMatchDisk(disk, init, es)
    ensures EntriesMatchDisk(disk, init + [meta], es)
  {
    forall e | e in es ensures e.meta in init + [meta] {
    }
  }

  /** A source gets a manifest entry exactly when its directory holds a ".json" file with a stem. */
  lemma ManifestOmitsEmptySources(disk: Disk, metas: seq<SourceMeta>, m: SourceMeta)
    requires m in metas
    ensures (exists e :: e in ManifestEntries(disk, metas) && e.meta == m) <==> JsonStems(disk, m.Id()) != {}
  {
    ManifestEntriesShape(disk, metas);
    if JsonStems(disk, m.Id()) != {} {
      ManifestIncludes(disk, metas, m);
    }
  }

  lemma {:induction false} ManifestIncludes(disk: Disk, metas: seq<SourceMeta>, m: SourceMeta)
    requires m in metas && JsonStems(disk, m.Id()) != {}
    ensures exists e :: e in ManifestEntries(disk, metas) && e.meta == m
  {
    var init := metas[..|metas| - 1];
    if m == metas[|metas| - 1] {
      ManifestIncludesLast(disk, metas);
    } else {
      assert metas == init + [metas[|metas| - 1]];
      ManifestIncludes(disk, init, m);
      ManifestKeepsEarlier(disk, metas, m);
    }
  }

  lemma ManifestIncludesLast(disk: Disk, metas: seq<SourceMeta>)
    requires metas != [] && JsonStems(disk, metas[|metas| - 1].Id()) != {}
    ensures var es := ManifestEntries(disk, metas); es != [] && es[|es| - 1].meta == metas[|metas| - 1]
  {
    var meta := metas[|metas| - 1];
    var stems := JsonStems(disk, meta.Id());
    var files := SortedSet(stems);
    var s :| s in stems;
    assert s in files;
    var rest := ManifestEntries(disk, metas[..|metas| - 1]);
    assert ManifestEntries(disk, metas) == rest + [ManifestEntry(meta, files, files[0], files[|files| - 1])];
  }

  lemma ManifestKeepsEarlier(disk: Disk, metas: seq<SourceMeta>, m: SourceMeta)
    requires metas != []
    requires exists e :: e in ManifestEntries(disk, metas[..|metas| - 1]) && e.meta == m
    ensures exists e :: e in ManifestEntries(disk, metas) && e.meta == m
  {
    var rest := ManifestEntries(disk, metas[..|metas| - 1]);
    var es := ManifestEntries(disk, metas);
    var e :| e in rest && e.meta == m;
    assert es[..|rest|] == rest;
    var i :| 0 <= i < |rest| && rest[i] == e;
    assert es[i] == e;
  }



  // ---------------------------------------------------------------------
  // combined.json
  // ---------------------------------------------------------------------

  /** The sort key of `generate_combined`: (date, source), a missing one read as "". */
  function DateOf(p: Point): string { p.date.GetOr("") }

  function SourceOf(p: Point): string { p.source.GetOr("") }

  /** Tuple order on the sort key. */
  predicate KeyLe(a: Point, b: Point) {
    StrLt(DateOf(a), DateOf(b)) || (DateOf(a) == DateOf(b) && StrLe(SourceOf(a), SourceOf(b)))
  }

  predicate SortedByKey(s: seq<Point>) {
    forall i, j :: 0 <= i < j < |s| ==> KeyLe(s[i], s[j])
  }

  lemma KeyLeTransitive(a: Point, b: Point, c: Point)
    requires KeyLe(a, b) && KeyLe(b, c)
    ensures KeyLe(a, c)
  {
    if StrLt(DateOf(a), DateOf(b)) && StrLt(DateOf(b), DateOf(c)) {
      StrLtTransitive(DateOf(a), DateOf(b), DateOf(c));
    } else if DateOf(a) == DateOf(b) && DateOf(b) == DateOf(c) {
      StrLeTransitive(SourceOf(a), SourceOf(b), SourceOf(c));
    }
  }

  lemma KeyLeTotal(a: Point, b: Point)
    ensures KeyLe(a, b) || KeyLe(b, a)
  {
    StrLtTotal(DateOf(a), DateOf(b));
    StrLtTotal(SourceOf(a), SourceOf(b));
  }

  /** Puts `p` after every element whose key is not greater than its own. */
  function InsertByKey(p: Point, s: seq<Point>): (r: seq<Point>)
    requires SortedByKey(s)
    ensures SortedByKey(r)
    ensures multiset(r) == multiset(s) + multiset{p}
    decreases |s|
  {
    if s == [] then [p]
    else if KeyLe(s[|s| - 1], p) then
      assert forall i :: 0 <= i < |s| ==> KeyLe(s[i], p) by {
        forall i | 0 <= i < |s| ensures KeyLe(s[i], p) {
          if i < |s| - 1 { KeyLeTransitive(s[i], s[|s| - 1], p); }
        }
      }
      SortedAppend(s, p);
      s + [p]
    else
      KeyLeTotal(s[|s| - 1], p);
      var init := s[..|s| - 1];
      var last := s[|s| - 1];
      assert s == init + [last];
      var rest := InsertByKey(p, init);
      InsertedBelow(p, init, rest, last);
      SortedAppend(rest, last);
      rest + [last]
  }

  /** An element no smaller than every element of a sorted list can go last. */
  lemma SortedAppend(s: seq<Point>, x: Point)
    requires SortedByKey(s)
    requires forall i :: 0 <= i < |s| ==> KeyLe(s[i], x)
    ensures SortedByKey(s + [x])
  {
  }

  /** Inserting an element below `x` among elements below `x` leaves them all below `x`. */
  lemma InsertedBelow(p: Point, init: seq<Point>, r: seq<Point>, x: Point)
    requires multiset(r) == multiset(init) + multiset{p}
    requires KeyLe(p, x) && forall i :: 0 <= i < |init| ==> KeyLe(init[i], x)
    ensures forall i :: 0 <= i < |r| ==> KeyLe(r[i], x)
  {
    forall i | 0 <= i < |r| ensures KeyLe(r[i], x) {
      assert r[i] in multiset(r);
      if r[i] != p {
        assert r[i] in multiset(init);
        assert r[i] in init;
      }
    }
  }

  /** `list.sort(key=...)`: a stable sort by (date, source). */
  function SortByKey(s: seq<Point>): (r: seq<Point>)
    ensures SortedByKey(r)
    ensures multiset(r) == multiset(s)
  {
    if s == [] then []
    else
      assert s == s[..|s| - 1] + [s[|s| - 1]];
      InsertByKey(s[|s| - 1], SortByKey(s[..|s| - 1]))
  }

  datatype Combined = Combined(
    lastUpdated: string,
    sources: seq<string>,
    from: Option<string>,
    to: Option<string>,
    fields: seq<string>,
    data: seq<Point>)

  /** The share fields `combined.json` advertises. */
  function CombinedFields(): seq<string> {
    ["linux_share", "windows_share", "mac_share", "chromeos_share", "wsl_share", "other_share"]
  }

  function Dates(s: seq<Point>): (r: seq<string>)
    ensures |r| == |s| && forall i :: 0 <= i < |s| ==> r[i] == DateOf(s[i])
  {
    seq(|s|, i requires 0 <= i < |s| => DateOf(s[i]))
  }

  function Sources(s: seq<Point>): (r: seq<string>)
    ensures |r| == |s| && forall i :: 0 <= i < |s| ==> r[i] == SourceOf(s[i])
  {
    seq(|s|, i requires 0 <= i < |s| => SourceOf(s[i]))
  }

  lemma DatesContents(s: seq<Point>, d: string)
    ensures d in SortedDistinct(Dates(s)) <==> exists p :: p in s && DateOf(p) == d
  {
    if d in Dates(s) {
      var i :| 0 <= i < |s| && Dates(s)[i] == d;
      assert s[i] in s;
    }
  }

  lemma SourcesContents(s: seq<Point>, src: string)
    ensures src in SortedDistinct(Sources(s)) <==> exists p :: p in s && SourceOf(p) == src
  {
    if src in Sources(s) {
      var i :| 0 <= i < |s| && Sources(s)[i] == src;
      assert s[i] in s;
    }
  }

  /** `generate_combined` applied to the points `get_data()` returned. */
  function BuildCombined(all: seq<Point>, lastUpdated: string): (c: Combined)
    ensures SortedByKey(c.data) && multiset(c.data) == multiset(all)
    ensures StrictlySorted(c.sources)
    ensures c.fields == CombinedFields()
    ensures all == [] <==> c.from.None?
    ensures c.from.None? <==> c.to.None?
  {
    var data := SortByKey(all);
    var dates := SortedDistinct(Dates(data));
    assert |data| == |all| by {
      assert |multiset(data)| == |data| && |multiset(all)| == |all|;
    }
    assert data != [] ==> DateOf(data[0]) in Dates(data);
    Combined(lastUpdated, SortedDistinct(Sources(data)),
      if dates == [] then None else Some(dates[0]),
      if dates == [] then None else Some(dates[|dates| - 1]),
      CombinedFields(), data)
  }

  /** The combined sources are the distinct sources of the points. */
  lemma CombinedSources(all: seq<Point>, lastUpdated: string, src: string)
    ensures src in BuildCombined(all, lastUpdated).sources <==> exists p :: p in all && SourceOf(p) == src
  {
    var data := SortByKey(all);
    SameMembers(all, data);
    SourcesContents(data, src);
  }

  /** The combined date range runs from the least date to the greatest, both taken by some point. */
  lemma CombinedDateRange(all: seq<Point>, lastUpdated: string)
    requires all != []
    ensures var c := BuildCombined(all, lastUpdated);
      && (exists p :: p in all && DateOf(p) == c.from.value)
      && (exists p :: p in all && DateOf(p) == c.to.value)
      && (forall p :: p in all ==> StrLe(c.from.value, DateOf(p)) && StrLe(DateOf(p), c.to.value))
  {
    var c := BuildCombined(all, lastUpdated);
    var data := SortByKey(all);
    SameMembers(all, data);
    var dates := SortedDistinct(Dates(data));
    assert c.from == Some(dates[0]) && c.to == Some(dates[|dates| - 1]);
    SortedEnds(dates);
    DatesContents(data, dates[0]);
    DatesContents(data, dates[|dates| - 1]);
    forall p | p in all ensures StrLe(c.from.value, DateOf(p)) && StrLe(DateOf(p), c.to.value) {
      DatesContents(data, DateOf(p));
    }
  }

  /** `generate_combined` as a value over the store. */
  ghost function CombinedOf(disk: Disk, lastUpdated: string): Combined {
    BuildCombined(Query(disk, None, None, None).value, lastUpdated)
  }
}
