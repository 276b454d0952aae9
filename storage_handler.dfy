/**
 * `JSONStorageHandler`: the object that owns the data folder.  Its
 * methods walk the folder and rewrite files step by step; each is proved
 * to leave the folder (and the two generated files) as the value-level
 * definitions of module `Storage` say.
 */
module StorageHandler {
  import opened Wrappers
  import opened Text
  import opened Calendar
  import opened StringOrder
  import opened Points
  import opened Lists
  import opened Storage

  /** `sorted()` of a set of strings, built by inserting its elements one at a time. */
  method SortSet(s: set<string>) returns (r: seq<string>)
    ensures r == SortedSet(s)
  {
    r := [];
    var rest := s;
    while rest != {}
      invariant rest <= s
      invariant StrictlySorted(r)
      invariant forall y :: y in r <==> y in s && y !in rest
      decreases rest
    {
      var x :| x in rest;
      r := InsertUnique(x, r);
      rest := rest - {x};
    }
    SortedUnique(r, SortedSet(s));
  }

  lemma LoadNamesStep(disk: Disk, dir: string, names: seq<string>, j: nat)
    requires j < |names|
    ensures LoadNames(disk, dir, names[..j + 1]) == LoadNames(disk, dir, names[..j]) + Existing(disk, Path(dir, names[j]))
  {
    var xs := FileEntries(disk, dir, names);
    assert FileEntries(disk, dir, names[..j + 1]) == xs[..j + 1];
    assert FileEntries(disk, dir, names[..j]) == xs[..j];
    FlattenStep(xs, j);
  }

  lemma LoadDirsStep(disk: Disk, dirs: seq<string>, j: nat)
    requires j < |dirs|
    ensures LoadDirs(disk, dirs[..j + 1]) == LoadDirs(disk, dirs[..j]) + LoadDir(disk, dirs[j])
  {
    var xs := DirEntries(disk, dirs);
    assert DirEntries(disk, dirs[..j + 1]) == xs[..j + 1];
    assert DirEntries(disk, dirs[..j]) == xs[..j];
    FlattenStep(xs, j);
  }

  lemma WindowStep(data: seq<Point>, k: nat, start: Option<Date>, end: Option<Date>)
    requires k < |data|
    ensures Window(data[..k + 1], start, end) ==
      Window(data[..k], start, end) + (if InWindow(data[k], start, end) then [data[k]] else [])
  {
    assert data[..k + 1][..k] == data[..k];
  }

  lemma ManifestStep(disk: Disk, metas: seq<SourceMeta>, j: nat)
    requires j < |metas|
    ensures var files := SortedSet(JsonStems(disk, metas[j].Id()));
      ManifestEntries(disk, metas[..j + 1]) ==
        ManifestEntries(disk, metas[..j]) + (if files == [] then [] else [ManifestEntry(metas[j], files, files[0], files[|files| - 1])])
  {
    assert metas[..j + 1][..j] == metas[..j];
  }

  class JsonStorageHandler {
    /** The data folder: the six source directories and their files. */
    var files: Disk
    /** What `manifest.json` last received, if it has been written. */
    var manifest: Option<Manifest>
    /** What `combined.json` last received, if it has been written. */
    var combined: Option<Combined>

    /**
     * Opens the data folder.  Creating the six source directories adds no
     * file, so the folder's files are those it already held.
     */
    constructor(disk: Disk)
      ensures files == disk && manifest == None && combined == None
    {
      files := disk;
      manifest := None;
      combined := None;
    }

    /**
     * `store_data`: each point in turn is upserted into its month file;
     * `today` is the date used for a point without one.
     */
    method StoreData(points: seq<Point>, today: string)
      modifies this
      ensures files == StoreAll(old(files), points, today)
      ensures manifest == old(manifest) && combined == old(combined)
      ensures PartitionsDatesDistinct(old(files)) && (forall p :: p in points ==> p.date.Some?) ==>
        PartitionsDatesDistinct(files)
    {
      for k := 0 to |points|
        invariant files == StoreAll(old(files), points[..k], today)
        invariant manifest == old(manifest) && combined == old(combined)
      {
        StorePoint(points[k], today);
        StoreAllStep(old(files), points, k, today);
      }
      assert points[..|points|] == points;
      if PartitionsDatesDistinct(old(files)) && (forall p :: p in points ==> p.date.Some?) {
        StoreAllKeepsDatesDistinct(old(files), points, today);
      }
    }

    /** One turn of `store_data`: the point's month file is read, cleared of the point's date, and rewritten with the point last. */
    method StorePoint(point: Point, today: string)
      modifies this
      ensures files == StoreOne(old(files), point, today)
      ensures manifest == old(manifest) && combined == old(combined)
    {
      var path := PartitionOf(point, today);
      var existing := if path in files && files[path].Entries? then files[path].entries else [];
      var dateKey := point.date.GetOr("");
      existing := WithoutDate(existing, dateKey) + [point];
      files := files[path := Entries(existing)];
    }

    /** The points of one directory, its ".json" files read in name order. */
    method ReadDir(dir: string) returns (data: seq<Point>)
      ensures data == LoadDir(files, dir)
    {
      var names := SortSet(JsonNames(files, dir));
      data := [];
      for j := 0 to |names|
        invariant data == LoadNames(files, dir, names[..j])
      {
        var path := Path(dir, names[j]);
        if path in files && files[path].Entries? {
          data := data + files[path].entries;
        }
        LoadNamesStep(files, dir, names, j);
      }
      assert names[..|names|] == names;
    }

    /**
     * `get_data`: the points of the chosen directories, then, when a bound
     * is given, only those whose date lies within it (a point whose date
     * does not parse is kept).  A given bound that does not parse raises
     * `ValueError`.
     */
    method GetData(sourceId: Option<string>, start: Option<string>, end: Option<string>)
      returns (r: Outcome<seq<Point>>)
      ensures r == Query(files, sourceId, start, end)
    {
      var dirs := if Given(sourceId) then [Lower(sourceId.value)] else KnownDirs();
      var data := ReadDirs(dirs);
      if !Given(start) && !Given(end) {
        return Returned(data);
      }
      var startDate: Option<Date> := None;
      if Given(start) {
        var d := StrptimeYmd(start.value);
        if d.None? {
          return Raised(ValueError);
        }
        startDate := d;
      }
      var endDate: Option<Date> := None;
      if Given(end) {
        var d := StrptimeYmd(end.value);
        if d.None? {
          return Raised(ValueError);
        }
        endDate := d;
      }
      var filtered := FilterByDate(data, startDate, endDate);
      r := Returned(filtered);
    }

    /** The points of the directories, in their order. */
    method ReadDirs(dirs: seq<string>) returns (data: seq<Point>)
      ensures data == LoadDirs(files, dirs)
    {
      data := [];
      for j := 0 to |dirs|
        invariant data == LoadDirs(files, dirs[..j])
      {
        var part := ReadDir(dirs[j]);
        data := data + part;
        LoadDirsStep(files, dirs, j);
      }
      assert dirs[..|dirs|] == dirs;
    }

    /** The date filter of `get_data`: a point is kept unless its parsed date lies outside a given bound. */
    method FilterByDate(data: seq<Point>, startDate: Option<Date>, endDate: Option<Date>) returns (filtered: seq<Point>)
      ensures filtered == Window(data, startDate, endDate)
    {
      filtered := [];
      for k := 0 to |data|
        invariant filtered == Window(data[..k], startDate, endDate)
      {
        var item := data[k];
        WindowStep(data, k, startDate, endDate);
        match StrptimeYmd(item.date.GetOr("")) {
          case None =>
            filtered := filtered + [item];
          case Some(itemDate) =>
            if startDate.Some? && DateLt(itemDate, startDate.value) {
              continue;
            }
            if endDate.Some? && DateLt(endDate.value, itemDate) {
              continue;
            }
            filtered := filtered + [item];
        }
      }
      assert data[..|data|] == data;
    }

    /**
     * `generate_manifest`: one entry per known source with files, in
     * metadata order, listing its sorted file stems and their range.
     */
    method GenerateManifest(lastUpdated: string) returns (m: Manifest)
      modifies this
      ensures m == BuildManifest(old(files), lastUpdated)
      ensures manifest == Some(m)
      ensures files == old(files) && combined == old(combined)
    {
      var metas := SourceMetadata();
      var entries := [];
      for j := 0 to |metas|
        invariant files == old(files) && combined == old(combined)
        invariant entries == ManifestEntries(files, metas[..j])
      {
        var meta := metas[j];
        var stems := SortSet(JsonStems(files, meta.Id()));
        ManifestStep(files, metas, j);
        if stems != [] {
          entries := entries + [ManifestEntry(meta, stems, stems[0], stems[|stems| - 1])];
        }
      }
      assert metas[..|metas|] == metas;
      m := Manifest(lastUpdated, entries);
      manifest := Some(m);
    }

    /**
     * `generate_combined`: every stored point sorted by (date, source), the
     * sorted distinct sources, and the least and greatest date.
     */
    method GenerateCombined(lastUpdated: string) returns (c: Combined)
      modifies this
      ensures c == CombinedOf(old(files), lastUpdated)
      ensures combined == Some(c)
      ensures files == old(files) && manifest == old(manifest)
    {
      var all := GetData(None, None, None);
      c := CombineAll(all.value, lastUpdated);
      combined := Some(c);
    }
  }

  /** The body of `generate_combined` once the points are read: sort them, collect the sources and dates seen. */
  method CombineAll(all: seq<Point>, lastUpdated: string) returns (c: Combined)
    ensures c == BuildCombined(all, lastUpdated)
  {
    var data := SortByKey(all);
    var sourcesSeen := SortSet(set p | p in data :: SourceOf(p));
    var datesSeen := SortSet(set p | p in data :: DateOf(p));
    SeenIsSortedDistinct(data);
    CombinedBuiltFrom(all, lastUpdated, data, sourcesSeen, datesSeen);
    c := Combined(lastUpdated, sourcesSeen,
      if datesSeen == [] then None else Some(datesSeen[0]),
      if datesSeen == [] then None else Some(datesSeen[|datesSeen| - 1]),
      CombinedFields(), data);
  }

  /** A record assembled from the sorted points and their distinct sources and dates is the one `BuildCombined` makes. */
  lemma CombinedBuiltFrom(all: seq<Point>, lastUpdated: string, data: seq<Point>, sources: seq<string>, dates: seq<string>)
    requires data == SortByKey(all)
    requires sources == SortedDistinct(Sources(data)) && dates == SortedDistinct(Dates(data))
    ensures BuildCombined(all, lastUpdated) == Combined(lastUpdated, sources,
      if dates == [] then None else Some(dates[0]),
      if dates == [] then None else Some(dates[|dates| - 1]),
      CombinedFields(), data)
  {
  }

  /** The sorted sets of sources and dates are the lists `BuildCombined` derives. */
  lemma SeenIsSortedDistinct(data: seq<Point>)
    ensures SortedSet(set p | p in data :: SourceOf(p)) == SortedDistinct(Sources(data))
    ensures SortedSet(set p | p in data :: DateOf(p)) == SortedDistinct(Dates(data))
  {
    forall y ensures y in SortedSet(set p | p in data :: SourceOf(p)) <==> y in SortedDistinct(Sources(data)) {
      SourcesContents(data, y);
    }
    SortedUnique(SortedSet(set p | p in data :: SourceOf(p)), SortedDistinct(Sources(data)));
    forall y ensures y in SortedSet(set p | p in data :: DateOf(p)) <==> y in SortedDistinct(Dates(data)) {
      DatesContents(data, y);
    }
    SortedUnique(SortedSet(set p | p in data :: DateOf(p)), SortedDistinct(Dates(data)));
  }
}
