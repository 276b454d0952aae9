/**
 * The collection engine: it runs the registered adapters (all of them, or
 * those whose name matches a filter), stores what each returns, and
 * regenerates the manifest and the combined file from what is stored.
 *
 * Each adapter's `fetch_data` is modelled in the adapter's own module;
 * here it is what the engine sees of it: for an adapter and the date
 * bounds, a list of points or an exception.  The clock is a parameter as
 * well: the current date and the timestamps the regenerated files carry.
 */
module Engine {
  import opened Wrappers
  import opened Text
  import opened Calendar
  import opened Points
  import opened Storage
  import opened StorageHandler
  import Steam
  import StatCounter
  import Dap

  /** The adapters the engine registers, by class. */
  datatype Adapter = SteamAdapter | StatCounterAdapter | DapAdapter
  {
    /** The adapter's `name`, which is also the `source` of its points. */
    function Name(): string {
      match this
      case SteamAdapter => Steam.SourceName
      case StatCounterAdapter => StatCounter.SourceName
      case DapAdapter => Dap.SourceName
    }
  }

  /** `self.adapters`, in registration order. */
  const Registered: seq<Adapter> := [SteamAdapter, StatCounterAdapter, DapAdapter]

  /** What `adapter.fetch_data(start_date, end_date)` gives. */
  type Fetcher = (Adapter, Option<string>, Option<string>) -> Outcome<seq<Point>>

  /** The adapters' answers and the clock. */
  datatype World = World(fetch: Fetcher, now: Date, manifestStamp: string, combinedStamp: string)

  /** The adapter's name matches the filter, ignoring case. */
  predicate NameMatches(a: Adapter, source: string) {
    Lower(a.Name()) == Lower(source)
  }

  /** The adapters a filter selects, in list order. */
  function Selected(adapters: seq<Adapter>, source: string): seq<Adapter> {
    if adapters == [] then []
    else
      var rest := Selected(adapters[..|adapters| - 1], source);
      var a := adapters[|adapters| - 1];
      if NameMatches(a, source) then rest + [a] else rest
  }

  /**
   * The adapters that run: all of them without a filter (an empty filter
   * is none), otherwise those whose name matches it.
   */
  function Chosen(adapters: seq<Adapter>, source: Option<string>): seq<Adapter> {
    if Given(source) then Selected(adapters, source.value) else adapters
  }

  /**
   * A filter selects exactly the adapters whose name matches it, in their
   * order, and never more than there are.
   */
  lemma {:induction false} SelectedShape(adapters: seq<Adapter>, source: string)
    ensures |Selected(adapters, source)| <= |adapters|
    ensures forall a :: a in Selected(adapters, source) <==> a in adapters && NameMatches(a, source)
  {
    if adapters != [] {
      var init := adapters[..|adapters| - 1];
      SelectedShape(init, source);
      assert adapters == init + [adapters[|adapters| - 1]];
    }
  }

  /** The registered names, lower-cased, are "steam", "statcounter" and "dap". */
  lemma RegisteredLower()
    ensures Lower(SteamAdapter.Name()) == "steam"
    ensures Lower(StatCounterAdapter.Name()) == "statcounter"
    ensures Lower(DapAdapter.Name()) == "dap"
  {
    var s, c, d := Lower("Steam"), Lower("StatCounter"), Lower("DAP");
    assert s[0] == 's' && s[1] == 't' && s[2] == 'e' && s[3] == 'a' && s[4] == 'm';
    assert c[0] == 's' && c[4] == 'c' && c[5] == 'o' && c[6] == 'u' && c[7] == 'n' && c[8] == 't';
    assert c[1] == 't' && c[2] == 'a' && c[3] == 't' && c[9] == 'e' && c[10] == 'r';
    assert d[0] == 'd' && d[1] == 'a' && d[2] == 'p';
  }

  /**
   * Each registered adapter is selected alone by its own name in any case,
   * here its lower-case id; a name of no registered adapter, such as
   * "cloudflare", selects none.
   */
  lemma RegisteredSelection(source: string)
    ensures Lower(source) == "steam" ==> Selected(Registered, source) == [SteamAdapter]
    ensures Lower(source) == "statcounter" ==> Selected(Registered, source) == [StatCounterAdapter]
    ensures Lower(source) == "dap" ==> Selected(Registered, source) == [DapAdapter]
    ensures Lower(source) !in {"steam", "statcounter", "dap"} ==> Selected(Registered, source) == []
  {
    RegisteredLower();
    SelectedAppend([], SteamAdapter, source);
    SelectedAppend([SteamAdapter], StatCounterAdapter, source);
    SelectedAppend([SteamAdapter, StatCounterAdapter], DapAdapter, source);
    assert [] + [SteamAdapter] == [SteamAdapter];
    assert [SteamAdapter] + [StatCounterAdapter] == [SteamAdapter, StatCounterAdapter];
    assert [SteamAdapter, StatCounterAdapter] + [DapAdapter] == Registered;
  }

  lemma SelectedAppend(xs: seq<Adapter>, a: Adapter, source: string)
    ensures Selected(xs + [a], source) == if NameMatches(a, source) then Selected(xs, source) + [a] else Selected(xs, source)
  {
    assert (xs + [a])[..|xs|] == xs;
  }

  /** The filter names no adapter: `collect_data` returns at once. */
  predicate UnknownFilter(adapters: seq<Adapter>, source: Option<string>) {
    Given(source) && Selected(adapters, source.value) == []
  }

  /**
   * One turn of the adapter loop: the points are stored when the adapter
   * returns some; an empty result or an exception stores nothing.
   * `today` dates the points that carry no date.
   */
  function RunOne(disk: Disk, a: Adapter, fetch: Fetcher, start: Option<string>, end: Option<string>, today: string): Disk {
    match fetch(a, start, end)
    case Returned(points) => if points != [] then StoreAll(disk, points, today) else disk
    case Raised(_) => disk
  }

  /** The adapter loop over `adapters`, in order. */
  function Run(disk: Disk, adapters: seq<Adapter>, fetch: Fetcher, start: Option<string>, end: Option<string>, today: string): Disk {
    if adapters == [] then disk
    else RunOne(Run(disk, adapters[..|adapters| - 1], fetch, start, end, today), adapters[|adapters| - 1], fetch, start, end, today)
  }

  /** The adapter raises or returns nothing. */
  predicate Idle(fetch: Fetcher, a: Adapter, start: Option<string>, end: Option<string>) {
    fetch(a, start, end).Raised? || fetch(a, start, end) == Returned([])
  }

  /**
   * An adapter that raises or returns nothing leaves the data folder as it
   * was; otherwise every point it returns is stored.
   */
  lemma RunOneStores(disk: Disk, a: Adapter, fetch: Fetcher, start: Option<string>, end: Option<string>, today: string)
    ensures Idle(fetch, a, start, end) ==> RunOne(disk, a, fetch, start, end, today) == disk
    ensures !Idle(fetch, a, start, end) ==>
      RunOne(disk, a, fetch, start, end, today) == StoreAll(disk, fetch(a, start, end).value, today)
  {
  }

  lemma RunAppend(disk: Disk, xs: seq<Adapter>, a: Adapter, fetch: Fetcher, start: Option<string>, end: Option<string>, today: string)
    ensures Run(disk, xs + [a], fetch, start, end, today) == RunOne(Run(disk, xs, fetch, start, end, today), a, fetch, start, end, today)
  {
    assert (xs + [a])[..|xs|] == xs;
  }

  lemma RunPrefix(disk: Disk, xs: seq<Adapter>, k: nat, fetch: Fetcher, start: Option<string>, end: Option<string>, today: string)
    requires k < |xs|
    ensures Run(disk, xs[..k + 1], fetch, start, end, today) == RunOne(Run(disk, xs[..k], fetch, start, end, today), xs[k], fetch, start, end, today)
  {
    assert xs[..k + 1][..k] == xs[..k];
  }

  /**
   * An adapter that raises does not stop the ones after it: the loop
   * ends as if it had not been in the list.  The same holds for one that
   * returns nothing.
   */
  lemma {:induction false} FailureIsolated(disk: Disk, xs: seq<Adapter>, a: Adapter, ys: seq<Adapter>,
                                          fetch: Fetcher, start: Option<string>, end: Option<string>, today: string)
    requires Idle(fetch, a, start, end)
    ensures Run(disk, xs + [a] + ys, fetch, start, end, today) == Run(disk, xs + ys, fetch, start, end, today)
    decreases |ys|
  {
    if ys == [] {
      assert xs + [a] + ys == xs + [a];
      assert xs + ys == xs;
      RunAppend(disk, xs, a, fetch, start, end, today);
    } else {
      var init, last := ys[..|ys| - 1], ys[|ys| - 1];
      FailureIsolated(disk, xs, a, init, fetch, start, end, today);
      assert xs + [a] + ys == (xs + [a] + init) + [last];
      assert xs + ys == (xs + init) + [last];
      RunAppend(disk, xs + [a] + init, last, fetch, start, end, today);
      RunAppend(disk, xs + init, last, fetch, start, end, today);
    }
  }

  /** When every adapter raises or returns nothing, nothing is stored. */
  lemma {:induction false} NothingStored(disk: Disk, xs: seq<Adapter>, fetch: Fetcher, start: Option<string>, end: Option<string>, today: string)
    requires forall a :: a in xs ==> Idle(fetch, a, start, end)
    ensures Run(disk, xs, fetch, start, end, today) == disk
  {
    if xs != [] {
      var init := xs[..|xs| - 1];
      assert forall a :: a in init ==> a in xs;
      NothingStored(disk, init, fetch, start, end, today);
      assert Idle(fetch, xs[|xs| - 1], start, end);
    }
  }

  class MarketTrendsEngine {
    const adapters: seq<Adapter>
    const storage: JsonStorageHandler

    /** Registers Steam, StatCounter and DAP, in that order, over the data folder `disk`. */
    constructor(disk: Disk)
      ensures adapters == Registered && fresh(storage)
      ensures storage.files == disk && storage.manifest == None && storage.combined == None
    {
      adapters := Registered;
      storage := new JsonStorageHandler(disk);
    }

    /**
     * `collect_data`: a filter naming no adapter returns before anything
     * is stored or regenerated; otherwise each chosen adapter runs in
     * order, its non-empty result is stored, and the manifest and the
     * combined file are then regenerated from the data folder.
     */
    method CollectData(start: Option<string>, end: Option<string>, source: Option<string>, w: World)
      modifies storage
      ensures UnknownFilter(adapters, source) ==> unchanged(storage)
      ensures !UnknownFilter(adapters, source) ==>
        && storage.files == Run(old(storage.files), Chosen(adapters, source), w.fetch, start, end, FormatYmd(w.now))
        && storage.manifest == Some(BuildManifest(storage.files, w.manifestStamp))
        && storage.combined == Some(CombinedOf(storage.files, w.combinedStamp))
    {
      var chosen := adapters;
      if Given(source) {
        chosen := Selected(adapters, source.value);
        if chosen == [] {
          return;
        }
      }
      var today := FormatYmd(w.now);
      for k := 0 to |chosen|
        invariant storage.files == Run(old(storage.files), chosen[..k], w.fetch, start, end, today)
      {
        RunAdapter(chosen[k], start, end, w.fetch, today);
        RunPrefix(old(storage.files), chosen, k, w.fetch, start, end, today);
      }
      assert chosen[..|chosen|] == chosen;
      var m := storage.GenerateManifest(w.manifestStamp);
      var c := storage.GenerateCombined(w.combinedStamp);
    }

    /** One turn of the adapter loop: fetch, then store a non-empty result; an exception is caught. */
    method RunAdapter(a: Adapter, start: Option<string>, end: Option<string>, fetch: Fetcher, today: string)
      modifies storage
      ensures storage.files == RunOne(old(storage.files), a, fetch, start, end, today)
    {
      var data := fetch(a, start, end);
      if data.Returned? && data.value != [] {
        storage.StoreData(data.value, today);
      }
    }

    /** `get_data`: the stored points of one source or all, within the date bounds. */
    method GetData(sourceId: Option<string>, start: Option<string>, end: Option<string>)
      returns (r: Outcome<seq<Point>>)
      ensures r == Query(storage.files, sourceId, start, end)
    {
      r := storage.GetData(sourceId, start, end);
    }

    /** `rebuild_index`: regenerates both derived files from the stored data, fetching nothing. */
    method RebuildIndex(w: World)
      modifies storage
      ensures storage.files == old(storage.files)
      ensures storage.manifest == Some(BuildManifest(storage.files, w.manifestStamp))
      ensures storage.combined == Some(CombinedOf(storage.files, w.combinedStamp))
    {
      var m := storage.GenerateManifest(w.manifestStamp);
      var c := storage.GenerateCombined(w.combinedStamp);
    }
  }
}
