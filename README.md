# Linux Groove market trends: the ingestion pipeline in Dafny

This project models the data-collection core of trends.linuxgroove.com.
Six source adapters fetch operating-system market shares:

- Steam Hardware Survey
- StatCounter
- the US Digital Analytics Program (DAP)
- Cloudflare Radar
- the Stack Overflow developer survey
- the JetBrains developer survey

Each adapter turns what it fetches into uniform points through the base
adapter's `format_data`. The JSON storage handler files points in monthly
partitions, one directory per source, with an upsert by date. It answers
date-windowed queries and derives `manifest.json` and `combined.json`. The
collection engine runs the adapters, stores their non-empty results, and
regenerates both derived files.

Shares are integers in hundredths of a percent. The network is a function
from request (and attempt number) to reply, with bodies already decoded.
The clock is a parameter. A Python exception that escapes is the `Raised`
case of `Outcome`.

Code that loops and changes state is written as methods. The storage
handler and the engine are classes. Each method is proved equal to a
value-level definition, for example `Storage.StoreAll`, `Dap.Historical`
or `Steam.PageShares`. The lemmas then state the properties of those
definitions.

Modules:

| file | module | models |
|---|---|---|
| wrappers.dfy | `Wrappers` | Option, Outcome (a value or a Python exception), Min/Max |
| text.dfy | `Text` | the `str` methods the code uses: `lower`, `strip`, `split`, `in` |
| numbers.dfy | `Numbers` | `int()`, `float()` on decimal text, `f"{n:0Nd}"` |
| calendar.dfy | `Calendar` | `strptime`/`strftime` for `%Y-%m-%d` and `%Y-%m`, `calendar.monthrange`, month arithmetic |
| lists.dfy | `Lists` | concatenation of per-step results (`results.extend` in a loop) |
| order.dfy | `StringOrder` | Python's string order, `sorted()` of distinct strings |
| points.dfy | `Points` | raw and formatted data points, replies |
| base_adapter.dfy | `BaseAdapter` | `format_data`, `parse_date_range`, `get_month_range`, the year bounds |
| storage.dfy, storage_handler.dfy | `Storage`, `StorageHandler` | `JSONStorageHandler` and `SOURCE_METADATA` |
| steam.dfy | `Steam` | `SteamAdapter` |
| statcounter.dfy | `StatCounter` | `StatCounterAdapter` |
| dap.dfy | `Dap` | `DAPAdapter` |
| cloudflare.dfy | `Cloudflare` | `CloudflareAdapter` |
| stackoverflow.dfy | `StackOverflow` | `StackOverflowAdapter` |
| jetbrains.dfy | `JetBrains` | `JetBrainsAdapter` |
| engine.dfy | `Engine` | `MarketTrendsEngine` |

## Model

| member | source | states |
|---|---|---|
| BaseAdapter.BaseFetchData | src/adapters/base_adapter.py:11-18 | the base `fetch_data` always raises `NotImplementedError` |
| BaseAdapter.FormatItem | src/adapters/base_adapter.py:24-29 | a formatted point has the adapter's name as source; it takes the item's date or, when it has none, today's; its Linux share or 0; its details or `{}`; every other share is dropped |
| BaseAdapter.Formatted | src/adapters/base_adapter.py:20-31 | one formatted point per raw item, in the same order |
| BaseAdapter.FormatData | src/adapters/base_adapter.py:20-31 | the loop gives the points of `Formatted`, each carrying the adapter's name |
| BaseAdapter.ParseDateRange | src/adapters/base_adapter.py:33-38 | a parsed date is a valid calendar date and formats back to the text it was read from |
| BaseAdapter.GetMonthRange | src/adapters/base_adapter.py:40-54 | the two bounds are both present or both absent (`None, None` on `ValueError`) |
| BaseAdapter.MonthBounds | src/adapters/base_adapter.py:44-52 | the bounds exist exactly for years 1-9999 and months 1-12, minus December 9999, whose next month `datetime` cannot build |
| BaseAdapter.GetMonthRangeOfMonth | src/adapters/base_adapter.py:40-54 | for "YYYY-MM" the bounds are that month's first day and the next month's; December rolls over to January |
| BaseAdapter.GetMonthRangeParses | src/adapters/base_adapter.py:43 | the split and `int()` read back the year and month that "%Y-%m" wrote |
| BaseAdapter.MonthBoundsOfMonth | src/adapters/base_adapter.py:44-52 | the bounds of a valid month, with the December rollover |
| BaseAdapter.MonthBoundsConsecutive | src/adapters/base_adapter.py:44-52 | both bounds parse as dates on day 1, one month apart |
| BaseAdapter.GetMonthRangeConsecutive | src/adapters/base_adapter.py:40-54 | whenever the range exists, its bounds are two consecutive month starts |
| BaseAdapter.GetMonthRangeNeedsOneDash | src/adapters/base_adapter.py:43 | text without exactly one '-' unpacks into other than two parts, so it gives `(None, None)` |
| Storage.SourceMetadata | src/storage/json_storage_handler.py:8-64 | six sources, in declaration order |
| Storage.MetadataIds | src/storage/json_storage_handler.py:8-64 | the metadata keys are the six source directories, in the same order |
| Storage.SourceDir | src/storage/json_storage_handler.py:75-85 | the directory is the lower-cased display name; the mapping's six entries agree with that |
| Storage.PartitionKey | src/storage/json_storage_handler.py:93-97 | the key of a date that parses reads back with "%Y-%m" as that date's year and month; the key of any other text is its prefix of up to seven characters, exactly seven when the text has them |
| Storage.WithoutDate | src/storage/json_storage_handler.py:112-113 | keeps exactly the entries whose date differs from the key; an entry without a date is kept |
| Storage.WithoutDateCounts | src/storage/json_storage_handler.py:112-113 | each kept entry keeps its number of copies; entries with the key's date have none |
| Storage.WithoutDateAppend | src/storage/json_storage_handler.py:112-113 | the filter keeps order: filtering a concatenation concatenates the filtered parts |
| Storage.WithoutDateSingle | src/storage/json_storage_handler.py:112-113 | a single entry is kept exactly when its date differs from the key |
| Storage.Upsert | src/storage/json_storage_handler.py:111-114 | the point is last; no earlier entry has its date; the earlier entries are exactly the old entries with a different date; the partition grows by at most one |
| Storage.StoreOne | src/storage/json_storage_handler.py:89-117 | one point rewrites its partition file with the upserted entries; every other file is unchanged |
| Storage.RoutingOfValidDate | src/storage/json_storage_handler.py:90-100 | a point with a well-formed date goes to `<lower source>/<YYYY-MM>.json`, a ".json" file whose stem is that month |
| Storage.CleanPathPlain | src/storage/json_storage_handler.py:100 | pathlib leaves a single segment other than "." as it is |
| Storage.CleanPathFirst | src/storage/json_storage_handler.py:100 | the first segment of a path is cleaned apart from the rest and joined to it |
| Storage.CleanPathJoin | src/storage/json_storage_handler.py:100 | cleaning distributes over a '/': both sides are cleaned apart and joined, an empty side left out |
| Storage.CleanPathClean | src/storage/json_storage_handler.py:100 | a cleaned path is its own clean-up, so the same file is named once |
| Storage.CleanPathDropsDot | src/storage/json_storage_handler.py:100 | a "./" in front names the same file ("./2025-" and "2025-" are one partition) |
| Storage.CleanJsonName | src/storage/json_storage_handler.py:100 | a name ending in ".json" never cleans to nothing |
| Storage.RoutingOfOtherDate | src/storage/json_storage_handler.py:96-100 | a point whose date does not parse goes to the file named by its first seven characters plus ".json", cleaned as pathlib cleans it |
| Storage.SubdirectoryName | src/storage/json_storage_handler.py:96-100 | a '/' in the key after a part that does not clean away is still in the cleaned file name |
| Storage.SubdirectoryIsNeverRead | src/storage/json_storage_handler.py:96-129 | a point whose unparsed date has, among its first seven characters, a '/' after a part that does not clean away (and no ".." segment) is written into a subdirectory, which neither `get_data` nor the manifest reads |
| Storage.EmptyDateIsNeverRead | src/storage/json_storage_handler.py:97-100 | a point dated "" is written to ".json", which has no ".json" suffix, so no reader ever sees it |
| Storage.UpsertPlacesPointLast | src/storage/json_storage_handler.py:111-114 | after an upsert the point is last and is the only entry with its date; the others are `WithoutDate` of the old entries, which keeps their order |
| Storage.UpsertIdempotent | src/storage/json_storage_handler.py:111-114 | storing a dated point twice equals storing it once |
| Storage.UpsertReplaces | src/storage/json_storage_handler.py:111-114 | a later point with the same date replaces the earlier one |
| Storage.UpsertDatelessKeepsCopies | src/storage/json_storage_handler.py:112-114 | a point with no date is filtered by the key "" and is not removed, so storing it twice leaves two copies |
| Storage.CorruptReadsAsEmpty | src/storage/json_storage_handler.py:103-109 | a missing file and one that does not decode are both read as empty |
| Storage.UpsertKeepsDatesDistinct | src/storage/json_storage_handler.py:111-114 | upserting a dated point keeps the dates of a partition distinct |
| Storage.StoreAllKeepsDatesDistinct | src/storage/json_storage_handler.py:87-117 | storing dated points keeps every partition free of duplicate dates |
| Storage.StoreAllKeepsNamesClean | src/storage/json_storage_handler.py:87-117 | `store_data` creates files only under cleaned names, so a disk whose names are all cleaned stays so |
| Storage.StoreAllFrame | src/storage/json_storage_handler.py:87-117 | files outside the partitions of the stored points are untouched |
| Storage.SortedSet | src/storage/json_storage_handler.py:201-202 | `sorted()` of a set gives a strictly increasing list with the same members |
| Storage.JsonNames | src/storage/json_storage_handler.py:128-129 | the names read are exactly the directory's files whose name has a ".json" suffix and no '/'; file names are cleaned paths (`NamesClean`, which `store_data` keeps), so a name with a '/' is a file of a subdirectory, which `is_file()` rejects |
| Storage.DirsToRead | src/storage/json_storage_handler.py:121 | the lower-cased source id when one is given, otherwise the six directories |
| Storage.Window | src/storage/json_storage_handler.py:139-150 | keeps exactly the points inside the window, in order |
| Storage.ParseBound | src/storage/json_storage_handler.py:137-138 | an absent or empty bound is no bound; a given one is its parsed date, or `ValueError` when it does not parse |
| Storage.LoadDirContents | src/storage/json_storage_handler.py:124-134 | every point of every decodable ".json" file directly in the directory is read, and nothing else |
| Storage.QueryAllReturnsEverything | src/storage/json_storage_handler.py:119-152 | with no bounds `get_data` returns exactly the points stored in ".json" files directly in the six directories |
| Storage.QueryWindow | src/storage/json_storage_handler.py:136-150 | `get_data` raises exactly when a given bound does not parse; otherwise it keeps the read points dated inside [start, end] and every point whose date does not parse |
| Storage.JsonStems | src/storage/json_storage_handler.py:166-170 | the stems are exactly the non-empty, '/'-free stems of the ".json" files directly in the directory |
| Storage.ManifestEntriesShape | src/storage/json_storage_handler.py:161-181 | each manifest entry lists its source's sorted stems, bounded by the first and the last |
| Storage.ManifestOmitsEmptySources | src/storage/json_storage_handler.py:171-172 | a source has a manifest entry exactly when a ".json" file lies directly in its directory |
| Storage.InsertByKey | src/storage/json_storage_handler.py:198 | inserting into a sorted list keeps it sorted and adds exactly the point |
| Storage.SortByKey | src/storage/json_storage_handler.py:198 | sorted by (date, source) and a permutation of the input |
| Storage.BuildCombined | src/storage/json_storage_handler.py:195-215 | the data is the points sorted by (date, source), a permutation of them; the sources are strictly sorted; the fields are the six share names; the date range is absent exactly when there are no points |
| Storage.CombinedSources | src/storage/json_storage_handler.py:201 | the combined sources are exactly the distinct sources of the points |
| Storage.CombinedDateRange | src/storage/json_storage_handler.py:202-211 | the range runs from the least date to the greatest, and both bounds are the dates of some point |
| StorageHandler.SortSet | src/storage/json_storage_handler.py:201-202 | the loop builds `sorted()` of the set |
| StorageHandler.JsonStorageHandler.constructor | src/storage/json_storage_handler.py:70-73 | opens the folder with its files as they were; no derived file is written yet |
| StorageHandler.JsonStorageHandler.StoreData | src/storage/json_storage_handler.py:87-117 | the new files are `StoreAll` of the old files; the derived files are unchanged; partitions stay free of duplicate dates |
| StorageHandler.JsonStorageHandler.StorePoint | src/storage/json_storage_handler.py:89-117 | one turn of the loop is `StoreOne` |
| StorageHandler.JsonStorageHandler.ReadDir | src/storage/json_storage_handler.py:125-134 | the points of one directory, its files read in name order |
| StorageHandler.JsonStorageHandler.GetData | src/storage/json_storage_handler.py:119-152 | equals `Query`, whose properties are `QueryAllReturnsEverything` and `QueryWindow` |
| StorageHandler.JsonStorageHandler.ReadDirs | src/storage/json_storage_handler.py:124-134 | the points of the directories, in their order |
| StorageHandler.JsonStorageHandler.FilterByDate | src/storage/json_storage_handler.py:139-150 | the loop keeps what `Window` keeps |
| StorageHandler.JsonStorageHandler.GenerateManifest | src/storage/json_storage_handler.py:154-188 | the manifest is built from the stored files and recorded; the files are unchanged |
| StorageHandler.JsonStorageHandler.GenerateCombined | src/storage/json_storage_handler.py:190-222 | the combined record is `BuildCombined` of every stored point; the files are unchanged |
| StorageHandler.JsonStorageHandler.CombineAll | src/storage/json_storage_handler.py:198-215 | the sort and the seen-sets give `BuildCombined` |
| Engine.SelectedShape | src/core/engine.py:38 | the filter keeps exactly the adapters whose lower-cased name equals the lower-cased filter, in order |
| Engine.RegisteredLower | src/core/engine.py:14-18 | the registered adapters' names lower-case to "steam", "statcounter" and "dap" |
| Engine.RegisteredSelection | src/core/engine.py:36-41 | each registered id, in any case, selects its adapter alone; any other name, "cloudflare" among them, selects none |
| Engine.RunOneStores | src/core/engine.py:45-53 | an adapter that raises or returns nothing leaves the folder unchanged; otherwise all its points are stored |
| Engine.FailureIsolated | src/core/engine.py:43-53 | an adapter that raises or returns nothing does not affect the rest: the run ends as if it were absent |
| Engine.NothingStored | src/core/engine.py:43-53 | when every adapter raises or returns nothing, the folder is unchanged |
| Engine.MarketTrendsEngine.constructor | src/core/engine.py:13-19 | registers Steam, StatCounter and DAP in that order, over a fresh storage handler |
| Engine.MarketTrendsEngine.CollectData | src/core/engine.py:21-58 | a filter naming no adapter changes nothing; otherwise the folder is `Run` over the chosen adapters, and the manifest and combined record are rebuilt from the result |
| Engine.MarketTrendsEngine.RunAdapter | src/core/engine.py:44-53 | one turn of the adapter loop is `RunOne` |
| Engine.MarketTrendsEngine.GetData | src/core/engine.py:60-68 | delegates to the storage query |
| Engine.MarketTrendsEngine.RebuildIndex | src/core/engine.py:70-75 | the files are unchanged, and both derived records are rebuilt |
| Dap.ClassifyPrecedence | src/adapters/dap_adapter.py:266-282 | a name goes to a bucket exactly when its lower-cased form contains one of that bucket's keywords and none of an earlier family's (mobile, ChromeOS, Linux, Windows, Mac, then other) |
| Dap.TallyConserves | src/adapters/dap_adapter.py:266-282 | each entry's share lands in exactly one bucket, so the buckets add up to the sum of all the shares |
| Dap.LinuxDetailsKeys | src/adapters/dap_adapter.py:274-276 | the Linux details name exactly the OS names classified as Linux |
| Dap.DapShares | src/adapters/dap_adapter.py:249-301 | no shares exactly when `by_os` is empty, the total is 0, or both the Linux and Windows buckets are 0; otherwise the Linux, Windows, macOS and ChromeOS shares are each the sum of the shares of the names classified into that bucket, other is the mobile and other buckets together, the five add up to the sum of all shares, the details hold the five bucket entries and the Linux names, a Linux name overriding only the "Linux" entry |
| Dap.NotLinuxName | src/adapters/dap_adapter.py:274-276 | a name without an "x" is never classified as Linux, so it is no Linux detail |
| Dap.BucketNamesNotLinux | src/adapters/dap_adapter.py:293-300 | "Windows", "macOS", "ChromeOS" and "Mobile (Android/iOS)" are never overridden by a Linux name |
| Dap.LinuxIsLinux | src/adapters/dap_adapter.py:270-276 | "Linux" is classified as Linux: no mobile or ChromeOS keyword occurs in it |
| Dap.LinuxEntryOverridden | src/adapters/dap_adapter.py:293-300 | the "Linux" bucket entry is overridden exactly when an OS is called "Linux" |
| Dap.TallyStep | src/adapters/dap_adapter.py:266-282 | one more entry adds its share to its own bucket and to no other |
| Dap.ParseDapData | src/adapters/dap_adapter.py:228-301 | the loop computes `DapShares` |
| Dap.AggregateLookup | src/adapters/dap_adapter.py:188-193 | a usable OS name that occurs in the records maps to the sum of its records' visits; any other name is absent |
| Dap.AggregateTotal | src/adapters/dap_adapter.py:195 | `sum(by_os.values())` is the visits of the usable records |
| Dap.AggregateVisits | src/adapters/dap_adapter.py:188-195 | the loop computes `Aggregate`, whose total is the usable visits |
| Dap.VersionByMonthIndex | src/adapters/dap_adapter.py:156 | the tuple comparison picks v2 exactly for the months from August 2023 on |
| Dap.DapMonthTextOf | src/adapters/dap_adapter.py:131 | for four-digit years the unpadded month text is the "YYYY-MM" the store uses |
| Dap.MonthLogShape | src/adapters/dap_adapter.py:148-176 | one or two requests, two exactly when the first reply is a 429; each is for this month, from its 1st to its last day, on the API version the month calls for |
| Dap.MonthPointsShape | src/adapters/dap_adapter.py:148-217 | at most one point, from "DAP" and dated the 1st; only when the final reply is a 200 carrying a list of records |
| Dap.NoUsableVisitsNoPoint | src/adapters/dap_adapter.py:195-198 | a month whose records count no usable visit gives no point |
| Dap.FetchOneMonth | src/adapters/dap_adapter.py:148-217 | the method's points and requests are `MonthPoints` and `MonthLog` |
| Dap.BackfillRequests | src/adapters/dap_adapter.py:129-144 | every request is for an unstored month of the range, and every such month is requested |
| Dap.BackfillPointsShape | src/adapters/dap_adapter.py:129-144 | at most one point per month, each from an unstored month of the range and dated its 1st |
| Dap.AllStoredNoRequests | src/adapters/dap_adapter.py:133-134 | when every month of the range is stored, nothing is requested and nothing is returned |
| Dap.FetchHistorical | src/adapters/dap_adapter.py:113-146 | the month loop gives `Historical` and `HistoricalLog` |
| Dap.CurrentPointsShape | src/adapters/dap_adapter.py:85-107 | the live endpoint gives at most one point, dated the first of the current month, and none unless the reply is a 200 |
| Dap.FetchCurrent | src/adapters/dap_adapter.py:85-107 | one GET of the live endpoint, whose points are `CurrentPoints` |
| Dap.FetchData | src/adapters/dap_adapter.py:60-79 | the history when both dates are given and non-empty, otherwise the live endpoint |
| StatCounter.BucketOfNames | src/adapters/statcounter_adapter.py:24-27 | a column is Linux exactly when named "linux", Mac exactly when in the macOS names, ChromeOS exactly when "chrome os", Windows exactly when it starts with "win"; the groups are disjoint, so the order of the tests never matters |
| StatCounter.Clean | src/adapters/statcounter_adapter.py:111 | stripping never lengthens a cell |
| StatCounter.TallyByBucket | src/adapters/statcounter_adapter.py:133-145 | each share is the sum of exactly the columns its test selects |
| StatCounter.TallyConserves | src/adapters/statcounter_adapter.py:133-145 | the five shares add up to the sum of all the columns |
| StatCounter.MakePoint | src/adapters/statcounter_adapter.py:175-190 | a point carries all five shares, repeated under display names in its details |
| StatCounter.MonthNumber | src/adapters/statcounter_adapter.py:220-226 | a month number exactly for the twelve abbreviations, and it is that abbreviation's position |
| StatCounter.ParseDate | src/adapters/statcounter_adapter.py:201-230 | every date found is the first of a month |
| StatCounter.ParseDateIso | src/adapters/statcounter_adapter.py:213-215 | "YYYY-MM" reads as the first of that month |
| StatCounter.ParseDateMonthName | src/adapters/statcounter_adapter.py:219-228 | a month name and a year of digits read as the first of that month; four digits are the year itself, any other count is a year after 2000 |
| StatCounter.NotIsoMonth | src/adapters/statcounter_adapter.py:213-217 | text that does not start with a digit is not "YYYY-MM" |
| StatCounter.WordRun | src/adapters/statcounter_adapter.py:195 | the longest run of `\w` characters |
| StatCounter.FindPeriodOf | src/adapters/statcounter_adapter.py:195 | the first bracketed "word YYYY" of a header is the period it names |
| StatCounter.ExtractPeriodMonthName | src/adapters/statcounter_adapter.py:192-199 | "Market Share Perc. (Jan 2026)" names the first of January 2026 |
| StatCounter.ColumnCells | src/adapters/statcounter_adapter.py:133-134 | `zip(headers[1:], row[1:])` pairs each later header, lower-cased, with its cell, as many as the shorter list allows |
| StatCounter.TimeseriesShape | src/adapters/statcounter_adapter.py:123-149 | at most one point per row, each dated the first of a month, with a Linux or a Windows share |
| StatCounter.CleanAll | src/adapters/statcounter_adapter.py:111 | each header is cleaned in place |
| StatCounter.CsvPointsShape | src/adapters/statcounter_adapter.py:104-121 | every point is good; the single-month layout gives at most one point; any other first header gives none |
| StatCounter.AggregatePointsShape | src/adapters/statcounter_adapter.py:151-173 | the single-month layout gives at most one point, and it is a good one |
| StatCounter.AggregateLinux | src/adapters/statcounter_adapter.py:156-162 | the single-month Linux share is the sum of the "linux" rows |
| StatCounter.ParseTimeseries | src/adapters/statcounter_adapter.py:123-149 | the loop computes `Timeseries` |
| StatCounter.TimeseriesRaises | src/adapters/statcounter_adapter.py:126-131 | an exception in the first rows is the result of the whole table |
| StatCounter.SumColumns | src/adapters/statcounter_adapter.py:132-145 | the inner loop tallies the row's cells |
| StatCounter.AddNamed | src/adapters/statcounter_adapter.py:136-145 | the value goes to the first bucket whose test the name passes |
| StatCounter.ParseAggregate | src/adapters/statcounter_adapter.py:151-173 | the loop computes `AggregatePoints` |
| StatCounter.ParseCsv | src/adapters/statcounter_adapter.py:88-121 | the dispatch on the first header computes `CsvPoints` |
| StatCounter.YearMonthIntValue | src/adapters/statcounter_adapter.py:42-43 | `fromInt` is six digits whose value is 100 * year + month |
| StatCounter.SameMonthParameters | src/adapters/statcounter_adapter.py:40-53 | `fromInt == toInt`, which selects the single-month export, exactly when the two months agree |
| StatCounter.ReplyPointsShape | src/adapters/statcounter_adapter.py:73-86 | every point from a reply carries "StatCounter" and a first-of-month date; a reply other than a 200 gives none |
| StatCounter.FetchRaises | src/adapters/statcounter_adapter.py:66-86 | the fetch raises exactly when a given bound is not a date; otherwise every point carries the source and a first-of-month date |
| StatCounter.FetchData | src/adapters/statcounter_adapter.py:55-86 | the method returns `Fetch`; one URL for the two months is requested unless a bound fails to parse |
| Cloudflare.QueryBoundsCover | src/adapters/cloudflare_adapter.py:91-93 | the query covers the whole month and nothing else: it starts on the 1st and ends on the month's last valid day |
| Cloudflare.FebruaryEnd | src/adapters/cloudflare_adapter.py:91-93 | February's query ends on the 29th exactly in leap years |
| Cloudflare.ParseResponseShape | src/adapters/cloudflare_adapter.py:120-157 | a point exists exactly for a readable, non-empty summary; it is dated the 1st, has no ChromeOS share, its Linux, Windows and macOS shares are read from the "LINUX", "WINDOWS" and "MACOS" keys, its other share is Android plus iOS plus other, and each of the six details holds its own key's share |
| Cloudflare.MonthRawShape | src/adapters/cloudflare_adapter.py:105-118 | a month gives a point only from a 200 reply with a readable, non-empty summary; it is dated the 1st |
| Cloudflare.FetchOneMonth | src/adapters/cloudflare_adapter.py:89-118 | one GET for the month, whose point is `MonthRaw` |
| Cloudflare.FetchedMonthsExactly | src/adapters/cloudflare_adapter.py:70-85 | the walk fetches each month of the range without a file, once each, in calendar order, and no other month |
| Cloudflare.BackfillLogRequests | src/adapters/cloudflare_adapter.py:70-85 | one request per fetched month, in month order |
| Cloudflare.VisitedNext | src/adapters/cloudflare_adapter.py:70-85 | one more turn skips a stored month and otherwise adds that month's request and points |
| Cloudflare.VisitedRequests | src/adapters/cloudflare_adapter.py:70-85 | the loop's requests are the month walk's requests |
| Cloudflare.HistoricalRequests | src/adapters/cloudflare_adapter.py:64-87 | from `from` through `to`, the loop requests exactly the unstored months of the range, in order |
| Cloudflare.VisitedShape | src/adapters/cloudflare_adapter.py:70-85 | each month adds at most one point; every point carries "Cloudflare" and is dated the 1st of an unstored month of the range |
| Cloudflare.VisitMonth | src/adapters/cloudflare_adapter.py:71-81 | one turn of the loop is one step of `Visited` |
| Cloudflare.FetchHistorical | src/adapters/cloudflare_adapter.py:64-87 | the loop from `from`'s month to `to`'s, both included, computes `Visited` |
| Cloudflare.StepMonth | src/adapters/cloudflare_adapter.py:82-85 | `month += 1` rolls December over into January of the next year |
| Cloudflare.HistoricalLoopEnd | src/adapters/cloudflare_adapter.py:70 | where the loop stops, it has visited every month from `from`'s to `to`'s |
| Cloudflare.FetchData | src/adapters/cloudflare_adapter.py:32-62 | without a token nothing is requested; a single month is requested once, even when its file exists; an unparsable bound raises before any request |
| StackOverflow.CsvNamesMembers | src/adapters/stackoverflow_adapter.py:150-153 | the candidates are exactly the archive's ".csv" names that mention neither "schema" nor "readme" |
| StackOverflow.FirstResultShape | src/adapters/stackoverflow_adapter.py:159 | the first candidate naming "result" (in any case), or none exactly when no candidate does |
| StackOverflow.ChooseCsvShape | src/adapters/stackoverflow_adapter.py:150-160 | the choice is a survey CSV of the archive; a candidate naming results wins over the others; no candidate means no choice |
| StackOverflow.LastNamedShape | src/adapters/stackoverflow_adapter.py:162-163 | of several members with the chosen name, the last one is opened |
| StackOverflow.FirstOsHeaderShape | src/adapters/stackoverflow_adapter.py:230-233 | the fallback is the first header that names "operating", or "os" with "personal" or "use"; none exactly when no header does |
| StackOverflow.DetectColumnShape | src/adapters/stackoverflow_adapter.py:222-234 | the column is a header; "OpSysPersonal use" wins, then "OpSys", then "OperatingSystem", then the fallback |
| StackOverflow.CountsBounded | src/adapters/stackoverflow_adapter.py:179-195 | the total counts each answered row once, and each system's count is at most the total |
| StackOverflow.SurveySharesShape | src/adapters/stackoverflow_adapter.py:167-220 | a point exactly when there is an OS column with at least one answer; each share lies in [0, 100%], other is what the three leave, or 0 when they exceed 100%, and the point is dated June 1 of the survey year |
| StackOverflow.RespondentsStep | src/adapters/stackoverflow_adapter.py:181-195 | a further row adds one respondent of a system exactly when it answers and mentions that system |
| StackOverflow.CountsAreRespondents | src/adapters/stackoverflow_adapter.py:179-195 | the Linux, Windows and macOS counts are the numbers of answered rows whose choices mention that system |
| StackOverflow.SurveySharesValues | src/adapters/stackoverflow_adapter.py:179-202 | the Linux, Windows and macOS shares are the respondents who mention that system as a percentage of all who answered |
| StackOverflow.CountOne | src/adapters/stackoverflow_adapter.py:182-195 | one row of the counting loop: a blank answer is skipped, any other adds 1 to the total and to each system it mentions |
| StackOverflow.ParseCsv | src/adapters/stackoverflow_adapter.py:167-220 | the loop computes `SurveyShares` |
| StackOverflow.TriesShape | src/adapters/stackoverflow_adapter.py:115-129 | one to four requests; every attempt but the last met a 429, and the last did not unless it was the fourth |
| StackOverflow.YearPointShape | src/adapters/stackoverflow_adapter.py:125-142 | a point comes only from a 200 and is dated June 1 of the survey year |
| StackOverflow.FetchOneYear | src/adapters/stackoverflow_adapter.py:111-144 | the year's point is `YearPoint`; the log is that many copies of the archive's request; the waits are the first delays, one before each retry |
| StackOverflow.PointsOfYears | src/adapters/stackoverflow_adapter.py:91-107 | one point per year that gives one, in order, each from "StackOverflow" and dated June 1 of its year |
| StackOverflow.YearAt | src/adapters/stackoverflow_adapter.py:92-107 | a year adds one point exactly when it is found, dated June 1 of that year |
| StackOverflow.FoundYearsShape | src/adapters/stackoverflow_adapter.py:91-107 | the years that give a point are increasing, inside the range and not stored |
| StackOverflow.SurveyLogRequests | src/adapters/stackoverflow_adapter.py:91-100 | every request is for a year of the range without a file, and every such year is requested |
| StackOverflow.SurveyLogLength | src/adapters/stackoverflow_adapter.py:91-100 | at most four requests per year of the range |
| StackOverflow.NoEarlySurveys | src/adapters/stackoverflow_adapter.py:88 | no year before 2017 is requested, whatever `start` says |
| StackOverflow.VisitYear | src/adapters/stackoverflow_adapter.py:92-107 | one turn of the year loop: a stored year is skipped, any other is fetched and its point formatted |
| StackOverflow.VisitYears | src/adapters/stackoverflow_adapter.py:91-109 | the year loop computes `SurveyPoints` and `SurveyLog` |
| StackOverflow.FetchData | src/adapters/stackoverflow_adapter.py:73-109 | the method returns `Fetch` and makes the requests of `FetchLog` |
| JetBrains.KnownPointShape | src/adapters/jetbrains_adapter.py:95-108 | the point carries the table entry unchanged: dated January 1, the three shares, and the same figures and the respondents in its details |
| JetBrains.YearAt | src/adapters/jetbrains_adapter.py:81-109 | a year adds its entry's point exactly when it is unstored and in the table, and nothing otherwise |
| JetBrains.PointsOfYears | src/adapters/jetbrains_adapter.py:80-109 | one point per emitting year, in order, each carrying that year's entry |
| JetBrains.EmittedYearsShape | src/adapters/jetbrains_adapter.py:80-109 | the emitting years are increasing; a year emits exactly when it is in the range, unstored and in the table |
| JetBrains.EmittedShape | src/adapters/jetbrains_adapter.py:95-109 | each point is from "JetBrains", dated January 1 of its year, with that year's shares |
| JetBrains.NoEarlyPoints | src/adapters/jetbrains_adapter.py:77 | every point is from a year between 2019 and 2025, whatever `start` says |
| JetBrains.EmptyWhenReversed | src/adapters/jetbrains_adapter.py:77-80 | an `end` before the first year searched gives no point |
| JetBrains.FetchData | src/adapters/jetbrains_adapter.py:63-117 | the loop returns `Fetch` |
| Steam.FindPctLeftmost | src/adapters/steam_adapter.py:154 | `re.search` finds the leftmost match of `[\d.]+\s*%`, and finds none only when the pattern matches nowhere |
| Steam.ExtractFirstPctNone | src/adapters/steam_adapter.py:152-155 | text where the pattern matches nowhere reads as 0 |
| Steam.ExtractFirstPctAt | src/adapters/steam_adapter.py:152-155 | otherwise the value is the whole run of digits and dots of the leftmost match, or `ValueError` when `float()` refuses it |
| Steam.StatsRowAssigns | src/adapters/steam_adapter.py:111-127 | a `stats_row` sets the total of the category it opens to its figure and makes it current; a row opening no category only closes the current one; distributions are untouched |
| Steam.AssignReplaces | src/adapters/steam_adapter.py:117-125 | assigning replaces the figure: the old one plays no part, and the other two totals are kept |
| Steam.OnlyLinuxDistros | src/adapters/steam_adapter.py:129-138 | outside the Linux category only `stats_row` children do anything |
| Steam.LinuxDistros | src/adapters/steam_adapter.py:129-138 | inside the Linux category a name cell sets the pending name; a share cell consumes it and records its share under it when the name is not empty |
| Steam.PageSharesShape | src/adapters/steam_adapter.py:95-150 | no `osversion_details` gives no result; an exception in the rows escapes; otherwise the totals give the shares |
| Steam.FinishShape | src/adapters/steam_adapter.py:140-150 | shares exactly when the Linux or Windows total is not 0; other is never negative and completes the three to 100% when they do not exceed it, and is 0 when they do |
| Steam.PendingNameDropsPage | src/adapters/steam_adapter.py:129-149 | as written, a distro name left pending makes the details comprehension raise `TypeError`; without it, the same page gives Linux 3.38% and other 96.62% |
| Steam.ScanStep | src/adapters/steam_adapter.py:106-138 | one more child continues the scan, and an exception stays raised |
| Steam.VisitChild | src/adapters/steam_adapter.py:107-138 | the loop body on one child computes `Step` |
| Steam.ParsePage | src/adapters/steam_adapter.py:77-150 | the row loop and the final check compute `PageShares` |
| Steam.FindSurveyLeftmost | src/adapters/steam_adapter.py:160 | the search finds the leftmost match of the survey-date pattern |
| Steam.FindSurveyNone | src/adapters/steam_adapter.py:160 | the search finds nothing only when the pattern matches nowhere |
| Steam.MonthNumber | src/adapters/steam_adapter.py:163 | `%B` reads a word as month n exactly when its lower-cased text is the n-th full English month name; any other word is no month |
| Steam.MatchMonth | src/adapters/steam_adapter.py:161-166 | what `strptime(…, "%B %Y")` accepts is a year from 1 on and a month from 1 to 12 |
| Steam.SurveyMonth | src/adapters/steam_adapter.py:160-166 | the month the first match names, when it names one, is a year from 1 on and a month from 1 to 12 |
| Steam.SurveyDateShape | src/adapters/steam_adapter.py:157-166 | the date is always the first of a month; it is the first of the month the page names when it names one, otherwise of the current month, in particular when the pattern matches nowhere |
| Steam.FindSurveyAt | src/adapters/steam_adapter.py:160 | a match with no match before it is the one the search returns |
| Steam.SurveyMonthAt | src/adapters/steam_adapter.py:160-166 | the month the page names is read from the leftmost match alone: the month and year that match's word and four digits give under "%B %Y" |
| Steam.SurveyTitleRuns | src/adapters/steam_adapter.py:160 | in "Survey: January 2026" the separators `[:\s]+` end before "January" and `\w+` ends after it |
| Steam.SurveyTitleMatch | src/adapters/steam_adapter.py:159-160 | the pattern matches "Survey: January 2026" at its start, with "January" as the word |
| Steam.JanuaryNumber | src/adapters/steam_adapter.py:163 | `%B` reads "January" as month 1 |
| Steam.SurveyTitleMonth | src/adapters/steam_adapter.py:159-163 | "Survey: January 2026" names January 2026 |
| Steam.SurveyTitleDate | src/adapters/steam_adapter.py:157-166 | "Survey: January 2026" gives "2026-01-01", whatever the current date |
| Steam.FetchShape | src/adapters/steam_adapter.py:38-71 | at most one point, and one exactly when a 200 reply's page gives shares; it is from "Steam", keeps the page's Linux share, and carries the survey date |
| Steam.FetchData | src/adapters/steam_adapter.py:38-71 | the method returns `Fetch` |
| Calendar.DaysInMonth | src/adapters/dap_adapter.py:150 | `calendar.monthrange(year, month)[1]` lies between 28 and 31; February has 29 days exactly in leap years |
| Calendar.StrptimeYmd | src/storage/json_storage_handler.py:94 | a date `strptime` accepts is a valid calendar date |
| Calendar.StrptimeYm | src/adapters/statcounter_adapter.py:214 | "%Y-%m" accepts only years 1 to 9999 and months 1 to 12 |
| Calendar.StrptimeFormatYmd | src/storage/json_storage_handler.py:94-95 | rendering a valid date with "%Y-%m-%d" and reading it back gives the same date |
| Calendar.StrptimeFormatYm | src/adapters/statcounter_adapter.py:214-215 | rendering a month with "%Y-%m" and reading it back gives the same month |
| Calendar.NextMonth | src/adapters/dap_adapter.py:142-144 | the next month is a valid month, one index later; December rolls over to January |
| Calendar.MonthIndexOrder | src/adapters/cloudflare_adapter.py:70 | month order agrees with the `(year, month)` tuple order |
| Calendar.MonthSpanCoverage | src/adapters/dap_adapter.py:129-144 | every month of the window is walked exactly once, in order |
| Numbers.FormatInt | src/adapters/jetbrains_adapter.py:81 | `f"{n:04d}"` of a natural number is its digits, zero-padded to the width |
| Numbers.FormatIntValue | src/adapters/jetbrains_adapter.py:81 | reading zero-padded text back gives the number again |
| Numbers.FormatIntWidth | src/adapters/cloudflare_adapter.py:71 | a number below 10^width is rendered with exactly `width` digits |
| Numbers.PyIntNeedsDigit | src/adapters/statcounter_adapter.py:227 | `int()` accepts nothing without a digit |
| Numbers.PyIntDigits | src/adapters/statcounter_adapter.py:227 | `int()` reads plain digit text as its decimal value |
| Numbers.PercentBounds | src/adapters/stackoverflow_adapter.py:200-202 | a count out of a total, as a percentage, lies between 0 and 100% |
| Text.Lower | src/core/engine.py:38 | `lower()` keeps the length and changes each character on its own |
| Text.TrimStartShape | src/adapters/stackoverflow_adapter.py:182 | what `lstrip` drops is whitespace, and what it keeps is a suffix |
| Text.TrimEndShape | src/adapters/stackoverflow_adapter.py:182 | what `rstrip` drops is whitespace, and what it keeps is a prefix |
| Text.Strip | src/adapters/stackoverflow_adapter.py:182 | `strip()` leaves no whitespace at either end |
| Text.Split | src/adapters/base_adapter.py:43 | `split('-')` always gives at least one piece |
| Text.SplitTwoWords | src/adapters/statcounter_adapter.py:222 | `split()` of two words around one space gives the two words |
| StringOrder.SortedDistinct | src/storage/json_storage_handler.py:201-202 | `sorted(set(xs))` is strictly increasing and holds exactly the values of `xs` |
| StringOrder.SortedUnique | src/storage/json_storage_handler.py:201-202 | a strictly sorted list is determined by the values it holds |
| StringOrder.SortedEnds | src/storage/json_storage_handler.py:209-210 | the first element of a sorted list is its least, the last its greatest |
| Lists.FlattenContents | src/adapters/dap_adapter.py:136-138 | the joined list holds exactly the elements of the lists joined |
| Lists.WalkIncreasing | src/adapters/jetbrains_adapter.py:80 | a walk over `range(lo, hi)` lists its indices in increasing order, inside the range |

## Left out

- Floating point: every share is an integer number of hundredths of a percent. Parsing a decimal keeps two fraction digits and drops the rest. Divisions truncate. `round(x, 2)` is the identity on such numbers, so sums of rounded values are exact here and can differ from Python in the last hundredth.
- Text: `lower()`, `\d`, `\w` and `re.IGNORECASE` are modelled on ASCII only. Unicode case folding and non-ASCII digits are not modelled.
- Printing, `time.sleep` and the request timeouts are left out. The delays of the Stack Overflow retry loop are returned as a list of waits.
- The network is a function parameter from request (and attempt number, where the code retries) to a reply or a connection error. Request headers, `User-Agent` strings and the live endpoint's URL text are not modelled.
- Reply bodies arrive already decoded:
  - the Steam page as the children of `#osversion_details` and the page text;
  - the StatCounter export as CSV rows;
  - the Stack Overflow archive as its member names and the chosen member's header and rows;
  - the DAP and Cloudflare JSON as records and summaries, with a variant for a malformed body.
  BeautifulSoup, `csv`, `zipfile` and `json` themselves are not modelled. A body that fails to decode is that variant, which the code's `except` turns into no points.
- Environment variables (`DAP_API_KEY`, `CLOUDFLARE_RADAR_API_KEY`) and `datetime.utcnow()` are parameters.
- The two `last_updated` timestamps of the manifest and the combined file are parameters.
- The file system is a map from (directory, file name) to the decoded entries or an undecodable file. A file name is a path relative to its directory, cleaned as pathlib cleans one: empty and "." segments are dropped. A name that pathlib reads as absolute replaces the data folder, and the file lands under the directory "/". Errors from writing there (or anywhere) are not modelled. The adapters see their own directory as a listing from file name to size; DAP's "exists and larger than 20 bytes" test reads the size. `mkdir` only creates directories, which hold no entries, so it is not modelled.
- `json.dump` formatting and the JSON text of the written files are not modelled. The manifest and combined records are values holding the same fields.
- A Linux distribution literally named "_last_name" on the Steam page collides with the code's pending-name key. The model keeps the pending name apart, so that collision is not modelled.
- `strftime("%Y")` of a year below 1000 depends on the platform. The model zero-pads it to four digits.
- Storage.SortByKey: states sortedness by (date, source) and permutation, but not the stability of `list.sort`. Points with equal keys may come out in any order here.
- Cloudflare.FetchData: the request records the year and month asked for. The two query strings are proved correct separately, in `QueryBoundsCover`.
- The engine sees the adapters through a fetch function. Each adapter's own behaviour is modelled and proved in its module; the engine's proofs hold for any fetch function. The engine registers only Steam, StatCounter and DAP, as the code does.
- Steam.ParsePage: follows the corrected rule `PageShares`, which drops a distribution name left pending. On such a page the program's `_parse_page` raises `TypeError` (see "## Findings"). `PageSharesAsWritten` and `PendingNameDropsPage` model that behaviour.
- Steam.Fetch: computes its point from the corrected `PageShares`. On a page with a pending distribution name the program's `fetch_data` catches the `TypeError` and returns [], and `Fetch` returns that page's point.
- Steam.FetchShape: states the shape of the corrected `Fetch`. Its "one point exactly when the page gives shares" includes pages with a pending distribution name, which give [] in the program.
- Steam.FetchData: returns the corrected `Fetch`, so it differs from the program in the same way on a page with a pending distribution name.
- Numbers.ParseFloat: reads only a sign and decimal digits with at most one dot, between optional whitespace. Python's `float` also accepts exponent forms ("1e-3", "2.5E1"), "inf", "infinity" and "nan" in any case, and `_` between digits. The model reads those as no number, so Cloudflare's `pct` and StatCounter's `_parse_float` give 0 where the program reads a value (or an infinity or NaN).
- Storage.SubdirectoryIsNeverRead: its requires leaves out keys with a ".." segment. The model keeps ".." as it is, but the operating system resolves "a/../b-" to "b-", a file directly in the source directory that `get_data` does read. Resolving ".." depends on the file system (a symlinked segment leads elsewhere), so it is not modelled.
- Storage.JsonNames: a file name with a ".." segment is kept as written, not resolved. So "a/../x.json" under a directory is not recognised as the file "x.json" that the operating system opens there.
- Directory names are used as given: the lower-cased source name in `store_data` and the lower-cased `source_id` in `get_data`. pathlib's clean-up of a directory name such as "steam/" or "./steam" is not modelled. Neither is a directory name with several segments or an absolute one. The six registered sources all use plain names.
- `visualize.py`, `main.py` and the InfluxDB handler are outside this model.

## Findings

| source | as written | input that shows it | evidently intended | confidence | as-written member | corrected member |
|---|---|---|---|---|---|---|
| src/adapters/steam_adapter.py:131-149 | a Linux distribution name whose share cell never comes stays in `linux_details` under "_last_name"; `round(v, 2)` on that text raises `TypeError`, and `fetch_data` drops the whole page | the children `stats_row` "Linux 3.38%", then `stats_col_mid data_row` "Ubuntu" with no share cell after it | the pending name is dropped, and the page gives Linux 3.38% and other 96.62% | not executed | Steam.PendingNameDropsPage | Steam.PageShares |
