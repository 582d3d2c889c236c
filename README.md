# yts-downloader, modelled in Dafny

yts-downloader polls the YTS catalog for recently uploaded movies and saves
the torrent file of every movie it has not handled before. Its whole program
is `index.js`. This project models the three pieces of logic in it:

- **Schedule pattern compiler** (`cron_pattern.dfy`, module `CronPattern`).
  A configured cron expression is used verbatim. Otherwise a (unit, value)
  pair is compiled by walking the field order `seconds minutes hours daymonth
  months dayweek`: "0" before the unit's field, the value at it, "*" after it.
  The fields are joined by spaces.
- **Catalog query URL** (`catalog_query.dfy`, module `CatalogQuery`). The URL
  is `baseurl + "/list_movies.json?"` followed by `&minimum_rating=`,
  `&quality=` and `&genre=`, in that order, each only when its filter is set.
- **Poll cycle** (`poll_cycle.dfy`, module `PollCycle`). One pass over a
  parsed page of movies, in page order. A movie whose id has a truthy cache
  entry is skipped. Every other movie is marked `true` in the cache. Its
  upload time raises the watermark. Its torrent is downloaded when the MPA
  rating filter is empty or lists its rating. At the end the watermark is
  stored under `last_uploaded` and the cache is saved. The save is
  flat-cache's `save()` without `noPrune`, so it keeps only the keys read
  or written since the last save: `last_uploaded` and the page's ids.
  Finally the cumulative total grows by this cycle's count.

`text.dfy` (module `Text`) holds `Join` and `Split` on a one-character
separator. `Join` stands for the `join(' ')` at index.js:43. The program
never splits a string; `Split` only states that joined fields and query
parameters read back unchanged.

The poll cycle is imperative in the source, so it is a class, `Downloader`.
Its fields are the cache, the saved copy of the cache, the keys visited
since the last save, the per-cycle and cumulative counters, and the log of
started downloads.
`Downloader.HandleResponse` is proved against `Run`, a fold of `Step` over
the page. `Fresh` (the page's new movies), `DownloadsOf` and `MaxUpload` give
an independent description of the outcome as filters and a maximum over the
page. The `Run*` and `Cycle*` lemmas prove that the two descriptions agree.

Three behaviours of the code are easy to miss, and the model keeps them:

- Movies rejected by the MPA filter are marked as seen too. The call
  `cache.setKey(movie.id, true)` at index.js:115 is outside the filter
  branch (see `RejectedMovieIsMarked`).
- The watermark only considers movies that were unseen when processed.
  index.js:117-120 sit inside the `if` at index.js:102.
- A unit that names no field gives six "0" fields, not wildcards
  (index.js:37-41, see `UnmatchedUnit`).

## Model

| member | source | states |
|---|---|---|
| `CronPattern.IndexOf` | index.js:33-34 | the first field of the order equal to the unit, or the order's length when none is; no earlier field matches |
| `CronPattern.CompilePattern` | index.js:25-43 | a non-empty configured pattern (index.js:14) is returned unchanged; otherwise the result is the manual pattern: "0" before the unit's field, the value at it, "*" after it, joined by spaces |
| `CronPattern.ManualPatternFields` | index.js:33-43 | a manual pattern splits back into exactly six fields: "0" before the unit's position, the value at it, "*" after it |
| `CronPattern.UnmatchedUnit` | index.js:37-41 | a unit that names no field yields "0 0 0 0 0 0", so the value appears nowhere |
| `CronPattern.EveryThirtyMinutes` | index.js:26-43 | unit "minutes" with value "30" compiles to "0 30 * * * *" |
| `Text.SplitJoin` | index.js:43 | splitting the space-joined fields on spaces gives the fields back when no field holds a space |
| `CatalogQuery.Decimal` | index.js:55 | the minimum rating is written as at least one decimal digit and nothing else, with no leading zero unless the rating is 0 |
| `CatalogQuery.DecimalValue` | index.js:55 | the digits written for the minimum rating denote exactly that rating |
| `CatalogQuery.RequestUrl` | index.js:50-65 | the URL is the base URL, "/list_movies.json?", then "&name=value" for each set filter in the fixed order; with no filter it is exactly the prefix; its query string parses back to exactly the set filters |
| `CatalogQuery.ParamsPresence` | index.js:54-64 | each of minimum_rating, quality and genre is present with its configured value iff it is set; the parameters keep the fixed order; none is present iff no filter is set |
| `CatalogQuery.RenderAppend` | index.js:51-64 | appending parameters one by one appends their renderings |
| `CatalogQuery.ParseRender` | index.js:51-64 | a rendered parameter list parses back to the same list, provided no name or value holds "&" or "=" |
| `PollCycle.IdsOfPage` | index.js:101-102 | the set of ids of a page contains exactly the ids of its movies |
| `PollCycle.DownloadsOfAccepted` | index.js:106-114 | the downloads of a list of new movies are exactly those for movies the MPA filter accepts; there are at most as many downloads as movies |
| `PollCycle.MaxUploadIsMaximum` | index.js:117-120 | the watermark is at least the seed and every upload time considered, and is the seed or one of them |
| `PollCycle.FreshFromPage` | index.js:101-102 | every movie treated as new is on the page and had no truthy cache entry when the cycle began |
| `PollCycle.FreshIds` | index.js:102-115 | the ids treated as new are exactly the page's ids that the cache had not seen |
| `PollCycle.FreshDistinct` | index.js:102-115 | no id is treated as new twice in one page, so a duplicate id later in the page is skipped |
| `PollCycle.RunSeen` | index.js:101-122 | after the page an id is seen iff it was seen before or occurs on the page, whether or not the MPA filter rejected it |
| `PollCycle.RunCache` | index.js:102-115 | after the page the ids new to the cache map to true; every other key keeps its presence and value |
| `PollCycle.RunLog` | index.js:80-85 | the downloads started are those of the new movies that pass the MPA filter, in page order, each with target path destination/title.torrent; the per-cycle count grows by their number |
| `PollCycle.RunLast` | index.js:117-120 | the local watermark ends as the seed raised to the upload times of the new movies only |
| `PollCycle.NothingFresh` | index.js:102 | a page whose ids all have truthy cache entries has no new movie |
| `PollCycle.SecondCycleDownloadsNothing` | index.js:92-125 | running a cycle again on the same page starts no download, and its loop leaves the cache as the first cycle saved it; when the first stored watermark is not 0, the second save stores exactly the same cache, and when it is 0 (falsy), the same cache with last_uploaded set to the configured since |
| `PollCycle.ZeroWatermarkNotKept` | index.js:95-124 | a first save of 0 can happen, and the repeat cycle then saves a different watermark; for example, stored -3, since 5 and one movie uploaded at 0 give a first save of 0 and a second of 5 |
| `PollCycle.WatermarkNeverDecreases` | index.js:95-123 | the stored watermark after a later cycle is at least the one after an earlier cycle, whatever the later page holds |
| `PollCycle.CycleMarks` | index.js:101-124 | the saved cache marks every id of the page as seen and every id new to it as true, and keeps the value of every id it had seen |
| `PollCycle.CycleFrame` | index.js:101-123 | before the save, the cache keeps every key other than the page's ids and last_uploaded unchanged |
| `PollCycle.VisitedKeys` | index.js:95-123 | the keys a cycle reads or writes are last_uploaded and the page's ids, and nothing else |
| `PollCycle.CycleSaved` | index.js:95-124 | the saved cache holds exactly last_uploaded and the page's ids, each with the value the cycle left it; every other key is dropped |
| `PollCycle.PruneForgetsOffPageMovie` | index.js:101-124 | a movie downloaded in one cycle, missing from the next page and back on a later page is downloaded a second time |
| `PollCycle.SeenStaysSeenWithoutPrune` | index.js:101-124 | with a save that keeps every key, a seen id stays seen through any number of later cycles, and no later page treats a movie with that id as new |
| `PollCycle.CycleWatermark` | index.js:95-124 | the saved last_uploaded is the seed (a set stored last_uploaded, else the configured since) raised to the upload times of the new movies |
| `PollCycle.RejectedMovieIsMarked` | index.js:106-115 | a new movie rejected by the MPA filter starts no download and leaves the count alone, yet becomes seen |
| `PollCycle.Downloader.constructor` | index.js:16-22 | the process starts with the cache loaded from disk, no key visited, both counters at zero and no download started |
| `PollCycle.Downloader.DownloadFile` | index.js:80-85 | one download is logged with target path destination/title.torrent and the per-cycle count grows by one; nothing else changes |
| `PollCycle.Downloader.HandleMovie` | index.js:101-121 | a movie with a truthy cache entry changes nothing; any other movie is downloaded iff the MPA filter passes it, is marked true, and raises the local watermark to its upload time if that is later; the result is one `Step`; the movie's id is visited |
| `PollCycle.Downloader.Save` | index.js:124 | the keys not visited since the last save are dropped (unless none was), the cache is written to disk and no key is visited any more |
| `PollCycle.Downloader.HandleResponse` | index.js:92-126 | the log and counts are what `Run` gives; the downloads are those of the new movies passing the filter; the count starts from zero; the saved cache holds exactly last_uploaded and the page's ids; every page id is seen, every new one is true and every seen one keeps its value; last_uploaded holds the seed raised to the new movies' upload times; the total grows by the count |

## Left out

- The HTTP request for the catalog page and its error branch (index.js:67-72) are I/O. The page reaches `HandleResponse` already parsed.
- The transfer of a torrent (index.js:83) is I/O. A download is only recorded as a (url, path) entry. A transfer that fails still counts, as in the source.
- `JSON.parse` and the response's shape (index.js:93-94) are left out. A movie carries the URL of its first torrent. A movie without torrents is not representable. The source throws on one only when it is new and passes the MPA filter (index.js:108, 113). A seen or rejected movie without torrents is skipped or marked without error, and the model gives the same outcome for any URL it carries.
- The source throws at index.js:127 when the response has no `movies` list, after the cache was saved. That logging line is not modelled; such a page behaves as an empty one.
- Loading and saving the cache file (index.js:16-17, 124) is modelled by the constructor's argument and by the `persisted` field. The flat-cache library is not part of this model. Its `save()` is taken to prune every key not read or written since the last save, and its JSON file format and write failures are not modelled.
- The cron job, `runOnInit` and timer behaviour (index.js:137-145) belong to the `cron` library and are not modelled. Overlapping cycles are not modelled either.
- Logging through `eazy-logger` and `moment` (index.js:18-21, 66, 68, 103, 110, 127-132, 140) produces only output.
- Configuration loading is replaced by parameters (`cronPattern`, `unit`, `value`, `baseurl`, `Query`, `Config`).
- JavaScript truthiness is modelled only as far as the program relies on it. An empty string, the number 0 and `false` are unset; everything else is set.
- `PollCycle.Seed`: a `last_uploaded` entry holding `true` (the program never writes one) is treated as unset, whereas JavaScript would compare upload times against it.
- `CatalogQuery.Query`: the minimum rating is a natural number. A fractional or string rating, which JavaScript would concatenate as written, is not modelled. `CatalogQuery.Decimal` follows JavaScript only below 10^21, where JavaScript switches to exponent notation ("1e+21").
- `CatalogQuery.RequestUrl`: the parse-back guarantee holds only when the quality and genre contain no "&" or "="; the source does not escape them.
- `CronPattern.ManualPatternFields` holds only when the value contains no space. A value with spaces would yield more than six fields.
- `PollCycle.WatermarkNeverDecreases` requires a non-negative configured `since`. A stored watermark of 0 is falsy in JavaScript, so the next cycle falls back to `since`; a negative `since` could then lower the stored watermark.

## Findings

| source | as written | input that shows it | evidently intended | confidence | as-written member | corrected member |
|---|---|---|---|---|---|---|
| index.js:124 | `cache.save()` is called without `noPrune`, so every id not on the current page is dropped from the cache | a movie downloaded in one cycle, missing from the next page, and back on a later page | a movie whose id was marked is never downloaded again (index.js:101-102, 115) | medium, not executed; rests on flat-cache's `save()` pruning unvisited keys | `PollCycle.PruneForgetsOffPageMovie` | `PollCycle.SeenStaysSeenWithoutPrune` |

`Downloader.HandleResponse` follows the code as written. The corrected save is
`Finish`, which keeps every key, as `save(true)` would. `AfterCycles` chains
cycles saved that way.
