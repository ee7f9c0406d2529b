# oshirase record linkage, in Dafny

oshirase collects a user's anime and manga lists from AniList. It enriches
every entry that is currently airing (status `CURRENT`) with data from
secondary sources:

- a broadcast schedule scraped from SubsPlease;
- the latest episode, from the SubsPlease RSS feed;
- the latest chapter, from the MangaDex API;
- alternative titles, from an `alt_titles` MongoDB collection.

The result is stored in MongoDB, and a small Go API serves it.

This project models the part of the system that decides which secondary
record, if any, is attached to which entry. It also models the folds
that turn parsed source items into keyed maps, the upsert of records
into the store, one step of the Redis job worker, and the Go API's
mapping from errors to HTTP replies.

The repository holds two snapshots of the Rust aggregator: `aggregator/`
(older) and `rust/aggregator/` (newer).

**Matching.**
- `Matcher` models the newer `Similar::match_similar`. It tries, in order:
  - an exact key hit on the title;
  - then the English title;
  - then each registered alternative title;
  - then a fuzzy arg-max scan over every key.
- `LegacyTransform`, `Combiner` and `Emitter` model the older fuzzy-only
  generations. They differ in what happens on a miss, and in how the
  result is delivered: returned, written into the array, or sent as
  messages.
- The similarity measure (`strsim::normalized_levenshtein`) is a function
  parameter `sim: (string, string) -> real`. Nothing is assumed about it.
- A `HashMap` of extras is a sequence of `(key, value)` pairs with distinct
  keys. This fixes the iteration order that the fuzzy scan's tie-breaking
  depends on.

**Sources.**
- `AltTitlesDb` and `SubsPleaseScraper` cover both snapshots. The logic the
  two copies share is modelled once.
- `SubsPleaseRss` and `MangaDexApi` model the older snapshot.
- HTML, XML, JSON, the cursor and HTTP replies all arrive already parsed,
  as `Result` values.

**Storage and worker.**
- `Persist` models `hash_document` and `upsert_documents`, shared by
  `db/oa_mongodb.rs` and `db/mongodb.rs`, over a map store keyed by id.
  `UniqueIndexes` lists the six unique indexes that `init` creates.
- `Numerals` is the `{:x}` / `to_string()` radix renderer and its parser.
- `Worker` is the BRPOPLPUSH job loop, as a class driven by a script of
  Redis answers.

**Go API.**
- `ApiErrors` models `api/error/error.go`. The three identical
  `AniListAPIError` types (in the `models`, `sources` and `anime` packages)
  are one `First`/`Text`/`ApiStatus`, tagged with their package. The tag
  matters because the middleware recognises only the `sources` one.
- `AniListSource` models `sources.AniListAPI.Fetch`.
- `AniListModels` models `models.AniListAPI.Fetch` with its flattening.
- `AnimeList` models the `anime.List` handler.
- `SubsPleaseLatest` models `FetchLatest`.
- `AltTitleModel` models `FetchAltTitles`.

Three behaviours of the code that are easy to misread:

- **Fuzzy ties.** The scan compares with a strict `>`, so on equal scores
  the EARLIEST candidate wins, not the last one seen.
- **Worker failed list.** The failed list is deleted after every successful
  BRPOPLPUSH call, whether or not the run succeeded. A job whose run failed
  is therefore dropped, not kept for a retry. `Worker.FailedRunIsDropped`
  states this.
- **AniList errors in the anime handler.** `anime.List` aborts with
  AniList's own status, and that abort already writes the HTTP header. But
  its error type is the `anime` package's `AniListAPIError`, which
  `GetStatusFromError` does not recognise. So the middleware's later JSON
  body says `status` 500 and "Whoops...", while the HTTP status line keeps
  AniList's status. `AnimeList.RejectedRepliesWhoops` states this. The
  `models` error of `models.AniListAPI.Fetch`, recorded without an abort,
  gets 500 "Whoops..." on both (`AniListModels.RejectedFetchRepliesWhoops`).

## Model

| member | source | states |
|---|---|---|
| Matcher.ScanBestIsArgMax | rust/aggregator/src/sources.rs:84-94 | the scan keeps nothing exactly when no key scores above the threshold; otherwise it keeps the unique fuzzy winner (strictly above the threshold, no key higher, every earlier key strictly lower) with its score |
| Matcher.FuzzyWinnerUnique | rust/aggregator/src/sources.rs:84-94 | at most one key is the fuzzy winner, so the strict `>` determines the pick |
| Matcher.FuzzyScan | rust/aggregator/src/sources.rs:84-94 | the loop over the extras with its mutable score tuple computes the scan, i.e. nothing iff no key clears the threshold, else the fuzzy winner |
| Matcher.FirstKeyed | rust/aggregator/src/sources.rs:67-82 | the first candidate title that is a key, with no key among the earlier candidates; none only when no candidate is a key |
| Matcher.FirstKeyedAt | rust/aggregator/src/sources.rs:67-82 | a candidate that is a key, with none before it, is the one chosen |
| Matcher.MatchSimilar | rust/aggregator/src/sources.rs:47-102 | the method's result is the record enriched with the resolved extra, and the borrowed record is left as `Media::default()` |
| Matcher.NotCurrentUnchanged | rust/aggregator/src/sources.rs:52 | a record whose status is not `Some("CURRENT")` comes back unchanged |
| Matcher.ExactTitleWins | rust/aggregator/src/sources.rs:53-70 | an exact key hit on the title (missing title = "") wins over every other strategy |
| Matcher.EnglishTitleSecond | rust/aggregator/src/sources.rs:57-75 | with no title hit, an exact hit on the English title (missing = "") wins |
| Matcher.AltTitlesInOrder | rust/aggregator/src/sources.rs:62-82 | with neither exact hit, the first alternative title in list order that is a key wins |
| Matcher.FuzzyPicksWinner | rust/aggregator/src/sources.rs:84-98 | with no exact hit, the fuzzy winner's extra is attached |
| Matcher.FuzzyMissKeepsField | rust/aggregator/src/sources.rs:96-98 | with no exact hit, nothing is resolved iff no key clears the threshold, and then the record, including the field, is unchanged |
| Matcher.ThresholdIsStrict | rust/aggregator/src/sources.rs:88-93 | a key scoring exactly the threshold is never the fuzzy pick, whatever the other keys score |
| Matcher.Transform | rust/aggregator/src/sources.rs:36-42 | the `transform` of the schedule scraper, the RSS feed and MangaDex is `match_similar` with that source's `set_media`; it always returns `Ok` with the enriched record and leaves `Media::default()` behind |
| Matcher.TitlesOf | aggregator/src/transform.rs:25-27 | the titles the older scans compare are the extras' titles, one per extra, in slice order |
| Matcher.FuzzyChoice | aggregator/src/transform.rs:24-34 | the older scan's choice is none iff no extra clears the threshold, otherwise an extra that is the fuzzy winner |
| Matcher.FuzzyPick | aggregator/src/transform.rs:24-34 | the loop with its mutable score tuple computes that choice |
| Matcher.FuzzyChoiceOfWinner | aggregator/src/transform.rs:24-34 | the fuzzy winner's extra is the one chosen |
| LegacyTransform.Transform | aggregator/src/transform.rs:13-42 | always `Ok`, with the record enriched by the fuzzy choice when CURRENT |
| LegacyTransform.NotCurrentUnchanged | aggregator/src/transform.rs:14 | a non-CURRENT record is returned unchanged |
| LegacyTransform.WinnerAttached | aggregator/src/transform.rs:24-38 | for a CURRENT record the fuzzy winner over title/alt-title scores (missing = "") is attached |
| LegacyTransform.BelowThresholdUnchanged | aggregator/src/transform.rs:36-38 | if nothing clears the threshold the record is returned untouched |
| LegacyTransform.ExactTitleNotPreferred | aggregator/src/transform.rs:24-34 | there is no exact stage: an extra whose title equals the record's loses to a later, higher-scoring one |
| Combiner.Combine | aggregator/src/combiner.rs:15-56 | returns `Ok` of the same array, each element replaced by its combined form |
| Combiner.OnlyScheduleChanges | aggregator/src/combiner.rs:20-53 | combining changes no field but `schedule` |
| Combiner.NotCurrentUntouched | aggregator/src/combiner.rs:21-22 | an entry whose status is None or not "CURRENT" is not modified |
| Combiner.ScheduleOverwritten | aggregator/src/combiner.rs:32-50 | for a CURRENT entry the schedule becomes None when nothing clears the threshold (an old schedule is cleared), else the fuzzy winner |
| Combiner.GintamaExample | aggregator/src/combiner.rs:74-116 | "Gintama"/"Gin Tama" against gintama, naruto and tamako market gets the gintama schedule, given the scores the test relies on |
| Emitter.WantedSound | aggregator/src/emitter.rs:42-57 | every planned message is for a CURRENT entry, carries its index and its fuzzy winner, and indices strictly increase |
| Emitter.WantedComplete | aggregator/src/emitter.rs:42-59 | every CURRENT entry with a fuzzy winner has a planned message |
| Emitter.OutcomeSpec | aggregator/src/emitter.rs:59-69 | the sent messages are the planned ones in order, each with the key unchanged and the serialised extra, up to the first one that does not serialise or the first send after the receiver was dropped (no more than it accepted); the result is `Ok` iff all were sent, else that serialisation or send error |
| Emitter.AllDelivered | aggregator/src/emitter.rs:59-69 | with a receiver that outlives every send and serialisable extras, emit returns `Ok` |
| Emitter.WantedPrefix | aggregator/src/emitter.rs:42 | the plan for a prefix of the media list is a prefix of the plan |
| Emitter.OutcomeSticky | aggregator/src/emitter.rs:63-64 | after the first failure no later entry is emitted |
| Emitter.Emit | aggregator/src/emitter.rs:32-70 | the loop's result and sent messages are exactly the outcome of the planned messages, for a receiver that may be dropped between any two sends |
| Emitter.GintamaExample | aggregator/src/emitter.rs:81-121 | the test receives exactly one message: index 0, key "schedule", payload schedules[0] |
| AltTitlesDb.Oks | rust/aggregator/src/sources/alt_titles_db.rs:53-63 | unreadable cursor items are skipped: an entry is kept iff the cursor yielded it |
| AltTitlesDb.CollectCursor | rust/aggregator/src/sources/alt_titles_db.rs:50-66 | the cursor loop computes the index of the readable items |
| AltTitlesDb.Extract | rust/aggregator/src/sources/alt_titles_db.rs:38-67 | no options: "No options provided."; no client: "No mongodb client provided."; otherwise the collected index or the find error |
| AltTitlesDb.LegacyExtract | aggregator/src/sources/alt_titles_db.rs:39-62 | the older extract has no option checks: the collected index or the find error |
| AltTitlesDb.IndexKeyedById | rust/aggregator/src/sources/alt_titles_db.rs:56-58 | every key is the decimal string of its entry's media id and parses back to it |
| AltTitlesDb.IndexContents | aggregator/src/sources/alt_titles_db.rs:48-59 | every readable item's id is a key, each stored entry is a readable item, and there are no more keys than items |
| AltTitlesDb.IndexSnoc | aggregator/src/sources/alt_titles_db.rs:48-59 | a readable item is inserted over whatever was stored; an error item changes nothing |
| AltTitlesDb.LastItemWins | rust/aggregator/src/sources/alt_titles_db.rs:53-58 | among readable items with one id, the last is kept |
| AltTitlesDb.ThresholdAdmitsNoFuzzyHit | aggregator/src/sources/alt_titles_db.rs:68-70 | documents a setting no modelled path reads (both `transform`s look up by media id): the threshold 1.0 would let no normalised score (at most 1) through the fuzzy scan |
| AltTitlesDb.Transform | rust/aggregator/src/sources/alt_titles_db.rs:77-91 | the result is the exact-id lookup and the borrowed record is left as `Media::default()` |
| AltTitlesDb.ByIdAttachesOwnId | rust/aggregator/src/sources/alt_titles_db.rs:84-90 | only `alt_titles` changes, an attached entry carries the record's own id, and the titles play no part |
| AltTitlesDb.ExtractThenTransform | aggregator/src/sources/alt_titles_db.rs:76-89 | a CURRENT record gets the last readable entry with its id |
| AltTitlesDb.ByIdUnchanged | aggregator/src/sources/alt_titles_db.rs:77-81 | a non-CURRENT record, or one without a media id, is unchanged |
| AltTitlesDb.GintamaExample | rust/aggregator/src/sources/alt_titles_db.rs:134-165 | media 1 with entry {1, ["Gin Tama"]} under "1" gets that entry |
| AltTitlesDb.ExtractExample | rust/aggregator/src/sources/alt_titles_db.rs:104-131 | one document with id 1 gives exactly the key "1" with that document |
| SubsPleaseScraper.DayFromStr | rust/aggregator/src/sources/subsplease_scraper.rs:26-37 | anything not parsed is the error "Invalid day." |
| SubsPleaseScraper.DayFromStrIsInverse | aggregator/src/sources/subsplease_scraper.rs:29-40 | a string parses to a day iff it is exactly that day's capitalised English name |
| SubsPleaseScraper.ExtractInnerHtml | rust/aggregator/src/sources/subsplease_scraper.rs:91-103 | a non-empty result needs a valid selector with a match, and is the first match's inner HTML |
| SubsPleaseScraper.Scrape | rust/aggregator/src/sources/subsplease_scraper.rs:105-145 | a load error is passed on, a bad "tr" selector gives "Could not parse selector.", otherwise the row loop's schedule |
| SubsPleaseScraper.ItemsWellFormed | rust/aggregator/src/sources/subsplease_scraper.rs:130 | every entry has a non-empty title and time |
| SubsPleaseScraper.ScheduleKeyedByTitle | rust/aggregator/src/sources/subsplease_scraper.rs:131-138 | every key is its entry's title, every yielded title is a key, the last row per title wins, and no key is "" |
| SubsPleaseScraper.ItemsCarryHeadingDay | rust/aggregator/src/sources/subsplease_scraper.rs:123-139 | items after a day-of-week row carry its parsed day, and if it does not parse they are dropped |
| SubsPleaseScraper.NoDayNoItems | aggregator/src/sources/subsplease_scraper.rs:125-140 | rows before the first day-of-week row yield nothing |
| SubsPleaseScraper.SkipCache | aggregator/src/sources/subsplease_scraper.rs:164-167 | the cache is skipped iff options with `skip_cache == Some(true)` are given |
| SubsPleaseScraper.LegacyExtract | aggregator/src/sources/subsplease_scraper.rs:161-179 | a cached value is returned with no scrape; otherwise the scrape's result, cached when it succeeds; a failed scrape returns its own error (the load error or "Could not parse selector.") and caches nothing |
| SubsPleaseScraper.TransformChangesOnlySchedule | aggregator/src/sources/subsplease_scraper.rs:189-191 | only `schedule` changes, and only to an entry of the extras |
| SubsPleaseScraper.ExactHitExamples | rust/aggregator/src/sources/subsplease_scraper.rs:280-291 | "naruto" is found by exact title, and "tamako market" by English title with no title |
| SubsPleaseScraper.FuzzyExample | rust/aggregator/src/sources/subsplease_scraper.rs:275-278 | "Gintama"/"Gin Tama" gets the "gintama" entry by the fuzzy scan, given the scores the test relies on |
| SubsPleaseRss.RemoveAll | aggregator/src/sources/subsplease_rss.rs:103 | removing every occurrence never lengthens the category |
| SubsPleaseRss.RemoveAllAbsent | aggregator/src/sources/subsplease_rss.rs:103 | a category without " - 720" is its own key |
| SubsPleaseRss.RemoveAllTrailing | aggregator/src/sources/subsplease_rss.rs:103 | a trailing " - 720" is removed |
| SubsPleaseRss.CategoryNamesShow | aggregator/src/sources/subsplease_rss.rs:103 | the category "show - 720" is keyed by "show" |
| SubsPleaseRss.DigitRun | aggregator/src/sources/subsplease_rss.rs:104 | the digit run stays within the title |
| SubsPleaseRss.FirstMatch | aggregator/src/sources/subsplease_rss.rs:104-105 | the leftmost position where `\d+ \(720p\)` matches, with no match before it; none when there is no match |
| SubsPleaseRss.Episode | aggregator/src/sources/subsplease_rss.rs:104-119 | the episode always fits a u64 |
| SubsPleaseRss.EpisodeOfRendered | aggregator/src/sources/subsplease_rss.rs:104-119 | after a digit-free prefix, "n (720p)" gives episode n, or 0 when n overflows u64 |
| SubsPleaseRss.NoMarkerNoEpisode | aggregator/src/sources/subsplease_rss.rs:118 | without " (720p)" the episode is 0 |
| SubsPleaseRss.Fetch | aggregator/src/sources/subsplease_rss.rs:89-134 | a fetch or parse error is passed on, otherwise the fold's map |
| SubsPleaseRss.FoldCoversItems | aggregator/src/sources/subsplease_rss.rs:102-131 | every item's key is present and its stored episode is at least the item's |
| SubsPleaseRss.FoldKeepsFirstMaximum | aggregator/src/sources/subsplease_rss.rs:121-128 | each stored value comes from an item with that key, and every earlier item with that key has a strictly lower episode, so the first maximum wins |
| SubsPleaseRss.FoldKeyedBySize | aggregator/src/sources/subsplease_rss.rs:122-128 | each stored `Latest.title` is its key, and there are no more keys than items |
| SubsPleaseRss.TransformChangesOnlyLatest | aggregator/src/sources/subsplease_rss.rs:151-157 | `transform` changes only `latest`, and only to an entry of the extras; the same `set_media` is MangaDex's (aggregator/src/sources/mangadex_api.rs:191-193) |
| SubsPleaseRss.GintamaExample | aggregator/src/sources/subsplease_rss.rs:180-213 | "Gintama" gets the "gintama" entry exactly when it scores above the threshold |
| MangaDexApi.CastU64 | aggregator/src/sources/mangadex_api.rs:140 | `as u64` truncates toward zero into the u64 range |
| MangaDexApi.ChooseTitle | aggregator/src/sources/mangadex_api.rs:90-96 | "ja-ro" is preferred over "en", else "" |
| MangaDexApi.ListedSound | aggregator/src/sources/mangadex_api.rs:85-98 | every listed pair comes from a "manga" relationship with attributes and has a non-empty chosen title |
| MangaDexApi.BuildBatches | aggregator/src/sources/mangadex_api.rs:99-112 | concatenated, the batches are the listed pairs in order; with rate_limit ≥ 1 each batch has 1..rate_limit pairs and all but the last are full; with rate_limit 0 the first batch is empty and the rest are singletons |
| MangaDexApi.ChapterUrl | aggregator/src/sources/mangadex_api.rs:144-147 | the chapter URL is never empty |
| MangaDexApi.ScanChaptersBound | aggregator/src/sources/mangadex_api.rs:131-157 | the latest is at least every parsable chapter; its URL is "" iff no chapter parses, and then its number is 0 |
| MangaDexApi.ScanChaptersWitness | aggregator/src/sources/mangadex_api.rs:136-150 | the latest is a parsable chapter with its URL, and every later parsable chapter is strictly lower (the `>=` keeps the later one on ties) |
| MangaDexApi.ScanVolume | aggregator/src/sources/mangadex_api.rs:136-155 | the loop over one volume's chapters extends the scan |
| MangaDexApi.ScanAggregate | aggregator/src/sources/mangadex_api.rs:131-157 | the nested loops compute the latest chapter, which is (0, "") for a non-"ok" aggregate |
| MangaDexApi.FetchAllSticky | aggregator/src/sources/mangadex_api.rs:127-129 | once a request fails, no later request changes the outcome |
| MangaDexApi.FetchBatch | aggregator/src/sources/mangadex_api.rs:114-171 | one batch's requests extend the map in order, or fail with the first error |
| MangaDexApi.Fetch | aggregator/src/sources/mangadex_api.rs:68-174 | a fetch error is passed on; a list result other than "ok" gives "Could not fetch manga list." before any request; otherwise the map over every listed pair |
| MangaDexApi.PrefixOfListed | aggregator/src/sources/mangadex_api.rs:114 | the batches handled so far are a prefix of the listed pairs |
| MangaDexApi.CollectedKeyed | aggregator/src/sources/mangadex_api.rs:159-166 | every entry is keyed by its own title, and that title comes from a listed pair |
| MangaDexApi.FetchAllTitles | aggregator/src/sources/mangadex_api.rs:159-166 | one result per listed pair, each titled by its pair |
| Numerals.Digit | aggregator/src/db/oa_mongodb.rs:87 | a digit below the base is one of the base's characters of 0-9a-f |
| Numerals.DigitValue | aggregator/src/db/oa_mongodb.rs:87 | a character of 0-9a-f has the value of its position; any other character has the value 16 |
| Numerals.RenderWellFormed | aggregator/src/db/oa_mongodb.rs:87 | a rendering is non-empty, uses only base digits, and starts with '0' only for 0 |
| Numerals.ParseRender | aggregator/src/db/oa_mongodb.rs:87 | parsing a rendering gives back the number |
| Numerals.RenderInjective | aggregator/src/db/oa_mongodb.rs:87 | distinct numbers render distinctly |
| Numerals.RenderLength | aggregator/src/db/oa_mongodb.rs:87 | a number below base^k renders in at most k digits |
| Numerals.HexOfU64 | aggregator/src/db/oa_mongodb.rs:80-88 | a u64 in `{:x}` is 1 to 16 lowercase hex digits, unpadded, and parses back to it |
| Persist.HashDocument | aggregator/src/db/oa_mongodb.rs:80-88 | the hash is the digest's unpadded lowercase hex: 1 to 16 digits, leading '0' only for 0, parsing back to the digest |
| Persist.Stamped | aggregator/src/db/oa_mongodb.rs:107-108 | the document is the record's fields plus exactly `modified` and `hash`; every other field is kept |
| Persist.Prepare | aggregator/src/db/oa_mongodb.rs:105-118 | a conversion error is passed on; otherwise the error "Could not find {id_key}." iff the id field is missing; an update is filtered on the document's id, and the document is the stamped record with the hash of the record itself |
| Persist.PrepareAll | aggregator/src/db/oa_mongodb.rs:102-119 | a successful preparation has one update per record |
| Persist.PrepareAllSticky | aggregator/src/db/mongodb.rs:88-103 | once a record fails, later records do not change the outcome |
| Persist.PrepareAllOk | aggregator/src/db/oa_mongodb.rs:104-119 | update i is the preparation of record i |
| Persist.PrepareAllFirstError | aggregator/src/db/oa_mongodb.rs:110-112 | a failed call fails with the error of the first failing record, all earlier ones being fine |
| Persist.PreparedAreKeyed | aggregator/src/db/oa_mongodb.rs:114-116 | every update's document holds its filter id under `id_key` |
| Persist.PrepareUpdates | aggregator/src/db/oa_mongodb.rs:102-119 | the loop with its early return computes the preparation |
| Persist.ApplyAllAt | aggregator/src/db/oa_mongodb.rs:114-118 | after the upserts a document exists for an id iff it already did or an update names it, and it holds the old fields overlaid, in order, by those updates' `$set`s |
| Persist.ApplyAllKeys | aggregator/src/db/mongodb.rs:98-102 | the store's ids are the old ids plus the updates' ids, so there is one document per id |
| Persist.ForIdNames | aggregator/src/db/mongodb.rs:98-99 | the updates for an id are there iff some update is filtered on it |
| Persist.UpsertIdempotent | aggregator/src/db/oa_mongodb.rs:114-118 | applying the same prepared updates twice gives the store of applying them once |
| Persist.PrepareAllAtAnotherTime | aggregator/src/db/oa_mongodb.rs:105-112 | preparing the same records at another clock reading succeeds alike and differs only in each document's `modified` |
| Persist.UpsertAgainOnlyRestamps | aggregator/src/db/oa_mongodb.rs:105-121 | a second `upsert_documents` of the same records at a later time keeps exactly the same ids, and every stored document keeps all its fields and values (its `hash` among them) except that the addressed documents' `modified` becomes the second time |
| Persist.ApplyAllKeyed | aggregator/src/db/mongodb.rs:98-102 | each document stays stored under its own `id_key` value |
| Persist.WriteAllPrefix | aggregator/src/db/oa_mongodb.rs:121 | the writes that happened are a prefix of the updates, all of them when the call succeeds |
| Persist.WriteAllAccepted | aggregator/src/db/oa_mongodb.rs:121 | when the driver accepts every write, the call succeeds with all updates applied |
| Persist.Collection.constructor | aggregator/src/db/oa_mongodb.rs:99-100 | a new collection is empty and keyed by its id key |
| Persist.Collection.UpsertDocuments | aggregator/src/db/oa_mongodb.rs:90-124 | a preparation error aborts before any write and leaves the store unchanged; otherwise the writes are driven in order, a refused write fails the call, and the store stays keyed |
| Persist.WriteAllFrom | aggregator/src/db/oa_mongodb.rs:121 | once a write is refused, later updates change nothing |
| Persist.KeyedAfterWrites | aggregator/src/db/mongodb.rs:105 | the store stays keyed by `id_key` whatever the driver refuses |
| Persist.UpsertOneTest | aggregator/src/db/oa_mongodb.rs:168-185 | upserting {test, extra} into a store holding at most that id gives one document with that extra |
| Persist.UpsertTwiceExample | aggregator/src/db/mongodb.rs:135-171 | upserting id "test" with extra 21 then 42 succeeds both times and leaves one document, first with 21 and then with 42 |
| Worker.RetryTimeoutSecs | aggregator/src/worker.rs:21-28 | the configured seconds when they fit a u64, else the default 10 |
| Worker.Queue.constructor | aggregator/src/worker.rs:30-33 | the worker starts from the given lists with an empty log |
| Worker.Queue.Step | aggregator/src/worker.rs:35-72 | one iteration moves the lists and appends to the log as the step function says, after other clients' pushes |
| Worker.Queue.Try | aggregator/src/worker.rs:35-72 | the loop body on the `jobs` list as it stands: connect, dequeue the tail into `failed`, run on "run:all", clear `failed`, logging each failure |
| Worker.Queue.Run | aggregator/src/worker.rs:34-73 | the loop performs the iterations of the script, in order |
| Worker.ConnectFailureChangesNothing | aggregator/src/worker.rs:35-71 | a failed connection dequeues nothing: `jobs` only gains what other clients pushed, `failed` is unchanged, and the error is logged |
| Worker.DequeueFailureSkipsDelete | aggregator/src/worker.rs:68 | a failed BRPOPLPUSH skips the delete, takes no job and logs the error |
| Worker.DequeueMovesJob | aggregator/src/worker.rs:38-42 | a dequeue takes the tail of `jobs` (after other clients' pushes) and pushes it in front of `failed`, which the delete then clears |
| Worker.FailedClearedAfterDequeue | aggregator/src/worker.rs:63-66 | after a successful dequeue and delete the failed list is empty, whether or not a job arrived or the run succeeded |
| Worker.RunsOnlyForRunAll | aggregator/src/worker.rs:45-46 | the aggregator runs iff the dequeued payload is "run:all" |
| Worker.FailedRunIsDropped | aggregator/src/worker.rs:53-66 | a failed run is logged and its job ends up in neither list |
| Worker.StepConservesJobs | aggregator/src/worker.rs:38-66 | a step keeps every job it found (the old ones and the newly pushed ones) except those the delete drops: no job is created or duplicated |
| Worker.IterateTakesFromTail | aggregator/src/worker.rs:34-73 | jobs are taken oldest first while other clients push: the remaining jobs are always a prefix of everything pushed (newest first) in front of the original jobs, and each iteration takes at most one |
| Worker.IterateDrains | aggregator/src/worker.rs:34-73 | each iteration with a connection and a dequeue takes one job while there are some: with at least as many jobs as iterations each takes one, and with no pushes the queue drains to empty |
| ApiErrors.First | api/v1/sources/anilist_api.go:22-31 | the first entry, or {"Could not get AniList API error.", 500} when there is none |
| ApiErrors.Text | api/error/error.go:16-18 | a not-found error reads "Could not find " + type + " " + message; an AniList error reads its first entry's message |
| ApiErrors.Unwrap | api/error/error.go:20-27 | exactly one gin layer is removed; other errors are unchanged |
| ApiErrors.StatusCases | api/error/error.go:30-42 | the `sources` AniList error has its first entry's status, a not-found error 404, everything else 500 |
| ApiErrors.DoubleWrappedIs500 | api/error/error.go:30-42 | an error wrapped twice in gin errors is 500 |
| ApiErrors.OtherPackagesAre500 | api/error/error.go:32-34 | the `models` and `anime` AniList errors are 500 |
| ApiErrors.ResponseFor | api/error/error.go:51-69 | no errors, no reply; otherwise the JSON `status` is the last error's status, the HTTP status is the same unless an earlier abort already committed its own, and the message is "Whoops..." iff the JSON status is 500 (or the text itself is "Whoops...") |
| ApiErrors.LastErrorDecides | api/error/error.go:51-56 | only the last error matters |
| ApiErrors.MessageByStatus | api/error/error.go:57-62 | status 500 replies "Whoops...", any other status the last error's text |
| ApiErrors.Texts | api/error/error.go:47-49 | one log line per error, its text, in order |
| ApiErrors.HandleErrors | api/error/error.go:44-70 | the middleware logs every error's text and writes the reply for the errors, keeping a status an earlier abort committed on the header |
| ApiErrors.Recorded | api/v1/anime/list.go:109-110 | recording an error wraps it in exactly one gin error |
| ApiErrors.NotFoundReply | api/error/error.go:35-36 | a not-found error recorded last gives the body status 404 with its text |
| AniListSource.StatusFilter | api/v1/sources/anilist_api.go:62-64 | an empty filter becomes the six statuses in order; any other is kept |
| AniListSource.ApiBody | api/v1/sources/anilist_api.go:90-111 | errors are passed on; a non-"200 OK" reply becomes the decoded AniList error of its package; a "200 OK" reply gives its body |
| AniListSource.Fetch | api/v1/sources/anilist_api.go:56-112 | every error returns empty bytes; no error iff the reply is "200 OK", and then the body comes back unchanged |
| AniListSource.FetchSendsDefaultedFilter | api/v1/sources/anilist_api.go:62-75 | the outcome depends on the transport only through the payload with the defaulted filter |
| AniListSource.RejectedReplyStatus | api/v1/sources/anilist_api.go:101-109 | a rejected request makes the middleware reply with AniList's first status |
| AniListModels.FlatOf | api/v1/models/anilist.go:202-215 | ID→MediaID, Romaji→Title, English→EnglishTitle, entry status→Status, cover→Image; Schedule, Latest and AltTitles stay zero |
| AniListModels.FlatEntriesAt | api/v1/models/anilist.go:201-216 | one record per entry, in entry order |
| AniListModels.FlatEntriesLength | api/v1/models/anilist.go:201-216 | as many records as entries |
| AniListModels.FlatLength | api/v1/models/anilist.go:197-218 | the output length is the total number of entries |
| AniListModels.FlatAt | api/v1/models/anilist.go:197-218 | entry j of list i lands after the entries of the earlier lists, at offset j |
| AniListModels.FlattenLists | api/v1/models/anilist.go:197-218 | the nested loops compute the flattening |
| AniListModels.FetchResult | api/v1/models/anilist.go:137-195 | every error path returns an empty slice |
| AniListModels.Fetch | api/v1/models/anilist.go:136-221 | the method computes the fetch: status defaulting, result selection, flattening |
| AniListModels.FetchFlattens | api/v1/models/anilist.go:197-221 | a successful fetch holds each entry's flat form, list then entry order, one per entry |
| AniListModels.RejectedFetchRepliesWhoops | api/error/error.go:32-38 | the `models` AniList error of a rejected request, recorded without an abort, gets the reply 500 "Whoops..." |
| AnimeList.HandleError | api/v1/anime/list.go:108-111 | the error is recorded twice and the request aborted with 500 |
| AnimeList.Get | api/v1/anime/list.go:117-193 | a reply is written iff the request is not aborted; a reply is 200 with no recorded error; an abort records an error |
| AnimeList.GetAsksForAllAnime | api/v1/anime/list.go:124-131 | only the ANIME request with all six statuses is made |
| AnimeList.RejectedAbortsWithApiStatus | api/v1/anime/list.go:163-172 | a rejected request aborts with AniList's first status and records the `anime` AniList error |
| AnimeList.ClientReply | api/v1/anime/list.go:171 | the client gets a reply iff the handler recorded an error, and an aborted request's HTTP status is the abort status |
| AnimeList.RejectedRepliesWhoops | api/v1/anime/list.go:171 | a rejected request reaches the client with AniList's status on the header but a JSON body of 500 "Whoops..." |
| AnimeList.FailureRepliesWhoops | api/v1/anime/list.go:108-180 | a failure reading the query, sending the request or decoding either reply body is `handleError`: `GET` aborts with 500 and the client gets 500 "Whoops..." |
| SubsPleaseLatest.ShowName | api/v1/models/subsplease.go:70 | the key is a prefix of the category, cut exactly at the first " - " when there is one |
| SubsPleaseLatest.ShowNameHasNoSeparator | api/v1/models/subsplease.go:70 | no key contains " - " |
| SubsPleaseLatest.ShowNameWhole | api/v1/models/subsplease.go:70 | the key is the whole category iff the category contains no " - " |
| SubsPleaseLatest.FetchLatest | api/v1/models/subsplease.go:54-75 | a fetch or XML error returns the still-empty map with the error; otherwise every item under its key, the last one winning |
| SubsPleaseLatest.LatestIndexed | api/v1/models/subsplease.go:69-72 | every item's key is present, holding the last item with that key; keys name their items; no more keys than items |
| SubsPleaseLatest.KeysHaveNoSeparator | api/v1/models/subsplease.go:70-71 | no key of the map contains " - " |
| SubsPleaseLatest.ShowNameBefore | api/v1/models/subsplease.go:70 | a space-free name followed by " - " is cut there |
| SubsPleaseLatest.ShowNameWithoutSpaces | api/v1/models/subsplease.go:70 | a space-free category is kept whole |
| SubsPleaseLatest.ShowNameExamples | api/v1/models/subsplease.go:70 | "Gintama - 720" and "Gintama" are both filed under "Gintama" |
| AltTitleModel.FetchAltTitles | api/v1/models/alt_title.go:16-45 | any index, find or decode error returns an empty map with it; otherwise every item under its media id, the last winning |
| AltTitleModel.AltTitlesIndexed | api/v1/models/alt_title.go:39-42 | each id maps to an item with that id, every decoded id is a key, the last decoded wins, and there are no more keys than items |
| AltTitleModel.GintamaExample | api/v1/models/alt_title_test.go:26-37 | the fixture {1, ["gintama"]} yields exactly {1: {1, ["gintama"]}} |

## Left out

- The string similarity (`strsim::normalized_levenshtein`) and the `f64` comparisons become a `real`-valued parameter. The only place a bound is assumed is `AltTitlesDb.ThresholdAdmitsNoFuzzyHit`, where scores at most 1 are a stated precondition.
- `aggregator/src/merge.rs` is not part of this model. It is matching by tantivy full-text search (BM25 scores), a library that is not shown.
- `aggregator/src/lib.rs`, `main.rs`, `config.rs`, `test.rs`, the Go controllers, router, middleware wiring, `main.go` and configuration loading are orchestration or plumbing. They are not part of this model.
- The network clients (`aggregator/src/sources/anilist_api.rs`, reqwest, fantoccini and `load_schedule_table`, the Go HTTP requests and `subsplease_site.go`) are `Result` parameters or `transport` functions. So are JSON/XML/BSON decoding and the CSS selector engine; `validSelector` and the rows' first matches stand for the engine.
- The regex engines are not modelled; the two fixed patterns are encoded directly. Rust's `\d` is Unicode-aware, but the model accepts ASCII digits only.
- Date parsing (`PubDate`, Go's RSS date layout) is left out; no modelled logic reads the dates.
- Redis caching (`get_cached`, `cache_value_expire_tomorrow`) is a lookup parameter. Its expiry is not modelled, because the cache implementation is not part of the source.
- `DefaultHasher` (SipHash), `bson::to_document`, `DateTime::now` and the MongoDB driver are parameters:
  - the digest is any function into u64;
  - the clock is one `now` per call, where the source reads it once per document;
  - documents are flat (no nested documents or arrays);
  - unique-index enforcement is whatever the driver's verdict says.
- Persist.Collection.UpsertDocuments: `try_join_all` runs the updates concurrently. The model drives them in order and stops at the first refusal, so interleavings of updates that share an id are not modelled.
- The six unique indexes of `init` are the constant `Persist.UniqueIndexes`. Creating them is driver work.
- MangaDex: the JoinSet fan-out, its completion order and the one-second sleep are left out. Requests complete in listed order. `mangadex_api.rs` calls a three-argument `match_similar` that the source does not show, so the model uses the two-argument one (`Matcher`). The chapter number arrives as an already parsed `f64` value (`parseF64`).
- Worker: the endless `loop` is a finite script of Redis and aggregator answers (`Env`), and the log messages are events without timestamps or durations. `RetryTimeoutSecs` takes the configured `usize` as a `nat`.
- Worker: other clients may LPUSH onto `jobs` at any time; the model gathers what they pushed since the previous iteration into that iteration's `Env.pushed`, applied before the connection attempt. Pushes onto `failed` by other clients are not modelled.
- Persist.UpsertAgainOnlyRestamps: with the id key `modified` itself, the filter id is the clock reading, so a second call files new documents; the lemma is stated for every other id key.
- Worker.RetryTimeoutSecs: on 64-bit targets a `usize` always fits a u64, so the fallback to 10 applies only to values no such target has.
- gin's `Context.Error` and `AbortWithError` behaviour (recording wraps an error in a `*gin.Error` unless it already is one) is modelled by `ApiErrors.Recorded`. That `AbortWithError` writes the header at once, and that a later `c.JSON` then sets only the body, is modelled by the `committed` status of `ApiErrors.ResponseFor`. gin itself is not part of the source.
- The Go `json.Marshal` failure of the payload is folded into the transport's error.
- `anime.List` answers with the raw `Lists`; their content is an opaque decoded value.
- The UI, the Rust and Go error wrappers, the worker crate stub and the declaration-only modules are left out.
- Tests that only check that live fetches are non-empty depend on external services and are left out.
