# ltbw_bot sync pipeline in Dafny

This project models the store-driven pipeline of the Landtag Baden-Württemberg
bot. `ltbw_bot_service.py` is the service; `ltgetter.py` and
`mattermost_adapter.py` are earlier drafts of its first and last stages. The
pipeline has four parts:

- **Listing fetcher.** `get_entries` and `ltgetter` page through the public listing
  of Drucksachen back to a stored watermark (`ldate`). They key every record by
  `drucksache/YYYY/MM/DD`, insert the documents not yet known, and move the
  watermark to yesterday.
- **Downloader.** Fetches the PDFs of at most five documents without text, oldest
  first, and stores their text page by page under `-- SEITE n --` headers.
- **Notifier.** `mattermost_adapter` posts documents without a mapping to a
  Mattermost channel, oldest first. A document whose drucksache already has a
  thread is posted as a reply ("Update"); otherwise it opens a new thread ("Neu").
  It records a mapping from each document to its post and the thread root.
- **Scheduler.** The `__main__` loop runs each stage when its interval has
  elapsed. It counts consecutive connection errors and ends the process on the
  eleventh in a row, or on any other error.

The tables `dokumente`, `dokumenttexte`, the mapping table and `config` are maps
in the class `Database.Store`. Its invariant `Valid` has three parts:
- every document sits under the key derived from its content;
- text rows and mappings refer to documents;
- all mappings of one drucksache share one root, the post id of one of them.

Every stage keeps this invariant.

The outside world comes in as parameters:
- the listing as `feed(offset)`, a page of records where `None` is an entry that
  did not parse, or a failure;
- the PDF text as `extract(doc)`;
- the chat server's answers as `chat(doc)` and `login`;
- the clock as explicit readings.

The drafts are variants (`Common.Variant`) of the same stages:
- `Draft` in `Fetcher` commits the watermark with the inserts in one transaction.
- `Draft` in `Notifier` has no batch limit, does not catch exceptions in the
  mention step, and commits only after the loop.

Modules, in dependency order:

| module | file |
|---|---|
| Common | `common.dfy` |
| Digits | `digits.dfy` |
| Dates | `dates.dfy` |
| Records | `records.dfy` |
| Database | `database.dfy` |
| Batches | `batches.dfy` |
| Listing | `listing.dfy` |
| Fetcher | `fetcher.dfy` |
| Downloader | `downloader.dfy` |
| Notifier | `notifier.dfy` |
| Scheduler | `scheduler.dfy` |

### Behaviour of the code worth noting

- **Pagination ceiling.** `ltbw_bot_service.py:104-111` fetches a page before
  testing `c > 30`, so the loop makes at most 32 fetches. An empty page merges
  nothing, so the loop goes on as long as the oldest merged record is after the
  watermark.
- **Empty merged dict.** `ltbw_bot_service.py:105` takes `min` of the merged
  dates. When nothing has been merged, this raises and fails the run.
- **Page without text.** At `ltbw_bot_service.py:161`, a page whose
  `extract_text()` returns `None` raises. The handler at lines 167-169 catches
  it, so that document gets no text row at all.
- **Root lookup.** `get_post` of the thread root (`ltbw_bot_service.py:215`)
  is outside the `try` of lines 217-228. A failure there ends the notifier run
  without a mapping for that document. Only the reactions and mention part is
  caught.
- **Getter commits.** The service commits at line 91, right after creating a
  missing `ldate` row (lines 88-91). After that it commits only inside the
  insert loop (`ltbw_bot_service.py:119-124`). A run that merged no entry
  therefore never commits the watermark set at line 114. The draft commits
  once after its loop (`ltgetter.py:87-93`), so it always moves the watermark.

## Model

| member | source | states |
|---|---|---|
| Digits.ValueOfPadded | ltbw_bot_service.py:89 | a number written with `w` zero-padded digits consists of digits and reads back as that number |
| Digits.PaddedOfValue | ltbw_bot_service.py:94 | a digit string of width `w` is the zero-padded form of its value, so parsing then formatting returns the text |
| Digits.ValueOfDecimal | ltbw_bot_service.py:161 | `str(c)` of a page number consists of digits and reads back as the number |
| Dates.Yesterday | ltbw_bot_service.py:114 | `now - timedelta(days=1)` is the latest date strictly before `now`'s date |
| Dates.ParseFormatIso | ltbw_bot_service.py:89-94 | a watermark written with `%Y-%m-%d` is parsed back by `strptime` to the same date |
| Dates.FormatParseIso | ltbw_bot_service.py:94 | a stored watermark that parses is exactly the `%Y-%m-%d` text of the parsed date |
| Dates.FormatPathInjective | ltbw_bot_service.py:72 | different dates give different `%Y/%m/%d` texts |
| Records.KeyInjective | ltbw_bot_service.py:72 | two keys are equal if and only if their drucksache and datum are equal |
| Listing.GetEntries | ltbw_bot_service.py:52-77 | the loop over the raw entries builds the dict of the page: records that failed to parse are skipped, later records overwrite earlier ones of the same key |
| Listing.PageWellKeyed | ltbw_bot_service.py:72-74 | every record of a page dict sits under the key derived from its drucksache and datum |
| Listing.PageKeys | ltgetter.py:38-54 | a key is in the page dict exactly when some parsed record of the page has that key |
| Listing.LastRecordWins | ltbw_bot_service.py:74 | a record that no later record of the page shares its key with is the value under its key |
| Listing.DroppedChunkHarmless | ltbw_bot_service.py:75-76 | an entry that fails to parse does not change the page dict |
| Listing.MergeOverwrites | ltbw_bot_service.py:104 | `{**entries, **page}` has the union of the keys, the page's value on shared keys, the old value elsewhere, and keeps every record under its own key |
| Listing.MergePages | ltgetter.py:78 | the dict of two pages read one after the other is the merge of their dicts |
| Listing.OldestDatum | ltbw_bot_service.py:105 | `min` of the merged dates is the datum of some merged record and no later than any |
| Listing.OldestDecides | ltbw_bot_service.py:102-105 | the loop goes on exactly when every merged record is later than the watermark |
| Listing.OldestAfter | ltbw_bot_service.py:102-105 | comparing `min` of the merged dates with the watermark tells exactly whether every merged record is after it |
| Listing.PageRun | ltbw_bot_service.py:103-105 | one pass of the loop body fetches the page at `30 * c`, merges its dict and evaluates the loop condition, as `RunOf` says: a failed fetch or an empty merged dict raises |
| Listing.PagingStep | ltbw_bot_service.py:102-112 | after a pass that raises the loop's result is that error; after one that merges, the loop ends at the ceiling with that dict or continues with it into the next pass |
| Listing.Paginate | ltbw_bot_service.py:98-112 | the pagination loop's result is `PaginationOf`: fetch failures and an empty merged dict fail the run, the loop stops at the first page whose oldest merged record is not after the watermark or after pass 31 |
| Listing.PaginationShape | ltbw_bot_service.py:98-112 | at most 32 fetches; none, and an empty dict, exactly when the watermark day has not begun before now; the dict is the first `fetches` pages merged in order; every dict merged before the last had all records after the watermark, so the loop stops at the first that does not; a run that stops short of 32 fetches holds a record no later than the watermark |
| Listing.PagesFromBounds | ltbw_bot_service.py:102-112 | a loop entered at pass `c` that does not fail makes more than `c` and at most 32 fetches and ends with a record in its dict |
| Listing.PagesFromStops | ltbw_bot_service.py:102-109 | a loop that ends before the 32nd fetch ends because its merged dict fails the loop condition |
| Listing.PagesFromAccumulated | ltbw_bot_service.py:104 | a loop entered with the dicts of the passes before it ends with the dicts of every pass up to its last merged in order |
| Listing.PagesFromContinues | ltbw_bot_service.py:102-111 | every dict merged before the loop's last pass met the loop condition, so the loop does not run past the first pass whose dict fails it |
| Listing.PagesFromShape | ltgetter.py:72-85 | entering the draft's loop at pass `c` with the pages so far gives more than `c` and at most 32 fetches, the merge of exactly those pages, every dict merged before the last meeting the loop condition, and, short of 32 fetches, a last dict that fails it |
| Listing.MergeKeyed | ltbw_bot_service.py:104 | merging two dicts that file every record under its own key gives such a dict |
| Listing.MergeNonEmpty | ltbw_bot_service.py:104-105 | the merged dict is empty only when both dicts are, so `min` fails only when nothing was ever merged |
| Listing.MergeAllAfter | ltbw_bot_service.py:102-105 | merging two dicts whose records are all after the watermark gives such a dict |
| Listing.AccumulatedKeyed | ltbw_bot_service.py:104 | merging pages in order, each filing its records under their own keys, keeps every record under its own key |
| Listing.AccumulatedWellKeyed | ltbw_bot_service.py:72-104 | every dict the listing's pages merge into files each record under its own key |
| Listing.FirstPageFetched | ltbw_bot_service.py:100-105 | when the watermark day has begun, the first page is fetched; its failure, or a first page with no parsed record, fails the run |
| Listing.RunsToCeiling | ltbw_bot_service.py:102-112 | while every pass fetches and the merged dict keeps meeting the loop condition, the loop runs to the ceiling of 32 fetches, empty pages included |
| Listing.CeilingReached | ltbw_bot_service.py:107-112 | while every page fetched holds only records after the watermark, the loop runs to the ceiling of 32 fetches, empty pages included |
| Database.InsertAbsent | ltbw_bot_service.py:118-125 | after the insert loop the documents are the old keys plus the merged keys; present rows are unchanged and new rows are built from their records |
| Database.InsertAbsentIdempotent | ltbw_bot_service.py:119-123 | inserting the same entries again changes nothing and finds no absent key |
| Database.InsertAbsentCount | ltbw_bot_service.py:118-125 | the table grows by exactly the number of merged keys that were absent |
| Database.InsertNothing | ltbw_bot_service.py:119 | inserting an empty dict leaves the table as it was |
| Database.InsertAbsentKeyed | ltbw_bot_service.py:121 | inserting well-keyed entries keeps every document under the key derived from its content |
| Database.InsertLoop | ltbw_bot_service.py:118-125 | the insert loop over the merged keys yields the insert-if-absent table, and its counter `c` is the number of absent keys |
| Database.SameThread | ltbw_bot_service.py:194-197 | in a consistent mapping table, two mappings of one drucksache carry the same root |
| Database.OpenThread | ltbw_bot_service.py:211-212 | a mapping whose root is its own post, for a drucksache without mappings, keeps threads consistent |
| Database.JoinThread | ltbw_bot_service.py:196-197 | a mapping that takes the root of a mapping of its drucksache keeps threads consistent |
| Database.InsertKeepsConsistency | ltbw_bot_service.py:119-123 | inserting entries keeps documents keyed by content and leaves text rows and mappings referring to documents |
| Database.Store.constructor | ltbw_bot_service.py:241 | a freshly created database has empty tables and satisfies the store invariant |
| Database.Store.InsertEntries | ltbw_bot_service.py:118-125 | the store's documents become the insert-if-absent table, the count is that of the absent keys, the other tables are untouched and the invariant holds |
| Batches.SelectBatch | ltbw_bot_service.py:136-140 | `order_by(datum).limit(n)` returns as many pending rows as the limit allows, distinct, in ascending datum, none later than a pending row left out |
| Batches.UnlimitedCoversPool | mattermost_adapter.py:28-29 | without a limit the batch holds every pending document |
| Fetcher.WithWatermark | ltbw_bot_service.py:88-91 | after the first block an `ldate` row exists, every other config row is unchanged, and an existing `ldate` row is kept as it was |
| Fetcher.WatermarkInitialised | ltgetter.py:64-70 | a missing `ldate` row is created holding `start_date`, which is then read back as the watermark |
| Fetcher.UnreadableWatermarkFails | ltbw_bot_service.py:93-94 | a watermark that does not parse fails the run before any page is fetched and changes no document |
| Fetcher.NewWatermarkReadsBack | ltbw_bot_service.py:114 | the new watermark exists unless `now` is on the first day of year 1, and reads back as the day before `now`, whatever was fetched |
| Fetcher.GetNewDocuments | ltbw_bot_service.py:80-127 | one `ltgetter` run leaves `dokumente` and `config` as `GetterEffect` says (watermark created, pages read, entries inserted if absent, watermark moved), the other tables untouched and the invariant kept |
| Fetcher.FinishFailureKeepsTables | ltbw_bot_service.py:102-124 | a run that fails leaves the documents and the watermark as they were after the first block |
| Fetcher.FinishIngests | ltbw_bot_service.py:118-125 | after a completed run every merged key is a document, present documents are unchanged, new ones are built from their records, and the count is exactly the growth of the table |
| Fetcher.ServiceWatermark | ltbw_bot_service.py:114-124 | the service moves the watermark only when it merged entries; a run that merged nothing leaves both tables as they were |
| Fetcher.DraftWatermark | ltgetter.py:87-93 | the draft's single commit always moves the watermark to yesterday on a completed run |
| Downloader.BlocksAppend | ltbw_bot_service.py:160-162 | appending a page appends its block, numbered after the pages before it |
| Downloader.PageInText | ltbw_bot_service.py:158-162 | page `i+1`'s text sits under its own `-- SEITE i+1 --` header after the blocks of the pages before it |
| Downloader.RenderStep | ltbw_bot_service.py:160-162 | one more page with text extends the document text by that page's block |
| Downloader.RenderPages | ltbw_bot_service.py:157-162 | the page loop builds the concatenated page text, or fails when a page has no text |
| Downloader.DownloadBatch | ltbw_bot_service.py:143-169 | the loop over the batch yields the text rows `Downloaded` gives, each failure being caught per document |
| Downloader.DownloadedRows | ltbw_bot_service.py:143-169 | exactly the batched documents whose text could be built get a row, holding that text; every other row is unchanged |
| Downloader.DownloadedReferTo | ltbw_bot_service.py:163-164 | new text rows belong to documents and copy their drucksache |
| Downloader.Download | ltbw_bot_service.py:129-170 | the downloader works on the five oldest documents without text and stores their text rows; no exception leaves it; other tables untouched; invariant kept |
| Notifier.MessageShowsKind | ltbw_bot_service.py:204-205 | a post starts with "Neu: " or "Update: " as its kind says |
| Notifier.RelatedRoot | ltbw_bot_service.py:194-197 | the `related` query finds nothing exactly when no mapping has the drucksache, and otherwise returns the root every such mapping carries |
| Notifier.StepClassifies | ltbw_bot_service.py:194-232 | a document is posted as "Update" in reply to the root exactly when the query found one, otherwise as "Neu"; its mapping is recorded, with the post id and the right root, unless `create_post`, `get_post` or the draft's mention step throws; the service records it even when the mention fails |
| Notifier.StepKeepsThreads | ltbw_bot_service.py:210-231 | handling one document keeps all mappings of each drucksache on one root |
| Notifier.RunStep | ltbw_bot_service.py:190-232 | after one document the rest of the batch is still unmapped, old rows are kept, only that document can be added, and it is added exactly when no exception was raised |
| Notifier.RunKeepsRows | ltbw_bot_service.py:190-232 | the loop keeps the mappings it found and adds mappings only for documents of the batch |
| Notifier.RunMapsAll | ltbw_bot_service.py:230-232 | when no exception ends the loop, every document of the batch has a mapping |
| Notifier.RunKeepsThreads | mattermost_adapter.py:35-66 | the loop keeps threads consistent: later revisions processed in the same run see earlier mappings and share their root |
| Notifier.RunReferTo | ltbw_bot_service.py:230-231 | mappings made by the loop belong to documents and copy their drucksache |
| Notifier.FindRoot | ltbw_bot_service.py:194-202 | the `related` query gives the root of the thread of the drucksache, or none when the drucksache has no mapping |
| Notifier.PostOne | ltbw_bot_service.py:204-232 | the post is "Update" in reply to the root when the query found one, otherwise "Neu"; the mapping is recorded, with the post id and the thread's root (the post itself for a new thread), exactly when no exception ends the loop; old mappings are kept and no other is added |
| Notifier.PostDocuments | ltbw_bot_service.py:190-232 | the loop over the batch gives the mappings, posts and exception of `Run` |
| Notifier.ReactingUsersAsWritten | mattermost_adapter.py:55-57 | as written, `set() + str` raises in the first pass, so the reactions loop raises exactly when the root post has a reaction, and otherwise leaves the empty set |
| Notifier.OneReactionRaises | ltbw_bot_service.py:217-219 | with one reaction on the root post the loop as written raises, while the intended loop yields that user |
| Notifier.ReactingUsers | ltbw_bot_service.py:216-220 | the corrected reactions loop collects exactly the users who reacted |
| Notifier.MentionText | ltbw_bot_service.py:221-224 | the mention text mentions every reacting user once, in the order the set is visited |
| Notifier.MentionAt | mattermost_adapter.py:59-62 | each user's `@name ` sits in the mention text between the mentions of the users before and after it |
| Notifier.DraftFailureCommitsNothing | mattermost_adapter.py:53-69 | in the draft, a run that ends with an exception commits none of its mappings |
| Notifier.NotifyKeepsThreads | mattermost_adapter.py:35-69 | both variants keep old mappings and thread consistency, map only batched documents, and map all of them when nothing throws |
| Notifier.BatchUnmapped | ltbw_bot_service.py:179-184 | the batch the query selects consists of distinct known documents without a mapping |
| Notifier.Notify | ltbw_bot_service.py:174-234 | the notifier posts the ten (draft: all) oldest unmapped documents; the mappings and the posts made (returned as ghost `posts`) become those of `NotifyEffect`; the service keeps the mappings made before an exception, the draft none of them; other tables untouched; invariant kept |
| Scheduler.OutcomeCounts | ltbw_bot_service.py:247-270 | the service keeps running exactly while no pass raised an unknown error and no streak of connection errors exceeded ten, and its counter is then the length of the current streak |
| Scheduler.StreakOfErrors | ltbw_bot_service.py:261-264 | every further connection error lengthens the current streak by one |
| Scheduler.ElevenInARow | ltbw_bot_service.py:261-270 | eleven connection errors in a row end the service whatever came before, and any other error ends it at once |
| Scheduler.Service.constructor | ltbw_bot_service.py:243-247 | before the loop every stage last ran at 1970-01-01 and the counter is 0 |
| Scheduler.Service.GetterStage | ltbw_bot_service.py:251-253 | the getter runs exactly when its interval has elapsed, after recording its start time, leaving the tables `GetterEffect` gives; texts and mappings untouched |
| Scheduler.Service.DownloaderStage | ltbw_bot_service.py:254-256 | the downloader runs exactly when due, after recording its start time, stores the texts of the five oldest documents without text and raises nothing |
| Scheduler.Service.NotifierStage | ltbw_bot_service.py:257-259 | the notifier runs exactly when due, after recording its start time, posts the ten oldest unmapped documents with the mappings and posts of `NotifyEffect`, and raises exactly when `NotifyEffect` ends with an exception |
| Scheduler.Service.Stages | ltbw_bot_service.py:250-259 | the `try` block of a pass moves the service as `StagesSpec` says: a stage runs exactly when its interval has elapsed and no earlier stage threw, after recording its start time; the getter's tables are those of `GetterEffect`; the downloader stores the texts `Downloaded` gives for the five oldest documents without text, in the documents the getter left; the notifier posts the ten oldest unmapped ones, its mappings, posts and exception those of `NotifyEffect`; skipped stages change nothing |
| Scheduler.Service.Tick | ltbw_bot_service.py:250-270 | one pass moves the service as `TickSpec` says: the stages as in `StagesSpec`, with their batches and posts; the pass's first exception appended to the history; the counter reset after a clean pass, raised by one after a connection error (to eleven on the fatal pass, as at line 264) and kept after any other exception; the verdict is that of the whole history |
| Scheduler.Service.Serve | ltbw_bot_service.py:248-274 | the loop runs the passes in order: pass `i` takes the service from `states[i]` to `states[i+1]` as `TickSpec` says, with the clock readings and servers of `passes[i]`, report `reports[i]` and the batches and posts `handled[i]`; `states` runs from the old state to the new one; every pass starts from a running service; the loop runs every pass unless a verdict is fatal, and the verdict is that of the whole history |

## Findings

| source | as written | input that shows it | evidently intended | confidence | as-written member | corrected member |
|---|---|---|---|---|---|---|
| ltbw_bot_service.py:219 and mattermost_adapter.py:57 | `rusers = rusers + reaction['user_id']` adds a string to a set, which raises `TypeError` | an update whose thread root has one reaction | `rusers.add(reaction['user_id'])`, so that the reacting users are mentioned | high; not executed | Notifier.ReactingUsersAsWritten | Notifier.ReactingUsers |

In the service the `TypeError` is caught, so the mention post is never made
when there are reactions. In the draft it is not caught: it ends the run, and
no mapping of that run is committed (`Notifier.DraftFailureCommitsNothing`).
The notifier stages treat the mention step as one that may fail
(`Exchange.mention`), which holds for the corrected loop too, because
`get_user` and the second `create_post` can fail.

## Left out

- HTTP and HTML. `requests.get` and the BeautifulSoup parsing of a listing entry
  are not modelled. A page is a sequence of records, with `None` where parsing
  raised.
- PDF handling. The download, the file write and `pdfplumber` are one
  `Extraction` per document: unavailable, or the text of each page (`None` where
  `extract_text()` returns `None`).
- The Mattermost client. The client is not modelled. `create_post`, `get_post` and the mention step are one
  `Exchange` per document, and `login` is one optional failure.
- Mention posts. They are not recorded among the posts, and the mention text is
  modelled apart (`Notifier.MentionText`).
- SQLAlchemy. Sessions and queries are maps. A commit is the assignment of a
  stage's final tables. In the service's downloader and notifier, per-row commits
  equal one commit at the end, because the rows of a failed document are never
  added. The MD5-derived mapping table name is not modelled.
- The `related` query's `.first()`. It may return any mapping of the drucksache.
  The model picks one arbitrarily; all share one root while the store invariant holds.
- Clock readings. `datetime.now()` is read twice per stage in the scheduler and
  twice in `ltgetter`; the model uses one reading per stage. The seconds count
  and the calendar moment of the getter's reading are not tied together.
  `time.sleep(10)` is not modelled.
- Fractional seconds. `Scheduler.Due` compares whole seconds: the model's
  readings are integers, while `total_seconds()` is a float with microseconds,
  so a pass exactly at the interval boundary may be judged differently.
- `Dates.ParseIso`. It accepts only the canonical `YYYY-MM-DD` form (four-digit
  year, two-digit month and day). `strptime` also accepts unpadded fields, which
  no watermark written by the service has.
- Years before 1000. Their `%Y` is written with four digits in the model; the
  platform's `strftime` may omit the padding.
- Printing and the `c` counters used only for messages.
- Overflow before year 1. A `datetime.now() - timedelta(days=1)` that would fall
  before year 1 raises `OverflowError`; the model treats it as a failed getter run.
