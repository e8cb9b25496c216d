/** `ltgetter`: read (or create) the `ldate` watermark, page through the listing
    back to it, insert the documents not yet known and move the watermark to
    yesterday. The service commits after every inserted entry; the earlier
    draft commits once at the end. */
module Fetcher {
  import opened Common
  import opened Dates
  import opened Records
  import opened Database
  import opened Listing

  /** The `config` key of the watermark. */
  const WatermarkKey: string := "ldate"

  datatype FetchOutcome = Completed(added: nat) | Failed(error: Failure)

  /** The tables `ltgetter` touches after a run, and how the run ended. */
  datatype GetterRun = GetterRun(documents: map<string, Document>, config: map<string, string>, outcome: FetchOutcome)

  /** The config after the first block of `ltgetter`: a missing `ldate` row is
      created from `start_date` (and committed at once). */
  function WithWatermark(config: map<string, string>, startDate: Date): (r: map<string, string>)
    ensures WatermarkKey in r
    ensures forall k :: k in config ==> k in r
    ensures forall k :: k in r && k != WatermarkKey ==> k in config && r[k] == config[k]
    ensures WatermarkKey in config ==> r == config
  {
    if WatermarkKey in config then config else config[WatermarkKey := FormatIso(startDate)]
  }

  /** The watermark `ltgetter` moves to: `now - 1 day` as `%Y-%m-%d`, or `None`
      where that subtraction overflows (on the first day of year 1). */
  function NewWatermark(now: Moment): Option<string> {
    if now.date == FirstDay then None else Some(FormatIso(Yesterday(now.date)))
  }

  /** The new watermark reads back as the day before `now`, whatever was fetched. */
  lemma NewWatermarkReadsBack(now: Moment)
    ensures NewWatermark(now).Some? <==> now.date != FirstDay
    ensures NewWatermark(now).Some? ==> ParseIso(NewWatermark(now).value) == Some(Yesterday(now.date))
  {
    if now.date != FirstDay {
      ParseFormatIso(Yesterday(now.date));
    }
  }

  /** What `ltgetter` does once the pagination loop has ended with `pages`: a
      failure leaves the tables as they are; otherwise the merged entries are
      inserted and the watermark moves to `watermark`, committed by the service
      only together with an inserted entry. */
  function Finish(
    variant: Variant, docs0: map<string, Document>, config1: map<string, string>,
    watermark: Option<string>, pages: Pagination): GetterRun
  {
    match pages
    case PageFailed(e) => GetterRun(docs0, config1, Failed(e))
    case Paged(entries, _) =>
      match watermark
      case None => GetterRun(docs0, config1, Failed(OtherError))
      case Some(w) =>
        var config := if variant == Draft || entries != map[] then config1[WatermarkKey := w] else config1;
        GetterRun(InsertAbsent(docs0, entries), config, Completed(|entries.Keys - docs0.Keys|))
  }

  /** The effect of one `ltgetter` run on `dokumente` and `config`.
      `now` is the current time (both readings of it), `feed(offset)` the
      listing page at that offset. */
  ghost function GetterEffect(
    variant: Variant, docs0: map<string, Document>, config0: map<string, string>,
    startDate: Date, now: Moment, feed: nat -> Fetch): GetterRun
  {
    var config1 := WithWatermark(config0, startDate);
    match ParseIso(config1[WatermarkKey])
    case None => GetterRun(docs0, config1, Failed(OtherError))
    case Some(watermark) => Finish(variant, docs0, config1, NewWatermark(now), PaginationOf(feed, watermark, now))
  }

  /** `ltgetter(engine, start_date)` on the store. */
  method GetNewDocuments(
    store: Store, variant: Variant, startDate: Date, now: Moment, feed: nat -> Fetch)
    returns (outcome: FetchOutcome)
    requires store.Valid()
    modifies store
    ensures store.Valid()
    ensures var run := GetterEffect(variant, old(store.documents), old(store.config), startDate, now, feed);
      store.documents == run.documents && store.config == run.config && outcome == run.outcome
    ensures store.texts == old(store.texts) && store.mappings == old(store.mappings)
  {
    if WatermarkKey !in store.config {
      store.config := store.config[WatermarkKey := FormatIso(startDate)];
    }
    var parsed := ParseIso(store.config[WatermarkKey]);
    if parsed.None? {
      return Failed(OtherError);
    }
    var pages := Paginate(feed, parsed.value, now);
    if pages.PageFailed? {
      return Failed(pages.error);
    }
    var yesterday := NewWatermark(now);
    if yesterday.None? {
      return Failed(OtherError);
    }
    PaginationShape(feed, parsed.value, now);
    var entries := pages.entries;
    var added := store.InsertEntries(entries);
    if variant == Draft || entries != map[] {
      store.config := store.config[WatermarkKey := yesterday.value];
    }
    return Completed(added);
  }

  /** The watermark a run reads: `start_date` on the first run. */
  function StoredWatermark(config0: map<string, string>, startDate: Date): Option<Date> {
    ParseIso(WithWatermark(config0, startDate)[WatermarkKey])
  }

  /** On the first run the watermark row holds `start_date` and reads back as it. */
  lemma WatermarkInitialised(config0: map<string, string>, startDate: Date)
    requires WatermarkKey !in config0
    ensures WithWatermark(config0, startDate)[WatermarkKey] == FormatIso(startDate)
    ensures StoredWatermark(config0, startDate) == Some(startDate)
  {
    ParseFormatIso(startDate);
  }

  /** An unreadable watermark fails the run before anything is fetched. */
  lemma UnreadableWatermarkFails(
    variant: Variant, docs0: map<string, Document>, config0: map<string, string>,
    startDate: Date, now: Moment, feed: nat -> Fetch)
    requires StoredWatermark(config0, startDate).None?
    ensures GetterEffect(variant, docs0, config0, startDate, now, feed) ==
      GetterRun(docs0, WithWatermark(config0, startDate), Failed(OtherError))
  {
  }

  /** A run that fails leaves `dokumente` and the watermark as they were after
      the first block; only a watermark row created there has been committed. */
  lemma FinishFailureKeepsTables(
    variant: Variant, docs0: map<string, Document>, config1: map<string, string>,
    watermark: Option<string>, pages: Pagination)
    ensures var run := Finish(variant, docs0, config1, watermark, pages);
      run.outcome.Failed? ==> run.documents == docs0 && run.config == config1
    ensures pages.PageFailed? ==> Finish(variant, docs0, config1, watermark, pages).outcome == Failed(pages.error)
  {
  }

  /** Insert-if-absent: after a completed run every merged key is a document,
      the documents already present are unchanged, the new ones are built from
      their records, and `added` counts exactly the keys that were absent. */
  lemma FinishIngests(
    variant: Variant, docs0: map<string, Document>, config1: map<string, string>,
    watermark: Option<string>, pages: Pagination)
    ensures var run := Finish(variant, docs0, config1, watermark, pages);
      run.outcome.Completed? ==>
        && pages.Paged?
        && run.documents.Keys == docs0.Keys + pages.entries.Keys
        && (forall k :: k in docs0 ==> run.documents[k] == docs0[k])
        && (forall k :: k in pages.entries && k !in docs0 ==> run.documents[k] == NewDocument(k, pages.entries[k]))
        && run.outcome.added == |run.documents.Keys| - |docs0.Keys|
  {
    if pages.Paged? && watermark.Some? {
      InsertAbsentCount(docs0, pages.entries);
    }
  }

  /** The service sets the watermark whatever the oldest record fetched, but
      only commits it together with an inserted entry: a run that merged
      nothing leaves both tables as they were. */
  lemma ServiceWatermark(docs0: map<string, Document>, config1: map<string, string>, watermark: Option<string>, pages: Pagination)
    ensures var run := Finish(Service, docs0, config1, watermark, pages);
      run.outcome.Completed? ==>
        && watermark.Some?
        && (pages.entries != map[] ==> run.config == config1[WatermarkKey := watermark.value])
        && (pages.entries == map[] ==> run.config == config1 && run.documents == docs0)
  {
    if pages.Paged? && watermark.Some? {
      var run := Finish(Service, docs0, config1, watermark, pages);
      if pages.entries == map[] {
        InsertNothing(docs0);
        assert run.documents == InsertAbsent(docs0, map[]);
      } else {
        assert run.config == config1[WatermarkKey := watermark.value];
      }
    }
  }

  /** The draft commits the watermark with the inserts in one transaction, so a
      completed run always sets it, even one that fetched nothing. */
  lemma DraftWatermark(docs0: map<string, Document>, config1: map<string, string>, watermark: Option<string>, pages: Pagination)
    ensures var run := Finish(Draft, docs0, config1, watermark, pages);
      run.outcome.Completed? ==> watermark.Some? && run.config == config1[WatermarkKey := watermark.value]
  {
  }
}
