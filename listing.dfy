/** `get_entries` and the pagination loop of `ltgetter`: the Landtag listing is
    fetched 30 records at a time and merged into one dict keyed by
    `drucksache/YYYY/MM/DD` until the oldest merged date reaches the watermark. */
module Listing {
  import opened Common
  import opened Dates
  import opened Records
  import opened Database
  import opened Batches

  /** One listing page as the scraper splits it: a record per `<hr`-separated
      chunk, or `None` where parsing the chunk threw. */
  type Page = seq<Option<Record>>

  /** What `requests.get` of one listing URL yields. */
  datatype Fetch = Fetched(items: Page) | FetchFailed(error: Failure)

  /** The `limit` of every listing request, and the offset step. */
  const PageSize: nat := 30

  /** The loop stops after the fetch made with `c > LastRun`, so `LastRun + 2` fetches at most. */
  const LastRun: nat := 30

  /** The dict `get_entries` builds from one page, chunk by chunk. */
  ghost function PageEntries(items: Page): map<string, Record>
    decreases |items|
  {
    if items == [] then map[]
    else
      var r0 := PageEntries(items[..|items| - 1]);
      match items[|items| - 1]
      case None => r0
      case Some(rec) => r0[KeyOf(rec) := rec]
  }

  /** `get_entries`: parsed records are filed under their key, a later record
      replacing an earlier one with the same key; chunks that failed to parse are skipped. */
  method GetEntries(items: Page) returns (entries: map<string, Record>)
    ensures entries == PageEntries(items)
  {
    entries := map[];
    var i := 0;
    while i < |items|
      invariant 0 <= i <= |items|
      invariant entries == PageEntries(items[..i])
    {
      assert items[..i + 1][..i] == items[..i];
      match items[i] {
        case None =>
        case Some(rec) => entries := entries[KeyOf(rec) := rec];
      }
      i := i + 1;
    }
    assert items[..|items|] == items;
  }

  /** Every record of a page's dict sits under its own key. */
  lemma {:induction false} PageWellKeyed(items: Page)
    ensures WellKeyed(PageEntries(items))
    decreases |items|
  {
    if items != [] {
      PageWellKeyed(items[..|items| - 1]);
    }
  }

  /** Every parsed record of a page is filed under its own key. */
  lemma {:induction false} PageKeys(items: Page, k: string)
    ensures k in PageEntries(items) <==> exists i :: 0 <= i < |items| && items[i].Some? && KeyOf(items[i].value) == k
    decreases |items|
  {
    if items != [] {
      var init := items[..|items| - 1];
      PageKeys(init, k);
      assert forall i :: 0 <= i < |init| ==> init[i] == items[i];
    }
  }

  /** The value under a key is the last parsed record of the page with that key. */
  lemma {:induction false} LastRecordWins(items: Page, i: nat)
    requires i < |items| && items[i].Some?
    requires forall j :: i < j < |items| && items[j].Some? ==> KeyOf(items[j].value) != KeyOf(items[i].value)
    ensures KeyOf(items[i].value) in PageEntries(items)
    ensures PageEntries(items)[KeyOf(items[i].value)] == items[i].value
    decreases |items|
  {
    if i < |items| - 1 {
      var init := items[..|items| - 1];
      LastRecordWins(init, i);
    }
  }

  /** `{**entries, **page}`: the keys of both, the page's record on a shared key. */
  function Merge(entries: map<string, Record>, page: map<string, Record>): map<string, Record> {
    entries + page
  }

  /** The merge keeps every key of both dicts and lets the page win on a shared key. */
  lemma MergeOverwrites(entries: map<string, Record>, page: map<string, Record>)
    ensures Merge(entries, page).Keys == entries.Keys + page.Keys
    ensures forall k :: k in page ==> Merge(entries, page)[k] == page[k]
    ensures forall k :: k in entries && k !in page ==> Merge(entries, page)[k] == entries[k]
    ensures WellKeyed(entries) && WellKeyed(page) ==> WellKeyed(Merge(entries, page))
  {
  }

  /** Merging two dicts keyed by content gives one keyed by content. */
  lemma MergeKeyed(entries: map<string, Record>, page: map<string, Record>)
    requires WellKeyed(entries) && WellKeyed(page)
    ensures WellKeyed(Merge(entries, page))
  {
  }

  lemma MergeUpdate(entries: map<string, Record>, page: map<string, Record>, k: string, rec: Record)
    ensures Merge(entries, page)[k := rec] == Merge(entries, page[k := rec])
  {
  }

  lemma MergeNothing(entries: map<string, Record>)
    ensures Merge(entries, map[]) == entries
  {
  }

  /** Merging the dicts of two pages files the same records as one page holding both. */
  lemma {:induction false} MergePages(first: Page, second: Page)
    ensures PageEntries(first + second) == Merge(PageEntries(first), PageEntries(second))
    decreases |second|
  {
    if second == [] {
      assert first + second == first;
      MergeNothing(PageEntries(first));
    } else {
      var init := second[..|second| - 1];
      MergePages(first, init);
      assert (first + second)[..|first + second| - 1] == first + init;
      match second[|second| - 1]
      case None =>
      case Some(rec) => MergeUpdate(PageEntries(first), PageEntries(init), KeyOf(rec), rec);
    }
  }

  /** A chunk that fails to parse changes nothing for the chunks around it. */
  lemma DroppedChunkHarmless(before: Page, after: Page)
    ensures PageEntries(before + [None] + after) == PageEntries(before + after)
  {
    MergePages(before + [None], after);
    MergePages(before, after);
    assert (before + [None])[..|before|] == before;
  }

  /** Every merged record is dated after the watermark: `ldate > startdate` after `min`. */
  ghost predicate AllAfter(entries: map<string, Record>, watermark: Date) {
    forall k :: k in entries ==> Before(watermark, entries[k].datum)
  }

  /** What the loop gets from the fetch of one pass: the page's dict, or the failure. */
  datatype PageDict = Dict(entries: map<string, Record>) | DictFailed(error: Failure)

  /** The listing as the loop sees it: pass `i` calls `get_entries(30, 30 * i)`. */
  ghost function Dicts(feed: nat -> Fetch): nat -> PageDict {
    (i: nat) =>
      match feed(PageSize * i)
      case Fetched(items) => Dict(PageEntries(items))
      case FetchFailed(e) => DictFailed(e)
  }

  /** The loop condition `ldate > startdate` on a merged dict. */
  ghost function After(watermark: Date): map<string, Record> -> bool {
    entries => AllAfter(entries, watermark)
  }

  /** The merged dict and the number of fetches, or the error that ended the loop. */
  datatype Pagination = Paged(entries: map<string, Record>, fetches: nat) | PageFailed(error: Failure)

  /** One pass of the loop body: the error it raises, or the merged dict and
      whether the loop condition still holds. */
  datatype Run = RunFailed(error: Failure) | Merged(entries: map<string, Record>, later: bool)

  /** Pass `c` with the dict merged so far, where `dicts(i)` is what pass `i`
      fetches and `newer` is the loop condition: a failed fetch raises its error,
      `min` of an empty merged dict raises, otherwise the page is merged in. */
  ghost function RunOf(dicts: nat -> PageDict, newer: map<string, Record> -> bool,
                       entries: map<string, Record>, c: nat): Run
  {
    match dicts(c)
    case DictFailed(e) => RunFailed(e)
    case Dict(page) =>
      var merged := Merge(entries, page);
      if merged == map[] then RunFailed(OtherError) else Merged(merged, newer(merged))
  }

  /** The pagination loop entered for its pass `c` with the dict merged so far:
      it stops after an error, after the pass whose merged dict fails the loop
      condition, or after pass 31. */
  ghost function PagesFrom(dicts: nat -> PageDict, newer: map<string, Record> -> bool,
                           entries: map<string, Record>, c: nat): Pagination
    requires c <= LastRun + 1
    decreases LastRun + 1 - c
  {
    match RunOf(dicts, newer, entries, c)
    case RunFailed(e) => PageFailed(e)
    case Merged(merged, later) =>
      if c > LastRun || !later then Paged(merged, c + 1)
      else PagesFrom(dicts, newer, merged, c + 1)
  }

  /** The whole loop: `ldate` starts as the current time, so it runs at all only
      when the watermark day has begun before now. */
  ghost function PaginationOf(feed: nat -> Fetch, watermark: Date, now: Moment): Pagination {
    if LaterThan(now, watermark) then PagesFrom(Dicts(feed), After(watermark), map[], 0) else Paged(map[], 0)
  }

  /** The invariant of the pagination loop towards its result `target`: entering
      it (again) with `entries` and counter `c` gives `target`; leaving it returns
      `entries`. */
  ghost predicate Paging(dicts: nat -> PageDict, newer: map<string, Record> -> bool, target: Pagination,
                         entries: map<string, Record>, c: nat, later: bool)
  {
    && c <= LastRun + 1
    && (later ==> target == PagesFrom(dicts, newer, entries, c))
    && (!later ==> target == Paged(entries, c))
  }

  lemma PagingStart(feed: nat -> Fetch, watermark: Date, now: Moment)
    ensures Paging(Dicts(feed), After(watermark), PaginationOf(feed, watermark, now),
                   map[], 0, LaterThan(now, watermark))
  {
  }

  /** A pass that raises ends the loop with its error; one that merges stops at
      the ceiling or leads to the next pass. */
  lemma PagingStep(dicts: nat -> PageDict, newer: map<string, Record> -> bool, target: Pagination,
                   entries: map<string, Record>, c: nat)
    requires Paging(dicts, newer, target, entries, c, true)
    ensures RunOf(dicts, newer, entries, c).RunFailed? ==>
      target == PageFailed(RunOf(dicts, newer, entries, c).error)
    ensures RunOf(dicts, newer, entries, c).Merged? && c > LastRun ==>
      target == Paged(RunOf(dicts, newer, entries, c).entries, c + 1)
    ensures RunOf(dicts, newer, entries, c).Merged? && c <= LastRun ==>
      Paging(dicts, newer, target, RunOf(dicts, newer, entries, c).entries, c + 1,
             RunOf(dicts, newer, entries, c).later)
  {
  }

  /** The oldest date is after the watermark exactly when every date is. */
  lemma OldestDecides(entries: map<string, Record>, oldest: Date, watermark: Date)
    requires exists k :: k in entries && entries[k].datum == oldest
    requires forall k :: k in entries ==> AtMost(oldest, entries[k].datum)
    ensures Before(watermark, oldest) <==> AllAfter(entries, watermark)
  {
  }

  /** `min([x['datum'] for x in entries.values()])`. */
  method OldestDatum(entries: map<string, Record>) returns (oldest: Date)
    requires entries != map[]
    ensures exists k :: k in entries && entries[k].datum == oldest
    ensures forall k :: k in entries ==> AtMost(oldest, entries[k].datum)
  {
    var k := Earliest(entries, (r: Record) => r.datum, entries.Keys);
    oldest := entries[k].datum;
  }

  /** `ldate = min(...)` compared with the watermark: whether every merged record
      is dated after it. */
  method OldestAfter(entries: map<string, Record>, watermark: Date) returns (later: bool)
    requires entries != map[]
    ensures later <==> AllAfter(entries, watermark)
  {
    var oldest := OldestDatum(entries);
    OldestDecides(entries, oldest, watermark);
    later := Before(watermark, oldest);
  }

  /** One pass of the loop body of `ltgetter`: fetch the page at `offset`,
      merge its dict and compare the oldest date with the watermark. */
  method PageRun(feed: nat -> Fetch, watermark: Date, entries: map<string, Record>, c: nat, offset: nat)
    returns (run: Run)
    requires offset == PageSize * c
    ensures run == RunOf(Dicts(feed), After(watermark), entries, c)
  {
    var fetched := feed(offset);
    if fetched.FetchFailed? {
      return RunFailed(fetched.error);
    }
    var page := GetEntries(fetched.items);
    assert Dicts(feed)(c) == Dict(page);
    var merged := Merge(entries, page);
    if merged == map[] {
      return RunFailed(OtherError);
    }
    var later := OldestAfter(merged, watermark);
    assert After(watermark)(merged) == AllAfter(merged, watermark);
    return Merged(merged, later);
  }

  /** The pagination loop of `ltgetter`, with `feed(offset)` standing for
      `get_entries(30, offset)`. */
  method Paginate(feed: nat -> Fetch, watermark: Date, now: Moment) returns (r: Pagination)
    ensures r == PaginationOf(feed, watermark, now)
  {
    ghost var dicts, newer := Dicts(feed), After(watermark);
    ghost var target := PaginationOf(feed, watermark, now);
    var entries: map<string, Record> := map[];
    var offset := 0;
    var c := 0;
    var later := LaterThan(now, watermark);
    PagingStart(feed, watermark, now);
    while later
      invariant Paging(dicts, newer, target, entries, c, later)
      invariant offset == PageSize * c
      decreases LastRun + 1 - c
    {
      var run := PageRun(feed, watermark, entries, c, offset);
      PagingStep(dicts, newer, target, entries, c);
      if run.RunFailed? {
        return PageFailed(run.error);
      }
      entries, later := run.entries, run.later;
      if c > LastRun {
        return Paged(entries, c + 1);
      }
      c := c + 1;
      offset := offset + PageSize;
    }
    return Paged(entries, c);
  }

  /** The dict of pass `i`, or nothing if that fetch failed. */
  ghost function PageAt(dicts: nat -> PageDict, i: nat): map<string, Record> {
    match dicts(i)
    case Dict(page) => page
    case DictFailed(_) => map[]
  }

  /** The dicts of the first `n` passes merged in order. */
  ghost function Accumulated(dicts: nat -> PageDict, n: nat): map<string, Record> {
    if n == 0 then map[] else Merge(Accumulated(dicts, n - 1), PageAt(dicts, n - 1))
  }

  /** Every page the listing yields is keyed by content. */
  lemma DictsWellKeyed(feed: nat -> Fetch, i: nat)
    ensures Dicts(feed)(i).Dict? ==> WellKeyed(Dicts(feed)(i).entries)
  {
    match feed(PageSize * i)
    case Fetched(items) => PageWellKeyed(items);
    case FetchFailed(_) =>
  }

  /** Merging dicts that are keyed by content keeps the result keyed by content. */
  lemma {:induction false} AccumulatedKeyed(dicts: nat -> PageDict, n: nat)
    requires forall i :: dicts(i).Dict? ==> WellKeyed(dicts(i).entries)
    ensures WellKeyed(Accumulated(dicts, n))
  {
    if n > 0 {
      var before := Accumulated(dicts, n - 1);
      var page := PageAt(dicts, n - 1);
      AccumulatedKeyed(dicts, n - 1);
      assert WellKeyed(page) by {
        if dicts(n - 1).Dict? {
          assert page == dicts(n - 1).entries;
        }
      }
      MergeKeyed(before, page);
      assert Accumulated(dicts, n) == Merge(before, page);
    }
  }

  lemma AccumulatedWellKeyed(feed: nat -> Fetch, n: nat)
    ensures WellKeyed(Accumulated(Dicts(feed), n))
  {
    forall i ensures Dicts(feed)(i).Dict? ==> WellKeyed(Dicts(feed)(i).entries) {
      DictsWellKeyed(feed, i);
    }
    AccumulatedKeyed(Dicts(feed), n);
  }

  lemma MergeNonEmpty(entries: map<string, Record>, page: map<string, Record>)
    requires entries != map[] || page != map[]
    ensures Merge(entries, page) != map[]
  {
    if entries != map[] {
      var k :| k in entries;
      assert k in Merge(entries, page);
    } else {
      var k :| k in page;
      assert k in Merge(entries, page);
    }
  }

  lemma MergeAllAfter(entries: map<string, Record>, page: map<string, Record>, watermark: Date)
    requires AllAfter(entries, watermark) && AllAfter(page, watermark)
    ensures AllAfter(Merge(entries, page), watermark)
  {
  }

  /** The loop entered at pass `c` with any dict either fails or stops after a
      later pass, no later than the ceiling, holding a record. */
  lemma {:induction false} PagesFromBounds(dicts: nat -> PageDict, newer: map<string, Record> -> bool,
                                           entries: map<string, Record>, c: nat)
    requires c <= LastRun + 1
    ensures var r := PagesFrom(dicts, newer, entries, c);
      r.Paged? ==> c < r.fetches <= LastRun + 2 && r.entries != map[]
    decreases LastRun + 1 - c
  {
    var run := RunOf(dicts, newer, entries, c);
    if run.Merged? && c <= LastRun && run.later {
      PagesFromBounds(dicts, newer, run.entries, c + 1);
    }
  }

  /** A loop that stops before the ceiling stops because its merged dict fails
      the loop condition. */
  lemma {:induction false} PagesFromStops(dicts: nat -> PageDict, newer: map<string, Record> -> bool,
                                          entries: map<string, Record>, c: nat)
    requires c <= LastRun + 1
    ensures var r := PagesFrom(dicts, newer, entries, c);
      r.Paged? && r.fetches < LastRun + 2 ==> !newer(r.entries)
    decreases LastRun + 1 - c
  {
    var run := RunOf(dicts, newer, entries, c);
    if run.Merged? {
      if c <= LastRun && run.later {
        PagesFromStops(dicts, newer, run.entries, c + 1);
      } else if c <= LastRun {
        assert PagesFrom(dicts, newer, entries, c) == Paged(run.entries, c + 1);
      }
    }
  }

  /** The loop entered at pass `c` with the dicts of the passes before it stops
      with the dicts of every pass up to its last merged in order. */
  lemma {:induction false} PagesFromAccumulated(dicts: nat -> PageDict, newer: map<string, Record> -> bool, c: nat)
    requires c <= LastRun + 1
    ensures var r := PagesFrom(dicts, newer, Accumulated(dicts, c), c);
      r.Paged? ==> r.entries == Accumulated(dicts, r.fetches)
    decreases LastRun + 1 - c
  {
    var run := RunOf(dicts, newer, Accumulated(dicts, c), c);
    if run.Merged? {
      assert run.entries == Accumulated(dicts, c + 1);
      if c <= LastRun && run.later {
        PagesFromAccumulated(dicts, newer, c + 1);
      }
    }
  }

  /** The loop entered at pass `c` with the dicts of the passes before it went
      on after every pass before its last: each dict merged before the last
      one met the loop condition, so the loop stops at the first that fails it. */
  lemma {:induction false} PagesFromContinues(dicts: nat -> PageDict, newer: map<string, Record> -> bool, c: nat)
    requires c <= LastRun + 1
    ensures var r := PagesFrom(dicts, newer, Accumulated(dicts, c), c);
      r.Paged? ==> forall k :: c < k < r.fetches ==> newer(Accumulated(dicts, k))
    decreases LastRun + 1 - c
  {
    var run := RunOf(dicts, newer, Accumulated(dicts, c), c);
    if run.Merged? {
      assert run.entries == Accumulated(dicts, c + 1);
      if c <= LastRun && run.later {
        assert PagesFrom(dicts, newer, Accumulated(dicts, c), c) == PagesFrom(dicts, newer, run.entries, c + 1);
        PagesFromContinues(dicts, newer, c + 1);
      }
    }
  }

  /** The facts together, for the loop entered at pass `c`. */
  lemma PagesFromShape(dicts: nat -> PageDict, newer: map<string, Record> -> bool, c: nat)
    requires c <= LastRun + 1
    ensures var r := PagesFrom(dicts, newer, Accumulated(dicts, c), c);
      r.Paged? ==>
        && c < r.fetches <= LastRun + 2
        && r.entries == Accumulated(dicts, r.fetches)
        && r.entries != map[]
        && (r.fetches < LastRun + 2 ==> !newer(r.entries))
        && (forall k :: c < k < r.fetches ==> newer(Accumulated(dicts, k)))
  {
    PagesFromContinues(dicts, newer, c);
    PagesFromBounds(dicts, newer, Accumulated(dicts, c), c);
    PagesFromStops(dicts, newer, Accumulated(dicts, c), c);
    PagesFromAccumulated(dicts, newer, c);
  }

  /** `After(watermark)` holding of the dicts is `AllAfter` holding of them. */
  lemma AfterEach(feed: nat -> Fetch, watermark: Date, n: nat)
    requires forall k :: 0 < k < n ==> After(watermark)(Accumulated(Dicts(feed), k))
    ensures forall k :: 0 < k < n ==> AllAfter(Accumulated(Dicts(feed), k), watermark)
  {
  }

  /** The pagination bounds: at most 32 fetches; none exactly when the watermark
      day has not begun before now; the merged dict is the fetched pages merged
      in order; and a loop that stops short of the ceiling stops because the
      oldest merged record is not after the watermark. */
  lemma PaginationShape(feed: nat -> Fetch, watermark: Date, now: Moment)
    ensures var r := PaginationOf(feed, watermark, now);
      r.Paged? ==>
        && r.fetches <= LastRun + 2
        && (r.fetches == 0 <==> !LaterThan(now, watermark))
        && (r.entries == map[] <==> !LaterThan(now, watermark))
        && r.entries == Accumulated(Dicts(feed), r.fetches)
        && WellKeyed(r.entries)
        && (0 < r.fetches < LastRun + 2 ==> !AllAfter(r.entries, watermark))
        && (forall k :: 0 < k < r.fetches ==> AllAfter(Accumulated(Dicts(feed), k), watermark))
  {
    var r := PaginationOf(feed, watermark, now);
    if LaterThan(now, watermark) {
      PagesFromShape(Dicts(feed), After(watermark), 0);
      if r.Paged? {
        assert After(watermark)(r.entries) == AllAfter(r.entries, watermark);
        AfterEach(feed, watermark, r.fetches);
      }
    }
    if r.Paged? {
      AccumulatedWellKeyed(feed, r.fetches);
    }
  }

  /** When the watermark day has begun, the first listing page is fetched:
      its failure, or an empty first page, fails the loop. */
  lemma FirstPageFetched(feed: nat -> Fetch, watermark: Date, now: Moment)
    requires LaterThan(now, watermark)
    ensures feed(0).FetchFailed? ==> PaginationOf(feed, watermark, now) == PageFailed(feed(0).error)
    ensures feed(0).Fetched? && PageEntries(feed(0).items) == map[] ==>
      PaginationOf(feed, watermark, now) == PageFailed(OtherError)
  {
    assert PageSize * 0 == 0;
    assert Dicts(feed)(0) == match feed(0) case Fetched(items) => Dict(PageEntries(items)) case FetchFailed(e) => DictFailed(e);
  }

  /** No page stops the loop by being empty: while every pass fetches and every
      merged dict meets the loop condition the loop runs to the ceiling, even if
      every dict after the first has nothing in it. */
  lemma {:induction false} RunsToCeiling(dicts: nat -> PageDict, newer: map<string, Record> -> bool,
                                         c: nat, entries: map<string, Record>)
    requires c <= LastRun + 1
    requires entries != map[] || PageAt(dicts, c) != map[]
    requires newer(entries)
    requires forall i :: c <= i <= LastRun + 1 ==> dicts(i).Dict?
    requires forall m, i :: c <= i <= LastRun + 1 && newer(m) ==> newer(Merge(m, PageAt(dicts, i)))
    ensures PagesFrom(dicts, newer, entries, c).Paged?
    ensures PagesFrom(dicts, newer, entries, c).fetches == LastRun + 2
    decreases LastRun + 1 - c
  {
    var page := PageAt(dicts, c);
    var merged := Merge(entries, page);
    MergeNonEmpty(entries, page);
    assert newer(merged);
    assert RunOf(dicts, newer, entries, c) == Merged(merged, true);
    if c <= LastRun {
      RunsToCeiling(dicts, newer, c + 1, merged);
      assert PagesFrom(dicts, newer, entries, c) == PagesFrom(dicts, newer, merged, c + 1);
    } else {
      assert PagesFrom(dicts, newer, entries, c) == Paged(merged, c + 1);
    }
  }

  /** The same for the listing: when every one of the 32 pages is fetched, the
      first holds a record and no page holds one dated on or before the
      watermark, the loop makes all 32 fetches. */
  lemma CeilingReached(feed: nat -> Fetch, watermark: Date, now: Moment)
    requires LaterThan(now, watermark)
    requires forall i :: 0 <= i <= LastRun + 1 ==> feed(PageSize * i).Fetched?
    requires feed(0).Fetched? && PageEntries(feed(0).items) != map[]
    requires forall i :: 0 <= i <= LastRun + 1 ==> AllAfter(PageEntries(feed(PageSize * i).items), watermark)
    ensures PaginationOf(feed, watermark, now).Paged?
    ensures PaginationOf(feed, watermark, now).fetches == LastRun + 2
  {
    var dicts, newer := Dicts(feed), After(watermark);
    forall i | 0 <= i <= LastRun + 1
      ensures dicts(i).Dict? && PageAt(dicts, i) == PageEntries(feed(PageSize * i).items)
    {
      assert dicts(i) == Dict(PageEntries(feed(PageSize * i).items));
    }
    forall m, i | 0 <= i <= LastRun + 1 && newer(m)
      ensures newer(Merge(m, PageAt(dicts, i)))
    {
      MergeAllAfter(m, PageAt(dicts, i), watermark);
    }
    assert PageSize * 0 == 0;
    assert newer(map[]);
    RunsToCeiling(dicts, newer, 0, map[]);
  }
}
