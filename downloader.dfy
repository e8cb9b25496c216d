/** `downloader`: fetch the PDFs of up to five documents that have no text yet,
    oldest first, and store their text page by page. A document whose download
    or extraction fails gets no text row and is tried again on a later run. */
module Downloader {
  import opened Common
  import opened Digits
  import opened Dates
  import opened Records
  import opened Database
  import opened Batches

  /** The `limit(5)` of the downloader's query. */
  const DownloadLimit: nat := 5

  /** A document's PDF as `pdfplumber` sees it: the download, file write or
      open failed, or the `extract_text()` of every page, `None` where a page
      has no text layer. */
  datatype Extraction = Unavailable(error: Failure) | Extracted(pages: seq<Option<string>>)

  /** The block of page `n`: its `-- SEITE n --` header, its text and a blank line. */
  function PageBlock(n: nat, text: string): string {
    "-- SEITE " + Decimal(n) + " --\n\n" + text + "\n\n"
  }

  /** The blocks of `pages`, numbered from `first`. */
  function Blocks(pages: seq<string>, first: nat): string
    decreases |pages|
  {
    if pages == [] then "" else PageBlock(first, pages[0]) + Blocks(pages[1..], first + 1)
  }

  /** The stored text of a document with these page texts. */
  function PagesText(pages: seq<string>): string {
    Blocks(pages, 1)
  }

  /** Appending a page appends its block, numbered after the others. */
  lemma {:induction false} BlocksAppend(pages: seq<string>, page: string, first: nat)
    ensures Blocks(pages + [page], first) == Blocks(pages, first) + PageBlock(first + |pages|, page)
    decreases |pages|
  {
    if pages == [] {
      assert Blocks([page], first) == PageBlock(first, page) + Blocks([], first + 1);
    } else {
      assert (pages + [page])[1..] == pages[1..] + [page];
      BlocksAppend(pages[1..], page, first + 1);
    }
  }

  /** Blocks of consecutive runs of pages follow each other. */
  lemma {:induction false} BlocksSplit(front: seq<string>, back: seq<string>, first: nat)
    ensures Blocks(front + back, first) == Blocks(front, first) + Blocks(back, first + |front|)
    decreases |front|
  {
    if front == [] {
      assert front + back == back;
    } else {
      assert (front + back)[1..] == front[1..] + back;
      BlocksSplit(front[1..], back, first + 1);
    }
  }

  /** Page `i + 1`'s text sits in the document text under its own header, after
      the blocks of the pages before it and before those of the pages after it. */
  lemma PageInText(pages: seq<string>, i: nat)
    requires i < |pages|
    ensures PagesText(pages) ==
      PagesText(pages[..i]) + ("-- SEITE " + Decimal(i + 1) + " --\n\n" + pages[i] + "\n\n") + Blocks(pages[i + 1..], i + 2)
  {
    assert pages == pages[..i] + ([pages[i]] + pages[i + 1..]);
    BlocksSplit(pages[..i], [pages[i]] + pages[i + 1..], 1);
    assert ([pages[i]] + pages[i + 1..])[1..] == pages[i + 1..];
  }

  /** Every page yielded text. */
  predicate AllExtracted(pages: seq<Option<string>>) {
    forall i :: 0 <= i < |pages| ==> pages[i].Some?
  }

  function Texts(pages: seq<Option<string>>): (r: seq<string>)
    requires AllExtracted(pages)
    ensures |r| == |pages| && forall i :: 0 <= i < |pages| ==> r[i] == pages[i].value
  {
    seq(|pages|, i requires 0 <= i < |pages| && AllExtracted(pages) => pages[i].value)
  }

  /** The text stored for an extraction, or `None` where the `try` block throws:
      the PDF is unavailable, or a page without text makes the concatenation fail. */
  function TextOf(e: Extraction): Option<string> {
    match e
    case Unavailable(_) => None
    case Extracted(pages) => if AllExtracted(pages) then Some(PagesText(Texts(pages))) else None
  }

  /** One more page with text extends the text by its block. */
  lemma RenderStep(pages: seq<Option<string>>, i: nat)
    requires i < |pages| && AllExtracted(pages[..i]) && pages[i].Some?
    ensures AllExtracted(pages[..i + 1])
    ensures PagesText(Texts(pages[..i + 1])) == PagesText(Texts(pages[..i])) + PageBlock(i + 1, pages[i].value)
  {
    assert pages[..i + 1] == pages[..i] + [pages[i]];
    assert Texts(pages[..i + 1]) == Texts(pages[..i]) + [pages[i].value];
    BlocksAppend(Texts(pages[..i]), pages[i].value, 1);
  }

  /** The page loop: `text += "-- SEITE " + str(c) + " --\n\n" + page.extract_text() + "\n\n"`. */
  method RenderPages(pages: seq<Option<string>>) returns (text: Option<string>)
    ensures text == TextOf(Extracted(pages))
  {
    var acc := "";
    var c := 1;
    var i := 0;
    while i < |pages|
      invariant 0 <= i <= |pages| && c == i + 1
      invariant AllExtracted(pages[..i])
      invariant acc == PagesText(Texts(pages[..i]))
    {
      if pages[i].None? {
        return None;
      }
      RenderStep(pages, i);
      acc := acc + "-- SEITE " + Decimal(c) + " --\n\n" + pages[i].value + "\n\n";
      c := c + 1;
      i := i + 1;
    }
    assert pages[..i] == pages;
    return Some(acc);
  }

  /** The text rows after the loop over `batch`: each document whose text could
      be built gets a row with its id and drucksache, the others none. */
  function Downloaded(docs: map<string, Document>, texts: map<string, DocumentText>,
                      batch: seq<string>, extract: Document -> Extraction): map<string, DocumentText>
    requires forall i :: 0 <= i < |batch| ==> batch[i] in docs
    decreases |batch|
  {
    if batch == [] then texts
    else
      var doc := docs[batch[0]];
      var next := match TextOf(extract(doc))
        case None => texts
        case Some(t) => texts[doc.id := DocumentText(doc.id, doc.drucksache, t)];
      Downloaded(docs, next, batch[1..], extract)
  }

  /** The loop of `downloader` over its batch; each failure is caught and the
      next document is tried. */
  method DownloadBatch(docs: map<string, Document>, texts0: map<string, DocumentText>,
                       batch: seq<string>, extract: Document -> Extraction)
    returns (texts: map<string, DocumentText>)
    requires forall i :: 0 <= i < |batch| ==> batch[i] in docs
    ensures texts == Downloaded(docs, texts0, batch, extract)
  {
    texts := texts0;
    var i := 0;
    while i < |batch|
      invariant 0 <= i <= |batch|
      invariant Downloaded(docs, texts, batch[i..], extract) == Downloaded(docs, texts0, batch, extract)
    {
      var doc := docs[batch[i]];
      var e := extract(doc);
      var text: Option<string>;
      match e {
        case Unavailable(_) => text := None;
        case Extracted(pages) => text := RenderPages(pages);
      }
      if text.Some? {
        texts := texts[doc.id := DocumentText(doc.id, doc.drucksache, text.value)];
      }
      assert batch[i..][1..] == batch[i + 1..];
      i := i + 1;
    }
  }

  /** The rows the downloader adds: exactly one per batched document whose text
      could be built, holding that text; every other row is left as it was. */
  lemma {:induction false} DownloadedRows(docs: map<string, Document>, texts: map<string, DocumentText>,
                                          batch: seq<string>, extract: Document -> Extraction)
    requires forall i :: 0 <= i < |batch| ==> batch[i] in docs && docs[batch[i]].id == batch[i] && batch[i] !in texts
    requires forall i, j :: 0 <= i < j < |batch| ==> batch[i] != batch[j]
    ensures var r := Downloaded(docs, texts, batch, extract);
      && (forall k :: k in texts ==> k in r && r[k] == texts[k])
      && (forall k :: k in r && k !in texts ==> k in batch)
      && (forall i :: 0 <= i < |batch| ==>
            var doc := docs[batch[i]];
            match TextOf(extract(doc))
            case None => batch[i] !in r
            case Some(t) => batch[i] in r && r[batch[i]] == DocumentText(batch[i], doc.drucksache, t))
    decreases |batch|
  {
    if batch != [] {
      var doc := docs[batch[0]];
      var next := match TextOf(extract(doc))
        case None => texts
        case Some(t) => texts[doc.id := DocumentText(doc.id, doc.drucksache, t)];
      DownloadedRows(docs, next, batch[1..], extract);
      assert forall i :: 1 <= i < |batch| ==> batch[1..][i - 1] == batch[i];
    }
  }

  /** New text rows belong to documents and copy their drucksache. */
  lemma {:induction false} DownloadedReferTo(docs: map<string, Document>, texts: map<string, DocumentText>,
                                             mappings: map<string, Mapping>, batch: seq<string>,
                                             extract: Document -> Extraction)
    requires KeyedByContent(docs) && RowsReferTo(docs, texts, mappings)
    requires forall i :: 0 <= i < |batch| ==> batch[i] in docs
    ensures RowsReferTo(docs, Downloaded(docs, texts, batch, extract), mappings)
    decreases |batch|
  {
    if batch != [] {
      var doc := docs[batch[0]];
      var next := match TextOf(extract(doc))
        case None => texts
        case Some(t) => texts[doc.id := DocumentText(doc.id, doc.drucksache, t)];
      DownloadedReferTo(docs, next, mappings, batch[1..], extract);
    }
  }

  /** `downloader(engine, start_date, folderpath)` on the store: the batch it
      works on and the text rows after it. No exception leaves the stage. */
  method Download(store: Store, startDate: Date, extract: Document -> Extraction)
    returns (batch: seq<string>)
    requires store.Valid()
    modifies store
    ensures store.Valid()
    ensures OldestFirst(store.documents, Pending(store.documents, old(store.texts).Keys, startDate), DownloadLimit, batch)
    ensures store.texts == Downloaded(store.documents, old(store.texts), batch, extract)
    ensures store.documents == old(store.documents) && store.mappings == old(store.mappings)
    ensures store.config == old(store.config)
  {
    var pool := Pending(store.documents, store.texts.Keys, startDate);
    batch := SelectBatch(store.documents, pool, DownloadLimit);
    var texts := DownloadBatch(store.documents, store.texts, batch, extract);
    DownloadedReferTo(store.documents, store.texts, store.mappings, batch, extract);
    store.texts := texts;
  }
}
