/** The SQLite store the stages share, as four tables keyed by primary key. */
module Database {
  import opened Dates
  import opened Records

  /** Every entry sits under its own key, as `get_entries` files them. */
  ghost predicate WellKeyed(entries: map<string, Record>) {
    forall k :: k in entries ==> KeyOf(entries[k]) == k
  }

  /** Insert-if-absent of merged entries into `dokumente`: rows already present are kept. */
  function InsertAbsent(docs: map<string, Document>, entries: map<string, Record>)
    : (r: map<string, Document>)
    ensures r.Keys == docs.Keys + entries.Keys
    ensures forall k :: k in docs ==> r[k] == docs[k]
    ensures forall k :: k in entries && k !in docs ==> r[k] == NewDocument(k, entries[k])
  {
    map k | k in docs.Keys + entries.Keys :: if k in docs then docs[k] else NewDocument(k, entries[k])
  }

  /** Ingesting the same entries again changes nothing and finds no absent key. */
  lemma InsertAbsentIdempotent(docs: map<string, Document>, entries: map<string, Record>)
    ensures InsertAbsent(InsertAbsent(docs, entries), entries) == InsertAbsent(docs, entries)
    ensures |entries.Keys - InsertAbsent(docs, entries).Keys| == 0
  {
    assert entries.Keys - InsertAbsent(docs, entries).Keys == {};
  }

  /** The table grows by exactly the absent keys. */
  lemma InsertAbsentCount(docs: map<string, Document>, entries: map<string, Record>)
    ensures |InsertAbsent(docs, entries).Keys| == |docs.Keys| + |entries.Keys - docs.Keys|
  {
    var keys := InsertAbsent(docs, entries).Keys;
    assert keys == docs.Keys + (entries.Keys - docs.Keys);
  }

  lemma InsertNothing(docs: map<string, Document>)
    ensures InsertAbsent(docs, map[]) == docs
  {
  }

  /** Entries with content-derived keys keep a content-keyed table content-keyed. */
  lemma InsertAbsentKeyed(docs: map<string, Document>, entries: map<string, Record>)
    requires KeyedByContent(docs) && WellKeyed(entries)
    ensures KeyedByContent(InsertAbsent(docs, entries))
  {
  }

  /** One more entry handled by the insert loop. */
  lemma InsertAbsentStep(
    docs: map<string, Document>, entries: map<string, Record>, todo: set<string>, k: string)
    requires k in todo && todo <= entries.Keys
    ensures k in InsertAbsent(docs, entries - todo) <==> k in docs
    ensures InsertAbsent(docs, entries - (todo - {k})) ==
      if k in docs then InsertAbsent(docs, entries - todo)
      else InsertAbsent(docs, entries - todo)[k := NewDocument(k, entries[k])]
  {
    assert entries - (todo - {k}) == (entries - todo)[k := entries[k]];
  }

  lemma CountStep(todo: set<string>, present: set<string>, k: string)
    requires k in todo
    ensures |todo - present| == |(todo - {k}) - present| + (if k in present then 0 else 1)
  {
    if k in present {
      assert (todo - {k}) - present == todo - present;
    } else {
      assert todo - present == ((todo - {k}) - present) + {k};
    }
  }

  /** The insert loop's invariant: the keys not in `todo` are inserted, and `added`
      plus the absent keys still to do is the number of absent keys overall. */
  ghost predicate Inserting(
    docs0: map<string, Document>, entries: map<string, Record>, todo: set<string>,
    documents: map<string, Document>, added: int)
  {
    && todo <= entries.Keys
    && documents == InsertAbsent(docs0, entries - todo)
    && added + |todo - docs0.Keys| == |entries.Keys - docs0.Keys|
  }

  lemma InsertingStart(docs0: map<string, Document>, entries: map<string, Record>)
    ensures Inserting(docs0, entries, entries.Keys, docs0, 0)
  {
    assert entries - entries.Keys == map[];
  }

  lemma InsertingStep(
    docs0: map<string, Document>, entries: map<string, Record>, todo: set<string>,
    documents: map<string, Document>, added: int, k: string)
    requires Inserting(docs0, entries, todo, documents, added) && k in todo
    ensures k in documents <==> k in docs0
    ensures Inserting(docs0, entries, todo - {k},
      if k in documents then documents else documents[k := NewDocument(k, entries[k])],
      if k in documents then added else added + 1)
  {
    InsertAbsentStep(docs0, entries, todo, k);
    CountStep(todo, docs0.Keys, k);
  }

  /** The loop over the merged keys behind `Store.InsertEntries`: each key not yet
      among the documents gets a new row, and `added` counts those rows. */
  method InsertLoop(docs0: map<string, Document>, entries: map<string, Record>)
    returns (documents: map<string, Document>, added: nat)
    ensures documents == InsertAbsent(docs0, entries)
    ensures added == |entries.Keys - docs0.Keys|
  {
    documents, added := docs0, 0;
    var todo := entries.Keys;
    InsertingStart(docs0, entries);
    while todo != {}
      invariant Inserting(docs0, entries, todo, documents, added)
      decreases todo
    {
      var k :| k in todo;
      InsertingStep(docs0, entries, todo, documents, added, k);
      if k !in documents {
        documents := documents[k := NewDocument(k, entries[k])];
        added := added + 1;
      }
      todo := todo - {k};
    }
    InsertingDone(docs0, entries, documents, added);
  }

  lemma MinusNothing(m: map<string, Record>)
    ensures m - {} == m
  {
  }

  lemma InsertingDone(
    docs0: map<string, Document>, entries: map<string, Record>,
    documents: map<string, Document>, added: int)
    requires Inserting(docs0, entries, {}, documents, added)
    ensures documents == InsertAbsent(docs0, entries)
    ensures added == |entries.Keys - docs0.Keys|
  {
    MinusNothing(entries);
  }

  /** `starters` names, per drucksache, the mapping that opened its thread, and
      every mapping of that drucksache carries that mapping's post id as its root. */
  ghost predicate StartedBy(mappings: map<string, Mapping>, starters: map<string, string>) {
    forall a :: a in mappings ==>
      var d := mappings[a].drucksache;
      && d in starters && starters[d] in mappings
      && mappings[starters[d]].drucksache == d
      && mappings[a].mmRootId == mappings[starters[d]].mmId
  }

  /** All mappings of one drucksache carry one thread root, and that root is the
      post id of one of them (the first notification of the drucksache). */
  ghost predicate ThreadsConsistent(mappings: map<string, Mapping>) {
    exists starters :: StartedBy(mappings, starters)
  }

  /** Two mappings of one drucksache share their root. */
  lemma SameThread(mappings: map<string, Mapping>, a: string, b: string)
    requires ThreadsConsistent(mappings)
    requires a in mappings && b in mappings
    requires mappings[a].drucksache == mappings[b].drucksache
    ensures mappings[a].mmRootId == mappings[b].mmRootId
  {
    var starters :| StartedBy(mappings, starters);
  }

  /** A mapping of a drucksache without one opens its own thread: its root is its post. */
  lemma OpenThread(mappings: map<string, Mapping>, id: string, m: Mapping)
    requires ThreadsConsistent(mappings)
    requires id !in mappings && m.mmRootId == m.mmId
    requires forall a :: a in mappings ==> mappings[a].drucksache != m.drucksache
    ensures ThreadsConsistent(mappings[id := m])
  {
    var starters :| StartedBy(mappings, starters);
    assert StartedBy(mappings[id := m], starters[m.drucksache := id]);
  }

  /** A mapping that takes the root of a mapping of its drucksache joins that thread. */
  lemma JoinThread(mappings: map<string, Mapping>, id: string, m: Mapping, a: string)
    requires ThreadsConsistent(mappings)
    requires id !in mappings && a in mappings
    requires mappings[a].drucksache == m.drucksache && m.mmRootId == mappings[a].mmRootId
    ensures ThreadsConsistent(mappings[id := m])
  {
    var starters :| StartedBy(mappings, starters);
    assert StartedBy(mappings[id := m], starters);
  }

  /** Each document sits under the key derived from its drucksache and date. */
  ghost predicate KeyedByContent(documents: map<string, Document>) {
    forall k :: k in documents ==>
      documents[k].id == k && Key(documents[k].drucksache, documents[k].datum) == k
  }

  /** Text rows and mappings belong to documents and copy their drucksache. */
  ghost predicate RowsReferTo(
    documents: map<string, Document>, texts: map<string, DocumentText>,
    mappings: map<string, Mapping>)
  {
    && (forall k :: k in texts ==>
          k in documents && texts[k].id == k && texts[k].drucksache == documents[k].drucksache)
    && (forall k :: k in mappings ==>
          k in documents && mappings[k].id == k && mappings[k].drucksache == documents[k].drucksache)
  }

  /** Inserting entries keeps the tables consistent: rows that referred to a
      document still do, since present rows are never replaced. */
  lemma InsertKeepsConsistency(
    documents: map<string, Document>, texts: map<string, DocumentText>,
    mappings: map<string, Mapping>, entries: map<string, Record>)
    requires KeyedByContent(documents) && RowsReferTo(documents, texts, mappings)
    requires WellKeyed(entries)
    ensures KeyedByContent(InsertAbsent(documents, entries))
    ensures RowsReferTo(InsertAbsent(documents, entries), texts, mappings)
  {
    InsertAbsentKeyed(documents, entries);
  }

  class Store {
    var documents: map<string, Document>
    var texts: map<string, DocumentText>
    var mappings: map<string, Mapping>
    var config: map<string, string>

    /** Keys are derived from content; text rows and mappings refer to documents
        and copy their drucksache; threads are consistent. */
    ghost predicate Valid()
      reads this
    {
      && KeyedByContent(documents)
      && RowsReferTo(documents, texts, mappings)
      && ThreadsConsistent(mappings)
    }

    /** `Base.metadata.create_all` on a new database file. */
    constructor ()
      ensures Valid()
      ensures documents == map[] && texts == map[] && mappings == map[] && config == map[]
    {
      documents, texts, mappings, config := map[], map[], map[], map[];
      assert StartedBy(map[], map[]);
    }

    /** The insert step of `ltgetter`: a `dokumente` row per merged key not yet
        present; `added` is its counter `c`. The other tables are untouched. */
    method InsertEntries(entries: map<string, Record>) returns (added: nat)
      requires Valid()
      requires WellKeyed(entries)
      modifies this
      ensures Valid()
      ensures documents == InsertAbsent(old(documents), entries)
      ensures added == |entries.Keys - old(documents).Keys|
      ensures texts == old(texts) && mappings == old(mappings) && config == old(config)
    {
      var inserted;
      inserted, added := InsertLoop(documents, entries);
      InsertKeepsConsistency(documents, texts, mappings, entries);
      documents := inserted;
    }
  }
}
