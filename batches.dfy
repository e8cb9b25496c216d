/** The batch queries of the downloader and the notifier: the pending rows of
    `dokumente`, ordered by `datum`, cut at a limit. */
module Batches {
  import opened Dates
  import opened Records

  /** Documents without a row in `done` (text rows, or mappings) dated on or after `startDate`. */
  function Pending(docs: map<string, Document>, done: set<string>, startDate: Date): (r: set<string>)
    ensures r <= docs.Keys
  {
    set k | k in docs && k !in done && AtMost(startDate, docs[k].datum)
  }

  function Min(a: nat, b: nat): nat {
    if a <= b then a else b
  }

  /** `batch` is what `order_by(datum).limit(limit)` may return on `pool`: as many
      rows as the limit allows, distinct, in ascending `datum`, none of them later
      than a pending row left out. Rows of equal `datum` may come in any order. */
  ghost predicate OldestFirst(docs: map<string, Document>, pool: set<string>, limit: nat, batch: seq<string>)
    requires pool <= docs.Keys
  {
    && |batch| == Min(limit, |pool|)
    && (forall i :: 0 <= i < |batch| ==> batch[i] in pool)
    && (forall i, j :: 0 <= i < j < |batch| ==> batch[i] != batch[j])
    && (forall i, j :: 0 <= i < j < |batch| ==> AtMost(docs[batch[i]].datum, docs[batch[j]].datum))
    && (forall i, k :: 0 <= i < |batch| && k in pool && k !in batch ==>
          AtMost(docs[batch[i]].datum, docs[k].datum))
  }

  /** A key of `keys` whose date is the earliest, as `min` finds it. */
  method Earliest<T>(m: map<string, T>, dateOf: T -> Date, keys: set<string>) returns (k: string)
    requires keys != {} && keys <= m.Keys
    ensures k in keys
    ensures forall j :: j in keys ==> AtMost(dateOf(m[k]), dateOf(m[j]))
  {
    k :| k in keys;
    var rest := keys - {k};
    while rest != {}
      invariant rest <= keys && k in keys
      invariant forall j :: j in keys - rest ==> AtMost(dateOf(m[k]), dateOf(m[j]))
      decreases rest
    {
      var j :| j in rest;
      if Before(dateOf(m[j]), dateOf(m[k])) {
        k := j;
      }
      rest := rest - {j};
    }
  }

  /** The loop invariant of `SelectBatch`: `batch` holds the earliest rows of `pool`
      in order, `rest` the others. */
  ghost predicate Selecting(docs: map<string, Document>, pool: set<string>, batch: seq<string>, rest: set<string>)
    requires pool <= docs.Keys
  {
    && rest <= pool
    && (forall i :: 0 <= i < |batch| ==> batch[i] in pool && batch[i] !in rest)
    && (forall k :: k in pool && k !in rest ==> k in batch)
    && (forall i, j :: 0 <= i < j < |batch| ==> batch[i] != batch[j])
    && (forall i, j :: 0 <= i < j < |batch| ==> AtMost(docs[batch[i]].datum, docs[batch[j]].datum))
    && (forall i, k :: 0 <= i < |batch| && k in rest ==> AtMost(docs[batch[i]].datum, docs[k].datum))
    && |batch| + |rest| == |pool|
  }

  lemma SelectingStep(docs: map<string, Document>, pool: set<string>, batch: seq<string>, rest: set<string>, k: string)
    requires pool <= docs.Keys
    requires Selecting(docs, pool, batch, rest)
    requires k in rest
    requires forall j :: j in rest ==> AtMost(docs[k].datum, docs[j].datum)
    ensures Selecting(docs, pool, batch + [k], rest - {k})
  {
    var b := batch + [k];
    assert forall i :: 0 <= i < |batch| ==> b[i] == batch[i];
    assert |rest - {k}| == |rest| - 1;
  }

  lemma SelectingDone(docs: map<string, Document>, pool: set<string>, limit: nat, batch: seq<string>, rest: set<string>)
    requires pool <= docs.Keys
    requires Selecting(docs, pool, batch, rest)
    requires |batch| <= limit
    requires |batch| == limit || rest == {}
    ensures OldestFirst(docs, pool, limit, batch)
  {
  }

  /** The query `order_by(Dokument.datum).limit(limit)` over the pending rows `pool`. */
  method SelectBatch(docs: map<string, Document>, pool: set<string>, limit: nat) returns (batch: seq<string>)
    requires pool <= docs.Keys
    ensures OldestFirst(docs, pool, limit, batch)
  {
    batch := [];
    var rest := pool;
    while |batch| < limit && rest != {}
      invariant Selecting(docs, pool, batch, rest)
      invariant |batch| <= limit
      decreases rest
    {
      var k := Earliest(docs, (d: Document) => d.datum, rest);
      SelectingStep(docs, pool, batch, rest, k);
      batch := batch + [k];
      rest := rest - {k};
    }
    SelectingDone(docs, pool, limit, batch, rest);
  }

  /** The elements of a sequence without repetitions are as many as its length. */
  lemma {:induction false} DistinctCount(batch: seq<string>)
    requires forall i, j :: 0 <= i < j < |batch| ==> batch[i] != batch[j]
    ensures |set i | 0 <= i < |batch| :: batch[i]| == |batch|
    decreases |batch|
  {
    if batch != [] {
      var front := batch[..|batch| - 1];
      DistinctCount(front);
      var s := set i | 0 <= i < |batch| :: batch[i];
      var f := set i | 0 <= i < |front| :: front[i];
      assert s == f + {batch[|batch| - 1]};
      assert batch[|batch| - 1] !in f;
    }
  }

  /** A subset is no larger than its superset. */
  lemma {:induction false} SubsetSize(a: set<string>, b: set<string>)
    requires a <= b
    ensures |a| <= |b|
    decreases a
  {
    if a != {} {
      var x :| x in a;
      SubsetSize(a - {x}, b - {x});
    }
  }

  /** Without a limit (the draft notifier) the batch is the whole pool, oldest first. */
  lemma UnlimitedCoversPool(docs: map<string, Document>, pool: set<string>, batch: seq<string>)
    requires pool <= docs.Keys
    requires OldestFirst(docs, pool, |pool|, batch)
    ensures forall k :: k in pool <==> k in batch
  {
    var s := set i | 0 <= i < |batch| :: batch[i];
    DistinctCount(batch);
    assert s <= pool;
    if s != pool {
      var k :| k in pool && k !in s;
      SubsetSize(s, pool - {k});
    }
  }
}
