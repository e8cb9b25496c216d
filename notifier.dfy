/** `mattermost_adapter`: post every document that has no mapping yet to the
    channel, oldest first, as a new thread ("Neu") or as a reply in the thread
    of its drucksache ("Update"), and record a mapping from the document to its
    post and thread root. */
module Notifier {
  import opened Common
  import opened Dates
  import opened Records
  import opened Database
  import opened Batches

  /** The `limit(10)` of the service's query. */
  const NotifyLimit: nat := 10

  datatype Kind = Neu | Update

  function KindName(kind: Kind): string {
    match kind
    case Neu => "Neu"
    case Update => "Update"
  }

  /** The post text: kind, art, drucksache, urheber and `str(datum)`, then a link
      to the document. */
  function MessageText(kind: Kind, doc: Document): string {
    KindName(kind) + ": " + doc.art + " " + doc.drucksache + " von " + doc.urheber + " (" + FormatIso(doc.datum) + ")\n"
    + "[**" + doc.titel + "**](https://www.landtag-bw.de" + doc.url + ")"
  }

  /** A post tells new threads from updates by its first word. */
  lemma MessageShowsKind(kind: Kind, doc: Document)
    ensures |MessageText(kind, doc)| > |KindName(kind)| + 1
    ensures MessageText(kind, doc)[..|KindName(kind)| + 2] == KindName(kind) + ": "
    ensures MessageText(kind, doc)[0] == (if kind == Neu then 'N' else 'U')
  {
    var m := MessageText(kind, doc);
    var head := KindName(kind) + ": ";
    assert m == head + (m[|head|..]);
  }

  /** The chat server's answers while one document is handled: `create_post`
      (a post id or an exception), and, for an update, `get_post` of the root
      and the reactions-and-mention part, each either fine or an exception. */
  datatype Exchange = Exchange(post: PostResult, rootLookup: Option<Failure>, mention: Option<Failure>)

  datatype PostResult = Posted(id: string) | PostFailed(error: Failure)

  /** A post created in the channel for `doc`, in reply to `rootId` if given;
      its text is `MessageText(kind, doc)`. */
  datatype Post = Post(kind: Kind, doc: Document, rootId: Option<string>)

  function PostText(post: Post): string {
    MessageText(post.kind, post.doc)
  }

  /** The mappings so far, the posts created so far, and the exception that
      stopped the loop, if one did. */
  datatype Progress = Progress(mappings: map<string, Mapping>, posts: seq<Post>, failure: Option<Failure>)

  /** Some mapping has drucksache `d`: the `related` query finds a row. */
  ghost predicate HasThread(mappings: map<string, Mapping>, d: string) {
    exists a :: a in mappings && mappings[a].drucksache == d
  }

  /** The `related` query: `related.mm_root_id` for some row `related` with
      drucksache `d`, or `None` where there is no such row. */
  ghost function Related(mappings: map<string, Mapping>, d: string): Option<string> {
    if HasThread(mappings, d) then
      var a :| a in mappings && mappings[a].drucksache == d;
      Some(mappings[a].mmRootId)
    else None
  }

  /** Whichever row the query returns, its root is the thread's root; without
      a row the query finds none. */
  lemma RelatedRoot(mappings: map<string, Mapping>, d: string)
    requires ThreadsConsistent(mappings)
    ensures Related(mappings, d).None? <==> forall a :: a in mappings ==> mappings[a].drucksache != d
    ensures forall a :: a in mappings && mappings[a].drucksache == d ==>
      Related(mappings, d) == Some(mappings[a].mmRootId)
  {
    if HasThread(mappings, d) {
      var b :| b in mappings && mappings[b].drucksache == d && Related(mappings, d) == Some(mappings[b].mmRootId);
      forall a | a in mappings && mappings[a].drucksache == d
        ensures Related(mappings, d) == Some(mappings[a].mmRootId)
      {
        SameThread(mappings, a, b);
      }
    }
  }

  /** One pass of the loop body for `doc`, where the `related` query answered
      `root` and the server answered `ex`. `catchMention` says whether the
      reactions-and-mention part sits in a `try` (the service) or not (the draft). */
  function StepWith(doc: Document, p: Progress, root: Option<string>, ex: Exchange, catchMention: bool): Progress {
    var kind := if root.Some? then Update else Neu;
    match ex.post
    case PostFailed(e) => Progress(p.mappings, p.posts, Some(e))
    case Posted(postId) =>
      var posts := p.posts + [Post(kind, doc, root)];
      if root.None? then
        Progress(p.mappings[doc.id := Mapping(doc.id, doc.drucksache, postId, postId)], posts, None)
      else if ex.rootLookup.Some? then
        Progress(p.mappings, posts, ex.rootLookup)
      else if ex.mention.Some? && !catchMention then
        Progress(p.mappings, posts, ex.mention)
      else
        Progress(p.mappings[doc.id := Mapping(doc.id, doc.drucksache, postId, root.value)], posts, None)
  }

  /** One pass of the loop body for document `id`. */
  ghost function Step(docs: map<string, Document>, p: Progress, id: string,
                      chat: Document -> Exchange, catchMention: bool): Progress
    requires id in docs
  {
    StepWith(docs[id], p, Related(p.mappings, docs[id].drucksache), chat(docs[id]), catchMention)
  }

  /** The loop over the batch; an exception ends it. */
  ghost function Run(docs: map<string, Document>, p: Progress, batch: seq<string>,
                     chat: Document -> Exchange, catchMention: bool): Progress
    requires forall i :: 0 <= i < |batch| ==> batch[i] in docs
    decreases |batch|
  {
    if batch == [] || p.failure.Some? then p
    else Run(docs, Step(docs, p, batch[0], chat, catchMention), batch[1..], chat, catchMention)
  }

  /** How one document is posted: "Update" as a reply to the thread's root
      exactly when the query finds a root, "Neu" otherwise, opening a thread
      whose root is the new post itself. Its mapping is recorded unless
      `create_post` or `get_post` throws, or the draft's mention part throws;
      in the service a failing mention still records it. Nothing else changes. */
  lemma StepClassifies(doc: Document, p: Progress, root: Option<string>, ex: Exchange, catchMention: bool)
    requires doc.id !in p.mappings
    ensures var q := StepWith(doc, p, root, ex, catchMention);
      && (forall k :: k in p.mappings ==> k in q.mappings && q.mappings[k] == p.mappings[k])
      && q.mappings.Keys <= p.mappings.Keys + {doc.id}
      && (q.failure.None? <==> doc.id in q.mappings)
      && (ex.post.PostFailed? ==> q == Progress(p.mappings, p.posts, Some(ex.post.error)))
      && (ex.post.Posted? ==>
            && q.posts == p.posts + [Post(if root.Some? then Update else Neu, doc, root)]
            && (doc.id in q.mappings <==>
                  root.None? || (ex.rootLookup.None? && (ex.mention.None? || catchMention)))
            && (doc.id in q.mappings ==>
                  q.mappings[doc.id] == Mapping(doc.id, doc.drucksache, ex.post.id,
                    if root.None? then ex.post.id else root.value)))
  {
  }

  /** The documents a loop may be given: known, keyed by id, not yet mapped, distinct. */
  ghost predicate Unmapped(docs: map<string, Document>, mappings: map<string, Mapping>, batch: seq<string>) {
    && (forall i :: 0 <= i < |batch| ==> batch[i] in docs && docs[batch[i]].id == batch[i] && batch[i] !in mappings)
    && (forall i, j :: 0 <= i < j < |batch| ==> batch[i] != batch[j])
  }

  /** One document keeps threads consistent: an update joins the thread of its
      drucksache, a new item starts its own. */
  lemma StepKeepsThreads(docs: map<string, Document>, p: Progress, id: string,
                         chat: Document -> Exchange, catchMention: bool)
    requires id in docs && docs[id].id == id && id !in p.mappings
    requires ThreadsConsistent(p.mappings)
    ensures ThreadsConsistent(Step(docs, p, id, chat, catchMention).mappings)
  {
    var doc := docs[id];
    var root := Related(p.mappings, doc.drucksache);
    var q := StepWith(doc, p, root, chat(doc), catchMention);
    RelatedRoot(p.mappings, doc.drucksache);
    StepClassifies(doc, p, root, chat(doc), catchMention);
    if id in q.mappings {
      assert q.mappings == p.mappings[id := q.mappings[id]];
      if root.None? {
        OpenThread(p.mappings, id, q.mappings[id]);
      } else {
        var a :| a in p.mappings && p.mappings[a].drucksache == doc.drucksache;
        JoinThread(p.mappings, id, q.mappings[id], a);
      }
    } else {
      assert q.mappings == p.mappings;
    }
  }

  /** The step of the loop: the rest of the batch is still unmapped and threads
      stay consistent. */
  lemma {:induction false} RunStep(docs: map<string, Document>, p: Progress, batch: seq<string>,
                                   chat: Document -> Exchange, catchMention: bool)
    requires batch != [] && Unmapped(docs, p.mappings, batch)
    ensures var q := Step(docs, p, batch[0], chat, catchMention);
      && Unmapped(docs, q.mappings, batch[1..])
      && (forall k :: k in p.mappings ==> k in q.mappings && q.mappings[k] == p.mappings[k])
      && (forall k :: k in q.mappings && k !in p.mappings ==> k == batch[0])
      && (q.failure.None? <==> batch[0] in q.mappings)
      && (ThreadsConsistent(p.mappings) ==> ThreadsConsistent(q.mappings))
  {
    var id := batch[0];
    var doc := docs[id];
    StepClassifies(doc, p, Related(p.mappings, doc.drucksache), chat(doc), catchMention);
    if ThreadsConsistent(p.mappings) {
      StepKeepsThreads(docs, p, id, chat, catchMention);
    }
    assert forall i :: 0 <= i < |batch| - 1 ==> batch[1..][i] == batch[i + 1];
  }

  /** The loop keeps the rows it found and adds rows only for documents of the batch. */
  lemma {:induction false} RunKeepsRows(docs: map<string, Document>, p: Progress, batch: seq<string>,
                                        chat: Document -> Exchange, catchMention: bool)
    requires Unmapped(docs, p.mappings, batch)
    ensures var r := Run(docs, p, batch, chat, catchMention);
      && (forall k :: k in p.mappings ==> k in r.mappings && r.mappings[k] == p.mappings[k])
      && (forall k :: k in r.mappings && k !in p.mappings ==> k in batch)
    decreases |batch|
  {
    if batch != [] && p.failure.None? {
      RunStep(docs, p, batch, chat, catchMention);
      RunKeepsRows(docs, Step(docs, p, batch[0], chat, catchMention), batch[1..], chat, catchMention);
    }
  }

  /** When no exception ends the loop, every document of the batch is mapped. */
  lemma {:induction false} RunMapsAll(docs: map<string, Document>, p: Progress, batch: seq<string>,
                                      chat: Document -> Exchange, catchMention: bool)
    requires Unmapped(docs, p.mappings, batch) && p.failure.None?
    requires Run(docs, p, batch, chat, catchMention).failure.None?
    ensures forall i :: 0 <= i < |batch| ==> batch[i] in Run(docs, p, batch, chat, catchMention).mappings
    decreases |batch|
  {
    if batch != [] {
      var q := Step(docs, p, batch[0], chat, catchMention);
      RunStep(docs, p, batch, chat, catchMention);
      RunMapsAll(docs, q, batch[1..], chat, catchMention);
      RunKeepsRows(docs, q, batch[1..], chat, catchMention);
      assert forall i :: 1 <= i < |batch| ==> batch[i] == batch[1..][i - 1];
    }
  }

  /** The loop keeps threads consistent. */
  lemma {:induction false} RunKeepsThreads(docs: map<string, Document>, p: Progress, batch: seq<string>,
                                           chat: Document -> Exchange, catchMention: bool)
    requires Unmapped(docs, p.mappings, batch)
    requires ThreadsConsistent(p.mappings)
    ensures ThreadsConsistent(Run(docs, p, batch, chat, catchMention).mappings)
    decreases |batch|
  {
    if batch != [] && p.failure.None? {
      RunStep(docs, p, batch, chat, catchMention);
      RunKeepsThreads(docs, Step(docs, p, batch[0], chat, catchMention), batch[1..], chat, catchMention);
    }
  }

  /** Mappings made by the loop belong to documents and copy their drucksache. */
  lemma {:induction false} RunReferTo(docs: map<string, Document>, texts: map<string, DocumentText>,
                                      p: Progress, batch: seq<string>,
                                      chat: Document -> Exchange, catchMention: bool)
    requires RowsReferTo(docs, texts, p.mappings)
    requires forall i :: 0 <= i < |batch| ==> batch[i] in docs && docs[batch[i]].id == batch[i]
    ensures RowsReferTo(docs, texts, Run(docs, p, batch, chat, catchMention).mappings)
    decreases |batch|
  {
    if batch != [] && p.failure.None? {
      RunReferTo(docs, texts, Step(docs, p, batch[0], chat, catchMention), batch[1..], chat, catchMention);
    }
  }

  /** The `related` query of the loop body: the root of a mapping of drucksache
      `d`, if there is one. */
  method FindRoot(mappings: map<string, Mapping>, d: string) returns (rootId: Option<string>)
    requires ThreadsConsistent(mappings)
    ensures rootId == Related(mappings, d)
  {
    rootId := None;
    if a :| a in mappings && mappings[a].drucksache == d {
      rootId := Some(mappings[a].mmRootId);
    }
    RelatedRoot(mappings, d);
  }

  /** The rest of the loop body for `doc` once the query answered `rootId`:
      create the post, "Update" in reply to the root when there is one and
      "Neu" otherwise; for an update look up the root and mention the reacting
      users; record the mapping, whose root is the post itself for a new thread,
      unless an exception ends the loop. */
  method PostOne(doc: Document, p: Progress, rootId: Option<string>, ex: Exchange, catchMention: bool)
    returns (q: Progress)
    requires doc.id !in p.mappings
    ensures q == StepWith(doc, p, rootId, ex, catchMention)
    ensures forall k :: k in p.mappings ==> k in q.mappings && q.mappings[k] == p.mappings[k]
    ensures q.mappings.Keys <= p.mappings.Keys + {doc.id}
    ensures q.failure.None? <==> doc.id in q.mappings
    ensures ex.post.PostFailed? ==> q == Progress(p.mappings, p.posts, Some(ex.post.error))
    ensures ex.post.Posted? ==>
      && q.posts == p.posts + [Post(if rootId.Some? then Update else Neu, doc, rootId)]
      && (doc.id in q.mappings <==>
            rootId.None? || (ex.rootLookup.None? && (ex.mention.None? || catchMention)))
      && (doc.id in q.mappings ==>
            q.mappings[doc.id] == Mapping(doc.id, doc.drucksache, ex.post.id,
              if rootId.None? then ex.post.id else rootId.value))
  {
    q := StepWith(doc, p, rootId, ex, catchMention);
    StepClassifies(doc, p, rootId, ex, catchMention);
  }

  /** The loop of `mattermost_adapter` over the batch, against the chat server `chat`. */
  method PostDocuments(docs: map<string, Document>, mappings0: map<string, Mapping>, batch: seq<string>,
                       chat: Document -> Exchange, catchMention: bool)
    returns (p: Progress)
    requires Unmapped(docs, mappings0, batch)
    requires ThreadsConsistent(mappings0)
    ensures p == Run(docs, Progress(mappings0, [], None), batch, chat, catchMention)
  {
    ghost var target := Run(docs, Progress(mappings0, [], None), batch, chat, catchMention);
    p := Progress(mappings0, [], None);
    var i := 0;
    while i < |batch| && p.failure.None?
      invariant 0 <= i <= |batch|
      invariant Run(docs, p, batch[i..], chat, catchMention) == target
      invariant ThreadsConsistent(p.mappings)
      invariant Unmapped(docs, p.mappings, batch[i..])
    {
      var doc := docs[batch[i]];
      var rootId := FindRoot(p.mappings, doc.drucksache);
      ghost var rest := batch[i..];
      RunStep(docs, p, rest, chat, catchMention);
      p := PostOne(doc, p, rootId, chat(doc), catchMention);
      assert rest[1..] == batch[i + 1..];
      i := i + 1;
    }
  }

  /** The Python values the reactions loop handles: a set of user ids, or a string. */
  datatype PyValue = PySet(members: set<string>) | PyStr(chars: string)

  /** Python's `+` on these values: it concatenates two strings and raises
      `TypeError` (`None`) on any other pair, a set and a string included. */
  function PyPlus(a: PyValue, b: PyValue): (r: Option<PyValue>)
    ensures r.Some? <==> a.PyStr? && b.PyStr?
  {
    if a.PyStr? && b.PyStr? then Some(PyStr(a.chars + b.chars)) else None
  }

  /** The reactions loop as written, from `rusers = set([])`, with
      `rusers = rusers + reaction['user_id']` in each pass: the value of `rusers`
      after the loop, or `None` where a pass raises `TypeError`. */
  method ReactingUsersAsWritten(reactions: seq<string>) returns (r: Option<PyValue>)
    ensures r.None? <==> reactions != []
    ensures r.Some? ==> r.value == PySet({})
  {
    var rusers: Option<PyValue> := Some(PySet({}));
    var i := 0;
    while i < |reactions| && rusers.Some?
      invariant 0 <= i <= |reactions|
      invariant rusers == if i == 0 then Some(PySet({})) else None
    {
      rusers := PyPlus(rusers.value, PyStr(reactions[i]));
      i := i + 1;
    }
    return rusers;
  }

  /** The reactions loop as evidently intended (`rusers.add(reaction['user_id'])`):
      the set of the users who reacted. */
  method ReactingUsers(reactions: seq<string>) returns (users: set<string>)
    ensures forall u :: u in users <==> u in reactions
  {
    users := {};
    var i := 0;
    while i < |reactions|
      invariant 0 <= i <= |reactions|
      invariant forall u :: u in users <==> u in reactions[..i]
    {
      users := users + {reactions[i]};
      assert reactions[..i + 1] == reactions[..i] + [reactions[i]];
      i := i + 1;
    }
    assert reactions[..i] == reactions;
  }
  /** One reaction on the root post: the loop as written raises where the
      intended one mentions the reacting user. */
  method OneReactionRaises(u: string) returns (asWritten: Option<PyValue>, intended: set<string>)
    ensures asWritten.None?
    ensures intended == {u}
  {
    asWritten := ReactingUsersAsWritten([u]);
    intended := ReactingUsers([u]);
    assert forall v :: v in intended <==> v == u;
  }


  /** `"@" + username + " "` for each user, in the order `order`. */
  function Mentions(order: seq<string>, username: string -> string): string
    decreases |order|
  {
    if order == [] then "" else "@" + username(order[0]) + " " + Mentions(order[1..], username)
  }

  /** The mention of `order[j]` sits in the text between those before and after it. */
  lemma {:induction false} MentionAt(order: seq<string>, username: string -> string, j: nat)
    requires j < |order|
    ensures Mentions(order, username) ==
      Mentions(order[..j], username) + ("@" + username(order[j]) + " ") + Mentions(order[j + 1..], username)
    decreases j
  {
    if j == 0 {
      assert order[..0] == [];
    } else {
      MentionAt(order[1..], username, j - 1);
      assert order[1..][..j - 1] == order[1..j];
      assert order[1..][j - 1] == order[j] && order[1..][j..] == order[j + 1..];
      assert order[..j][1..] == order[1..j];
    }
  }

  /** The loop `for ruser in rusers: mtext += "@" + username + " "`; the set is
      visited in some order, returned as `order`. */
  method MentionText(users: set<string>, username: string -> string) returns (mtext: string, order: seq<string>)
    ensures forall u :: u in users <==> u in order
    ensures forall i, j :: 0 <= i < j < |order| ==> order[i] != order[j]
    ensures mtext == Mentions(order, username)
  {
    mtext, order := "", [];
    var rest := users;
    while rest != {}
      invariant rest <= users
      invariant forall u :: u in users <==> u in rest || u in order
      invariant forall u :: u in rest ==> u !in order
      invariant forall i, j :: 0 <= i < j < |order| ==> order[i] != order[j]
      invariant mtext == Mentions(order, username)
      decreases rest
    {
      var u :| u in rest;
      MentionsAppend(order, u, username);
      mtext := mtext + "@" + username(u) + " ";
      order := order + [u];
      rest := rest - {u};
    }
  }

  /** Appending a user appends that user's mention. */
  lemma {:induction false} MentionsAppend(order: seq<string>, u: string, username: string -> string)
    ensures Mentions(order + [u], username) == Mentions(order, username) + "@" + username(u) + " "
    decreases |order|
  {
    if order == [] {
      assert Mentions([u], username) == "@" + username(u) + " " + Mentions([], username);
    } else {
      assert (order + [u])[1..] == order[1..] + [u];
      MentionsAppend(order[1..], u, username);
    }
  }

  /** The stage's result: the mappings after its commits, the posts created and
      the exception it ends with, if any. */
  datatype Notified = Notified(mappings: map<string, Mapping>, posts: seq<Post>, failure: Option<Failure>)

  /** One notifier run over `batch`: a failing login posts nothing; then the
      service commits after every mapping and so keeps those made before an
      exception, while the draft commits once after the loop and so keeps none. */
  ghost function NotifyEffect(variant: Variant, docs: map<string, Document>, mappings0: map<string, Mapping>,
                              batch: seq<string>, chat: Document -> Exchange, login: Option<Failure>): Notified
    requires forall i :: 0 <= i < |batch| ==> batch[i] in docs
  {
    if login.Some? then Notified(mappings0, [], login)
    else
      var p := Run(docs, Progress(mappings0, [], None), batch, chat, variant == Service);
      var committed := if variant == Service || p.failure.None? then p.mappings else mappings0;
      Notified(committed, p.posts, p.failure)
  }

  /** The draft's all-or-nothing commit: after an exception no mapping of the
      run survives, although its posts were made. */
  lemma DraftFailureCommitsNothing(docs: map<string, Document>, mappings0: map<string, Mapping>,
                                   batch: seq<string>, chat: Document -> Exchange, login: Option<Failure>)
    requires forall i :: 0 <= i < |batch| ==> batch[i] in docs
    ensures NotifyEffect(Draft, docs, mappings0, batch, chat, login).failure.Some? ==>
      NotifyEffect(Draft, docs, mappings0, batch, chat, login).mappings == mappings0
  {
  }

  /** Both versions keep old mappings and thread consistency, map only batched
      documents, and map all of them when nothing throws. */
  lemma NotifyKeepsThreads(variant: Variant, docs: map<string, Document>, mappings0: map<string, Mapping>,
                           batch: seq<string>, chat: Document -> Exchange, login: Option<Failure>)
    requires Unmapped(docs, mappings0, batch)
    requires ThreadsConsistent(mappings0)
    ensures var r := NotifyEffect(variant, docs, mappings0, batch, chat, login);
      && ThreadsConsistent(r.mappings)
      && (forall k :: k in mappings0 ==> k in r.mappings && r.mappings[k] == mappings0[k])
      && (forall k :: k in r.mappings && k !in mappings0 ==> k in batch)
      && (r.failure.None? ==> forall i :: 0 <= i < |batch| ==> batch[i] in r.mappings)
  {
    var p := Progress(mappings0, [], None);
    RunKeepsThreads(docs, p, batch, chat, variant == Service);
    RunKeepsRows(docs, p, batch, chat, variant == Service);
    if Run(docs, p, batch, chat, variant == Service).failure.None? {
      RunMapsAll(docs, p, batch, chat, variant == Service);
    }
  }

  /** The size of the batch: ten in the service, all pending documents in the draft. */
  function BatchLimit(variant: Variant, pending: nat): nat {
    if variant == Service then NotifyLimit else pending
  }

  /** A batch the query selects consists of distinct known documents without a mapping. */
  lemma BatchUnmapped(docs: map<string, Document>, mappings: map<string, Mapping>, startDate: Date,
                      limit: nat, batch: seq<string>)
    requires KeyedByContent(docs)
    requires OldestFirst(docs, Pending(docs, mappings.Keys, startDate), limit, batch)
    ensures Unmapped(docs, mappings, batch)
  {
  }

  /** `mattermost_adapter(...)` on the store: the batch it posts and the exception
      it ends with, if any. */
  method Notify(store: Store, variant: Variant, startDate: Date, chat: Document -> Exchange, login: Option<Failure>)
    returns (batch: seq<string>, failure: Option<Failure>, ghost posts: seq<Post>)
    requires store.Valid()
    modifies store
    ensures store.Valid()
    ensures var pool := Pending(old(store.documents), old(store.mappings).Keys, startDate);
      OldestFirst(old(store.documents), pool, BatchLimit(variant, |pool|), batch)
    ensures var r := NotifyEffect(variant, old(store.documents), old(store.mappings), batch, chat, login);
      store.mappings == r.mappings && failure == r.failure && posts == r.posts
    ensures store.documents == old(store.documents) && store.texts == old(store.texts)
    ensures store.config == old(store.config)
  {
    var docs, mappings0 := store.documents, store.mappings;
    var pool := Pending(docs, mappings0.Keys, startDate);
    batch := SelectBatch(docs, pool, BatchLimit(variant, |pool|));
    if login.Some? {
      return batch, login, [];
    }
    BatchUnmapped(docs, mappings0, startDate, BatchLimit(variant, |pool|), batch);
    var p := PostDocuments(docs, mappings0, batch, chat, variant == Service);
    RunKeepsThreads(docs, Progress(mappings0, [], None), batch, chat, variant == Service);
    RunReferTo(docs, store.texts, Progress(mappings0, [], None), batch, chat, variant == Service);
    if variant == Service || p.failure.None? {
      store.mappings := p.mappings;
    }
    assert store.documents == docs;
    failure, posts := p.failure, p.posts;
  }
}
