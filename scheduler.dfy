/** The `__main__` loop of the service: every ten seconds run each stage whose
    interval has elapsed, count consecutive connection errors, and exit on the
    eleventh one in a row or on any other exception. */
module Scheduler {
  import opened Common
  import opened Dates
  import opened Records
  import opened Database
  import opened Batches
  import opened Listing
  import opened Fetcher
  import opened Downloader
  import opened Notifier

  /** More consecutive connection errors than this are fatal. */
  const MaxConnectionErrors: nat := 10

  /** `datetime(1970,1,1,0,0,0)`, the initial `last_execution_*`, in seconds since 1970. */
  const Epoch: int := 0

  /** Why the service exits: "Too many connection errors" or "Unknown error". */
  datatype FatalCause = TooManyConnectionErrors | UnknownError

  /** The loop goes on with this counter, or the outer handler ends the process. */
  datatype Verdict = Running(connectionErrors: nat) | Fatal(cause: FatalCause)

  /** `(datetime.now() - last).total_seconds() > interval`, with times in seconds. */
  predicate Due(now: int, last: int, interval: int) {
    now - last > interval
  }

  /** The handlers after one pass of the loop body with counter `count`: a clean
      pass resets it, a `ConnectionError` raises it and is fatal above ten, any
      other exception is fatal. */
  function Handle(count: nat, failure: Option<Failure>): Verdict {
    match failure
    case None => Running(0)
    case Some(ConnectionError) =>
      if count + 1 > MaxConnectionErrors then Fatal(TooManyConnectionErrors) else Running(count + 1)
    case Some(OtherError) => Fatal(UnknownError)
  }

  /** The verdict after passes that ended with `ticks`, from `errorcount_connection = 0`;
      the first fatal verdict ends the process. */
  function Outcome(ticks: seq<Option<Failure>>): Verdict
    decreases |ticks|
  {
    if ticks == [] then Running(0)
    else match Outcome(ticks[..|ticks| - 1])
      case Fatal(cause) => Fatal(cause)
      case Running(count) => Handle(count, ticks[|ticks| - 1])
  }

  /** The number of connection errors that end `ticks`, one after the other. */
  function Streak(ticks: seq<Option<Failure>>): nat
    decreases |ticks|
  {
    if ticks == [] || ticks[|ticks| - 1] != Some(ConnectionError) then 0
    else Streak(ticks[..|ticks| - 1]) + 1
  }

  /** No pass raised anything but connection errors, and never more than ten in a row. */
  ghost predicate Survivable(ticks: seq<Option<Failure>>) {
    && (forall i :: 0 <= i < |ticks| ==> ticks[i] != Some(OtherError))
    && (forall k :: 0 <= k <= |ticks| ==> Streak(ticks[..k]) <= MaxConnectionErrors)
  }

  /** The service keeps running exactly while its history is survivable, and its
      counter is then the number of connection errors since the last clean pass. */
  lemma {:induction false} OutcomeCounts(ticks: seq<Option<Failure>>)
    ensures Outcome(ticks).Running? <==> Survivable(ticks)
    ensures Outcome(ticks).Running? ==> Outcome(ticks).connectionErrors == Streak(ticks)
    decreases |ticks|
  {
    if ticks != [] {
      var front := ticks[..|ticks| - 1];
      OutcomeCounts(front);
      assert forall k :: 0 <= k <= |front| ==> front[..k] == ticks[..k];
      assert ticks[..|ticks|] == ticks;
      if Survivable(ticks) {
        assert Survivable(front);
      }
    }
  }

  /** Whatever came before, eleven connection errors in a row end the service,
      and an error of any other kind ends it at once. */
  lemma ElevenInARow(before: seq<Option<Failure>>, errors: seq<Option<Failure>>)
    requires |errors| == MaxConnectionErrors + 1
    requires forall i :: 0 <= i < |errors| ==> errors[i] == Some(ConnectionError)
    ensures Outcome(before + errors).Fatal?
    ensures Outcome(before + [Some(OtherError)]).Fatal?
  {
    var all := before + errors;
    OutcomeCounts(all);
    StreakOfErrors(before, errors);
    assert all[..|all|] == all;
    assert !Survivable(all);
    assert (before + [Some(OtherError)])[..|before|] == before;
  }

  /** Appending connection errors lengthens the streak by their number. */
  lemma {:induction false} StreakOfErrors(before: seq<Option<Failure>>, errors: seq<Option<Failure>>)
    requires forall i :: 0 <= i < |errors| ==> errors[i] == Some(ConnectionError)
    ensures Streak(before + errors) == Streak(before) + |errors|
    decreases |errors|
  {
    if errors != [] {
      var front := errors[..|errors| - 1];
      assert (before + errors)[..|before + errors| - 1] == before + front;
      var all := before + errors;
      assert all[|all| - 1] == Some(ConnectionError);
      StreakOfErrors(before, front);
      assert Streak(all) == Streak(all[..|all| - 1]) + 1;
    } else {
      assert before + errors == before;
    }
  }

  /** What became of one stage in a pass. */
  datatype StageResult = Skipped | Done | Threw(error: Failure)

  /** The stages of one pass: the getter, the downloader and the notifier. */
  datatype TickReport = TickReport(getter: StageResult, downloader: StageResult, notifier: StageResult)

  /** The exception that ends a pass: that of the first stage that threw. */
  function TickFailure(report: TickReport): Option<Failure> {
    if report.getter.Threw? then Some(report.getter.error)
    else if report.downloader.Threw? then Some(report.downloader.error)
    else if report.notifier.Threw? then Some(report.notifier.error)
    else None
  }

  /** The clock readings of one pass, one per stage, in seconds since 1970, and
      the getter's reading as a calendar moment. */
  datatype Clock = Clock(getter: int, downloader: int, notifier: int, calendar: Moment)

  /** What the servers answer during one pass. */
  datatype World = World(feed: nat -> Fetch, extract: Document -> Extraction,
                         chat: Document -> Exchange, login: Option<Failure>)

  /** What a pass of the loop can change: the tables, the stages' start times,
      the connection error counter and the history of the passes. */
  datatype Snapshot = Snapshot(documents: map<string, Document>, texts: map<string, DocumentText>,
                               mappings: map<string, Mapping>, config: map<string, string>,
                               lastGetter: int, lastDownloader: int, lastNotifier: int,
                               connectionErrors: nat, ticks: seq<Option<Failure>>)

  /** What the downloader and the notifier of one pass handled: the batches
      and the posts the notifier made. */
  datatype Handled = Handled(downloads: seq<string>, notified: seq<string>, posts: seq<Post>)

  class Service {
    const store: Store
    const startDate: Date
    const intervalGetter: int
    const intervalDownloader: int
    const intervalNotifier: int
    var lastGetter: int
    var lastDownloader: int
    var lastNotifier: int
    var connectionErrors: nat
    /** How each pass so far ended. */
    ghost var ticks: seq<Option<Failure>>

    /** The store is consistent and the counter is what the passes so far give. */
    ghost predicate Valid()
      reads this, store
    {
      && store.Valid()
      && Outcome(ticks) == Running(connectionErrors)
    }

    /** The service's state as a value. */
    ghost function State(): Snapshot
      reads this, store
    {
      Snapshot(store.documents, store.texts, store.mappings, store.config,
               lastGetter, lastDownloader, lastNotifier, connectionErrors, ticks)
    }

    /** The `try` block of a pass from `pre` to `post`, where the downloader
        handled `downloads` and the notifier `notified`: a stage runs exactly when
        its interval has elapsed and no earlier stage threw, after recording its
        start time; the getter's tables are those of `GetterEffect`; the
        downloader's batch is the five oldest documents without text in the
        documents the getter left, and the texts those of `Downloaded`; the
        notifier's batch is the ten oldest unmapped documents, and its mappings
        and exception those of `NotifyEffect`; a skipped stage changes nothing. */
    ghost predicate StagesSpec(pre: Snapshot, clock: Clock, world: World, report: TickReport,
                               downloads: seq<string>, notified: seq<string>, posts: seq<Post>, post: Snapshot)
    {
      && (report.getter.Skipped? <==> !Due(clock.getter, pre.lastGetter, intervalGetter))
      && (report.downloader.Skipped? <==>
            report.getter.Threw? || !Due(clock.downloader, pre.lastDownloader, intervalDownloader))
      && !report.downloader.Threw?
      && (report.notifier.Skipped? <==>
            report.getter.Threw? || !Due(clock.notifier, pre.lastNotifier, intervalNotifier))
      && post.lastGetter == (if report.getter.Skipped? then pre.lastGetter else clock.getter)
      && post.lastDownloader == (if report.downloader.Skipped? then pre.lastDownloader else clock.downloader)
      && post.lastNotifier == (if report.notifier.Skipped? then pre.lastNotifier else clock.notifier)
      && (report.getter.Skipped? ==> post.documents == pre.documents && post.config == pre.config)
      && (!report.getter.Skipped? ==>
            var run := GetterEffect(Service, pre.documents, pre.config, startDate, clock.calendar, world.feed);
            && post.documents == run.documents && post.config == run.config
            && (report.getter.Threw? <==> run.outcome.Failed?)
            && (report.getter.Threw? ==> run.outcome.error == report.getter.error))
      && (report.downloader.Skipped? ==> post.texts == pre.texts && downloads == [])
      && (!report.downloader.Skipped? ==>
            && OldestFirst(post.documents, Pending(post.documents, pre.texts.Keys, startDate), DownloadLimit, downloads)
            && post.texts == Downloaded(post.documents, pre.texts, downloads, world.extract))
      && (report.notifier.Skipped? ==> post.mappings == pre.mappings && notified == [] && posts == [])
      && (!report.notifier.Skipped? ==>
            && OldestFirst(post.documents, Pending(post.documents, pre.mappings.Keys, startDate), NotifyLimit, notified)
            && (var r := NotifyEffect(Service, post.documents, pre.mappings, notified, world.chat, world.login);
                && post.mappings == r.mappings && posts == r.posts
                && (report.notifier.Threw? <==> r.failure.Some?)
                && (report.notifier.Threw? ==> report.notifier.error == r.failure.value)))
    }

    /** The `try` block leaves the counter and the history to the handlers. */
    lemma StagesKeepCounter(pre: Snapshot, clock: Clock, world: World, report: TickReport,
                            downloads: seq<string>, notified: seq<string>, posts: seq<Post>, post: Snapshot,
                            ticks': seq<Option<Failure>>, errors: nat)
      requires StagesSpec(pre, clock, world, report, downloads, notified, posts, post)
      ensures StagesSpec(pre, clock, world, report, downloads, notified, posts, post.(ticks := ticks', connectionErrors := errors))
    {
    }

    /** A whole pass from `pre` to `post`: the `try` block as `StagesSpec` says,
        then the handlers, which append the pass's first exception to the
        history and reset the counter after a clean pass, raise it after a
        connection error (to eleven before the fatal one is raised) and leave it
        after any other exception. */
    ghost predicate TickSpec(pre: Snapshot, clock: Clock, world: World, report: TickReport,
                             downloads: seq<string>, notified: seq<string>, posts: seq<Post>, post: Snapshot)
    {
      && StagesSpec(pre, clock, world, report, downloads, notified, posts, post)
      && post.ticks == pre.ticks + [TickFailure(report)]
      && post.connectionErrors ==
           match TickFailure(report)
           case None => 0
           case Some(ConnectionError) => pre.connectionErrors + 1
           case Some(OtherError) => pre.connectionErrors
    }

    /** The state before the `while True` loop. */
    constructor (store: Store, startDate: Date, intervalGetter: int, intervalDownloader: int, intervalNotifier: int)
      requires store.Valid()
      ensures Valid()
      ensures this.store == store && this.startDate == startDate
      ensures this.intervalGetter == intervalGetter && this.intervalDownloader == intervalDownloader
      ensures this.intervalNotifier == intervalNotifier
      ensures lastGetter == Epoch && lastDownloader == Epoch && lastNotifier == Epoch
      ensures connectionErrors == 0 && ticks == []
    {
      this.store := store;
      this.startDate := startDate;
      this.intervalGetter := intervalGetter;
      this.intervalDownloader := intervalDownloader;
      this.intervalNotifier := intervalNotifier;
      lastGetter, lastDownloader, lastNotifier := Epoch, Epoch, Epoch;
      connectionErrors := 0;
      ticks := [];
    }

    /** The getter stage of a pass at time `now`: when due, record `now` and run
        `ltgetter`, whose exception is the stage's. */
    method GetterStage(now: int, calendar: Moment, feed: nat -> Fetch) returns (result: StageResult)
      requires store.Valid()
      modifies this`lastGetter, store
      ensures store.Valid()
      ensures result.Skipped? <==> !Due(now, old(lastGetter), intervalGetter)
      ensures lastGetter == if result.Skipped? then old(lastGetter) else now
      ensures result.Skipped? ==> store.documents == old(store.documents) && store.config == old(store.config)
      ensures !result.Skipped? ==>
        var run := GetterEffect(Service, old(store.documents), old(store.config), startDate, calendar, feed);
        && store.documents == run.documents && store.config == run.config
        && (result.Threw? <==> run.outcome.Failed?)
        && (result.Threw? ==> result.error == run.outcome.error)
      ensures store.texts == old(store.texts) && store.mappings == old(store.mappings)
    {
      result := Skipped;
      if Due(now, lastGetter, intervalGetter) {
        lastGetter := now;
        var outcome := GetNewDocuments(store, Service, startDate, calendar, feed);
        result := if outcome.Failed? then Threw(outcome.error) else Done;
      }
    }

    /** The downloader stage: when due, record `now` and download a batch of texts. */
    method DownloaderStage(now: int, extract: Document -> Extraction) returns (result: StageResult, batch: seq<string>)
      requires store.Valid()
      modifies this`lastDownloader, store
      ensures store.Valid()
      ensures result.Skipped? <==> !Due(now, old(lastDownloader), intervalDownloader)
      ensures !result.Threw?
      ensures lastDownloader == if result.Skipped? then old(lastDownloader) else now
      ensures result.Skipped? ==> store.texts == old(store.texts)
      ensures result.Skipped? ==> batch == []
      ensures !result.Skipped? ==>
        && OldestFirst(store.documents, Pending(store.documents, old(store.texts).Keys, startDate), DownloadLimit, batch)
        && store.texts == Downloaded(store.documents, old(store.texts), batch, extract)
      ensures store.documents == old(store.documents) && store.mappings == old(store.mappings)
      ensures store.config == old(store.config)
    {
      result, batch := Skipped, [];
      if Due(now, lastDownloader, intervalDownloader) {
        lastDownloader := now;
        batch := Download(store, startDate, extract);
        result := Done;
      }
    }

    /** The notifier stage: when due, record `now` and post a batch of at most ten. */
    method NotifierStage(now: int, chat: Document -> Exchange, login: Option<Failure>)
      returns (result: StageResult, batch: seq<string>, ghost posts: seq<Post>)
      requires store.Valid()
      modifies this`lastNotifier, store
      ensures store.Valid()
      ensures result.Skipped? <==> !Due(now, old(lastNotifier), intervalNotifier)
      ensures lastNotifier == if result.Skipped? then old(lastNotifier) else now
      ensures result.Skipped? ==> store.mappings == old(store.mappings)
      ensures result.Skipped? ==> batch == [] && posts == []
      ensures !result.Skipped? ==>
        && (var pool := Pending(store.documents, old(store.mappings).Keys, startDate);
            OldestFirst(store.documents, pool, NotifyLimit, batch))
        && (var r := NotifyEffect(Service, store.documents, old(store.mappings), batch, chat, login);
            && store.mappings == r.mappings && posts == r.posts
            && (result.Threw? <==> r.failure.Some?)
            && (result.Threw? ==> result.error == r.failure.value))
      ensures store.documents == old(store.documents) && store.texts == old(store.texts)
      ensures store.config == old(store.config)
    {
      result, batch, posts := Skipped, [], [];
      if Due(now, lastNotifier, intervalNotifier) {
        lastNotifier := now;
        var failure;
        batch, failure, posts := Notify(store, Service, startDate, chat, login);
        result := if failure.Some? then Threw(failure.value) else Done;
      }
    }

    /** The `try` block of a pass: each due stage first records its start time
        and then runs; an exception skips the stages after it. */
    method Stages(clock: Clock, world: World)
      returns (report: TickReport, downloads: seq<string>, notified: seq<string>, ghost posts: seq<Post>)
      requires store.Valid()
      modifies this`lastGetter, this`lastDownloader, this`lastNotifier, store
      ensures store.Valid()
      ensures StagesSpec(old(State()), clock, world, report, downloads, notified, posts, State())
    {
      var getter := GetterStage(clock.getter, clock.calendar, world.feed);
      report, downloads, notified, posts := TickReport(getter, Skipped, Skipped), [], [], [];
      if !getter.Threw? {
        var downloader, notifier;
        downloader, downloads := DownloaderStage(clock.downloader, world.extract);
        notifier, notified, posts := NotifierStage(clock.notifier, world.chat, world.login);
        report := TickReport(getter, downloader, notifier);
      }
    }

    /** One pass of the loop body: the stages, then the handlers, which update
        the counter or end the service. */
    method Tick(clock: Clock, world: World)
      returns (report: TickReport, downloads: seq<string>, notified: seq<string>, ghost posts: seq<Post>, verdict: Verdict)
      requires Valid()
      modifies this, store
      ensures store.Valid()
      ensures TickSpec(old(State()), clock, world, report, downloads, notified, posts, State())
      ensures verdict == Outcome(ticks)
      ensures verdict.Running? ==> Valid()
    {
      report, downloads, notified, posts := Stages(clock, world);
      ghost var mid := State();
      ticks := ticks + [TickFailure(report)];
      assert ticks[..|ticks| - 1] == old(ticks);
      verdict := Handle(connectionErrors, TickFailure(report));
      match TickFailure(report) {
        case None => connectionErrors := 0;
        case Some(ConnectionError) => connectionErrors := connectionErrors + 1;
        case Some(OtherError) =>
      }
      StagesKeepCounter(old(State()), clock, world, report, downloads, notified, posts, mid, ticks, connectionErrors);
    }

    /** The passes `0 .. |reports|` ran as `TickSpec` says, each from a running
        service, through the states `states`, handling the documents `handled`. */
    ghost predicate Ran(passes: seq<(Clock, World)>, reports: seq<TickReport>, states: seq<Snapshot>,
                        handled: seq<Handled>)
    {
      && |reports| <= |passes| && |states| == |reports| + 1 && |handled| == |reports|
      && (forall i :: 0 <= i < |reports| ==>
            TickSpec(states[i], passes[i].0, passes[i].1, reports[i],
                     handled[i].downloads, handled[i].notified, handled[i].posts, states[i + 1]))
      && (forall i :: 0 <= i < |reports| ==> Outcome(states[i].ticks).Running?)
    }

    /** One more pass from the last state, which is running, extends the run. */
    lemma RanOneMore(passes: seq<(Clock, World)>, reports: seq<TickReport>, states: seq<Snapshot>,
                     handled: seq<Handled>, report: TickReport, h: Handled, post: Snapshot)
      requires Ran(passes, reports, states, handled) && |reports| < |passes|
      requires Outcome(states[|reports|].ticks).Running?
      requires TickSpec(states[|reports|], passes[|reports|].0, passes[|reports|].1, report,
                        h.downloads, h.notified, h.posts, post)
      ensures Ran(passes, reports + [report], states + [post], handled + [h])
    {
      var i := |reports|;
      var reports', states', handled' := reports + [report], states + [post], handled + [h];
      forall j | 0 <= j <= i
        ensures TickSpec(states'[j], passes[j].0, passes[j].1, reports'[j],
                         handled'[j].downloads, handled'[j].notified, handled'[j].posts, states'[j + 1])
        ensures Outcome(states'[j].ticks).Running?
      {
        if j < i {
          assert states'[j] == states[j] && states'[j + 1] == states[j + 1];
          assert reports'[j] == reports[j] && handled'[j] == handled[j];
        }
      }
    }

    /** The loop body for the next pass, `passes[|reports|]`, from a running
        service whose passes so far ran as `Ran` says. */
    method NextPass(passes: seq<(Clock, World)>, reports: seq<TickReport>, ghost states: seq<Snapshot>,
                    ghost handled: seq<Handled>)
      returns (reports': seq<TickReport>, verdict: Verdict, ghost states': seq<Snapshot>,
               ghost handled': seq<Handled>)
      requires Valid()
      requires Ran(passes, reports, states, handled) && |reports| < |passes|
      requires states[|reports|] == State()
      modifies this, store
      ensures store.Valid()
      ensures Ran(passes, reports', states', handled') && |reports'| == |reports| + 1
      ensures states'[0] == states[0] && states'[|reports'|] == State()
      ensures verdict == Outcome(ticks)
      ensures verdict.Running? ==> Valid()
    {
      var report, d, n;
      ghost var posts;
      report, d, n, posts, verdict := Tick(passes[|reports|].0, passes[|reports|].1);
      RanOneMore(passes, reports, states, handled, report, Handled(d, n, posts), State());
      reports', states', handled' := reports + [report], states + [State()], handled + [Handled(d, n, posts)];
    }

    /** The `while True` loop over the passes `passes`, until one is fatal:
        pass `i` runs as `TickSpec` says from the state `states[i]` the passes
        before it left, with report `reports[i]` and the documents and posts
        `handled[i]`; every pass starts from a running service, and a fatal
        verdict ends the loop at the pass that caused it. */
    method Serve(passes: seq<(Clock, World)>)
      returns (reports: seq<TickReport>, verdict: Verdict, ghost states: seq<Snapshot>,
               ghost handled: seq<Handled>)
      requires Valid()
      modifies this, store
      ensures store.Valid()
      ensures |reports| <= |passes| && |states| == |reports| + 1 && |handled| == |reports|
      ensures states[0] == old(State()) && states[|reports|] == State()
      ensures forall i :: 0 <= i < |reports| ==>
        TickSpec(states[i], passes[i].0, passes[i].1, reports[i],
                 handled[i].downloads, handled[i].notified, handled[i].posts, states[i + 1])
      ensures forall i :: 0 <= i < |reports| ==> Outcome(states[i].ticks).Running?
      ensures verdict == Outcome(ticks)
      ensures verdict.Running? ==> Valid() && |reports| == |passes|
      ensures verdict.Fatal? ==> 0 < |reports|
    {
      verdict := Running(connectionErrors);
      reports, states, handled := [], [State()], [];
      var i := 0;
      while i < |passes| && verdict.Running?
        invariant 0 <= i <= |passes| && |reports| == i
        invariant |states| == i + 1 && |handled| == i
        invariant store.Valid()
        invariant states[0] == old(State()) && states[i] == State()
        invariant Ran(passes, reports, states, handled)
        invariant verdict == Outcome(ticks)
        invariant verdict.Running? ==> Valid()
        invariant verdict.Fatal? ==> i > 0
      {
        reports, verdict, states, handled := NextPass(passes, reports, states, handled);
        i := i + 1;
      }
    }
  }
}
