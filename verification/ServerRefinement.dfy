/** The stateless server refines the coroutine: over every run of requests, results and failed trials its history
    describes a run of the coroutine, and its answers are the coroutine's. */
module ServerRefinement {
  import opened Lists
  import opened Outcomes
  import opened Exploration
  import opened LoggedRuns
  import opened ServerExplorer
  import Pruning

  predicate Records(t: Trial, fb: Feedback) {
    t == Trial(Succeeded, fb.reached, Some(fb.cost))
  }

  const AWAITED := Trial(Dispatched, false, None)

  /** The trials of one batch size are the results logged for it, followed by the pending trial if it has one. */
  ghost predicate TrialsMatch(trials: seq<Trial>, results: seq<Feedback>, pending: bool) {
    && |trials| == |results| + (if pending then 1 else 0)
    && (forall i :: 0 <= i < |results| ==> Records(trials[i], results[i]))
    && (pending ==> trials[|results|] == AWAITED)
  }

  ghost predicate Matches(h: History, log: seq<Report>, pending: Option<int>) {
    forall b :: TrialsMatch(TrialsOf(h, b), ResultsOf(log, b), pending == Some(b))
  }

  ghost predicate GoodJob(job: JobState) {
    Distinct(job.batchSizes) && job.default in job.batchSizes && job.rounds > 0
  }

  /** The history stems from a run of the coroutine, whose next batch size is the pending one if there is one. */
  ghost predicate Tracks(job: JobState, h: History, log: seq<Report>, pending: Option<int>) {
    && Follows(Beginning(job), log)
    && Matches(h, log, pending)
    && (pending.Some? ==> Next(RunOf(Beginning(job), log)).1 == Yields(pending.value))
  }

  function Translate(answer: Answer): Response {
    if answer.Yields? then Explore(answer.bs) else Ended(answer)
  }

  lemma BeginsWell(job: JobState)
    requires GoodJob(job)
    ensures NextOk(Beginning(job), [])
  {
    SameElements(job.batchSizes, SortBy(AtMost, job.batchSizes));
    DistinctPermutation(job.batchSizes, SortBy(AtMost, job.batchSizes));
  }

  lemma RespondsToNext(job: JobState, e: Explorer, log: seq<Report>, h: History)
    requires NextOk(e, log)
    ensures Next(e).1.Yields? ==> Next(e).0.control.AtYield? && Suspended(Next(e).0, Next(e).0.control.frame)
  {
    hide ResultsOf;
    NextKeeps(e, log);
  }

  lemma ReplayTakes(job: JobState, e: Explorer, log: seq<Report>, r: Report, h: History)
    requires YieldOk(e, log) && r.bs == e.expecting
    requires |TrialsOf(h, r.bs)| > |ResultsOf(log, r.bs)|
    requires Records(TrialsOf(h, r.bs)[|ResultsOf(log, r.bs)|], r.feedback)
    requires NextOk(Send(e, r).0, log + [r])
    ensures Suspended(e, e.control.frame)
    ensures var received := Send(e, r).0;
      var (after, answer) := Next(received);
      && (answer.Yields? ==> after.control.AtYield? && Suspended(after, after.control.frame))
      && Replay(job, e, e.control.frame, h) == Respond(job, after, answer, h)
  {
    hide Advance, ResultsOf, FrameOk;
    var f := e.control.frame;
    assert f.todo[0] in f.todo;
    assert FeedbackOf(TrialsOf(h, r.bs)[f.round]) == r.feedback;
    assert Next(Send(e, r).0) == Judge(e.(expecting := 0, control := AtAck(f, r.feedback)), f, r.feedback);
  }

  /** Replaying the history reaches the state that any prefix of the run reached. */
  lemma {:induction false} ReplayReaches(job: JobState, h: History, log: seq<Report>, pending: Option<int>, n: nat)
    requires GoodJob(job) && Tracks(job, h, log, pending) && n <= |log|
    ensures var (e, answer) := Next(RunOf(Beginning(job), log[..n]));
      && (answer.Yields? ==> e.control.AtYield? && Suspended(e, e.control.frame))
      && Answered(job, h) == Respond(job, e, answer, h)
    decreases n
  {
    hide NextOk, YieldOk, Next, Send, Replay, TrialsMatch, SortBy, Matches, Answered, Records, GoodJob, ResultsOf;
    var start := Beginning(job);
    BeginsWell(job);
    if n == 0 {
      assert log[..0] == [];
      RespondsToNext(job, start, [], h);
      AnsweredFirst(job, h);
    } else {
      hide RunOf, Follows, Respond, Beginning;
      ReplayReaches(job, h, log, pending, n - 1);
      FollowsPrefix(start, log, n - 1);
      FollowsPrefix(start, log, n);
      RunInvariant(start, log[..n - 1]);
      var e := RunOf(start, log[..n - 1]);
      var r := log[n - 1];
      NextKeeps(e, log[..n - 1]);
      TurnKeeps(e, log[..n - 1], r);
      LoggedResult(h, log, pending, n - 1);
      YieldsExpecting(Next(e).0, log[..n - 1]);
      ReplayTakes(job, Next(e).0, log[..n - 1], r, h);
      RunOfLonger(start, log, n - 1);
    }
  }

  lemma YieldsExpecting(e: Explorer, log: seq<Report>)
    requires YieldOk(e, log)
    ensures Suspended(e, e.control.frame) && |ResultsOf(log, e.expecting)| == e.control.frame.round
  {
    hide FrameOk, ResultsOf;
    var f := e.control.frame;
    var bs := f.todo[0];
    assert bs in f.todo;
  }

  lemma AnsweredFirst(job: JobState, h: History)
    requires GoodJob(job) && NextOk(Beginning(job), [])
    ensures var (e, answer) := Next(Beginning(job));
      && answer.Yields? && e.control.AtYield? && Suspended(e, e.control.frame)
      && Answered(job, h) == Respond(job, e, answer, h)
  {
    hide SortBy, Replay;
  }

  lemma LoggedResult(h: History, log: seq<Report>, pending: Option<int>, n: nat)
    requires Matches(h, log, pending) && n < |log|
    ensures var r := log[n]; var k := |ResultsOf(log[..n], r.bs)|;
      |TrialsOf(h, r.bs)| > k && Records(TrialsOf(h, r.bs)[k], r.feedback)
  {
    hide ResultsOf, TrialsOf;
    var r := log[n];
    assert log[..n] + [r] == log[..n + 1];
    OnlyItsOwn(log[..n], r);
    ResultsGrow(log, n + 1, r.bs);
    assert TrialsMatch(TrialsOf(h, r.bs), ResultsOf(log, r.bs), pending == Some(r.bs));
    var k := |ResultsOf(log[..n], r.bs)|;
    assert ResultsOf(log[..n + 1], r.bs)[k] == r.feedback == ResultsOf(log, r.bs)[k];
  }

  lemma PendingRead(job: JobState, h: History, log: seq<Report>, pending: Option<int>, e: Explorer)
    requires Matches(h, log, pending) && YieldOk(e, log) && (pending.Some? ==> pending.value == e.expecting)
    ensures Suspended(e, e.control.frame)
    ensures Replay(job, e, e.control.frame, h)
         == if pending.Some? then Concurrent(job.cheapest) else Explore(e.expecting)
  {
    hide Judge, ResultsOf, FrameOk;
    var f := e.control.frame;
    assert f.todo[0] in f.todo;
    assert TrialsMatch(TrialsOf(h, f.todo[0]), ResultsOf(log, f.todo[0]), pending == Some(f.todo[0]));
  }

  /** The server answers a request as the coroutine does, or with a concurrent trial while a result is due. */
  lemma ServerAnswersAsCoroutine(job: JobState, h: History, log: seq<Report>, pending: Option<int>)
    requires GoodJob(job) && Tracks(job, h, log, pending)
    ensures Answered(job, h) ==
      if pending.Some? then Concurrent(job.cheapest) else Translate(Next(RunOf(Beginning(job), log)).1)
  {
    hide NextOk, YieldOk, Next, Send, Replay, Matches, SortBy;
    ReplayReaches(job, h, log, pending, |log|);
    assert log[..|log|] == log;
    BeginsWell(job);
    RunInvariant(Beginning(job), log);
    var e := RunOf(Beginning(job), log);
    NextKeeps(e, log);
    if Next(e).1.Yields? {
      PendingRead(job, h, log, pending, Next(e).0);
    }
  }

  // ---- Runs of the server ----

  datatype Event =
    | Request                                 // a job asks for its batch size
    | Finishes(bs: int, feedback: Feedback)   // the exploration trial of bs reports
    | Fails(bs: int)                          // the exploration trial of bs is given up

  predicate IsPending(trials: seq<Trial>) {
    trials != [] && trials[|trials| - 1].status == Dispatched
  }

  function OnEvent(job: JobState, h: History, ev: Event): History {
    match ev
    case Request =>
      var response := Answered(job, h);
      if response.Explore? then h[response.bs := TrialsOf(h, response.bs) + [AWAITED]] else h
    case Finishes(bs, fb) =>
      var trials := TrialsOf(h, bs);
      if IsPending(trials) then h[bs := trials[..|trials| - 1] + [Trial(Succeeded, fb.reached, Some(fb.cost))]] else h
    case Fails(bs) =>
      var trials := TrialsOf(h, bs);
      if IsPending(trials) then h[bs := trials[..|trials| - 1]] else h
  }

  lemma PendingIsLast(h: History, log: seq<Report>, pending: Option<int>, bs: int)
    requires Matches(h, log, pending)
    ensures IsPending(TrialsOf(h, bs)) <==> pending == Some(bs)
  {
    assert TrialsMatch(TrialsOf(h, bs), ResultsOf(log, bs), pending == Some(bs));
  }

  lemma NowPending(h: History, log: seq<Report>, bs: int)
    requires Matches(h, log, None)
    ensures Matches(h[bs := TrialsOf(h, bs) + [AWAITED]], log, Some(bs))
  {
    hide ResultsOf;
    var h' := h[bs := TrialsOf(h, bs) + [AWAITED]];
    forall b
      ensures TrialsMatch(TrialsOf(h', b), ResultsOf(log, b), Some(bs) == Some(b))
    {
      assert TrialsMatch(TrialsOf(h, b), ResultsOf(log, b), false);
    }
  }

  lemma NowRecorded(h: History, log: seq<Report>, bs: int, fb: Feedback)
    requires Matches(h, log, Some(bs))
    ensures var trials := TrialsOf(h, bs);
      && trials != []
      && Matches(h[bs := trials[..|trials| - 1] + [Trial(Succeeded, fb.reached, Some(fb.cost))]],
                 log + [Report(bs, fb)], None)
  {
    hide ResultsOf;
    var trials := TrialsOf(h, bs);
    assert TrialsMatch(trials, ResultsOf(log, bs), true);
    var h' := h[bs := trials[..|trials| - 1] + [Trial(Succeeded, fb.reached, Some(fb.cost))]];
    OnlyItsOwn(log, Report(bs, fb));
    forall b
      ensures TrialsMatch(TrialsOf(h', b), ResultsOf(log + [Report(bs, fb)], b), false)
    {
      assert TrialsMatch(TrialsOf(h, b), ResultsOf(log, b), Some(bs) == Some(b));
    }
  }

  lemma NowGivenUp(h: History, log: seq<Report>, bs: int)
    requires Matches(h, log, Some(bs))
    ensures var trials := TrialsOf(h, bs); trials != [] && Matches(h[bs := trials[..|trials| - 1]], log, None)
  {
    hide ResultsOf;
    var trials := TrialsOf(h, bs);
    assert TrialsMatch(trials, ResultsOf(log, bs), true);
    forall b
      ensures TrialsMatch(TrialsOf(h[bs := trials[..|trials| - 1]], b), ResultsOf(log, b), false)
    {
      assert TrialsMatch(TrialsOf(h, b), ResultsOf(log, b), Some(bs) == Some(b));
    }
  }

  /** Every event keeps the server's history in step with a run of the coroutine. */
  lemma EventTracks(job: JobState, h: History, log: seq<Report>, pending: Option<int>, ev: Event)
    returns (log': seq<Report>, pending': Option<int>)
    requires GoodJob(job) && Tracks(job, h, log, pending)
    ensures Tracks(job, OnEvent(job, h, ev), log', pending')
    ensures log' == log || exists r :: log' == log + [r] && pending == Some(r.bs)
  {
    hide Next, Send, Answered, ResultsOf, Matches, Follows, IsPending, GoodJob, TrialsOf, RunOf, Beginning;
    log', pending' := log, pending;
    match ev
    case Request =>
      ServerAnswersAsCoroutine(job, h, log, pending);
      if Answered(job, h).Explore? {
        pending' := Some(Answered(job, h).bs);
        NowPending(h, log, Answered(job, h).bs);
      }
    case Finishes(bs, fb) =>
      PendingIsLast(h, log, pending, bs);
      if pending == Some(bs) {
        log', pending' := log + [Report(bs, fb)], None;
        NowRecorded(h, log, bs, fb);
        FollowsLonger(Beginning(job), log, Report(bs, fb));
      }
    case Fails(bs) =>
      PendingIsLast(h, log, pending, bs);
      if pending == Some(bs) {
        pending' := None;
        NowGivenUp(h, log, bs);
      }
  }

  function AfterEvents(job: JobState, events: seq<Event>): History {
    if events == [] then map[]
    else OnEvent(job, AfterEvents(job, events[..|events| - 1]), events[|events| - 1])
  }

  lemma StartTracks(job: JobState)
    ensures Tracks(job, map[], [], None)
  {
    NothingMatches(map[]);
  }

  /** Whatever happens, the history stays in step with some run of the coroutine. */
  lemma {:induction false} EventsTrack(job: JobState, events: seq<Event>)
    returns (log: seq<Report>, pending: Option<int>)
    requires GoodJob(job)
    ensures Tracks(job, AfterEvents(job, events), log, pending)
    decreases |events|
  {
    hide Tracks, OnEvent, GoodJob;
    if events == [] {
      log, pending := [], None;
      StartTracks(job);
    } else {
      log, pending := EventsTrack(job, events[..|events| - 1]);
      log, pending := EventTracks(job, AfterEvents(job, events[..|events| - 1]), log, pending, events[|events| - 1]);
    }
  }

  /** Over every sequence of events the server explores what one run of the coroutine yields: there is a log the
      coroutine follows such that the answer to the next request is the coroutine's. */
  lemma ServerRefines(job: JobState, events: seq<Event>) returns (log: seq<Report>, pending: Option<int>)
    requires GoodJob(job)
    ensures Tracks(job, AfterEvents(job, events), log, pending)
    ensures Answered(job, AfterEvents(job, events)) ==
      if pending.Some? then Concurrent(job.cheapest) else Translate(Next(RunOf(Beginning(job), log)).1)
  {
    hide Tracks, Answered, Next, AfterEvents, RunOf, GoodJob, Translate;
    log, pending := EventsTrack(job, events);
    ServerAnswersAsCoroutine(job, AfterEvents(job, events), log, pending);
  }

  // ---- Both explorations under one feedback function ----

  lemma AnswersAfter(job: JobState, fb: Pruning.Oracle, h: History, n: nat)
    requires GoodJob(job)
    requires var v := Pruning.Prune(SortBy(AtMost, job.batchSizes), job.default, 0, job.rounds, fb);
      n <= |v.trace| && Matches(h, Extend([], v.trace[..n], fb), None)
    ensures var v := Pruning.Prune(SortBy(AtMost, job.batchSizes), job.default, 0, job.rounds, fb);
      Answered(job, h) == if n < |v.trace| then Explore(v.trace[n]) else Ended(v.answer)
  {
    hide Answered, Next, Send, NextOk, YieldOk, FrameOk, Pruning.Prune, Pruning.Drive, SortBy, Matches;
    var start := Beginning(job);
    BeginsWell(job);
    SortedIsIncreasing(job.batchSizes);
    PruneFollows(start, fb, n);
    var v := Pruning.Prune(SortBy(AtMost, job.batchSizes), job.default, 0, job.rounds, fb);
    ServerAnswersAsCoroutine(job, h, Extend([], v.trace[..n], fb), None);
    EndsWithAnswer(start, fb);
  }

  /** One request; if it is answered with an exploration, its result comes in, by the feedback function for the number
      of trials this batch size has had. */
  function Exchange(job: JobState, h: History, fb: Pruning.Oracle): History {
    var response := Answered(job, h);
    if response.Explore? then
      OnEvent(job, OnEvent(job, h, Request), Finishes(response.bs, fb(response.bs, |TrialsOf(h, response.bs)|)))
    else h
  }

  /** The history the server has built up by itself after n requests. */
  function Fed(job: JobState, fb: Pruning.Oracle, n: nat): History {
    if n == 0 then map[] else Exchange(job, Fed(job, fb, n - 1), fb)
  }

  lemma ExchangeMatches(job: JobState, h: History, log: seq<Report>, fb: Pruning.Oracle, bs: int)
    requires Matches(h, log, None) && Answered(job, h) == Explore(bs)
    ensures Matches(Exchange(job, h, fb), log + [Report(bs, fb(bs, |ResultsOf(log, bs)|))], None)
  {
    hide Answered, ResultsOf;
    var asked := h[bs := TrialsOf(h, bs) + [AWAITED]];
    assert TrialsMatch(TrialsOf(h, bs), ResultsOf(log, bs), false);
    NowPending(h, log, bs);
    PendingIsLast(asked, log, Some(bs), bs);
    hide Matches, TrialsMatch, IsPending, TrialsOf;
    NowRecorded(asked, log, bs, fb(bs, |ResultsOf(log, bs)|));
  }

  /** For every feedback function, a server fed nothing but its own history answers the n-th request with the n-th
      exploration pruning prescribes, and every later one with the survivors, or with the error when everything was
      pruned. */
  lemma {:induction false} ServerPrunes(job: JobState, fb: Pruning.Oracle, n: nat)
    requires GoodJob(job)
    ensures var v := Pruning.Prune(SortBy(AtMost, job.batchSizes), job.default, 0, job.rounds, fb);
      && Answered(job, Fed(job, fb, n)) == (if n < |v.trace| then Explore(v.trace[n]) else Ended(v.answer))
      && (n <= |v.trace| ==> Matches(Fed(job, fb, n), Extend([], v.trace[..n], fb), None))
  {
    hide Answered, Pruning.Prune, SortBy, Matches, GoodJob, ResultsOf, Extend, Exchange;
    var v := Pruning.Prune(SortBy(AtMost, job.batchSizes), job.default, 0, job.rounds, fb);
    if n == 0 {
      FedNothing(job, fb);
      assert v.trace[..0] == [];
    } else {
      ServerPrunes(job, fb, n - 1);
      FedMore(job, fb, n);
      if n <= |v.trace| {
        ExchangeMatches(job, Fed(job, fb, n - 1), Extend([], v.trace[..n - 1], fb), fb, v.trace[n - 1]);
        assert v.trace[..n] == v.trace[..n - 1] + [v.trace[n - 1]];
        ExtendMore([], v.trace[..n - 1], v.trace[n - 1], fb);
      }
    }
    if n <= |v.trace| {
      AnswersAfter(job, fb, Fed(job, fb, n), n);
    }
  }

  lemma FedNothing(job: JobState, fb: Pruning.Oracle)
    ensures Matches(Fed(job, fb, 0), Extend([], [], fb), None)
  {
    NothingMatches(map[]);
  }

  lemma FedMore(job: JobState, fb: Pruning.Oracle, n: nat)
    requires n > 0
    ensures Fed(job, fb, n) == Exchange(job, Fed(job, fb, n - 1), fb)
    ensures !Answered(job, Fed(job, fb, n - 1)).Explore? ==> Fed(job, fb, n) == Fed(job, fb, n - 1)
  {
    hide Answered;
  }

  lemma NothingMatches(h: History)
    requires h == map[]
    ensures Matches(h, [], None)
  {
    assert forall b :: TrialsMatch(TrialsOf(h, b), ResultsOf([], b), false);
  }
}
