/** Runs of the exploration coroutine given by the log of the results it was sent: their prefixes, the logs that a
    feedback function drives it to, and the feedback function that a log amounts to. */
module LoggedRuns {
  import opened Lists
  import opened Outcomes
  import opened Exploration
  import Pruning

  lemma {:induction false} ResultsGrow(log: seq<Report>, n: nat, b: int)
    requires n <= |log|
    ensures ResultsOf(log[..n], b) <= ResultsOf(log, b)
    decreases |log|
  {
    if n < |log| {
      ResultsGrow(log[..|log| - 1], n, b);
      assert log[..|log| - 1][..n] == log[..n];
    } else {
      assert log[..n] == log;
    }
  }

  lemma {:induction false} FollowsPrefix(start: Explorer, log: seq<Report>, n: nat)
    requires Follows(start, log) && n <= |log|
    ensures Follows(start, log[..n])
    ensures n < |log| ==> Next(RunOf(start, log[..n])).1 == Yields(log[n].bs)
    decreases |log|
  {
    hide Next, Send;
    if n < |log| {
      if n < |log| - 1 {
        FollowsPrefix(start, log[..|log| - 1], n);
        assert log[..|log| - 1][..n] == log[..n];
      }
    } else {
      assert log[..n] == log;
    }
  }

  lemma RunOfLonger(start: Explorer, log: seq<Report>, n: nat)
    requires n < |log|
    ensures RunOf(start, log[..n + 1]) == Send(Next(RunOf(start, log[..n])).0, log[n]).0
  {
    hide Next, Send;
    assert log[..n + 1][..n] == log[..n];
  }

  lemma FollowsLonger(start: Explorer, log: seq<Report>, r: Report)
    requires Follows(start, log) && Next(RunOf(start, log)).1 == Yields(r.bs)
    ensures Follows(start, log + [r])
  {
    hide Next, Send;
    assert (log + [r])[..|log|] == log;
  }

  lemma RunOfSent(start: Explorer, log: seq<Report>, r: Report)
    ensures RunOf(start, log + [r]) == Send(Next(RunOf(start, log)).0, r).0
  {
    hide Next, Send;
    assert (log + [r])[..|log|] == log;
  }

  // ---- Driven by a feedback function ----

  /** The log after the given explorations, each answered by the feedback function for its round. */
  function Extend(log: seq<Report>, trace: seq<int>, fb: Pruning.Oracle): seq<Report>
    decreases |trace|
  {
    if trace == [] then log
    else Extend(log + [Report(trace[0], fb(trace[0], |ResultsOf(log, trace[0])|))], trace[1..], fb)
  }

  lemma ExtendFirst(log: seq<Report>, trace: seq<int>, fb: Pruning.Oracle)
    requires trace != []
    ensures Extend(log, trace, fb) ==
            Extend(log + [Report(trace[0], fb(trace[0], |ResultsOf(log, trace[0])|))], trace[1..], fb)
  {
  }

  lemma NoExtension(log: seq<Report>, fb: Pruning.Oracle)
    ensures Extend(log, [], fb) == log
  {
  }

  lemma ExtendMore(log: seq<Report>, trace: seq<int>, bs: int, fb: Pruning.Oracle)
    ensures var longer := Extend(log, trace, fb);
      Extend(log, trace + [bs], fb) == longer + [Report(bs, fb(bs, |ResultsOf(longer, bs)|))]
    decreases |trace|
  {
    if trace != [] {
      assert (trace + [bs])[1..] == trace[1..] + [bs];
      ExtendMore(log + [Report(trace[0], fb(trace[0], |ResultsOf(log, trace[0])|))], trace[1..], bs, fb);
    }
  }

  lemma DriveFollows(start: Explorer, log: seq<Report>, e: Explorer, f: Frame, fb: Pruning.Oracle, n: nat)
    requires NextOk(start, []) && start.control.NotStarted? && Follows(start, log)
    requires Suspended(e, f) && Next(RunOf(start, log)) == (e, Yields(f.todo[0]))
    requires n <= |Pruning.Drive(e, f, fb).trace|
    ensures var v := Pruning.Drive(e, f, fb); var longer := Extend(log, v.trace[..n], fb);
      && Follows(start, longer)
      && Next(RunOf(start, longer)).1 == if n < |v.trace| then Yields(v.trace[n]) else v.answer
  {
    hide *;
    PrefixFollows(start, log, e, f, fb, Pruning.Drive(e, f, fb).trace[..n]);
  }

  lemma {:induction false} PrefixFollows(start: Explorer, log: seq<Report>, e: Explorer, f: Frame, fb: Pruning.Oracle,
                                         prefix: seq<int>)
    requires NextOk(start, []) && start.control.NotStarted? && Follows(start, log)
    requires Suspended(e, f) && Next(RunOf(start, log)) == (e, Yields(f.todo[0]))
    requires prefix <= Pruning.Drive(e, f, fb).trace
    ensures var v := Pruning.Drive(e, f, fb); var longer := Extend(log, prefix, fb); var n := |prefix|;
      && Follows(start, longer)
      && Next(RunOf(start, longer)).1 == if n < |v.trace| then Yields(v.trace[n]) else v.answer
    decreases |prefix|
  {
    DriveUnfolds(e, f, fb);
    hide *;
    var v := Pruning.Drive(e, f, fb);
    if prefix == [] {
      NoExtension(log, fb);
    } else {
      var r := Report(f.todo[0], fb(f.todo[0], f.round));
      FirstResult(start, log, e, f, fb);
      RestOfPrefix(prefix, v.trace);
      ExtendFirst(log, prefix, fb);
      var (after, answer) := Pruning.Answered(e, f, fb);
      if answer.Yields? {
        YieldsFirst(start, log + [r], fb);
        PrefixFollows(start, log + [r], after, after.control.frame, fb, prefix[1..]);
      } else {
        NoExtension(log + [r], fb);
      }
    }
  }

  /** The first result of a driven coroutine is the next that it is sent. */
  lemma FirstResult(start: Explorer, log: seq<Report>, e: Explorer, f: Frame, fb: Pruning.Oracle)
    requires NextOk(start, []) && start.control.NotStarted? && Follows(start, log)
    requires Suspended(e, f) && Next(RunOf(start, log)) == (e, Yields(f.todo[0]))
    ensures |ResultsOf(log, f.todo[0])| == f.round
    ensures var longer := log + [Report(f.todo[0], fb(f.todo[0], f.round))];
      Follows(start, longer) && Pruning.Answered(e, f, fb) == Next(RunOf(start, longer))
  {
    var r := Report(f.todo[0], fb(f.todo[0], f.round));
    hide *;
    RoundIsCounted(start, log, e, f);
    FollowsLonger(start, log, r);
    RunOfSent(start, log, r);
    AnsweredIs(e, f, fb);
  }

  lemma RestOfPrefix(prefix: seq<int>, trace: seq<int>)
    requires prefix <= trace && prefix != []
    ensures prefix[0] == trace[0] && prefix[1..] <= trace[1..]
    ensures |prefix| < |trace| ==> trace[1..][|prefix| - 1] == trace[|prefix|]
  {
  }

  lemma AnsweredIs(e: Explorer, f: Frame, fb: Pruning.Oracle)
    requires Suspended(e, f)
    ensures Pruning.Answered(e, f, fb) == Next(Send(e, Report(f.todo[0], fb(f.todo[0], f.round))).0)
  {
    hide Next, Send;
  }

  lemma DriveUnfolds(e: Explorer, f: Frame, fb: Pruning.Oracle)
    requires Suspended(e, f)
    ensures var (after, answer) := Pruning.Answered(e, f, fb); var v := Pruning.Drive(e, f, fb);
      && v.trace != [] && v.trace[0] == f.todo[0]
      && (if answer.Yields? then
            v.trace[1..] == Pruning.Drive(after, after.control.frame, fb).trace
            && v.answer == Pruning.Drive(after, after.control.frame, fb).answer
          else v.trace[1..] == [] && v.answer == answer)
  {
    hide Next, Send;
  }

  lemma RoundIsCounted(start: Explorer, log: seq<Report>, e: Explorer, f: Frame)
    requires NextOk(start, []) && start.control.NotStarted? && Follows(start, log)
    requires Suspended(e, f) && Next(RunOf(start, log)) == (e, Yields(f.todo[0]))
    ensures |ResultsOf(log, f.todo[0])| == f.round
  {
    hide Next, NextOk, FrameOk;
    RunInvariant(start, log);
    NextKeeps(RunOf(start, log), log);
    assert f.todo[0] in f.todo;
  }

  lemma YieldsFirst(start: Explorer, log: seq<Report>, fb: Pruning.Oracle)
    requires NextOk(start, []) && start.control.NotStarted? && Follows(start, log)
    ensures var (after, answer) := Next(RunOf(start, log));
      answer.Yields? ==> after.control.AtYield? && Suspended(after, after.control.frame) && answer.bs == after.expecting
  {
    hide Next, NextOk, FrameOk;
    RunInvariant(start, log);
    NextKeeps(RunOf(start, log), log);
  }

  lemma NextIsEnter(start: Explorer)
    requires start.control.NotStarted?
    ensures Next(start) == EnterRound(start, 0)
  {
    hide EnterRound;
  }

  lemma EndsWithAnswer(start: Explorer, fb: Pruning.Oracle)
    requires StrictlyIncreasing(start.batchSizes) && start.default in start.batchSizes
    ensures !Pruning.Prune(start.batchSizes, start.default, 0, start.rounds, fb).answer.Yields?
  {
    Pruning.PruneGuarantees(start.batchSizes, start.default, 0, start.rounds, fb);
  }

  /** Fed by a feedback function, a new coroutine yields what pruning prescribes and ends as it does. */
  lemma PruneFollows(start: Explorer, fb: Pruning.Oracle, n: nat)
    requires NextOk(start, []) && start.control.NotStarted? && start.rounds > 0
    requires StrictlyIncreasing(start.batchSizes) && start.default in start.batchSizes
    requires n <= |Pruning.Prune(start.batchSizes, start.default, 0, start.rounds, fb).trace|
    ensures var v := Pruning.Prune(start.batchSizes, start.default, 0, start.rounds, fb);
      var longer := Extend([], v.trace[..n], fb);
      && Follows(start, longer)
      && Next(RunOf(start, longer)).1 == if n < |v.trace| then Yields(v.trace[n]) else v.answer
  {
    hide Next, Send, NextOk, YieldOk, FrameOk, Pruning.Prune, Pruning.Drive, EnterRound;
    Pruning.CoroutinePrunes(start, 0, fb);
    assert Follows(start, []);
    YieldsFirst(start, [], fb);
    NextIsEnter(start);
    FirstYields(start);
    var e := Next(start).0;
    DriveFollows(start, [], e, e.control.frame, fb, n);
  }

  lemma FirstYields(start: Explorer)
    requires start.control.NotStarted? && start.default in start.batchSizes && start.rounds > 0
    ensures Next(start).1.Yields? && RunOf(start, []) == start
  {
    hide Down, Up;
  }

  // ---- The feedback function of a log ----

  /** The results of a log by batch size and round. */
  function ResultIn(log: seq<Report>): Pruning.Oracle {
    (bs: int, round: nat) =>
      if round < |ResultsOf(log, bs)| then ResultsOf(log, bs)[round] else Feedback(0.0, false)
  }

  lemma ResultAt(log: seq<Report>, n: nat)
    requires n < |log|
    ensures var bs := log[n].bs; ResultIn(log)(bs, |ResultsOf(log[..n], bs)|) == log[n].feedback
  {
    hide ResultsOf;
    var r := log[n];
    OnlyItsOwn(log[..n], r);
    assert log[..n] + [r] == log[..n + 1];
    ResultsGrow(log, n + 1, r.bs);
  }

  /** A log that the coroutine followed begins as pruning does with the results it holds. */
  lemma {:induction false} LogIsPruned(start: Explorer, log: seq<Report>, n: nat)
    requires NextOk(start, []) && start.control.NotStarted? && start.rounds > 0
    requires StrictlyIncreasing(start.batchSizes) && start.default in start.batchSizes
    requires Follows(start, log) && n <= |log|
    ensures var v := Pruning.Prune(start.batchSizes, start.default, 0, start.rounds, ResultIn(log));
      n <= |v.trace| && Extend([], v.trace[..n], ResultIn(log)) == log[..n]
    decreases n
  {
    hide Next, Send, NextOk, Pruning.Prune, Extend, ResultIn, Follows, RunOf, ResultsOf;
    var fb := ResultIn(log);
    var v := Pruning.Prune(start.batchSizes, start.default, 0, start.rounds, fb);
    if n == 0 {
      NoExtension([], fb);
      assert v.trace[..0] == [] && log[..0] == [];
    } else {
      LogIsPruned(start, log, n - 1);
      PruneFollows(start, fb, n - 1);
      FollowsPrefix(start, log, n - 1);
      EndsWithAnswer(start, fb);
      ExtendMore([], v.trace[..n - 1], v.trace[n - 1], fb);
      ResultAt(log, n - 1);
      assert v.trace[..n] == v.trace[..n - 1] + [v.trace[n - 1]];
      assert log[..n] == log[..n - 1] + [log[n - 1]];
    }
  }

  /** A coroutine that has nothing more to yield tried and kept exactly what pruning does with the results it was
      sent. */
  lemma EndIsPruned(start: Explorer, log: seq<Report>)
    requires NextOk(start, []) && start.control.NotStarted? && start.rounds > 0
    requires StrictlyIncreasing(start.batchSizes) && start.default in start.batchSizes
    requires Follows(start, log) && !Next(RunOf(start, log)).1.Yields?
    ensures var v := Pruning.Prune(start.batchSizes, start.default, 0, start.rounds, ResultIn(log));
      && |v.trace| == |log| && (forall i :: 0 <= i < |log| ==> v.trace[i] == log[i].bs)
      && Next(RunOf(start, log)).1 == v.answer
  {
    hide Next, Send, NextOk, Pruning.Prune, Extend, ResultIn, Follows, RunOf;
    var fb := ResultIn(log);
    var v := Pruning.Prune(start.batchSizes, start.default, 0, start.rounds, fb);
    LogIsPruned(start, log, |log|);
    PruneFollows(start, fb, |log|);
    assert log[..|log|] == log;
    forall i | 0 <= i < |log|
      ensures v.trace[i] == log[i].bs
    {
      LogIsPruned(start, log, i);
      PruneFollows(start, fb, i);
      FollowsPrefix(start, log, i);
      EndsWithAnswer(start, fb);
    }
  }
}
