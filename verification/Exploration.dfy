/** The pruning exploration of `PruningExploreManager` in zeus/_legacy/policy/optimizer.py: a two-way coroutine
    that yields batch sizes to explore and is sent their costs. The suspended generator is a value, `Control`. */
module Exploration {
  import opened Lists
  import opened Outcomes

  datatype Feedback = Feedback(cost: real, reached: bool)

  /** The local variables of the generator while one round is in progress. `todo` starts with the batch size
      being explored, and `up` is the upward list as long as the downward one is being walked. */
  datatype Frame = Frame(round: nat, todo: seq<int>, up: seq<int>, good: seq<int>, best: Option<real>)

  datatype Control =
    | NotStarted
    | AtYield(frame: Frame)                      // waiting for the result of frame.todo[0]
    | AtAck(frame: Frame, feedback: Feedback)    // result received, stopped at the empty `yield`
    | Finished                                   // returned or raised

  datatype Failure =
    | SentTooEarly      // TypeError: a value sent to a generator that has not been started
    | MissingResult     // TypeError: resumed without the result it was waiting for
    | OrderMismatch     // RuntimeError: result of another batch size than the expected one
    | CallOrder         // AssertionError: a result sent where the next batch size was due
    | DefaultPruned     // ValueError: the default batch size did not survive

  datatype Answer =
    | Yields(bs: int)
    | Acknowledged
    | Stops(survivors: Option<seq<int>>)         // StopIteration and the value it carries
    | Raises(why: Failure)

  datatype Explorer = Explorer(batchSizes: seq<int>, default: int, rounds: nat, expecting: int, control: Control)

  datatype Report = Report(bs: int, feedback: Feedback)

  function Start(batchSizes: seq<int>, default: int, rounds: nat): Explorer {
    Explorer(batchSizes, default, rounds, default, NotStarted)
  }

  /** Suspended at the first batch size still to do in its frame, which is the one it yielded. */
  predicate Suspended(e: Explorer, f: Frame) {
    e.control == AtYield(f) && f.todo != [] && e.expecting == f.todo[0]
  }

  function Offer(e: Explorer, f: Frame): (Explorer, Answer)
    requires f.todo != []
  {
    (e.(expecting := f.todo[0], control := AtYield(f)), Yields(f.todo[0]))
  }

  /** The default and what comes before it, from there down. */
  function Down(batchSizes: seq<int>, default: int): (list: seq<int>)
    requires default in batchSizes
    ensures list != []
  {
    SortBy(AtLeast, batchSizes[..IndexOf(batchSizes, default) + 1])
  }

  /** What comes after the default, upwards. */
  function Up(batchSizes: seq<int>, default: int): seq<int>
    requires default in batchSizes
  {
    SortBy(AtMost, batchSizes[IndexOf(batchSizes, default) + 1..])
  }

  function EnterRound(e: Explorer, round: nat): (r: (Explorer, Answer))
    ensures r.1.Yields? ==>
      && r.0.control.AtYield? && Suspended(r.0, r.0.control.frame)
      && r.0.control.frame.round == round < e.rounds
    ensures r.0.rounds == e.rounds
  {
    if round >= e.rounds then
      (e.(control := Finished), Stops(Some(SortBy(AtMost, e.batchSizes))))
    else if e.default !in e.batchSizes then
      (e.(control := Finished), Raises(DefaultPruned))
    else
      Offer(e, Frame(round, Down(e.batchSizes, e.default), Up(e.batchSizes, e.default), [], None))
  }

  function Advance(e: Explorer, f: Frame): (r: (Explorer, Answer))
    ensures r.1.Yields? ==>
      && r.0.control.AtYield? && Suspended(r.0, r.0.control.frame)
      && var g := r.0.control.frame;
      && (if g.round == f.round then |g.todo| + |g.up| == |f.todo| + |f.up| else f.round < g.round < e.rounds)
    ensures r.0.rounds == e.rounds
  {
    if f.todo != [] then Offer(e, f)
    else if f.up != [] then Offer(e, f.(todo := f.up, up := []))
    else EnterRound(e.(expecting := 0, batchSizes := SortBy(AtMost, f.good)), f.round + 1)
  }

  lemma EnterRoundIgnores(e: Explorer, d: Explorer, round: nat)
    requires d == e.(control := d.control)
    ensures EnterRound(e, round) == EnterRound(d, round)
  {
    hide SortBy;
  }

  lemma AdvanceIgnoresControl(e: Explorer, d: Explorer, f: Frame)
    requires d == e.(control := d.control)
    ensures Advance(e, f) == Advance(d, f)
  {
    hide EnterRound;
    var sorted := SortBy(AtMost, f.good);
    EnterRoundIgnores(e.(expecting := 0, batchSizes := sorted), d.(expecting := 0, batchSizes := sorted), f.round + 1);
  }

  /** Moving on does not depend on what the coroutine expected or where it was suspended. */
  lemma AdvanceIgnores(e: Explorer, d: Explorer, f: Frame)
    requires e.batchSizes == d.batchSizes && e.default == d.default && e.rounds == d.rounds
    ensures Advance(e, f).1 == Advance(d, f).1
    ensures Advance(e, f).1.Yields? ==> Advance(e, f).0 == Advance(d, f).0
  {
    hide SortBy;
  }

  predicate Improves(f: Frame, cost: real) {
    f.best.None? || f.best.value > cost
  }

  function Accept(f: Frame, cost: real): Frame
    requires f.todo != []
  {
    f.(todo := f.todo[1..], good := f.good + [f.todo[0]], best := if Improves(f, cost) then Some(cost) else f.best)
  }

  function Judge(e: Explorer, f: Frame, fb: Feedback): (r: (Explorer, Answer))
    requires f.todo != []
    ensures r.1.Yields? ==>
      && r.0.control.AtYield? && Suspended(r.0, r.0.control.frame)
      && var g := r.0.control.frame;
      && (if g.round == f.round then |g.todo| + |g.up| < |f.todo| + |f.up| else f.round < g.round < e.rounds)
    ensures r.0.rounds == e.rounds
  {
    if fb.reached then
      Advance(if Improves(f, fb.cost) then e.(default := f.todo[0]) else e, Accept(f, fb.cost))
    else
      Advance(e, f.(todo := []))
  }

  /** `next(gen)`. */
  function Next(e: Explorer): (Explorer, Answer) {
    match e.control
    case NotStarted => EnterRound(e, 0)
    case AtYield(f) => (e.(control := Finished), Raises(MissingResult))
    case AtAck(f, fb) => if f.todo == [] then (e.(control := Finished), Stops(None)) else Judge(e, f, fb)
    case Finished => (e, Stops(None))
  }

  /** `gen.send((batch size, cost, reached))` followed by the check that nothing was yielded. */
  function Send(e: Explorer, r: Report): (Explorer, Answer) {
    match e.control
    case NotStarted => (e, Raises(SentTooEarly))
    case AtYield(f) =>
      if e.expecting != r.bs then (e.(control := Finished), Raises(OrderMismatch))
      else (e.(expecting := 0, control := AtAck(f, r.feedback)), Acknowledged)
    case AtAck(_, _) =>
      var (after, answer) := Next(e);
      (after, if answer.Yields? then Raises(CallOrder) else answer)
    case Finished => (e, Stops(None))
  }

  // ---- Runs: a coroutine together with the results it has been sent ----

  function RunOf(start: Explorer, log: seq<Report>): Explorer
    decreases |log|
  {
    if log == [] then start
    else Send(Next(RunOf(start, log[..|log| - 1])).0, log[|log| - 1]).0
  }

  /** Every result in the log answers the batch size that was yielded just before. */
  predicate Follows(start: Explorer, log: seq<Report>)
    decreases |log|
  {
    log == [] ||
    var before := log[..|log| - 1];
    Follows(start, before) && Next(RunOf(start, before)).1 == Yields(log[|log| - 1].bs)
  }

  /** The results reported for one batch size, oldest first. */
  function ResultsOf(log: seq<Report>, bs: int): (r: seq<Feedback>)
    ensures |r| <= |log|
    decreases |log|
  {
    if log == [] then []
    else
      var last := log[|log| - 1];
      ResultsOf(log[..|log| - 1], bs) + if last.bs == bs then [last.feedback] else []
  }

  function Elements(f: Frame): multiset<int> {
    multiset(f.todo) + multiset(f.up) + multiset(f.good)
  }

  ghost predicate AllReached(results: seq<Feedback>) {
    forall i :: 0 <= i < |results| ==> results[i].reached
  }

  /** What one round knows: nothing is listed twice, the default is still available, everything still listed
      has reached its target in every earlier round, and everything good also in this one. */
  ghost predicate FrameOk(e: Explorer, f: Frame, log: seq<Report>) {
    && NoRepeats(Elements(f))
    && (f.best.None? <==> f.good == [])
    && (if f.good == [] then e.default in e.batchSizes else e.default in f.good)
    && f.round < e.rounds
    && (forall b :: b in f.good ==> |ResultsOf(log, b)| == f.round + 1 && AllReached(ResultsOf(log, b)))
  }

  ghost predicate Waits(log: seq<Report>, b: int, round: nat) {
    |ResultsOf(log, b)| == round && AllReached(ResultsOf(log, b))
  }

  /** Holds of a coroutine suspended at a batch size whose result is due. */
  ghost predicate YieldOk(e: Explorer, log: seq<Report>) {
    && e.control.AtYield?
    && var f := e.control.frame;
    && f.todo != []
    && e.expecting == f.todo[0]
    && FrameOk(e, f, log)
    && (forall b :: b in f.todo || b in f.up ==> Waits(log, b, f.round))
  }

  /** Holds of a coroutine that is to be asked for the next batch size. */
  ghost predicate NextOk(e: Explorer, log: seq<Report>) {
    match e.control
    case NotStarted =>
      log == [] && Distinct(e.batchSizes) && e.default in e.batchSizes && e.expecting == e.default
    case AtAck(f, fb) =>
      && f.todo != []
      && e.expecting == 0
      && FrameOk(e, f, log)
      && (forall b :: b in f.todo[1..] || b in f.up ==> Waits(log, b, f.round))
      && var results := ResultsOf(log, f.todo[0]);
      && |results| == f.round + 1
      && results[f.round] == fb
      && AllReached(results[..f.round])
    case _ => false
  }

  /** Every listed batch size has reached its target in each round that is over. */
  ghost predicate Survived(survivors: seq<int>, log: seq<Report>, rounds: nat) {
    forall b :: b in survivors ==> Waits(log, b, rounds)
  }

  lemma RoundFrame(e: Explorer, round: nat, log: seq<Report>)
    requires Distinct(e.batchSizes) && e.default in e.batchSizes && round < e.rounds
    requires Survived(e.batchSizes, log, round)
    ensures YieldOk(EnterRound(e, round).0, log)
  {
    hide ResultsOf, SortBy, AllReached;
    var after := EnterRound(e, round).0;
    var idx := IndexOf(e.batchSizes, e.default);
    var f := after.control.frame;
    assert e.batchSizes == e.batchSizes[..idx + 1] + e.batchSizes[idx + 1..];
    assert Elements(f) == multiset(e.batchSizes);
    DistinctByMultiset(e.batchSizes);
    forall b | b in f.todo || b in f.up
      ensures b in e.batchSizes
    {
      SameElements(f.todo, e.batchSizes[..idx + 1]);
      SameElements(f.up, e.batchSizes[idx + 1..]);
    }
  }

  lemma AdvanceKeeps(e: Explorer, f: Frame, log: seq<Report>)
    requires FrameOk(e, f, log)
    requires forall b :: b in f.todo || b in f.up ==> Waits(log, b, f.round)
    ensures var (after, answer) := Advance(e, f);
      match answer
      case Yields(bs) => YieldOk(after, log) && after.expecting == bs
      case Stops(s) =>
        && s.Some? && f.round + 1 == e.rounds
        && s.value == SortBy(AtMost, f.good) && Survived(s.value, log, e.rounds)
      case Raises(why) => why == DefaultPruned && f.good == []
      case Acknowledged => false
  {
    hide ResultsOf, SortBy, AllReached, EnterRound;
    if f.todo != [] {
    } else if f.up != [] {
      assert Elements(f.(todo := f.up, up := [])) == Elements(f);
    } else {
      RoundEnds(e, f, log);
    }
  }

  lemma RoundEnds(e: Explorer, f: Frame, log: seq<Report>)
    requires FrameOk(e, f, log) && f.todo == [] && f.up == []
    ensures var (after, answer) := EnterRound(e.(expecting := 0, batchSizes := SortBy(AtMost, f.good)), f.round + 1);
      match answer
      case Yields(bs) => YieldOk(after, log) && after.expecting == bs
      case Stops(s) =>
        && s.Some? && f.round + 1 == e.rounds
        && s.value == SortBy(AtMost, f.good) && Survived(s.value, log, e.rounds)
      case Raises(why) => why == DefaultPruned && f.good == []
      case Acknowledged => false
  {
    hide ResultsOf, SortBy, AllReached;
    var sorted := SortBy(AtMost, f.good);
    SameElements(f.good, sorted);
    assert Elements(f) == multiset(sorted);
    DistinctByMultiset(sorted);
    if f.round + 1 == e.rounds {
      SortedAgain(f.good);
    } else if f.good != [] {
      hide YieldOk, FrameOk, Waits, Elements;
      RoundFrame(e.(expecting := 0, batchSizes := sorted), f.round + 1, log);
    }
  }

  lemma SortedAgain(s: seq<int>)
    ensures SortBy(AtMost, SortBy(AtMost, s)) == SortBy(AtMost, s)
  {
    SortByIsOrdered(AtMost, s);
    SortOfOrdered(AtMost, SortBy(AtMost, s), SortBy(AtMost, s));
  }

  lemma AcceptKeeps(e: Explorer, log: seq<Report>)
    requires NextOk(e, log) && e.control.AtAck? && e.control.feedback.reached
    ensures var f := e.control.frame; var fb := e.control.feedback; var g := Accept(f, fb.cost);
      && FrameOk(if Improves(f, fb.cost) then e.(default := f.todo[0]) else e, g, log)
      && g.todo == f.todo[1..] && g.up == f.up
  {
    hide ResultsOf;
    var f := e.control.frame;
    var bs := f.todo[0];
    assert f.todo == [bs] + f.todo[1..];
    var results := ResultsOf(log, bs);
    assert results == results[..f.round] + [e.control.feedback];
    assert Elements(Accept(f, e.control.feedback.cost)) == Elements(f);
  }

  lemma RejectKeeps(e: Explorer, f: Frame, log: seq<Report>)
    requires FrameOk(e, f, log)
    ensures FrameOk(e, f.(todo := []), log)
  {
    assert Elements(f.(todo := [])) <= Elements(f);
  }

  /** Asking for the next batch size never meets an ordering error: it yields, finishes with batch sizes that
      reached their target once in every round, or reports that everything was pruned. */
  lemma NextKeeps(e: Explorer, log: seq<Report>)
    requires NextOk(e, log)
    ensures var (after, answer) := Next(e);
      match answer
      case Yields(bs) => YieldOk(after, log) && after.expecting == bs
      case Stops(s) => s.Some? && Survived(s.value, log, e.rounds)
      case Raises(why) => why == DefaultPruned
      case Acknowledged => false
  {
    hide YieldOk, FrameOk, Advance, Waits, ResultsOf, Elements;
    match e.control
    case NotStarted =>
      FirstRound(e, log);
    case AtAck(f, fb) =>
      WaitingRest(e, log);
      if fb.reached {
        AcceptKeeps(e, log);
        AdvanceKeeps(if Improves(f, fb.cost) then e.(default := f.todo[0]) else e, Accept(f, fb.cost), log);
      } else {
        RejectKeeps(e, f, log);
        AdvanceKeeps(e, f.(todo := []), log);
      }
  }

  lemma FirstRound(e: Explorer, log: seq<Report>)
    requires NextOk(e, log) && e.control.NotStarted?
    ensures var (after, answer) := EnterRound(e, 0);
      match answer
      case Yields(bs) => YieldOk(after, log) && after.expecting == bs
      case Stops(s) => s.Some? && Survived(s.value, log, e.rounds)
      case Raises(why) => false
      case Acknowledged => false
  {
    hide YieldOk, SortBy, IndexOf, FrameOk;
    if e.rounds > 0 {
      hide Waits;
      NothingYet(e.batchSizes);
      RoundFrame(e, 0, log);
    } else {
      SameElements(e.batchSizes, SortBy(AtMost, e.batchSizes));
      NothingYet(SortBy(AtMost, e.batchSizes));
    }
  }

  lemma NothingYet(list: seq<int>)
    ensures Survived(list, [], 0)
  {
  }

  lemma WaitingRest(e: Explorer, log: seq<Report>)
    requires NextOk(e, log) && e.control.AtAck?
    ensures var f := e.control.frame;
      f.todo != [] && FrameOk(e, f, log) && forall b :: b in f.todo[1..] || b in f.up ==> Waits(log, b, f.round)
  {
  }

  lemma OnlyItsOwn(log: seq<Report>, r: Report)
    ensures forall b :: ResultsOf(log + [r], b) == ResultsOf(log, b) + if b == r.bs then [r.feedback] else []
  {
    assert (log + [r])[..|log|] == log;
  }

  /** Out of turn the coroutine raises: asked for a batch size while a result is due, given a result before it has
      started, or that of another batch size; after which it is finished, unless it has not started. */
  lemma OutOfTurn(e: Explorer, log: seq<Report>, r: Report)
    ensures YieldOk(e, log) ==> Next(e).1 == Raises(MissingResult) && Next(e).0.control.Finished?
    ensures YieldOk(e, log) && r.bs != e.expecting ==>
      Send(e, r).1 == Raises(OrderMismatch) && Send(e, r).0.control.Finished?
    ensures e.control.NotStarted? ==> Send(e, r) == (e, Raises(SentTooEarly))
    ensures e.control.AtAck? && Next(e).1.Yields? ==> Send(e, r).1 == Raises(CallOrder)
    ensures e.control.Finished? ==> Next(e) == Send(e, r) == (e, Stops(None))
  {
    hide ResultsOf, FrameOk, Judge, EnterRound;
  }

  lemma HeadIsElsewhereAbsent(f: Frame)
    requires f.todo != [] && NoRepeats(Elements(f))
    ensures forall b :: b in f.todo[1..] || b in f.up || b in f.good ==> b != f.todo[0]
  {
    assert f.todo == [f.todo[0]] + f.todo[1..];
    var rest := multiset(f.todo[1..]) + multiset(f.up) + multiset(f.good);
    assert Elements(f) == multiset{f.todo[0]} + rest;
    assert rest[f.todo[0]] + 1 == Elements(f)[f.todo[0]];
  }

  lemma SendKeeps(e: Explorer, log: seq<Report>, fb: Feedback)
    requires YieldOk(e, log)
    ensures var (after, answer) := Send(e, Report(e.expecting, fb));
      answer == Acknowledged && NextOk(after, log + [Report(e.expecting, fb)])
  {
    hide ResultsOf;
    var f := e.control.frame;
    OnlyItsOwn(log, Report(e.expecting, fb));
    HeadIsElsewhereAbsent(f);
    assert f.todo[0] in f.todo && forall b :: b in f.todo[1..] ==> b in f.todo;
  }

  /** One exchange: asked for a batch size and sent its result, the coroutine is ready again. */
  lemma TurnKeeps(e: Explorer, log: seq<Report>, r: Report)
    requires NextOk(e, log) && Next(e).1 == Yields(r.bs)
    ensures NextOk(Send(Next(e).0, r).0, log + [r])
    ensures Send(Next(e).0, r).1 == Acknowledged
  {
    hide NextOk, YieldOk, Next, Send;
    NextKeeps(e, log);
    SendKeeps(Next(e).0, log, r.feedback);
  }

  /** The invariant of every run: the coroutine is always ready for the next request. */
  lemma {:induction false} RunInvariant(start: Explorer, log: seq<Report>)
    requires NextOk(start, []) && start.control.NotStarted?
    requires Follows(start, log)
    ensures NextOk(RunOf(start, log), log)
    decreases |log|
  {
    hide NextOk, Next, Send;
    if log != [] {
      var before, last := log[..|log| - 1], log[|log| - 1];
      RunInvariant(start, before);
      TurnKeeps(RunOf(start, before), before, last);
      assert before + [last] == log;
    }
  }
}
