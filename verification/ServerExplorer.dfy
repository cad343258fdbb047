/** The server's stateless exploration, zeus/optimizer/batch_size/server/explorer.py: every call replays the whole
    trial history. It is proved to answer as the coroutine of module Exploration would, whatever the history. */
module ServerExplorer {
  import opened Lists
  import opened Outcomes
  import opened Exploration

  datatype Status = Dispatched | Succeeded

  /** An exploration trial; `cost` is missing when its energy or time is. */
  datatype Trial = Trial(status: Status, converged: bool, cost: Option<real>)

  /** The trials of each batch size, oldest first. */
  type History = map<int, seq<Trial>>

  datatype JobState = JobState(batchSizes: seq<int>, default: int, rounds: nat, cheapest: int)

  datatype Response =
    | Explore(bs: int)
    | Concurrent(bs: int)
    | Converged(batchSizes: seq<int>)
    | NoneConverged           // ZeusBSOServerRuntimeError
    | MissingMeasurement      // ZeusBSOValueError
    | UnknownDefault          // ValueError

  function TrialsOf(h: History, bs: int): seq<Trial> {
    if bs in h then h[bs] else []
  }

  function FeedbackOf(t: Trial): Feedback {
    Feedback(if t.cost.Some? then t.cost.value else 0.0, t.converged)
  }

  // ---- What the answers mean: the coroutine fed from the history ----

  function Ended(answer: Answer): Response {
    match answer
    case Stops(Some(list)) => if list == [] then NoneConverged else Converged(list)
    case _ => NoneConverged
  }

  /** The response of a coroutine suspended at a batch size: recorded results are sent to it until one is missing. */
  function Replay(job: JobState, e: Explorer, f: Frame, h: History): Response
    requires Suspended(e, f)
    decreases e.rounds - f.round, |f.todo| + |f.up|
  {
    var trials := TrialsOf(h, f.todo[0]);
    if |trials| <= f.round then Explore(f.todo[0])
    else
      var t := trials[f.round];
      if t.status == Dispatched then Concurrent(job.cheapest)
      else if t.converged && t.cost.None? then MissingMeasurement
      else
        var fb := FeedbackOf(t);
        var (after, answer) := Judge(e.(expecting := 0, control := AtAck(f, fb)), f, fb);
        if answer.Yields? then Replay(job, after, after.control.frame, h) else Ended(answer)
  }

  function Respond(job: JobState, e: Explorer, answer: Answer, h: History): Response
    requires answer.Yields? ==> e.control.AtYield? && Suspended(e, e.control.frame)
  {
    if answer.Yields? then Replay(job, e, e.control.frame, h) else Ended(answer)
  }

  function Beginning(job: JobState): Explorer {
    Start(SortBy(AtMost, job.batchSizes), job.default, job.rounds)
  }

  /** The answer to a request, given the history of explorations. */
  function Answered(job: JobState, h: History): Response {
    var (e, answer) := Next(Beginning(job));
    match answer
    case Stops(Some(list)) => Converged(list)
    case Raises(_) => UnknownDefault
    case _ => Respond(job, e, answer, h)
  }

  /** The coroutine in the state the server's local variables describe. */
  function Described(job: JobState, batchSizes: seq<int>, default: int, minCost: Option<real>, minBs: int): Explorer {
    Explorer(batchSizes, if minCost.Some? then minBs else default, job.rounds, 0, NotStarted)
  }

  function Continued(job: JobState, e: Explorer, f: Frame, h: History): Response {
    var (after, answer) := Advance(e, f);
    Respond(job, after, answer, h)
  }

  function InRound(job: JobState, batchSizes: seq<int>, default: int, round: nat, h: History): Response {
    var (e, answer) := EnterRound(Described(job, batchSizes, default, None, 0), round);
    Respond(job, e, answer, h)
  }

  lemma Opens(job: JobState, h: History)
    ensures var sorted := SortBy(AtMost, job.batchSizes);
      Answered(job, h) ==
      if job.rounds == 0 then Converged(sorted)
      else if job.default !in sorted then UnknownDefault
      else InRound(job, sorted, job.default, 0, h)
  {
    hide SortBy, Replay;
    if job.rounds == 0 {
      SortedAgain(job.batchSizes);
    }
  }

  lemma RoundOpens(job: JobState, batchSizes: seq<int>, default: int, round: nat, h: History)
    requires round < job.rounds && default in batchSizes
    ensures var idx := IndexOf(batchSizes, default);
      InRound(job, batchSizes, default, round, h) ==
      Continued(job, Described(job, batchSizes, default, None, 0),
                Frame(round, SortBy(AtLeast, batchSizes[..idx + 1]), SortBy(AtMost, batchSizes[idx + 1..]), [], None),
                h)
  {
    hide SortBy, Replay;
    var idx := IndexOf(batchSizes, default);
    var low := batchSizes[..idx + 1];
    assert |low| == idx + 1;
    hide IndexOf;
    var down, up := SortBy(AtLeast, low), SortBy(AtMost, batchSizes[idx + 1..]);
    assert |down| == idx + 1;
    OfferedFirst(Described(job, batchSizes, default, None, 0), Frame(round, down, up, [], None));
    hide Advance, Respond;
  }

  lemma Interrupted(job: JobState, e: Explorer, f: Frame, h: History)
    requires f.todo != []
    ensures var trials := TrialsOf(h, f.todo[0]);
      && (|trials| <= f.round ==> Continued(job, e, f, h) == Explore(f.todo[0]))
      && (|trials| > f.round && trials[f.round].status == Dispatched ==>
          Continued(job, e, f, h) == Concurrent(job.cheapest))
      && (|trials| > f.round && trials[f.round].status == Succeeded &&
          trials[f.round].converged && trials[f.round].cost.None? ==>
            Continued(job, e, f, h) == MissingMeasurement)
  {
  }

  lemma Recorded(job: JobState, e: Explorer, f: Frame, h: History)
    requires f.todo != [] && |TrialsOf(h, f.todo[0])| > f.round
    requires var t := TrialsOf(h, f.todo[0])[f.round]; t.status == Succeeded && (t.converged ==> t.cost.Some?)
    ensures var fb := FeedbackOf(TrialsOf(h, f.todo[0])[f.round]);
      Continued(job, e, f, h) ==
      if fb.reached then
        Continued(job, if Improves(f, fb.cost) then e.(default := f.todo[0]) else e, Accept(f, fb.cost), h)
      else Continued(job, e, f.(todo := []), h)
  {
    hide Advance;
    var fb := FeedbackOf(TrialsOf(h, f.todo[0])[f.round]);
    OfferedFirst(e, f);
    var acked := Offer(e, f).0.(expecting := 0, control := AtAck(f, fb));
    assert Continued(job, e, f, h) == Respond(job, Judge(acked, f, fb).0, Judge(acked, f, fb).1, h);
    if fb.reached {
      var a := if Improves(f, fb.cost) then acked.(default := f.todo[0]) else acked;
      AdvanceIgnores(a, if Improves(f, fb.cost) then e.(default := f.todo[0]) else e, Accept(f, fb.cost));
    } else {
      AdvanceIgnores(acked, e, f.(todo := []));
    }
  }

  lemma OfferedFirst(e: Explorer, f: Frame)
    requires f.todo != []
    ensures Advance(e, f) == Offer(e, f)
  {
  }

  lemma DirectionDone(job: JobState, e: Explorer, f: Frame, h: History)
    requires f.todo == []
    ensures Continued(job, e, f, h) == Continued(job, e, f.(todo := f.up, up := []), h)
  {
    hide Respond, SortBy;
  }

  lemma RoundCloses(job: JobState, e: Explorer, f: Frame, h: History)
    requires f.todo == f.up == [] && e.rounds == job.rounds && f.round < job.rounds
    requires f.good != [] ==> e.default in f.good
    ensures Continued(job, e, f, h) ==
      if f.good == [] then NoneConverged
      else if f.round + 1 == job.rounds then Converged(SortBy(AtMost, f.good))
      else InRound(job, SortBy(AtMost, f.good), e.default, f.round + 1, h)
  {
    hide SortBy, Replay, IndexOf;
    var sorted := SortBy(AtMost, f.good);
    SameElements(f.good, sorted);
    if f.round + 1 == job.rounds {
      SortedAgain(f.good);
    } else {
      EnterRoundIgnores(e.(expecting := 0, batchSizes := sorted), Described(job, sorted, e.default, None, 0),
                        f.round + 1);
      hide EnterRound;
    }
  }

  /** The server's local variables describe a coroutine that still leads to the answer. */
  ghost predicate OnTrack(job: JobState, h: History, e: Explorer, f: Frame, round: nat, converged: seq<int>,
                          minCost: Option<real>, minBs: int)
  {
    && Answered(job, h) == Continued(job, e, f, h)
    && e.rounds == job.rounds && f.round == round && f.good == converged && f.best == minCost
    && if minCost.None? then converged == [] else e.default == minBs && minBs in converged
  }

  ghost predicate AtRound(job: JobState, h: History, batchSizes: seq<int>, default: int, round: nat) {
    if round == 0 then batchSizes == job.batchSizes && default == job.default
    else
      && default in SortBy(AtMost, batchSizes)
      && Answered(job, h) ==
         if round < job.rounds then InRound(job, SortBy(AtMost, batchSizes), default, round, h)
         else Converged(SortBy(AtMost, batchSizes))
  }

  lemma StartsOnTrack(job: JobState, h: History, batchSizes: seq<int>, default: int, round: nat)
    requires AtRound(job, h, batchSizes, default, round) && round < job.rounds
    ensures var sorted := SortBy(AtMost, batchSizes);
      if default !in sorted then Answered(job, h) == UnknownDefault
      else
        var idx := IndexOf(sorted, default);
        var f := Frame(round, SortBy(AtLeast, sorted[..idx + 1]), SortBy(AtMost, sorted[idx + 1..]), [], None);
        OnTrack(job, h, Described(job, sorted, default, None, 0), f, round, [], None, 0)
  {
    hide Answered, InRound, Continued, SortBy;
    Opens(job, h);
    if default in SortBy(AtMost, batchSizes) {
      RoundOpens(job, SortBy(AtMost, batchSizes), default, round, h);
    }
  }

  lemma StaysOnTrack(job: JobState, h: History, e: Explorer, f: Frame, converged: seq<int>, minCost: Option<real>,
                     minBs: int)
    requires OnTrack(job, h, e, f, f.round, converged, minCost, minBs)
    requires f.todo != [] && |TrialsOf(h, f.todo[0])| > f.round
    requires var t := TrialsOf(h, f.todo[0])[f.round]; t.status == Succeeded && (t.converged ==> t.cost.Some?)
    ensures var t := TrialsOf(h, f.todo[0])[f.round];
      if !t.converged then OnTrack(job, h, e, f.(todo := []), f.round, converged, minCost, minBs)
      else if minCost.None? || t.cost.value < minCost.value then
        OnTrack(job, h, e.(default := f.todo[0]), Accept(f, t.cost.value), f.round, converged + [f.todo[0]], t.cost,
                f.todo[0])
      else
        OnTrack(job, h, e, Accept(f, t.cost.value), f.round, converged + [f.todo[0]], minCost, minBs)
  {
    hide Answered, Continued;
    Recorded(job, e, f, h);
  }

  /** Without a usable result the server answers on the spot. */
  lemma AnswersNow(job: JobState, h: History, e: Explorer, f: Frame, converged: seq<int>, minCost: Option<real>,
                   minBs: int)
    requires OnTrack(job, h, e, f, f.round, converged, minCost, minBs) && f.todo != []
    ensures var trials := TrialsOf(h, f.todo[0]);
      && (|trials| <= f.round ==> Answered(job, h) == Explore(f.todo[0]))
      && (|trials| > f.round && trials[f.round].status == Dispatched ==> Answered(job, h) == Concurrent(job.cheapest))
      && (|trials| > f.round && trials[f.round].status == Succeeded &&
          trials[f.round].converged && trials[f.round].cost.None? ==>
            Answered(job, h) == MissingMeasurement)
  {
    hide Answered, Continued;
    Interrupted(job, e, f, h);
  }

  lemma TurnsAround(job: JobState, h: History, e: Explorer, f: Frame, converged: seq<int>, minCost: Option<real>,
                    minBs: int)
    requires OnTrack(job, h, e, f, f.round, converged, minCost, minBs) && f.todo == []
    ensures OnTrack(job, h, e, f.(todo := f.up, up := []), f.round, converged, minCost, minBs)
  {
    hide Answered, Continued;
    DirectionDone(job, e, f, h);
  }

  lemma RoundDone(job: JobState, h: History, e: Explorer, f: Frame, converged: seq<int>, minCost: Option<real>,
                  minBs: int)
    requires OnTrack(job, h, e, f, f.round, converged, minCost, minBs)
    requires f.todo == f.up == [] && f.round < job.rounds
    ensures if converged == [] then Answered(job, h) == NoneConverged
            else AtRound(job, h, converged, minBs, f.round + 1)
  {
    hide Answered, Continued, InRound, SortBy;
    RoundCloses(job, e, f, h);
    SameElements(converged, SortBy(AtMost, converged));
  }

  lemma AcceptedFrame(f: Frame, cost: real)
    requires f.todo != []
    ensures var g := Accept(f, cost); g.todo == f.todo[1..] && g.up == f.up && g.round == f.round
  {
  }

  /** The trials of one direction in the current round: an answer on the spot, or the results taken over. */
  method ReplayList(job: JobState, history: History, list: seq<int>, round: nat, converged: seq<int>,
                    minCost: Option<real>, minBs: int, ghost e: Explorer, ghost f: Frame)
    returns (answer: Option<Response>, converged': seq<int>, minCost': Option<real>, minBs': int, ghost e': Explorer,
             ghost f': Frame)
    requires f.todo == list && f.round == round && OnTrack(job, history, e, f, round, converged, minCost, minBs)
    ensures answer.Some? ==> answer.value == Answered(job, history)
    ensures answer.None? ==>
      && OnTrack(job, history, e', f', round, converged', minCost', minBs')
      && f'.todo == [] && f'.up == f.up && f'.round == round
  {
    hide Answered, OnTrack, Accept, TrialsOf;
    converged', minCost', minBs', e', f' := converged, minCost, minBs, e, f;
    var k := 0;
    while k < |list|
      invariant 0 <= k <= |list| && f'.todo == list[k..] && f'.up == f.up && f'.round == round
      invariant OnTrack(job, history, e', f', round, converged', minCost', minBs')
    {
      var bs := list[k];
      assert f'.todo[0] == bs && f'.todo[1..] == list[k + 1..];
      AnswersNow(job, history, e', f', converged', minCost', minBs');
      var trials := TrialsOf(history, bs);
      if |trials| > round {
        var trial := trials[round];
        if trial.status == Dispatched {
          return Some(Concurrent(job.cheapest)), converged', minCost', minBs', e', f';
        }
        if !trial.converged {
          StaysOnTrack(job, history, e', f', converged', minCost', minBs');
          f' := f'.(todo := []);
          break;
        }
        if trial.cost.None? {
          return Some(MissingMeasurement), converged', minCost', minBs', e', f';
        }
        StaysOnTrack(job, history, e', f', converged', minCost', minBs');
        AcceptedFrame(f', trial.cost.value);
        f' := Accept(f', trial.cost.value);
        converged' := converged' + [bs];
        if minCost'.None? || trial.cost.value < minCost'.value {
          e' := e'.(default := bs);
          minCost' := trial.cost;
          minBs' := bs;
        }
      } else {
        return Some(Explore(bs)), converged', minCost', minBs', e', f';
      }
      k := k + 1;
    }
    answer := None;
  }

  method NextBatchSize(job: JobState, history: History) returns (r: Response)
    ensures r == Answered(job, history)
  {
    hide Answered, InRound, Continued, SortBy, AtRound, IndexOf, OnTrack, Accept, TrialsOf;
    var batchSizes, default, round := job.batchSizes, job.default, 0;
    assert AtRound(job, history, batchSizes, default, 0) by { AtRoundZero(job, history); }
    while round < job.rounds
      invariant 0 <= round <= job.rounds && AtRound(job, history, batchSizes, default, round)
    {
      StartsOnTrack(job, history, batchSizes, default, round);
      var converged: seq<int> := [];
      var minCost: Option<real> := None;
      var minBs := 0;
      batchSizes := SortBy(AtMost, batchSizes);
      if default !in batchSizes {
        return UnknownDefault;
      }
      var idx := IndexOf(batchSizes, default);
      var down := SortBy(AtLeast, batchSizes[..idx + 1]);
      var up := SortBy(AtMost, batchSizes[idx + 1..]);
      var lists := [down, up];
      ghost var e := Described(job, batchSizes, default, None, 0);
      ghost var f := Frame(round, down, up, [], None);
      var answer: Option<Response>;
      var i := 0;
      while i < 2
        invariant 0 <= i <= 2
        invariant f.round == round && OnTrack(job, history, e, f, round, converged, minCost, minBs)
        invariant f.todo == (if i < 2 then lists[i] else []) && f.up == (if i == 0 then up else [])
      {
        answer, converged, minCost, minBs, e, f :=
          ReplayList(job, history, lists[i], round, converged, minCost, minBs, e, f);
        if answer.Some? {
          return answer.value;
        }
        TurnsAround(job, history, e, f, converged, minCost, minBs);
        f := f.(todo := f.up, up := []);
        i := i + 1;
      }
      RoundDone(job, history, e, f, converged, minCost, minBs);
      default := minBs;
      batchSizes := converged;
      if |batchSizes| == 0 {
        return NoneConverged;
      }
      round := round + 1;
    }
    Finishes(job, history, batchSizes, default);
    r := Converged(SortBy(AtMost, batchSizes));
  }

  lemma AtRoundZero(job: JobState, h: History)
    ensures AtRound(job, h, job.batchSizes, job.default, 0)
  {
  }

  lemma Finishes(job: JobState, h: History, batchSizes: seq<int>, default: int)
    requires AtRound(job, h, batchSizes, default, job.rounds)
    ensures Answered(job, h) == Converged(SortBy(AtMost, batchSizes))
  {
    hide Answered, SortBy;
    Opens(job, h);
  }
}
