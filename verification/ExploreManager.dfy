/** The class `PruningExploreManager` of zeus/_legacy/policy/optimizer.py, with the generator's suspended local
    variables as fields. */
module ExploreManager {
  import opened Lists
  import opened Outcomes
  import opened Exploration

  datatype Phase = Created | Yielding | Acking | Closed

  class PruningExploreManager {
    const rounds: nat
    var batchSizes: seq<int>
    var default: int
    var expecting: int

    // Where the generator is suspended, and its local variables there.
    var phase: Phase
    var round: nat
    var todo: seq<int>
    var up: seq<int>
    var good: seq<int>
    var best: Option<real>
    var feedback: Feedback

    ghost function Model(): Explorer
      reads this
    {
      var frame := Frame(round, todo, up, good, best);
      Explorer(batchSizes, default, rounds, expecting,
               match phase
               case Created => NotStarted
               case Yielding => AtYield(frame)
               case Acking => AtAck(frame, feedback)
               case Closed => Finished)
    }

    /** A generator suspended inside a round has a batch size in hand. */
    ghost predicate Valid()
      reads this
    {
      phase == Yielding || phase == Acking ==> todo != []
    }

    /** The source raises ValueError for a default outside of the batch sizes; `Register` does the check. */
    constructor (batchSizes: seq<int>, default: int, rounds: nat)
      requires default in batchSizes
      ensures Valid() && Model() == Start(batchSizes, default, rounds)
    {
      this.batchSizes, this.default, this.rounds := batchSizes, default, rounds;
      expecting, phase := default, Created;
      round, todo, up, good, best, feedback := 0, [], [], [], None, Feedback(0.0, false);
    }

    method BeginRound() returns (answer: Answer)
      modifies this
      ensures Valid()
      ensures (Model(), answer) == EnterRound(old(Model()), old(round))
    {
      hide SortBy, Down, Up;
      if round >= rounds {
        phase := Closed;
        return Stops(Some(SortBy(AtMost, batchSizes)));
      }
      if default !in batchSizes {
        phase := Closed;
        return Raises(DefaultPruned);
      }
      todo, up := Down(batchSizes, default), Up(batchSizes, default);
      good, best := [], None;
      expecting, phase := todo[0], Yielding;
      answer := Yields(expecting);
    }

    /** Offers the next batch size of the round, or goes on to the next round. */
    method MoveOn() returns (answer: Answer)
      requires phase == Acking
      modifies this
      ensures Valid()
      ensures (Model(), answer) == Advance(old(Model()), old(Frame(round, todo, up, good, best)))
    {
      hide SortBy, EnterRound;
      ghost var e := Model();
      if todo == [] {
        todo, up := up, [];
      }
      if todo != [] {
        expecting, phase := todo[0], Yielding;
        answer := Yields(todo[0]);
      } else {
        expecting, batchSizes, round := 0, SortBy(AtMost, good), round + 1;
        EnterRoundIgnores(e.(expecting := 0, batchSizes := batchSizes), Model(), round);
        answer := BeginRound();
      }
    }

    /** Takes account of the result of the batch size in hand. */
    method Resume() returns (answer: Answer)
      requires phase == Acking && todo != []
      modifies this
      ensures Valid()
      ensures (Model(), answer) == Judge(old(Model()), old(Frame(round, todo, up, good, best)), old(feedback))
    {
      hide Advance;
      ghost var e := Model();
      if feedback.reached {
        if best.None? || best.value > feedback.cost {
          best := Some(feedback.cost);
          default := todo[0];
        }
        good := good + [todo[0]];
        todo := todo[1..];
      } else {
        todo := [];
      }
      AdvanceIgnoresControl(e.(default := default), Model(), Frame(round, todo, up, good, best));
      answer := MoveOn();
    }

    /** `next(self.gen)`. */
    method NextBatchSize() returns (answer: Answer)
      requires Valid()
      modifies this
      ensures Valid()
      ensures (Model(), answer) == Next(old(Model()))
    {
      hide EnterRound, Judge;
      ghost var e := Model();
      match phase
      case Created =>
        round := 0;
        EnterRoundIgnores(e, Model(), 0);
        answer := BeginRound();
      case Yielding =>
        phase := Closed;
        answer := Raises(MissingResult);
      case Closed =>
        answer := Stops(None);
      case Acking =>
        answer := Resume();
    }

    /** `self.gen.send(...)` and the assertion that it yields nothing. */
    method ReportBatchSizeResult(bs: int, cost: real, reached: bool) returns (answer: Answer)
      requires Valid()
      modifies this
      ensures Valid()
      ensures (Model(), answer) == Send(old(Model()), Report(bs, Feedback(cost, reached)))
    {
      match phase
      case Created =>
        answer := Raises(SentTooEarly);
      case Closed =>
        answer := Stops(None);
      case Acking =>
        answer := NextBatchSize();
        if answer.Yields? {
          answer := Raises(CallOrder);
        }
      case Yielding =>
        if expecting != bs {
          phase := Closed;
          answer := Raises(OrderMismatch);
        } else {
          expecting, feedback, phase := 0, Feedback(cost, reached), Acking;
          answer := Acknowledged;
        }
    }
  }
}
