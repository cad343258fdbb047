/** The client and the polling processes of `CarbonEmissionMonitor` in zeus/monitor/carbon.py: a sequential client
    sends commands over a queue to a process it spawns whenever it has no window open; every END is answered over a
    second queue. A process that has answered has yet to update its keys and to exit, while the client goes on. */
module CarbonProtocol {
  import opened Outcomes

  type Key = string

  datatype Command = Begin(key: Key) | End(key: Key)

  datatype Worker =
    | Polling(keys: set<Key>)
    | Replied(keys: set<Key>, key: Key)    // has put its answer, has not yet removed the key
    | Exited
    | Crashed                              // KeyError or ValueError in the process

  datatype Client = Idle | Awaiting(key: Key)

  /** `received` lists each key ended together with the key whose answer came back. */
  datatype System = System(current: set<Key>, client: Client, commands: seq<Command>, replies: seq<Key>,
                           workers: seq<Worker>, received: seq<(Key, Key)>)

  datatype Step =
    | BeginWindow(key: Key)
    | EndWindow(key: Key)       // puts the command, then blocks
    | Receive                   // end_window gets the answer
    | Take(i: nat)              // process i gets a command
    | Settle(i: nat)            // process i removes the ended key, and exits if it was the last

  const INITIAL := System({}, Idle, [], [], [], [])

  /** Steps that can happen; a rejected begin or end raises in the client and changes nothing. */
  predicate Enabled(s: System, step: Step) {
    match step
    case BeginWindow(_) => s.client.Idle?
    case EndWindow(_) => s.client.Idle?
    case Receive => s.client.Awaiting? && s.replies != []
    case Take(i) => i < |s.workers| && s.workers[i].Polling? && s.commands != []
    case Settle(i) => i < |s.workers| && s.workers[i].Replied?
  }

  function Do(s: System, step: Step): System
    requires Enabled(s, step)
  {
    match step
    case BeginWindow(key) =>
      if key in s.current then s
      else s.(current := s.current + {key}, commands := s.commands + [Begin(key)],
              workers := if |s.current + {key}| == 1 then s.workers + [Polling({})] else s.workers)
    case EndWindow(key) =>
      if key !in s.current then s
      else s.(client := Awaiting(key), commands := s.commands + [End(key)])
    case Receive =>
      s.(client := Idle, current := s.current - {s.client.key}, replies := s.replies[1..],
         received := s.received + [(s.client.key, s.replies[0])])
    case Take(i) =>
      var keys, rest := s.workers[i].keys, s.commands[1..];
      match s.commands[0] {
        case Begin(key) =>
          s.(commands := rest, workers := s.workers[i := if key in keys then Crashed else Polling(keys + {key})])
        case End(key) =>
          if key in keys then
            s.(commands := rest, replies := s.replies + [key], workers := s.workers[i := Replied(keys, key)])
          else s.(commands := rest, workers := s.workers[i := Crashed])
      }
    case Settle(i) =>
      var keys := s.workers[i].keys - {s.workers[i].key};
      s.(workers := s.workers[i := if keys == {} then Exited else Polling(keys)])
  }

  // ---- The invariant ----

  /** The keys a process goes on with. */
  function Holds(w: Worker): set<Key> {
    match w
    case Polling(keys) => keys
    case Replied(keys, key) => keys - {key}
    case _ => {}
  }

  /** A process that will take another command. */
  predicate Consumes(w: Worker) {
    w.Polling? || (w.Replied? && Holds(w) != {})
  }

  function Last(workers: seq<Worker>): Worker {
    if workers == [] then Exited else workers[|workers| - 1]
  }

  /** The keys after carrying out the queued commands. */
  function Apply(commands: seq<Command>, keys: set<Key>): set<Key>
    decreases |commands|
  {
    if commands == [] then keys
    else Apply(commands[1..], match commands[0] case Begin(k) => keys + {k} case End(k) => keys - {k})
  }

  /** Each queued command can be carried out when its turn comes. */
  predicate Legal(commands: seq<Command>, keys: set<Key>)
    decreases |commands|
  {
    commands == [] ||
    match commands[0]
    case Begin(k) => k !in keys && Legal(commands[1..], keys + {k})
    case End(k) => k in keys && Legal(commands[1..], keys - {k})
  }

  /** Only the client's own END can be queued, as the last command. */
  predicate Queue(s: System) {
    && (forall i :: 0 <= i < |s.commands| && s.commands[i].End? ==> i == |s.commands| - 1)
    && match s.client
       case Idle => s.replies == [] && forall i :: 0 <= i < |s.commands| ==> s.commands[i].Begin?
       case Awaiting(k) =>
         || (s.replies == [] && s.commands != [] && s.commands[|s.commands| - 1] == End(k))
         || (s.replies == [k] && s.commands == [])
  }

  ghost predicate Inv(s: System) {
    var w := Last(s.workers);
    && (forall i :: 0 <= i < |s.workers| ==> !s.workers[i].Crashed?)
    && (forall i :: 0 <= i < |s.workers| && Consumes(s.workers[i]) ==> i == |s.workers| - 1)
    && (forall i :: 0 <= i < |s.workers| && s.workers[i].Replied? ==> s.workers[i].key in s.workers[i].keys)
    && Queue(s)
    && Legal(s.commands, Holds(w))
    && Apply(s.commands, Holds(w)) == (if s.client.Idle? then s.current else s.current - {s.client.key})
    && (s.client.Awaiting? ==> s.client.key in s.current)
    && (if Consumes(w) then w.Polling? ==> w.keys != {} || s.commands != [] else s.commands == [])
    && (forall i :: 0 <= i < |s.received| ==> s.received[i].0 == s.received[i].1)
  }

  lemma {:induction false} ApplyMore(commands: seq<Command>, c: Command, keys: set<Key>)
    ensures Apply(commands + [c], keys) ==
            match c case Begin(k) => Apply(commands, keys) + {k} case End(k) => Apply(commands, keys) - {k}
    ensures Legal(commands + [c], keys) <==>
            (Legal(commands, keys) &&
             match c case Begin(k) => k !in Apply(commands, keys) case End(k) => k in Apply(commands, keys))
    decreases |commands|
  {
    if commands == [] {
      assert [c][1..] == [];
    } else {
      var next := match commands[0] case Begin(k) => keys + {k} case End(k) => keys - {k};
      ApplyMore(commands[1..], c, next);
      assert (commands + [c])[1..] == commands[1..] + [c];
    }
  }

  lemma {:induction false} BeginsOnlyAdd(commands: seq<Command>, keys: set<Key>)
    requires forall i :: 0 <= i < |commands| ==> commands[i].Begin?
    ensures keys <= Apply(commands, keys)
    ensures commands != [] ==> Apply(commands, keys) != {}
    decreases |commands|
  {
    if commands != [] {
      var next := keys + {commands[0].key};
      BeginsOnlyAdd(commands[1..], next);
      assert commands[0].key in next;
    }
  }

  /** An idle client has no window open exactly when no process is going to take another command. */
  lemma SpawnsExactlyWhenNeeded(s: System)
    requires Inv(s) && s.client.Idle?
    ensures s.current == {} <==> !Consumes(Last(s.workers))
  {
    BeginsOnlyAdd(s.commands, Holds(Last(s.workers)));
  }

  lemma SingletonAdded(current: set<Key>, key: Key)
    requires key !in current
    ensures |current + {key}| == 1 <==> current == {}
  {
    assert |current + {key}| == |current| + 1;
  }

  lemma BeginKeeps(s: System, key: Key)
    requires Inv(s) && s.client.Idle?
    ensures Inv(Do(s, BeginWindow(key)))
  {
    hide Apply, Legal;
    if key !in s.current {
      SpawnsExactlyWhenNeeded(s);
      SingletonAdded(s.current, key);
      ApplyMore(s.commands, Begin(key), Holds(Last(s.workers)));
    }
  }

  lemma EndKeeps(s: System, key: Key)
    requires Inv(s) && s.client.Idle?
    ensures Inv(Do(s, EndWindow(key)))
  {
    hide Apply, Legal;
    if key in s.current {
      SpawnsExactlyWhenNeeded(s);
      ApplyMore(s.commands, End(key), Holds(Last(s.workers)));
    }
  }

  /** The answer an END receives is its own. */
  lemma ReceiveKeeps(s: System)
    requires Inv(s) && Enabled(s, Receive)
    ensures Inv(Do(s, Receive)) && s.replies == [s.client.key]
  {
    hide Apply, Legal;
  }

  /** Only the newest process takes a command, it can always carry it out, and it decides to leave only when the
      command queue is empty. */
  lemma TakeKeeps(s: System, i: nat)
    requires Inv(s) && Enabled(s, Take(i))
    ensures i == |s.workers| - 1
    ensures Inv(Do(s, Take(i)))
    ensures var w := Do(s, Take(i)).workers[i]; !Consumes(w) ==> w.Replied? && Holds(w) == {} && |s.commands| == 1
  {
    var rest := s.commands[1..];
    var keys := s.workers[i].keys;
    assert Consumes(s.workers[i]);
    assert forall j :: 0 <= j < |rest| ==> rest[j] == s.commands[j + 1];
    if s.commands[0].End? {
      assert rest == [];
    }
  }

  lemma SettleKeeps(s: System, i: nat)
    requires Inv(s) && Enabled(s, Settle(i))
    ensures Inv(Do(s, Settle(i)))
    ensures var w := Do(s, Settle(i)).workers[i]; w.Exited? ==> s.commands == [] || i < |s.workers| - 1
  {
    hide Apply, Legal;
    var w := Do(s, Settle(i)).workers[i];
    assert Holds(w) == Holds(s.workers[i]);
    assert Consumes(w) <==> Consumes(s.workers[i]);
  }

  lemma StepKeeps(s: System, step: Step)
    requires Inv(s) && Enabled(s, step)
    ensures Inv(Do(s, step))
  {
    hide Inv, Do;
    match step
    case BeginWindow(key) => BeginKeeps(s, key);
    case EndWindow(key) => EndKeeps(s, key);
    case Receive => ReceiveKeeps(s);
    case Take(i) => TakeKeeps(s, i);
    case Settle(i) => SettleKeeps(s, i);
  }

  /** A run of the client and the processes, interleaved in any way. */
  ghost predicate Runs(s: System, steps: seq<Step>, after: System)
    decreases |steps|
  {
    if steps == [] then s == after else Enabled(s, steps[0]) && Runs(Do(s, steps[0]), steps[1..], after)
  }

  lemma {:induction false} InvAlways(s: System, steps: seq<Step>, after: System)
    requires Inv(s) && Runs(s, steps, after)
    ensures Inv(after)
    decreases |steps|
  {
    hide Inv, Do, Enabled;
    if steps != [] {
      StepKeeps(s, steps[0]);
      InvAlways(Do(s, steps[0]), steps[1..], after);
    }
  }

  lemma InitialInv()
    ensures Inv(INITIAL)
  {
  }

  /** In every run: no process fails, at most one takes commands, carrying out the queued commands leaves it with
      exactly the client's open windows, and every answer received so far was to the window that was ended. */
  lemma ProtocolHolds(steps: seq<Step>, s: System)
    requires Runs(INITIAL, steps, s)
    ensures forall i :: 0 <= i < |s.workers| ==> !s.workers[i].Crashed?
    ensures forall i, j | 0 <= i < |s.workers| && 0 <= j < |s.workers| ::
              Consumes(s.workers[i]) && Consumes(s.workers[j]) ==> i == j
    ensures s.client.Idle? ==> Apply(s.commands, Holds(Last(s.workers))) == s.current
    ensures forall i :: 0 <= i < |s.received| ==> s.received[i].0 == s.received[i].1
  {
    InitialInv();
    InvAlways(INITIAL, steps, s);
  }

  /** What is left to do for the newest process until a blocked client is answered. */
  function Distance(s: System): nat {
    2 * |s.commands| + if Last(s.workers).Replied? then 1 else 0
  }

  /** A client waiting for an answer never waits in vain: either the answer is there, or the newest process can step,
      and each of its steps brings the answer closer. */
  lemma AnswerComes(s: System)
    requires Inv(s) && s.client.Awaiting?
    ensures s.replies != [] ||
      exists step ::
        && (step == Take(|s.workers| - 1) || step == Settle(|s.workers| - 1))
        && Enabled(s, step) && Distance(Do(s, step)) < Distance(s)
  {
    hide Apply, Legal;
    if s.replies == [] {
      assert Consumes(Last(s.workers)) && s.workers != [];
      var i := |s.workers| - 1;
      if s.workers[i].Polling? {
        assert Enabled(s, Take(i)) && Distance(Do(s, Take(i))) < Distance(s);
      } else {
        assert Enabled(s, Settle(i)) && Distance(Do(s, Settle(i))) < Distance(s);
      }
    }
  }

  /** A command is taken, or the newest process goes on after an answer. */
  predicate Advances(s: System, step: Step) {
    step.Take? || (step.Settle? && step.i == |s.workers| - 1)
  }

  /** While no answer is there no step changes what the client waits for or sets the answer back, and every command
      taken and every step of the newest process brings it closer. */
  lemma WaitingKeeps(s: System, step: Step)
    requires Inv(s) && s.client.Awaiting? && s.replies == [] && Enabled(s, step)
    ensures Do(s, step).client == s.client && Do(s, step).current == s.current
    ensures Distance(Do(s, step)) <= Distance(s)
    ensures Advances(s, step) ==> Distance(Do(s, step)) < Distance(s)
  {
    hide Apply, Legal;
    if step.Take? {
      assert Consumes(s.workers[step.i]);
    }
  }

  function Advanced(s: System, steps: seq<Step>): nat
    decreases |steps|
  {
    if steps == [] || !Enabled(s, steps[0]) then 0
    else (if Advances(s, steps[0]) then 1 else 0) + Advanced(Do(s, steps[0]), steps[1..])
  }

  lemma {:induction false} RepliesStay(s: System, steps: seq<Step>, after: System)
    requires s.replies != [] && Runs(s, steps, after) && Receive !in steps
    ensures after.replies != []
    decreases |steps|
  {
    if steps != [] {
      assert steps == [steps[0]] + steps[1..];
      RepliesStay(Do(s, steps[0]), steps[1..], after);
    }
  }

  /** However the steps are interleaved, the answer is there once the newest process has made as many steps as the
      distance says. Since it can always step, every fair run answers. */
  lemma {:induction false} WaitIsBounded(s: System, steps: seq<Step>, after: System)
    requires Inv(s) && s.client.Awaiting? && Runs(s, steps, after) && Receive !in steps
    ensures after.replies != [] || Advanced(s, steps) < Distance(s)
    decreases |steps|
  {
    hide Inv, Do, Enabled, Distance, Advances;
    if s.replies != [] {
      RepliesStay(s, steps, after);
    } else if steps == [] {
      AnswerIsAhead(s);
    } else {
      assert steps == [steps[0]] + steps[1..];
      StepKeeps(s, steps[0]);
      WaitingKeeps(s, steps[0]);
      WaitIsBounded(Do(s, steps[0]), steps[1..], after);
    }
  }

  lemma AnswerIsAhead(s: System)
    requires Inv(s) && s.client.Awaiting? && s.replies == []
    ensures Distance(s) > 0
  {
  }

  // ---- What the client sees, told by the steps alone ----

  /** The key that was last asked to be ended. */
  function LastEnd(steps: seq<Step>): Option<Key> {
    if steps == [] then None
    else if steps[|steps| - 1].EndWindow? then Some(steps[|steps| - 1].key)
    else LastEnd(steps[..|steps| - 1])
  }

  /** The keys whose end was received, in order. */
  function Ends(steps: seq<Step>): seq<Option<Key>> {
    if steps == [] then []
    else
      var before := steps[..|steps| - 1];
      Ends(before) + if steps[|steps| - 1] == Receive then [LastEnd(before)] else []
  }

  /** A key was begun, and its end has not been received since. */
  ghost predicate IsOpen(steps: seq<Step>, key: Key) {
    exists i :: 0 <= i < |steps| && steps[i] == BeginWindow(key) && StaysOpen(steps, i, key)
  }

  ghost predicate StaysOpen(steps: seq<Step>, i: int, key: Key) {
    forall r :: 0 <= i < r < |steps| && steps[r] == Receive ==> LastEnd(steps[..r]) != Some(key)
  }

  ghost predicate Explains(steps: seq<Step>, s: System) {
    && (forall key :: key in s.current <==> IsOpen(steps, key))
    && (s.client.Awaiting? ==> LastEnd(steps) == Some(s.client.key))
    && |s.received| == |Ends(steps)|
    && forall i :: 0 <= i < |s.received| ==> Some(s.received[i].0) == Ends(steps)[i]
  }

  lemma OpenMore(steps: seq<Step>, step: Step, key: Key)
    ensures IsOpen(steps + [step], key) <==>
      step == BeginWindow(key) || (IsOpen(steps, key) && (step == Receive ==> LastEnd(steps) != Some(key)))
  {
    hide LastEnd;
    var longer, n := steps + [step], |steps|;
    forall i | 0 <= i < n
      ensures longer[i] == steps[i] && longer[..i] == steps[..i]
    {
    }
    assert longer[n] == step && longer[..n] == steps;
    forall i | 0 <= i < n
      ensures StaysOpen(longer, i, key) <==>
              StaysOpen(steps, i, key) && (step == Receive ==> LastEnd(steps) != Some(key))
    {
      assert StaysOpen(longer, i, key) && step == Receive ==> LastEnd(longer[..n]) != Some(key);
    }
    if IsOpen(longer, key) {
      var i :| 0 <= i < |longer| && longer[i] == BeginWindow(key) && StaysOpen(longer, i, key);
    }
    if step == BeginWindow(key) {
      assert StaysOpen(longer, n, key);
    }
  }

  lemma StepExplains(steps: seq<Step>, s: System, step: Step)
    requires Explains(steps, s) && Enabled(s, step)
    ensures Explains(steps + [step], Do(s, step))
  {
    hide IsOpen;
    assert (steps + [step])[..|steps|] == steps;
    forall key
      ensures key in Do(s, step).current <==> IsOpen(steps + [step], key)
    {
      OpenMore(steps, step, key);
    }
  }

  lemma {:induction false} RunExplains(done: seq<Step>, s: System, steps: seq<Step>, after: System)
    requires Explains(done, s) && Runs(s, steps, after)
    ensures Explains(done + steps, after)
    decreases |steps|
  {
    hide Explains, Do, Enabled;
    if steps == [] {
      assert done + steps == done;
    } else {
      StepExplains(done, s, steps[0]);
      RunExplains(done + [steps[0]], Do(s, steps[0]), steps[1..], after);
      assert done + [steps[0]] + steps[1..] == done + steps;
    }
  }

  /** After every run the client has exactly those windows open that were begun and whose end it has not received since,
      and it has received exactly the ends it asked for, in order, each with its own answer. */
  lemma ClientSees(steps: seq<Step>, s: System)
    requires Runs(INITIAL, steps, s)
    ensures forall key :: key in s.current <==> IsOpen(steps, key)
    ensures |s.received| == |Ends(steps)|
    ensures forall i :: 0 <= i < |s.received| ==>
      Ends(steps)[i] == Some(s.received[i].0) && s.received[i].1 == s.received[i].0
  {
    assert Explains([], INITIAL);
    RunExplains([], INITIAL, steps, s);
    assert [] + steps == steps;
    ProtocolHolds(steps, s);
  }

  /** Beginning a new window queues its command for a process that will have exactly the windows of the client. */
  lemma BeginOpens(s: System, key: Key)
    requires Inv(s) && s.client.Idle? && key !in s.current
    ensures Enabled(s, BeginWindow(key))
    ensures var after := Do(s, BeginWindow(key));
      && after.current == s.current + {key}
      && after.commands == s.commands + [Begin(key)]
      && Consumes(Last(after.workers))
      && Apply(after.commands, Holds(Last(after.workers))) == s.current + {key}
      && |after.workers| == |s.workers| + if Consumes(Last(s.workers)) then 0 else 1
  {
    hide Apply, Legal;
    SpawnsExactlyWhenNeeded(s);
    SingletonAdded(s.current, key);
    BeginKeeps(s, key);
  }

  /** Ending an open window queues its command and waits for the answer; ending any other changes nothing. */
  lemma EndAsks(s: System, key: Key)
    requires Inv(s) && s.client.Idle?
    ensures Enabled(s, EndWindow(key))
    ensures var after := Do(s, EndWindow(key));
      if key in s.current then
        && after.client == Awaiting(key) && after.commands == s.commands + [End(key)]
        && after.current == s.current && after.workers == s.workers
      else after == s
  {
  }
}
