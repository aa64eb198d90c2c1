/** A handler that nothing interrupts: its run at lock granularity does to the
    Master what the handler as a whole does. */
module Alone {
  import opened Base
  import opened Codec
  import opened LineSearch
  import opened Chunking
  import opened Scheduler
  import opened Handlers
  import opened Cluster

  // ------------------------------------------------------- running undisturbed

  function Iterate<T>(f: T -> T, x: T, n: nat): T {
    if n == 0 then x else f(Iterate(f, x, n - 1))
  }

  lemma {:induction false} IterateAdds<T>(f: T -> T, x: T, a: nat, b: nat)
    ensures Iterate(f, Iterate(f, x, a), b) == Iterate(f, x, a + b)
    decreases b
  {
    if b > 0 {
      IterateAdds(f, x, a, b - 1);
    }
  }

  /** The same requests, and the same workers with what they advertised. */
  ghost predicate SameParties(s: State, s': State) {
    && s'.requests == s.requests && s'.advertised == s.advertised
    && s'.master.freeSlots.Keys == s.master.freeSlots.Keys
  }

  /** `move` takes `s` in `n` steps to this master and output, with only thread
      `i` moved, which then stands at `pc`. */
  ghost predicate Takes(move: State -> State, s: State, i: nat, n: nat, pc: Pc, master: Master, output: map<nat, seq<Bytes>>) {
    var end := Iterate(move, s, n);
    && i < |s.threads| && end.threads == s.threads[i := pc] && end.master == master && end.output == output
    && SameParties(s, end)
  }

  lemma OneStep(move: State -> State, s: State)
    ensures Iterate(move, s, 1) == move(s)
  {
    assert Iterate(move, s, 0) == s;
  }

  /** First one stretch, then another. */
  lemma Then(move: State -> State, s: State, i: nat, a: nat, mid: State, b: nat,
             pc: Pc, master: Master, output: map<nat, seq<Bytes>>)
    requires i < |s.threads| == |mid.threads| && mid.threads == s.threads[i := mid.threads[i]]
    requires Iterate(move, s, a) == mid && SameParties(s, mid) && Takes(move, mid, i, b, pc, master, output)
    ensures Takes(move, s, i, a + b, pc, master, output)
  {
    IterateAdds(move, s, a, b);
    assert s.threads[i := mid.threads[i]][i := pc] == s.threads[i := pc];
  }

  ghost predicate Moved(w: World, s: State, i: nat, s': State) {
    s' == if i < |s.threads| then StepThread(w, s, i) else s
  }

  /** `move` lets thread `i` take one step, at lock granularity. */
  ghost predicate Moves(w: World, move: State -> State, i: nat) {
    forall s: State {:trigger Moved(w, s, i, move(s))} :: Moved(w, s, i, move(s))
  }

  lemma SomeMover(w: World, i: nat) returns (move: State -> State)
    ensures Moves(w, move, i)
  {
    move := (s: State) => if i < |s.threads| then StepThread(w, s, i) else s;
  }

  // ------------------------------------------------------------------- loops

  /** Inside and after a loop that hands tasks to one worker. */
  function Giving(greet: bool, client: nat, left: nat): Pc {
    if greet then Greeting(client, left) else Waking(client, left)
  }

  function Given(greet: bool): Pc {
    if greet then Finished else Assigning
  }

  /** One turn of such a loop. */
  ghost predicate GiveTurn(s: State, s': State, i: nat, greet: bool, client: nat, left: nat)
    requires i < |s.threads|
  {
    s'.output == s.output && SameParties(s, s') &&
    if left > 0 && Dispatch(s.master, client).1.Some? then
      && s'.threads == s.threads[i := Giving(greet, client, left - 1)]
      && GiveUpTo(s'.master, client, left - 1) == GiveUpTo(s.master, client, left)
    else
      s'.threads == s.threads[i := Given(greet)] && s'.master == GiveUpTo(s.master, client, left)
  }

  /** `move` moves thread `i` through such loops. */
  ghost predicate GivesBy(move: State -> State, i: nat) {
    forall s: State, greet: bool, client: nat, left: nat {:trigger GiveTurn(s, move(s), i, greet, client, left)} ::
      i < |s.threads| && s.threads[i] == Giving(greet, client, left) ==> GiveTurn(s, move(s), i, greet, client, left)
  }

  lemma {:induction false} GiveAlone(move: State -> State, s: State, i: nat, greet: bool, client: nat, left: nat) returns (n: nat)
    requires GivesBy(move, i) && i < |s.threads| && s.threads[i] == Giving(greet, client, left)
    ensures Takes(move, s, i, n, Given(greet), GiveUpTo(s.master, client, left), s.output)
    decreases left
  {
    OneStep(move, s);
    var one := move(s);
    assert GiveTurn(s, one, i, greet, client, left);
    n := 1;
    if left > 0 && Dispatch(s.master, client).1.Some? {
      var rest := GiveAlone(move, one, i, greet, client, left - 1);
      Then(move, s, i, 1, one, rest, Given(greet), GiveUpTo(s.master, client, left), s.output);
      n := 1 + rest;
    }
  }

  /** One turn of the loop of `AssignIdleWorkers`. */
  ghost predicate AssignTurn(s: State, s': State, i: nat)
    requires i < |s.threads|
  {
    && s'.output == s.output && SameParties(s, s') && s'.master == TakeIdle(s.master).0
    && match TakeIdle(s.master).1
       case NoWork => s'.threads == s.threads[i := Finished]
       case Stale => s'.threads == s.threads[i := Assigning]
       case Wake(client, slots) => s'.threads == s.threads[i := Waking(client, slots)]
  }

  ghost predicate AssignsBy(move: State -> State, i: nat) {
    forall s: State {:trigger AssignTurn(s, move(s), i)} ::
      i < |s.threads| && s.threads[i] == Assigning ==> AssignTurn(s, move(s), i)
  }

  lemma {:induction false} AssignAlone(move: State -> State, s: State, i: nat) returns (n: nat)
    requires GivesBy(move, i) && AssignsBy(move, i) && i < |s.threads| && s.threads[i] == Assigning
    ensures Takes(move, s, i, n, Finished, AssignAll(s.master), s.output)
    decreases |s.master.pending|, |s.master.idle|
  {
    OneStep(move, s);
    var one := move(s);
    assert AssignTurn(s, one, i);
    match TakeIdle(s.master).1
    case NoWork => n := 1;
    case Stale =>
      var rest := AssignAlone(move, one, i);
      Then(move, s, i, 1, one, rest, Finished, AssignAll(s.master), s.output);
      n := 1 + rest;
    case Wake(client, slots) =>
      var woken := GiveAlone(move, one, i, false, client, slots);
      var given := Iterate(move, one, woken);
      var rest := AssignAlone(move, given, i);
      Then(move, one, i, woken, given, rest, Finished, AssignAll(s.master), s.output);
      Then(move, s, i, 1, one, woken + rest, Finished, AssignAll(s.master), s.output);
      n := 1 + (woken + rest);
  }

  lemma WakeTurns(w: World, s: State, i: nat, client: nat, left: nat)
    requires i < |s.threads| && s.threads[i] == Waking(client, left)
    ensures GiveTurn(s, StepThread(w, s, i), i, false, client, left)
  {
    assert StepThread(w, s, i) == StepWake(s, i, client, left);
  }

  lemma GreetTurns(w: World, s: State, i: nat, client: nat, left: nat)
    requires i < |s.threads| && s.threads[i] == Greeting(client, left)
    ensures GiveTurn(s, StepThread(w, s, i), i, true, client, left)
  {
    assert StepThread(w, s, i) == StepGreet(s, i, client, left);
  }

  lemma MoverGives(w: World, move: State -> State, i: nat)
    requires Moves(w, move, i)
    ensures GivesBy(move, i)
  {
    forall s: State, greet: bool, client: nat, left: nat | i < |s.threads| && s.threads[i] == Giving(greet, client, left)
      ensures GiveTurn(s, move(s), i, greet, client, left)
    {
      assert Moved(w, s, i, move(s));
      if greet {
        GreetTurns(w, s, i, client, left);
      } else {
        WakeTurns(w, s, i, client, left);
      }
    }
  }

  lemma MoverAssigns(w: World, move: State -> State, i: nat)
    requires Moves(w, move, i)
    ensures AssignsBy(move, i)
  {
    forall s: State | i < |s.threads| && s.threads[i] == Assigning
      ensures AssignTurn(s, move(s), i)
    {
      assert Moved(w, s, i, move(s));
      assert StepThread(w, s, i) == StepAssign(s, i);
    }
  }

  /** `AssignIdleWorkers`, undisturbed. */
  lemma AssignRuns(w: World, move: State -> State, s: State, i: nat) returns (n: nat)
    requires Moves(w, move, i) && i < |s.threads| && s.threads[i] == Assigning
    ensures Takes(move, s, i, n, Finished, AssignAll(s.master), s.output)
  {
    MoverGives(w, move, i);
    MoverAssigns(w, move, i);
    n := AssignAlone(move, s, i);
  }

  /** The dispatch loop of Hello, undisturbed. */
  lemma GreetRuns(w: World, move: State -> State, s: State, i: nat, client: nat, left: nat) returns (n: nat)
    requires Moves(w, move, i) && i < |s.threads| && s.threads[i] == Greeting(client, left)
    ensures Takes(move, s, i, n, Finished, GiveUpTo(s.master, client, left), s.output)
  {
    MoverGives(w, move, i);
    n := GiveAlone(move, s, i, true, client, left);
  }

  lemma PublishStep(w: World, move: State -> State, s: State, i: nat, searchId: nat) returns (one: State)
    requires Moves(w, move, i) && i < |s.threads| && s.threads[i] == Publishing(searchId) && searchId < |s.requests|
    ensures Iterate(move, s, 1) == one && one.threads == s.threads[i := Assigning]
    ensures
      var plan := s.requests[searchId];
      one.master == AddPendingTasks(s.master, searchId, NewSession(w, plan), PlanTasks(w, plan, searchId))
    ensures one.output == s.output[searchId := []] && SameParties(s, one)
  {
    OneStep(move, s);
    one := StepPublish(w, s, i, searchId);
    assert Moved(w, s, i, move(s));
  }

  lemma PublishRuns(w: World, move: State -> State, s: State, i: nat, searchId: nat) returns (n: nat)
    requires Moves(w, move, i) && i < |s.threads| && s.threads[i] == Publishing(searchId) && searchId < |s.requests|
    ensures
      var plan := s.requests[searchId];
      Takes(move, s, i, n, Finished,
            AssignAll(AddPendingTasks(s.master, searchId, NewSession(w, plan), PlanTasks(w, plan, searchId))),
            s.output[searchId := []])
  {
    var one := PublishStep(w, move, s, i, searchId);
    var rest := AssignRuns(w, move, one, i);
    Then(move, s, i, 1, one, rest, Finished, AssignAll(one.master), one.output);
    n := 1 + rest;
  }

  // ---------------------------------------------------------- the TaskDone path

  lemma CountRuns(w: World, move: State -> State, s: State, i: nat, task: Task)
    requires Moves(w, move, i) && i < |s.threads| && s.threads[i] == Counting(task)
    ensures Takes(move, s, i, 1, Finished, CountChunk(s.master, task.searchId), s.output)
  {
    OneStep(move, s);
    assert Moved(w, s, i, move(s));
  }

  lemma WriteRuns(w: World, move: State -> State, s: State, i: nat, task: Task, lines: seq<Bytes>)
    requires Moves(w, move, i) && i < |s.threads| && s.threads[i] == Writing(task, lines)
    ensures Takes(move, s, i, 2, Finished, CountChunk(s.master, task.searchId),
                  s.output[task.searchId := ResultFile(s.output, task.searchId) + lines])
  {
    OneStep(move, s);
    var one := StepWrite(s, i, task, lines);
    assert Moved(w, s, i, move(s));
    CountRuns(w, move, one, i, task);
    Then(move, s, i, 1, one, 1, Finished, CountChunk(one.master, task.searchId), one.output);
  }

  lemma AggregateStep(w: World, move: State -> State, s: State, i: nat, task: Task, body: Bytes) returns (one: State)
    requires Moves(w, move, i) && i < |s.threads| && s.threads[i] == Aggregating(task, body)
    ensures Iterate(move, s, 1) == one && one == StepAggregate(s, i, task, body)
  {
    OneStep(move, s);
    one := StepAggregate(s, i, task, body);
    assert Moved(w, s, i, move(s));
  }

  /** Where adding the result leads, and that the rest of the handler completes it. */
  lemma AggregateLeads(s: State, i: nat, task: Task, body: Bytes)
    requires i < |s.threads| && s.threads[i] == Aggregating(task, body)
    ensures
      var one := StepAggregate(s, i, task, body);
      var (m, output) := Complete(s.master, s.output, task, body);
      && SameParties(s, one) && one.threads == s.threads[i := one.threads[i]] && m == CountChunk(one.master, task.searchId)
      && match one.threads[i]
         case Writing(t, lines) =>
           t == task && output == one.output[task.searchId := ResultFile(one.output, task.searchId) + lines]
         case Counting(t) => t == task && output == one.output
         case _ => false
  {
  }

  lemma AggregateRuns(w: World, move: State -> State, s: State, i: nat, task: Task, body: Bytes) returns (n: nat)
    requires Moves(w, move, i) && i < |s.threads| && s.threads[i] == Aggregating(task, body)
    ensures
      var (m, output) := Complete(s.master, s.output, task, body);
      Takes(move, s, i, n, Finished, m, output)
  {
    var one := AggregateStep(w, move, s, i, task, body);
    AggregateLeads(s, i, task, body);
    var (m, output) := Complete(s.master, s.output, task, body);
    if one.threads[i].Writing? {
      WriteRuns(w, move, one, i, task, one.threads[i].lines);
      n := 2;
    } else {
      CountRuns(w, move, one, i, task);
      n := 1;
    }
    Then(move, s, i, 1, one, n, Finished, m, output);
    n := 1 + n;
  }

  lemma RedispatchStep(w: World, move: State -> State, s: State, i: nat, client: nat, task: Task, body: Bytes) returns (one: State)
    requires Moves(w, move, i) && i < |s.threads| && s.threads[i] == Redispatching(client, task, body)
    ensures Iterate(move, s, 1) == one && one.threads == s.threads[i := Aggregating(task, body)]
    ensures one.master == Dispatch(s.master, client).0 && one.output == s.output && SameParties(s, one)
  {
    OneStep(move, s);
    one := StepRedispatch(s, i, client, task, body);
    assert Moved(w, s, i, move(s));
  }

  lemma RedispatchRuns(w: World, move: State -> State, s: State, i: nat, client: nat, task: Task, body: Bytes) returns (n: nat)
    requires Moves(w, move, i) && i < |s.threads| && s.threads[i] == Redispatching(client, task, body)
    ensures
      var (m, output) := Complete(Dispatch(s.master, client).0, s.output, task, body);
      Takes(move, s, i, n, Finished, m, output)
  {
    var one := RedispatchStep(w, move, s, i, client, task, body);
    var rest := AggregateRuns(w, move, one, i, task, body);
    var (m, output) := Complete(one.master, one.output, task, body);
    Then(move, s, i, 1, one, rest, Finished, m, output);
    n := 1 + rest;
  }

  /** `AssignIdleWorkers` from inside its inner loop. */
  lemma WakeRuns(w: World, move: State -> State, s: State, i: nat, client: nat, left: nat) returns (n: nat)
    requires Moves(w, move, i) && i < |s.threads| && s.threads[i] == Waking(client, left)
    ensures Takes(move, s, i, n, Finished, AssignAll(GiveUpTo(s.master, client, left)), s.output)
  {
    MoverGives(w, move, i);
    var woken := GiveAlone(move, s, i, false, client, left);
    var given := Iterate(move, s, woken);
    var rest := AssignRuns(w, move, given, i);
    Then(move, s, i, woken, given, rest, Finished, AssignAll(given.master), given.output);
    n := woken + rest;
  }

  /** A handler that stands anywhere finishes if nothing disturbs it. */
  lemma AnyRuns(w: World, move: State -> State, s: State, i: nat) returns (n: nat, m: Master, output: map<nat, seq<Bytes>>)
    requires Moves(w, move, i) && i < |s.threads|
    requires s.threads[i].Publishing? ==> s.threads[i].searchId < |s.requests|
    ensures Takes(move, s, i, n, Finished, m, output)
  {
    match s.threads[i] {
      case Publishing(searchId) =>
        n := PublishRuns(w, move, s, i, searchId);
      case Assigning =>
        n := AssignRuns(w, move, s, i);
      case Waking(client, left) =>
        n := WakeRuns(w, move, s, i, client, left);
      case Greeting(client, left) =>
        n := GreetRuns(w, move, s, i, client, left);
      case Redispatching(client, task, body) =>
        n := RedispatchRuns(w, move, s, i, client, task, body);
      case Aggregating(task, body) =>
        n := AggregateRuns(w, move, s, i, task, body);
      case Writing(task, lines) =>
        WriteRuns(w, move, s, i, task, lines);
        n := 2;
      case Counting(task) =>
        CountRuns(w, move, s, i, task);
        n := 1;
      case Finished =>
        n := 0;
        assert s.threads[i := Finished] == s.threads;
    }
    m, output := Iterate(move, s, n).master, Iterate(move, s, n).output;
  }

  // ------------------------------------------------- handlers are runs as well

  lemma MoveIsRun(w: World, move: State -> State, before: seq<State>, i: nat) returns (trace: seq<State>)
    requires IsRun(w, before) && Moves(w, move, i)
    ensures IsRun(w, trace) && before <= trace
    ensures trace[|trace| - 1] == move(before[|before| - 1])
  {
    assert Moved(w, before[|before| - 1], i, move(before[|before| - 1]));
    if i < |before[|before| - 1].threads| {
      trace := Extend(w, before, Step(i));
    } else {
      trace := before;
    }
  }

  lemma {:induction false} MovesAreRun(w: World, move: State -> State, before: seq<State>, i: nat, n: nat) returns (trace: seq<State>)
    requires IsRun(w, before) && Moves(w, move, i)
    ensures IsRun(w, trace) && before <= trace
    ensures trace[|trace| - 1] == Iterate(move, before[|before| - 1], n)
    decreases n
  {
    if n == 0 {
      trace := before;
    } else {
      trace := MovesAreRun(w, move, before, i, n - 1);
      trace := MoveIsRun(w, move, trace, i);
    }
  }

  /** The run ends with this master and output, and with one more handler, which
      has finished. */
  ghost predicate EndsWith(before: seq<State>, trace: seq<State>, master: Master, output: map<nat, seq<Bytes>>)
    requires before != [] && trace != []
  {
    var s, s' := before[|before| - 1], trace[|trace| - 1];
    before <= trace && s'.threads == s.threads + [Finished] && s'.master == master && s'.output == output
  }

  /** A handler that was started and can finish alone makes a run. */
  lemma Finishes(w: World, move: State -> State, before: seq<State>, started: seq<State>, n: nat,
                 master: Master, output: map<nat, seq<Bytes>>)
    returns (trace: seq<State>)
    requires IsRun(w, before) && IsRun(w, started) && before <= started
    requires |started[|started| - 1].threads| == |before[|before| - 1].threads| + 1
    requires before[|before| - 1].threads <= started[|started| - 1].threads
    requires Moves(w, move, |before[|before| - 1].threads|)
    requires Takes(move, started[|started| - 1], |before[|before| - 1].threads|, n, Finished, master, output)
    ensures IsRun(w, trace) && EndsWith(before, trace, master, output)
    ensures SameParties(started[|started| - 1], trace[|trace| - 1])
  {
    var threads := before[|before| - 1].threads;
    trace := MovesAreRun(w, move, started, |threads|, n);
    assert started[|started| - 1].threads[|threads| := Finished] == threads + [Finished];
  }

  /** `Server.MasterServer.OnHello` is a run at lock granularity. */
  lemma HelloIsRun(w: World, before: seq<State>, client: nat, threads: nat) returns (trace: seq<State>)
    requires IsRun(w, before) && Enabled(w, before[|before| - 1], Hello(client, threads))
    ensures
      var s := before[|before| - 1];
      IsRun(w, trace) && EndsWith(before, trace, GiveUpTo(Register(s.master, client, threads), client, threads), s.output)
    ensures trace[|trace| - 1].requests == before[|before| - 1].requests
    ensures trace[|trace| - 1].advertised == before[|before| - 1].advertised[client := threads]
  {
    var s := before[|before| - 1];
    var started := Extend(w, before, Hello(client, threads));
    var move := SomeMover(w, |s.threads|);
    var n := GreetRuns(w, move, ApplyHello(s, client, threads), |s.threads|, client, threads);
    trace := Finishes(w, move, before, started, n, GiveUpTo(Register(s.master, client, threads), client, threads), s.output);
  }

  /** So is `OnClientDisconnect`. */
  lemma DisconnectIsRun(w: World, before: seq<State>, client: nat, order: seq<nat>) returns (trace: seq<State>)
    requires IsRun(w, before) && Enabled(w, before[|before| - 1], Disconnect(client, order))
    ensures
      var s := before[|before| - 1];
      IsRun(w, trace) && EndsWith(before, trace, AssignAll(Reclaim(s.master, client, order)), s.output)
  {
    var s := before[|before| - 1];
    var started := Extend(w, before, Disconnect(client, order));
    var move := SomeMover(w, |s.threads|);
    var n := AssignRuns(w, move, ApplyDisconnect(s, client, order), |s.threads|);
    trace := Finishes(w, move, before, started, n, AssignAll(Reclaim(s.master, client, order)), s.output);
  }

  /** So is a `StartSearch` that is not refused. */
  lemma StartIsRun(w: World, before: seq<State>, plan: Plan) returns (trace: seq<State>)
    requires IsRun(w, before) && Enabled(w, before[|before| - 1], Event.StartSearch(plan)) && !Refused(w, plan)
    requires before[|before| - 1].master.nextSearchId == |before[|before| - 1].requests|
    ensures
      var s := before[|before| - 1];
      var id := s.master.nextSearchId;
      IsRun(w, trace) && EndsWith(before, trace,
        AssignAll(AddPendingTasks(s.master.(nextSearchId := id + 1), id, NewSession(w, plan), PlanTasks(w, plan, id))),
        s.output[id := []])
  {
    var s := before[|before| - 1];
    var id := s.master.nextSearchId;
    var started := Extend(w, before, Event.StartSearch(plan));
    var s' := ApplyStart(w, s, plan);
    assert s'.requests[id] == plan;
    var move := SomeMover(w, |s.threads|);
    var n := PublishRuns(w, move, s', |s.threads|, id);
    trace := Finishes(w, move, before, started, n,
      AssignAll(AddPendingTasks(s'.master, id, NewSession(w, plan), PlanTasks(w, plan, id))), s.output[id := []]);
  }

  /** So is an `OnTaskDone` that is accepted. */
  lemma TaskDoneIsRun(w: World, before: seq<State>, client: nat, body: Bytes) returns (trace: seq<State>)
    requires IsRun(w, before) && Enabled(w, before[|before| - 1], TaskDone(client, body)) && PopTaskId(body).Some?
    requires InFlightAt(before[|before| - 1].master, client, PopTaskId(body).value.0)
    ensures
      var s := before[|before| - 1];
      var (id, rest) := PopTaskId(body).value;
      var (m, output) := Complete(Dispatch(Claim(s.master, client, id).0, client).0, s.output, s.master.inFlight[client][id], rest);
      IsRun(w, trace) && EndsWith(before, trace, m, output)
    ensures before[|before| - 1].requests == trace[|trace| - 1].requests
    ensures before[|before| - 1].advertised == trace[|trace| - 1].advertised
  {
    var s := before[|before| - 1];
    var (id, rest) := PopTaskId(body).value;
    var task := s.master.inFlight[client][id];
    var started := Extend(w, before, TaskDone(client, body));
    var s' := ApplyTaskDone(s, client, body);
    var move := SomeMover(w, |s.threads|);
    var n := RedispatchRuns(w, move, s', |s.threads|, client, task, rest);
    var (m, output) := Complete(Dispatch(s'.master, client).0, s.output, task, rest);
    trace := Finishes(w, move, before, started, n, m, output);
  }
}
