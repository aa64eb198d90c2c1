/** The bound on countable searches is exact: every longer search has a run that
    increments the largest `int`. */
module Overflow {
  import opened Base
  import opened Codec
  import opened LineSearch
  import opened Chunking
  import opened Scheduler
  import opened Handlers
  import opened Cluster
  import opened Alone
  import opened Accounting
  import opened Tables
  import opened Conservation
  import opened EndToEnd
  import opened Results
  import opened History
  import opened Reservations
  import opened Overdraft
  import opened Progress
  import opened Completion

  const WORKER: nat := 1

  // -------------------------------------------------------- one search, alone

  /** Search 0 is the only one, and is published. */
  ghost predicate OnlySearch(s: State, plan: Plan) {
    s.requests == [plan] && 0 in s.master.sessions
  }

  lemma {:induction false} AllOwn(tasks: seq<Task>, sid: nat)
    requires forall i :: 0 <= i < |tasks| ==> tasks[i].searchId == sid
    ensures |TasksOf(tasks, sid)| == |tasks|
    decreases |tasks|
  {
    if tasks != [] {
      var init, last := SplitLast(tasks);
      AllOwn(init, sid);
      TasksAppend(init, last, sid);
    }
  }

  lemma OnlySession(w: World, s: State, plan: Plan)
    requires SearchesOk(w, s) && OnlySearch(s, plan)
    ensures forall sid: nat :: sid in s.master.sessions ==> sid == 0
  {
  }

  lemma OnlyFlight(w: World, s: State, plan: Plan)
    requires SearchesOk(w, s) && Known(s) && Mirrors(s.master, s.sent) && FlightIndexed(s.master) && OnlySearch(s, plan)
    ensures Entries(s.master) == FlightEntries(s.master, 0)
  {
    OnlySession(w, s, plan);
    forall c: nat, id: nat
      ensures (c, id) in Entries(s.master) <==> (c, id) in FlightEntries(s.master, 0)
    {
      MemberEntries(s.master, c, id);
      if InFlightAt(s.master, c, id) {
        FlightIsLive(s, c, id);
      }
    }
  }

  /** Between handlers, what is not unanswered is counted. */
  lemma CountedIsAnswered(w: World, s: State, plan: Plan)
    requires Inv(w, s) && OnlySearch(s, plan) && Quiet(s)
    ensures |TasksOf(s.counted, 0)| + Unanswered(s.master) == |PlanTasks(w, plan, 0)|
  {
    CountedBalance(w, s, 0);
    QuietHoldsNothing(s, 0);
    OnlySession(w, s, plan);
    AllOwn(s.master.pending, 0);
    OnlyFlight(w, s, plan);
    FlightCount(s, 0);
  }

  // ------------------------------------------------------------ answering on

  /** Tasks are answered until `left` are not. */
  lemma {:induction false} AnswerUntil(w: World, before: seq<State>, left: nat) returns (trace: seq<State>)
    requires WorldFits(w) && IsRun(w, before) && before[0] == START && Served(before[|before| - 1], WORKER)
    requires left <= Unanswered(before[|before| - 1].master)
    ensures IsRun(w, trace) && before <= trace && Served(trace[|trace| - 1], WORKER)
    ensures SameParties(before[|before| - 1], trace[|trace| - 1]) && Unanswered(trace[|trace| - 1].master) == left
    decreases Unanswered(before[|before| - 1].master)
  {
    if left == Unanswered(before[|before| - 1].master) {
      trace := before;
    } else {
      var client, id := SomeTask(w, before, WORKER);
      trace := AnswerOne(w, before, WORKER, client, id);
      trace := AnswerUntil(w, trace, left);
    }
  }

  // --------------------------------------------------------- up to the counter

  /** A handler is about to count a chunk of search 0, whose counter is `done`. */
  ghost predicate CountingAt(s: State, i: nat, done: int) {
    && i < |s.threads| && s.threads[i].Counting? && s.threads[i].task.searchId == 0
    && 0 in s.master.sessions && s.master.sessions[0].chunksDone == done
  }

  lemma WriteToCount(w: World, move: State -> State, s: State, i: nat, done: int)
    requires Moves(w, move, i) && i < |s.threads| && s.threads[i].Writing? && s.threads[i].task.searchId == 0
    requires 0 in s.master.sessions && s.master.sessions[0].chunksDone == done
    ensures CountingAt(Iterate(move, s, 1), i, done)
  {
    var one := WriteStep(w, move, s, i);
    assert one.threads[i] == Counting(s.threads[i].task);
  }

  lemma WriteStep(w: World, move: State -> State, s: State, i: nat) returns (one: State)
    requires Moves(w, move, i) && i < |s.threads| && s.threads[i].Writing?
    ensures one == Iterate(move, s, 1) == StepWrite(s, i, s.threads[i].task, s.threads[i].lines)
  {
    one := move(s);
    OneStep(move, s);
    assert Moved(w, s, i, one);
    assert StepThread(w, s, i) == StepWrite(s, i, s.threads[i].task, s.threads[i].lines);
  }

  lemma AggregateKeepsCount(s: State, i: nat, task: Task, body: Bytes)
    requires i < |s.threads| && s.threads[i] == Aggregating(task, body) && task.searchId == 0 && 0 in s.master.sessions
    ensures
      var one := StepAggregate(s, i, task, body);
      && |one.threads| == |s.threads| && (one.threads[i].Writing? || one.threads[i].Counting?)
      && one.threads[i].task == task && 0 in one.master.sessions
      && one.master.sessions[0].chunksDone == s.master.sessions[0].chunksDone
  {
  }

  lemma AggregateToCount(w: World, move: State -> State, s: State, i: nat, done: int) returns (n: nat)
    requires Moves(w, move, i) && i < |s.threads| && s.threads[i].Aggregating? && s.threads[i].task.searchId == 0
    requires 0 in s.master.sessions && s.master.sessions[0].chunksDone == done
    ensures CountingAt(Iterate(move, s, n), i, done)
  {
    var one := AggregateStep(w, move, s, i, s.threads[i].task, s.threads[i].body);
    AggregateKeepsCount(s, i, s.threads[i].task, s.threads[i].body);
    n := 1;
    if one.threads[i].Writing? {
      WriteToCount(w, move, one, i, done);
      IterateAdds(move, s, 1, 1);
      n := 2;
    }
  }

  lemma RedispatchToCount(w: World, move: State -> State, s: State, i: nat, done: int) returns (n: nat)
    requires Moves(w, move, i) && i < |s.threads| && s.threads[i].Redispatching? && s.threads[i].task.searchId == 0
    requires 0 in s.master.sessions && s.master.sessions[0].chunksDone == done
    ensures CountingAt(Iterate(move, s, n), i, done)
  {
    var pc := s.threads[i];
    var one := RedispatchStep(w, move, s, i, pc.client, pc.task, pc.body);
    var rest := AggregateToCount(w, move, one, i, done);
    IterateAdds(move, s, 1, rest);
    n := 1 + rest;
  }

  /** What a claimed reply changes that matters here. */
  lemma ReplyThread(s: State, client: nat, id: nat, body: Bytes)
    requires InFlightAt(s.master, client, id) && PopTaskId(body).Some? && PopTaskId(body).value.0 == id
    ensures
      var s' := ApplyTaskDone(s, client, body);
      && s'.threads == s.threads + [Redispatching(client, s.master.inFlight[client][id], PopTaskId(body).value.1)]
      && s'.master.sessions == s.master.sessions
  {
  }

  lemma OnlyTasks(w: World, before: seq<State>, plan: Plan, client: nat, id: nat)
    requires WorldFits(w) && IsRun(w, before) && before[0] == START
    requires OnlySearch(before[|before| - 1], plan) && InFlightAt(before[|before| - 1].master, client, id)
    ensures before[|before| - 1].master.inFlight[client][id].searchId == 0
  {
    var s := before[|before| - 1];
    InvAlways(w, before, |before| - 1);
    OnlySession(w, s, plan);
    FlightIsLive(s, client, id);
  }

  /** The next reply is taken as far as the counter. */
  lemma AlmostCounted(w: World, before: seq<State>, plan: Plan, client: nat, id: nat) returns (trace: seq<State>, i: nat)
    requires WorldFits(w) && IsRun(w, before) && before[0] == START && before[|before| - 1].master.nextTaskId < U64
    requires OnlySearch(before[|before| - 1], plan) && InFlightAt(before[|before| - 1].master, client, id)
    ensures IsRun(w, trace) && before <= trace
    ensures CountingAt(trace[|trace| - 1], i, before[|before| - 1].master.sessions[0].chunksDone)
  {
    var s := before[|before| - 1];
    OnlyTasks(w, before, plan, client, id);
    var body := AnswerInRun(w, before, client, id);
    ReplyThread(s, client, id, body);
    var claimed := Extend(w, before, TaskDone(client, body));
    i := |s.threads|;
    var move := SomeMover(w, i);
    var n := RedispatchToCount(w, move, ApplyTaskDone(s, client, body), i, s.master.sessions[0].chunksDone);
    trace := MovesAreRun(w, move, claimed, i, n);
  }

  // ---------------------------------------------------------------- the run

  /** The search is published while there is no worker. */
  lemma Published(w: World, plan: Plan) returns (trace: seq<State>)
    requires NamesValid(plan.names) && plan.maxResults < U64 && !Refused(w, plan)
    ensures IsRun(w, trace) && trace[0] == START && OnlySearch(trace[|trace| - 1], plan)
    ensures
      var s := trace[|trace| - 1];
      && s.threads == [Finished] && s.used == {} && s.master.inFlight == map[] && s.master.freeSlots == map[]
      && s.master.pending == PlanTasks(w, plan, 0) && s.master.nextTaskId == 0
  {
    trace := Extend(w, [START], Event.StartSearch(plan));
    var s := trace[|trace| - 1];
    assert s.threads == [Publishing(0)] && s.requests == [plan];
    trace := Extend(w, trace, Step(0));
    s := trace[|trace| - 1];
    assert s.threads == [Assigning] && s.master.pending == [] + PlanTasks(w, plan, 0) && s.master.idle == [];
    trace := Extend(w, trace, Step(0));
  }

  lemma OneGiven(m: Master, threads: nat)
    requires Indexed(m) && WORKER !in m.freeSlots && WORKER !in m.idle
    ensures
      var r := GiveUpTo(Register(m, WORKER, threads), WORKER, 1);
      && Unanswered(r) == Unanswered(m) && r.nextTaskId + |r.pending| == m.nextTaskId + |m.pending|
      && WORKER in r.freeSlots && r.sessions == m.sessions
  {
    var registered := Register(m, WORKER, threads);
    RegisterKeeps(m, WORKER, threads);
    DispatchEntries(registered, WORKER);
    assert Entries(registered) == Entries(m);
    assert GiveUpTo(registered, WORKER, 1) == Dispatch(registered, WORKER).0;
  }

  /** Then a worker with one thread joins. */
  lemma Joined(w: World, plan: Plan) returns (trace: seq<State>)
    requires WorldFits(w) && NamesValid(plan.names) && plan.maxResults < U64 && !Refused(w, plan)
    requires |PlanTasks(w, plan, 0)| < U64
    ensures IsRun(w, trace) && trace[0] == START && OnlySearch(trace[|trace| - 1], plan)
    ensures Served(trace[|trace| - 1], WORKER)
    ensures Unanswered(trace[|trace| - 1].master) == |PlanTasks(w, plan, 0)|
  {
    var before := Published(w, plan);
    var s := before[|before| - 1];
    NobodyThere(w, before);
    OneGiven(s.master, 1);
    trace := HelloIsRun(w, before, WORKER, 1);
  }

  lemma NobodyThere(w: World, before: seq<State>)
    requires IsRun(w, before) && before[0] == START && before[|before| - 1].used == {}
    ensures Indexed(before[|before| - 1].master) && WORKER !in before[|before| - 1].master.freeSlots
    ensures WORKER !in before[|before| - 1].master.idle
    ensures before[|before| - 1].master.inFlight == map[] ==>
      Unanswered(before[|before| - 1].master) == |before[|before| - 1].master.pending|
  {
    WorkersAt(w, before, |before| - 1);
    if before[|before| - 1].master.inFlight == map[] {
      assert Entries(before[|before| - 1].master) == {};
    }
  }

  /** Every search of 2^31 chunks and more has a run in which the counter of
      finished chunks holds the largest `int` and is about to be incremented. */
  lemma CounterOverflows(w: World, plan: Plan) returns (trace: seq<State>, i: nat)
    requires WorldFits(w) && NamesValid(plan.names) && plan.maxResults < U64
    requires INT32_MAX < |PlanTasks(w, plan, 0)| < U64
    ensures IsRun(w, trace) && trace[0] == START && CountingAt(trace[|trace| - 1], i, INT32_MAX)
  {
    trace := Joined(w, plan);
    trace := CountUp(w, trace, plan);
    var client, id := SomeTask(w, trace, WORKER);
    trace, i := AlmostCounted(w, trace, plan, client, id);
  }

  lemma CountUp(w: World, before: seq<State>, plan: Plan) returns (trace: seq<State>)
    requires WorldFits(w) && IsRun(w, before) && before[0] == START && Served(before[|before| - 1], WORKER)
    requires OnlySearch(before[|before| - 1], plan)
    requires Unanswered(before[|before| - 1].master) == |PlanTasks(w, plan, 0)| > INT32_MAX
    ensures IsRun(w, trace) && before <= trace && Served(trace[|trace| - 1], WORKER)
    ensures OnlySearch(trace[|trace| - 1], plan) && Unanswered(trace[|trace| - 1].master) > 0
    ensures trace[|trace| - 1].master.sessions[0].chunksDone == INT32_MAX
  {
    trace := AnswerUntil(w, before, |PlanTasks(w, plan, 0)| - INT32_MAX);
    SessionStays(w, before, trace, 0);
    CountedNow(w, trace, plan);
  }

  /** The counter shows what was answered. */
  lemma CountedNow(w: World, trace: seq<State>, plan: Plan)
    requires WorldFits(w) && IsRun(w, trace) && trace[0] == START && Quiet(trace[|trace| - 1])
    requires OnlySearch(trace[|trace| - 1], plan)
    ensures Unanswered(trace[|trace| - 1].master) <= |PlanTasks(w, plan, 0)|
    ensures trace[|trace| - 1].master.sessions[0].chunksDone ==
      ToInt32(|PlanTasks(w, plan, 0)| - Unanswered(trace[|trace| - 1].master))
  {
    InvAlways(w, trace, |trace| - 1);
    CountedIsAnswered(w, trace[|trace| - 1], plan);
    StatusCounters(w, trace[|trace| - 1], 0);
  }
}
