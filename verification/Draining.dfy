/** Left alone, the system comes to rest: without new requests, workers or losses
    every interleaving of the handlers and the replies ends. */
module Draining {
  import opened Base
  import opened Codec
  import opened LineSearch
  import opened Chunking
  import opened Scheduler
  import opened Bags
  import opened Cluster
  import opened Tables
  import opened Conservation
  import opened EndToEnd
  import opened Results
  import opened History
  import opened Reservations
  import opened Overdraft
  import opened Progress
  import opened Completion

  /** Nothing arrives but replies. */
  predicate Internal(e: Event) {
    e.Step? || e.TaskDone?
  }

  // ----------------------------------------------------------------- measure

  /** Steps a handler has before it, apart from the tasks it sends. */
  function Work(pc: Pc): nat {
    match pc
    case Redispatching(_, _, _) => 4
    case Aggregating(_, _) => 3
    case Writing(_, _) => 2
    case Counting(_) => 1
    case Waking(_, _) => 2
    case Assigning => 1
    case Greeting(_, _) => 1
    case Publishing(_) => 0
    case Finished => 0
  }

  function Publisher(pc: Pc): nat {
    if pc.Publishing? then 1 else 0
  }

  /** Tasks without an answer, tasks not yet sent, requests not yet published, and
      the work of handlers; while a task waits, idlers may still be woken. */
  datatype Rank = Rank(unanswered: nat, unsent: nat, unpublished: nat, work: nat)

  ghost function RankOf(w: World, s: State): Rank {
    var coming := AllToPublish(w, s.requests, s.threads);
    Rank(Unanswered(s.master) + coming, |s.master.pending| + coming, Total(s.threads, Publisher),
         Total(s.threads, Work) + if s.master.pending == [] then 0 else 2 * |s.master.idle|)
  }

  /** Lexicographic order. */
  predicate Less(a: Rank, b: Rank) {
    || a.unanswered < b.unanswered
    || (a.unanswered == b.unanswered && a.unsent < b.unsent)
    || (a.unanswered == b.unanswered && a.unsent == b.unsent && a.unpublished < b.unpublished)
    || (a.unanswered == b.unanswered && a.unsent == b.unsent && a.unpublished == b.unpublished && a.work < b.work)
  }

  lemma LessTransitive(a: Rank, b: Rank, c: Rank)
    requires Less(a, b) && Less(b, c)
    ensures Less(a, c)
  {
  }

  // ----------------------------------------------------- steps that send nothing

  /** The handler gets nearer to its end; the idle queue pays for being woken. */
  ghost predicate Turns(s: State, s': State, i: nat)
    requires i < |s.threads|
  {
    && |s'.threads| == |s.threads| && s'.threads == s.threads[i := s'.threads[i]]
    && !s.threads[i].Publishing? && !s'.threads[i].Publishing?
    && s'.requests == s.requests && s'.master.pending == s.master.pending && s'.master.inFlight == s.master.inFlight
    && (if s.master.pending == [] then Work(s'.threads[i]) < Work(s.threads[i])
        else 2 * |s'.master.idle| + Work(s'.threads[i]) < 2 * |s.master.idle| + Work(s.threads[i]))
  }

  lemma TurnsLess(w: World, s: State, s': State, i: nat)
    requires i < |s.threads| && Turns(s, s', i)
    ensures Less(RankOf(w, s'), RankOf(w, s))
  {
    var pc := s'.threads[i];
    ToPublishUpdate(w, s.requests, s.threads, i, pc);
    TotalUpdate(s.threads, i, pc, Publisher);
    TotalUpdate(s.threads, i, pc, Work);
    assert Entries(s'.master) == Entries(s.master);
  }

  lemma LoopTurns(w: World, s: State, i: nat)
    requires i < |s.threads| && (s.threads[i].Waking? || s.threads[i].Greeting?)
    requires s.threads[i].left == 0 || Dispatch(s.master, s.threads[i].client).1.None?
    ensures Turns(s, StepThread(w, s, i), i)
  {
    match s.threads[i]
    case Waking(client, left) => assert StepThread(w, s, i) == StepWake(s, i, client, left);
    case Greeting(client, left) => assert StepThread(w, s, i) == StepGreet(s, i, client, left);
  }

  lemma AssignTurns(w: World, s: State, i: nat)
    requires i < |s.threads| && s.threads[i].Assigning?
    ensures Turns(s, StepThread(w, s, i), i)
  {
    assert StepThread(w, s, i) == StepAssign(s, i);
  }

  lemma RedispatchTurns(w: World, s: State, i: nat)
    requires i < |s.threads| && s.threads[i].Redispatching? && Dispatch(s.master, s.threads[i].client).1.None?
    ensures Turns(s, StepThread(w, s, i), i)
  {
    assert StepThread(w, s, i) == StepRedispatch(s, i, s.threads[i].client, s.threads[i].task, s.threads[i].body);
  }

  lemma AggregateTurns(w: World, s: State, i: nat)
    requires i < |s.threads| && s.threads[i].Aggregating?
    ensures Turns(s, StepThread(w, s, i), i)
  {
    assert StepThread(w, s, i) == StepAggregate(s, i, s.threads[i].task, s.threads[i].body);
  }

  lemma EndTurns(w: World, s: State, i: nat)
    requires i < |s.threads| && (s.threads[i].Writing? || s.threads[i].Counting?)
    ensures Turns(s, StepThread(w, s, i), i)
  {
    match s.threads[i]
    case Writing(task, lines) => assert StepThread(w, s, i) == StepWrite(s, i, task, lines);
    case Counting(task) => assert StepThread(w, s, i) == StepCount(s, i, task);
  }

  // ------------------------------------------------- steps that send or publish

  lemma SendLess(w: World, s: State, i: nat)
    requires FlightIndexed(s.master) && i < |s.threads| && SendsTo(s.threads[i]).Some?
    requires Dispatch(s.master, SendsTo(s.threads[i]).value).1.Some?
    ensures Less(RankOf(w, StepThread(w, s, i)), RankOf(w, s))
  {
    var s' := StepThread(w, s, i);
    SendStep(w, s, i);
    StepMovesOneThread(w, s, i);
    ToPublishUpdate(w, s.requests, s.threads, i, s'.threads[i]);
    DispatchEntries(s.master, SendsTo(s.threads[i]).value);
  }

  lemma PublishLess(w: World, s: State, i: nat)
    requires i < |s.threads| && s.threads[i].Publishing? && s.threads[i].searchId < |s.requests|
    ensures Less(RankOf(w, StepThread(w, s, i)), RankOf(w, s))
  {
    var s' := StepThread(w, s, i);
    assert s' == StepPublish(w, s, i, s.threads[i].searchId);
    ToPublishUpdate(w, s.requests, s.threads, i, Assigning);
    TotalUpdate(s.threads, i, Assigning, Publisher);
    assert Entries(s'.master) == Entries(s.master);
  }

  lemma StepLess(w: World, s: State, i: nat)
    requires FlightIndexed(s.master) && i < |s.threads|
    ensures StepThread(w, s, i) == s || Less(RankOf(w, StepThread(w, s, i)), RankOf(w, s))
  {
    var pc, s' := s.threads[i], StepThread(w, s, i);
    if SendsTo(pc).Some? && Dispatch(s.master, SendsTo(pc).value).1.Some? {
      SendLess(w, s, i);
    } else if pc.Publishing? {
      if pc.searchId < |s.requests| {
        PublishLess(w, s, i);
      }
    } else if !pc.Finished? {
      if pc.Waking? || pc.Greeting? {
        LoopTurns(w, s, i);
      } else if pc.Assigning? {
        AssignTurns(w, s, i);
      } else if pc.Redispatching? {
        RedispatchTurns(w, s, i);
      } else if pc.Aggregating? {
        AggregateTurns(w, s, i);
      } else {
        EndTurns(w, s, i);
      }
      TurnsLess(w, s, s', i);
    }
  }

  lemma ReplyLess(w: World, s: State, client: nat, body: Bytes)
    requires FlightIndexed(s.master)
    ensures
      var s' := ApplyTaskDone(s, client, body);
      s' == s || Less(RankOf(w, s'), RankOf(w, s))
  {
    if PopTaskId(body).Some? && InFlightAt(s.master, client, PopTaskId(body).value.0) {
      var (id, rest) := PopTaskId(body).value;
      ClaimEntries(s.master, client, id);
      ToPublishAppend(w, s.requests, s.threads, Redispatching(client, s.master.inFlight[client][id], rest));
    }
  }

  /** Every step without arrivals leaves the state as it is or lowers its rank. */
  lemma StepsDescend(w: World, s: State, e: Event)
    requires FlightIndexed(s.master) && Enabled(w, s, e) && Internal(e)
    ensures Apply(w, s, e) == s || Less(RankOf(w, Apply(w, s, e)), RankOf(w, s))
  {
    match e
    case Step(i) => StepLess(w, s, i);
    case TaskDone(client, body) => ReplyLess(w, s, client, body);
  }

  // ------------------------------------------------------------- infinite runs

  ghost predicate InternalNext(w: World, s: State, s': State) {
    exists e :: Internal(e) && Enabled(w, s, e) && s' == Apply(w, s, e)
  }

  ghost predicate StepOf(w: World, run: nat -> State, k: nat) {
    InternalNext(w, run(k), run(k + 1))
  }

  /** A run that never ends, from a state in which the tables are in order. */
  ghost predicate Endless(w: World, run: nat -> State) {
    WorkersOk(run(0)) && forall k: nat :: StepOf(w, run, k)
  }

  ghost predicate NoHigher(w: World, s': State, s: State) {
    s' == s || Less(RankOf(w, s'), RankOf(w, s))
  }

  lemma Lowered(w: World, a: State, b: State, c: State)
    requires NoHigher(w, b, a) && NoHigher(w, c, b)
    ensures NoHigher(w, c, a)
  {
    if c != b && b != a {
      LessTransitive(RankOf(w, c), RankOf(w, b), RankOf(w, a));
    }
  }

  lemma InternalStep(w: World, s: State, s': State)
    requires WorkersOk(s) && InternalNext(w, s, s')
    ensures WorkersOk(s') && NoHigher(w, s', s)
  {
    var e :| Internal(e) && Enabled(w, s, e) && s' == Apply(w, s, e);
    WorkersNext(w, s, e);
    StepsDescend(w, s, e);
  }

  lemma EndlessStep(w: World, run: nat -> State, k: nat)
    requires Endless(w, run) && WorkersOk(run(k))
    ensures WorkersOk(run(k + 1)) && NoHigher(w, run(k + 1), run(k))
  {
    assert StepOf(w, run, k);
    InternalStep(w, run(k), run(k + 1));
  }

  lemma {:induction false} EndlessWorkers(w: World, run: nat -> State, k: nat)
    requires Endless(w, run)
    ensures WorkersOk(run(k))
    decreases k
  {
    if k > 0 {
      EndlessWorkers(w, run, k - 1);
      EndlessStep(w, run, k - 1);
    }
  }

  predicate Linked(run: nat -> State, rel: (State, State) -> bool, k: nat) {
    rel(run(k + 1), run(k))
  }

  predicate Links(rel: (State, State) -> bool, a: State, b: State, c: State) {
    rel(b, a) && rel(c, b) ==> rel(c, a)
  }

  /** What relates neighbours of a sequence relates all. */
  lemma {:induction false} Chain(run: nat -> State, rel: (State, State) -> bool, j: nat, k: nat)
    requires j <= k && rel(run(j), run(j))
    requires forall i: nat :: Linked(run, rel, i)
    requires forall a, b, c :: Links(rel, a, b, c)
    ensures rel(run(k), run(j))
    decreases k
  {
    if j < k {
      Chain(run, rel, j, k - 1);
      assert Linked(run, rel, k - 1) && Links(rel, run(j), run(k - 1), run(k));
    }
  }

  lemma EndlessDescends(w: World, run: nat -> State, j: nat, k: nat)
    requires Endless(w, run) && j <= k
    ensures NoHigher(w, run(k), run(j))
  {
    var rel := (s': State, s: State) => NoHigher(w, s', s);
    forall i: nat ensures Linked(run, rel, i) {
      EndlessWorkers(w, run, i);
      EndlessStep(w, run, i);
    }
    forall a, b, c ensures Links(rel, a, b, c) {
      if NoHigher(w, b, a) && NoHigher(w, c, b) {
        Lowered(w, a, b, c);
      }
    }
    Chain(run, rel, j, k);
  }

  ghost predicate StillFrom(run: nat -> State, n: nat) {
    forall k: nat :: n <= k ==> run(k) == run(n)
  }

  /** Whatever the interleaving of handlers and replies, without arrivals the state
      changes only finitely often: `AssignIdleWorkers` and every other loop end. */
  lemma {:induction false} ComesToRest(w: World, run: nat -> State, j: nat) returns (n: nat)
    requires Endless(w, run)
    ensures j <= n && StillFrom(run, n)
    decreases RankOf(w, run(j)).unanswered, RankOf(w, run(j)).unsent, RankOf(w, run(j)).unpublished, RankOf(w, run(j)).work
  {
    if StillFrom(run, j) {
      n := j;
    } else {
      var k: nat :| j <= k && run(k) != run(j);
      EndlessDescends(w, run, j, k);
      n := ComesToRest(w, run, k);
    }
  }

  // -------------------------------------------------------------------- at rest

  /** Nothing that can happen without arrivals changes the state any more. */
  ghost predicate AtRest(w: World, s: State) {
    forall e :: Internal(e) && Enabled(w, s, e) ==> Apply(w, s, e) == s
  }

  lemma RestIsQuiet(w: World, s: State)
    requires FlightIndexed(s.master) && SearchesOk(w, s) && AtRest(w, s)
    ensures Quiet(s)
  {
    forall i: nat | i < |s.threads| ensures s.threads[i] == Finished {
      RestStays(w, s, Step(i));
      MovesOn(w, s, i);
    }
  }

  /** A handler that has not finished can always move. */
  lemma MovesOn(w: World, s: State, i: nat)
    requires FlightIndexed(s.master) && SearchesOk(w, s) && i < |s.threads|
    ensures s.threads[i] != Finished ==> StepThread(w, s, i) != s
  {
    var pc, s' := s.threads[i], StepThread(w, s, i);
    if SendsTo(pc).Some? && Dispatch(s.master, SendsTo(pc).value).1.Some? {
      SendLess(w, s, i);
    } else if pc.Publishing? {
      PublishLess(w, s, i);
    } else if pc.Waking? || pc.Greeting? {
      LoopTurns(w, s, i);
    } else if pc.Assigning? {
      AssignTurns(w, s, i);
    } else if pc.Redispatching? {
      RedispatchTurns(w, s, i);
    } else if pc.Aggregating? {
      AggregateTurns(w, s, i);
    } else if !pc.Finished? {
      EndTurns(w, s, i);
    }
  }

  lemma RestStays(w: World, s: State, e: Event)
    requires AtRest(w, s) && Internal(e) && Enabled(w, s, e)
    ensures Apply(w, s, e) == s
  {
  }

  lemma AcceptedMoves(s: State, client: nat, body: Bytes)
    requires PopTaskId(body).Some? && InFlightAt(s.master, client, PopTaskId(body).value.0)
    ensures ApplyTaskDone(s, client, body) != s
  {
    assert |ApplyTaskDone(s, client, body).threads| == |s.threads| + 1;
  }

  /** Nothing is in flight at rest: its worker could still answer. */
  lemma RestHasNoFlight(w: World, trace: seq<State>, client: nat, id: nat)
    requires WorldFits(w) && IsRun(w, trace) && trace[0] == START && AtRest(w, trace[|trace| - 1])
    requires trace[|trace| - 1].master.nextTaskId < U64
    ensures !InFlightAt(trace[|trace| - 1].master, client, id)
  {
    var s := trace[|trace| - 1];
    if InFlightAt(s.master, client, id) {
      var body := AnswerInRun(w, trace, client, id);
      RestStays(w, s, TaskDone(client, body));
      AcceptedMoves(s, client, body);
    }
  }

  /** A run that has come to rest while a registered worker has a thread has
      finished every search that `int` can count. */
  lemma RestMeansDone(w: World, trace: seq<State>, sid: nat, c: nat)
    requires WorldFits(w) && IsRun(w, trace) && trace[0] == START && AtRest(w, trace[|trace| - 1])
    requires trace[|trace| - 1].master.nextTaskId < U64 && CanServe(w, trace[|trace| - 1], sid, c)
    ensures Quiet(trace[|trace| - 1]) && Unanswered(trace[|trace| - 1].master) == 0
    ensures IsDone(trace[|trace| - 1], sid)
  {
    var s, last := trace[|trace| - 1], |trace| - 1;
    InvAlways(w, trace, last);
    RestIsQuiet(w, s);
    NoFlightNoEntries(w, trace);
    if s.master.pending != [] {
      WaitingMeansBusy(w, trace, last, c);
      var id := SomeFlight(s.master, c);
      RestHasNoFlight(w, trace, c, id);
    }
    DoneAtLast(w, trace, sid);
  }

  lemma NoFlightNoEntries(w: World, trace: seq<State>)
    requires WorldFits(w) && IsRun(w, trace) && trace[0] == START && AtRest(w, trace[|trace| - 1])
    requires trace[|trace| - 1].master.nextTaskId < U64
    ensures Entries(trace[|trace| - 1].master) == {}
  {
    var m := trace[|trace| - 1].master;
    if Entries(m) != {} {
      var entry :| entry in Entries(m);
      RestHasNoFlight(w, trace, entry.0, entry.1);
    }
  }
}
