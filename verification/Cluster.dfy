/** The whole system at lock granularity: any number of handlers run at once,
    one critical section at a time, while Workers answer, vanish and answer
    late. `Apply` is one step; a run is a sequence of events. */
module Cluster {
  import opened Base
  import opened Codec
  import opened LineSearch
  import opened Chunking
  import opened Scheduler

  /** Where a handler stands between two critical sections. A `task` held by a
      `TaskDone` handler stands for the search id that the source keeps. */
  datatype Pc =
    | Publishing(searchId: nat)                                  // StartSearch, before AddPendingTasks
    | Assigning                                                  // AssignIdleWorkers, top of the loop
    | Waking(client: nat, left: nat)                             // AssignIdleWorkers, inner loop
    | Greeting(client: nat, left: nat)                           // Worker_Hello, dispatch loop
    | Redispatching(client: nat, task: Task, body: Bytes)        // TaskDone, claimed
    | Aggregating(task: Task, body: Bytes)                       // TaskDone, before AggregateTaskResult
    | Writing(task: Task, lines: seq<Bytes>)                     // TaskDone, before WriteResults
    | Counting(task: Task)                                       // TaskDone, before ++chunks_done
    | Finished

  /** One dispatched task; `live` until it is claimed or reclaimed. */
  datatype Sent = Sent(client: nat, task: Task, live: bool)

  /** `master` and `output` are the program's; `threads` are its control points.
      The rest is history kept for the proofs: every dispatch in order of task
      id, every request in order of search id, the chunks whose results were
      added and counted, what each worker advertised, and the connection ids
      that have said Hello or gone. */
  datatype State = State(
    master: Master,
    output: map<nat, seq<Bytes>>,
    threads: seq<Pc>,
    sent: seq<Sent>,
    requests: seq<Plan>,
    aggregated: seq<Task>,
    counted: seq<Task>,
    advertised: map<nat, nat>,
    used: set<nat>
  )

  const START := State(INITIAL, map[], [], [], [], [], [], map[], {})

  datatype Event =
    | StartSearch(plan: Plan)
    | Hello(client: nat, threads: nat)
    | TaskDone(client: nat, body: Bytes)
    | Disconnect(client: nat, order: seq<nat>)
    | Step(thread: nat)

  function WithThread(s: State, i: nat, pc: Pc): State
    requires i < |s.threads|
  {
    s.(threads := s.threads[i := pc])
  }

  function NewThread(s: State, pc: Pc): State {
    s.(threads := s.threads + [pc])
  }

  /** `DispatchNextTask` with its entry in the history. */
  function DispatchIn(s: State, client: nat): (State, bool) {
    var (m, task) := Dispatch(s.master, client);
    (s.(master := m, sent := s.sent + if task.Some? then [Sent(client, task.value, true)] else []), task.Some?)
  }

  function Retire(sent: seq<Sent>, id: nat): (r: seq<Sent>)
    ensures |r| == |sent|
  {
    if 1 <= id <= |sent| then sent[id - 1 := sent[id - 1].(live := false)] else sent
  }

  function RetireAll(sent: seq<Sent>, order: seq<nat>): (r: seq<Sent>)
    ensures |r| == |sent|
  {
    if order == [] then sent else Retire(RetireAll(sent, order[..|order| - 1]), order[|order| - 1])
  }

  /** The session that `BuildSession` and the scan prepare. */
  function NewSession(w: World, plan: Plan): Session {
    Session(plan.maxResults, 0, 0, ErrorsFor(w, plan.names), 0, 0)
  }

  function StepPublish(w: World, s: State, i: nat, searchId: nat): State
    requires i < |s.threads| && searchId < |s.requests|
  {
    var plan := s.requests[searchId];
    WithThread(s.(master := AddPendingTasks(s.master, searchId, NewSession(w, plan), PlanTasks(w, plan, searchId)),
                  output := s.output[searchId := []]),
               i, Assigning)
  }

  function StepAssign(s: State, i: nat): State
    requires i < |s.threads|
  {
    var (m, wakeup) := TakeIdle(s.master);
    var pc := match wakeup
      case NoWork => Finished
      case Stale => Assigning
      case Wake(client, slots) => Waking(client, slots);
    WithThread(s.(master := m), i, pc)
  }

  function StepWake(s: State, i: nat, client: nat, left: nat): State
    requires i < |s.threads|
  {
    if left == 0 then WithThread(s, i, Assigning)
    else
      var (s', dispatched) := DispatchIn(s, client);
      WithThread(s', i, if dispatched then Waking(client, left - 1) else Assigning)
  }

  function StepGreet(s: State, i: nat, client: nat, left: nat): State
    requires i < |s.threads|
  {
    if left == 0 then WithThread(s, i, Finished)
    else
      var (s', dispatched) := DispatchIn(s, client);
      WithThread(s', i, if dispatched then Greeting(client, left - 1) else Finished)
  }

  function StepRedispatch(s: State, i: nat, client: nat, task: Task, body: Bytes): State
    requires i < |s.threads|
  {
    WithThread(DispatchIn(s, client).0, i, Aggregating(task, body))
  }

  function StepAggregate(s: State, i: nat, task: Task, body: Bytes): State
    requires i < |s.threads|
  {
    match DecodeBatch(body)
    case Batch(result) =>
      var (m, lines) := Aggregate(s.master, task.searchId, result);
      (match lines
       case None => WithThread(s, i, Counting(task))
       case Some(n) =>
         WithThread(s.(master := m, aggregated := s.aggregated + [Chunk(task)]), i,
                    if n == 0 then Counting(task) else Writing(task, Take(result.lines, n))))
    case _ => WithThread(s, i, Counting(task))
  }

  function StepWrite(s: State, i: nat, task: Task, lines: seq<Bytes>): State
    requires i < |s.threads|
  {
    var before := if task.searchId in s.output then s.output[task.searchId] else [];
    WithThread(s.(output := s.output[task.searchId := before + lines]), i, Counting(task))
  }

  function StepCount(s: State, i: nat, task: Task): State
    requires i < |s.threads|
  {
    WithThread(s.(master := CountChunk(s.master, task.searchId), counted := s.counted + [Chunk(task)]), i, Finished)
  }

  function StepThread(w: World, s: State, i: nat): State
    requires i < |s.threads|
  {
    match s.threads[i]
    case Publishing(searchId) => if searchId < |s.requests| then StepPublish(w, s, i, searchId) else s
    case Assigning => StepAssign(s, i)
    case Waking(client, left) => StepWake(s, i, client, left)
    case Greeting(client, left) => StepGreet(s, i, client, left)
    case Redispatching(client, task, body) => StepRedispatch(s, i, client, task, body)
    case Aggregating(task, body) => StepAggregate(s, i, task, body)
    case Writing(task, lines) => StepWrite(s, i, task, lines)
    case Counting(task) => StepCount(s, i, task)
    case Finished => s
  }

  /** `AllocateSearchId` and the scan, which touches no shared state. */
  function ApplyStart(w: World, s: State, plan: Plan): State {
    var searchId := s.master.nextSearchId;
    var s' := s.(master := s.master.(nextSearchId := searchId + 1), requests := s.requests + [plan]);
    if Refused(w, plan) then s' else NewThread(s', Publishing(searchId))
  }

  function ApplyHello(s: State, client: nat, threads: nat): State {
    NewThread(s.(master := Register(s.master, client, threads),
                 advertised := s.advertised[client := threads],
                 used := s.used + {client}),
              Greeting(client, threads))
  }

  function ApplyTaskDone(s: State, client: nat, body: Bytes): State {
    match PopTaskId(body)
    case None => s
    case Some((id, rest)) =>
      var (m, task) := Claim(s.master, client, id);
      if task.None? then s
      else NewThread(s.(master := m, sent := Retire(s.sent, id)), Redispatching(client, task.value, rest))
  }

  function ApplyDisconnect(s: State, client: nat, order: seq<nat>): State
    requires forall id :: id in order ==> id in Flight(s.master, client)
  {
    NewThread(s.(master := Reclaim(s.master, client, order),
                 sent := RetireAll(s.sent, order),
                 used := s.used + {client}),
              Assigning)
  }

  /** Whoever answers with a task id that was sent to it answers truthfully; any
      other body, from anyone and at any time, is allowed. */
  ghost predicate HonestReply(w: World, s: State, client: nat, body: Bytes) {
    match PopTaskId(body)
    case None => true
    case Some((id, rest)) =>
      1 <= id <= |s.sent| && s.sent[id - 1].client == client ==> body == EncodeBatch(ResultOf(w, s.sent[id - 1].task))
  }

  ghost predicate Enabled(w: World, s: State, e: Event) {
    match e
    case StartSearch(plan) => NamesValid(plan.names) && plan.maxResults < U64 && s.master.nextSearchId < U64
    case Hello(client, threads) => client !in s.used && threads < U64
    case TaskDone(client, body) => HonestReply(w, s, client, body)
    case Disconnect(client, order) => Enumerates(order, Flight(s.master, client))
    case Step(i) => i < |s.threads|
  }

  ghost function Apply(w: World, s: State, e: Event): State
    requires Enabled(w, s, e)
  {
    match e
    case StartSearch(plan) => ApplyStart(w, s, plan)
    case Hello(client, threads) => ApplyHello(s, client, threads)
    case TaskDone(client, body) => ApplyTaskDone(s, client, body)
    case Disconnect(client, order) => ApplyDisconnect(s, client, order)
    case Step(i) => StepThread(w, s, i)
  }

  ghost predicate Next(w: World, s: State, s': State) {
    exists e :: Enabled(w, s, e) && s' == Apply(w, s, e)
  }

  ghost predicate StepAt(w: World, trace: seq<State>, k: nat)
    requires k + 1 < |trace|
  {
    Next(w, trace[k], trace[k + 1])
  }

  /** `trace` is the sequence of states of a run that starts in `trace[0]`. */
  ghost predicate IsRun(w: World, trace: seq<State>) {
    trace != [] && forall k: nat :: k + 1 < |trace| ==> StepAt(w, trace, k)
  }

  /** A run is extended by an event. */
  lemma Extend(w: World, trace: seq<State>, e: Event) returns (longer: seq<State>)
    requires IsRun(w, trace) && Enabled(w, trace[|trace| - 1], e)
    ensures IsRun(w, longer) && trace <= longer && longer[0] == trace[0]
    ensures longer[|longer| - 1] == Apply(w, trace[|trace| - 1], e)
  {
    var last := trace[|trace| - 1];
    longer := trace + [Apply(w, last, e)];
    forall k: nat | k + 1 < |longer| ensures StepAt(w, longer, k) {
      if k + 1 < |trace| {
        assert StepAt(w, trace, k);
      } else {
        assert Next(w, last, Apply(w, last, e));
      }
    }
  }
}
