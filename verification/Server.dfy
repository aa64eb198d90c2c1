/** `MasterServer` at handler granularity: each handler runs to completion. Its
    critical sections are the functions of `Scheduler`; its invariant adds
    capacity and work conservation, which do not hold between them. */
module Server {
  import opened Base
  import opened Codec
  import opened LineSearch
  import opened Chunking
  import opened Scheduler
  import opened Capacity
  import opened Handlers
  import Cluster

  /** Registered and queued ids have said Hello. */
  ghost predicate Greeted(m: Master, used: set<nat>) {
    (forall c: nat :: c in m.freeSlots ==> c in used) && (forall c: nat :: c in m.idle ==> c in used)
  }

  /** Tables in order, no counter wrapped, and every registered worker with a
      free slot in the idle queue. */
  ghost predicate Steady(m: Master, advertised: map<nat, nat>, used: set<nat>) {
    Indexed(m) && Exact(m, advertised) && Greeted(m, used) && Covered(m, {})
  }

  /** Freeing a slot and refilling it at once keeps capacity and saturation. */
  lemma ClaimThenDispatch(m: Master, client: nat, id: nat, advertised: map<nat, nat>, used: set<nat>)
    requires Steady(m, advertised, used) && Saturated(m, {})
    ensures InFlightAt(m, client, id) ==>
      var m' := Dispatch(Claim(m, client, id).0, client).0;
      Steady(m', advertised, used) && Saturated(m', {})
  {
    if InFlightAt(m, client, id) {
      var claimed := Claim(m, client, id).0;
      ClaimKeeps(m, client, id);
      ClaimExact(m, client, id, advertised);
      ClaimExactSlots(m, client, id, advertised);
      var left := m.freeSlots[client] + 1;
      assert Covered(claimed, {client}) && Saturated(claimed, {client});
      if m.pending != [] {
        HandOne(claimed, advertised, client, left);
        assert m.freeSlots[client] == 0;
        NoSlotNoCover(Dispatch(claimed, client).0, client);
      } else {
        HandNone(claimed, advertised, client, left);
      }
    }
  }

  lemma ReclaimSteady(m: Master, client: nat, order: seq<nat>, advertised: map<nat, nat>, used: set<nat>)
    requires Steady(m, advertised, used) && forall id :: id in order ==> id in Flight(m, client)
    ensures Steady(Reclaim(m, client, order), advertised, used + {client})
  {
    ReclaimKeeps(m, client, order);
    ReclaimExact(m, client, order, advertised);
    SteadyMore(Reclaim(m, client, order), advertised, used, client);
  }

  /** `OnClientDisconnect` as a whole. */
  lemma DisconnectSteady(m: Master, client: nat, order: seq<nat>, advertised: map<nat, nat>, used: set<nat>)
    requires Steady(m, advertised, used) && forall id :: id in order ==> id in Flight(m, client)
    ensures
      var r := AssignAll(Reclaim(m, client, order));
      Steady(r, advertised, used + {client}) && Saturated(r, {})
  {
    ReclaimSteady(m, client, order, advertised, used);
    AssignAllSteady(Reclaim(m, client, order), advertised, used + {client});
  }

  lemma SteadyMore(m: Master, advertised: map<nat, nat>, used: set<nat>, client: nat)
    requires Steady(m, advertised, used)
    ensures Steady(m, advertised, used + {client})
  {
  }

  /** Steps that leave the scheduling tables alone. */
  ghost predicate SameTables(m: Master, m': Master) {
    && m'.inFlight == m.inFlight && m'.freeSlots == m.freeSlots && m'.nextTaskId == m.nextTaskId
    && m'.idle == m.idle && m'.idleIds == m.idleIds
  }

  lemma SameTablesSteady(m: Master, m': Master, advertised: map<nat, nat>, used: set<nat>)
    requires SameTables(m, m') && Steady(m, advertised, used)
    ensures Steady(m', advertised, used)
    ensures m'.pending == m.pending && Saturated(m, {}) ==> Saturated(m', {})
  {
    KeepsFlight(m, m');
    assert forall c: nat :: Flight(m', c) == Flight(m, c);
  }

  lemma CompleteSteady(m: Master, output: map<nat, seq<Bytes>>, task: Task, body: Bytes,
                       advertised: map<nat, nat>, used: set<nat>)
    requires Steady(m, advertised, used) && Saturated(m, {})
    ensures
      var m' := Complete(m, output, task, body).0;
      Steady(m', advertised, used) && Saturated(m', {})
  {
    CompleteLeaves(m, output, task, body);
    var m' :| m' == Complete(m, output, task, body).0;
    SameTablesSteady(m, m', advertised, used);
  }

  lemma TakeIdleSteady(m: Master, advertised: map<nat, nat>, used: set<nat>)
    requires Steady(m, advertised, used)
    ensures
      var (m', wakeup) := TakeIdle(m);
      match wakeup
      case NoWork => m' == m && Saturated(m, {})
      case Stale => Steady(m', advertised, used) && |m'.idle| < |m.idle| && m'.pending == m.pending
      case Wake(client, slots) =>
        && Ready(m', advertised, used, client, slots, false)
        && |m'.idle| < |m.idle| && m'.pending == m.pending
  {
    TakeIdleKeeps(m);
    TakeIdleCovers(m);
    if TakeIdle(m).1.NoWork? {
      EmptyQueueSaturates(m);
    }
    TakeIdleExact(m, advertised, used);
  }

  lemma TakeIdleExact(m: Master, advertised: map<nat, nat>, used: set<nat>)
    requires Exact(m, advertised) && Greeted(m, used)
    ensures Exact(TakeIdle(m).0, advertised) && Greeted(TakeIdle(m).0, used)
  {
    assert forall c: nat :: Flight(TakeIdle(m).0, c) == Flight(m, c);
  }

  /** A worker with `count` free slots is being handed tasks; others without
      work to do were busy when this began, if `busy`. */
  ghost predicate Ready(m: Master, advertised: map<nat, nat>, used: set<nat>, client: nat, count: nat, busy: bool) {
    Handing(m, advertised, client, count) && Greeted(m, used) && (busy ==> Saturated(m, {client}))
  }

  /** The worker has them: it is full, or in the idle queue with nothing waiting. */
  ghost predicate HandedOut(m: Master, advertised: map<nat, nat>, used: set<nat>, client: nat, busy: bool) {
    Steady(m, advertised, used) && client in m.freeSlots && (busy ==> Saturated(m, {}))
  }

  lemma GiveKeepsReady(m: Master, advertised: map<nat, nat>, used: set<nat>, client: nat, count: nat, busy: bool)
    requires Ready(m, advertised, used, client, count, busy)
    ensures count == 0 ==> HandedOut(m, advertised, used, client, busy)
    ensures
      var (m', sent) := Dispatch(m, client);
      count > 0 ==>
        if sent.Some? then Ready(m', advertised, used, client, count - 1, busy)
        else HandedOut(m', advertised, used, client, busy)
  {
    if count == 0 {
      NoSlotNoCover(m, client);
    } else if m.pending == [] {
      HandNone(m, advertised, client, count);
    } else {
      HandOne(m, advertised, client, count);
    }
  }

  /** Handing a worker exactly as many tasks as it has free slots leaves it full,
      or idle in the queue with nothing left to do. */
  lemma GiveUpToSteady(m: Master, advertised: map<nat, nat>, used: set<nat>, client: nat, count: nat, busy: bool)
    requires Ready(m, advertised, used, client, count, busy)
    ensures HandedOut(GiveUpTo(m, client, count), advertised, used, client, busy)
  {
    var ready := (m: Master, left: nat) => Ready(m, advertised, used, client, left, busy);
    var out := (m: Master) => HandedOut(m, advertised, used, client, busy);
    forall m: Master, left: nat | ready(m, left)
      ensures GiveRule(m, client, left, ready, out)
    {
      GiveKeepsReady(m, advertised, used, client, left, busy);
    }
    GiveUpToKeeps(m, client, count, ready, out);
  }

  /** The same, for both kinds of callers of the loop. */
  lemma DispatchedSteady(m: Master, advertised: map<nat, nat>, used: set<nat>, client: nat, count: nat)
    ensures Handing(m, advertised, client, count) && Greeted(m, used) ==>
      var r := GiveUpTo(m, client, count);
      && Steady(r, advertised, used) && client in r.freeSlots
      && (Saturated(m, {client}) ==> Saturated(r, {}))
  {
    if Handing(m, advertised, client, count) && Greeted(m, used) {
      GiveUpToSteady(m, advertised, used, client, count, Saturated(m, {client}));
    }
  }

  /** Work conservation: whatever waits, no registered worker has a free slot
      once the idle workers have been woken. */
  lemma {:induction false} AssignAllSteady(m: Master, advertised: map<nat, nat>, used: set<nat>)
    requires Steady(m, advertised, used)
    ensures Steady(AssignAll(m), advertised, used) && Saturated(AssignAll(m), {})
    decreases |m.pending|, |m.idle|
  {
    var (m', wakeup) := TakeIdle(m);
    TakeIdleSteady(m, advertised, used);
    match wakeup
    case NoWork =>
    case Stale => AssignAllSteady(m', advertised, used);
    case Wake(client, slots) =>
      GiveUpToSteady(m', advertised, used, client, slots, false);
      AssignAllSteady(GiveUpTo(m', client, slots), advertised, used);
  }

  /** Whether a request is refused does not depend on its search id. */
  lemma RefusedAnyId(w: World, plan: Plan, id: nat)
    ensures Refused(w, plan) <==> PlanTasks(w, plan, id) == [] && ErrorsFor(w, plan.names) > 0
  {
    NoTasksAnyId(w, plan, id, plan.names);
  }

  lemma {:induction false} NoTasksAnyId(w: World, plan: Plan, id: nat, names: seq<Bytes>)
    ensures TasksFor(w, plan, id, names) == [] <==> TasksFor(w, plan, 0, names) == []
    decreases |names|
  {
    if names != [] {
      NoTasksAnyId(w, plan, id, names[..|names| - 1]);
    }
  }

  /** A search id is used up. */
  function Reserved(m: Master): Master {
    m.(nextSearchId := m.nextSearchId + 1)
  }

  /** And its session and tasks are published. */
  function Published(w: World, plan: Plan, m: Master): Master {
    AddPendingTasks(Reserved(m), m.nextSearchId, Cluster.NewSession(w, plan), PlanTasks(w, plan, m.nextSearchId))
  }

  /** `BuildSession` and the scan, which touch no shared state. */
  method Scan(w: World, plan: Plan, id: nat) returns (tasks: seq<Task>, session: Session)
    ensures tasks == PlanTasks(w, plan, id) && session == Cluster.NewSession(w, plan)
    ensures Refused(w, plan) <==> tasks == [] && session.scanErrors > 0
  {
    var scanErrors;
    tasks, scanErrors := CollectTasks(w, plan, id);
    RefusedAnyId(w, plan, id);
    session := Session(plan.maxResults, 0, 0, scanErrors, 0, 0);
  }

  class MasterServer {
    var pending: seq<Task>
    var inFlight: map<nat, map<nat, Task>>
    var idle: seq<nat>
    var idleIds: set<nat>
    var freeSlots: map<nat, nat>
    var sessions: map<nat, Session>
    var nextSearchId: nat
    var nextTaskId: nat
    /** The result files and the messages handed to connections. */
    var output: map<nat, seq<Bytes>>
    var outbox: seq<(nat, Task)>
    /** What each worker said in Hello, and the ids that said it or left. */
    ghost var advertised: map<nat, nat>
    ghost var used: set<nat>

    ghost function View(): Master
      reads this
    {
      Master(pending, inFlight, idle, idleIds, freeSlots, sessions, nextSearchId, nextTaskId)
    }

    /** Between handlers, in addition, no registered worker has a free slot while
        any task is pending. */
    ghost predicate Valid()
      reads this
    {
      Steady(View(), advertised, used) && Saturated(View(), {})
    }

    /** No worker holds more tasks than it advertised. */
    lemma WithinCapacity(client: nat)
      requires Valid() && client in inFlight
      ensures client in advertised && 0 < |inFlight[client]| <= advertised[client]
    {
      Capacity.WithinCapacity(View(), advertised, client);
    }

    /** While any task waits, every registered worker runs as many as it said. */
    lemma WaitingMeansAllBusy(client: nat)
      requires Valid() && pending != [] && client in freeSlots
      ensures client in advertised && |Flight(View(), client)| == advertised[client]
    {
      Capacity.WaitingMeansAllBusy(View(), advertised, client);
    }

    constructor ()
      ensures Valid() && View() == INITIAL && output == map[] && outbox == [] && used == {}
    {
      pending, inFlight, idle, idleIds, freeSlots, sessions := [], map[], [], {}, map[], map[];
      nextSearchId, nextTaskId := 0, 0;
      output, outbox := map[], [];
      advertised, used := map[], {};
    }

    // ----------------------------------------------------- critical sections

    method DispatchNextTask(client: nat) returns (sent: bool)
      modifies this
      ensures View() == Dispatch(old(View()), client).0 && sent == Dispatch(old(View()), client).1.Some?
      ensures outbox == old(outbox) + SentTo(client, Dispatch(old(View()), client).1)
      ensures output == old(output) && advertised == old(advertised) && used == old(used)
    {
      if client !in freeSlots {
        return false;
      }
      if pending != [] {
        SendFront(client);
        return true;
      }
      if client !in idleIds {
        idle := idle + [client];
        idleIds := idleIds + {client};
      }
      return false;
    }

    /** The front task is registered with a fresh id and sent. */
    method SendFront(client: nat)
      requires client in freeSlots && pending != []
      modifies this`nextTaskId, this`pending, this`inFlight, this`freeSlots, this`outbox
      ensures View() == Dispatch(old(View()), client).0
      ensures outbox == old(outbox) + SentTo(client, Dispatch(old(View()), client).1)
    {
      nextTaskId := nextTaskId + 1;
      var task := pending[0].(taskId := nextTaskId);
      pending := pending[1..];
      var mine := if client in inFlight then inFlight[client] else map[];
      inFlight := inFlight[client := mine[nextTaskId := task]];
      freeSlots := freeSlots[client := Dec64(freeSlots[client])];
      outbox := outbox + [(client, task)];
    }

    /** The block of `AssignIdleWorkers`. */
    method TakeIdleWorker() returns (wakeup: Wakeup)
      modifies this`idle, this`idleIds
      ensures View() == TakeIdle(old(View())).0 && wakeup == TakeIdle(old(View())).1
    {
      if pending == [] || idle == [] {
        return NoWork;
      }
      var client := idle[0];
      idle := idle[1..];
      if client !in freeSlots {
        return Stale;
      }
      idleIds := idleIds - {client};
      wakeup := Wake(client, freeSlots[client]);
    }

    // ---------------------------------------------------------- dispatch loops

    /** The loop that hands a worker up to `count` tasks. */
    method DispatchLoop(client: nat, count: nat)
      modifies this
      ensures View() == GiveUpTo(old(View()), client, count)
      ensures outbox == old(outbox) + GiveSent(old(View()), client, count)
      ensures output == old(output) && advertised == old(advertised) && used == old(used)
    {
      ghost var start := View();
      var i := 0;
      while i < count
        invariant i <= count && GiveUpTo(View(), client, count - i) == GiveUpTo(start, client, count)
        invariant outbox + GiveSent(View(), client, count - i) == old(outbox) + GiveSent(start, client, count)
        invariant output == old(output) && advertised == old(advertised) && used == old(used)
      {
        ghost var now, before := View(), outbox;
        GiveTurns(now, client, count - i);
        var sent := DispatchNextTask(client);
        if !sent {
          return;
        }
        ConcatAssoc(before, SentTo(client, Dispatch(now, client).1), GiveSent(View(), client, count - i - 1));
        i := i + 1;
      }
    }

    /** The same loop, shared by Hello and by `AssignIdleWorkers`: handed as many
        tasks as it has free slots, the worker is full or in the idle queue. */
    method DispatchUpTo(client: nat, count: nat)
      modifies this
      ensures View() == GiveUpTo(old(View()), client, count)
      ensures outbox == old(outbox) + GiveSent(old(View()), client, count)
      ensures output == old(output) && advertised == old(advertised) && used == old(used)
      ensures old(Handing(View(), advertised, client, count) && Greeted(View(), used)) ==>
        && Steady(View(), advertised, used) && client in freeSlots
        && (old(Saturated(View(), {client})) ==> Saturated(View(), {}))
    {
      DispatchedSteady(View(), advertised, used, client, count);
      DispatchLoop(client, count);
    }

    method AssignIdleWorkers()
      modifies this
      ensures View() == AssignAll(old(View())) && outbox == old(outbox) + AssignSent(old(View()))
      ensures output == old(output) && advertised == old(advertised) && used == old(used)
      // Afterwards no registered worker has a free slot while any task waits.
      ensures old(Steady(View(), advertised, used)) ==> Valid()
    {
      if Steady(View(), advertised, used) {
        AssignAllSteady(View(), advertised, used);
      }
      ghost var start := View();
      while true
        invariant AssignAll(View()) == AssignAll(start)
        invariant outbox + AssignSent(View()) == old(outbox) + AssignSent(start)
        invariant output == old(output) && advertised == old(advertised) && used == old(used)
        decreases |pending|, |idle|
      {
        ghost var before := outbox;
        var wakeup := TakeIdleWorker();
        match wakeup {
          case NoWork =>
            break;
          case Stale =>
          case Wake(client, slots) =>
            ghost var woken := View();
            DispatchUpTo(client, slots);
            ConcatAssoc(before, GiveSent(woken, client, slots), AssignSent(View()));
        }
      }
    }

    // ---------------------------------------------------------------- handlers

    /** `Worker_Hello`: a new worker is registered and handed tasks until it is
        full or none is left. */
    method OnHello(client: nat, threads: nat)
      requires Valid() && client !in used && threads < U64
      modifies this
      ensures Valid() && client in freeSlots && used == old(used) + {client}
      ensures View() == GiveUpTo(Register(old(View()), client, threads), client, threads)
      ensures outbox == old(outbox) + GiveSent(Register(old(View()), client, threads), client, threads)
      ensures advertised == old(advertised)[client := threads] && output == old(output)
    {
      RegisterKeeps(View(), client, threads);
      RegisterExact(View(), client, threads, advertised);
      freeSlots := freeSlots[client := threads];
      advertised := advertised[client := threads];
      used := used + {client};
      DispatchUpTo(client, threads);
    }

    /** The first block of `Worker_TaskDone`. */
    method ClaimTask(client: nat, id: nat) returns (task: Option<Task>)
      modifies this`inFlight, this`freeSlots
      ensures View() == Claim(old(View()), client, id).0 && task == Claim(old(View()), client, id).1
    {
      if client !in inFlight || id !in inFlight[client] {
        return None;
      }
      task := Some(inFlight[client][id]);
      var rest := inFlight[client] - {id};
      inFlight := if rest == map[] then inFlight - {client} else inFlight[client := rest];
      var slots := if client in freeSlots then freeSlots[client] else 0;
      freeSlots := freeSlots[client := Inc64(slots)];
    }

    /** `AggregateTaskResult`, with the exceptions its caller catches. */
    method AggregateTaskResult(msg: Message, task: Task)
      requires !DecodeBatch(msg.body).OutOfRange?
      modifies msg, this`sessions, this`output
      ensures
        match DecodeBatch(old(msg.body))
        case Batch(result) =>
          && View() == Aggregate(old(View()), task.searchId, result).0
          && output == WithLines(old(output), task.searchId, result.lines, Aggregate(old(View()), task.searchId, result).1)
        case _ => View() == old(View()) && output == old(output)
    {
      var decoded := DeserializeBatch(msg);
      if !decoded.Batch? || task.searchId !in sessions {
        return;
      }
      var batch := decoded.result;
      var linesToWrite := 0;
      var session := sessions[task.searchId];
      session := session.(totalMatches := (session.totalMatches + batch.totalMatches) % U64);
      if session.lineCount < session.maxResults {
        linesToWrite := Min(|batch.lines|, session.maxResults - session.lineCount);
        session := session.(lineCount := session.lineCount + linesToWrite);
      }
      sessions := sessions[task.searchId := session];
      if linesToWrite > 0 {
        WriteResults(Take(batch.lines, linesToWrite), task.searchId);
      }
    }

    /** `WriteResults`: the lines are appended to the session's file. */
    method WriteResults(lines: seq<Bytes>, searchId: nat)
      requires searchId in sessions
      modifies this`output
      ensures output == old(output)[searchId := ResultFile(old(output), searchId) + lines]
    {
      var file := ResultFile(output, searchId);
      for i := 0 to |lines|
        invariant file == ResultFile(output, searchId) + lines[..i]
      {
        file := file + [lines[i]];
      }
      assert lines[..|lines|] == lines;
      output := output[searchId := file];
    }

    /** The first half of `Worker_TaskDone`: a task this worker holds is taken
        from it, and the freed slot is filled at once. */
    method ClaimAndRefill(client: nat, id: nat) returns (task: Option<Task>)
      requires Valid()
      modifies this
      ensures Valid() && advertised == old(advertised) && used == old(used) && output == old(output)
      ensures task == Claim(old(View()), client, id).1
      ensures task.None? ==> View() == old(View()) && outbox == old(outbox)
      ensures task.Some? ==> View() == Dispatch(Claim(old(View()), client, id).0, client).0
      ensures task.Some? ==> outbox == old(outbox) + SentTo(client, Dispatch(Claim(old(View()), client, id).0, client).1)
    {
      ClaimThenDispatch(View(), client, id, advertised, used);
      task := ClaimTask(client, id);
      if task.Some? {
        var _ := DispatchNextTask(client);
      }
    }

    /** The second half: the result is added and the chunk counted. */
    method AggregateAndCount(msg: Message, task: Task)
      requires !DecodeBatch(msg.body).OutOfRange?
      modifies msg, this`sessions, this`output
      ensures (View(), output) == Complete(old(View()), old(output), task, old(msg.body))
    {
      AggregateTaskResult(msg, task);
      if task.searchId in sessions {
        var session := sessions[task.searchId];
        sessions := sessions[task.searchId := session.(chunksDone := IncInt32(session.chunksDone))];
      }
    }

    /** The second half, between handlers again. */
    method FinishTask(msg: Message, task: Task)
      requires Valid() && !DecodeBatch(msg.body).OutOfRange?
      modifies msg, this`sessions, this`output
      ensures Valid() && (View(), output) == Complete(old(View()), old(output), task, old(msg.body))
    {
      CompleteSteady(View(), output, task, msg.body, advertised, used);
      AggregateAndCount(msg, task);
    }

    /** What follows once the task id is read. */
    method CompleteTask(client: nat, id: nat, msg: Message) returns (accepted: bool)
      requires Valid() && (InFlightAt(View(), client, id) ==> !DecodeBatch(msg.body).OutOfRange?)
      modifies this, msg
      ensures Valid() && advertised == old(advertised) && used == old(used)
      ensures accepted <==> InFlightAt(old(View()), client, id)
      ensures !accepted ==> View() == old(View()) && output == old(output) && outbox == old(outbox)
      ensures accepted ==>
        var refilled := Dispatch(Claim(old(View()), client, id).0, client);
        && (View(), output) == Complete(refilled.0, old(output), old(View()).inFlight[client][id], old(msg.body))
        && outbox == old(outbox) + SentTo(client, refilled.1)
    {
      var task := ClaimAndRefill(client, id);
      if task.None? {
        return false;
      }
      FinishTask(msg, task.value);
      accepted := true;
    }

    /** `msg >> taskId`; None is the thrown exception. */
    method TakeTaskId(msg: Message) returns (id: Option<nat>)
      modifies msg
      ensures id.None? <==> PopTaskId(old(msg.body)).None?
      ensures id.Some? ==> PopTaskId(old(msg.body)) == Some((id.value, msg.body))
    {
      ghost var body := msg.body;
      var data := msg.Pop(8);
      if data.None? {
        return None;
      }
      assert msg.body == body[..|body| - 8] && data.value == body[|body| - 8..];
      id := Some(FromBytes(data.value));
    }

    /** `Worker_TaskDone`: a reply to a task this worker holds is completed, and
        its slot refilled first; any other reply changes nothing. */
    method OnTaskDone(client: nat, msg: Message) returns (accepted: bool)
      requires Valid()
      requires PopTaskId(msg.body).Some? && InFlightAt(View(), client, PopTaskId(msg.body).value.0) ==>
        !DecodeBatch(PopTaskId(msg.body).value.1).OutOfRange?
      modifies this, msg
      ensures Valid() && advertised == old(advertised) && used == old(used)
      ensures accepted <==>
        PopTaskId(old(msg.body)).Some? && InFlightAt(old(View()), client, PopTaskId(old(msg.body)).value.0)
      ensures !accepted ==> View() == old(View()) && output == old(output) && outbox == old(outbox)
      ensures accepted ==>
        var (id, rest) := PopTaskId(old(msg.body)).value;
        var refilled := Dispatch(Claim(old(View()), client, id).0, client);
        && (View(), output) == Complete(refilled.0, old(output), old(View()).inFlight[client][id], rest)
        && outbox == old(outbox) + SentTo(client, refilled.1)
    {
      var taskId := TakeTaskId(msg);
      if taskId.None? {
        return false;
      }
      accepted := CompleteTask(client, taskId.value, msg);
    }

    /** `OnClientDisconnect`: the worker's tasks return to the front of the queue,
        in the order in which its table happens to be visited, and idle workers
        are woken. */
    method OnClientDisconnect(client: nat) returns (ghost order: seq<nat>)
      requires Valid()
      modifies this
      ensures Valid() && Enumerates(order, Flight(old(View()), client))
      ensures View() == AssignAll(Reclaim(old(View()), client, order))
      ensures outbox == old(outbox) + AssignSent(Reclaim(old(View()), client, order))
      ensures output == old(output) && used == old(used) + {client} && advertised == old(advertised)
    {
      ghost var before := View();
      order := ReclaimWorker(client);
      DisconnectSteady(before, client, order, advertised, used);
      used := used + {client};
      AssignIdleWorkers();
    }

    /** The block of `OnClientDisconnect`. */
    method ReclaimWorker(client: nat) returns (ghost order: seq<nat>)
      modifies this`freeSlots, this`idleIds, this`pending, this`inFlight
      ensures Enumerates(order, Flight(old(View()), client))
      ensures View() == Reclaim(old(View()), client, order)
    {
      freeSlots := freeSlots - {client};
      idleIds := idleIds - {client};
      order := ReclaimTasks(client);
    }

    /** The loop that pushes a worker's tasks back. */
    method ReclaimTasks(client: nat) returns (ghost order: seq<nat>)
      modifies this`pending, this`inFlight
      ensures Enumerates(order, Flight(old(View()), client))
      ensures pending == PushFront(old(pending), Flight(old(View()), client), order)
      ensures inFlight == old(inFlight) - {client}
    {
      order := [];
      if client in inFlight {
        var tasks := inFlight[client];
        var left := tasks.Keys;
        while left != {}
          invariant left <= tasks.Keys && inFlight == old(inFlight)
          invariant forall id :: id in order <==> id in tasks && id !in left
          invariant forall i, j :: 0 <= i < j < |order| ==> order[i] != order[j]
          invariant pending == PushFront(old(pending), tasks, order)
          decreases left
        {
          var id :| id in left;
          pending := [tasks[id]] + pending;
          left := left - {id};
          assert (order + [id])[..|order|] == order;
          order := order + [id];
        }
        inFlight := inFlight - {client};
      } else {
        assert inFlight - {client} == inFlight;
      }
    }

    /** The block of `AddPendingTasks`; the result file is new. */
    method PublishSearch(id: nat, session: Session, tasks: seq<Task>)
      modifies this`sessions, this`pending, this`output
      ensures View() == AddPendingTasks(old(View()), id, session, tasks) && output == old(output)[id := []]
    {
      sessions := sessions[id := session.(chunksTotal := ToInt32(|tasks|))];
      pending := pending + tasks;
      output := output[id := []];
    }

    method AllocateSearchId() returns (id: nat)
      requires Valid()
      modifies this`nextSearchId
      ensures Valid() && id == old(nextSearchId) && View() == Reserved(old(View()))
    {
      ghost var before := View();
      id := nextSearchId;
      nextSearchId := nextSearchId + 1;
      SameTablesSteady(before, View(), advertised, used);
    }

    /** The end of `StartSearch`: publication, then the idle workers. */
    method PublishAndAssign(id: nat, session: Session, tasks: seq<Task>)
      requires Valid()
      modifies this
      ensures Valid() && advertised == old(advertised) && used == old(used)
      ensures
        var published := AddPendingTasks(old(View()), id, session, tasks);
        && View() == AssignAll(published) && outbox == old(outbox) + AssignSent(published)
        && output == old(output)[id := []]
    {
      ghost var before := View();
      PublishSearch(id, session, tasks);
      SameTablesSteady(before, View(), advertised, used);
      AssignIdleWorkers();
    }

    /** `StartSearch` after path resolution; None when it throws. */
    method StartSearch(w: World, plan: Plan) returns (searchId: Option<nat>)
      requires Valid()
      modifies this
      ensures Valid() && advertised == old(advertised) && used == old(used)
      ensures searchId == if Refused(w, plan) then None else Some(old(nextSearchId))
      ensures searchId.None? <==> Unsearchable(w, plan.names)
      ensures searchId.None? ==> View() == Reserved(old(View())) && output == old(output) && outbox == old(outbox)
      ensures searchId.Some? ==>
        && View() == AssignAll(Published(w, plan, old(View())))
        && outbox == old(outbox) + AssignSent(Published(w, plan, old(View())))
        && output == old(output)[old(nextSearchId) := []]
    {
      RefusedExactly(w, plan);
      var id := AllocateSearchId();
      var tasks, session := Scan(w, plan, id);
      if tasks == [] && session.scanErrors > 0 {
        return None;
      }
      PublishAndAssign(id, session, tasks);
      searchId := Some(id);
    }

    method GetStatus(searchId: nat) returns (status: Option<Status>)
      ensures status == Scheduler.GetStatus(View(), searchId)
    {
      if searchId !in sessions {
        return None;
      }
      var s := sessions[searchId];
      status := Some(Status(s.chunksDone == s.chunksTotal, s.lineCount, s.totalMatches, s.scanErrors, s.chunksDone, s.chunksTotal));
    }
  }
}
