/** Structural invariants at lock granularity: worker tables, in-flight
    entries against the dispatch history, sessions against the requests. */
module Tables {
  import opened Base
  import opened Codec
  import opened LineSearch
  import opened Chunking
  import opened Scheduler
  import opened Cluster

  // ----------------------------------------------------------- worker tables

  /** The slot ledger and the idle index, and only ids that said Hello. */
  ghost predicate WorkersOk(s: State) {
    && Indexed(s.master)
    && Ledger(s.master, s.advertised)
    && (forall c: nat :: c in s.master.freeSlots ==> c in s.used)
    && (forall c: nat :: c in s.master.idle ==> c in s.used)
  }

  /** How a step of a handler touches the worker tables. */
  datatype Touch = Untouched | Took | Dispatched(client: nat)

  ghost predicate Touches(s: State, s': State, t: Touch) {
    && s'.used == s.used && s'.advertised == s.advertised
    && match t
       case Untouched =>
         && s'.sent == s.sent && s'.master.nextTaskId == s.master.nextTaskId
         && s'.master.inFlight == s.master.inFlight && s'.master.freeSlots == s.master.freeSlots
         && s'.master.idle == s.master.idle && s'.master.idleIds == s.master.idleIds
       case Took => s'.sent == s.sent && s'.master == TakeIdle(s.master).0
       case Dispatched(client) =>
         s'.sent == DispatchIn(s, client).0.sent && s'.master == DispatchIn(s, client).0.master
  }

  lemma LoopTouches(w: World, s: State, i: nat) returns (t: Touch)
    requires i < |s.threads| && (s.threads[i].Waking? || s.threads[i].Greeting?)
    ensures Touches(s, StepThread(w, s, i), t)
  {
    var client, left := s.threads[i].client, s.threads[i].left;
    if s.threads[i].Waking? {
      assert StepThread(w, s, i) == StepWake(s, i, client, left);
    } else {
      assert StepThread(w, s, i) == StepGreet(s, i, client, left);
    }
    t := if left == 0 then Untouched else Dispatched(client);
  }

  lemma SchedulingTouches(w: World, s: State, i: nat) returns (t: Touch)
    requires i < |s.threads| && (s.threads[i].Assigning? || s.threads[i].Redispatching?)
    ensures Touches(s, StepThread(w, s, i), t)
  {
    match s.threads[i]
    case Assigning =>
      assert StepThread(w, s, i) == StepAssign(s, i);
      t := Took;
    case Redispatching(client, task, body) =>
      assert StepThread(w, s, i) == StepRedispatch(s, i, client, task, body);
      t := Dispatched(client);
  }

  lemma ResultTouches(w: World, s: State, i: nat)
    requires i < |s.threads| && (s.threads[i].Aggregating? || s.threads[i].Writing? || s.threads[i].Counting?)
    ensures Touches(s, StepThread(w, s, i), Untouched)
  {
    match s.threads[i]
    case Aggregating(task, body) => assert StepThread(w, s, i) == StepAggregate(s, i, task, body);
    case Writing(task, lines) => assert StepThread(w, s, i) == StepWrite(s, i, task, lines);
    case Counting(task) => assert StepThread(w, s, i) == StepCount(s, i, task);
  }

  lemma PublishTouches(w: World, s: State, i: nat)
    requires i < |s.threads| && (s.threads[i].Publishing? || s.threads[i].Finished?)
    ensures Touches(s, StepThread(w, s, i), Untouched)
  {
    if s.threads[i].Publishing? && s.threads[i].searchId < |s.requests| {
      assert StepThread(w, s, i) == StepPublish(w, s, i, s.threads[i].searchId);
    }
  }

  lemma StepTouches(w: World, s: State, i: nat) returns (t: Touch)
    requires i < |s.threads|
    ensures Touches(s, StepThread(w, s, i), t)
  {
    t := Untouched;
    match s.threads[i]
    case Assigning => t := SchedulingTouches(w, s, i);
    case Waking(_, _) => t := LoopTouches(w, s, i);
    case Greeting(_, _) => t := LoopTouches(w, s, i);
    case Redispatching(_, _, _) => t := SchedulingTouches(w, s, i);
    case Publishing(_) => PublishTouches(w, s, i);
    case Aggregating(_, _) => ResultTouches(w, s, i);
    case Writing(_, _) => ResultTouches(w, s, i);
    case Counting(_) => ResultTouches(w, s, i);
    case Finished => PublishTouches(w, s, i);
  }

  lemma SameWorkers(s: State, s': State)
    requires WorkersOk(s) && Touches(s, s', Untouched)
    ensures WorkersOk(s')
  {
    KeepsFlight(s.master, s'.master);
    MovesKeepLedger(s.master, s'.master, s.advertised);
  }

  lemma WorkersDispatch(s: State, client: nat)
    requires WorkersOk(s)
    ensures WorkersOk(DispatchIn(s, client).0)
  {
    DispatchKeeps(s.master, client);
    DispatchLedger(s.master, client, s.advertised);
  }

  lemma TakeLedger(m: Master, advertised: map<nat, nat>)
    requires Ledger(m, advertised)
    ensures Ledger(TakeIdle(m).0, advertised)
  {
    MovesKeepLedger(m, TakeIdle(m).0, advertised);
  }

  lemma TakeKnown(m: Master, used: set<nat>)
    requires forall c: nat :: c in m.idle ==> c in used
    ensures forall c: nat :: c in TakeIdle(m).0.idle ==> c in used
  {
  }

  lemma WorkersTake(s: State, s': State)
    requires WorkersOk(s) && Touches(s, s', Took)
    ensures WorkersOk(s')
  {
    TakeIdleKeeps(s.master);
    TakeLedger(s.master, s.advertised);
    TakeKnown(s.master, s.used);
  }

  lemma WorkersHello(s: State, client: nat, threads: nat)
    requires WorkersOk(s) && client !in s.used && threads < U64
    ensures WorkersOk(ApplyHello(s, client, threads))
  {
    RegisterKeeps(s.master, client, threads);
    RegisterLedger(s.master, client, threads, s.advertised);
  }

  lemma WorkersTaskDone(s: State, client: nat, body: Bytes)
    requires WorkersOk(s)
    ensures WorkersOk(ApplyTaskDone(s, client, body))
  {
    match PopTaskId(body)
    case None =>
    case Some((id, rest)) =>
      ClaimKeeps(s.master, client, id);
      ClaimLedger(s.master, client, id, s.advertised);
  }

  lemma WorkersDisconnect(s: State, client: nat, order: seq<nat>)
    requires WorkersOk(s) && forall id :: id in order ==> id in Flight(s.master, client)
    ensures WorkersOk(ApplyDisconnect(s, client, order))
  {
    ReclaimKeeps(s.master, client, order);
    ReclaimLedger(s.master, client, order, s.advertised);
  }

  lemma WorkersStep(w: World, s: State, i: nat)
    requires WorkersOk(s) && i < |s.threads|
    ensures WorkersOk(StepThread(w, s, i))
  {
    var s' := StepThread(w, s, i);
    var t := StepTouches(w, s, i);
    match t
    case Untouched => SameWorkers(s, s');
    case Took => WorkersTake(s, s');
    case Dispatched(client) => WorkersDispatch(s, client);
  }

  /** Slot ledger and idle index hold again after every critical section. */
  lemma WorkersNext(w: World, s: State, e: Event)
    requires WorkersOk(s) && Enabled(w, s, e)
    ensures WorkersOk(Apply(w, s, e))
  {
    match e
    case StartSearch(plan) => SameWorkers(s, Apply(w, s, e));
    case Hello(client, threads) => WorkersHello(s, client, threads);
    case TaskDone(client, body) => WorkersTaskDone(s, client, body);
    case Disconnect(client, order) => WorkersDisconnect(s, client, order);
    case Step(i) => WorkersStep(w, s, i);
  }

  // -------------------------------------------------------- dispatch history

  ghost predicate LiveAt(sent: seq<Sent>, client: nat, id: nat) {
    1 <= id <= |sent| && sent[id - 1].live && sent[id - 1].client == client
  }

  /** The in-flight table is the live part of the dispatch history. */
  ghost predicate Mirrors(m: Master, sent: seq<Sent>) {
    && |sent| == m.nextTaskId
    && (forall i :: 0 <= i < |sent| ==> sent[i].task.taskId == i + 1)
    && (forall c: nat, id: nat :: InFlightAt(m, c, id) <==> LiveAt(sent, c, id))
    && (forall c: nat, id: nat :: InFlightAt(m, c, id) ==> m.inFlight[c][id] == sent[id - 1].task)
  }

  lemma SameMirrors(m: Master, m': Master, sent: seq<Sent>)
    requires Mirrors(m, sent) && m'.inFlight == m.inFlight && m'.nextTaskId == m.nextTaskId
    ensures Mirrors(m', sent)
  {
    assert forall c: nat, id: nat :: InFlightAt(m', c, id) <==> InFlightAt(m, c, id);
  }

  lemma MirrorsDispatch(s: State, client: nat)
    requires Mirrors(s.master, s.sent)
    ensures Mirrors(DispatchIn(s, client).0.master, DispatchIn(s, client).0.sent)
  {
    var s' := DispatchIn(s, client).0;
    if client in s.master.freeSlots && s.master.pending != [] {
      DispatchFlight(s.master, client);
      var n := |s.sent|;
      assert s'.sent[..n] == s.sent;
      assert forall c: nat, id: nat :: LiveAt(s'.sent, c, id) <==> LiveAt(s.sent, c, id) || (c == client && id == n + 1);
    } else {
      SameMirrors(s.master, s'.master, s.sent);
    }
  }

  lemma MirrorsClaim(m: Master, sent: seq<Sent>, client: nat, id: nat)
    requires Mirrors(m, sent) && FlightIndexed(m) && InFlightAt(m, client, id)
    ensures Mirrors(Claim(m, client, id).0, Retire(sent, id))
  {
    ClaimFlight(m, client, id);
    var sent' := Retire(sent, id);
    assert LiveAt(sent, client, id);
    assert forall c: nat, k: nat :: LiveAt(sent', c, k) <==> LiveAt(sent, c, k) && k != id;
  }

  lemma {:induction false} RetiredLive(sent: seq<Sent>, order: seq<nat>)
    ensures forall c: nat, k: nat :: LiveAt(RetireAll(sent, order), c, k) <==> LiveAt(sent, c, k) && k !in order
    ensures forall i :: 0 <= i < |sent| ==>
      RetireAll(sent, order)[i].task == sent[i].task && RetireAll(sent, order)[i].client == sent[i].client
    decreases |order|
  {
    if order != [] {
      var init, last := order[..|order| - 1], order[|order| - 1];
      RetiredLive(sent, init);
      assert forall k :: k in order <==> k in init || k == last;
    }
  }

  lemma MirrorsReclaim(m: Master, sent: seq<Sent>, client: nat, order: seq<nat>)
    requires Mirrors(m, sent) && Indexed(m) && Enumerates(order, Flight(m, client))
    ensures Mirrors(Reclaim(m, client, order), RetireAll(sent, order))
  {
    var m', sent' := Reclaim(m, client, order), RetireAll(sent, order);
    ReclaimKeeps(m, client, order);
    RetiredLive(sent, order);
    forall c: nat, id: nat
      ensures InFlightAt(m', c, id) <==> LiveAt(sent', c, id)
    {
      assert id in order <==> InFlightAt(m, client, id);
      assert InFlightAt(m, c, id) <==> LiveAt(sent, c, id);
    }
    assert forall c: nat, id: nat :: InFlightAt(m', c, id) ==> InFlightAt(m, c, id) && m'.inFlight[c][id] == m.inFlight[c][id];
  }

  lemma MirrorsStep(w: World, s: State, i: nat)
    requires Mirrors(s.master, s.sent) && i < |s.threads|
    ensures Mirrors(StepThread(w, s, i).master, StepThread(w, s, i).sent)
  {
    var s' := StepThread(w, s, i);
    var t := StepTouches(w, s, i);
    match t
    case Untouched => SameMirrors(s.master, s'.master, s.sent);
    case Took => SameMirrors(s.master, s'.master, s.sent);
    case Dispatched(client) => MirrorsDispatch(s, client);
  }

  lemma MirrorsTaskDone(s: State, client: nat, body: Bytes)
    requires Mirrors(s.master, s.sent) && FlightIndexed(s.master)
    ensures Mirrors(ApplyTaskDone(s, client, body).master, ApplyTaskDone(s, client, body).sent)
  {
    match PopTaskId(body)
    case None =>
    case Some((id, rest)) =>
      if InFlightAt(s.master, client, id) {
        MirrorsClaim(s.master, s.sent, client, id);
      }
  }

  lemma MirrorsStart(w: World, s: State, plan: Plan)
    requires Mirrors(s.master, s.sent)
    ensures Mirrors(ApplyStart(w, s, plan).master, ApplyStart(w, s, plan).sent)
  {
    SameMirrors(s.master, ApplyStart(w, s, plan).master, s.sent);
  }

  lemma MirrorsHello(s: State, client: nat, threads: nat)
    requires Mirrors(s.master, s.sent)
    ensures Mirrors(ApplyHello(s, client, threads).master, ApplyHello(s, client, threads).sent)
  {
    SameMirrors(s.master, Register(s.master, client, threads), s.sent);
  }

  lemma MirrorsDisconnect(s: State, client: nat, order: seq<nat>)
    requires Indexed(s.master) && Mirrors(s.master, s.sent) && Enumerates(order, Flight(s.master, client))
    ensures Mirrors(ApplyDisconnect(s, client, order).master, ApplyDisconnect(s, client, order).sent)
  {
    MirrorsReclaim(s.master, s.sent, client, order);
  }

  lemma MirrorsNext(w: World, s: State, e: Event)
    requires WorkersOk(s) && Mirrors(s.master, s.sent) && Enabled(w, s, e)
    ensures Mirrors(Apply(w, s, e).master, Apply(w, s, e).sent)
  {
    match e
    case StartSearch(plan) => MirrorsStart(w, s, plan);
    case Hello(client, threads) => MirrorsHello(s, client, threads);
    case TaskDone(client, body) => MirrorsTaskDone(s, client, body);
    case Disconnect(client, order) => MirrorsDisconnect(s, client, order);
    case Step(i) => MirrorsStep(w, s, i);
  }

  // ------------------------------------------------------ sessions, requests

  /** A published session carries its request's parameters. */
  ghost predicate SessionOf(w: World, session: Session, plan: Plan, sid: nat) {
    && session.maxResults == plan.maxResults
    && session.scanErrors == ErrorsFor(w, plan.names)
    && session.chunksTotal == ToInt32(|PlanTasks(w, plan, sid)|)
  }

  ghost predicate SearchesOk(w: World, s: State) {
    && |s.requests| == s.master.nextSearchId <= U64
    && (forall i :: 0 <= i < |s.requests| ==> NamesValid(s.requests[i].names) && s.requests[i].maxResults < U64)
    && s.output.Keys == s.master.sessions.Keys
    && (forall sid: nat :: sid in s.master.sessions ==>
      sid < |s.requests| && SessionOf(w, s.master.sessions[sid], s.requests[sid], sid))
    && (forall i :: 0 <= i < |s.threads| && s.threads[i].Publishing? ==>
      s.threads[i].searchId < |s.requests| && s.threads[i].searchId !in s.master.sessions)
    && (forall i, j :: 0 <= i < j < |s.threads| && s.threads[i].Publishing? && s.threads[j].Publishing? ==>
      s.threads[i].searchId != s.threads[j].searchId)
  }

  /** The task a handler works on. */
  function TaskHeld(pc: Pc): Option<Task> {
    match pc
    case Redispatching(_, task, _) => Some(task)
    case Aggregating(task, _) => Some(task)
    case Writing(task, _) => Some(task)
    case Counting(task) => Some(task)
    case _ => None
  }

  /** Every task anywhere belongs to a published session. */
  ghost predicate Known(s: State) {
    && (forall i :: 0 <= i < |s.master.pending| ==> s.master.pending[i].searchId in s.master.sessions)
    && (forall i :: 0 <= i < |s.sent| ==> s.sent[i].task.searchId in s.master.sessions)
    && (forall i :: 0 <= i < |s.threads| && TaskHeld(s.threads[i]).Some? ==>
      TaskHeld(s.threads[i]).value.searchId in s.master.sessions)
    && (forall i :: 0 <= i < |s.aggregated| ==> s.aggregated[i].searchId in s.master.sessions)
    && (forall i :: 0 <= i < |s.counted| ==> s.counted[i].searchId in s.master.sessions)
  }

  lemma KnownDispatch(s: State, client: nat)
    requires Known(s)
    ensures Known(DispatchIn(s, client).0)
  {
  }

  lemma {:induction false} PushFrontMembers(pending: seq<Task>, tasks: map<nat, Task>, order: seq<nat>)
    requires forall id :: id in order ==> id in tasks
    ensures forall t :: t in PushFront(pending, tasks, order) <==> t in pending || exists id :: id in order && tasks[id] == t
    decreases |order|
  {
    if order != [] {
      var init, last := order[..|order| - 1], order[|order| - 1];
      PushFrontMembers(pending, tasks, init);
      assert forall id :: id in order <==> id in init || id == last;
    }
  }

  lemma KnownDisconnect(s: State, client: nat, order: seq<nat>)
    requires Known(s) && Mirrors(s.master, s.sent) && Enumerates(order, Flight(s.master, client))
    ensures Known(ApplyDisconnect(s, client, order))
  {
    var s' := ApplyDisconnect(s, client, order);
    PushFrontMembers(s.master.pending, Flight(s.master, client), order);
    RetiredLive(s.sent, order);
    forall i | 0 <= i < |s'.master.pending|
      ensures s'.master.pending[i].searchId in s'.master.sessions
    {
      var t := s'.master.pending[i];
      if t !in s.master.pending {
        var id :| id in order && Flight(s.master, client)[id] == t;
        assert InFlightAt(s.master, client, id);
      }
    }
  }

  lemma KnownTaskDone(s: State, client: nat, body: Bytes)
    requires Known(s) && Mirrors(s.master, s.sent)
    ensures Known(ApplyTaskDone(s, client, body))
  {
    match PopTaskId(body)
    case None =>
    case Some((id, rest)) =>
      if InFlightAt(s.master, client, id) {
        assert s.master.inFlight[client][id] == s.sent[id - 1].task;
      }
  }

  lemma KnownPublish(w: World, s: State, i: nat, searchId: nat)
    requires Known(s) && i < |s.threads| && searchId < |s.requests|
    ensures Known(StepPublish(w, s, i, searchId))
  {
    var plan := s.requests[searchId];
    PlanTaskShape(w, plan, searchId, plan.names);
    var s' := StepPublish(w, s, i, searchId);
    forall k | 0 <= k < |s'.master.pending|
      ensures s'.master.pending[k].searchId in s'.master.sessions
    {
      if k >= |s.master.pending| {
        assert s'.master.pending[k] in PlanTasks(w, plan, searchId);
      }
    }
  }

  /** One thread moved on with the same task, which may have been added. */
  lemma KnownResult(s: State, s': State, i: nat, pc: Pc, task: Task)
    requires Known(s) && i < |s.threads| && TaskHeld(s.threads[i]) == Some(task) && TaskHeld(pc) == Some(task)
    requires s'.threads == s.threads[i := pc] && s'.master.pending == s.master.pending && s'.sent == s.sent
    requires s'.master.sessions.Keys == s.master.sessions.Keys && s'.counted == s.counted
    requires s'.aggregated == s.aggregated || s'.aggregated == s.aggregated + [Chunk(task)]
    ensures Known(s')
  {
    assert forall sid: nat :: sid in s'.master.sessions <==> sid in s.master.sessions.Keys;
  }

  lemma KnownAggregate(s: State, i: nat, task: Task, body: Bytes)
    requires Known(s) && i < |s.threads| && s.threads[i] == Aggregating(task, body)
    ensures Known(StepAggregate(s, i, task, body))
  {
    var s' := StepAggregate(s, i, task, body);
    KnownResult(s, s', i, s'.threads[i], task);
  }

  lemma KnownWriteCount(s: State, i: nat, task: Task)
    requires Known(s) && i < |s.threads|
    ensures s.threads[i].Writing? && s.threads[i].task == task ==> Known(StepWrite(s, i, task, s.threads[i].lines))
    ensures s.threads[i].Counting? && s.threads[i].task == task ==> Known(StepCount(s, i, task))
  {
    if s.threads[i].Writing? || s.threads[i].Counting? {
      assert TaskHeld(s.threads[i]) == Some(s.threads[i].task);
    }
  }

  lemma KnownAssign(s: State, i: nat)
    requires Known(s) && i < |s.threads|
    ensures Known(StepAssign(s, i))
  {
  }

  /** The same tables, and one thread moved to a point that holds no task. */
  lemma KnownMoved(s: State, s': State, i: nat, pc: Pc)
    requires Known(s) && i < |s.threads| && TaskHeld(pc).None? && s' == WithThread(s, i, pc)
    ensures Known(s')
  {
  }

  lemma KnownWake(s: State, i: nat, client: nat, left: nat)
    requires Known(s) && i < |s.threads|
    ensures Known(StepWake(s, i, client, left))
  {
    KnownDispatch(s, client);
    var sent := DispatchIn(s, client);
    var from := if left == 0 then s else sent.0;
    KnownMoved(from, StepWake(s, i, client, left), i, StepWake(s, i, client, left).threads[i]);
  }

  lemma KnownGreet(s: State, i: nat, client: nat, left: nat)
    requires Known(s) && i < |s.threads|
    ensures Known(StepGreet(s, i, client, left))
  {
    KnownDispatch(s, client);
    var sent := DispatchIn(s, client);
    var from := if left == 0 then s else sent.0;
    KnownMoved(from, StepGreet(s, i, client, left), i, StepGreet(s, i, client, left).threads[i]);
  }

  lemma KnownRedispatch(s: State, i: nat, client: nat, task: Task, body: Bytes)
    requires Known(s) && i < |s.threads| && s.threads[i] == Redispatching(client, task, body)
    ensures Known(StepRedispatch(s, i, client, task, body))
  {
    assert TaskHeld(s.threads[i]) == Some(task);
    KnownDispatch(s, client);
  }

  lemma KnownStep(w: World, s: State, i: nat)
    requires Known(s) && i < |s.threads|
    ensures Known(StepThread(w, s, i))
  {
    match s.threads[i]
    case Publishing(searchId) =>
      if searchId < |s.requests| {
        KnownPublish(w, s, i, searchId);
      }
    case Assigning => KnownAssign(s, i);
    case Waking(client, left) => KnownWake(s, i, client, left);
    case Greeting(client, left) => KnownGreet(s, i, client, left);
    case Redispatching(client, task, body) => KnownRedispatch(s, i, client, task, body);
    case Aggregating(task, body) => KnownAggregate(s, i, task, body);
    case Writing(task, lines) => KnownWriteCount(s, i, task);
    case Counting(task) => KnownWriteCount(s, i, task);
    case Finished =>
  }

  /** A new handler that holds no task. */
  lemma KnownArrival(s: State, s': State)
    requires Known(s) && s'.master.pending == s.master.pending && s'.master.sessions == s.master.sessions
    requires s'.sent == s.sent && s'.aggregated == s.aggregated && s'.counted == s.counted
    requires s'.threads == s.threads || exists pc :: TaskHeld(pc).None? && s'.threads == s.threads + [pc]
    ensures Known(s')
  {
  }

  lemma KnownNext(w: World, s: State, e: Event)
    requires Known(s) && Mirrors(s.master, s.sent) && Enabled(w, s, e)
    ensures Known(Apply(w, s, e))
  {
    match e
    case StartSearch(plan) => KnownArrival(s, ApplyStart(w, s, plan));
    case Hello(client, threads) => KnownArrival(s, ApplyHello(s, client, threads));
    case TaskDone(client, body) => KnownTaskDone(s, client, body);
    case Disconnect(client, order) => KnownDisconnect(s, client, order);
    case Step(i) => KnownStep(w, s, i);
  }

  /** The session parameters that never change after publication. */
  ghost predicate SameSession(a: Session, b: Session) {
    a.maxResults == b.maxResults && a.scanErrors == b.scanErrors && a.chunksTotal == b.chunksTotal
  }

  /** Steps of a handler other than publication leave the set of sessions and
      their request parameters alone. */
  ghost predicate KeepsSearches(s: State, s': State, i: nat)
    requires i < |s.threads|
  {
    && |s'.threads| == |s.threads| && s'.threads == s.threads[i := s'.threads[i]] && !s'.threads[i].Publishing?
    && s'.requests == s.requests && s'.master.nextSearchId == s.master.nextSearchId
    && s'.master.sessions.Keys == s.master.sessions.Keys && s'.output.Keys == s.output.Keys
    && forall sid: nat :: sid in s.master.sessions ==> SameSession(s.master.sessions[sid], s'.master.sessions[sid])
  }

  lemma LoopKeepsSearches(w: World, s: State, i: nat)
    requires i < |s.threads| && (s.threads[i].Waking? || s.threads[i].Greeting?)
    ensures KeepsSearches(s, StepThread(w, s, i), i)
  {
    match s.threads[i]
    case Waking(client, left) => assert StepThread(w, s, i) == StepWake(s, i, client, left);
    case Greeting(client, left) => assert StepThread(w, s, i) == StepGreet(s, i, client, left);
  }

  lemma SchedulingKeepsSearches(w: World, s: State, i: nat)
    requires i < |s.threads| && (s.threads[i].Assigning? || s.threads[i].Redispatching? || s.threads[i].Finished?)
    ensures KeepsSearches(s, StepThread(w, s, i), i)
  {
    match s.threads[i]
    case Assigning => assert StepThread(w, s, i) == StepAssign(s, i);
    case Redispatching(client, task, body) =>
      assert StepThread(w, s, i) == StepRedispatch(s, i, client, task, body);
    case Finished => assert StepThread(w, s, i) == s;
  }

  lemma AggregateKeepsSearches(w: World, s: State, i: nat)
    requires i < |s.threads| && s.threads[i].Aggregating?
    ensures KeepsSearches(s, StepThread(w, s, i), i)
  {
    assert StepThread(w, s, i) == StepAggregate(s, i, s.threads[i].task, s.threads[i].body);
  }

  lemma EndKeepsSearches(w: World, s: State, i: nat)
    requires Known(s) && i < |s.threads| && (s.threads[i].Writing? || s.threads[i].Counting?)
    requires s.output.Keys == s.master.sessions.Keys
    ensures KeepsSearches(s, StepThread(w, s, i), i)
  {
    assert TaskHeld(s.threads[i]) == Some(s.threads[i].task);
    match s.threads[i]
    case Writing(task, lines) =>
      assert StepThread(w, s, i) == StepWrite(s, i, task, lines);
      assert s.output[task.searchId := s.output[task.searchId] + lines].Keys == s.output.Keys;
    case Counting(task) =>
      assert StepThread(w, s, i) == StepCount(s, i, task);
  }

  lemma StepKeepsSearches(w: World, s: State, i: nat)
    requires Known(s) && i < |s.threads| && !s.threads[i].Publishing?
    requires s.output.Keys == s.master.sessions.Keys
    ensures KeepsSearches(s, StepThread(w, s, i), i)
  {
    match s.threads[i]
    case Waking(_, _) => LoopKeepsSearches(w, s, i);
    case Greeting(_, _) => LoopKeepsSearches(w, s, i);
    case Aggregating(_, _) => AggregateKeepsSearches(w, s, i);
    case Writing(_, _) => EndKeepsSearches(w, s, i);
    case Counting(_) => EndKeepsSearches(w, s, i);
    case _ => SchedulingKeepsSearches(w, s, i);
  }

  lemma SearchesSame(w: World, s: State, s': State, i: nat)
    requires SearchesOk(w, s) && i < |s.threads| && KeepsSearches(s, s', i)
    ensures SearchesOk(w, s')
  {
  }

  lemma SearchesPublish(w: World, s: State, i: nat, searchId: nat)
    requires SearchesOk(w, s) && i < |s.threads| && s.threads[i] == Publishing(searchId) && searchId < |s.requests|
    ensures SearchesOk(w, StepPublish(w, s, i, searchId))
  {
    var s' := StepPublish(w, s, i, searchId);
    forall sid: nat | sid in s'.master.sessions
      ensures sid < |s'.requests| && SessionOf(w, s'.master.sessions[sid], s'.requests[sid], sid)
    {
      if sid != searchId {
        assert s'.master.sessions[sid] == s.master.sessions[sid];
      }
    }
  }

  lemma SearchesStep(w: World, s: State, i: nat)
    requires SearchesOk(w, s) && Known(s) && i < |s.threads|
    ensures SearchesOk(w, StepThread(w, s, i))
  {
    if s.threads[i].Publishing? {
      SearchesPublish(w, s, i, s.threads[i].searchId);
    } else {
      StepKeepsSearches(w, s, i);
      SearchesSame(w, s, StepThread(w, s, i), i);
    }
  }

  /** A new handler that is not about to publish. */
  lemma SearchesMore(w: World, s: State, s': State, pc: Pc)
    requires SearchesOk(w, s) && !pc.Publishing?
    requires s'.requests == s.requests && s'.master.nextSearchId == s.master.nextSearchId
    requires s'.threads == s.threads + [pc]
    requires s'.master.sessions == s.master.sessions && s'.output == s.output
    ensures SearchesOk(w, s')
  {
  }

  /** A request more, and perhaps a handler about to publish it. */
  lemma SearchesAsked(w: World, s: State, s': State, plan: Plan)
    requires SearchesOk(w, s) && NamesValid(plan.names) && plan.maxResults < U64 && s.master.nextSearchId < U64
    requires s'.requests == s.requests + [plan] && s'.master.nextSearchId == s.master.nextSearchId + 1
    requires s'.master.sessions == s.master.sessions && s'.output == s.output
    requires s'.threads == s.threads || s'.threads == s.threads + [Publishing(|s.requests|)]
    ensures SearchesOk(w, s')
  {
    assert forall sid: nat :: sid in s'.master.sessions ==> sid < |s.requests| && s'.requests[sid] == s.requests[sid];
  }

  lemma SearchesStart(w: World, s: State, plan: Plan)
    requires SearchesOk(w, s) && Enabled(w, s, StartSearch(plan))
    ensures SearchesOk(w, ApplyStart(w, s, plan))
  {
    SearchesAsked(w, s, ApplyStart(w, s, plan), plan);
  }

  lemma SearchesNext(w: World, s: State, e: Event)
    requires SearchesOk(w, s) && Known(s) && Enabled(w, s, e)
    ensures SearchesOk(w, Apply(w, s, e))
  {
    match e
    case StartSearch(plan) => SearchesStart(w, s, plan);
    case Hello(client, threads) => SearchesMore(w, s, ApplyHello(s, client, threads), Greeting(client, threads));
    case TaskDone(client, body) =>
      var s' := ApplyTaskDone(s, client, body);
      if |s'.threads| > |s.threads| {
        SearchesMore(w, s, s', s'.threads[|s.threads|]);
      }
    case Disconnect(client, order) => SearchesMore(w, s, ApplyDisconnect(s, client, order), Assigning);
    case Step(i) => SearchesStep(w, s, i);
  }
}
