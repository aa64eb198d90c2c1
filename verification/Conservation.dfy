/** Task conservation at lock granularity: every chunk of a published search is
    in exactly one place, whatever workers do. */
module Conservation {
  import opened Base
  import opened Codec
  import opened LineSearch
  import opened Chunking
  import opened Scheduler
  import opened Cluster
  import opened Accounting
  import opened Bags
  import opened Tables

  /** All the chunks of search `sid` that the system holds somewhere. */
  function Everywhere(s: State, sid: nat): multiset<Task> {
    TasksOf(s.master.pending, sid) + LiveOf(s.sent, sid) + ClaimedOf(s.threads, sid) + TasksOf(s.aggregated, sid)
  }

  /** Results that were added belong to chunks counted or about to be. */
  ghost predicate Settled(s: State, sid: nat) {
    TasksOf(s.aggregated, sid) == FinishingOf(s.threads, sid) + TasksOf(s.counted, sid)
  }

  /** The chunks of search `sid` are those of its request, each in one place. */
  ghost predicate ConservedFor(w: World, s: State, sid: nat)
    requires sid < |s.requests|
  {
    Everywhere(s, sid) == multiset(PlanTasks(w, s.requests[sid], sid)) && Settled(s, sid)
  }

  ghost predicate Conserved(w: World, s: State)
    requires SearchesOk(w, s)
  {
    forall sid: nat :: sid in s.master.sessions ==> ConservedFor(w, s, sid)
  }

  /** Steps that move chunks without creating or losing any. */
  ghost predicate SameChunks(s: State, s': State, sid: nat) {
    Everywhere(s', sid) == Everywhere(s, sid) && (Settled(s, sid) ==> Settled(s', sid))
  }

  // ------------------------------------------------------------ moves of chunks

  lemma SendMovesChunk(pending: seq<Task>, sent: seq<Sent>, client: nat, id: nat, sid: nat)
    requires pending != []
    ensures TasksOf(pending[1..], sid) + LiveOf(sent + [Sent(client, pending[0].(taskId := id), true)], sid)
            == TasksOf(pending, sid) + LiveOf(sent, sid)
  {
    var entry := Sent(client, pending[0].(taskId := id), true);
    TasksCons(pending, sid);
    LiveAppend(sent, entry, sid);
    assert SentBag(entry, sid) == TaskBag(pending[0], sid);
    Hand(TasksOf(pending, sid), TasksOf(pending[1..], sid), LiveOf(sent, sid), TaskBag(pending[0], sid));
  }

  lemma DispatchMovesChunk(s: State, client: nat, sid: nat)
    ensures
      var s' := DispatchIn(s, client).0;
      TasksOf(s'.master.pending, sid) + LiveOf(s'.sent, sid) == TasksOf(s.master.pending, sid) + LiveOf(s.sent, sid)
  {
    DispatchChanges(s, client);
    if client in s.master.freeSlots && s.master.pending != [] {
      SendMovesChunk(s.master.pending, s.sent, client, s.master.nextTaskId + 1, sid);
    }
  }

  /** What a dispatch does to the queue and the history. */
  lemma DispatchChanges(s: State, client: nat)
    ensures
      var s' := DispatchIn(s, client).0;
      if client in s.master.freeSlots && s.master.pending != [] then
        && s'.master.pending == s.master.pending[1..]
        && s'.sent == s.sent + [Sent(client, s.master.pending[0].(taskId := s.master.nextTaskId + 1), true)]
      else
        s'.master.pending == s.master.pending && s'.sent == s.sent
  {
    assert s.sent + [] == s.sent;
  }

  /** A step that only dispatches and moves its thread between points that hold
      no chunk, or hold the same one. */
  lemma DispatchStep(s: State, s': State, i: nat, client: nat, pc: Pc, sid: nat)
    requires i < |s.threads| && s' == WithThread(DispatchIn(s, client).0, i, pc)
    requires ClaimedBag(pc, sid) == ClaimedBag(s.threads[i], sid)
    requires FinishingBag(pc, sid) == FinishingBag(s.threads[i], sid)
    ensures SameChunks(s, s', sid)
  {
    DispatchMovesChunk(s, client, sid);
    ThreadKeepsChunk(s.threads, i, pc, sid);
  }

  /** A step that moves its thread likewise and no task at all. */
  lemma QuietStep(s: State, s': State, i: nat, pc: Pc, sid: nat)
    requires i < |s.threads| && s'.threads == s.threads[i := pc]
    requires s'.master.pending == s.master.pending && s'.sent == s.sent
    requires s'.aggregated == s.aggregated && s'.counted == s.counted
    requires ClaimedBag(pc, sid) == ClaimedBag(s.threads[i], sid)
    requires FinishingBag(pc, sid) == FinishingBag(s.threads[i], sid)
    ensures SameChunks(s, s', sid)
  {
    ThreadKeepsChunk(s.threads, i, pc, sid);
  }

  /** A step that adds the result of a claimed chunk. */
  lemma SettleStep(s: State, s': State, i: nat, pc: Pc, task: Task, sid: nat)
    requires i < |s.threads| && s'.threads == s.threads[i := pc]
    requires s.threads[i].Aggregating? && s.threads[i].task == task
    requires TaskHeld(pc) == Some(task) && (pc.Writing? || pc.Counting?)
    requires s'.master.pending == s.master.pending && s'.sent == s.sent && s'.counted == s.counted
    requires s'.aggregated == s.aggregated + [Chunk(task)]
    ensures SameChunks(s, s', sid)
  {
    var x := TaskBag(task, sid);
    ThreadSettlesChunk(s.threads, i, pc, task, sid);
    TasksAppend(s.aggregated, Chunk(task), sid);
    assert TaskBag(Chunk(task), sid) == x;
    HandInSum(TasksOf(s.master.pending, sid), LiveOf(s.sent, sid), ClaimedOf(s'.threads, sid), TasksOf(s.aggregated, sid), x);
    Hand(TasksOf(s'.aggregated, sid), TasksOf(s.aggregated, sid), TasksOf(s.counted, sid), x);
    if Settled(s, sid) {
      assert FinishingOf(s.threads, sid) + TasksOf(s.counted, sid) + x == FinishingOf(s.threads, sid) + x + TasksOf(s.counted, sid);
    }
  }

  lemma CountMovesChunk(s: State, i: nat, task: Task, sid: nat)
    requires i < |s.threads| && s.threads[i] == Counting(task)
    ensures SameChunks(s, StepCount(s, i, task), sid)
  {
    var s' := StepCount(s, i, task);
    ThreadDropsChunk(s.threads, i, task, sid);
    TasksAppend(s.counted, Chunk(task), sid);
    assert TaskBag(Chunk(task), sid) == TaskBag(task, sid);
    Hand(FinishingOf(s.threads, sid), FinishingOf(s'.threads, sid), TasksOf(s.counted, sid), TaskBag(task, sid));
  }

  lemma ClaimMovesChunk(s: State, client: nat, id: nat, body: Bytes, sid: nat)
    requires Mirrors(s.master, s.sent) && InFlightAt(s.master, client, id)
    ensures
      var task := s.master.inFlight[client][id];
      && LiveOf(s.sent, sid) == LiveOf(Retire(s.sent, id), sid) + TaskBag(task, sid)
      && ClaimedOf(s.threads + [Redispatching(client, task, body)], sid) == ClaimedOf(s.threads, sid) + TaskBag(task, sid)
      && FinishingOf(s.threads + [Redispatching(client, task, body)], sid) == FinishingOf(s.threads, sid)
  {
    assert LiveAt(s.sent, client, id);
    LiveRetire(s.sent, id, sid);
    var pc := Redispatching(client, s.master.inFlight[client][id], body);
    ThreadStarts(s.threads, pc, sid);
  }

  lemma TaskDoneMovesChunk(s: State, client: nat, body: Bytes, sid: nat)
    requires Mirrors(s.master, s.sent)
    ensures SameChunks(s, ApplyTaskDone(s, client, body), sid)
  {
    match PopTaskId(body)
    case None =>
    case Some((id, rest)) =>
      if InFlightAt(s.master, client, id) {
        ClaimMovesChunk(s, client, id, rest, sid);
        HandInSum(TasksOf(s.master.pending, sid), LiveOf(Retire(s.sent, id), sid), ClaimedOf(s.threads, sid),
                  TasksOf(s.aggregated, sid), TaskBag(s.master.inFlight[client][id], sid));
      }
  }

  /** Every id of `order` is a live entry of the history for `tasks[id]`. */
  ghost predicate Reclaimable(sent: seq<Sent>, tasks: map<nat, Task>, order: seq<nat>) {
    && (forall id :: id in order ==> id in tasks && 1 <= id <= |sent| && sent[id - 1].live && sent[id - 1].task == tasks[id])
    && (forall i, j :: 0 <= i < j < |order| ==> order[i] != order[j])
  }

  /** One reclaimed task: from the history back to the front of the queue. */
  lemma ReclaimMovesOne(pending: seq<Task>, sent: seq<Sent>, id: nat, sid: nat)
    requires 1 <= id <= |sent| && sent[id - 1].live
    ensures TasksOf([sent[id - 1].task] + pending, sid) + LiveOf(Retire(sent, id), sid) == TasksOf(pending, sid) + LiveOf(sent, sid)
  {
    var task := sent[id - 1].task;
    LiveRetire(sent, id, sid);
    TasksConcat([task], pending, sid);
    TasksSingle(task, sid);
    Hand(LiveOf(sent, sid), LiveOf(Retire(sent, id), sid), TasksOf(pending, sid), TaskBag(task, sid));
  }

  lemma {:induction false} ReclaimMovesChunks(pending: seq<Task>, sent: seq<Sent>, tasks: map<nat, Task>, order: seq<nat>, sid: nat)
    requires Reclaimable(sent, tasks, order)
    ensures TasksOf(PushFront(pending, tasks, order), sid) + LiveOf(RetireAll(sent, order), sid)
            == TasksOf(pending, sid) + LiveOf(sent, sid)
    decreases |order|
  {
    if order != [] {
      var init, last := order[..|order| - 1], order[|order| - 1];
      assert last in order && forall id :: id in init ==> id in order;
      ReclaimMovesChunks(pending, sent, tasks, init, sid);
      LastStillLive(sent, order);
      ReclaimMovesOne(PushFront(pending, tasks, init), RetireAll(sent, init), last, sid);
    }
  }

  lemma LastStillLive(sent: seq<Sent>, order: seq<nat>)
    requires order != [] && 1 <= order[|order| - 1] <= |sent| && sent[order[|order| - 1] - 1].live
    requires forall i, j :: 0 <= i < j < |order| ==> order[i] != order[j]
    ensures
      var last, before := order[|order| - 1], RetireAll(sent, order[..|order| - 1]);
      before[last - 1].live && before[last - 1].task == sent[last - 1].task
  {
    var last := order[|order| - 1];
    RetiredLive(sent, order[..|order| - 1]);
    assert LiveAt(sent, sent[last - 1].client, last);
  }

  lemma FlightReclaimable(s: State, client: nat, order: seq<nat>)
    requires Mirrors(s.master, s.sent) && Enumerates(order, Flight(s.master, client))
    ensures Reclaimable(s.sent, Flight(s.master, client), order)
  {
    forall id | id in order
      ensures 1 <= id <= |s.sent| && s.sent[id - 1].live && s.sent[id - 1].task == Flight(s.master, client)[id]
    {
      assert InFlightAt(s.master, client, id);
      assert LiveAt(s.sent, client, id);
    }
  }

  lemma DisconnectMovesChunks(s: State, client: nat, order: seq<nat>, sid: nat)
    requires Mirrors(s.master, s.sent) && Enumerates(order, Flight(s.master, client))
    ensures SameChunks(s, ApplyDisconnect(s, client, order), sid)
  {
    FlightReclaimable(s, client, order);
    ReclaimMovesChunks(s.master.pending, s.sent, Flight(s.master, client), order, sid);
    ThreadStarts(s.threads, Assigning, sid);
  }

  /** A new handler that holds no chunk. */
  lemma QuietStart(s: State, s': State, pc: Pc, sid: nat)
    requires s'.threads == s.threads + [pc]
    requires s'.master.pending == s.master.pending && s'.sent == s.sent
    requires s'.aggregated == s.aggregated && s'.counted == s.counted
    requires ClaimedBag(pc, sid) == multiset{} && FinishingBag(pc, sid) == multiset{}
    ensures SameChunks(s, s', sid)
  {
    ThreadStarts(s.threads, pc, sid);
  }

  lemma StartMovesNothing(w: World, s: State, plan: Plan, sid: nat)
    ensures SameChunks(s, ApplyStart(w, s, plan), sid)
  {
    var s' := ApplyStart(w, s, plan);
    if !Refused(w, plan) {
      QuietStart(s, s', Publishing(s.master.nextSearchId), sid);
    }
  }

  lemma HelloMovesNothing(s: State, client: nat, threads: nat, sid: nat)
    ensures SameChunks(s, ApplyHello(s, client, threads), sid)
  {
    QuietStart(s, ApplyHello(s, client, threads), Greeting(client, threads), sid);
  }

  // ------------------------------------------------------- bodies in transit

  /** What is left of an honest reply once its task id is popped. */
  function ReplyBody(w: World, task: Task): Bytes {
    EncodeLines(ResultOf(w, task).lines) + EncodeTail(ResultOf(w, task))
  }

  /** Handlers hold the honest answer to the task they claimed. */
  ghost predicate BodiesOk(w: World, s: State) {
    forall i :: 0 <= i < |s.threads| ==> BodyOk(w, s.threads[i])
  }

  lemma BodiesTaskDone(w: World, s: State, client: nat, body: Bytes)
    requires BodiesOk(w, s) && Mirrors(s.master, s.sent) && HonestReply(w, s, client, body)
    ensures BodiesOk(w, ApplyTaskDone(s, client, body))
  {
    match PopTaskId(body)
    case None =>
    case Some((id, rest)) =>
      if InFlightAt(s.master, client, id) {
        assert LiveAt(s.sent, client, id);
        var task := s.master.inFlight[client][id];
        var r := ResultOf(w, task);
        assert body == ReplyBody(w, task) + ToBytes(r.taskId, 8);
        assert rest == ReplyBody(w, task);
      }
  }

  lemma BodiesNext(w: World, s: State, e: Event)
    requires BodiesOk(w, s) && Mirrors(s.master, s.sent) && Enabled(w, s, e)
    ensures BodiesOk(w, Apply(w, s, e))
  {
    match e
    case TaskDone(client, body) => BodiesTaskDone(w, s, client, body);
    case Step(i) => BodiesStep(w, s, i);
    case _ =>
  }

  /** One handler's body. */
  ghost predicate BodyOk(w: World, pc: Pc) {
    match pc
    case Redispatching(_, task, body) => body == ReplyBody(w, task)
    case Aggregating(task, body) => body == ReplyBody(w, task)
    case _ => true
  }

  /** A handler's step changes no other handler, and the only body it carries over
      is the one the handler already held. */
  ghost predicate MovesOnly(s: State, s': State, i: nat)
    requires i < |s.threads|
  {
    && |s'.threads| == |s.threads| && s'.threads == s.threads[i := s'.threads[i]] && s'.requests == s.requests
    && (s'.threads[i].Publishing? ==> s'.threads[i] == s.threads[i])
    && !s'.threads[i].Redispatching?
    && (s'.threads[i].Aggregating? ==>
      && s.threads[i].Redispatching? && s.threads[i].task == s'.threads[i].task
      && s.threads[i].body == s'.threads[i].body)
  }

  lemma LoopMovesOnly(w: World, s: State, i: nat)
    requires i < |s.threads| && (s.threads[i].Waking? || s.threads[i].Greeting? || s.threads[i].Assigning?)
    ensures MovesOnly(s, StepThread(w, s, i), i)
  {
    match s.threads[i]
    case Waking(client, left) => assert StepThread(w, s, i) == StepWake(s, i, client, left);
    case Greeting(client, left) => assert StepThread(w, s, i) == StepGreet(s, i, client, left);
    case Assigning => assert StepThread(w, s, i) == StepAssign(s, i);
  }

  lemma RedispatchMovesOnly(w: World, s: State, i: nat)
    requires i < |s.threads| && s.threads[i].Redispatching?
    ensures MovesOnly(s, StepThread(w, s, i), i)
  {
    assert StepThread(w, s, i) == StepRedispatch(s, i, s.threads[i].client, s.threads[i].task, s.threads[i].body);
  }

  lemma ResultMovesOnly(w: World, s: State, i: nat)
    requires i < |s.threads| && (s.threads[i].Aggregating? || s.threads[i].Writing? || s.threads[i].Counting?)
    ensures MovesOnly(s, StepThread(w, s, i), i)
  {
    match s.threads[i]
    case Aggregating(task, body) => assert StepThread(w, s, i) == StepAggregate(s, i, task, body);
    case Writing(task, lines) => assert StepThread(w, s, i) == StepWrite(s, i, task, lines);
    case Counting(task) => assert StepThread(w, s, i) == StepCount(s, i, task);
  }

  lemma PublishMovesOnly(w: World, s: State, i: nat)
    requires i < |s.threads| && (s.threads[i].Publishing? || s.threads[i].Finished?)
    ensures MovesOnly(s, StepThread(w, s, i), i)
  {
    if s.threads[i].Publishing? && s.threads[i].searchId < |s.requests| {
      assert StepThread(w, s, i) == StepPublish(w, s, i, s.threads[i].searchId);
    } else {
      assert StepThread(w, s, i) == s;
    }
  }

  lemma StepMovesOneThread(w: World, s: State, i: nat)
    requires i < |s.threads|
    ensures MovesOnly(s, StepThread(w, s, i), i)
  {
    match s.threads[i]
    case Waking(_, _) => LoopMovesOnly(w, s, i);
    case Greeting(_, _) => LoopMovesOnly(w, s, i);
    case Assigning => LoopMovesOnly(w, s, i);
    case Redispatching(_, _, _) => RedispatchMovesOnly(w, s, i);
    case Aggregating(_, _) => ResultMovesOnly(w, s, i);
    case Writing(_, _) => ResultMovesOnly(w, s, i);
    case Counting(_) => ResultMovesOnly(w, s, i);
    case Publishing(_) => PublishMovesOnly(w, s, i);
    case Finished => PublishMovesOnly(w, s, i);
  }

  lemma BodiesStep(w: World, s: State, i: nat)
    requires BodiesOk(w, s) && i < |s.threads|
    ensures BodiesOk(w, StepThread(w, s, i))
  {
    StepMovesOneThread(w, s, i);
    var s' := StepThread(w, s, i);
    assert BodyOk(w, s.threads[i]);
    assert BodyOk(w, s'.threads[i]);
  }

  /** Lines are short enough for 32-bit lengths once formatted. */
  ghost predicate WorldFits(w: World) {
    forall n :: n in w.files ==> forall line :: line in Split(w.files[n]) ==> |line| + FILENAME_FIELD + 1 < U32
  }

  /** The tasks that a request can give rise to. */
  ghost predicate TaskFits(task: Task) {
    task.searchId < U64 && task.end - task.start <= CHUNK_SIZE && |task.filename| < FILENAME_FIELD
  }

  lemma {:induction false} GrepMembers(rx: Regex, lines: seq<Bytes>)
    ensures forall x :: x in Grep(rx, lines) ==> exists line :: line in lines && x == StripCr(line)
    decreases |lines|
  {
    if lines != [] {
      var init, last := lines[..|lines| - 1], lines[|lines| - 1];
      GrepMembers(rx, init);
      assert last in lines && forall l :: l in init ==> l in lines;
    }
  }

  /** Lines owned by a range are lines of the file. */
  lemma {:induction false} LinesInAreLines(d: Bytes, a: nat, b: nat)
    ensures forall line :: line in LinesIn(d, a, b) ==> line in Split(d)
  {
    var n := |d|;
    WholeFileLines(d);
    if a < b {
      LinesInConcat(d, 0, a, b);
      if b <= n {
        LinesInConcat(d, 0, b, n);
      } else {
        RangePastEnd(d, 0, b);
      }
      assert LinesIn(d, 0, b) == LinesIn(d, 0, a) + LinesIn(d, a, b);
    }
  }

  /** Every line of a result is a formatted line of the file. */
  lemma ResultLinesFit(w: World, task: Task)
    requires WorldFits(w) && TaskFits(task)
    ensures LengthsFit(ResultOf(w, task).lines)
  {
    if task.filename in w.files {
      var d, rx := w.files[task.filename], w.compile(task.keyword);
      var lines := LinesIn(d, task.start, task.end);
      var matches := Grep(rx, lines);
      GrepMembers(rx, lines);
      LinesInAreLines(d, task.start, task.end);
      forall i | 0 <= i < |ResultOf(w, task).lines|
        ensures |ResultOf(w, task).lines[i]| < U32
      {
        assert matches[i] in matches;
        assert ResultOf(w, task).lines[i] == Format(task.filename, matches[i]);
      }
    }
  }

  /** The wire brings an honest reply back as the result it encodes. */
  lemma ReplyDecodes(w: World, task: Task)
    requires WorldFits(w) && TaskFits(task)
    ensures DecodeBatch(ReplyBody(w, task)) == Batch(ResultOf(w, task).(taskId := 0))
  {
    var r := ResultOf(w, task).(taskId := 0);
    ResultLinesFit(w, task);
    assert |r.lines| <= CHUNK_SIZE;
    BatchRoundTrip(r);
    TailFields(r);
  }

  // ------------------------------------------------------- every step conserves

  lemma {:induction false} OwnTasksBag(tasks: seq<Task>, owner: nat, sid: nat)
    requires forall t :: t in tasks ==> t.searchId == owner && t.taskId == 0
    ensures TasksOf(tasks, sid) == if sid == owner then multiset(tasks) else multiset{}
    decreases |tasks|
  {
    if tasks != [] {
      var init, last := SplitLast(tasks);
      OwnTasksBag(init, owner, sid);
      TasksAppend(init, last, sid);
      assert Chunk(last) == last;
    }
  }

  /** A search that is not published holds no chunk yet. */
  lemma NothingBeforePublish(s: State, sid: nat)
    requires Known(s) && sid !in s.master.sessions
    ensures Everywhere(s, sid) == multiset{} && FinishingOf(s.threads, sid) == multiset{}
    ensures TasksOf(s.counted, sid) == multiset{}
  {
    NoTasks(s.master.pending, sid);
    NoTasks(s.aggregated, sid);
    NoTasks(s.counted, sid);
    NoLive(s.sent, sid);
    forall i | 0 <= i < |s.threads|
      ensures ClaimedBag(s.threads[i], sid) == multiset{} && FinishingBag(s.threads[i], sid) == multiset{}
    {
      HeldElsewhere(s, i, sid);
    }
    NoClaimed(s.threads, sid);
    NoFinishing(s.threads, sid);
  }

  lemma HeldElsewhere(s: State, i: nat, sid: nat)
    requires Known(s) && sid !in s.master.sessions && i < |s.threads|
    ensures ClaimedBag(s.threads[i], sid) == multiset{} && FinishingBag(s.threads[i], sid) == multiset{}
  {
    assert TaskHeld(s.threads[i]).Some? ==> TaskHeld(s.threads[i]).value.searchId in s.master.sessions;
  }

  lemma PublishAddsChunks(w: World, s: State, i: nat, searchId: nat, sid: nat)
    requires i < |s.threads| && s.threads[i] == Publishing(searchId) && searchId < |s.requests|
    ensures
      var s' := StepPublish(w, s, i, searchId);
      var tasks := PlanTasks(w, s.requests[searchId], searchId);
      && Everywhere(s', sid) == Everywhere(s, sid) + (if sid == searchId then multiset(tasks) else multiset{})
      && FinishingOf(s'.threads, sid) == FinishingOf(s.threads, sid)
  {
    var plan := s.requests[searchId];
    var tasks := PlanTasks(w, plan, searchId);
    PlanTaskShape(w, plan, searchId, plan.names);
    OwnTasksBag(tasks, searchId, sid);
    TasksConcat(s.master.pending, tasks, sid);
    ThreadKeepsChunk(s.threads, i, Assigning, sid);
    var p, x := TasksOf(s.master.pending, sid), TasksOf(tasks, sid);
    HandInSum(p, multiset{}, LiveOf(s.sent, sid), multiset{}, x);
    assert p + x + LiveOf(s.sent, sid) + ClaimedOf(s.threads, sid) + TasksOf(s.aggregated, sid)
        == p + LiveOf(s.sent, sid) + ClaimedOf(s.threads, sid) + TasksOf(s.aggregated, sid) + x;
  }

  /** A chunk that a handler has claimed is one of its request's chunks. */
  lemma ClaimedTaskFits(w: World, s: State, i: nat, task: Task)
    requires SearchesOk(w, s) && Conserved(w, s) && Known(s) && i < |s.threads|
    requires s.threads[i].Redispatching? || s.threads[i].Aggregating?
    requires TaskHeld(s.threads[i]) == Some(task)
    ensures task.searchId in s.master.sessions
    ensures Chunk(task) in PlanTasks(w, s.requests[task.searchId], task.searchId)
    ensures TaskFits(task) && task.maxResults == s.master.sessions[task.searchId].maxResults
  {
    ClaimedTaskIsPlanned(w, s, i, task);
    var plan := s.requests[task.searchId];
    PlanTaskShape(w, plan, task.searchId, plan.names);
    assert SessionOf(w, s.master.sessions[task.searchId], plan, task.searchId);
  }

  lemma ClaimedTaskIsPlanned(w: World, s: State, i: nat, task: Task)
    requires SearchesOk(w, s) && Conserved(w, s) && Known(s) && i < |s.threads|
    requires s.threads[i].Redispatching? || s.threads[i].Aggregating?
    requires TaskHeld(s.threads[i]) == Some(task)
    ensures task.searchId in s.master.sessions
    ensures Chunk(task) in PlanTasks(w, s.requests[task.searchId], task.searchId)
  {
    var sid := task.searchId;
    ClaimedIsSomewhere(s, i, task);
    assert ConservedFor(w, s, sid);
    assert Chunk(task) in multiset(PlanTasks(w, s.requests[sid], sid));
  }

  lemma ClaimedIsSomewhere(s: State, i: nat, task: Task)
    requires i < |s.threads| && (s.threads[i].Redispatching? || s.threads[i].Aggregating?)
    requires TaskHeld(s.threads[i]) == Some(task)
    ensures Chunk(task) in Everywhere(s, task.searchId)
  {
    var sid := task.searchId;
    ClaimedContains(s.threads, i, sid);
    assert Chunk(task) in ClaimedBag(s.threads[i], sid);
    InThird(TasksOf(s.master.pending, sid), LiveOf(s.sent, sid), ClaimedOf(s.threads, sid), TasksOf(s.aggregated, sid), Chunk(task));
  }

  lemma InThird(p: multiset<Task>, l: multiset<Task>, c: multiset<Task>, a: multiset<Task>, x: Task)
    requires x in c
    ensures x in p + l + c + a
  {
  }

  /** The handler about to aggregate reads exactly the Worker's result. */
  lemma AggregatingDecodes(w: World, s: State, i: nat)
    requires WorldFits(w) && SearchesOk(w, s) && Conserved(w, s) && Known(s) && BodiesOk(w, s)
    requires i < |s.threads| && s.threads[i].Aggregating?
    ensures DecodeBatch(s.threads[i].body) == Batch(ResultOf(w, s.threads[i].task).(taskId := 0))
  {
    var task := s.threads[i].task;
    ClaimedTaskFits(w, s, i, task);
    ReplyDecodes(w, task);
    assert BodyOk(w, s.threads[i]);
  }

  lemma AggregateMovesChunk(w: World, s: State, i: nat, sid: nat)
    requires i < |s.threads| && s.threads[i].Aggregating?
    requires DecodeBatch(s.threads[i].body).Batch? && s.threads[i].task.searchId in s.master.sessions
    ensures SameChunks(s, StepAggregate(s, i, s.threads[i].task, s.threads[i].body), sid)
  {
    var task := s.threads[i].task;
    var s' := StepAggregate(s, i, task, s.threads[i].body);
    SettleStep(s, s', i, s'.threads[i], task, sid);
  }

  lemma WakeMovesChunk(s: State, i: nat, client: nat, left: nat, sid: nat)
    requires i < |s.threads| && s.threads[i] == Waking(client, left)
    ensures SameChunks(s, StepWake(s, i, client, left), sid)
  {
    var s' := StepWake(s, i, client, left);
    if left == 0 {
      QuietStep(s, s', i, Assigning, sid);
    } else {
      DispatchStep(s, s', i, client, s'.threads[i], sid);
    }
  }

  lemma GreetMovesChunk(s: State, i: nat, client: nat, left: nat, sid: nat)
    requires i < |s.threads| && s.threads[i] == Greeting(client, left)
    ensures SameChunks(s, StepGreet(s, i, client, left), sid)
  {
    var s' := StepGreet(s, i, client, left);
    if left == 0 {
      QuietStep(s, s', i, Finished, sid);
    } else {
      DispatchStep(s, s', i, client, s'.threads[i], sid);
    }
  }

  lemma AssignMovesNothing(s: State, i: nat, sid: nat)
    requires i < |s.threads| && s.threads[i] == Assigning
    ensures SameChunks(s, StepAssign(s, i), sid)
  {
    var s' := StepAssign(s, i);
    QuietStep(s, s', i, s'.threads[i], sid);
  }

  lemma RedispatchMovesChunk(w: World, s: State, i: nat, sid: nat)
    requires i < |s.threads| && s.threads[i].Redispatching?
    ensures SameChunks(s, StepThread(w, s, i), sid)
  {
    var pc := s.threads[i];
    var s' := StepRedispatch(s, i, pc.client, pc.task, pc.body);
    assert StepThread(w, s, i) == s';
    DispatchStep(s, s', i, pc.client, Aggregating(pc.task, pc.body), sid);
  }

  lemma WriteMovesNothing(w: World, s: State, i: nat, sid: nat)
    requires i < |s.threads| && s.threads[i].Writing?
    ensures SameChunks(s, StepThread(w, s, i), sid)
  {
    var pc := s.threads[i];
    var s' := StepWrite(s, i, pc.task, pc.lines);
    assert StepThread(w, s, i) == s';
    QuietStep(s, s', i, Counting(pc.task), sid);
  }

  lemma SchedulingMovesChunks(w: World, s: State, i: nat, sid: nat)
    requires i < |s.threads|
    requires s.threads[i].Assigning? || s.threads[i].Waking? || s.threads[i].Greeting?
    ensures SameChunks(s, StepThread(w, s, i), sid)
  {
    var pc := s.threads[i];
    if pc.Assigning? {
      AssignMovesNothing(s, i, sid);
      assert StepThread(w, s, i) == StepAssign(s, i);
    } else if pc.Waking? {
      WakeMovesChunk(s, i, pc.client, pc.left, sid);
      assert StepThread(w, s, i) == StepWake(s, i, pc.client, pc.left);
    } else {
      GreetMovesChunk(s, i, pc.client, pc.left, sid);
      assert StepThread(w, s, i) == StepGreet(s, i, pc.client, pc.left);
    }
  }

  /** Handlers' steps other than publication move chunks and lose none. */
  lemma StepMovesChunks(w: World, s: State, i: nat, sid: nat)
    requires i < |s.threads| && !s.threads[i].Publishing?
    requires s.threads[i].Aggregating? ==>
      DecodeBatch(s.threads[i].body).Batch? && s.threads[i].task.searchId in s.master.sessions
    ensures SameChunks(s, StepThread(w, s, i), sid)
  {
    var pc := s.threads[i];
    if pc.Finished? {
      assert StepThread(w, s, i) == s;
    } else if pc.Aggregating? {
      AggregateMovesChunk(w, s, i, sid);
      assert StepThread(w, s, i) == StepAggregate(s, i, pc.task, pc.body);
    } else if pc.Redispatching? {
      RedispatchMovesChunk(w, s, i, sid);
    } else if pc.Writing? {
      WriteMovesNothing(w, s, i, sid);
    } else if pc.Counting? {
      CountMovesChunk(s, i, pc.task, sid);
      assert StepThread(w, s, i) == StepCount(s, i, pc.task);
    } else {
      SchedulingMovesChunks(w, s, i, sid);
    }
  }
}
