/** Two runs in which the code does not do what one may expect of it.

    Capacity is not kept between critical sections: a worker that advertised two
    threads holds three tasks and its unsigned slot counter has wrapped. `TaskDone`
    frees a slot in one section and refills it in another, and `AssignIdleWorkers`
    reads the slot count in between.

    A search of 2^32 chunks is reported Done before anything is searched. */
module Witness {
  import opened Base
  import opened Codec
  import opened LineSearch
  import opened Chunking
  import opened Scheduler
  import opened Cluster
  import opened Conservation
  import opened EndToEnd
  import opened Progress

  const WORKER: nat := 7

  /** What a run shows: the worker's free slots and task ids, how much work waits,
      the idle queue, where every handler stands, and the ids handed out. */
  datatype Snap = Snap(slots: nat, ids: set<nat>, waiting: nat, idle: seq<nat>, threads: seq<Pc>, tasks: nat, searches: nat)

  ghost predicate At(s: State, v: Snap) {
    && WORKER in s.master.freeSlots && s.master.freeSlots[WORKER] == v.slots && Flight(s.master, WORKER).Keys == v.ids
    && |s.master.pending| == v.waiting && s.master.idle == v.idle && s.threads == v.threads
    && (v.idle == [] ==> WORKER !in s.master.idleIds) && WORKER in s.advertised && s.advertised[WORKER] == 2
    && s.master.nextTaskId == v.tasks && s.master.nextSearchId == v.searches == |s.requests|
  }

  ghost predicate Ends(w: World, trace: seq<State>, v: Snap) {
    IsRun(w, trace) && trace[0] == START && At(trace[|trace| - 1], v)
  }

  /** The worker says Hello with two threads while there is no work. */
  lemma Joins(w: World) returns (trace: seq<State>)
    ensures Ends(w, trace, Snap(2, {}, 0, [WORKER], [Finished], 0, 0))
  {
    trace := Extend(w, [START], Event.Hello(WORKER, 2));
    assert At(trace[|trace| - 1], Snap(2, {}, 0, [], [Greeting(WORKER, 2)], 0, 0));
    trace := Extend(w, trace, Event.Step(0));
  }

  /** A request for `n` tasks is accepted and published. */
  lemma Publishes(w: World, before: seq<State>, v: Snap, plan: Plan, n: nat) returns (trace: seq<State>)
    requires Ends(w, before, v) && v.searches < U64 && NamesValid(plan.names) && plan.maxResults < U64
    requires n > 0 && |PlanTasks(w, plan, v.searches)| == n && |PlanTasks(w, plan, 0)| == n
    ensures Ends(w, trace, v.(waiting := v.waiting + n, threads := v.threads + [Assigning], searches := v.searches + 1))
  {
    trace := Extend(w, before, Event.StartSearch(plan));
    var s := trace[|trace| - 1];
    assert s.threads == v.threads + [Publishing(v.searches)];
    trace := Extend(w, trace, Event.Step(|v.threads|));
    assert (v.threads + [Publishing(v.searches)])[|v.threads| := Assigning] == v.threads + [Assigning];
  }

  lemma Wakes(w: World, before: seq<State>, v: Snap, i: nat) returns (trace: seq<State>)
    requires Ends(w, before, v) && i < |v.threads| && v.threads[i] == Assigning
    requires v.idle == [WORKER] && v.waiting > 0
    ensures Ends(w, trace, v.(idle := [], threads := v.threads[i := Waking(WORKER, v.slots)]))
  {
    trace := Extend(w, before, Event.Step(i));
  }

  /** A task is sent to the worker, whatever its slots. */
  lemma Sends(s: State, v: Snap)
    requires At(s, v) && v.waiting > 0
    ensures DispatchIn(s, WORKER).1
    ensures At(DispatchIn(s, WORKER).0,
               v.(slots := Dec64(v.slots), ids := v.ids + {v.tasks + 1}, waiting := v.waiting - 1, tasks := v.tasks + 1))
  {
  }

  lemma Gives(w: World, before: seq<State>, v: Snap, i: nat, left: nat) returns (trace: seq<State>)
    requires Ends(w, before, v) && i < |v.threads| && v.threads[i] == Waking(WORKER, left) && left > 0 && v.waiting > 0
    ensures Ends(w, trace, v.(slots := Dec64(v.slots), ids := v.ids + {v.tasks + 1}, waiting := v.waiting - 1,
                              tasks := v.tasks + 1, threads := v.threads[i := Waking(WORKER, left - 1)]))
  {
    Sends(before[|before| - 1], v);
    trace := Extend(w, before, Event.Step(i));
  }

  lemma Refills(w: World, before: seq<State>, v: Snap, i: nat) returns (trace: seq<State>, pc: Pc)
    requires Ends(w, before, v) && i < |v.threads| && v.threads[i].Redispatching? && v.threads[i].client == WORKER
    requires v.waiting > 0
    ensures Ends(w, trace, v.(slots := Dec64(v.slots), ids := v.ids + {v.tasks + 1}, waiting := v.waiting - 1,
                              tasks := v.tasks + 1, threads := v.threads[i := pc]))
  {
    Sends(before[|before| - 1], v);
    trace := Extend(w, before, Event.Step(i));
    pc := Aggregating(v.threads[i].task, v.threads[i].body);
  }

  /** Nothing waits: the worker is queued as idle, with slots to spare. */
  lemma Queues(w: World, before: seq<State>, v: Snap, i: nat, left: nat) returns (trace: seq<State>)
    requires Ends(w, before, v) && i < |v.threads| && v.threads[i] == Waking(WORKER, left) && left > 0
    requires v.waiting == 0 && v.idle == []
    ensures Ends(w, trace, v.(idle := [WORKER], threads := v.threads[i := Assigning]))
  {
    trace := Extend(w, before, Event.Step(i));
  }

  lemma Claims(s: State, v: Snap, id: nat, body: Bytes)
    requires At(s, v) && v.ids == {id} && PopTaskId(body).Some? && PopTaskId(body).value.0 == id
    ensures InFlightAt(s.master, WORKER, id)
    ensures
      var pc := Redispatching(WORKER, s.master.inFlight[WORKER][id], PopTaskId(body).value.1);
      At(ApplyTaskDone(s, WORKER, body), v.(slots := Inc64(v.slots), ids := {}, threads := v.threads + [pc]))
  {
    assert id in Flight(s.master, WORKER).Keys;
    assert (s.master.inFlight[WORKER] - {id}).Keys == {};
  }

  /** The worker's answer to its only task is claimed. */
  lemma Replies(w: World, before: seq<State>, v: Snap, id: nat) returns (trace: seq<State>, pc: Pc)
    requires WorldFits(w) && Ends(w, before, v) && v.ids == {id} && id < U64
    ensures Ends(w, trace, v.(slots := Inc64(v.slots), ids := {}, threads := v.threads + [pc]))
    ensures pc.Redispatching? && pc.client == WORKER
  {
    var s := before[|before| - 1];
    InvAlways(w, before, |before| - 1);
    assert id in Flight(s.master, WORKER).Keys;
    var body := Answer(w, s, WORKER, id);
    Claims(s, v, id, body);
    trace := Extend(w, before, Event.TaskDone(WORKER, body));
    pc := Redispatching(WORKER, s.master.inFlight[WORKER][id], PopTaskId(body).value.1);
  }

  // ---------------------------------------------------------- broken capacity

  const A: Bytes := [97]
  const B: Bytes := [98]
  const C: Bytes := [99]
  const SMALL: Bytes := [120]
  const WORLD := World(map[A := SMALL, B := SMALL, C := SMALL], (keyword: Bytes) => Invalid)
  const ONE := Plan([A], [], 10)
  const THREE := Plan([A, B, C], [], 10)

  lemma SmallFits()
    ensures WorldFits(WORLD)
  {
    assert Split(SMALL) == [SMALL];
  }

  /** Each of the files is one task. */
  lemma {:induction false} OneTaskEach(plan: Plan, id: nat, names: seq<Bytes>)
    requires forall i :: 0 <= i < |names| ==> names[i] in [A, B, C]
    ensures |TasksFor(WORLD, plan, id, names)| == |names|
    decreases |names|
  {
    if names != [] {
      var name := names[|names| - 1];
      OneTaskEach(plan, id, names[..|names| - 1]);
      assert ChunkTasks(BaseTask(plan, id, name), 1, CHUNK_SIZE, CHUNK_SIZE) == [];
      assert WORLD.files[name] == SMALL;
    }
  }

  lemma PlanSizes(id: nat)
    ensures |PlanTasks(WORLD, ONE, id)| == 1 && |PlanTasks(WORLD, THREE, id)| == 3
    ensures NamesValid(ONE.names) && NamesValid(THREE.names)
  {
    OneTaskEach(ONE, id, ONE.names);
    OneTaskEach(THREE, id, THREE.names);
  }

  lemma OneWaits() returns (trace: seq<State>)
    ensures Ends(WORLD, trace, Snap(2, {}, 1, [WORKER], [Finished, Assigning], 0, 1))
  {
    PlanSizes(0);
    trace := Joins(WORLD);
    trace := Publishes(WORLD, trace, Snap(2, {}, 0, [WORKER], [Finished], 0, 0), ONE, 1);
  }

  /** The worker has one task, and none is left for its other thread. */
  lemma OneGiven() returns (trace: seq<State>)
    ensures Ends(WORLD, trace, Snap(1, {1}, 0, [], [Finished, Waking(WORKER, 1)], 1, 1))
  {
    trace := OneWaits();
    trace := Wakes(WORLD, trace, Snap(2, {}, 1, [WORKER], [Finished, Assigning], 0, 1), 1);
    trace := Gives(WORLD, trace, Snap(2, {}, 1, [], [Finished, Waking(WORKER, 2)], 0, 1), 1, 2);
  }

  /** It is queued as idle while its first thread works. */
  lemma HalfBusy() returns (trace: seq<State>)
    ensures Ends(WORLD, trace, Snap(1, {1}, 0, [WORKER], [Finished, Assigning], 1, 1))
  {
    trace := OneGiven();
    trace := Queues(WORLD, trace, Snap(1, {1}, 0, [], [Finished, Waking(WORKER, 1)], 1, 1), 1, 1);
  }

  /** Three tasks are published, and the running task's reply is claimed. */
  lemma Claimed() returns (trace: seq<State>, pc: Pc)
    ensures Ends(WORLD, trace, Snap(2, {}, 3, [WORKER], [Finished, Assigning, Assigning, pc], 1, 2))
    ensures pc.Redispatching? && pc.client == WORKER
  {
    PlanSizes(0);
    PlanSizes(1);
    SmallFits();
    trace := HalfBusy();
    trace := Publishes(WORLD, trace, Snap(1, {1}, 0, [WORKER], [Finished, Assigning], 1, 1), THREE, 3);
    trace, pc := Replies(WORLD, trace, Snap(1, {1}, 3, [WORKER], [Finished, Assigning, Assigning], 1, 2), 1);
  }

  /** The handler that wakes idle workers counts the freed slot as well. */
  lemma Full() returns (trace: seq<State>, pc: Pc)
    ensures Ends(WORLD, trace, Snap(0, {2, 3}, 1, [], [Finished, Assigning, Waking(WORKER, 0), pc], 3, 2))
    ensures pc.Redispatching? && pc.client == WORKER
  {
    trace, pc := Claimed();
    trace := Wakes(WORLD, trace, Snap(2, {}, 3, [WORKER], [Finished, Assigning, Assigning, pc], 1, 2), 2);
    trace := Gives(WORLD, trace, Snap(2, {}, 3, [], [Finished, Assigning, Waking(WORKER, 2), pc], 1, 2), 2, 2);
    trace := Gives(WORLD, trace, Snap(1, {2}, 2, [], [Finished, Assigning, Waking(WORKER, 1), pc], 2, 2), 2, 1);
  }

  lemma Overfull() returns (trace: seq<State>, threads: seq<Pc>)
    ensures Ends(WORLD, trace, Snap(U64 - 1, {2, 3, 4}, 0, [], threads, 4, 2))
  {
    var pc, last;
    trace, pc := Full();
    threads := [Finished, Assigning, Waking(WORKER, 0), pc];
    trace, last := Refills(WORLD, trace, Snap(0, {2, 3}, 1, [], threads, 3, 2), 3);
    threads := threads[3 := last];
  }

  /** There is a run in which a worker with two threads holds three tasks: what a
      worker advertised does not bound its tasks between critical sections. The
      Hello handler has finished when the reply arrives, as on one Update thread. */
  lemma CapacityCanBreak() returns (trace: seq<State>)
    ensures IsRun(WORLD, trace) && trace[0] == START
    ensures
      var s := trace[|trace| - 1];
      && WORKER in s.advertised && s.advertised[WORKER] == 2 && |Flight(s.master, WORKER)| == 3
      && WORKER in s.master.freeSlots && s.master.freeSlots[WORKER] == U64 - 1
  {
    var threads;
    trace, threads := Overfull();
    assert |{2, 3, 4}| == 3;
    assert |Flight(trace[|trace| - 1].master, WORKER).Keys| == 3;
  }

  // ----------------------------------------------------------- Done too early

  const HUGE_SIZE: nat := U32 * CHUNK_SIZE

  /** 2^32 chunks of empty lines. */
  function HugeFile(): Bytes {
    Newlines(HUGE_SIZE)
  }

  function Newlines(n: nat): (d: Bytes)
    ensures |d| == n
  {
    seq(n, _ => NEWLINE)
  }

  function HugeWorld(): World {
    World(map[A := HugeFile()], (keyword: Bytes) => Valid((line: Bytes) => true))
  }

  lemma {:induction false} EmptyLines(n: nat)
    ensures Split(Newlines(n)) == seq(n, _ => [])
    decreases n
  {
    if n > 0 {
      var d := Newlines(n);
      assert d[1..] == Newlines(n - 1) && LineEnd(d, 0) == 0;
      EmptyLines(n - 1);
      assert [d[..0]] + seq(n - 1, _ => []) == seq(n, _ => []);
    }
  }

  lemma HugeFits()
    ensures WorldFits(HugeWorld())
  {
    EmptyLines(HUGE_SIZE);
  }

  lemma {:induction false} AllMatch(rx: Regex, lines: seq<Bytes>)
    requires rx.Valid? && forall line :: rx.search(line)
    ensures |Grep(rx, lines)| == |lines|
    decreases |lines|
  {
    if lines != [] {
      AllMatch(rx, lines[..|lines| - 1]);
    }
  }

  lemma {:induction false} ChunkCount(base: Task, size: nat, chunk: nat, from: nat, count: nat)
    requires chunk > 0 && size == from + count * chunk
    ensures |ChunkTasks(base, size, chunk, from)| == count
    decreases count
  {
    if count > 0 {
      assert count * chunk == chunk + (count - 1) * chunk;
      ChunkCount(base, size, chunk, from + chunk, count - 1);
    }
  }

  lemma HugePlan(id: nat)
    ensures |PlanTasks(HugeWorld(), ONE, id)| == U32
  {
    var w := HugeWorld();
    ChunkCount(BaseTask(ONE, id, A), HUGE_SIZE, CHUNK_SIZE, 0, U32);
    assert TasksFor(w, ONE, id, [A][..0]) == [];
    assert PlanTasks(w, ONE, id) == [] + FileTasks(w, ONE, id, A);
  }

  /** Every one of its lines matches. */
  lemma HugeAnswer()
    ensures |GrepFiles(HugeWorld(), ONE.keyword, ONE.names)| == HUGE_SIZE
  {
    var w := HugeWorld();
    EmptyLines(HUGE_SIZE);
    AllMatch(w.compile([]), Split(HugeFile()));
    assert GrepFiles(w, [], [A][..0]) == [];
  }

  /** There is a run in which a search is Done with no matches while all of its
      2^32 chunks are pending, and every line of the file matches. */
  lemma DoneBeforeSearching() returns (trace: seq<State>)
    ensures WorldFits(HugeWorld()) && IsRun(HugeWorld(), trace) && trace[0] == START
    ensures
      var s := trace[|trace| - 1];
      && GetStatus(s.master, 0).Some? && GetStatus(s.master, 0).value.done
      && GetStatus(s.master, 0).value.totalMatches == 0 && |s.master.pending| == U32
      && s.requests == [ONE] && |GrepFiles(HugeWorld(), ONE.keyword, ONE.names)| == HUGE_SIZE
  {
    HugePlan(0);
    HugeFits();
    HugeAnswer();
    PlanSizes(0);
    trace := Extend(HugeWorld(), [START], Event.StartSearch(ONE));
    assert trace[|trace| - 1].threads == [Publishing(0)];
    trace := Extend(HugeWorld(), trace, Event.Step(0));
  }
}
