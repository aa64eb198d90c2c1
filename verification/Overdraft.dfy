/** Capacity between critical sections: it is kept by exactly those runs in which
    no task is sent to a worker without a free slot. */
module Overdraft {
  import opened Base
  import opened Codec
  import opened LineSearch
  import opened Chunking
  import opened Scheduler
  import opened Capacity
  import opened Cluster
  import opened Tables

  /** No counter has wrapped: free slots and running tasks are together what each
      worker advertised. */
  ghost predicate Within(s: State) {
    Exact(s.master, s.advertised)
  }

  /** The worker that a handler at this point is about to send a task to. */
  function SendsTo(pc: Pc): Option<nat> {
    match pc
    case Waking(client, left) => if left > 0 then Some(client) else None
    case Greeting(client, left) => if left > 0 then Some(client) else None
    case Redispatching(client, _, _) => Some(client)
    case _ => None
  }

  /** A handler is about to send a waiting task to a worker without a free slot. */
  predicate AboutToOverdraw(s: State, i: nat) {
    i < |s.threads| && SendsTo(s.threads[i]).Some? && Overdrawn(s.master, SendsTo(s.threads[i]).value)
  }

  /** The step from `s` to `s'` is taken by such a handler. */
  ghost predicate Overdraws(w: World, s: State, s': State) {
    exists i :: AboutToOverdraw(s, i) && s' == StepThread(w, s, i)
  }

  lemma SameFlight(m: Master, m': Master, advertised: map<nat, nat>)
    requires m'.inFlight == m.inFlight && m'.freeSlots == m.freeSlots && Exact(m, advertised)
    ensures Exact(m', advertised)
  {
    forall c: nat | c in m'.freeSlots
      ensures c in advertised && m'.freeSlots[c] + |Flight(m', c)| == advertised[c] < U64
    {
      assert Flight(m', c) == Flight(m, c);
    }
  }

  lemma SendStep(w: World, s: State, i: nat)
    requires i < |s.threads| && SendsTo(s.threads[i]).Some?
    ensures StepThread(w, s, i).master == Dispatch(s.master, SendsTo(s.threads[i]).value).0
    ensures StepThread(w, s, i).advertised == s.advertised
  {
    match s.threads[i]
    case Waking(client, left) => assert StepThread(w, s, i) == StepWake(s, i, client, left);
    case Greeting(client, left) => assert StepThread(w, s, i) == StepGreet(s, i, client, left);
    case Redispatching(client, task, body) =>
      assert StepThread(w, s, i) == StepRedispatch(s, i, client, task, body);
  }

  /** Nothing is sent: the tables of workers and of tasks in flight are as they
      were, and so is the queue, unless this handler publishes. */
  ghost predicate SameWork(s: State, s': State, i: nat)
    requires i < |s.threads|
  {
    && s'.master.inFlight == s.master.inFlight && s'.master.freeSlots == s.master.freeSlots
    && s'.advertised == s.advertised && s'.master.nextTaskId == s.master.nextTaskId
    && (!s.threads[i].Publishing? ==> s'.master.pending == s.master.pending)
  }

  lemma LoopEndStep(w: World, s: State, i: nat)
    requires i < |s.threads| && SendsTo(s.threads[i]).None? && (s.threads[i].Waking? || s.threads[i].Greeting?)
    ensures SameWork(s, StepThread(w, s, i), i)
  {
    match s.threads[i]
    case Waking(client, left) => assert StepThread(w, s, i) == StepWake(s, i, client, left);
    case Greeting(client, left) => assert StepThread(w, s, i) == StepGreet(s, i, client, left);
  }

  lemma SearchStep(w: World, s: State, i: nat)
    requires i < |s.threads| && (s.threads[i].Publishing? || s.threads[i].Assigning? || s.threads[i].Finished?)
    ensures SameWork(s, StepThread(w, s, i), i)
  {
    match s.threads[i]
    case Publishing(searchId) =>
      if searchId < |s.requests| {
        assert StepThread(w, s, i) == StepPublish(w, s, i, searchId);
      }
    case Assigning => assert StepThread(w, s, i) == StepAssign(s, i);
    case Finished =>
  }

  lemma ResultStep(w: World, s: State, i: nat)
    requires i < |s.threads| && (s.threads[i].Aggregating? || s.threads[i].Writing? || s.threads[i].Counting?)
    ensures SameWork(s, StepThread(w, s, i), i)
  {
    match s.threads[i]
    case Aggregating(task, body) => assert StepThread(w, s, i) == StepAggregate(s, i, task, body);
    case Writing(task, lines) => assert StepThread(w, s, i) == StepWrite(s, i, task, lines);
    case Counting(task) => assert StepThread(w, s, i) == StepCount(s, i, task);
  }

  lemma OtherStep(w: World, s: State, i: nat)
    requires i < |s.threads| && SendsTo(s.threads[i]).None?
    ensures SameWork(s, StepThread(w, s, i), i)
  {
    match s.threads[i]
    case Waking(_, _) => LoopEndStep(w, s, i);
    case Greeting(_, _) => LoopEndStep(w, s, i);
    case Publishing(_) => SearchStep(w, s, i);
    case Assigning => SearchStep(w, s, i);
    case Finished => SearchStep(w, s, i);
    case Aggregating(_, _) => ResultStep(w, s, i);
    case Writing(_, _) => ResultStep(w, s, i);
    case Counting(_) => ResultStep(w, s, i);
  }

  lemma StepWithin(w: World, s: State, i: nat)
    requires WorkersOk(s) && Within(s) && i < |s.threads|
    ensures Within(StepThread(w, s, i)) <==> !AboutToOverdraw(s, i)
  {
    if SendsTo(s.threads[i]).Some? {
      SendStep(w, s, i);
      DispatchExactIff(s.master, SendsTo(s.threads[i]).value, s.advertised);
    } else {
      OtherStep(w, s, i);
      SameFlight(s.master, StepThread(w, s, i).master, s.advertised);
    }
  }

  lemma TaskDoneWithin(s: State, client: nat, body: Bytes)
    requires WorkersOk(s) && Within(s)
    ensures Within(ApplyTaskDone(s, client, body))
  {
    if PopTaskId(body).Some? && InFlightAt(s.master, client, PopTaskId(body).value.0) {
      ClaimExact(s.master, client, PopTaskId(body).value.0, s.advertised);
    }
  }

  lemma ArrivalWithin(w: World, s: State, e: Event)
    requires WorkersOk(s) && Within(s) && Enabled(w, s, e) && !e.Step?
    ensures Within(Apply(w, s, e))
  {
    match e
    case StartSearch(plan) => SameFlight(s.master, ApplyStart(w, s, plan).master, s.advertised);
    case Hello(client, threads) => RegisterExact(s.master, client, threads, s.advertised);
    case TaskDone(client, body) => TaskDoneWithin(s, client, body);
    case Disconnect(client, order) => ReclaimExact(s.master, client, order, s.advertised);
  }

  lemma NoOverdraft(w: World, s: State, s': State, i: nat)
    requires i < |s.threads| && s' == StepThread(w, s, i) && !Overdraws(w, s, s')
    ensures !AboutToOverdraw(s, i)
  {
  }

  /** One critical section keeps every worker within its capacity if and only if
      it is not taken by a handler about to overdraw. */
  lemma SectionWithin(w: World, s: State, e: Event)
    requires WorkersOk(s) && Within(s) && Enabled(w, s, e)
    ensures Within(Apply(w, s, e)) <==> !Overdraws(w, s, Apply(w, s, e))
  {
    var s' := Apply(w, s, e);
    if Overdraws(w, s, s') {
      var i :| AboutToOverdraw(s, i) && s' == StepThread(w, s, i);
      StepWithin(w, s, i);
    } else if e.Step? {
      StepWithin(w, s, e.thread);
      NoOverdraft(w, s, s', e.thread);
    } else {
      ArrivalWithin(w, s, e);
    }
  }

  ghost predicate WithinAt(trace: seq<State>, k: nat)
    requires k < |trace|
  {
    Within(trace[k])
  }

  ghost predicate OverdrawsAt(w: World, trace: seq<State>, k: nat)
    requires k + 1 < |trace|
  {
    Overdraws(w, trace[k], trace[k + 1])
  }

  lemma {:induction false} WorkersAt(w: World, trace: seq<State>, k: nat)
    requires IsRun(w, trace) && trace[0] == START && k < |trace|
    ensures WorkersOk(trace[k])
  {
    if k > 0 {
      WorkersAt(w, trace, k - 1);
      assert StepAt(w, trace, k - 1);
      WorkersStepped(w, trace[k - 1], trace[k]);
    }
  }

  lemma WorkersStepped(w: World, s: State, s': State)
    requires WorkersOk(s) && Next(w, s, s')
    ensures WorkersOk(s')
  {
    var e :| Enabled(w, s, e) && s' == Apply(w, s, e);
    WorkersNext(w, s, e);
  }

  lemma WithinStep(w: World, trace: seq<State>, k: nat)
    requires IsRun(w, trace) && trace[0] == START && k + 1 < |trace| && WithinAt(trace, k)
    ensures WithinAt(trace, k + 1) <==> !OverdrawsAt(w, trace, k)
  {
    WorkersAt(w, trace, k);
    assert StepAt(w, trace, k);
    var e :| Enabled(w, trace[k], e) && trace[k + 1] == Apply(w, trace[k], e);
    SectionWithin(w, trace[k], e);
  }

  /** A run keeps every worker within what it advertised, up to its state `n`, if
      and only if none of its steps so far is taken by a handler about to overdraw. */
  lemma {:induction false} CapacityExactly(w: World, trace: seq<State>, n: nat)
    requires IsRun(w, trace) && trace[0] == START && n < |trace|
    ensures (forall k: nat :: k <= n ==> WithinAt(trace, k)) <==> (forall k: nat :: k < n ==> !OverdrawsAt(w, trace, k))
  {
    if n == 0 {
      assert Within(START);
    } else {
      CapacityExactly(w, trace, n - 1);
      if WithinAt(trace, n - 1) {
        WithinStep(w, trace, n - 1);
      }
    }
  }
}
