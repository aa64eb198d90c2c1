/** The Worker's thread pool: threads that sleep on a condition variable, the
    queue they share, and the destructor that drains it (ThreadPool.hpp). */
module ThreadPool {
  import opened Base
  import opened LineSearch

  /** `Awake` is on its way to the lock, `Asleep` waits for a notification. */
  datatype Thread = Awake | Working | Asleep | Exited

  /** `notifies` counts `notify_one` calls still to come from `Enqueue` calls that
      have pushed, `notifyAll` is the one still to come from the destructor.
      `enqueued` and `started` are history. */
  datatype State = State(
    queue: seq<Task>,
    stop: bool,
    threads: seq<Thread>,
    notifies: nat,
    notifyAll: bool,
    enqueued: seq<Task>,
    started: seq<Task>
  )

  /** `WorkerClient::CalculateThreadCount`: a pool always has a thread. */
  function CalculateThreadCount(available: nat): (r: nat)
    ensures r >= 1 && (available >= 2 ==> r == available - 1)
    ensures (available == 1 ==> r == 1) && (available == 0 ==> r == 4)
  {
    var n := if available > 1 then available - 1 else available;
    if n == 0 then 4 else n
  }

  function Start(threads: nat): State {
    State([], false, seq(threads, _ => Awake), 0, false, [], [])
  }

  // --------------------------------------------------------- critical sections

  function Push(s: State, task: Task): State {
    s.(queue := s.queue + [task], enqueued := s.enqueued + [task], notifies := s.notifies + 1)
  }

  /** A thread that holds the lock tests the wait condition. */
  function Check(s: State, i: nat): State
    requires i < |s.threads|
  {
    if !s.stop && s.queue == [] then s.(threads := s.threads[i := Asleep])
    else if s.queue == [] then s.(threads := s.threads[i := Exited])
    else
      s.(queue := s.queue[1..], started := s.started + [s.queue[0]], threads := s.threads[i := Working])
  }

  function WakeAll(threads: seq<Thread>): (r: seq<Thread>)
    ensures |r| == |threads|
    ensures forall i :: 0 <= i < |r| ==> r[i] == if threads[i] == Asleep then Awake else threads[i]
  {
    seq(|threads|, i requires 0 <= i < |threads| => if threads[i] == Asleep then Awake else threads[i])
  }

  datatype Event =
    | Enqueue(task: Task)           // pushes under the lock
    | NotifyOne(woken: Option<nat>) // wakes some sleeping thread, if there is one
    | Test(i: nat)                  // takes the lock and tests the condition
    | Finish(i: nat)                // `task()` returns
    | Spurious(i: nat)              // wakes without a notification
    | Destroy                       // the destructor sets the flag
    | NotifyAll

  /** Nothing is enqueued once the destructor runs, which runs once. */
  predicate Enabled(s: State, e: Event) {
    match e
    case Enqueue(task) => !s.stop
    case NotifyOne(woken) =>
      s.notifies > 0 && if woken.None? then Asleep !in s.threads else IsAt(s, woken.value, Asleep)
    case Test(i) => IsAt(s, i, Awake)
    case Finish(i) => IsAt(s, i, Working)
    case Spurious(i) => IsAt(s, i, Asleep)
    case Destroy => !s.stop
    case NotifyAll => s.notifyAll
  }

  predicate IsAt(s: State, i: nat, t: Thread) {
    i < |s.threads| && s.threads[i] == t
  }

  function Apply(s: State, e: Event): State
    requires Enabled(s, e)
  {
    match e
    case Enqueue(task) => Push(s, task)
    case NotifyOne(woken) =>
      s.(notifies := s.notifies - 1, threads := if woken.None? then s.threads else s.threads[woken.value := Awake])
    case Test(i) => Check(s, i)
    case Finish(i) => s.(threads := s.threads[i := Awake])
    case Spurious(i) => s.(threads := s.threads[i := Awake])
    case Destroy => s.(stop := true, notifyAll := true)
    case NotifyAll => s.(notifyAll := false, threads := WakeAll(s.threads))
  }

  ghost predicate Next(s: State, s': State) {
    exists e :: Enabled(s, e) && s' == Apply(s, e)
  }

  ghost predicate StepAt(trace: seq<State>, k: nat)
    requires k + 1 < |trace|
  {
    Next(trace[k], trace[k + 1])
  }

  /** A run of a pool with at least one thread. */
  ghost predicate IsRun(trace: seq<State>) {
    && trace != [] && trace[0] == Start(|trace[0].threads|) && trace[0].threads != []
    && forall k: nat :: k + 1 < |trace| ==> StepAt(trace, k)
  }

  // ------------------------------------------------------------------ class

  /** The pool's shared state and what is done to it under the lock. */
  class Pool {
    var taskQueue: seq<Task>
    var stop: bool
    var threads: seq<Thread>
    var notifies: nat
    var notifyAll: bool
    ghost var enqueued: seq<Task>
    var started: seq<Task>

    ghost function View(): State
      reads this
    {
      State(taskQueue, stop, threads, notifies, notifyAll, enqueued, started)
    }

    constructor (count: nat)
      ensures View() == Start(count)
    {
      taskQueue, stop, threads := [], false, seq(count, _ => Awake);
      notifies, notifyAll, enqueued, started := 0, false, [], [];
    }

    /** `Enqueue`, up to its notification. */
    method PushTask(task: Task)
      modifies this
      ensures View() == Push(old(View()), task)
    {
      taskQueue := taskQueue + [task];
      enqueued := enqueued + [task];
      notifies := notifies + 1;
    }

    /** One pass of a thread through its locked block: it waits, returns, or
        leaves with the front task. */
    method NextTask(i: nat) returns (task: Option<Task>)
      requires i < |threads|
      modifies this
      ensures View() == Check(old(View()), i)
      ensures task == if old(taskQueue) == [] then None else Some(old(taskQueue)[0])
    {
      if !(stop || taskQueue != []) {
        threads := threads[i := Asleep];
        return None;
      }
      if stop && taskQueue == [] {
        threads := threads[i := Exited];
        return None;
      }
      task := Some(taskQueue[0]);
      started := started + [taskQueue[0]];
      taskQueue := taskQueue[1..];
      threads := threads[i := Working];
    }

    /** The locked block of the destructor. */
    method SetStop()
      requires !stop
      modifies this`stop, this`notifyAll
      ensures View() == Apply(old(View()), Destroy)
    {
      stop, notifyAll := true, true;
    }
  }

  /** Any schedule of the pool: its own critical sections, and the notifications
      and wakeups of the condition variable. */
  method Run(pool: Pool, e: Event)
    requires Enabled(pool.View(), e)
    modifies pool
    ensures pool.View() == Apply(old(pool.View()), e)
  {
    match e
    case Enqueue(task) => pool.PushTask(task);
    case NotifyOne(woken) =>
      pool.notifies := pool.notifies - 1;
      if woken.Some? {
        pool.threads := pool.threads[woken.value := Awake];
      }
    case Test(i) => var _ := pool.NextTask(i);
    case Finish(i) => pool.threads := pool.threads[i := Awake];
    case Spurious(i) => pool.threads := pool.threads[i := Awake];
    case Destroy => pool.SetStop();
    case NotifyAll =>
      pool.notifyAll := false;
      pool.threads := WakeAll(pool.threads);
  }

  // ---------------------------------------------------------------- invariant

  function Count(threads: seq<Thread>, t: Thread): nat {
    if threads == [] then 0
    else Count(threads[..|threads| - 1], t) + if threads[|threads| - 1] == t then 1 else 0
  }

  lemma {:induction false} CountUpdate(threads: seq<Thread>, i: nat, new_: Thread, t: Thread)
    requires i < |threads|
    ensures Count(threads[i := new_], t) + (if threads[i] == t then 1 else 0)
         == Count(threads, t) + (if new_ == t then 1 else 0)
    decreases |threads|
  {
    var n := |threads| - 1;
    if i == n {
      assert threads[i := new_][..n] == threads[..n];
    } else {
      CountUpdate(threads[..n], i, new_, t);
      assert threads[i := new_][..n] == threads[..n][i := new_];
    }
  }

  lemma {:induction false} CountNone(threads: seq<Thread>, t: Thread)
    ensures Count(threads, t) == 0 <==> t !in threads
  {
    if threads != [] {
      var init, last := SplitLast(threads);
      CountNone(init, t);
    }
  }

  /** A queued task is never forgotten: while any thread sleeps, each queued task
      has a notification under way or a thread on its way to the lock. */
  ghost predicate Attended(s: State) {
    Asleep in s.threads ==> |s.queue| <= s.notifies + Count(s.threads, Awake)
  }

  ghost predicate Inv(s: State) {
    && s.threads != [] && Attended(s)
    && s.enqueued == s.started + s.queue
    && (Exited in s.threads ==> s.stop && s.queue == [])
    && (s.stop && !s.notifyAll ==> Asleep !in s.threads)
    && (s.notifyAll ==> s.stop)
  }

  lemma SetMember(threads: seq<Thread>, i: nat, new_: Thread, t: Thread)
    requires i < |threads|
    ensures t in threads[i := new_] ==> t in threads || t == new_
    ensures new_ in threads[i := new_]
  {
    assert threads[i := new_][i] == new_;
  }

  lemma TestKeeps(s: State, i: nat)
    requires Inv(s) && IsAt(s, i, Awake)
    ensures Inv(Check(s, i))
  {
    var s' := Check(s, i);
    CountUpdate(s.threads, i, s'.threads[i], Awake);
    SetMember(s.threads, i, s'.threads[i], Asleep);
    SetMember(s.threads, i, s'.threads[i], Exited);
    if s.queue != [] {
      SplitFirst(s.queue);
      ConcatAssoc(s.started, [s.queue[0]], s.queue[1..]);
    }
  }

  lemma WakeKeeps(s: State, i: nat, notifies: nat)
    requires Inv(s) && i < |s.threads| && s.threads[i] != Awake && s.threads[i] != Exited && notifies + 1 >= s.notifies
    ensures Inv(s.(threads := s.threads[i := Awake], notifies := notifies))
  {
    CountUpdate(s.threads, i, Awake, Awake);
    SetMember(s.threads, i, Awake, Asleep);
    SetMember(s.threads, i, Awake, Exited);
  }

  lemma InvNext(s: State, e: Event)
    requires Inv(s) && Enabled(s, e)
    ensures Inv(Apply(s, e))
  {
    match e
    case Enqueue(task) => ConcatAssoc(s.started, s.queue, [task]);
    case NotifyOne(woken) =>
      if woken.Some? {
        WakeKeeps(s, woken.value, s.notifies - 1);
      }
    case Test(i) => TestKeeps(s, i);
    case Finish(i) => WakeKeeps(s, i, s.notifies);
    case Spurious(i) => WakeKeeps(s, i, s.notifies);
    case Destroy =>
    case NotifyAll =>
      assert Exited in WakeAll(s.threads) ==> Exited in s.threads;
      assert Asleep !in WakeAll(s.threads);
  }

  lemma CountStart(n: nat)
    ensures Asleep !in Start(n).threads && Exited !in Start(n).threads
  {
  }

  lemma {:induction false} InvAlways(trace: seq<State>, k: nat)
    requires IsRun(trace) && k < |trace|
    ensures Inv(trace[k])
    decreases k
  {
    if k == 0 {
      CountStart(|trace[0].threads|);
    } else {
      InvAlways(trace, k - 1);
      assert StepAt(trace, k - 1);
      var e :| Enabled(trace[k - 1], e) && trace[k] == Apply(trace[k - 1], e);
      InvNext(trace[k - 1], e);
    }
  }

  // ------------------------------------------------------------ main results

  /** Tasks start exactly once and in the order enqueued; once any thread has
      returned, all of them have started. */
  lemma StartedInOrder(trace: seq<State>, k: nat)
    requires IsRun(trace) && k < |trace|
    ensures trace[k].enqueued == trace[k].started + trace[k].queue
    ensures Exited in trace[k].threads ==> trace[k].started == trace[k].enqueued
  {
    InvAlways(trace, k);
  }

  /** No wakeup is lost: with work queued, a notification is under way or a
      thread is up; and as long as a thread sleeps there is one of either for
      every queued task. */
  lemma NoLostWakeup(trace: seq<State>, k: nat)
    requires IsRun(trace) && k < |trace|
    ensures
      var s := trace[k];
      && (s.queue != [] ==> s.notifies > 0 || Awake in s.threads || Working in s.threads)
      && (Asleep in s.threads ==> |s.queue| <= s.notifies + Count(s.threads, Awake))
  {
    InvAlways(trace, k);
    var s := trace[k];
    CountNone(s.threads, Awake);
    if s.queue != [] {
      assert s.threads[0] in s.threads;
    }
  }

  // ----------------------------------------------------------- draining

  function Weight(t: Thread): nat {
    match t
    case Awake => 1
    case Working => 2
    case Asleep => 2
    case Exited => 0
  }

  function Weights(threads: seq<Thread>): nat {
    if threads == [] then 0 else Weights(threads[..|threads| - 1]) + Weight(threads[|threads| - 1])
  }

  lemma {:induction false} WeightsUpdate(threads: seq<Thread>, i: nat, t: Thread)
    requires i < |threads|
    ensures Weights(threads[i := t]) + Weight(threads[i]) == Weights(threads) + Weight(t)
    decreases |threads|
  {
    var n := |threads| - 1;
    if i == n {
      assert threads[i := t][..n] == threads[..n];
    } else {
      WeightsUpdate(threads[..n], i, t);
      assert threads[i := t][..n] == threads[..n][i := t];
    }
  }

  lemma {:induction false} WeightsWake(threads: seq<Thread>)
    ensures Weights(WakeAll(threads)) <= Weights(threads)
    decreases |threads|
  {
    if threads != [] {
      var n := |threads| - 1;
      WeightsWake(threads[..n]);
      assert WakeAll(threads)[..n] == WakeAll(threads[..n]);
    }
  }

  /** How many steps a stopping pool can still take. */
  function StepsLeft(s: State): nat {
    s.notifies + (if s.notifyAll then 1 else 0) + Weights(s.threads) + 2 * |s.queue|
  }

  lemma StopDescends(s: State, e: Event)
    requires Inv(s) && s.stop && Enabled(s, e)
    ensures Apply(s, e).stop && StepsLeft(Apply(s, e)) < StepsLeft(s)
  {
    match e
    case Enqueue(task) =>
    case NotifyOne(woken) => if woken.Some? { WeightsUpdate(s.threads, woken.value, Awake); }
    case Test(i) => WeightsUpdate(s.threads, i, Check(s, i).threads[i]);
    case Finish(i) => WeightsUpdate(s.threads, i, Awake);
    case Spurious(i) => WeightsUpdate(s.threads, i, Awake);
    case Destroy =>
    case NotifyAll => WeightsWake(s.threads);
  }

  /** Nothing is due: only a spurious wakeup, which nobody may count on, could
      still move the pool. */
  ghost predicate Stuck(s: State) {
    forall e :: Enabled(s, e) ==> e.Spurious?
  }

  /** A stopping pool in which nothing is due has only returned threads. */
  lemma StuckMeansExited(s: State)
    requires Inv(s) && s.stop && Stuck(s)
    ensures forall i :: 0 <= i < |s.threads| ==> s.threads[i] == Exited
  {
    forall i: nat | i < |s.threads| ensures s.threads[i] == Exited {
      assert !Enabled(s, Test(i)) && !Enabled(s, Finish(i)) && !Enabled(s, NotifyAll);
    }
  }

  lemma {:induction false} StoppedRun(trace: seq<State>, j: nat, k: nat)
    requires IsRun(trace) && j <= k < |trace| && trace[j].stop
    ensures trace[k].stop && StepsLeft(trace[k]) + (k - j) <= StepsLeft(trace[j])
    decreases k
  {
    if j < k {
      StoppedRun(trace, j, k - 1);
      InvAlways(trace, k - 1);
      assert StepAt(trace, k - 1);
      var e :| Enabled(trace[k - 1], e) && trace[k] == Apply(trace[k - 1], e);
      StopDescends(trace[k - 1], e);
    }
  }

  /** The destructor drains the pool: after the flag is set no run goes on for
      ever, and it can only end with every thread returned and every task that
      was ever enqueued started. */
  lemma GracefulDrain(trace: seq<State>, j: nat)
    requires IsRun(trace) && j < |trace| && trace[j].stop
    ensures |trace| - 1 - j <= StepsLeft(trace[j])
    ensures
      var last := trace[|trace| - 1];
      Stuck(last) ==>
        (forall i :: 0 <= i < |last.threads| ==> last.threads[i] == Exited) && last.started == last.enqueued
  {
    var n := |trace| - 1;
    StoppedRun(trace, j, n);
    InvAlways(trace, n);
    if Stuck(trace[n]) {
      StuckMeansExited(trace[n]);
      assert trace[n].threads[0] in trace[n].threads;
    }
  }
}
