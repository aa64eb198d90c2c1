/** Whole handlers as functions of the Master's state, composed from its critical
    sections. */
module Handlers {
  import opened Base
  import opened Codec
  import opened LineSearch
  import opened Scheduler

  // ---------------------------------------------------------------- handlers

  /** The loop that hands one worker up to `count` tasks. */
  function GiveUpTo(m: Master, client: nat, count: nat): (r: Master)
    ensures |r.pending| <= |m.pending|
    ensures count > 0 && m.pending != [] && client in m.freeSlots ==> |r.pending| < |m.pending|
    decreases count
  {
    if count == 0 then m
    else
      var (m', task) := Dispatch(m, client);
      if task.None? then m' else GiveUpTo(m', client, count - 1)
  }

  /** What one turn of the loop does to a property `during` it, of the state and
      the tasks still to be handed out, and one `after` it. */
  ghost predicate GiveRule(m: Master, client: nat, left: nat, during: (Master, nat) -> bool, after: Master -> bool) {
    var (m', task) := Dispatch(m, client);
    if left == 0 then after(m) else if task.None? then after(m') else during(m', left - 1)
  }

  lemma {:induction false} GiveUpToKeeps(m: Master, client: nat, count: nat, during: (Master, nat) -> bool, after: Master -> bool)
    requires during(m, count)
    requires forall m: Master, left: nat {:trigger GiveRule(m, client, left, during, after)} ::
      during(m, left) ==> GiveRule(m, client, left, during, after)
    ensures after(GiveUpTo(m, client, count))
    decreases count
  {
    assert GiveRule(m, client, count, during, after);
    if count > 0 && Dispatch(m, client).1.Some? {
      GiveUpToKeeps(Dispatch(m, client).0, client, count - 1, during, after);
    }
  }

  /** `AssignIdleWorkers`; it ends from any state whatever. */
  function AssignAll(m: Master): Master
    decreases |m.pending|, |m.idle|
  {
    var (m', wakeup) := TakeIdle(m);
    match wakeup
    case NoWork => m
    case Stale => AssignAll(m')
    case Wake(client, slots) => AssignAll(GiveUpTo(m', client, slots))
  }

  /** The message that a dispatch sends, if any. */
  function SentTo(client: nat, task: Option<Task>): seq<(nat, Task)> {
    if task.Some? then [(client, task.value)] else []
  }

  /** The messages that the loops send, in order. */
  function GiveSent(m: Master, client: nat, count: nat): seq<(nat, Task)>
    decreases count
  {
    if count == 0 then []
    else
      var (m', task) := Dispatch(m, client);
      if task.None? then [] else [(client, task.value)] + GiveSent(m', client, count - 1)
  }

  function AssignSent(m: Master): seq<(nat, Task)>
    decreases |m.pending|, |m.idle|
  {
    var (m', wakeup) := TakeIdle(m);
    match wakeup
    case NoWork => []
    case Stale => AssignSent(m')
    case Wake(client, slots) => GiveSent(m', client, slots) + AssignSent(GiveUpTo(m', client, slots))
  }

  /** One turn of the loop, for the tables and the messages. */
  lemma GiveTurns(m: Master, client: nat, left: nat)
    requires left > 0
    ensures
      var (m', task) := Dispatch(m, client);
      if task.Some? then
        && GiveUpTo(m, client, left) == GiveUpTo(m', client, left - 1)
        && GiveSent(m, client, left) == SentTo(client, task) + GiveSent(m', client, left - 1)
      else GiveUpTo(m, client, left) == m' && GiveSent(m, client, left) == SentTo(client, task)
  {
  }

  /** Every message carries a task that is now in flight at the worker it goes to;
      the messages are as many as the ids handed out, in order of id. */
  ghost predicate Holds(m: Master, r: Master, sent: seq<(nat, Task)>) {
    && r.nextTaskId == m.nextTaskId + |sent|
    && (forall c: nat, id: nat :: InFlightAt(m, c, id) ==> InFlightAt(r, c, id) && r.inFlight[c][id] == m.inFlight[c][id])
    && forall k: nat :: k < |sent| ==> HeldAs(r, sent[k], m.nextTaskId + 1 + k)
  }

  predicate HeldAs(r: Master, message: (nat, Task), id: nat) {
    message.1.taskId == id && InFlightAt(r, message.0, id) && r.inFlight[message.0][id] == message.1
  }

  lemma HoldsThen(m: Master, mid: Master, r: Master, a: seq<(nat, Task)>, b: seq<(nat, Task)>)
    requires Holds(m, mid, a) && Holds(mid, r, b)
    ensures Holds(m, r, a + b)
  {
    forall k: nat | k < |a + b| ensures HeldAs(r, (a + b)[k], m.nextTaskId + 1 + k) {
      if k < |a| {
        assert HeldAs(mid, a[k], m.nextTaskId + 1 + k);
      } else {
        assert HeldAs(r, b[k - |a|], mid.nextTaskId + 1 + (k - |a|));
      }
    }
  }

  lemma DispatchHolds(m: Master, client: nat)
    requires FlightIndexed(m)
    ensures
      var (m', task) := Dispatch(m, client);
      FlightIndexed(m') && Holds(m, m', SentTo(client, task))
  {
    if client in m.freeSlots && m.pending != [] {
      DispatchFlight(m, client);
      assert InFlightAt(Dispatch(m, client).0, client, m.nextTaskId + 1);
    } else {
      KeepsFlight(m, Dispatch(m, client).0);
    }
  }

  lemma {:induction false} GiveHolds(m: Master, client: nat, count: nat)
    requires FlightIndexed(m)
    ensures FlightIndexed(GiveUpTo(m, client, count)) && Holds(m, GiveUpTo(m, client, count), GiveSent(m, client, count))
    decreases count
  {
    if count > 0 {
      var (m', task) := Dispatch(m, client);
      DispatchHolds(m, client);
      if task.Some? {
        GiveHolds(m', client, count - 1);
        HoldsThen(m, m', GiveUpTo(m', client, count - 1), [(client, task.value)], GiveSent(m', client, count - 1));
      }
    }
  }

  lemma TakeHolds(m: Master)
    requires FlightIndexed(m)
    ensures FlightIndexed(TakeIdle(m).0) && Holds(m, TakeIdle(m).0, [])
  {
    KeepsFlight(m, TakeIdle(m).0);
  }

  /** What `AssignIdleWorkers` sends is what it puts in flight. */
  lemma {:induction false} AssignHolds(m: Master)
    requires FlightIndexed(m)
    ensures FlightIndexed(AssignAll(m)) && Holds(m, AssignAll(m), AssignSent(m))
    decreases |m.pending|, |m.idle|
  {
    var (m', wakeup) := TakeIdle(m);
    TakeHolds(m);
    match wakeup
    case NoWork =>
    case Stale =>
      AssignHolds(m');
      HoldsThen(m, m', AssignAll(m'), [], AssignSent(m'));
      assert [] + AssignSent(m') == AssignSent(m');
    case Wake(client, slots) =>
      var given := GiveUpTo(m', client, slots);
      GiveHolds(m', client, slots);
      AssignHolds(given);
      HoldsThen(m', given, AssignAll(given), GiveSent(m', client, slots), AssignSent(given));
      HoldsThen(m, m', AssignAll(given), [], GiveSent(m', client, slots) + AssignSent(given));
      assert [] + (GiveSent(m', client, slots) + AssignSent(given)) == AssignSent(m);
  }

  function ResultFile(output: map<nat, seq<Bytes>>, searchId: nat): seq<Bytes> {
    if searchId in output then output[searchId] else []
  }

  /** The result files once the first `wanted` of `lines` are written. */
  function WithLines(output: map<nat, seq<Bytes>>, searchId: nat, lines: seq<Bytes>, wanted: Option<nat>): map<nat, seq<Bytes>> {
    if wanted.None? || wanted.value == 0 then output
    else output[searchId := ResultFile(output, searchId) + Take(lines, wanted.value)]
  }

  /** The rest of an accepted `TaskDone`: add the result, write, count. */
  function Complete(m: Master, output: map<nat, seq<Bytes>>, task: Task, body: Bytes): (Master, map<nat, seq<Bytes>>) {
    match DecodeBatch(body)
    case Batch(result) =>
      (CountChunk(Aggregate(m, task.searchId, result).0, task.searchId),
       WithLines(output, task.searchId, result.lines, Aggregate(m, task.searchId, result).1))
    case _ => (CountChunk(m, task.searchId), output)
  }

  /** Completing a task leaves the scheduling tables alone. */
  lemma CompleteLeaves(m: Master, output: map<nat, seq<Bytes>>, task: Task, body: Bytes)
    ensures
      var m' := Complete(m, output, task, body).0;
      && m'.pending == m.pending && m'.inFlight == m.inFlight && m'.freeSlots == m.freeSlots
      && m'.nextTaskId == m.nextTaskId && m'.idle == m.idle && m'.idleIds == m.idleIds
  {
  }
}
