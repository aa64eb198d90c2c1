/** First come, first served: in what order searches are worked on, idle workers
    are woken and result files are written. */
module Order {
  import opened Base
  import opened LineSearch
  import opened Chunking
  import opened Scheduler
  import opened Cluster
  import opened Tables
  import opened Conservation
  import opened EndToEnd
  import opened History

  // -------------------------------------------------------- the idle queue

  /** The client that a step takes from the idle queue. */
  function TakenAt(a: State, b: State): seq<nat> {
    if |b.master.idle| < |a.master.idle| then a.master.idle[..1] else []
  }

  /** The client that a step puts into it. */
  function JoinedAt(a: State, b: State): seq<nat> {
    if |b.master.idle| > |a.master.idle| then b.master.idle[|b.master.idle| - 1..] else []
  }

  /** All that were taken between two moments of a run, in order. */
  function Taken(trace: seq<State>, j: nat, k: nat): seq<nat>
    requires j <= k < |trace|
    decreases k
  {
    if j == k then [] else Taken(trace, j, k - 1) + TakenAt(trace[k - 1], trace[k])
  }

  function Joined(trace: seq<State>, j: nat, k: nat): seq<nat>
    requires j <= k < |trace|
    decreases k
  {
    if j == k then [] else Joined(trace, j, k - 1) + JoinedAt(trace[k - 1], trace[k])
  }

  /** A step takes from the front, or adds at the end, or neither. */
  ghost predicate QueueStep(a: State, b: State) {
    a.master.idle + JoinedAt(a, b) == TakenAt(a, b) + b.master.idle && |JoinedAt(a, b)| + |TakenAt(a, b)| <= 1
  }

  lemma QueueTouched(a: State, b: State, t: Touch)
    requires Touches(a, b, t)
    ensures QueueStep(a, b)
  {
    var q := a.master.idle;
    match t
    case Untouched => assert b.master.idle == q;
    case Took =>
      if a.master.pending != [] && q != [] {
        assert q == q[..1] + q[1..];
      }
    case Dispatched(client) =>
      if b.master.idle != q {
        assert b.master.idle == q + [client];
      }
  }

  lemma QueueNext(w: World, s: State, e: Event)
    requires Enabled(w, s, e)
    ensures QueueStep(s, Apply(w, s, e))
  {
    if e.Step? {
      var t := StepTouches(w, s, e.thread);
      QueueTouched(s, Apply(w, s, e), t);
    } else {
      assert Apply(w, s, e).master.idle == s.master.idle;
    }
  }

  /** The idle queue is a queue: between any two moments of a run it lost what was
      taken at its front and got what was added at its end. */
  lemma {:induction false} IdleIsQueue(w: World, trace: seq<State>, j: nat, k: nat)
    requires IsRun(w, trace) && j <= k < |trace|
    ensures trace[j].master.idle + Joined(trace, j, k) == Taken(trace, j, k) + trace[k].master.idle
    decreases k
  {
    if j < k {
      IdleIsQueue(w, trace, j, k - 1);
      assert StepAt(w, trace, k - 1);
      var a, b := trace[k - 1], trace[k];
      var e :| Enabled(w, a, e) && b == Apply(w, a, e);
      QueueNext(w, a, e);
      ConcatAssoc(trace[j].master.idle, Joined(trace, j, k - 1), JoinedAt(a, b));
      ConcatAssoc(Taken(trace, j, k - 1), a.master.idle, JoinedAt(a, b));
      ConcatAssoc(Taken(trace, j, k - 1), TakenAt(a, b), b.master.idle);
    }
  }

  /** Of two entries of the idle queue the one in front is taken first. */
  lemma {:induction false} QueuedFirstTakenFirst(w: World, trace: seq<State>, k: nat, l: nat, i: nat, j: nat) returns (m: nat)
    requires IsRun(w, trace) && k <= l && l + 1 < |trace| && i < j < |trace[k].master.idle|
    requires |Taken(trace, k, l)| == j && TakenAt(trace[l], trace[l + 1]) != []
    ensures TakenAt(trace[l], trace[l + 1]) == [trace[k].master.idle[j]]
    ensures k <= m < l && |Taken(trace, k, m)| == i && TakenAt(trace[m], trace[m + 1]) == [trace[k].master.idle[i]]
  {
    TakenIs(w, trace, k, l);
    m := TakenBefore(trace, k, l, i);
    TakenIs(w, trace, k, m);
  }

  /** What is taken stood in the queue, at the place given by those taken before. */
  lemma TakenIs(w: World, trace: seq<State>, k: nat, l: nat)
    requires IsRun(w, trace) && k <= l && l + 1 < |trace|
    requires |Taken(trace, k, l)| < |trace[k].master.idle| && TakenAt(trace[l], trace[l + 1]) != []
    ensures TakenAt(trace[l], trace[l + 1]) == [trace[k].master.idle[|Taken(trace, k, l)|]]
  {
    IdleIsQueue(w, trace, k, l);
    var n := |Taken(trace, k, l)|;
    assert (trace[k].master.idle + Joined(trace, k, l))[n] == (Taken(trace, k, l) + trace[l].master.idle)[n];
  }

  lemma {:induction false} TakenBefore(trace: seq<State>, k: nat, l: nat, i: nat) returns (m: nat)
    requires k <= l < |trace| && i < |Taken(trace, k, l)|
    ensures k <= m < l && |Taken(trace, k, m)| == i && TakenAt(trace[m], trace[m + 1]) != []
    decreases l
  {
    if |Taken(trace, k, l - 1)| > i {
      m := TakenBefore(trace, k, l - 1, i);
    } else {
      m := l - 1;
    }
  }

  /** A client is taken from the queue by a handler that assigns work, while a task
      waits; if the worker is still registered, that handler goes on to fill its
      free slots, and if not it is skipped. */
  lemma TakenIsWoken(w: World, s: State, i: nat)
    requires i < |s.threads| && TakenAt(s, StepThread(w, s, i)) != []
    ensures s.threads[i] == Assigning && s.master.pending != [] && s.master.idle != []
    ensures
      var client := s.master.idle[0];
      StepThread(w, s, i).threads[i] ==
        if client in s.master.freeSlots then Waking(client, s.master.freeSlots[client]) else Assigning
  {
    if s.threads[i].Assigning? {
      assert StepThread(w, s, i) == StepAssign(s, i);
    } else {
      OthersDoNotTake(w, s, i);
    }
  }

  lemma OthersDoNotTake(w: World, s: State, i: nat)
    requires i < |s.threads| && !s.threads[i].Assigning?
    ensures TakenAt(s, StepThread(w, s, i)) == []
  {
    match s.threads[i]
    case Waking(client, left) => assert StepThread(w, s, i) == StepWake(s, i, client, left);
    case Greeting(client, left) => assert StepThread(w, s, i) == StepGreet(s, i, client, left);
    case Redispatching(client, task, body) => assert StepThread(w, s, i) == StepRedispatch(s, i, client, task, body);
    case Publishing(_) => PublishTouches(w, s, i);
    case Aggregating(_, _) => ResultTouches(w, s, i);
    case Writing(_, _) => ResultTouches(w, s, i);
    case Counting(_) => ResultTouches(w, s, i);
    case Finished => PublishTouches(w, s, i);
  }

  /** Who joins is a registered worker that found no task waiting. */
  lemma JoinedIsIdle(w: World, s: State, e: Event)
    requires Enabled(w, s, e) && JoinedAt(s, Apply(w, s, e)) != []
    ensures s.master.pending == [] && JoinedAt(s, Apply(w, s, e))[0] in s.master.freeSlots
  {
    if e.Step? {
      var t := StepTouches(w, s, e.thread);
    } else {
      ArrivalJoinsNone(w, s, e);
    }
  }

  lemma ArrivalJoinsNone(w: World, s: State, e: Event)
    requires Enabled(w, s, e) && !e.Step?
    ensures JoinedAt(s, Apply(w, s, e)) == []
  {
  }

  // ------------------------------------------------------- the pending tasks

  /** What a step does to the queue of pending tasks. */
  datatype Move = Still | Published(sid: nat) | Sends | Returns(n: nat)

  ghost predicate Moves(w: World, a: State, b: State, m: Move) {
    match m
    case Still =>
      b.master.pending == a.master.pending && |b.sent| == |a.sent| && b.master.sessions.Keys == a.master.sessions.Keys
    case Published(sid) =>
      && sid < |a.requests| && b.requests == a.requests && |b.sent| == |a.sent|
      && sid !in a.master.sessions && b.master.sessions.Keys == a.master.sessions.Keys + {sid}
      && b.master.pending == a.master.pending + PlanTasks(w, a.requests[sid], sid)
    case Sends =>
      && a.master.pending != [] && b.master.pending == a.master.pending[1..]
      && |b.sent| == |a.sent| + 1 && Chunk(b.sent[|a.sent|].task) == Chunk(a.master.pending[0])
      && b.master.sessions.Keys == a.master.sessions.Keys
    case Returns(n) =>
      && n <= |b.master.pending| && b.master.pending[n..] == a.master.pending
      && (forall i :: 0 <= i < n ==> b.master.pending[i].taskId >= 1)
      && |b.sent| == |a.sent| && b.master.sessions.Keys == a.master.sessions.Keys
  }

  lemma DispatchMove(w: World, a: State, b: State, client: nat) returns (m: Move)
    requires b.sent == DispatchIn(a, client).0.sent && b.master.pending == DispatchIn(a, client).0.master.pending
    requires b.master.sessions.Keys == a.master.sessions.Keys
    ensures Moves(w, a, b, m) && !m.Returns?
  {
    DispatchChanges(a, client);
    m := if client in a.master.freeSlots && a.master.pending != [] then Sends else Still;
  }

  lemma PublishMove(w: World, s: State, i: nat, sid: nat)
    requires SearchesOk(w, s) && i < |s.threads| && s.threads[i] == Publishing(sid)
    ensures Moves(w, s, StepThread(w, s, i), Published(sid))
  {
    assert StepThread(w, s, i) == StepPublish(w, s, i, sid);
  }

  lemma ThreadMove(w: World, s: State, i: nat) returns (m: Move)
    requires Inv(w, s) && i < |s.threads|
    ensures Moves(w, s, StepThread(w, s, i), m) && !m.Returns?
  {
    if s.threads[i].Publishing? {
      PublishMove(w, s, i, s.threads[i].searchId);
      m := Published(s.threads[i].searchId);
    } else {
      StepKeepsSearches(w, s, i);
      var t := StepTouches(w, s, i);
      m := TouchMove(w, s, i, t);
    }
  }

  lemma TouchMove(w: World, s: State, i: nat, t: Touch) returns (m: Move)
    requires i < |s.threads| && Touches(s, StepThread(w, s, i), t) && !s.threads[i].Publishing?
    requires StepThread(w, s, i).master.sessions.Keys == s.master.sessions.Keys
    ensures Moves(w, s, StepThread(w, s, i), m) && !m.Returns?
  {
    match t
    case Untouched =>
      OthersKeepPending(w, s, i);
      m := Still;
    case Took => m := Still;
    case Dispatched(client) => m := DispatchMove(w, s, StepThread(w, s, i), client);
  }

  lemma OthersKeepPending(w: World, s: State, i: nat)
    requires i < |s.threads| && Touches(s, StepThread(w, s, i), Untouched) && !s.threads[i].Publishing?
    ensures StepThread(w, s, i).master.pending == s.master.pending
  {
    match s.threads[i]
    case Assigning => assert StepThread(w, s, i) == StepAssign(s, i);
    case Waking(client, left) => assert StepThread(w, s, i) == StepWake(s, i, client, left);
    case Greeting(client, left) => assert StepThread(w, s, i) == StepGreet(s, i, client, left);
    case Redispatching(client, task, body) => assert StepThread(w, s, i) == StepRedispatch(s, i, client, task, body);
    case Aggregating(task, body) => assert StepThread(w, s, i) == StepAggregate(s, i, task, body);
    case Writing(task, lines) => assert StepThread(w, s, i) == StepWrite(s, i, task, lines);
    case Counting(task) => assert StepThread(w, s, i) == StepCount(s, i, task);
    case Finished =>
  }

  lemma DisconnectMove(w: World, s: State, client: nat, order: seq<nat>) returns (m: Move)
    requires FlightIndexed(s.master) && Enumerates(order, Flight(s.master, client))
    ensures Moves(w, s, ApplyDisconnect(s, client, order), m)
  {
    var front := ReclaimedFirst(s.master, client, order);
    m := Returns(|front|);
    var s' := ApplyDisconnect(s, client, order);
    forall i | 0 <= i < |front| ensures s'.master.pending[i].taskId >= 1 {
      assert InFlightAt(s.master, client, order[|order| - 1 - i]);
    }
  }

  lemma ArrivalStill(w: World, s: State, e: Event)
    requires Enabled(w, s, e) && !e.Step? && !e.Disconnect?
    ensures Moves(w, s, Apply(w, s, e), Still)
  {
  }

  lemma QueueMove(w: World, s: State, e: Event) returns (m: Move)
    requires Inv(w, s) && Enabled(w, s, e)
    ensures Moves(w, s, Apply(w, s, e), m)
    ensures !e.Disconnect? ==> !m.Returns?
  {
    match e
    case Step(i) => m := ThreadMove(w, s, i);
    case Disconnect(client, order) => m := DisconnectMove(w, s, client, order);
    case _ =>
      ArrivalStill(w, s, e);
      m := Still;
  }

  /** The search that a step publishes. */
  ghost function NewSearch(a: State, b: State): Option<nat> {
    if exists sid :: sid in b.master.sessions && sid !in a.master.sessions then
      var sid :| sid in b.master.sessions && sid !in a.master.sessions;
      Some(sid)
    else None
  }

  /** The tasks of all searches published so far, search after search. */
  ghost function AllTasks(w: World, trace: seq<State>, k: nat): seq<Task>
    requires k < |trace|
  {
    if k == 0 then []
    else
      var sid := NewSearch(trace[k - 1], trace[k]);
      AllTasks(w, trace, k - 1) +
        if sid.Some? && sid.value < |trace[k].requests| then PlanTasks(w, trace[k].requests[sid.value], sid.value) else []
  }

  /** A step sends a task that was never sent before: those carry no id yet. */
  predicate FirstSend(a: State, b: State) {
    |b.sent| > |a.sent| && a.master.pending != [] && a.master.pending[0].taskId == 0
  }

  /** How many tasks have been sent for the first time. */
  function Begun(trace: seq<State>, k: nat): nat
    requires k < |trace|
  {
    if k == 0 then 0 else Begun(trace, k - 1) + if FirstSend(trace[k - 1], trace[k]) then 1 else 0
  }

  /** The first `r` pending tasks were reclaimed; behind them stand the tasks not
      yet begun, in the order in which they were published. */
  ghost predicate InOrder(w: World, trace: seq<State>, k: nat, r: nat)
    requires k < |trace|
  {
    var pending, all, n := trace[k].master.pending, AllTasks(w, trace, k), Begun(trace, k);
    && r <= |pending| && (forall i :: 0 <= i < r ==> pending[i].taskId >= 1)
    && n <= |all| && pending[r..] == all[n..] && (forall i :: 0 <= i < |all| ==> all[i].taskId == 0)
  }

  lemma PlannedUnsent(w: World, plan: Plan, sid: nat)
    ensures forall i :: 0 <= i < |PlanTasks(w, plan, sid)| ==> PlanTasks(w, plan, sid)[i].taskId == 0
  {
    PlanTaskShape(w, plan, sid, plan.names);
    assert forall i :: 0 <= i < |PlanTasks(w, plan, sid)| ==> PlanTasks(w, plan, sid)[i] in PlanTasks(w, plan, sid);
  }

  lemma OrderPublished(w: World, trace: seq<State>, k: nat, r: nat, sid: nat)
    requires 0 < k < |trace| && InOrder(w, trace, k - 1, r) && Moves(w, trace[k - 1], trace[k], Published(sid))
    ensures InOrder(w, trace, k, r)
  {
    var a, b := trace[k - 1], trace[k];
    var tasks, all, n := PlanTasks(w, a.requests[sid], sid), AllTasks(w, trace, k - 1), Begun(trace, k - 1);
    PublishedNow(w, trace, k, sid);
    PlannedUnsent(w, a.requests[sid], sid);
    assert b.master.pending[r..] == a.master.pending[r..] + tasks;
    assert (all + tasks)[n..] == all[n..] + tasks;
  }

  lemma NothingNew(w: World, trace: seq<State>, k: nat)
    requires 0 < k < |trace| && trace[k].master.sessions.Keys == trace[k - 1].master.sessions.Keys
    ensures AllTasks(w, trace, k) == AllTasks(w, trace, k - 1)
  {
    assert forall sid: nat :: sid in trace[k].master.sessions <==> sid in trace[k].master.sessions.Keys;
    assert NewSearch(trace[k - 1], trace[k]).None?;
  }

  /** The task that a step sends is the next of all published, in their order. */
  ghost predicate SentAs(w: World, trace: seq<State>, k: nat)
    requires k + 1 < |trace|
  {
    && Begun(trace, k) < |AllTasks(w, trace, k)| && |trace[k].sent| < |trace[k + 1].sent|
    && Chunk(trace[k + 1].sent[|trace[k].sent|].task) == AllTasks(w, trace, k)[Begun(trace, k)]
  }

  lemma OrderSends(w: World, trace: seq<State>, k: nat, r: nat) returns (r': nat)
    requires 0 < k < |trace| && InOrder(w, trace, k - 1, r) && Moves(w, trace[k - 1], trace[k], Sends)
    ensures InOrder(w, trace, k, r') && r' <= r
    ensures FirstSend(trace[k - 1], trace[k]) <==> r == 0
    ensures r == 0 ==> SentAs(w, trace, k - 1)
  {
    var pending, all, n := trace[k - 1].master.pending, AllTasks(w, trace, k - 1), Begun(trace, k - 1);
    NothingNew(w, trace, k);
    if r == 0 {
      r' := 0;
      assert pending[0..] == pending;
      assert all[n] == pending[0];
      assert pending[1..] == all[n..][1..] == all[n + 1..];
      assert Chunk(all[n]) == all[n];
    } else {
      r' := r - 1;
      assert pending[1..][r - 1..] == pending[r..];
    }
  }

  lemma OrderReturns(w: World, trace: seq<State>, k: nat, r: nat, n: nat)
    requires 0 < k < |trace| && InOrder(w, trace, k - 1, r) && Moves(w, trace[k - 1], trace[k], Returns(n))
    ensures InOrder(w, trace, k, r + n)
  {
    NothingNew(w, trace, k);
    var a, b := trace[k - 1].master.pending, trace[k].master.pending;
    assert b[r + n..] == b[n..][r..];
    forall i | 0 <= i < r + n ensures b[i].taskId >= 1 {
      if i >= n {
        assert b[i] == b[n..][i - n];
      }
    }
  }

  lemma OrderStep(w: World, trace: seq<State>, k: nat, r: nat, m: Move) returns (r': nat)
    requires 0 < k < |trace| && InOrder(w, trace, k - 1, r) && Moves(w, trace[k - 1], trace[k], m)
    ensures InOrder(w, trace, k, r') && (!m.Returns? ==> r' <= r)
  {
    r' := r;
    match m
    case Still => NothingNew(w, trace, k);
    case Published(sid) => OrderPublished(w, trace, k, r, sid);
    case Sends => r' := OrderSends(w, trace, k, r);
    case Returns(n) =>
      OrderReturns(w, trace, k, r, n);
      r' := r + n;
  }

  /** In every state of every run the tasks not yet begun stand at the end of the
      queue in the order in which they were published. Only tasks reclaimed from
      lost workers stand before them. */
  lemma {:induction false} PendingInOrder(w: World, trace: seq<State>, k: nat) returns (r: nat)
    requires WorldFits(w) && IsRun(w, trace) && trace[0] == START && k < |trace|
    ensures InOrder(w, trace, k, r)
    decreases k
  {
    r := 0;
    if k > 0 {
      r := PendingInOrder(w, trace, k - 1);
      var m := MoveAt(w, trace, k - 1);
      r := OrderStep(w, trace, k, r, m);
    }
  }

  lemma MoveAt(w: World, trace: seq<State>, k: nat) returns (m: Move)
    requires WorldFits(w) && IsRun(w, trace) && trace[0] == START && k + 1 < |trace|
    ensures Moves(w, trace[k], trace[k + 1], m)
  {
    InvAlways(w, trace, k);
    assert StepAt(w, trace, k);
    var e :| Enabled(w, trace[k], e) && trace[k + 1] == Apply(w, trace[k], e);
    m := QueueMove(w, trace[k], e);
  }

  lemma SendingMove(w: World, a: State, b: State, m: Move)
    requires Moves(w, a, b, m) && |b.sent| > |a.sent|
    ensures m.Sends?
  {
  }

  lemma NoneReclaimed(w: World, trace: seq<State>, k: nat)
    requires k < |trace| && InOrder(w, trace, k, 0)
    ensures forall i :: 0 <= i < |trace[k].master.pending| ==> trace[k].master.pending[i].taskId == 0
  {
    assert trace[k].master.pending[0..] == trace[k].master.pending;
  }

  /** What is sent for the first time is the next task in the order of publication,
      and it is sent only when no reclaimed task waits. */
  lemma BegunInOrder(w: World, trace: seq<State>, k: nat)
    requires WorldFits(w) && IsRun(w, trace) && trace[0] == START && k + 1 < |trace|
    requires FirstSend(trace[k], trace[k + 1])
    ensures SentAs(w, trace, k)
    ensures forall i :: 0 <= i < |trace[k].master.pending| ==> trace[k].master.pending[i].taskId == 0
  {
    var r := PendingInOrder(w, trace, k);
    var m := MoveAt(w, trace, k);
    SendingMove(w, trace[k], trace[k + 1], m);
    var r' := OrderSends(w, trace, k + 1, r);
    NoneReclaimed(w, trace, k);
  }

  // ---------------------------------------------------- runs without losses

  ghost predicate KeepsWorkers(w: World, trace: seq<State>, k: nat)
    requires k + 1 < |trace|
  {
    exists e: Event :: !e.Disconnect? && Enabled(w, trace[k], e) && trace[k + 1] == Apply(w, trace[k], e)
  }

  /** No worker is lost. */
  ghost predicate NoLosses(w: World, trace: seq<State>) {
    forall k: nat :: k + 1 < |trace| ==> KeepsWorkers(w, trace, k)
  }

  /** The chunks sent, in order of task id. */
  function SentChunks(sent: seq<Sent>): (r: seq<Task>)
    ensures |r| == |sent|
    ensures forall i :: 0 <= i < |r| ==> r[i] == Chunk(sent[i].task)
  {
    seq(|sent|, i requires 0 <= i < |sent| => Chunk(sent[i].task))
  }

  lemma SentChunksNext(a: seq<Sent>, b: seq<Sent>)
    requires SentGrows(a, b) && |b| <= |a| + 1
    ensures SentChunks(b) == SentChunks(a) + if |b| > |a| then [Chunk(b[|a|].task)] else []
  {
  }

  lemma KeptMove(w: World, trace: seq<State>, k: nat) returns (m: Move)
    requires WorldFits(w) && IsRun(w, trace) && trace[0] == START && k + 1 < |trace| && NoLosses(w, trace)
    ensures Moves(w, trace[k], trace[k + 1], m) && !m.Returns? && SentGrows(trace[k].sent, trace[k + 1].sent)
  {
    InvAlways(w, trace, k);
    assert KeepsWorkers(w, trace, k);
    var e: Event :| !e.Disconnect? && Enabled(w, trace[k], e) && trace[k + 1] == Apply(w, trace[k], e);
    m := QueueMove(w, trace[k], e);
    StepGrows(w, trace, k);
  }

  /** As long as no worker is lost: what was sent so far, in order, followed by what
      waits, is all tasks in the order in which they were published. */
  lemma {:induction false} FirstComeFirstServed(w: World, trace: seq<State>, k: nat)
    requires WorldFits(w) && IsRun(w, trace) && trace[0] == START && k < |trace| && NoLosses(w, trace)
    ensures SentChunks(trace[k].sent) + trace[k].master.pending == AllTasks(w, trace, k)
    ensures InOrder(w, trace, k, 0)
    decreases k
  {
    if k > 0 {
      FirstComeFirstServed(w, trace, k - 1);
      var m := KeptMove(w, trace, k - 1);
      var r := OrderStep(w, trace, k, 0, m);
      ServedStep(w, trace, k, m);
    }
  }

  lemma ServedStep(w: World, trace: seq<State>, k: nat, m: Move)
    requires 0 < k < |trace| && Moves(w, trace[k - 1], trace[k], m) && !m.Returns?
    requires InOrder(w, trace, k - 1, 0)
    requires SentChunks(trace[k - 1].sent) + trace[k - 1].master.pending == AllTasks(w, trace, k - 1)
    requires SentGrows(trace[k - 1].sent, trace[k].sent)
    ensures SentChunks(trace[k].sent) + trace[k].master.pending == AllTasks(w, trace, k)
  {
    match m
    case Still =>
      NothingNew(w, trace, k);
      SentChunksNext(trace[k - 1].sent, trace[k].sent);
    case Sends =>
      NothingNew(w, trace, k);
      NoneReclaimed(w, trace, k - 1);
      ServedSend(w, trace[k - 1], trace[k]);
    case Published(sid) =>
      PublishedNow(w, trace, k, sid);
      ServedPublish(w, trace[k - 1], trace[k], sid);
  }

  lemma ServedPublish(w: World, a: State, b: State, sid: nat)
    requires Moves(w, a, b, Published(sid)) && SentGrows(a.sent, b.sent)
    ensures SentChunks(b.sent) + b.master.pending == SentChunks(a.sent) + a.master.pending + PlanTasks(w, a.requests[sid], sid)
  {
    SentChunksNext(a.sent, b.sent);
    ConcatAssoc(SentChunks(a.sent), a.master.pending, PlanTasks(w, a.requests[sid], sid));
  }

  lemma ServedSend(w: World, a: State, b: State)
    requires Moves(w, a, b, Sends) && SentGrows(a.sent, b.sent) && a.master.pending[0].taskId == 0
    ensures SentChunks(b.sent) + b.master.pending == SentChunks(a.sent) + a.master.pending
  {
    SentChunksNext(a.sent, b.sent);
    FrontMoves(SentChunks(a.sent), a.master.pending);
  }

  lemma FrontMoves(sent: seq<Task>, pending: seq<Task>)
    requires pending != [] && pending[0].taskId == 0
    ensures sent + [Chunk(pending[0])] + pending[1..] == sent + pending
  {
  }

  lemma PublishedNow(w: World, trace: seq<State>, k: nat, sid: nat)
    requires 0 < k < |trace| && Moves(w, trace[k - 1], trace[k], Published(sid))
    ensures AllTasks(w, trace, k) == AllTasks(w, trace, k - 1) + PlanTasks(w, trace[k - 1].requests[sid], sid)
  {
    assert sid in trace[k].master.sessions;
    assert NewSearch(trace[k - 1], trace[k]) == Some(sid);
  }
}
