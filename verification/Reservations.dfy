/** Slots that handlers in progress are about to fill. At lock granularity this is
    what ties a worker's free slots to the idle queue: no slot is forgotten, and
    none is filled twice unless two handlers hold it. */
module Reservations {
  import opened Base
  import opened Codec
  import opened LineSearch
  import opened Chunking
  import opened Scheduler
  import opened Cluster
  import opened Tables
  import opened Overdraft

  // ------------------------------------------------------------ slots on hold

  /** How many tasks a handler at this point still means to send to worker `c`. */
  function Hold(pc: Pc, c: nat): nat {
    match pc
    case Waking(client, left) => if client == c then left else 0
    case Greeting(client, left) => if client == c then left else 0
    case Redispatching(client, _, _) => if client == c then 1 else 0
    case _ => 0
  }

  function Held(threads: seq<Pc>, c: nat): nat {
    if threads == [] then 0 else Held(threads[..|threads| - 1], c) + Hold(threads[|threads| - 1], c)
  }

  lemma {:induction false} HeldUpdate(threads: seq<Pc>, i: nat, pc: Pc, c: nat)
    requires i < |threads|
    ensures Held(threads[i := pc], c) + Hold(threads[i], c) == Held(threads, c) + Hold(pc, c)
    decreases |threads|
  {
    var n := |threads| - 1;
    if i == n {
      assert threads[i := pc][..n] == threads[..n];
    } else {
      HeldUpdate(threads[..n], i, pc, c);
      assert threads[i := pc][..n] == threads[..n][i := pc];
    }
  }

  lemma HeldAppend(threads: seq<Pc>, pc: Pc, c: nat)
    ensures Held(threads + [pc], c) == Held(threads, c) + Hold(pc, c)
  {
    assert (threads + [pc])[..|threads|] == threads;
  }

  lemma {:induction false} NoneHeld(threads: seq<Pc>, c: nat)
    requires forall i :: 0 <= i < |threads| ==> Hold(threads[i], c) == 0
    ensures Held(threads, c) == 0
    decreases |threads|
  {
    if threads != [] {
      NoneHeld(threads[..|threads| - 1], c);
    }
  }

  /** Tasks that worker `c` runs or is about to be sent. */
  function Load(m: Master, threads: seq<Pc>, c: nat): nat {
    |Flight(m, c)| + Held(threads, c)
  }

  /** A worker stands in the idle queue, or all its threads are spoken for. */
  predicate AttendedFor(m: Master, threads: seq<Pc>, advertised: map<nat, nat>, c: nat) {
    c in m.idleIds || (c in advertised && advertised[c] <= Load(m, threads, c))
  }

  /** No thread of a worker is spoken for twice. */
  predicate ReservedFor(m: Master, threads: seq<Pc>, advertised: map<nat, nat>, c: nat) {
    c in advertised && Load(m, threads, c) <= advertised[c]
  }

  // ------------------------------------------------------- steps that dispatch

  /** A handler point that holds at most slots of `client`. */
  predicate HoldsOnly(pc: Pc, client: nat) {
    match pc
    case Waking(d, _) => d == client
    case Greeting(d, _) => d == client
    case Redispatching(d, _, _) => d == client
    case _ => true
  }

  /** A handler that holds slots of `client` tries to fill one of them. */
  predicate Fills(m: Master, client: nat, pc: Pc, pc': Pc) {
    && HoldsOnly(pc, client) && HoldsOnly(pc', client)
    && if Dispatch(m, client).1.Some? then Hold(pc', client) + 1 == Hold(pc, client) else Hold(pc', client) == 0
  }

  /** A filled slot moves from the handler to the worker. */
  lemma FillKeepsLoad(m: Master, threads: seq<Pc>, i: nat, client: nat, pc: Pc, c: nat)
    requires FlightIndexed(m) && c in m.freeSlots && i < |threads| && Fills(m, client, threads[i], pc)
    ensures
      var (m', sent) := Dispatch(m, client);
      && (sent.Some? || c != client ==> Load(m', threads[i := pc], c) == Load(m, threads, c))
      && (sent.None? ==> Load(m', threads[i := pc], c) <= Load(m, threads, c))
  {
    HeldUpdate(threads, i, pc, c);
    if Dispatch(m, client).1.Some? {
      DispatchNumbers(m, client, c);
    }
  }

  lemma FillAttends(m: Master, threads: seq<Pc>, i: nat, client: nat, pc: Pc, advertised: map<nat, nat>, c: nat)
    requires FlightIndexed(m) && c in m.freeSlots && i < |threads| && Fills(m, client, threads[i], pc)
    requires AttendedFor(m, threads, advertised, c)
    ensures AttendedFor(Dispatch(m, client).0, threads[i := pc], advertised, c)
  {
    FillKeepsLoad(m, threads, i, client, pc, c);
  }

  lemma FillReserves(m: Master, threads: seq<Pc>, i: nat, client: nat, pc: Pc, advertised: map<nat, nat>, c: nat)
    requires FlightIndexed(m) && c in m.freeSlots && i < |threads| && Fills(m, client, threads[i], pc)
    requires ReservedFor(m, threads, advertised, c)
    ensures ReservedFor(Dispatch(m, client).0, threads[i := pc], advertised, c)
  {
    FillKeepsLoad(m, threads, i, client, pc, c);
  }

  // ------------------------------------------------ the step that takes holds

  lemma BalancedBound(slots: nat, running: nat, threads: nat)
    requires Balanced(slots, running, threads) && threads < U64
    ensures threads <= slots + running
    ensures running <= threads ==> slots + running == threads
  {
  }

  function Woken(m: Master): Pc {
    match TakeIdle(m).1
    case NoWork => Finished
    case Stale => Assigning
    case Wake(client, slots) => Waking(client, slots)
  }

  lemma TakeLoad(m: Master, threads: seq<Pc>, i: nat, c: nat)
    requires i < |threads| && threads[i] == Assigning
    ensures
      var (m', wakeup) := TakeIdle(m);
      Load(m', threads[i := Woken(m)], c) ==
        Load(m, threads, c) + if wakeup.Wake? && wakeup.client == c then wakeup.slots else 0
  {
    HeldUpdate(threads, i, Woken(m), c);
    assert Flight(TakeIdle(m).0, c) == Flight(m, c);
  }

  lemma TakeAttends(m: Master, threads: seq<Pc>, i: nat, advertised: map<nat, nat>, c: nat)
    requires Indexed(m) && Ledger(m, advertised) && c in m.freeSlots && advertised[c] < U64
    requires i < |threads| && threads[i] == Assigning && AttendedFor(m, threads, advertised, c)
    ensures AttendedFor(TakeIdle(m).0, threads[i := Woken(m)], advertised, c)
  {
    TakeLoad(m, threads, i, c);
    BalancedBound(m.freeSlots[c], |Flight(m, c)|, advertised[c]);
  }

  lemma TakeReserves(m: Master, threads: seq<Pc>, i: nat, advertised: map<nat, nat>, c: nat)
    requires Ledger(m, advertised) && c in m.freeSlots && advertised[c] < U64
    requires i < |threads| && threads[i] == Assigning && ReservedFor(m, threads, advertised, c)
    requires TakeIdle(m).1.Wake? && TakeIdle(m).1.client == c ==> Held(threads, c) == 0
    ensures ReservedFor(TakeIdle(m).0, threads[i := Woken(m)], advertised, c)
  {
    TakeLoad(m, threads, i, c);
    BalancedBound(m.freeSlots[c], |Flight(m, c)|, advertised[c]);
  }

  // ------------------------------------------------------- steps of a handler

  /** What a step of a handler does with held slots. */
  datatype Effect = Nothing | Fill(client: nat) | Take

  predicate HoldsNothing(pc: Pc) {
    match pc
    case Waking(_, left) => left == 0
    case Greeting(_, left) => left == 0
    case Redispatching(_, _, _) => false
    case _ => true
  }

  lemma HoldNothing(pc: Pc, c: nat)
    requires HoldsNothing(pc)
    ensures Hold(pc, c) == 0
  {
  }

  /** A handler that is bound to look at the idle queue again. */
  predicate Up(pc: Pc) {
    pc.Assigning? || pc.Waking?
  }

  ghost predicate Has(s: State, s': State, i: nat, pc: Pc, e: Effect) {
    && i < |s.threads| && s'.threads == s.threads[i := pc] && s'.advertised == s.advertised
    && match e
       case Nothing =>
         && HoldsNothing(s.threads[i]) && HoldsNothing(pc)
         && s'.master.inFlight == s.master.inFlight && s'.master.freeSlots == s.master.freeSlots
         && s'.master.idleIds == s.master.idleIds && s'.master.idle == s.master.idle
         && (pc == Assigning || (s'.master.pending == s.master.pending && (Up(s.threads[i]) ==> Up(pc))))
       case Fill(client) =>
         && s'.master == Dispatch(s.master, client).0 && Fills(s.master, client, s.threads[i], pc)
         && (Up(s.threads[i]) ==> Up(pc))
       case Take => s.threads[i] == Assigning && s'.master == TakeIdle(s.master).0 && pc == Woken(s.master)
  }

  lemma LoopEffect(w: World, s: State, i: nat) returns (pc: Pc, e: Effect)
    requires i < |s.threads| && (s.threads[i].Waking? || s.threads[i].Greeting?)
    ensures Has(s, StepThread(w, s, i), i, pc, e)
  {
    var client, left := s.threads[i].client, s.threads[i].left;
    if s.threads[i].Waking? {
      assert StepThread(w, s, i) == StepWake(s, i, client, left);
    } else {
      assert StepThread(w, s, i) == StepGreet(s, i, client, left);
    }
    pc := StepThread(w, s, i).threads[i];
    e := if left == 0 then Nothing else Fill(client);
  }

  lemma RedispatchEffect(w: World, s: State, i: nat) returns (pc: Pc, e: Effect)
    requires i < |s.threads| && s.threads[i].Redispatching?
    ensures Has(s, StepThread(w, s, i), i, pc, e)
  {
    var client, task, body := s.threads[i].client, s.threads[i].task, s.threads[i].body;
    assert StepThread(w, s, i) == StepRedispatch(s, i, client, task, body);
    pc, e := Aggregating(task, body), Fill(client);
  }

  lemma AggregateEffect(w: World, s: State, i: nat) returns (pc: Pc, e: Effect)
    requires i < |s.threads| && s.threads[i].Aggregating?
    ensures Has(s, StepThread(w, s, i), i, pc, e)
  {
    assert StepThread(w, s, i) == StepAggregate(s, i, s.threads[i].task, s.threads[i].body);
    pc, e := StepThread(w, s, i).threads[i], Nothing;
  }

  lemma PublishEffect(w: World, s: State, i: nat) returns (pc: Pc, e: Effect)
    requires i < |s.threads| && s.threads[i].Publishing?
    ensures Has(s, StepThread(w, s, i), i, pc, e)
  {
    var searchId := s.threads[i].searchId;
    if searchId < |s.requests| {
      assert StepThread(w, s, i) == StepPublish(w, s, i, searchId);
      pc, e := Assigning, Nothing;
    } else {
      assert StepThread(w, s, i) == s;
      pc, e := s.threads[i], Nothing;
    }
  }

  lemma EndEffect(w: World, s: State, i: nat) returns (pc: Pc, e: Effect)
    requires i < |s.threads| && (s.threads[i].Writing? || s.threads[i].Counting? || s.threads[i].Finished?)
    ensures Has(s, StepThread(w, s, i), i, pc, e)
  {
    e := Nothing;
    match s.threads[i]
    case Writing(task, lines) =>
      assert StepThread(w, s, i) == StepWrite(s, i, task, lines);
      pc := Counting(task);
    case Counting(task) =>
      assert StepThread(w, s, i) == StepCount(s, i, task);
      pc := Finished;
    case Finished =>
      assert StepThread(w, s, i) == s;
      pc := Finished;
  }

  lemma StepEffect(w: World, s: State, i: nat) returns (pc: Pc, e: Effect)
    requires i < |s.threads|
    ensures Has(s, StepThread(w, s, i), i, pc, e)
  {
    if s.threads[i].Waking? || s.threads[i].Greeting? {
      pc, e := LoopEffect(w, s, i);
    } else if s.threads[i].Assigning? {
      assert StepThread(w, s, i) == StepAssign(s, i);
      pc, e := Woken(s.master), Take;
    } else if s.threads[i].Redispatching? {
      pc, e := RedispatchEffect(w, s, i);
    } else if s.threads[i].Aggregating? {
      pc, e := AggregateEffect(w, s, i);
    } else if s.threads[i].Publishing? {
      pc, e := PublishEffect(w, s, i);
    } else {
      pc, e := EndEffect(w, s, i);
    }
  }

  lemma NothingKeepsLoad(s: State, s': State, i: nat, pc: Pc, c: nat)
    requires Has(s, s', i, pc, Nothing)
    ensures Load(s'.master, s'.threads, c) == Load(s.master, s.threads, c)
  {
    HeldUpdate(s.threads, i, pc, c);
    HoldNothing(s.threads[i], c);
    HoldNothing(pc, c);
    assert Flight(s'.master, c) == Flight(s.master, c);
  }

  // ------------------------------------------------------------ no slot is lost

  ghost predicate Fits(s: State) {
    forall c: nat :: c in s.advertised ==> s.advertised[c] < U64
  }

  /** Every registered worker stands in the idle queue, or all of its threads run
      a task or are about to. */
  ghost predicate Attended(s: State) {
    forall c: nat :: c in s.master.freeSlots ==> AttendedFor(s.master, s.threads, s.advertised, c)
  }

  lemma EffectAttends(s: State, s': State, i: nat, pc: Pc, e: Effect, c: nat)
    requires WorkersOk(s) && Fits(s) && Has(s, s', i, pc, e) && c in s.master.freeSlots
    requires AttendedFor(s.master, s.threads, s.advertised, c)
    ensures AttendedFor(s'.master, s'.threads, s'.advertised, c)
  {
    match e
    case Nothing => NothingKeepsLoad(s, s', i, pc, c);
    case Fill(client) => FillAttends(s.master, s.threads, i, client, pc, s.advertised, c);
    case Take => TakeAttends(s.master, s.threads, i, s.advertised, c);
  }

  lemma EffectWorkers(s: State, s': State, i: nat, pc: Pc, e: Effect)
    requires Has(s, s', i, pc, e)
    ensures s'.master.freeSlots.Keys == s.master.freeSlots.Keys
  {
  }

  lemma StepAttends(w: World, s: State, i: nat)
    requires WorkersOk(s) && Fits(s) && Attended(s) && i < |s.threads|
    ensures Attended(StepThread(w, s, i)) && Fits(StepThread(w, s, i))
  {
    var s' := StepThread(w, s, i);
    var pc, e := StepEffect(w, s, i);
    EffectWorkers(s, s', i, pc, e);
    forall c: nat | c in s'.master.freeSlots
      ensures AttendedFor(s'.master, s'.threads, s'.advertised, c)
    {
      assert c in s.master.freeSlots.Keys;
      EffectAttends(s, s', i, pc, e, c);
    }
  }

  /** The worker's load, id-set entry and advertised threads are what they were. */
  ghost predicate LeavesAlone(s: State, s': State, c: nat) {
    && Load(s'.master, s'.threads, c) == Load(s.master, s.threads, c)
    && (c in s'.master.idleIds <==> c in s.master.idleIds)
    && (c in s.advertised ==> c in s'.advertised && s'.advertised[c] == s.advertised[c])
  }

  lemma SameFlightLoad(m: Master, m': Master, threads: seq<Pc>, pc: Pc, c: nat)
    requires Flight(m', c) == Flight(m, c) && Hold(pc, c) == 0
    ensures Load(m', threads, c) == Load(m', threads + [pc], c) == Load(m, threads, c)
  {
    HeldAppend(threads, pc, c);
  }

  lemma StartLeaves(w: World, s: State, plan: Plan, c: nat)
    ensures LeavesAlone(s, ApplyStart(w, s, plan), c)
  {
    var s' := ApplyStart(w, s, plan);
    assert Flight(s'.master, c) == Flight(s.master, c);
    SameFlightLoad(s.master, s'.master, s.threads, Publishing(s.master.nextSearchId), c);
  }

  lemma HelloLeaves(s: State, client: nat, threads: nat, c: nat)
    requires c != client
    ensures LeavesAlone(s, ApplyHello(s, client, threads), c)
  {
    var s' := ApplyHello(s, client, threads);
    assert Flight(s'.master, c) == Flight(s.master, c);
    SameFlightLoad(s.master, s'.master, s.threads, Greeting(client, threads), c);
  }

  lemma DisconnectLeaves(s: State, client: nat, order: seq<nat>, c: nat)
    requires c != client && forall id :: id in order ==> id in Flight(s.master, client)
    ensures LeavesAlone(s, ApplyDisconnect(s, client, order), c)
  {
    var s' := ApplyDisconnect(s, client, order);
    assert Flight(s'.master, c) == Flight(s.master, c);
    SameFlightLoad(s.master, s'.master, s.threads, Assigning, c);
  }

  /** A claimed slot moves from the worker to the handler. */
  lemma ClaimLoad(m: Master, threads: seq<Pc>, client: nat, id: nat, task: Task, body: Bytes, c: nat)
    requires FlightIndexed(m) && InFlightAt(m, client, id) && c in m.freeSlots
    ensures Load(Claim(m, client, id).0, threads + [Redispatching(client, task, body)], c) == Load(m, threads, c)
  {
    ClaimNumbers(m, client, id, c);
    HeldAppend(threads, Redispatching(client, task, body), c);
  }

  lemma ReplyLeaves(s: State, client: nat, body: Bytes, c: nat)
    requires FlightIndexed(s.master) && c in s.master.freeSlots
    ensures LeavesAlone(s, ApplyTaskDone(s, client, body), c)
  {
    if PopTaskId(body).Some? && InFlightAt(s.master, client, PopTaskId(body).value.0) {
      var (id, rest) := PopTaskId(body).value;
      ClaimLoad(s.master, s.threads, client, id, s.master.inFlight[client][id], rest, c);
    }
  }

  /** What an outside event does to a worker that was there before. */
  lemma ArrivalLeaves(w: World, s: State, e: Event, c: nat)
    requires WorkersOk(s) && Enabled(w, s, e) && !e.Step?
    requires c in s.master.freeSlots && c in Apply(w, s, e).master.freeSlots
    ensures LeavesAlone(s, Apply(w, s, e), c)
  {
    match e
    case StartSearch(plan) => StartLeaves(w, s, plan, c);
    case Hello(client, threads) => HelloLeaves(s, client, threads, c);
    case TaskDone(client, body) => ReplyLeaves(s, client, body, c);
    case Disconnect(client, order) => DisconnectLeaves(s, client, order, c);
  }

  /** Only Hello registers a worker, which then holds all its slots itself. */
  lemma NewWorker(w: World, s: State, e: Event, c: nat)
    requires WorkersOk(s) && Enabled(w, s, e) && !e.Step?
    requires c !in s.master.freeSlots && c in Apply(w, s, e).master.freeSlots
    ensures e.Hello? && c == e.client
    ensures
      var s' := Apply(w, s, e);
      && c in s'.advertised && s'.advertised[c] == e.threads < U64
      && Load(s'.master, s'.threads, c) == Held(s.threads, c) + e.threads
  {
    match e
    case StartSearch(plan) =>
    case Hello(client, threads) => NewLoad(s, client, threads, c);
    case TaskDone(client, body) => ReplyWorkers(s, client, body);
    case Disconnect(client, order) =>
  }

  lemma NewLoad(s: State, client: nat, threads: nat, c: nat)
    requires WorkersOk(s) && c !in s.master.freeSlots
    ensures
      var s' := ApplyHello(s, client, threads);
      c in s'.master.freeSlots ==> c == client && Load(s'.master, s'.threads, c) == Held(s.threads, c) + threads
  {
    HeldAppend(s.threads, Greeting(client, threads), c);
    assert Flight(ApplyHello(s, client, threads).master, c) == map[];
  }

  lemma ReplyWorkers(s: State, client: nat, body: Bytes)
    requires WorkersOk(s)
    ensures ApplyTaskDone(s, client, body).master.freeSlots.Keys == s.master.freeSlots.Keys
  {
    if PopTaskId(body).Some? && InFlightAt(s.master, client, PopTaskId(body).value.0) {
      ClaimSlots(s.master, client, PopTaskId(body).value.0);
    }
  }

  lemma ArrivalFits(w: World, s: State, e: Event)
    requires Fits(s) && Enabled(w, s, e) && !e.Step?
    ensures Fits(Apply(w, s, e))
  {
  }

  lemma AttendedNext(w: World, s: State, e: Event)
    requires WorkersOk(s) && Fits(s) && Attended(s) && Enabled(w, s, e)
    ensures Attended(Apply(w, s, e)) && Fits(Apply(w, s, e))
  {
    if e.Step? {
      StepAttends(w, s, e.thread);
    } else {
      ArrivalFits(w, s, e);
      var s' := Apply(w, s, e);
      forall c: nat | c in s'.master.freeSlots
        ensures AttendedFor(s'.master, s'.threads, s'.advertised, c)
      {
        if c in s.master.freeSlots {
          ArrivalLeaves(w, s, e, c);
        } else {
          NewWorker(w, s, e, c);
        }
      }
    }
  }

  // ------------------------------------------------------ no idler is forgotten

  ghost predicate SomeUp(threads: seq<Pc>) {
    exists i :: 0 <= i < |threads| && Up(threads[i])
  }

  /** While a task waits and somebody stands in the idle queue, some handler is
      bound to look there again. */
  ghost predicate Watched(s: State) {
    s.master.pending != [] && s.master.idle != [] ==> SomeUp(s.threads)
  }

  lemma UpStays(threads: seq<Pc>, i: nat, pc: Pc)
    requires i < |threads| && (Up(threads[i]) ==> Up(pc)) && SomeUp(threads)
    ensures SomeUp(threads[i := pc])
  {
    var j :| 0 <= j < |threads| && Up(threads[j]);
    assert Up(threads[i := pc][if j == i then i else j]);
  }

  lemma UpNow(threads: seq<Pc>, i: nat)
    requires i < |threads| && Up(threads[i])
    ensures SomeUp(threads)
  {
  }

  lemma EffectWatched(s: State, s': State, i: nat, pc: Pc, e: Effect)
    requires Watched(s) && Has(s, s', i, pc, e)
    ensures Watched(s')
  {
    if s'.master.pending != [] && s'.master.idle != [] {
      if Up(pc) {
        UpNow(s'.threads, i);
      } else {
        UpStays(s.threads, i, pc);
      }
    }
  }

  lemma UpAppended(threads: seq<Pc>, pc: Pc)
    ensures Up(pc) || SomeUp(threads) ==> SomeUp(threads + [pc])
  {
    if Up(pc) {
      assert Up((threads + [pc])[|threads|]);
    } else if SomeUp(threads) {
      var j :| 0 <= j < |threads| && Up(threads[j]);
      assert Up((threads + [pc])[j]);
    }
  }

  lemma ArrivalWatched(w: World, s: State, e: Event)
    requires Watched(s) && Enabled(w, s, e) && !e.Step?
    ensures Watched(Apply(w, s, e))
  {
    match e
    case StartSearch(plan) => UpAppended(s.threads, Publishing(s.master.nextSearchId));
    case Hello(client, threads) => UpAppended(s.threads, Greeting(client, threads));
    case TaskDone(client, body) => ReplyWatched(s, client, body);
    case Disconnect(client, order) => UpAppended(s.threads, Assigning);
  }

  lemma ReplyWatched(s: State, client: nat, body: Bytes)
    requires Watched(s)
    ensures Watched(ApplyTaskDone(s, client, body))
  {
    if PopTaskId(body).Some? && InFlightAt(s.master, client, PopTaskId(body).value.0) {
      var (id, rest) := PopTaskId(body).value;
      UpAppended(s.threads, Redispatching(client, s.master.inFlight[client][id], rest));
    }
  }

  lemma WatchedNext(w: World, s: State, e: Event)
    requires Watched(s) && Enabled(w, s, e)
    ensures Watched(Apply(w, s, e))
  {
    if e.Step? {
      var pc, effect := StepEffect(w, s, e.thread);
      EffectWatched(s, StepThread(w, s, e.thread), e.thread, pc, effect);
    } else {
      ArrivalWatched(w, s, e);
    }
  }

  // -------------------------------------------------------------- every run

  ghost predicate Minded(s: State) {
    WorkersOk(s) && Fits(s) && Attended(s) && Watched(s)
  }

  lemma MindedStep(w: World, s: State, s': State)
    requires Minded(s) && Next(w, s, s')
    ensures Minded(s')
  {
    var e :| Enabled(w, s, e) && s' == Apply(w, s, e);
    WorkersNext(w, s, e);
    AttendedNext(w, s, e);
    WatchedNext(w, s, e);
  }

  lemma {:induction false} MindedAlways(w: World, trace: seq<State>, k: nat)
    requires IsRun(w, trace) && trace[0] == START && k < |trace|
    ensures Minded(trace[k])
  {
    if k > 0 {
      MindedAlways(w, trace, k - 1);
      assert StepAt(w, trace, k - 1);
      MindedStep(w, trace[k - 1], trace[k]);
    }
  }

  /** No slot is forgotten: in every state of every run a registered worker stands
      in the idle queue, or as many tasks as it advertised are running on it or
      held for it by handlers in progress. */
  lemma NoSlotForgotten(w: World, trace: seq<State>, k: nat, c: nat)
    requires IsRun(w, trace) && trace[0] == START && k < |trace| && c in trace[k].master.freeSlots
    ensures
      var s := trace[k];
      && c in s.advertised
      && (c in s.master.idle || s.advertised[c] <= |Flight(s.master, c)| + Held(s.threads, c))
  {
    MindedAlways(w, trace, k);
    var s := trace[k];
    assert AttendedFor(s.master, s.threads, s.advertised, c);
  }

  /** No handler is in progress. */
  ghost predicate Quiet(s: State) {
    forall i :: 0 <= i < |s.threads| ==> s.threads[i] == Finished
  }

  /** Work conservation at lock granularity: in every run, whenever no handler is in
      progress and a task waits, nobody stands in the idle queue and every
      registered worker runs at least as many tasks as it advertised. */
  lemma WaitingMeansBusy(w: World, trace: seq<State>, k: nat, c: nat)
    requires IsRun(w, trace) && trace[0] == START && k < |trace| && Quiet(trace[k])
    requires trace[k].master.pending != [] && c in trace[k].master.freeSlots
    ensures trace[k].master.idle == []
    ensures c in trace[k].advertised && |Flight(trace[k].master, c)| >= trace[k].advertised[c]
  {
    MindedAlways(w, trace, k);
    NoSlotForgotten(w, trace, k, c);
    NoneHeld(trace[k].threads, c);
  }

  // ------------------------------------------------------ no slot filled twice

  /** Slots are held only of workers that said Hello. */
  ghost predicate HeldKnown(s: State) {
    forall c: nat :: c !in s.used ==> Held(s.threads, c) == 0
  }

  ghost predicate Reserved(s: State) {
    && HeldKnown(s)
    && forall c: nat :: c in s.master.freeSlots ==> ReservedFor(s.master, s.threads, s.advertised, c)
  }

  /** A handler wakes a worker some of whose slots another handler holds. */
  ghost predicate DoubleWake(s: State, s': State) {
    exists i :: 0 <= i < |s.threads| && i < |s'.threads| && WakesAt(s.threads, s'.threads, i)
  }

  predicate WakesAt(threads: seq<Pc>, threads': seq<Pc>, i: nat)
    requires i < |threads| && i < |threads'|
  {
    threads[i].Assigning? && threads'[i].Waking? && Held(threads, threads'[i].client) > 0
  }

  lemma EffectHeld(s: State, s': State, i: nat, pc: Pc, e: Effect, c: nat)
    requires Has(s, s', i, pc, e) && Held(s.threads, c) == 0
    requires TakeIdle(s.master).1.Wake? ==> TakeIdle(s.master).1.client != c
    ensures Held(s'.threads, c) == 0
  {
    HeldUpdate(s.threads, i, pc, c);
    if e.Nothing? {
      HoldNothing(pc, c);
    }
  }

  lemma SingleWake(s: State, s': State, i: nat, c: nat)
    requires Has(s, s', i, Woken(s.master), Take) && !DoubleWake(s, s')
    ensures TakeIdle(s.master).1.Wake? ==> Held(s.threads, TakeIdle(s.master).1.client) == 0
  {
    assert !WakesAt(s.threads, s'.threads, i);
  }

  lemma EffectReserves(s: State, s': State, i: nat, pc: Pc, e: Effect, c: nat)
    requires WorkersOk(s) && Fits(s) && Has(s, s', i, pc, e) && c in s.master.freeSlots
    requires ReservedFor(s.master, s.threads, s.advertised, c) && !DoubleWake(s, s')
    ensures ReservedFor(s'.master, s'.threads, s'.advertised, c)
  {
    match e
    case Nothing => NothingKeepsLoad(s, s', i, pc, c);
    case Fill(client) => FillReserves(s.master, s.threads, i, client, pc, s.advertised, c);
    case Take =>
      SingleWake(s, s', i, c);
      TakeReserves(s.master, s.threads, i, s.advertised, c);
  }

  lemma StepReserves(w: World, s: State, i: nat)
    requires WorkersOk(s) && Fits(s) && Reserved(s) && i < |s.threads| && !DoubleWake(s, StepThread(w, s, i))
    ensures Reserved(StepThread(w, s, i))
  {
    var s' := StepThread(w, s, i);
    var pc, e := StepEffect(w, s, i);
    var t := StepTouches(w, s, i);
    EffectWorkers(s, s', i, pc, e);
    WokenKnown(s);
    forall c: nat | c !in s'.used ensures Held(s'.threads, c) == 0 {
      EffectHeld(s, s', i, pc, e, c);
    }
    forall c: nat | c in s'.master.freeSlots
      ensures ReservedFor(s'.master, s'.threads, s'.advertised, c)
    {
      assert c in s.master.freeSlots.Keys;
      EffectReserves(s, s', i, pc, e, c);
    }
  }

  lemma WokenKnown(s: State)
    requires WorkersOk(s)
    ensures TakeIdle(s.master).1.Wake? ==> TakeIdle(s.master).1.client in s.used
  {
  }

  /** A new handler holds slots of a known worker, or none. */
  lemma ArrivalHeld(s: State, s': State, pc: Pc, c: nat)
    requires s'.threads == s.threads || s'.threads == s.threads + [pc]
    requires HeldKnown(s) && s.used <= s'.used && c !in s'.used && HoldsOf(pc, s'.used)
    ensures Held(s'.threads, c) == 0
  {
    HeldAppend(s.threads, pc, c);
  }

  predicate HoldsOf(pc: Pc, used: set<nat>) {
    match pc
    case Greeting(client, _) => client in used
    case Redispatching(client, _, _) => client in used
    case Waking(client, _) => client in used
    case _ => true
  }

  lemma ArrivalsHeld(w: World, s: State, e: Event, c: nat)
    requires WorkersOk(s) && HeldKnown(s) && Enabled(w, s, e) && !e.Step? && c !in Apply(w, s, e).used
    ensures Held(Apply(w, s, e).threads, c) == 0
  {
    match e
    case StartSearch(plan) => ArrivalHeld(s, ApplyStart(w, s, plan), Publishing(s.master.nextSearchId), c);
    case Hello(client, threads) => ArrivalHeld(s, ApplyHello(s, client, threads), Greeting(client, threads), c);
    case TaskDone(client, body) => ReplyHeld(s, client, body, c);
    case Disconnect(client, order) => ArrivalHeld(s, ApplyDisconnect(s, client, order), Assigning, c);
  }

  lemma ReplyHeld(s: State, client: nat, body: Bytes, c: nat)
    requires WorkersOk(s) && HeldKnown(s) && c !in s.used
    ensures Held(ApplyTaskDone(s, client, body).threads, c) == 0
  {
    if PopTaskId(body).Some? && InFlightAt(s.master, client, PopTaskId(body).value.0) {
      var (id, rest) := PopTaskId(body).value;
      assert client in s.master.freeSlots;
      ArrivalHeld(s, ApplyTaskDone(s, client, body), Redispatching(client, s.master.inFlight[client][id], rest), c);
    }
  }

  lemma ArrivalReserves(w: World, s: State, e: Event, c: nat)
    requires WorkersOk(s) && Reserved(s) && Enabled(w, s, e) && !e.Step? && c in Apply(w, s, e).master.freeSlots
    ensures ReservedFor(Apply(w, s, e).master, Apply(w, s, e).threads, Apply(w, s, e).advertised, c)
  {
    if c in s.master.freeSlots {
      assert ReservedFor(s.master, s.threads, s.advertised, c);
      ArrivalLeaves(w, s, e, c);
    } else {
      NewWorker(w, s, e, c);
    }
  }

  lemma ReservedNext(w: World, s: State, e: Event)
    requires WorkersOk(s) && Fits(s) && Reserved(s) && Enabled(w, s, e) && !DoubleWake(s, Apply(w, s, e))
    ensures Reserved(Apply(w, s, e))
  {
    if e.Step? {
      StepReserves(w, s, e.thread);
    } else {
      var s' := Apply(w, s, e);
      forall c: nat | c !in s'.used ensures Held(s'.threads, c) == 0 {
        ArrivalsHeld(w, s, e, c);
      }
      forall c: nat | c in s'.master.freeSlots
        ensures ReservedFor(s'.master, s'.threads, s'.advertised, c)
      {
        ArrivalReserves(w, s, e, c);
      }
    }
  }

  ghost predicate DoubleWakeAt(trace: seq<State>, k: nat)
    requires k + 1 < |trace|
  {
    DoubleWake(trace[k], trace[k + 1])
  }

  /** None of the first `n` steps wakes a worker whose slots another handler holds. */
  ghost predicate NoDoubleWake(trace: seq<State>, n: nat)
    requires n < |trace|
  {
    forall k: nat :: k < n ==> !DoubleWakeAt(trace, k)
  }

  lemma ReservedStep(w: World, s: State, s': State)
    requires Minded(s) && Reserved(s) && Next(w, s, s') && !DoubleWake(s, s')
    ensures Reserved(s')
  {
    var e :| Enabled(w, s, e) && s' == Apply(w, s, e);
    ReservedNext(w, s, e);
  }

  lemma {:induction false} ReservedAlways(w: World, trace: seq<State>, n: nat)
    requires IsRun(w, trace) && trace[0] == START && n < |trace|
    requires NoDoubleWake(trace, n)
    ensures Reserved(trace[n])
  {
    if n == 0 {
      NothingReserved();
    } else {
      ReservedAlways(w, trace, n - 1);
      ReservedFollows(w, trace, n - 1);
    }
  }

  lemma NothingReserved()
    ensures Reserved(START)
  {
  }

  lemma ReservedFollows(w: World, trace: seq<State>, k: nat)
    requires IsRun(w, trace) && trace[0] == START && k + 1 < |trace|
    requires !DoubleWakeAt(trace, k) && Reserved(trace[k])
    ensures Reserved(trace[k + 1])
  {
    MindedAlways(w, trace, k);
    assert StepAt(w, trace, k);
    ReservedStep(w, trace[k], trace[k + 1]);
  }

  /** Slots that are held are free. */
  lemma ReservedWithin(s: State)
    requires Minded(s) && Reserved(s)
    ensures Within(s)
  {
    forall c: nat | c in s.master.freeSlots
      ensures c in s.advertised && s.master.freeSlots[c] + |Flight(s.master, c)| == s.advertised[c] < U64
    {
      assert ReservedFor(s.master, s.threads, s.advertised, c);
      BalancedBound(s.master.freeSlots[c], |Flight(s.master, c)|, s.advertised[c]);
    }
  }

  /** Capacity from the schedule alone: in every run in which no handler wakes a
      worker while another handler holds slots of it, what handlers hold of a
      worker stays within its free slots, and no worker ever has more tasks than
      it advertised. */
  lemma CapacityBySchedule(w: World, trace: seq<State>, n: nat, c: nat)
    requires IsRun(w, trace) && trace[0] == START && n < |trace| && c in trace[n].master.freeSlots
    requires NoDoubleWake(trace, n)
    ensures
      var s := trace[n];
      && c in s.advertised && s.master.freeSlots[c] + |Flight(s.master, c)| == s.advertised[c]
      && Held(s.threads, c) <= s.master.freeSlots[c]
  {
    MindedAlways(w, trace, n);
    ReservedAlways(w, trace, n);
    ReservedWithin(trace[n]);
    assert ReservedFor(trace[n].master, trace[n].threads, trace[n].advertised, c);
  }
}
