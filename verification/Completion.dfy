/** Every search that is published can be finished, from any reachable state and
    by any one worker. */
module Completion {
  import opened Base
  import opened Codec
  import opened LineSearch
  import opened Chunking
  import opened Scheduler
  import opened Cluster
  import opened Alone
  import opened Tables
  import opened Conservation
  import opened EndToEnd
  import opened Results
  import opened History
  import opened Reservations
  import opened Overdraft
  import opened Progress

  // --------------------------------------------------------- ids still needed

  /** The tasks that a handler is about to publish. */
  function ToPublish(w: World, requests: seq<Plan>, pc: Pc): nat {
    match pc
    case Publishing(searchId) => if searchId < |requests| then |PlanTasks(w, requests[searchId], searchId)| else 0
    case _ => 0
  }

  function AllToPublish(w: World, requests: seq<Plan>, threads: seq<Pc>): nat {
    if threads == [] then 0
    else AllToPublish(w, requests, threads[..|threads| - 1]) + ToPublish(w, requests, threads[|threads| - 1])
  }

  lemma {:induction false} ToPublishUpdate(w: World, requests: seq<Plan>, threads: seq<Pc>, i: nat, pc: Pc)
    requires i < |threads|
    ensures AllToPublish(w, requests, threads[i := pc]) + ToPublish(w, requests, threads[i])
         == AllToPublish(w, requests, threads) + ToPublish(w, requests, pc)
    decreases |threads|
  {
    var n := |threads| - 1;
    if i == n {
      assert threads[i := pc][..n] == threads[..n];
    } else {
      ToPublishUpdate(w, requests, threads[..n], i, pc);
      assert threads[i := pc][..n] == threads[..n][i := pc];
    }
  }

  lemma ToPublishAppend(w: World, requests: seq<Plan>, threads: seq<Pc>, pc: Pc)
    ensures AllToPublish(w, requests, threads + [pc]) == AllToPublish(w, requests, threads) + ToPublish(w, requests, pc)
  {
    assert (threads + [pc])[..|threads|] == threads;
  }

  lemma {:induction false} QuietPublishesNothing(w: World, requests: seq<Plan>, threads: seq<Pc>)
    requires forall i :: 0 <= i < |threads| ==> threads[i] == Finished
    ensures AllToPublish(w, requests, threads) == 0
    decreases |threads|
  {
    if threads != [] {
      QuietPublishesNothing(w, requests, threads[..|threads| - 1]);
    }
  }

  /** Task ids handed out or still to be handed out, once each. */
  function Ahead(w: World, s: State): nat {
    s.master.nextTaskId + |s.master.pending| + AllToPublish(w, s.requests, s.threads)
  }

  lemma PublishKeepsAhead(w: World, s: State, i: nat)
    requires i < |s.threads| && s.threads[i].Publishing?
    ensures Ahead(w, StepThread(w, s, i)) == Ahead(w, s)
  {
    var searchId := s.threads[i].searchId;
    if searchId < |s.requests| {
      assert StepThread(w, s, i) == StepPublish(w, s, i, searchId);
      ToPublishUpdate(w, s.requests, s.threads, i, Assigning);
    } else {
      assert StepThread(w, s, i) == s;
    }
  }

  /** A step of a handler uses up what it hands out. */
  lemma StepKeepsAhead(w: World, s: State, i: nat)
    requires i < |s.threads|
    ensures Ahead(w, StepThread(w, s, i)) == Ahead(w, s)
  {
    if s.threads[i].Publishing? {
      PublishKeepsAhead(w, s, i);
    } else {
      var s' := StepThread(w, s, i);
      StepMovesOneThread(w, s, i);
      ToPublishUpdate(w, s.requests, s.threads, i, s'.threads[i]);
      if SendsTo(s.threads[i]).Some? {
        SendStep(w, s, i);
      } else {
        OtherStep(w, s, i);
      }
    }
  }

  lemma {:induction false} MovesKeepAhead(w: World, move: State -> State, i: nat, s: State, n: nat)
    requires Moves(w, move, i)
    ensures Ahead(w, Iterate(move, s, n)) == Ahead(w, s)
    decreases n
  {
    if n > 0 {
      MovesKeepAhead(w, move, i, s, n - 1);
      MoveKeepsAhead(w, move, i, Iterate(move, s, n - 1));
    }
  }

  lemma MoveKeepsAhead(w: World, move: State -> State, i: nat, s: State)
    requires Moves(w, move, i)
    ensures Ahead(w, move(s)) == Ahead(w, s)
  {
    assert Moved(w, s, i, move(s));
    if i < |s.threads| {
      StepKeepsAhead(w, s, i);
    }
  }

  // ---------------------------------------------------------- handlers finish

  /** A run goes on to one in which thread `i` has finished. */
  lemma FinishOne(w: World, before: seq<State>, i: nat) returns (trace: seq<State>)
    requires WorldFits(w) && IsRun(w, before) && before[0] == START && i < |before[|before| - 1].threads|
    ensures IsRun(w, trace) && before <= trace
    ensures
      var s, s' := before[|before| - 1], trace[|trace| - 1];
      s'.threads == s.threads[i := Finished] && SameParties(s, s') && Ahead(w, s') == Ahead(w, s)
  {
    var s := before[|before| - 1];
    InvAlways(w, before, |before| - 1);
    var move := SomeMover(w, i);
    var n, m, output := AnyRuns(w, move, s, i);
    MovesKeepAhead(w, move, i, s, n);
    trace := MovesAreRun(w, move, before, i, n);
  }

  ghost predicate QuietFrom(threads: seq<Pc>, upTo: nat) {
    forall i :: upTo <= i < |threads| ==> threads[i] == Finished
  }

  /** Every run goes on to one in which no handler is in progress, with the same
      requests and the same workers. */
  lemma {:induction false} Settles(w: World, before: seq<State>, upTo: nat) returns (trace: seq<State>)
    requires WorldFits(w) && IsRun(w, before) && before[0] == START && upTo <= |before[|before| - 1].threads|
    requires QuietFrom(before[|before| - 1].threads, upTo)
    ensures IsRun(w, trace) && before <= trace && Quiet(trace[|trace| - 1])
    ensures SameParties(before[|before| - 1], trace[|trace| - 1])
    ensures Ahead(w, trace[|trace| - 1]) == Ahead(w, before[|before| - 1])
    decreases upTo
  {
    if upTo == 0 {
      trace := before;
    } else {
      trace := FinishOne(w, before, upTo - 1);
      trace := Settles(w, trace, upTo - 1);
    }
  }

  /** Handlers in progress are no obstacle: any run goes on to one between handlers
      with the same requests, workers and searches. */
  lemma HandlersFinish(w: World, before: seq<State>, sid: nat) returns (trace: seq<State>)
    requires WorldFits(w) && IsRun(w, before) && before[0] == START
    requires sid in before[|before| - 1].master.sessions
    ensures IsRun(w, trace) && before <= trace && Quiet(trace[|trace| - 1])
    ensures SameParties(before[|before| - 1], trace[|trace| - 1]) && sid in trace[|trace| - 1].master.sessions
    ensures trace[|trace| - 1].master.nextTaskId + |trace[|trace| - 1].master.pending| == Ahead(w, before[|before| - 1])
  {
    trace := Settles(w, before, |before[|before| - 1].threads|);
    SessionStays(w, before, trace, sid);
    QuietPublishesNothing(w, trace[|trace| - 1].requests, trace[|trace| - 1].threads);
  }

  // -------------------------------------------------- all workers but one leave

  lemma {:induction false} Enumeration(tasks: map<nat, Task>) returns (order: seq<nat>)
    ensures Enumerates(order, tasks)
    decreases |tasks|
  {
    if tasks == map[] {
      order := [];
    } else {
      var id :| id in tasks;
      var rest := tasks - {id};
      MapShrinks(tasks, id);
      order := Enumeration(rest);
      order := order + [id];
      assert forall k :: k in tasks <==> k in rest || k == id;
    }
  }

  ghost function Mine(c: nat, ids: set<nat>): set<(nat, nat)> {
    set id | id in ids :: (c, id)
  }

  lemma {:induction false} MineCount(c: nat, ids: set<nat>)
    ensures |Mine(c, ids)| == |ids|
    decreases |ids|
  {
    if ids != {} {
      var id :| id in ids;
      MineCount(c, ids - {id});
      assert Mine(c, ids) == Mine(c, ids - {id}) + {(c, id)};
    }
  }

  lemma ReclaimEntries(m: Master, client: nat, order: seq<nat>)
    requires Indexed(m) && Enumerates(order, Flight(m, client))
    ensures Entries(m) == Entries(Reclaim(m, client, order)) + Mine(client, Flight(m, client).Keys)
    ensures Entries(Reclaim(m, client, order)) !! Mine(client, Flight(m, client).Keys)
  {
    var m', mine := Reclaim(m, client, order), Mine(client, Flight(m, client).Keys);
    ReclaimKeeps(m, client, order);
    forall c: nat, id: nat
      ensures (c, id) in Entries(m) <==> (c, id) in Entries(m') || (c, id) in mine
      ensures (c, id) in Entries(m') ==> (c, id) !in mine
    {
      MemberEntries(m, c, id);
      MemberEntries(m', c, id);
    }
  }

  /** Reclaimed tasks go from the in-flight table to the queue, one for one. */
  lemma ReclaimUnanswered(m: Master, client: nat, order: seq<nat>)
    requires Indexed(m) && Enumerates(order, Flight(m, client))
    ensures Unanswered(Reclaim(m, client, order)) == Unanswered(m)
  {
    ReclaimEntries(m, client, order);
    MineCount(client, Flight(m, client).Keys);
    var front := ReclaimedFirst(m, client, order);
  }

  /** Ids that may be needed if every task in flight is lost. */
  ghost function Budget(w: World, s: State): nat {
    Ahead(w, s) + |Entries(s.master)|
  }

  lemma DisconnectBudget(w: World, s: State, client: nat, order: seq<nat>)
    requires Indexed(s.master) && Enumerates(order, Flight(s.master, client))
    ensures Budget(w, ApplyDisconnect(s, client, order)) == Budget(w, s)
  {
    ReclaimUnanswered(s.master, client, order);
    ToPublishAppend(w, s.requests, s.threads, Assigning);
  }

  /** Worker `client` is lost. */
  lemma LoseOne(w: World, before: seq<State>, client: nat) returns (trace: seq<State>)
    requires WorldFits(w) && IsRun(w, before) && before[0] == START
    ensures IsRun(w, trace) && before <= trace
    ensures
      var s, s' := before[|before| - 1], trace[|trace| - 1];
      && s'.master.freeSlots.Keys == s.master.freeSlots.Keys - {client} && s'.advertised == s.advertised
      && s'.requests == s.requests && Budget(w, s') == Budget(w, s)
  {
    var s := before[|before| - 1];
    InvAlways(w, before, |before| - 1);
    var order := Enumeration(Flight(s.master, client));
    DisconnectBudget(w, s, client, order);
    trace := Extend(w, before, Disconnect(client, order));
  }

  /** All registered workers but `c` are lost, before anything else happens. */
  lemma {:induction false} LoseOthers(w: World, before: seq<State>, c: nat) returns (trace: seq<State>)
    requires WorldFits(w) && IsRun(w, before) && before[0] == START && c in before[|before| - 1].master.freeSlots
    ensures IsRun(w, trace) && before <= trace
    ensures
      var s, s' := before[|before| - 1], trace[|trace| - 1];
      && s'.master.freeSlots.Keys == {c} && s'.advertised == s.advertised
      && s'.requests == s.requests && Budget(w, s') == Budget(w, s)
    decreases before[|before| - 1].master.freeSlots.Keys
  {
    var workers := before[|before| - 1].master.freeSlots.Keys;
    if workers == {c} {
      trace := before;
    } else {
      var client :| client in workers && client != c;
      trace := LoseOne(w, before, client);
      trace := LoseOthers(w, trace, c);
    }
  }

  /** The run has a published search and `c`, a registered worker with a thread. */
  ghost predicate CanServe(w: World, s: State, sid: nat, c: nat) {
    && sid in s.master.sessions && Countable(w, s, sid)
    && c in s.master.freeSlots && c in s.advertised && s.advertised[c] >= 1
  }

  ghost predicate IsDone(s: State, sid: nat) {
    GetStatus(s.master, sid).Some? && GetStatus(s.master, sid).value.done
  }

  /** From every reachable state with a registered worker that has a thread, and
      enough task ids below 2^64, the run goes on to Done: handlers in progress
      finish, and the workers answer what they hold. */
  lemma ReachesDone(w: World, before: seq<State>, sid: nat, c: nat) returns (trace: seq<State>)
    requires WorldFits(w) && IsRun(w, before) && before[0] == START && CanServe(w, before[|before| - 1], sid, c)
    requires Ahead(w, before[|before| - 1]) < U64
    ensures IsRun(w, trace) && before <= trace && SameParties(before[|before| - 1], trace[|trace| - 1])
    ensures IsDone(trace[|trace| - 1], sid)
  {
    var settled := HandlersFinish(w, before, sid);
    assert c in settled[|settled| - 1].master.freeSlots.Keys;
    trace := WorkerSuffices(w, settled, sid, c);
  }

  /** One worker suffices: even when all others are lost at once, with everything
      they were working on, the run goes on to Done, and no other worker ever
      joins. */
  lemma OneWorkerSuffices(w: World, before: seq<State>, sid: nat, c: nat) returns (lost: seq<State>, trace: seq<State>)
    requires WorldFits(w) && IsRun(w, before) && before[0] == START && CanServe(w, before[|before| - 1], sid, c)
    requires Budget(w, before[|before| - 1]) < U64
    ensures IsRun(w, lost) && before <= lost && lost[|lost| - 1].master.freeSlots.Keys == {c}
    ensures IsRun(w, trace) && lost <= trace && trace[|trace| - 1].master.freeSlots.Keys == {c}
    ensures trace[|trace| - 1].advertised == before[|before| - 1].advertised
    ensures IsDone(trace[|trace| - 1], sid)
  {
    lost := LoseOthers(w, before, c);
    SessionStays(w, before, lost, sid);
    assert c in lost[|lost| - 1].master.freeSlots.Keys;
    trace := ReachesDone(w, lost, sid, c);
  }
}
