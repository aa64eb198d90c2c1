/** What it takes to get a search done: as long as a registered worker has a thread
    some task is in flight, and the replies to the tasks in flight lead to Done. */
module Progress {
  import opened Base
  import opened Codec
  import opened LineSearch
  import opened Chunking
  import opened Scheduler
  import opened Cluster
  import opened Handlers
  import opened Alone
  import opened Accounting
  import opened Tables
  import opened Conservation
  import opened EndToEnd
  import opened Width
  import opened Worker
  import opened Results
  import opened History
  import opened Reservations

  lemma InSecond(p: multiset<Task>, l: multiset<Task>, c: multiset<Task>, a: multiset<Task>, x: Task)
    requires x in l
    ensures x in p + l + c + a
  {
  }

  /** A task in flight is the live entry of the history with its id. */
  lemma FlightIsLive(s: State, client: nat, id: nat)
    requires Mirrors(s.master, s.sent) && FlightIndexed(s.master) && InFlightAt(s.master, client, id)
    ensures 1 <= id <= |s.sent| && s.sent[id - 1] == Sent(client, s.master.inFlight[client][id], true)
    ensures s.master.inFlight[client][id].taskId == id
  {
    assert LiveAt(s.sent, client, id);
  }

  lemma LiveIsSomewhere(s: State, id: nat)
    requires 1 <= id <= |s.sent| && s.sent[id - 1].live
    ensures Chunk(s.sent[id - 1].task) in Everywhere(s, s.sent[id - 1].task.searchId)
  {
    var task := s.sent[id - 1].task;
    var sid := task.searchId;
    LiveContains(s.sent, id - 1, sid);
    assert Chunk(task) in SentBag(s.sent[id - 1], sid);
    InSecond(TasksOf(s.master.pending, sid), LiveOf(s.sent, sid), ClaimedOf(s.threads, sid), TasksOf(s.aggregated, sid), Chunk(task));
  }

  /** It is one of its request's chunks. */
  lemma LiveIsPlanned(w: World, s: State, id: nat)
    requires SearchesOk(w, s) && Conserved(w, s) && Known(s) && 1 <= id <= |s.sent| && s.sent[id - 1].live
    ensures
      var task := s.sent[id - 1].task;
      task.searchId in s.master.sessions && Chunk(task) in PlanTasks(w, s.requests[task.searchId], task.searchId)
  {
    var task := s.sent[id - 1].task;
    LiveIsSomewhere(s, id);
    assert ConservedFor(w, s, task.searchId);
    assert Chunk(task) in multiset(PlanTasks(w, s.requests[task.searchId], task.searchId));
  }

  lemma FlightFits(w: World, s: State, client: nat, id: nat)
    requires Inv(w, s) && InFlightAt(s.master, client, id)
    ensures TaskFits(s.master.inFlight[client][id])
  {
    FlightIsLive(s, client, id);
    LiveIsPlanned(w, s, id);
    var sid := s.master.inFlight[client][id].searchId;
    PlanTaskShape(w, s.requests[sid], sid, s.requests[sid].names);
  }

  /** In every run the worker that holds a task can run it: what the code of a
      Worker answers is the reply that the system assumes. */
  lemma FlightRunnable(w: World, trace: seq<State>, k: nat, client: nat, id: nat)
    requires WorldFits(w) && FilesFit(w) && IsRun(w, trace) && trace[0] == START && k < |trace|
    requires InFlightAt(trace[k].master, client, id)
    ensures Runnable(w, trace[k].master.inFlight[client][id])
  {
    InvAlways(w, trace, k);
    FlightFits(w, trace[k], client, id);
    FlightInFile(w, trace[k], client, id);
  }

  lemma FlightInFile(w: World, s: State, client: nat, id: nat)
    requires Inv(w, s) && InFlightAt(s.master, client, id)
    ensures InFile(w, s.master.inFlight[client][id])
  {
    FlightIsLive(s, client, id);
    LiveIsPlanned(w, s, id);
    var task := s.master.inFlight[client][id];
    PlanTaskShape(w, s.requests[task.searchId], task.searchId, s.requests[task.searchId].names);
    assert InFile(w, Chunk(task));
  }

  lemma AnswerTo(w: World, s: State, client: nat, id: nat, task: Task) returns (body: Bytes)
    requires WorldFits(w) && TaskFits(task) && task.taskId == id < U64
    requires 1 <= id <= |s.sent| && s.sent[id - 1] == Sent(client, task, true)
    ensures PopTaskId(body).Some? && PopTaskId(body).value.0 == id
    ensures Enabled(w, s, TaskDone(client, body))
  {
    body := EncodeBatch(ResultOf(w, task));
    ReplyRoundTrip(w, task);
  }

  /** The Worker that holds a task can answer it. */
  lemma Answer(w: World, s: State, client: nat, id: nat) returns (body: Bytes)
    requires WorldFits(w) && Inv(w, s) && InFlightAt(s.master, client, id) && id < U64
    ensures PopTaskId(body).Some? && PopTaskId(body).value.0 == id
    ensures Enabled(w, s, TaskDone(client, body))
  {
    FlightIsLive(s, client, id);
    FlightFits(w, s, client, id);
    body := AnswerTo(w, s, client, id, s.master.inFlight[client][id]);
  }

  // ------------------------------------------------------ something is running

  lemma SomeLive(sent: seq<Sent>, sid: nat) returns (id: nat)
    requires LiveOf(sent, sid) != multiset{}
    ensures 1 <= id <= |sent| && sent[id - 1].live
  {
    if forall i :: 0 <= i < |sent| ==> SentBag(sent[i], sid) == multiset{} {
      NoLive(sent, sid);
    }
    var i: nat :| i < |sent| && SentBag(sent[i], sid) != multiset{};
    id := i + 1;
  }

  lemma QuietHoldsNothing(s: State, sid: nat)
    requires Quiet(s)
    ensures ClaimedOf(s.threads, sid) == multiset{} && FinishingOf(s.threads, sid) == multiset{}
  {
    NoClaimed(s.threads, sid);
    NoFinishing(s.threads, sid);
  }

  lemma LiveIsFlight(m: Master, sent: seq<Sent>, id: nat)
    requires Mirrors(m, sent) && 1 <= id <= |sent| && sent[id - 1].live
    ensures InFlightAt(m, sent[id - 1].client, id)
  {
    assert LiveAt(sent, sent[id - 1].client, id);
  }

  lemma SomeFlight(m: Master, c: nat) returns (id: nat)
    requires |Flight(m, c)| > 0
    ensures InFlightAt(m, c, id)
  {
    assert Flight(m, c).Keys != {};
    id :| id in Flight(m, c);
  }

  /** In every run, between handlers: while a search has chunks left and some
      registered worker has a thread, some task is in flight. */
  lemma SomethingRuns(w: World, trace: seq<State>, k: nat, sid: nat, c: nat) returns (client: nat, id: nat)
    requires WorldFits(w) && IsRun(w, trace) && trace[0] == START && k < |trace| && Quiet(trace[k])
    requires sid in trace[k].master.sessions && !NothingLeft(trace[k], sid)
    requires c in trace[k].master.freeSlots && c in trace[k].advertised && trace[k].advertised[c] >= 1
    ensures InFlightAt(trace[k].master, client, id)
  {
    var s := trace[k];
    if s.master.pending != [] {
      WaitingMeansBusy(w, trace, k, c);
      client := c;
      id := SomeFlight(s.master, c);
    } else {
      InvAlways(w, trace, k);
      QuietHoldsNothing(s, sid);
      assert LiveOf(s.sent, sid) != multiset{};
      id := SomeLive(s.sent, sid);
      client := s.sent[id - 1].client;
      LiveIsFlight(s.master, s.sent, id);
    }
  }

  // ------------------------------------------------------------ tasks run out

  /** All entries of the in-flight table. */
  ghost function Entries(m: Master): set<(nat, nat)> {
    set c: nat, id: nat | c in m.inFlight && id in m.inFlight[c] :: (c, id)
  }

  /** Tasks that still have to be answered. */
  ghost function Unanswered(m: Master): nat {
    |m.pending| + |Entries(m)|
  }

  lemma ClaimEntries(m: Master, client: nat, id: nat)
    requires FlightIndexed(m) && InFlightAt(m, client, id)
    ensures Unanswered(Claim(m, client, id).0) == Unanswered(m) - 1
  {
    var m' := Claim(m, client, id).0;
    ClaimFlight(m, client, id);
    forall c: nat, k: nat ensures (c, k) in Entries(m') <==> (c, k) in Entries(m) - {(client, id)} {
      assert (c, k) in Entries(m') <==> InFlightAt(m', c, k);
      assert (c, k) in Entries(m) <==> InFlightAt(m, c, k);
    }
    assert Entries(m') == Entries(m) - {(client, id)};
  }

  lemma MemberEntries(m: Master, c: nat, id: nat)
    ensures (c, id) in Entries(m) <==> InFlightAt(m, c, id)
  {
  }

  lemma SendEntries(m: Master, client: nat)
    requires FlightIndexed(m) && client in m.freeSlots && m.pending != []
    ensures Entries(Dispatch(m, client).0) == Entries(m) + {(client, m.nextTaskId + 1)}
    ensures (client, m.nextTaskId + 1) !in Entries(m)
  {
    var m', id := Dispatch(m, client).0, m.nextTaskId + 1;
    DispatchFlight(m, client);
    MemberEntries(m, client, id);
    forall c: nat, k: nat ensures (c, k) in Entries(m') <==> (c, k) in Entries(m) + {(client, id)} {
      MemberEntries(m', c, k);
      MemberEntries(m, c, k);
    }
  }

  lemma DispatchEntries(m: Master, client: nat)
    requires FlightIndexed(m)
    ensures Unanswered(Dispatch(m, client).0) == Unanswered(m)
  {
    if client in m.freeSlots && m.pending != [] {
      SendEntries(m, client);
    } else {
      assert Entries(Dispatch(m, client).0) == Entries(m);
    }
  }

  /** What one accepted reply does to the scheduling tables. */
  lemma AnsweredOnce(m: Master, client: nat, id: nat, output: map<nat, seq<Bytes>>, task: Task, body: Bytes)
    requires Indexed(m) && InFlightAt(m, client, id)
    ensures
      var m' := Complete(Dispatch(Claim(m, client, id).0, client).0, output, task, body).0;
      && Unanswered(m') == Unanswered(m) - 1 && m'.freeSlots.Keys == m.freeSlots.Keys
      && m'.nextTaskId + |m'.pending| == m.nextTaskId + |m.pending|
  {
    var claimed := Claim(m, client, id).0;
    ClaimKeeps(m, client, id);
    ClaimEntries(m, client, id);
    ClaimSlots(m, client, id);
    DispatchEntries(claimed, client);
    CompleteLeaves(Dispatch(claimed, client).0, output, task, body);
    assert Entries(Complete(Dispatch(claimed, client).0, output, task, body).0) == Entries(Dispatch(claimed, client).0);
  }

  /** Between handlers; `c` is a registered worker with a thread, and the task ids
      that are still needed fit 64 bits. */
  ghost predicate Served(s: State, c: nat) {
    && Quiet(s) && c in s.master.freeSlots && c in s.advertised && s.advertised[c] >= 1
    && s.master.nextTaskId + |s.master.pending| < U64
  }

  /** The reply to a task in flight, in any run. */
  lemma AnswerInRun(w: World, before: seq<State>, client: nat, id: nat) returns (body: Bytes)
    requires WorldFits(w) && IsRun(w, before) && before[0] == START
    requires InFlightAt(before[|before| - 1].master, client, id) && before[|before| - 1].master.nextTaskId < U64
    ensures PopTaskId(body).Some? && PopTaskId(body).value.0 == id
    ensures Enabled(w, before[|before| - 1], TaskDone(client, body)) && Indexed(before[|before| - 1].master)
  {
    InvAlways(w, before, |before| - 1);
    assert FlightIndexed(before[|before| - 1].master);
    body := Answer(w, before[|before| - 1], client, id);
  }

  lemma StaysServed(s: State, s': State, c: nat)
    requires Served(s, c) && s'.threads == s.threads + [Finished] && s'.advertised == s.advertised
    requires s'.master.freeSlots.Keys == s.master.freeSlots.Keys
    requires s'.master.nextTaskId + |s'.master.pending| == s.master.nextTaskId + |s.master.pending|
    ensures Served(s', c)
  {
    assert c in s'.master.freeSlots.Keys;
  }

  /** One more reply: fewer tasks are left. */
  lemma AnswerOne(w: World, before: seq<State>, c: nat, client: nat, id: nat) returns (trace: seq<State>)
    requires WorldFits(w) && IsRun(w, before) && before[0] == START && Served(before[|before| - 1], c)
    requires InFlightAt(before[|before| - 1].master, client, id)
    ensures IsRun(w, trace) && before <= trace && Served(trace[|trace| - 1], c)
    ensures SameParties(before[|before| - 1], trace[|trace| - 1])
    ensures Unanswered(trace[|trace| - 1].master) == Unanswered(before[|before| - 1].master) - 1
  {
    var s := before[|before| - 1];
    var body := AnswerInRun(w, before, client, id);
    trace := TaskDoneIsRun(w, before, client, body);
    AnsweredOnce(s.master, client, id, s.output, s.master.inFlight[client][id], PopTaskId(body).value.1);
    StaysServed(s, trace[|trace| - 1], c);
  }

  lemma SomeTask(w: World, before: seq<State>, c: nat) returns (client: nat, id: nat)
    requires WorldFits(w) && IsRun(w, before) && before[0] == START && Served(before[|before| - 1], c)
    requires Unanswered(before[|before| - 1].master) > 0
    ensures InFlightAt(before[|before| - 1].master, client, id)
  {
    var s := before[|before| - 1];
    if s.master.pending != [] {
      WaitingMeansBusy(w, before, |before| - 1, c);
      client := c;
      id := SomeFlight(s.master, c);
    } else {
      var entry :| entry in Entries(s.master);
      client, id := entry.0, entry.1;
    }
  }

  lemma {:induction false} AllAnswered(w: World, before: seq<State>, c: nat) returns (trace: seq<State>)
    requires WorldFits(w) && IsRun(w, before) && before[0] == START && Served(before[|before| - 1], c)
    ensures IsRun(w, trace) && before <= trace && Quiet(trace[|trace| - 1])
    ensures SameParties(before[|before| - 1], trace[|trace| - 1])
    ensures Unanswered(trace[|trace| - 1].master) == 0
    decreases Unanswered(before[|before| - 1].master)
  {
    if Unanswered(before[|before| - 1].master) == 0 {
      trace := before;
    } else {
      var client, id := SomeTask(w, before, c);
      trace := AnswerOne(w, before, c, client, id);
      trace := AllAnswered(w, trace, c);
    }
  }

  lemma LiveIsUnanswered(m: Master, sent: seq<Sent>, id: nat)
    requires Mirrors(m, sent) && 1 <= id <= |sent| && sent[id - 1].live
    ensures Unanswered(m) > 0
  {
    LiveIsFlight(m, sent, id);
    assert (sent[id - 1].client, id) in Entries(m);
  }

  /** With no task unanswered and no handler in progress nothing is left to do. */
  lemma NothingUnanswered(s: State, sid: nat)
    requires Mirrors(s.master, s.sent) && Quiet(s) && Unanswered(s.master) == 0
    ensures NothingLeft(s, sid)
  {
    QuietHoldsNothing(s, sid);
    assert s.master.pending == [];
    if LiveOf(s.sent, sid) != multiset{} {
      var id := SomeLive(s.sent, sid);
      LiveIsUnanswered(s.master, s.sent, id);
    }
  }

  lemma SessionStays(w: World, before: seq<State>, trace: seq<State>, sid: nat)
    requires IsRun(w, before) && IsRun(w, trace) && before <= trace && sid in before[|before| - 1].master.sessions
    ensures sid in trace[|trace| - 1].master.sessions
  {
    GrowsAlong(w, trace, |before| - 1, |trace| - 1);
    assert sid in before[|before| - 1].master.sessions.Keys;
  }

  lemma DoneAtLast(w: World, trace: seq<State>, sid: nat)
    requires WorldFits(w) && IsRun(w, trace) && trace[0] == START && Quiet(trace[|trace| - 1])
    requires Unanswered(trace[|trace| - 1].master) == 0 && sid in trace[|trace| - 1].master.sessions
    requires Countable(w, trace[|trace| - 1], sid)
    ensures GetStatus(trace[|trace| - 1].master, sid).Some? && GetStatus(trace[|trace| - 1].master, sid).value.done
  {
    MirrorsAlways(w, trace, |trace| - 1);
    NothingUnanswered(trace[|trace| - 1], sid);
    DoneExactly(w, trace, |trace| - 1, sid);
  }

  /** A run between handlers, with a published search and a registered worker that
      has a thread, goes on to one in which the search is Done. */
  lemma WorkerSuffices(w: World, before: seq<State>, sid: nat, c: nat) returns (trace: seq<State>)
    requires WorldFits(w) && IsRun(w, before) && before[0] == START && Served(before[|before| - 1], c)
    requires sid in before[|before| - 1].master.sessions && Countable(w, before[|before| - 1], sid)
    ensures IsRun(w, trace) && before <= trace && SameParties(before[|before| - 1], trace[|trace| - 1])
    ensures GetStatus(trace[|trace| - 1].master, sid).Some? && GetStatus(trace[|trace| - 1].master, sid).value.done
  {
    trace := AllAnswered(w, before, c);
    SessionStays(w, before, trace, sid);
    DoneAtLast(w, trace, sid);
  }
}
