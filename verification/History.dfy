/** Results that relate two moments of one run: statuses only grow, a reply is
    accepted at most once, and where the chunks are at any moment. */
module History {
  import opened Base
  import opened Codec
  import opened LineSearch
  import opened Chunking
  import opened Scheduler
  import opened Cluster
  import opened Accounting
  import opened Tables
  import opened Conservation
  import opened Totals
  import opened EndToEnd
  import opened Results

  /** An entry of the dispatch history is written once and dies once. */
  ghost predicate SentGrows(a: seq<Sent>, b: seq<Sent>) {
    && |a| <= |b|
    && forall i :: 0 <= i < |a| ==> b[i].client == a[i].client && b[i].task == a[i].task && (b[i].live ==> a[i].live)
  }

  /** What only grows along a run. */
  ghost predicate Grows(s: State, s': State) {
    && s.requests <= s'.requests && s.aggregated <= s'.aggregated && s.counted <= s'.counted
    && SentGrows(s.sent, s'.sent)
    && s.master.sessions.Keys <= s'.master.sessions.Keys
  }

  lemma ArrivalGrows(w: World, s: State, e: Event)
    requires Enabled(w, s, e) && !e.Step?
    ensures Grows(s, Apply(w, s, e))
  {
    ArrivalKeepsSessions(w, s, e);
    if e.Disconnect? {
      RetiredLive(s.sent, e.order);
      var sent' := RetireAll(s.sent, e.order);
      forall i | 0 <= i < |s.sent| && sent'[i].live
        ensures s.sent[i].live
      {
        assert LiveAt(sent', sent'[i].client, i + 1);
        assert LiveAt(s.sent, sent'[i].client, i + 1);
      }
    }
  }

  lemma StepSentGrows(w: World, s: State, i: nat)
    requires i < |s.threads|
    ensures SentGrows(s.sent, StepThread(w, s, i).sent)
  {
    var t := StepTouches(w, s, i);
  }

  /** The part of `Grows` that does not concern the dispatch history. */
  ghost predicate CountsGrow(s: State, s': State) {
    && s.requests <= s'.requests && s.aggregated <= s'.aggregated && s.counted <= s'.counted
    && s.master.sessions.Keys <= s'.master.sessions.Keys
  }

  lemma TaskDoneStepsGrow(s: State, i: nat)
    requires i < |s.threads|
    ensures forall task: Task, body: Bytes :: CountsGrow(s, StepAggregate(s, i, task, body))
    ensures forall task: Task :: CountsGrow(s, StepCount(s, i, task))
  {
  }

  lemma StepCountsGrow(w: World, s: State, i: nat)
    requires i < |s.threads|
    ensures CountsGrow(s, StepThread(w, s, i))
  {
    var pc := s.threads[i];
    if pc.Aggregating? {
      TaskDoneStepsGrow(s, i);
      assert StepThread(w, s, i) == StepAggregate(s, i, pc.task, pc.body);
    } else if pc.Counting? {
      TaskDoneStepsGrow(s, i);
      assert StepThread(w, s, i) == StepCount(s, i, pc.task);
    }
  }

  lemma GrowsNext(w: World, s: State, e: Event)
    requires Enabled(w, s, e)
    ensures Grows(s, Apply(w, s, e))
  {
    if e.Step? {
      StepSentGrows(w, s, e.thread);
      StepCountsGrow(w, s, e.thread);
    } else {
      ArrivalGrows(w, s, e);
    }
  }

  lemma SentGrowsOn(a: seq<Sent>, b: seq<Sent>, c: seq<Sent>)
    requires SentGrows(a, b) && SentGrows(b, c)
    ensures SentGrows(a, c)
  {
  }

  lemma GrowsOn(a: State, b: State, c: State)
    requires Grows(a, b) && Grows(b, c)
    ensures Grows(a, c)
  {
    SentGrowsOn(a.sent, b.sent, c.sent);
  }

  lemma StepGrows(w: World, trace: seq<State>, k: nat)
    requires IsRun(w, trace) && k + 1 < |trace|
    ensures Grows(trace[k], trace[k + 1])
  {
    assert StepAt(w, trace, k);
    var e :| Enabled(w, trace[k], e) && trace[k + 1] == Apply(w, trace[k], e);
    GrowsNext(w, trace[k], e);
  }

  lemma {:induction false} GrowsAlong(w: World, trace: seq<State>, j: nat, k: nat)
    requires IsRun(w, trace) && j <= k < |trace|
    ensures Grows(trace[j], trace[k])
    decreases k
  {
    if j < k {
      GrowsAlong(w, trace, j, k - 1);
      StepGrows(w, trace, k - 1);
      GrowsOn(trace[j], trace[k - 1], trace[k]);
    }
  }

  // ------------------------------------------------------- statuses only grow

  lemma {:induction false} OfPrefix(a: seq<Task>, b: seq<Task>, sid: nat)
    requires a <= b
    ensures Of(a, sid) <= Of(b, sid)
    decreases |b|
  {
    if |a| < |b| {
      OfPrefix(a, b[..|b| - 1], sid);
    } else {
      assert a == b;
    }
  }

  lemma AddedGrows(w: World, a: seq<Task>, b: seq<Task>, sid: nat)
    requires a <= b
    ensures |Added(w, a, sid)| <= |Added(w, b, sid)|
    ensures |TasksOf(a, sid)| <= |TasksOf(b, sid)|
  {
    OfPrefix(a, b, sid);
    var x, y := Of(a, sid), Of(b, sid);
    assert y == x + y[|x|..];
    AllTaskMatchesConcat(w, x, y[|x|..]);
    OfBag(a, sid);
    OfBag(b, sid);
    assert |multiset(x)| == |x| && |multiset(y)| == |y|;
  }

  /** What a status says in terms of the history, at any moment. */
  lemma StatusMeaning(w: World, s: State, sid: nat)
    requires Inv(w, s) && GetStatus(s.master, sid).Some?
    ensures
      var plan := s.requests[sid];
      var status := GetStatus(s.master, sid).value;
      var added, answer := |Added(w, s.aggregated, sid)|, |GrepFiles(w, plan.keyword, plan.names)|;
      var counted, n := |TasksOf(s.counted, sid)|, |PlanTasks(w, plan, sid)|;
      && added <= answer && counted <= n
      && status.totalMatches == added % U64 && status.linesFound == Min(plan.maxResults, added)
      && status.chunksDone == ToInt32(counted) && status.chunksTotal == ToInt32(n)
      && status.scanErrors == ErrorsFor(w, plan.names)
  {
    StatusCounters(w, s, sid);
    AddedIsPartOfAnswer(w, s, sid);
    CountedBalance(w, s, sid);
    assert CountersFor(w, s, sid) && SessionOf(w, s.master.sessions[sid], s.requests[sid], sid);
  }

  /** `b` is a later status than `a` of a search of `n` chunks with `answer`
      matches: totals never change, counts never decrease, Done stays. */
  ghost predicate Later(a: Status, b: Status, n: nat, answer: nat) {
    && b.chunksTotal == a.chunksTotal && b.scanErrors == a.scanErrors && a.linesFound <= b.linesFound
    && (answer < U64 ==> a.totalMatches <= b.totalMatches <= answer)
    && (n <= INT32_MAX ==> 0 <= a.chunksDone <= b.chunksDone <= b.chunksTotal == n)
    && (n <= INT32_MAX ==> a.done ==> b.done)
  }

  lemma LaterByCounts(a: Status, b: Status, n: nat, answer: nat, cap: nat, added: nat, added': nat, counted: nat, counted': nat)
    requires added <= added' <= answer && counted <= counted' <= n
    requires a.totalMatches == added % U64 && b.totalMatches == added' % U64
    requires a.linesFound == Min(cap, added) && b.linesFound == Min(cap, added')
    requires a.chunksDone == ToInt32(counted) && b.chunksDone == ToInt32(counted')
    requires a.chunksTotal == b.chunksTotal == ToInt32(n) && a.scanErrors == b.scanErrors
    requires a.done == (a.chunksDone == a.chunksTotal) && b.done == (b.chunksDone == b.chunksTotal)
    ensures Later(a, b, n, answer)
  {
    if n <= INT32_MAX {
      SmallCast(counted, n);
      SmallCast(counted', n);
    }
  }

  /** Over any run, successive statuses of one search only grow. */
  lemma StatusMonotone(w: World, trace: seq<State>, j: nat, k: nat, sid: nat)
    requires WorldFits(w) && IsRun(w, trace) && trace[0] == START && j <= k < |trace|
    requires GetStatus(trace[j].master, sid).Some?
    ensures GetStatus(trace[k].master, sid).Some? && sid < |trace[k].requests|
    ensures
      var plan := trace[k].requests[sid];
      Later(GetStatus(trace[j].master, sid).value, GetStatus(trace[k].master, sid).value,
            |PlanTasks(w, plan, sid)|, |GrepFiles(w, plan.keyword, plan.names)|)
  {
    var s, s' := trace[j], trace[k];
    InvAlways(w, trace, j);
    InvAlways(w, trace, k);
    GrowsAlong(w, trace, j, k);
    assert sid in s'.master.sessions.Keys;
    StatusMeaning(w, s, sid);
    StatusMeaning(w, s', sid);
    var plan := s'.requests[sid];
    assert s.requests[sid] == plan;
    AddedGrows(w, s.aggregated, s'.aggregated, sid);
    AddedGrows(w, s.counted, s'.counted, sid);
    LaterByCounts(GetStatus(s.master, sid).value, GetStatus(s'.master, sid).value,
                  |PlanTasks(w, plan, sid)|, |GrepFiles(w, plan.keyword, plan.names)|, plan.maxResults,
                  |Added(w, s.aggregated, sid)|, |Added(w, s'.aggregated, sid)|,
                  |TasksOf(s.counted, sid)|, |TasksOf(s'.counted, sid)|);
  }

  // ------------------------------------------------------ replies count once

  lemma MirrorsAlways(w: World, trace: seq<State>, k: nat)
    requires WorldFits(w) && IsRun(w, trace) && trace[0] == START && k < |trace|
    ensures Mirrors(trace[k].master, trace[k].sent) && FlightIndexed(trace[k].master)
  {
    InvAlways(w, trace, k);
  }

  /** A task in flight now was in flight, if it had been sent, at any earlier time. */
  lemma FlightGoesBack(s: State, s': State, client: nat, id: nat)
    requires Mirrors(s.master, s.sent) && Mirrors(s'.master, s'.sent) && SentGrows(s.sent, s'.sent)
    requires InFlightAt(s'.master, client, id) && 1 <= id <= s.master.nextTaskId
    ensures InFlightAt(s.master, client, id)
  {
    assert LiveAt(s'.sent, client, id);
    assert LiveAt(s.sent, client, id);
  }

  /** Once a dispatched task is in flight nowhere, no reply to it, from anyone
      and however late, changes anything. */
  lemma LateReplyIgnored(w: World, trace: seq<State>, j: nat, k: nat, client: nat, body: Bytes)
    requires WorldFits(w) && IsRun(w, trace) && trace[0] == START && j <= k < |trace|
    requires PopTaskId(body).Some? && 1 <= PopTaskId(body).value.0 <= trace[j].master.nextTaskId
    requires forall c: nat :: !InFlightAt(trace[j].master, c, PopTaskId(body).value.0)
    ensures ApplyTaskDone(trace[k], client, body) == trace[k]
  {
    var id := PopTaskId(body).value.0;
    MirrorsAlways(w, trace, j);
    MirrorsAlways(w, trace, k);
    GrowsAlong(w, trace, j, k);
    if InFlightAt(trace[k].master, client, id) {
      FlightGoesBack(trace[j], trace[k], client, id);
    }
  }

  /** Accepting a reply takes its task out of flight everywhere. */
  lemma AcceptedOnce(m: Master, client: nat, id: nat)
    requires FlightIndexed(m)
    ensures Claim(m, client, id).1.Some? <==> InFlightAt(m, client, id)
    ensures InFlightAt(m, client, id) ==> forall c: nat :: !InFlightAt(Claim(m, client, id).0, c, id)
  {
    if InFlightAt(m, client, id) {
      ClaimFlight(m, client, id);
    }
  }

  /** So does losing the worker that holds it; the task itself is pending again. */
  lemma LostIsPending(m: Master, client: nat, order: seq<nat>, id: nat)
    requires Indexed(m) && InFlightAt(m, client, id) && Enumerates(order, Flight(m, client))
    ensures forall c: nat :: !InFlightAt(Reclaim(m, client, order), c, id)
    ensures m.inFlight[client][id] in Reclaim(m, client, order).pending
  {
    ReclaimKeeps(m, client, order);
    PushFrontMembers(m.pending, Flight(m, client), order);
    assert id in order;
  }

  lemma {:induction false} PushedInFront(pending: seq<Task>, tasks: map<nat, Task>, order: seq<nat>) returns (front: seq<Task>)
    requires forall id :: id in order ==> id in tasks
    ensures PushFront(pending, tasks, order) == front + pending && |front| == |order|
    ensures forall i :: 0 <= i < |front| ==> front[i] == tasks[order[|order| - 1 - i]]
    decreases |order|
  {
    if order == [] {
      front := [];
    } else {
      var init, last := SplitLast(order);
      var rest := PushedInFront(pending, tasks, init);
      front := [tasks[last]] + rest;
      ConcatAssoc([tasks[last]], rest, pending);
    }
  }

  /** Reclaimed tasks overtake all that wait, last visited first, each once. */
  lemma ReclaimedFirst(m: Master, client: nat, order: seq<nat>) returns (front: seq<Task>)
    requires Enumerates(order, Flight(m, client))
    ensures Reclaim(m, client, order).pending == front + m.pending && |front| == |order| == |Flight(m, client)|
    ensures forall i :: 0 <= i < |front| ==> front[i] == Flight(m, client)[order[|order| - 1 - i]]
  {
    front := PushedInFront(m.pending, Flight(m, client), order);
    DistinctCount(order, Flight(m, client).Keys);
  }

  lemma {:induction false} DistinctCount(order: seq<nat>, ids: set<nat>)
    requires (forall id :: id in order <==> id in ids) && forall i, j :: 0 <= i < j < |order| ==> order[i] != order[j]
    ensures |order| == |ids|
    decreases |order|
  {
    if order != [] {
      var init, last := SplitLast(order);
      DistinctCount(init, ids - {last});
    } else {
      assert ids == {};
    }
  }

  // ---------------------------------------------------- counting the places

  /** The in-flight table's entries for one search. */
  ghost function FlightEntries(m: Master, sid: nat): set<(nat, nat)> {
    set c: nat, id: nat | c in m.inFlight && id in m.inFlight[c] && m.inFlight[c][id].searchId == sid :: (c, id)
  }

  predicate LiveFor(sent: seq<Sent>, sid: nat, id: nat) {
    1 <= id <= |sent| && sent[id - 1].live && sent[id - 1].task.searchId == sid
  }

  /** The live entries of the history among its first `n`. */
  ghost function LiveEntries(sent: seq<Sent>, sid: nat, n: nat): set<(nat, nat)>
    requires n <= |sent|
  {
    if n == 0 then {}
    else LiveEntries(sent, sid, n - 1) + if LiveFor(sent, sid, n) then {(sent[n - 1].client, n)} else {}
  }

  lemma {:induction false} LiveEntriesAre(sent: seq<Sent>, sid: nat, n: nat)
    requires n <= |sent|
    ensures forall p: (nat, nat) :: p in LiveEntries(sent, sid, n) <==>
      p.1 <= n && LiveFor(sent, sid, p.1) && sent[p.1 - 1].client == p.0
    decreases n
  {
    if n > 0 {
      LiveEntriesAre(sent, sid, n - 1);
    }
  }

  lemma FreshEntry(sent: seq<Sent>, sid: nat, n: nat)
    requires 0 < n <= |sent|
    ensures (sent[n - 1].client, n) !in LiveEntries(sent, sid, n - 1)
  {
    LiveEntriesAre(sent, sid, n - 1);
  }

  lemma {:induction false} LiveEntriesCount(sent: seq<Sent>, sid: nat, n: nat)
    requires n <= |sent|
    ensures |LiveEntries(sent, sid, n)| == |LiveOf(sent[..n], sid)|
    decreases n
  {
    if n > 0 {
      LiveEntriesCount(sent, sid, n - 1);
      FreshEntry(sent, sid, n);
      assert sent[..n] == sent[..n - 1] + [sent[n - 1]];
      LiveAppend(sent[..n - 1], sent[n - 1], sid);
      assert |SentBag(sent[n - 1], sid)| == if LiveFor(sent, sid, n) then 1 else 0;
    }
  }

  lemma FlightCount(s: State, sid: nat)
    requires Mirrors(s.master, s.sent)
    ensures |FlightEntries(s.master, sid)| == |LiveOf(s.sent, sid)|
  {
    var n := |s.sent|;
    LiveEntriesAre(s.sent, sid, n);
    LiveEntriesCount(s.sent, sid, n);
    assert s.sent[..n] == s.sent;
    forall p: (nat, nat)
      ensures p in FlightEntries(s.master, sid) <==> p in LiveEntries(s.sent, sid, n)
    {
      assert InFlightAt(s.master, p.0, p.1) <==> LiveAt(s.sent, p.0, p.1);
    }
    assert FlightEntries(s.master, sid) == LiveEntries(s.sent, sid, n);
  }

  /** Task conservation, counted: at every lock release of every run, the chunks
      of a search are its pending ones, its entries in the in-flight table, those
      claimed, those added but not counted, and those counted. */
  lemma ChunksBalance(w: World, trace: seq<State>, k: nat, sid: nat)
    requires WorldFits(w) && IsRun(w, trace) && trace[0] == START && k < |trace|
    requires sid in trace[k].master.sessions
    ensures sid < |trace[k].requests|
    ensures
      var s := trace[k];
      |PlanTasks(w, s.requests[sid], sid)| ==
        |TasksOf(s.master.pending, sid)| + |FlightEntries(s.master, sid)| + |ClaimedOf(s.threads, sid)|
        + |FinishingOf(s.threads, sid)| + |TasksOf(s.counted, sid)|
  {
    InvAlways(w, trace, k);
    CountedBalance(w, trace[k], sid);
    FlightCount(trace[k], sid);
  }

  /** Slot ledger and idle index at every lock release of every run. */
  lemma WorkersAlways(w: World, trace: seq<State>, k: nat)
    requires WorldFits(w) && IsRun(w, trace) && trace[0] == START && k < |trace|
    ensures Ledger(trace[k].master, trace[k].advertised)
    ensures FlightIndexed(trace[k].master) && IdleIndexed(trace[k].master)
  {
    InvAlways(w, trace, k);
  }

  /** No read of the unchecked loop in `DeserializeBatch` leaves the body. */
  lemma NoReadOutOfRange(w: World, trace: seq<State>, k: nat, i: nat)
    requires WorldFits(w) && IsRun(w, trace) && trace[0] == START && k < |trace|
    requires i < |trace[k].threads| && trace[k].threads[i].Aggregating?
    ensures DecodeBatch(trace[k].threads[i].body).Batch?
  {
    InvAlways(w, trace, k);
    AggregatingReady(w, trace[k], i);
  }
}
