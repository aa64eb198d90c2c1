/** The main results at lock granularity, over every run: what a client may
    conclude from a status, whatever Workers do. */
module EndToEnd {
  import opened Base
  import opened Codec
  import opened LineSearch
  import opened Chunking
  import opened Scheduler
  import opened Cluster
  import opened Tables
  import opened Conservation
  import opened Totals

  /** Everything that holds at every lock release. */
  ghost predicate Inv(w: World, s: State) {
    && SearchesOk(w, s) && WorkersOk(s) && Mirrors(s.master, s.sent) && Known(s)
    && BodiesOk(w, s) && Conserved(w, s) && TotalsOk(w, s)
  }

  lemma InvInit(w: World)
    ensures Inv(w, START)
  {
  }

  // ------------------------------------------------------------ preservation

  lemma ConservedForSame(w: World, s: State, s': State, sid: nat)
    requires sid < |s.requests| && s.requests <= s'.requests
    requires ConservedFor(w, s, sid) && SameChunks(s, s', sid)
    ensures ConservedFor(w, s', sid)
  {
    assert s'.requests[sid] == s.requests[sid];
  }

  lemma ConservedSame(w: World, s: State, s': State)
    requires SearchesOk(w, s) && SearchesOk(w, s') && Conserved(w, s)
    requires s'.master.sessions.Keys == s.master.sessions.Keys && s.requests <= s'.requests
    requires forall sid: nat :: sid in s.master.sessions ==> SameChunks(s, s', sid)
    ensures Conserved(w, s')
  {
    forall sid: nat | sid in s'.master.sessions
      ensures ConservedFor(w, s', sid)
    {
      ConservedForSame(w, s, s', sid);
    }
  }

  lemma ConservedPublish(w: World, s: State, i: nat, searchId: nat)
    requires SearchesOk(w, s) && Conserved(w, s) && Known(s)
    requires i < |s.threads| && s.threads[i] == Publishing(searchId)
    requires SearchesOk(w, StepPublish(w, s, i, searchId))
    ensures Conserved(w, StepPublish(w, s, i, searchId))
  {
    var s' := StepPublish(w, s, i, searchId);
    forall sid: nat | sid in s'.master.sessions
      ensures ConservedFor(w, s', sid)
    {
      PublishAddsChunks(w, s, i, searchId, sid);
      if sid == searchId {
        NothingBeforePublish(s, sid);
      } else {
        assert ConservedFor(w, s, sid);
      }
    }
  }

  /** What the handler about to aggregate needs. */
  lemma AggregatingReady(w: World, s: State, i: nat)
    requires WorldFits(w) && Inv(w, s) && i < |s.threads| && s.threads[i].Aggregating?
    ensures
      var task := s.threads[i].task;
      && task.searchId in s.master.sessions && task.maxResults == s.master.sessions[task.searchId].maxResults
      && DecodeBatch(s.threads[i].body) == Batch(ResultOf(w, task).(taskId := 0))
  {
    ClaimedTaskFits(w, s, i, s.threads[i].task);
    AggregatingDecodes(w, s, i);
  }

  lemma ConservedStep(w: World, s: State, i: nat)
    requires WorldFits(w) && Inv(w, s) && i < |s.threads|
    requires SearchesOk(w, StepThread(w, s, i))
    ensures Conserved(w, StepThread(w, s, i))
  {
    var s' := StepThread(w, s, i);
    if s.threads[i].Publishing? {
      ConservedPublish(w, s, i, s.threads[i].searchId);
    } else {
      if s.threads[i].Aggregating? {
        AggregatingReady(w, s, i);
      }
      StepKeepsSearches(w, s, i);
      forall sid: nat | sid in s.master.sessions
        ensures SameChunks(s, s', sid)
      {
        StepMovesChunks(w, s, i, sid);
      }
      ConservedSame(w, s, s');
    }
  }

  lemma ConservedNext(w: World, s: State, e: Event)
    requires WorldFits(w) && Inv(w, s) && Enabled(w, s, e)
    requires SearchesOk(w, Apply(w, s, e))
    ensures Conserved(w, Apply(w, s, e))
  {
    if e.Step? {
      ConservedStep(w, s, e.thread);
    } else {
      var s' := Apply(w, s, e);
      forall sid: nat | sid in s.master.sessions
        ensures SameChunks(s, s', sid)
      {
        ArrivalMovesChunks(w, s, e, sid);
      }
      ArrivalKeepsSessions(w, s, e);
      ConservedSame(w, s, s');
    }
  }

  lemma ArrivalKeepsSessions(w: World, s: State, e: Event)
    requires Enabled(w, s, e) && !e.Step?
    ensures Apply(w, s, e).master.sessions == s.master.sessions && s.requests <= Apply(w, s, e).requests
    ensures Apply(w, s, e).output == s.output
    ensures Apply(w, s, e).aggregated == s.aggregated && Apply(w, s, e).counted == s.counted
  {
  }

  /** Requests, greetings, replies and disconnects move chunks and lose none. */
  lemma ArrivalMovesChunks(w: World, s: State, e: Event, sid: nat)
    requires Mirrors(s.master, s.sent) && Enabled(w, s, e) && !e.Step?
    ensures SameChunks(s, Apply(w, s, e), sid)
  {
    if e.StartSearch? {
      StartMovesNothing(w, s, e.plan, sid);
      assert Apply(w, s, e) == ApplyStart(w, s, e.plan);
    } else if e.Hello? {
      HelloMovesNothing(s, e.client, e.threads, sid);
      assert Apply(w, s, e) == ApplyHello(s, e.client, e.threads);
    } else if e.TaskDone? {
      TaskDoneMovesChunk(s, e.client, e.body, sid);
      assert Apply(w, s, e) == ApplyTaskDone(s, e.client, e.body);
    } else {
      DisconnectMovesChunks(s, e.client, e.order, sid);
      assert Apply(w, s, e) == ApplyDisconnect(s, e.client, e.order);
    }
  }

  lemma ArrivalKeepsTotals(w: World, s: State, e: Event)
    requires Enabled(w, s, e) && !e.Step?
    ensures KeepsTotals(s, Apply(w, s, e))
  {
    var s' := Apply(w, s, e);
    ArrivalKeepsSessions(w, s, e);
    if s'.threads != s.threads {
      var pc := s'.threads[|s.threads|];
      assert s'.threads == s.threads + [pc] && !pc.Writing?;
      StartKeepsLines(s.threads, pc);
    }
  }

  lemma WriteCountTotals(w: World, s: State, i: nat)
    requires Inv(w, s) && i < |s.threads| && (s.threads[i].Writing? || s.threads[i].Counting?)
    requires StepThread(w, s, i).output.Keys == StepThread(w, s, i).master.sessions.Keys
    ensures TotalsOk(w, StepThread(w, s, i))
  {
    var s', pc := StepThread(w, s, i), s.threads[i];
    assert TaskHeld(pc) == Some(pc.task);
    forall sid: nat | sid in s'.master.sessions
      ensures CountersFor(w, s', sid) && OutputFor(w, s', sid)
    {
      assert CountersFor(w, s, sid) && OutputFor(w, s, sid);
      if pc.Writing? {
        WriteTotals(w, s, i, pc.task, pc.lines, sid);
        assert s' == StepWrite(s, i, pc.task, pc.lines);
      } else {
        CountTotals(w, s, i, pc.task, sid);
        assert s' == StepCount(s, i, pc.task);
      }
    }
  }

  lemma TotalsNext(w: World, s: State, e: Event)
    requires WorldFits(w) && Inv(w, s) && Enabled(w, s, e)
    requires SearchesOk(w, Apply(w, s, e))
    ensures TotalsOk(w, Apply(w, s, e))
  {
    var s' := Apply(w, s, e);
    if !e.Step? {
      ArrivalKeepsTotals(w, s, e);
      SameTotals(w, s, s');
    } else {
      var i := e.thread;
      var pc := s.threads[i];
      if pc.Publishing? {
        PublishTotals(w, s, i, pc.searchId);
        assert s' == StepPublish(w, s, i, pc.searchId);
      } else if pc.Aggregating? {
        AggregatingReady(w, s, i);
        AggregateTotals(w, s, i, pc.task, pc.body);
        assert s' == StepAggregate(s, i, pc.task, pc.body);
      } else if pc.Writing? || pc.Counting? {
        WriteCountTotals(w, s, i);
      } else if pc.Finished? {
        assert s' == s;
      } else {
        SchedulingKeepsTotals(w, s, i);
        SameTotals(w, s, s');
      }
    }
  }

  /** Every critical section and every outside event keeps the invariant. */
  lemma InvNext(w: World, s: State, e: Event)
    requires WorldFits(w) && Inv(w, s) && Enabled(w, s, e)
    ensures Inv(w, Apply(w, s, e))
  {
    SearchesNext(w, s, e);
    WorkersNext(w, s, e);
    MirrorsNext(w, s, e);
    KnownNext(w, s, e);
    BodiesNext(w, s, e);
    ConservedNext(w, s, e);
    TotalsNext(w, s, e);
  }

  lemma InvStep(w: World, trace: seq<State>, k: nat)
    requires WorldFits(w) && IsRun(w, trace) && k + 1 < |trace| && Inv(w, trace[k])
    ensures Inv(w, trace[k + 1])
  {
    assert StepAt(w, trace, k);
    var e :| Enabled(w, trace[k], e) && trace[k + 1] == Apply(w, trace[k], e);
    InvNext(w, trace[k], e);
  }

  /** The invariant holds in every state of every run. */
  lemma {:induction false} InvAlways(w: World, trace: seq<State>, k: nat)
    requires WorldFits(w) && IsRun(w, trace) && trace[0] == START && k < |trace|
    ensures Inv(w, trace[k])
    decreases k
  {
    if k == 0 {
      InvInit(w);
    } else {
      InvAlways(w, trace, k - 1);
      InvStep(w, trace, k - 1);
    }
  }
}
