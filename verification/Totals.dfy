/** What the session counters and the result file hold at every lock release. */
module Totals {
  import opened Base
  import opened Codec
  import opened LineSearch
  import opened Chunking
  import opened Scheduler
  import opened Cluster
  import opened Bags
  import opened Accounting
  import opened Tables
  import opened Conservation

  /** The chunks of search `sid`, in the order their results were added. */
  function Of(tasks: seq<Task>, sid: nat): seq<Task> {
    if tasks == [] then []
    else Of(tasks[..|tasks| - 1], sid) + if tasks[|tasks| - 1].searchId == sid then [Chunk(tasks[|tasks| - 1])] else []
  }

  lemma OfAppend(tasks: seq<Task>, task: Task, sid: nat)
    ensures Of(tasks + [task], sid) == if task.searchId == sid then Of(tasks, sid) + [Chunk(task)] else Of(tasks, sid)
  {
    assert (tasks + [task])[..|tasks|] == tasks;
  }

  /** All the matches of the chunks added to search `sid` so far. */
  function Added(w: World, aggregated: seq<Task>, sid: nat): seq<Bytes> {
    AllTaskMatches(w, Of(aggregated, sid))
  }

  lemma AddedAppend(w: World, aggregated: seq<Task>, task: Task, sid: nat)
    ensures Added(w, aggregated + [task], sid) ==
      if task.searchId == sid then Added(w, aggregated, sid) + TaskMatches(w, task) else Added(w, aggregated, sid)
  {
    OfAppend(aggregated, task, sid);
    AllTaskMatchesAppend(w, Of(aggregated, sid), Chunk(task));
    assert TaskMatches(w, Chunk(task)) == TaskMatches(w, task);
  }

  /** The counters: every match added, the lines capped, the chunks counted. */
  ghost predicate CountersFor(w: World, s: State, sid: nat)
    requires sid in s.master.sessions
  {
    var session := s.master.sessions[sid];
    var n := |Added(w, s.aggregated, sid)|;
    && session.totalMatches == n % U64
    && session.lineCount == Min(session.maxResults, n)
    && session.chunksDone == ToInt32(|TasksOf(s.counted, sid)|)
  }

  /** The result file: real matches only, as many as the line counter says once
      the lines still on their way are written. */
  ghost predicate OutputFor(w: World, s: State, sid: nat)
    requires sid in s.master.sessions && sid in s.output
  {
    && multiset(s.output[sid]) + LinesOf(s.threads, sid) <= multiset(Added(w, s.aggregated, sid))
    && |s.output[sid]| + |LinesOf(s.threads, sid)| == s.master.sessions[sid].lineCount
  }

  ghost predicate TotalsOk(w: World, s: State)
    requires s.output.Keys == s.master.sessions.Keys
  {
    forall sid: nat :: sid in s.master.sessions ==> CountersFor(w, s, sid) && OutputFor(w, s, sid)
  }

  // ------------------------------------------------------------ caps compose

  /** What one aggregation makes of the line counter. */
  function AddLines(lineCount: nat, maxResults: nat, lines: nat): nat {
    if lineCount < maxResults then lineCount + Min(lines, maxResults - lineCount) else lineCount
  }

  /** Capping every chunk and then the session is capping the grand total. */
  lemma CapOne(maxResults: nat, before: nat, matches: nat)
    ensures AddLines(Min(maxResults, before), maxResults, Min(maxResults, matches)) == Min(maxResults, before + matches)
  {
  }

  function SumOf(counts: seq<nat>): nat {
    if counts == [] then 0 else SumOf(counts[..|counts| - 1]) + counts[|counts| - 1]
  }

  /** Chunks complete in some order, each capped; the session caps again. */
  function LineCountAfter(maxResults: nat, counts: seq<nat>): nat {
    if counts == [] then 0
    else AddLines(LineCountAfter(maxResults, counts[..|counts| - 1]), maxResults, Min(maxResults, counts[|counts| - 1]))
  }

  /** Whatever the order of completion, the two caps together are one cap. */
  lemma {:induction false} CapsCompose(maxResults: nat, counts: seq<nat>)
    ensures LineCountAfter(maxResults, counts) == Min(maxResults, SumOf(counts))
    decreases |counts|
  {
    if counts != [] {
      var n := |counts| - 1;
      CapsCompose(maxResults, counts[..n]);
      CapOne(maxResults, SumOf(counts[..n]), counts[n]);
    }
  }

  // ------------------------------------------------------ one result is added

  /** A Worker's result against the uncapped matches of its task. */
  lemma ResultAgainstMatches(w: World, task: Task)
    ensures
      var r, all := ResultOf(w, task), TaskMatches(w, task);
      && r.totalMatches == |all| && r.lines == Take(all, task.maxResults) && |r.lines| == Min(task.maxResults, |all|)
  {
    if task.filename in w.files {
      var matches := MatchesIn(w.compile(task.keyword), w.files[task.filename], task.start, task.end);
      assert FormatAll(task.filename, Take(matches, task.maxResults)) == Take(FormatAll(task.filename, matches), task.maxResults);
    } else {
      assert EMPTY_RESULT.lines == Take([], task.maxResults);
    }
  }

  lemma AddModulo(a: nat, b: nat)
    ensures (a % U64 + b) % U64 == (a + b) % U64
  {
  }

  lemma TakeIsSub(lines: seq<Bytes>, n: nat)
    ensures multiset(Take(lines, n)) <= multiset(lines)
  {
    var k := Min(|lines|, n);
    assert lines == lines[..k] + lines[k..];
  }

  /** A session before and after a result with `matches` matches is added. */
  ghost predicate SessionAdded(before: Session, after: Session, matches: nat) {
    after == before.(
      totalMatches := (before.totalMatches + matches) % U64,
      lineCount := AddLines(before.lineCount, before.maxResults, Min(before.maxResults, matches)))
  }

  /** The step that adds an honest result, of which `n` lines go to the file. */
  ghost predicate ResultAdded(w: World, s: State, s': State, task: Task, n: nat) {
    && task.searchId in s.master.sessions && s'.master.sessions.Keys == s.master.sessions.Keys
    && s'.aggregated == s.aggregated + [Chunk(task)] && s'.counted == s.counted && s'.output == s.output
    && (forall sid: nat :: sid in s.master.sessions && sid != task.searchId ==>
      s'.master.sessions[sid] == s.master.sessions[sid])
    && SessionAdded(s.master.sessions[task.searchId], s'.master.sessions[task.searchId], |TaskMatches(w, task)|)
    && s'.master.sessions[task.searchId].lineCount == s.master.sessions[task.searchId].lineCount + n
    && n <= |ResultOf(w, task).lines|
  }

  /** How many lines of the result of a task its session still wants. */
  function Wanted(w: World, s: State, task: Task): nat
    requires task.searchId in s.master.sessions
  {
    var session := s.master.sessions[task.searchId];
    if session.lineCount < session.maxResults
      then Min(|ResultOf(w, task).lines|, session.maxResults - session.lineCount)
      else 0
  }

  /** `Aggregate` on the session of the result. */
  lemma AggregateSession(m: Master, sid: nat, r: ChunkResult, matches: nat)
    requires sid in m.sessions && r.totalMatches == matches && |r.lines| == Min(m.sessions[sid].maxResults, matches)
    ensures
      var a, b := m.sessions[sid], Aggregate(m, sid, r).0.sessions;
      && Aggregate(m, sid, r).1 == Some(AddLines(a.lineCount, a.maxResults, |r.lines|) - a.lineCount)
      && b.Keys == m.sessions.Keys && SessionAdded(a, b[sid], matches)
      && forall k: nat :: k in m.sessions && k != sid ==> b[k] == m.sessions[k]
  {
  }

  lemma AggregateAdds(w: World, s: State, i: nat, task: Task, body: Bytes)
    requires i < |s.threads| && s.threads[i] == Aggregating(task, body)
    requires DecodeBatch(body) == Batch(ResultOf(w, task).(taskId := 0))
    requires task.searchId in s.master.sessions && task.maxResults == s.master.sessions[task.searchId].maxResults
    ensures ResultAdded(w, s, StepAggregate(s, i, task, body), task, Wanted(w, s, task))
  {
    ResultAgainstMatches(w, task);
    var r := ResultOf(w, task).(taskId := 0);
    AggregateSession(s.master, task.searchId, r, |TaskMatches(w, task)|);
    assert StepAggregate(s, i, task, body).master == Aggregate(s.master, task.searchId, r).0;
  }

  /** Where the handler stands after adding an honest result. */
  lemma AggregateThread(w: World, s: State, i: nat, task: Task, body: Bytes)
    requires i < |s.threads|
    requires DecodeBatch(body) == Batch(ResultOf(w, task).(taskId := 0)) && task.searchId in s.master.sessions
    ensures
      var n := Wanted(w, s, task);
      StepAggregate(s, i, task, body).threads ==
        s.threads[i := if n == 0 then Counting(task) else Writing(task, Take(ResultOf(w, task).lines, n))]
  {
  }

  /** The lines that session wants are on their way, those of others unmoved. */
  lemma AggregateLines(w: World, s: State, i: nat, task: Task, body: Bytes, sid: nat)
    requires i < |s.threads| && s.threads[i] == Aggregating(task, body)
    requires DecodeBatch(body) == Batch(ResultOf(w, task).(taskId := 0))
    requires task.searchId in s.master.sessions
    ensures LinesOf(StepAggregate(s, i, task, body).threads, sid) == LinesOf(s.threads, sid) +
      (if sid == task.searchId then multiset(Take(ResultOf(w, task).lines, Wanted(w, s, task))) else multiset{})
  {
    AggregateThread(w, s, i, task, body);
    WantedLines(s.threads, i, task, Take(ResultOf(w, task).lines, Wanted(w, s, task)), sid);
  }

  lemma WantedLines(threads: seq<Pc>, i: nat, task: Task, lines: seq<Bytes>, sid: nat)
    requires i < |threads| && threads[i].Aggregating?
    ensures
      var pc := if |lines| == 0 then Counting(task) else Writing(task, lines);
      LinesOf(threads[i := pc], sid) == LinesOf(threads, sid) + (if sid == task.searchId then multiset(lines) else multiset{})
  {
    LinesMove(threads, i, if |lines| == 0 then Counting(task) else Writing(task, lines), sid);
  }

  lemma CountersAdded(w: World, s: State, s': State, task: Task, n: nat, sid: nat)
    requires ResultAdded(w, s, s', task, n)
    requires sid in s.master.sessions && CountersFor(w, s, sid)
    ensures CountersFor(w, s', sid)
  {
    AddedAppend(w, s.aggregated, Chunk(task), sid);
    assert TaskMatches(w, Chunk(task)) == TaskMatches(w, task);
    var n, m := |Added(w, s.aggregated, sid)|, |TaskMatches(w, task)|;
    if sid == task.searchId {
      assert |Added(w, s'.aggregated, sid)| == n + m;
      SessionGrows(s.master.sessions[sid], s'.master.sessions[sid], n, m);
    } else {
      assert Added(w, s'.aggregated, sid) == Added(w, s.aggregated, sid);
    }
  }

  lemma SessionGrows(before: Session, after: Session, n: nat, matches: nat)
    requires SessionAdded(before, after, matches)
    requires before.totalMatches == n % U64 && before.lineCount == Min(before.maxResults, n)
    ensures after.totalMatches == (n + matches) % U64 && after.lineCount == Min(after.maxResults, n + matches)
  {
    AddModulo(n, matches);
    CapOne(before.maxResults, n, matches);
  }

  lemma GrowSub(o: multiset<Bytes>, l: multiset<Bytes>, x: multiset<Bytes>, a: multiset<Bytes>, y: multiset<Bytes>)
    requires o + l <= a && x <= y
    ensures o + (l + x) <= a + y && |l + x| == |l| + |x|
  {
  }

  lemma OutputAdded(w: World, s: State, s': State, task: Task, n: nat, sid: nat)
    requires ResultAdded(w, s, s', task, n)
    requires LinesOf(s'.threads, sid) == LinesOf(s.threads, sid) +
      (if sid == task.searchId then multiset(Take(ResultOf(w, task).lines, n)) else multiset{})
    requires sid in s.master.sessions && sid in s.output && OutputFor(w, s, sid)
    ensures OutputFor(w, s', sid)
  {
    AddedAppend(w, s.aggregated, Chunk(task), sid);
    if sid == task.searchId {
      var lines, all := ResultOf(w, task).lines, TaskMatches(w, task);
      ResultAgainstMatches(w, task);
      assert TaskMatches(w, Chunk(task)) == all;
      TakeIsSub(lines, n);
      TakeIsSub(all, task.maxResults);
      GrowSub(multiset(s.output[sid]), LinesOf(s.threads, sid), multiset(Take(lines, n)),
              multiset(Added(w, s.aggregated, sid)), multiset(all));
    }
  }

  /** Adding a result keeps the counters and the file right. */
  lemma AggregateTotals(w: World, s: State, i: nat, task: Task, body: Bytes)
    requires i < |s.threads| && s.threads[i] == Aggregating(task, body)
    requires DecodeBatch(body) == Batch(ResultOf(w, task).(taskId := 0))
    requires task.searchId in s.master.sessions && task.maxResults == s.master.sessions[task.searchId].maxResults
    requires s.output.Keys == s.master.sessions.Keys && TotalsOk(w, s)
    ensures
      var s' := StepAggregate(s, i, task, body);
      s'.output.Keys == s'.master.sessions.Keys && TotalsOk(w, s')
  {
    var s', n := StepAggregate(s, i, task, body), Wanted(w, s, task);
    AggregateAdds(w, s, i, task, body);
    forall sid: nat | sid in s'.master.sessions
      ensures CountersFor(w, s', sid) && OutputFor(w, s', sid)
    {
      AggregateLines(w, s, i, task, body, sid);
      CountersAdded(w, s, s', task, n, sid);
      OutputAdded(w, s, s', task, n, sid);
    }
  }

  // -------------------------------------------------- lines are written, counted

  lemma ThreadLosesLines(threads: seq<Pc>, i: nat, pc: Pc, sid: nat)
    requires i < |threads| && LinesBag(pc, sid) == multiset{}
    ensures LinesOf(threads, sid) == LinesOf(threads[i := pc], sid) + LinesBag(threads[i], sid)
    ensures LinesBag(threads[i], sid) == multiset{} ==> LinesOf(threads[i := pc], sid) == LinesOf(threads, sid)
  {
    LinesMove(threads, i, pc, sid);
    if LinesBag(threads[i], sid) == multiset{} {
      Cancel(LinesOf(threads[i := pc], sid), LinesOf(threads, sid), multiset{});
    }
  }

  lemma WriteTotals(w: World, s: State, i: nat, task: Task, lines: seq<Bytes>, sid: nat)
    requires i < |s.threads| && s.threads[i] == Writing(task, lines)
    requires sid in s.master.sessions && sid in s.output && task.searchId in s.output
    requires CountersFor(w, s, sid) && OutputFor(w, s, sid)
    ensures sid in StepWrite(s, i, task, lines).output
    ensures CountersFor(w, StepWrite(s, i, task, lines), sid) && OutputFor(w, StepWrite(s, i, task, lines), sid)
  {
    ThreadLosesLines(s.threads, i, Counting(task), sid);
    var s' := StepWrite(s, i, task, lines);
    if sid == task.searchId {
      Hand(LinesOf(s.threads, sid), LinesOf(s'.threads, sid), multiset(s.output[sid]), multiset(lines));
      assert multiset(s'.output[sid]) == multiset(s.output[sid]) + multiset(lines);
      assert multiset(s'.output[sid]) + LinesOf(s'.threads, sid) == multiset(s.output[sid]) + LinesOf(s.threads, sid);
    }
  }

  lemma CountedSize(counted: seq<Task>, task: Task, sid: nat)
    ensures |TasksOf(counted + [Chunk(task)], sid)| == |TasksOf(counted, sid)| + (if sid == task.searchId then 1 else 0)
  {
    TasksAppend(counted, Chunk(task), sid);
  }

  lemma CountCounters(w: World, s: State, i: nat, task: Task, sid: nat)
    requires i < |s.threads| && sid in s.master.sessions && task.searchId in s.master.sessions
    requires CountersFor(w, s, sid)
    ensures sid in StepCount(s, i, task).master.sessions && CountersFor(w, StepCount(s, i, task), sid)
  {
    CountedSize(s.counted, task, sid);
    IncrementMatchesCast(|TasksOf(s.counted, sid)|);
  }

  lemma CountTotals(w: World, s: State, i: nat, task: Task, sid: nat)
    requires i < |s.threads| && s.threads[i] == Counting(task)
    requires sid in s.master.sessions && sid in s.output && task.searchId in s.master.sessions
    requires CountersFor(w, s, sid) && OutputFor(w, s, sid)
    ensures sid in StepCount(s, i, task).master.sessions
    ensures CountersFor(w, StepCount(s, i, task), sid) && OutputFor(w, StepCount(s, i, task), sid)
  {
    CountCounters(w, s, i, task, sid);
    ThreadLosesLines(s.threads, i, Finished, sid);
  }

  // ---------------------------------------------------- all the other steps

  /** Steps that touch neither counters nor files, nor lines on their way. */
  ghost predicate KeepsTotals(s: State, s': State) {
    && s'.master.sessions == s.master.sessions && s'.output == s.output
    && s'.aggregated == s.aggregated && s'.counted == s.counted
    && forall sid: nat :: LinesOf(s'.threads, sid) == LinesOf(s.threads, sid)
  }

  lemma SameTotals(w: World, s: State, s': State)
    requires s.output.Keys == s.master.sessions.Keys && TotalsOk(w, s) && KeepsTotals(s, s')
    ensures TotalsOk(w, s')
  {
    forall sid: nat | sid in s'.master.sessions
      ensures CountersFor(w, s', sid) && OutputFor(w, s', sid)
    {
      assert CountersFor(w, s, sid) && OutputFor(w, s, sid);
    }
  }

  lemma ThreadKeepsLines(threads: seq<Pc>, i: nat, pc: Pc)
    requires i < |threads| && !threads[i].Writing? && !pc.Writing?
    ensures forall sid: nat :: LinesOf(threads[i := pc], sid) == LinesOf(threads, sid)
  {
    forall sid: nat
      ensures LinesOf(threads[i := pc], sid) == LinesOf(threads, sid)
    {
      LinesMove(threads, i, pc, sid);
      Cancel(LinesOf(threads[i := pc], sid), LinesOf(threads, sid), multiset{});
    }
  }

  lemma StartKeepsLines(threads: seq<Pc>, pc: Pc)
    requires !pc.Writing?
    ensures forall sid: nat :: LinesOf(threads + [pc], sid) == LinesOf(threads, sid)
  {
    forall sid: nat
      ensures LinesOf(threads + [pc], sid) == LinesOf(threads, sid)
    {
      LinesStart(threads, pc, sid);
    }
  }

  /** Scheduling steps of a handler. */
  lemma SchedulingKeepsTotals(w: World, s: State, i: nat)
    requires i < |s.threads|
    requires s.threads[i].Assigning? || s.threads[i].Waking? || s.threads[i].Greeting? || s.threads[i].Redispatching?
    ensures KeepsTotals(s, StepThread(w, s, i))
  {
    var pc := s.threads[i];
    var s' := StepThread(w, s, i);
    if pc.Assigning? {
      assert s' == StepAssign(s, i);
    } else if pc.Waking? {
      assert s' == StepWake(s, i, pc.client, pc.left);
    } else if pc.Greeting? {
      assert s' == StepGreet(s, i, pc.client, pc.left);
    } else {
      assert s' == StepRedispatch(s, i, pc.client, pc.task, pc.body);
    }
    ThreadKeepsLines(s.threads, i, s'.threads[i]);
    assert s'.threads == s.threads[i := s'.threads[i]];
  }

  /** Publication starts a session from zero and touches no other. */
  lemma PublishKeys(w: World, s: State, i: nat, searchId: nat)
    requires i < |s.threads| && searchId < |s.requests|
    ensures StepPublish(w, s, i, searchId).output.Keys == s.output.Keys + {searchId}
    ensures StepPublish(w, s, i, searchId).master.sessions.Keys == s.master.sessions.Keys + {searchId}
  {
  }

  lemma PublishTotals(w: World, s: State, i: nat, searchId: nat)
    requires i < |s.threads| && s.threads[i] == Publishing(searchId) && searchId < |s.requests|
    requires s.output.Keys == s.master.sessions.Keys && searchId !in s.master.sessions && Known(s) && TotalsOk(w, s)
    ensures StepPublish(w, s, i, searchId).output.Keys == StepPublish(w, s, i, searchId).master.sessions.Keys
    ensures TotalsOk(w, StepPublish(w, s, i, searchId))
  {
    var s' := StepPublish(w, s, i, searchId);
    PublishKeys(w, s, i, searchId);
    forall sid: nat | sid in s'.master.sessions
      ensures CountersFor(w, s', sid) && OutputFor(w, s', sid)
    {
      PublishTotalsFor(w, s, i, searchId, sid);
    }
  }

  lemma PublishTotalsFor(w: World, s: State, i: nat, searchId: nat, sid: nat)
    requires i < |s.threads| && s.threads[i] == Publishing(searchId) && searchId < |s.requests|
    requires s.output.Keys == s.master.sessions.Keys && searchId !in s.master.sessions && Known(s) && TotalsOk(w, s)
    requires sid == searchId || sid in s.master.sessions
    ensures
      var s' := StepPublish(w, s, i, searchId);
      sid in s'.master.sessions && sid in s'.output && CountersFor(w, s', sid) && OutputFor(w, s', sid)
  {
    if sid == searchId {
      PublishNewTotals(w, s, i, sid);
    } else {
      assert CountersFor(w, s, sid) && OutputFor(w, s, sid);
      PublishOldTotals(w, s, i, searchId, sid);
    }
  }

  lemma PublishOldTotals(w: World, s: State, i: nat, searchId: nat, sid: nat)
    requires i < |s.threads| && s.threads[i] == Publishing(searchId) && searchId < |s.requests| && sid != searchId
    requires sid in s.master.sessions && sid in s.output && CountersFor(w, s, sid) && OutputFor(w, s, sid)
    ensures
      var s' := StepPublish(w, s, i, searchId);
      sid in s'.master.sessions && sid in s'.output && CountersFor(w, s', sid) && OutputFor(w, s', sid)
  {
    ThreadKeepsLines(s.threads, i, Assigning);
    var s' := StepPublish(w, s, i, searchId);
    assert s'.master.sessions[sid] == s.master.sessions[sid] && s'.output[sid] == s.output[sid];
  }

  lemma PublishNewTotals(w: World, s: State, i: nat, sid: nat)
    requires i < |s.threads| && s.threads[i] == Publishing(sid) && sid < |s.requests|
    requires sid !in s.master.sessions && Known(s)
    ensures
      var s' := StepPublish(w, s, i, sid);
      sid in s'.master.sessions && sid in s'.output && CountersFor(w, s', sid) && OutputFor(w, s', sid)
  {
    ThreadKeepsLines(s.threads, i, Assigning);
    FreshSession(w, s, sid);
  }

  lemma FreshSession(w: World, s: State, sid: nat)
    requires Known(s) && sid !in s.master.sessions
    ensures Added(w, s.aggregated, sid) == [] && TasksOf(s.counted, sid) == multiset{} && LinesOf(s.threads, sid) == multiset{}
  {
    NothingBeforePublish(s, sid);
    NoneOf(s.aggregated, sid);
    forall k | 0 <= k < |s.threads|
      ensures LinesBag(s.threads[k], sid) == multiset{}
    {
      assert TaskHeld(s.threads[k]).Some? ==> TaskHeld(s.threads[k]).value.searchId in s.master.sessions;
    }
    NoLines(s.threads, sid);
  }

  lemma {:induction false} NoneOf(tasks: seq<Task>, sid: nat)
    requires forall i :: 0 <= i < |tasks| ==> tasks[i].searchId != sid
    ensures Of(tasks, sid) == []
    decreases |tasks|
  {
    if tasks != [] {
      NoneOf(tasks[..|tasks| - 1], sid);
    }
  }
}
