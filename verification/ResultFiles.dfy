/** What is in a result file, and in what order: whole answers of chunks, one after
    the other, each cut at its end only; and nothing written is ever taken back. */
module ResultFiles {
  import opened Base
  import opened Codec
  import opened LineSearch
  import opened Chunking
  import opened Scheduler
  import opened Cluster
  import opened Bags
  import opened Accounting
  import opened Tables
  import opened Conservation
  import opened Totals
  import opened EndToEnd
  import opened Results

  /** The lines that one chunk contributed. */
  datatype Part = Part(chunk: Task, lines: seq<Bytes>)

  function Joined(parts: seq<Part>): seq<Bytes> {
    if parts == [] then [] else Joined(parts[..|parts| - 1]) + parts[|parts| - 1].lines
  }

  function Chunks(parts: seq<Part>): (r: seq<Task>)
    ensures |r| == |parts|
    ensures forall i :: 0 <= i < |r| ==> r[i] == parts[i].chunk
  {
    seq(|parts|, i requires 0 <= i < |parts| => parts[i].chunk)
  }

  function FileOfSearch(s: State, sid: nat): seq<Bytes> {
    if sid in s.output then s.output[sid] else []
  }

  /** The first lines of a chunk's answer. */
  ghost predicate BeginsAnswer(w: World, lines: seq<Bytes>, chunk: Task) {
    lines <= TaskMatches(w, chunk)
  }

  function WritingBag(pc: Pc, sid: nat): multiset<Task> {
    if pc.Writing? then TaskBag(pc.task, sid) else multiset{}
  }

  function WritingBags(sid: nat): Pc -> multiset<Task> {
    (pc: Pc) => WritingBag(pc, sid)
  }

  /** Handlers about to write hold the first lines of their chunk's answer. */
  ghost predicate WritingOk(w: World, threads: seq<Pc>) {
    forall i :: 0 <= i < |threads| && threads[i].Writing? ==> BeginsAnswer(w, threads[i].lines, threads[i].task)
  }

  /** The file consists of `parts`, from chunks that were added, each once, and that
      no handler is still about to write. */
  ghost predicate MadeOf(w: World, s: State, sid: nat, parts: seq<Part>) {
    && FileOfSearch(s, sid) == Joined(parts)
    && (forall i :: 0 <= i < |parts| ==> BeginsAnswer(w, parts[i].lines, parts[i].chunk))
    && multiset(Chunks(parts)) + Sum(s.threads, WritingBags(sid)) <= TasksOf(s.aggregated, sid)
  }

  // ---------------------------------------------------------------- steps

  /** A step of a handler that neither comes from nor goes to a write. */
  lemma OtherStep(w: World, s: State, s': State, i: nat, sid: nat, parts: seq<Part>)
    requires i < |s.threads| == |s'.threads| && s'.threads == s.threads[i := s'.threads[i]]
    requires !s.threads[i].Writing? && !s'.threads[i].Writing?
    requires FileOfSearch(s', sid) == FileOfSearch(s, sid)
    requires s'.aggregated == s.aggregated || (s.threads[i].Aggregating? && s'.aggregated == s.aggregated + [Chunk(s.threads[i].task)])
    requires MadeOf(w, s, sid, parts)
    ensures MadeOf(w, s', sid, parts)
  {
    SumUpdate(s.threads, i, s'.threads[i], WritingBags(sid));
    Cancel(Sum(s'.threads, WritingBags(sid)), Sum(s.threads, WritingBags(sid)), multiset{});
    if s'.aggregated != s.aggregated {
      TasksAppend(s.aggregated, Chunk(s.threads[i].task), sid);
    }
  }

  lemma OtherKeepsWriting(w: World, s: State, s': State, i: nat)
    requires i < |s.threads| == |s'.threads| && s'.threads == s.threads[i := s'.threads[i]] && !s'.threads[i].Writing?
    requires WritingOk(w, s.threads)
    ensures WritingOk(w, s'.threads)
  {
  }

  /** A handler has added its chunk and is about to write. */
  lemma AddingStep(w: World, s: State, s': State, i: nat, sid: nat, parts: seq<Part>)
    requires i < |s.threads| == |s'.threads| && s.threads[i].Aggregating? && s'.threads == s.threads[i := s'.threads[i]]
    requires s'.threads[i].Writing? && s'.threads[i].task == s.threads[i].task
    requires s'.aggregated == s.aggregated + [Chunk(s.threads[i].task)] && s'.output == s.output
    requires MadeOf(w, s, sid, parts)
    ensures MadeOf(w, s', sid, parts)
  {
    var task := s.threads[i].task;
    SumUpdate(s.threads, i, s'.threads[i], WritingBags(sid));
    TasksAppend(s.aggregated, Chunk(task), sid);
    assert TaskBag(Chunk(task), sid) == TaskBag(task, sid);
    Cancel(Sum(s'.threads, WritingBags(sid)), Sum(s.threads, WritingBags(sid)) + TaskBag(task, sid), multiset{});
    Grown(multiset(Chunks(parts)), Sum(s.threads, WritingBags(sid)), TasksOf(s.aggregated, sid), TaskBag(task, sid));
  }

  lemma Grown<T>(a: multiset<T>, b: multiset<T>, c: multiset<T>, x: multiset<T>)
    requires a + b <= c
    ensures a + (b + x) <= c + x
  {
  }

  /** The lines of an honest result that the session wants. */
  lemma WantedBegins(w: World, task: Task, n: nat)
    ensures BeginsAnswer(w, Take(ResultOf(w, task).lines, n), task)
  {
    ResultAgainstMatches(w, task);
  }

  /** What the addition of a result leaves behind. */
  ghost predicate AddsOne(w: World, s: State, s': State, i: nat)
    requires i < |s.threads| && s.threads[i].Aggregating?
  {
    && |s'.threads| == |s.threads| && s'.threads == s.threads[i := s'.threads[i]] && s'.output == s.output
    && s'.aggregated == s.aggregated + [Chunk(s.threads[i].task)]
    && (s'.threads[i].Writing? ==>
      s'.threads[i].task == s.threads[i].task && BeginsAnswer(w, s'.threads[i].lines, s.threads[i].task))
  }

  lemma AggregateAddsOne(w: World, s: State, i: nat, task: Task, body: Bytes)
    requires i < |s.threads| && s.threads[i] == Aggregating(task, body) && task.searchId in s.master.sessions
    requires DecodeBatch(body) == Batch(ResultOf(w, task).(taskId := 0))
    ensures AddsOne(w, s, StepAggregate(s, i, task, body), i)
  {
    var wanted := Aggregate(s.master, task.searchId, ResultOf(w, task).(taskId := 0)).1;
    WantedBegins(w, task, wanted.value);
    assert ResultOf(w, task).(taskId := 0).lines == ResultOf(w, task).lines;
  }

  lemma ReadyAt(w: World, s: State, i: nat)
    requires WorldFits(w) && Inv(w, s) && i < |s.threads| && s.threads[i].Aggregating?
    ensures s.threads[i].task.searchId in s.master.sessions
    ensures DecodeBatch(s.threads[i].body) == Batch(ResultOf(w, s.threads[i].task).(taskId := 0))
  {
    AggregatingReady(w, s, i);
  }

  lemma AggregateWrites(w: World, s: State, i: nat)
    requires WorldFits(w) && Inv(w, s) && i < |s.threads| && s.threads[i].Aggregating?
    ensures AddsOne(w, s, StepThread(w, s, i), i)
  {
    ReadyAt(w, s, i);
    HonestAddsOne(w, s, i);
  }

  lemma HonestAddsOne(w: World, s: State, i: nat)
    requires i < |s.threads| && s.threads[i].Aggregating? && s.threads[i].task.searchId in s.master.sessions
    requires DecodeBatch(s.threads[i].body) == Batch(ResultOf(w, s.threads[i].task).(taskId := 0))
    ensures AddsOne(w, s, StepThread(w, s, i), i)
  {
    var task, body := s.threads[i].task, s.threads[i].body;
    AggregateAddsOne(w, s, i, task, body);
    assert StepThread(w, s, i) == StepAggregate(s, i, task, body);
  }

  lemma AggregateStep(w: World, s: State, i: nat, sid: nat, parts: seq<Part>)
    requires WorldFits(w) && Inv(w, s) && i < |s.threads| && s.threads[i].Aggregating?
    requires WritingOk(w, s.threads) && MadeOf(w, s, sid, parts)
    ensures MadeOf(w, StepThread(w, s, i), sid, parts) && WritingOk(w, StepThread(w, s, i).threads)
  {
    AggregateWrites(w, s, i);
    AddsOneKeeps(w, s, StepThread(w, s, i), i, sid, parts);
  }

  lemma AddsOneKeeps(w: World, s: State, s': State, i: nat, sid: nat, parts: seq<Part>)
    requires i < |s.threads| && s.threads[i].Aggregating? && AddsOne(w, s, s', i)
    requires WritingOk(w, s.threads) && MadeOf(w, s, sid, parts)
    ensures MadeOf(w, s', sid, parts) && WritingOk(w, s'.threads)
  {
    if s'.threads[i].Writing? {
      AddingStep(w, s, s', i, sid, parts);
    } else {
      OtherStep(w, s, s', i, sid, parts);
    }
  }

  /** A handler writes: one part more, or another search's. */
  lemma WriteAdds(w: World, s: State, i: nat, sid: nat, parts: seq<Part>) returns (more: seq<Part>)
    requires i < |s.threads| && s.threads[i].Writing? && WritingOk(w, s.threads) && MadeOf(w, s, sid, parts)
    ensures MadeOf(w, StepThread(w, s, i), sid, more) && parts <= more
  {
    var task, lines := s.threads[i].task, s.threads[i].lines;
    var s' := StepWrite(s, i, task, lines);
    assert StepThread(w, s, i) == s';
    SumUpdate(s.threads, i, Counting(task), WritingBags(sid));
    Cancel(Sum(s'.threads, WritingBags(sid)) + WritingBag(s.threads[i], sid), Sum(s.threads, WritingBags(sid)), multiset{});
    if task.searchId == sid {
      more := parts + [Part(Chunk(task), lines)];
      PartWritten(w, s, s', sid, parts, task, lines);
    } else {
      more := parts;
    }
  }

  lemma PartWritten(w: World, s: State, s': State, sid: nat, parts: seq<Part>, task: Task, lines: seq<Bytes>)
    requires MadeOf(w, s, sid, parts) && BeginsAnswer(w, lines, task) && task.searchId == sid
    requires FileOfSearch(s', sid) == FileOfSearch(s, sid) + lines && s'.aggregated == s.aggregated
    requires Sum(s'.threads, WritingBags(sid)) + TaskBag(task, sid) == Sum(s.threads, WritingBags(sid))
    ensures MadeOf(w, s', sid, parts + [Part(Chunk(task), lines)])
  {
    PartsAppend(parts, Part(Chunk(task), lines));
    assert TaskMatches(w, Chunk(task)) == TaskMatches(w, task);
    Shifted(multiset(Chunks(parts)), Sum(s'.threads, WritingBags(sid)), TaskBag(task, sid));
  }

  lemma Shifted<T>(a: multiset<T>, b: multiset<T>, x: multiset<T>)
    ensures a + x + b == a + (b + x)
  {
  }

  lemma PartsAppend(parts: seq<Part>, part: Part)
    ensures Joined(parts + [part]) == Joined(parts) + part.lines
    ensures multiset(Chunks(parts + [part])) == multiset(Chunks(parts)) + multiset{part.chunk}
  {
    assert (parts + [part])[..|parts|] == parts;
    assert Chunks(parts + [part]) == Chunks(parts) + [part.chunk];
  }

  lemma PublishWrites(w: World, s: State, i: nat, sid: nat, parts: seq<Part>)
    requires SearchesOk(w, s) && i < |s.threads| && s.threads[i].Publishing?
    requires WritingOk(w, s.threads) && MadeOf(w, s, sid, parts)
    ensures MadeOf(w, StepThread(w, s, i), sid, parts) && WritingOk(w, StepThread(w, s, i).threads)
  {
    var searchId := s.threads[i].searchId;
    var s' := StepPublish(w, s, i, searchId);
    assert StepThread(w, s, i) == s' && s'.threads[i] == Assigning;
    assert searchId !in s.output.Keys;
    OtherStep(w, s, s', i, sid, parts);
    OtherKeepsWriting(w, s, s', i);
  }

  lemma SchedulingWrites(w: World, s: State, i: nat, sid: nat, parts: seq<Part>)
    requires i < |s.threads| && !s.threads[i].Publishing? && !s.threads[i].Aggregating? && !s.threads[i].Writing?
    requires WritingOk(w, s.threads) && MadeOf(w, s, sid, parts)
    ensures MadeOf(w, StepThread(w, s, i), sid, parts) && WritingOk(w, StepThread(w, s, i).threads)
  {
    var s' := StepThread(w, s, i);
    StepMovesOneThread(w, s, i);
    OnlyThese(w, s, i);
    OtherStep(w, s, s', i, sid, parts);
    OtherKeepsWriting(w, s, s', i);
  }

  /** Only aggregation adds chunks and leads to a write, and only writing and
      publishing touch a file. */
  lemma OnlyThese(w: World, s: State, i: nat)
    requires i < |s.threads| && !s.threads[i].Publishing? && !s.threads[i].Aggregating? && !s.threads[i].Writing?
    ensures
      var s' := StepThread(w, s, i);
      |s'.threads| == |s.threads| && !s'.threads[i].Writing? && s'.output == s.output && s'.aggregated == s.aggregated
  {
    match s.threads[i]
    case Assigning => assert StepThread(w, s, i) == StepAssign(s, i);
    case Waking(client, left) => assert StepThread(w, s, i) == StepWake(s, i, client, left);
    case Greeting(client, left) => assert StepThread(w, s, i) == StepGreet(s, i, client, left);
    case Redispatching(client, task, body) => assert StepThread(w, s, i) == StepRedispatch(s, i, client, task, body);
    case Counting(task) => assert StepThread(w, s, i) == StepCount(s, i, task);
    case Finished => assert StepThread(w, s, i) == s;
  }

  lemma StepWrites(w: World, s: State, i: nat, sid: nat, parts: seq<Part>) returns (more: seq<Part>)
    requires WorldFits(w) && Inv(w, s) && i < |s.threads| && WritingOk(w, s.threads) && MadeOf(w, s, sid, parts)
    ensures MadeOf(w, StepThread(w, s, i), sid, more) && WritingOk(w, StepThread(w, s, i).threads) && parts <= more
  {
    more := parts;
    if s.threads[i].Publishing? {
      PublishWrites(w, s, i, sid, parts);
    } else if s.threads[i].Aggregating? {
      AggregateStep(w, s, i, sid, parts);
    } else if s.threads[i].Writing? {
      more := WriteAdds(w, s, i, sid, parts);
      assert StepThread(w, s, i) == StepWrite(s, i, s.threads[i].task, s.threads[i].lines);
      OtherKeepsWriting(w, s, StepThread(w, s, i), i);
    } else {
      SchedulingWrites(w, s, i, sid, parts);
    }
  }

  /** Nothing but perhaps a new handler, which is not about to write. */
  lemma ArrivalWrites(w: World, s: State, e: Event, sid: nat, parts: seq<Part>)
    requires Enabled(w, s, e) && !e.Step? && WritingOk(w, s.threads) && MadeOf(w, s, sid, parts)
    ensures MadeOf(w, Apply(w, s, e), sid, parts) && WritingOk(w, Apply(w, s, e).threads)
  {
    var s' := Apply(w, s, e);
    var pc := NewHandler(w, s, e);
    if pc.Some? {
      SumAppend(s.threads, pc.value, WritingBags(sid));
    }
  }

  lemma NewHandler(w: World, s: State, e: Event) returns (pc: Option<Pc>)
    requires Enabled(w, s, e) && !e.Step?
    ensures
      var s' := Apply(w, s, e);
      && s'.output == s.output && s'.aggregated == s.aggregated
      && s'.threads == (if pc.Some? then s.threads + [pc.value] else s.threads) && (pc.Some? ==> !pc.value.Writing?)
  {
    var s' := Apply(w, s, e);
    pc := if |s'.threads| > |s.threads| then Some(s'.threads[|s.threads|]) else None;
  }

  // ------------------------------------------------------------- every run

  lemma {:induction false} PartsAlong(w: World, trace: seq<State>, k: nat, sid: nat) returns (parts: seq<Part>)
    requires WorldFits(w) && IsRun(w, trace) && trace[0] == START && k < |trace|
    ensures MadeOf(w, trace[k], sid, parts) && WritingOk(w, trace[k].threads)
    decreases k
  {
    parts := [];
    if k > 0 {
      parts := PartsAlong(w, trace, k - 1, sid);
      parts := PartsNext(w, trace, k - 1, sid, parts);
    }
  }

  lemma PartsNext(w: World, trace: seq<State>, k: nat, sid: nat, parts: seq<Part>) returns (more: seq<Part>)
    requires WorldFits(w) && IsRun(w, trace) && trace[0] == START && k + 1 < |trace|
    requires MadeOf(w, trace[k], sid, parts) && WritingOk(w, trace[k].threads)
    ensures MadeOf(w, trace[k + 1], sid, more) && WritingOk(w, trace[k + 1].threads) && parts <= more
  {
    InvAlways(w, trace, k);
    assert StepAt(w, trace, k);
    var e :| Enabled(w, trace[k], e) && trace[k + 1] == Apply(w, trace[k], e);
    if e.Step? {
      more := StepWrites(w, trace[k], e.thread, sid, parts);
    } else {
      more := parts;
      ArrivalWrites(w, trace[k], e, sid, parts);
    }
  }

  /** In every state of every run a result file is made of the first lines of the
      answers of chunks of the request, chunk after chunk, none used twice. */
  lemma FileIsChunkwise(w: World, trace: seq<State>, k: nat, sid: nat) returns (parts: seq<Part>)
    requires WorldFits(w) && IsRun(w, trace) && trace[0] == START && k < |trace|
    requires sid in trace[k].master.sessions
    ensures sid < |trace[k].requests| && sid in trace[k].output && trace[k].output[sid] == Joined(parts)
    ensures forall i :: 0 <= i < |parts| ==> BeginsAnswer(w, parts[i].lines, parts[i].chunk)
    ensures multiset(Chunks(parts)) <= multiset(PlanTasks(w, trace[k].requests[sid], sid))
  {
    parts := PartsAlong(w, trace, k, sid);
    AddedOnce(w, trace, k, sid);
    InvAlways(w, trace, k);
    assert sid in trace[k].output.Keys;
  }

  lemma {:induction false} JoinedPrefix(a: seq<Part>, b: seq<Part>)
    requires a <= b
    ensures Joined(a) <= Joined(b)
    decreases |b|
  {
    if |a| < |b| {
      JoinedPrefix(a, b[..|b| - 1]);
    } else {
      assert a == b;
    }
  }

  lemma {:induction false} PartsBetween(w: World, trace: seq<State>, j: nat, k: nat, sid: nat) returns (a: seq<Part>, b: seq<Part>)
    requires WorldFits(w) && IsRun(w, trace) && trace[0] == START && j <= k < |trace|
    ensures FileOfSearch(trace[j], sid) == Joined(a)
    ensures MadeOf(w, trace[k], sid, b) && WritingOk(w, trace[k].threads) && a <= b
    decreases k
  {
    if j == k {
      a := PartsAlong(w, trace, k, sid);
      b := a;
    } else {
      var mid;
      a, mid := PartsBetween(w, trace, j, k - 1, sid);
      b := PartsNext(w, trace, k - 1, sid, mid);
      PrefixOn(a, mid, b);
    }
  }

  lemma PrefixOn<T>(a: seq<T>, b: seq<T>, c: seq<T>)
    requires a <= b && b <= c
    ensures a <= c
  {
  }

  /** Result files are only ever appended to. */
  lemma FilesOnlyGrow(w: World, trace: seq<State>, j: nat, k: nat, sid: nat)
    requires WorldFits(w) && IsRun(w, trace) && trace[0] == START && j <= k < |trace|
    ensures FileOfSearch(trace[j], sid) <= FileOfSearch(trace[k], sid)
  {
    var a, b := PartsBetween(w, trace, j, k, sid);
    JoinedPrefix(a, b);
  }
}
