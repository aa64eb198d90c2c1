/** How the Master turns a search request into tasks, and why searching the
    tasks one by one is searching the files (MasterServer.cpp: ProcessSingleFile,
    EnqueueFileChunks, CreateChunkTask). */
module Chunking {
  import opened Base
  import opened Codec
  import opened LineSearch

  const CHUNK_SIZE: nat := 5 * 1024 * 1024
  const KEYWORD_FIELD: nat := 64
  const FILENAME_FIELD: nat := 256

  // ------------------------------------------------------------- one file

  /** The tasks for the bytes from `from` on. */
  function ChunkTasks(base: Task, size: nat, chunk: nat, from: nat): seq<Task>
    requires chunk > 0
    decreases if from < size then size - from else 0
  {
    if from >= size then []
    else [base.(start := from, end := Min(from + chunk, size))] + ChunkTasks(base, size, chunk, from + chunk)
  }

  /** `EnqueueFileChunks`, for any positive chunk size. */
  method EnqueueFileChunks(size: nat, chunk: nat, base: Task, outTasks: seq<Task>) returns (tasks: seq<Task>)
    requires chunk > 0
    ensures tasks == outTasks + ChunkTasks(base, size, chunk, 0)
  {
    tasks := outTasks;
    var task := base;
    var currentByte := 0;
    while currentByte < size
      invariant task == base.(start := task.start, end := task.end)
      invariant tasks + ChunkTasks(base, size, chunk, currentByte) == outTasks + ChunkTasks(base, size, chunk, 0)
      decreases size - currentByte
    {
      task := task.(start := currentByte, end := Min(currentByte + chunk, size));
      tasks := tasks + [task];
      currentByte := currentByte + chunk;
    }
  }

  predicate Owns(task: Task, p: nat) {
    task.start <= p < task.end
  }

  lemma {:induction false} ChunkShape(base: Task, size: nat, chunk: nat, from: nat)
    requires chunk > 0
    ensures forall t :: t in ChunkTasks(base, size, chunk, from) ==>
      && from <= t.start < t.end <= size && t.end - t.start <= chunk
      && t == base.(start := t.start, end := t.end)
    decreases if from < size then size - from else 0
  {
    if from < size {
      ChunkShape(base, size, chunk, from + chunk);
    }
  }

  /** Where the cuts are: chunk `i` begins after `i` whole chunks, and ends after one
      more or with the file. */
  lemma {:induction false} ChunkAt(base: Task, size: nat, chunk: nat, from: nat, i: nat)
    requires chunk > 0
    ensures i < |ChunkTasks(base, size, chunk, from)| <==> from + i * chunk < size
    ensures i < |ChunkTasks(base, size, chunk, from)| ==>
      ChunkTasks(base, size, chunk, from)[i] ==
        base.(start := from + i * chunk,
              end := if from + i * chunk + chunk < size then from + i * chunk + chunk else size)
    decreases i
  {
    if i == 0 {
      assert i * chunk == 0;
    } else {
      assert i * chunk == chunk + (i - 1) * chunk;
      ChunkAt(base, size, chunk, from + chunk, i - 1);
    }
  }

  /** Every byte, hence the first byte of every line, lies in exactly one chunk. */
  lemma {:induction false} ByteHasOneChunk(base: Task, size: nat, chunk: nat, from: nat, p: nat) returns (owner: nat)
    requires chunk > 0 && from <= p < size
    ensures owner < |ChunkTasks(base, size, chunk, from)|
    ensures forall i :: 0 <= i < |ChunkTasks(base, size, chunk, from)| ==>
      (Owns(ChunkTasks(base, size, chunk, from)[i], p) <==> i == owner)
    decreases size - from
  {
    var rest := ChunkTasks(base, size, chunk, from + chunk);
    ChunkShape(base, size, chunk, from + chunk);
    if p < from + chunk {
      owner := 0;
      assert forall i :: 0 <= i < |rest| ==> rest[i] in rest;
    } else {
      owner := ByteHasOneChunk(base, size, chunk, from + chunk, p);
      owner := owner + 1;
      assert ChunkTasks(base, size, chunk, from)[1..] == rest;
    }
  }

  /** The uncapped matches of a list of tasks on one file, in list order. */
  function SearchTasks(rx: Regex, d: Bytes, tasks: seq<Task>): seq<Bytes> {
    if tasks == [] then []
    else MatchesIn(rx, d, tasks[0].start, tasks[0].end) + SearchTasks(rx, d, tasks[1..])
  }

  lemma SearchTasksCons(rx: Regex, d: Bytes, task: Task, rest: seq<Task>)
    ensures SearchTasks(rx, d, [task] + rest) == MatchesIn(rx, d, task.start, task.end) + SearchTasks(rx, d, rest)
  {
    assert ([task] + rest)[1..] == rest;
  }

  lemma {:induction false} ChunksFrom(rx: Regex, d: Bytes, base: Task, chunk: nat, from: nat)
    requires chunk > 0
    ensures SearchTasks(rx, d, ChunkTasks(base, |d|, chunk, from)) == MatchesIn(rx, d, from, |d|)
    decreases if from < |d| then |d| - from else 0
  {
    if from < |d| {
      var mid := Min(from + chunk, |d|);
      ChunksFrom(rx, d, base, chunk, from + chunk);
      ChunksCons(rx, d, base, chunk, from);
      if mid == |d| {
        assert MatchesIn(rx, d, from + chunk, |d|) == [];
      } else {
        MatchesInConcat(rx, d, from, mid, |d|);
      }
    }
  }

  /** The first chunk, then the others. */
  lemma ChunksCons(rx: Regex, d: Bytes, base: Task, chunk: nat, from: nat)
    requires chunk > 0 && from < |d|
    ensures SearchTasks(rx, d, ChunkTasks(base, |d|, chunk, from)) ==
      MatchesIn(rx, d, from, Min(from + chunk, |d|)) + SearchTasks(rx, d, ChunkTasks(base, |d|, chunk, from + chunk))
  {
    SearchTasksCons(rx, d, base.(start := from, end := Min(from + chunk, |d|)), ChunkTasks(base, |d|, chunk, from + chunk));
  }

  lemma MatchesInConcat(rx: Regex, d: Bytes, a: nat, b: nat, c: nat)
    requires a <= b <= c
    ensures MatchesIn(rx, d, a, c) == MatchesIn(rx, d, a, b) + MatchesIn(rx, d, b, c)
  {
    LinesInConcat(d, a, b, c);
    GrepConcat(rx, LinesIn(d, a, b), LinesIn(d, b, c));
  }

  /** Parallel search refines the plain search: the chunk results, concatenated
      in offset order, are the matching lines of the file in order. */
  lemma ChunkedSearchIsGrep(rx: Regex, d: Bytes, base: Task, chunk: nat)
    requires chunk > 0
    ensures SearchTasks(rx, d, ChunkTasks(base, |d|, chunk, 0)) == Grep(rx, Split(d))
  {
    ChunksFrom(rx, d, base, chunk, 0);
    WholeFileLines(d);
  }

  // -------------------------------------------------------- a whole request

  /** What lies outside the program and does not change: the files, and what
      the regular-expression library makes of a keyword. */
  datatype World = World(files: map<Bytes, Bytes>, compile: Bytes -> Regex)

  /** A search request after path resolution: the regular files found. */
  datatype Plan = Plan(names: seq<Bytes>, keyword: Bytes, maxResults: nat)

  /** `strncpy` into a field of `cap` bytes whose last byte is then cleared. */
  function CString(s: Bytes, cap: nat): (r: Bytes)
    ensures |r| < cap || r == []
    decreases cap
  {
    if cap <= 1 || s == [] || s[0] == 0 then [] else [s[0]] + CString(s[1..], cap - 1)
  }

  /** The bytes before the first NUL. */
  function BeforeNul(s: Bytes): (r: Bytes)
    ensures 0 !in r && (0 !in s ==> r == s)
  {
    if s == [] || s[0] == 0 then [] else [s[0]] + BeforeNul(s[1..])
  }

  lemma {:induction false} BeforeNulIs(a: Bytes, b: Bytes)
    requires 0 !in a
    ensures BeforeNul(a + [0] + b) == a
  {
    var s := a + [0] + b;
    if a != [] {
      assert s[1..] == a[1..] + [0] + b;
      BeforeNulIs(a[1..], b);
    }
  }

  /** A field of `cap` bytes holds what comes before the first NUL, cut to one byte
      less than its size; so it keeps a string exactly when that is short and has
      no NUL. */
  lemma {:induction false} CStringExact(s: Bytes, cap: nat)
    requires cap > 0
    ensures CString(s, cap) == if |BeforeNul(s)| < cap then BeforeNul(s) else BeforeNul(s)[..cap - 1]
    ensures CString(s, cap) == s <==> |s| < cap && 0 !in s
    decreases cap
  {
    if cap > 1 && s != [] && s[0] != 0 {
      CStringExact(s[1..], cap - 1);
      assert s == [s[0]] + s[1..];
    } else if s != [] && s[0] == 0 {
      assert 0 in s;
    }
  }

  function BaseTask(plan: Plan, searchId: nat, name: Bytes): Task {
    Task(searchId, 0, plan.maxResults, 0, 0, CString(plan.keyword, KEYWORD_FIELD), CString(name, FILENAME_FIELD))
  }

  /** `ProcessSingleFile` reports a file it cannot measure or name. */
  predicate ScanFails(w: World, name: Bytes) {
    name !in w.files || (w.files[name] != [] && |name| >= FILENAME_FIELD)
  }

  function FileTasks(w: World, plan: Plan, searchId: nat, name: Bytes): seq<Task> {
    if ScanFails(w, name) then []
    else ChunkTasks(BaseTask(plan, searchId, name), |w.files[name]|, CHUNK_SIZE, 0)
  }

  function TasksFor(w: World, plan: Plan, searchId: nat, names: seq<Bytes>): seq<Task> {
    if names == [] then []
    else TasksFor(w, plan, searchId, names[..|names| - 1]) + FileTasks(w, plan, searchId, names[|names| - 1])
  }

  function ErrorsFor(w: World, names: seq<Bytes>): nat {
    if names == [] then 0
    else ErrorsFor(w, names[..|names| - 1]) + if ScanFails(w, names[|names| - 1]) then 1 else 0
  }

  /** The positions at which a request names a file that cannot be measured, or
      that is not empty and has a path of 256 bytes or more. */
  function FailedAt(w: World, names: seq<Bytes>): set<nat> {
    set i: nat | i < |names| && (names[i] !in w.files || (w.files[names[i]] != [] && |names[i]| >= 256))
  }

  /** The errors of a scan are the files that failed, each counted once. */
  lemma {:induction false} ErrorsAreFailures(w: World, names: seq<Bytes>)
    ensures ErrorsFor(w, names) == |FailedAt(w, names)|
    decreases |names|
  {
    if names != [] {
      var init, last := SplitLast(names);
      ErrorsAreFailures(w, init);
      var n := |init|;
      if ScanFails(w, last) {
        assert FailedAt(w, names) == FailedAt(w, init) + {n} && n !in FailedAt(w, init);
      } else {
        assert FailedAt(w, names) == FailedAt(w, init);
      }
    }
  }

  function PlanTasks(w: World, plan: Plan, searchId: nat): seq<Task> {
    TasksFor(w, plan, searchId, plan.names)
  }

  /** `StartSearch` gives up when nothing could be searched and something failed. */
  predicate Refused(w: World, plan: Plan) {
    PlanTasks(w, plan, 0) == [] && ErrorsFor(w, plan.names) > 0
  }

  /** A file has no task if and only if it failed or is empty. */
  lemma NoTasksOf(w: World, plan: Plan, searchId: nat, name: Bytes)
    ensures FileTasks(w, plan, searchId, name) == [] <==> ScanFails(w, name) || w.files[name] == []
  {
  }

  lemma {:induction false} NoTasksFor(w: World, plan: Plan, searchId: nat, names: seq<Bytes>)
    ensures TasksFor(w, plan, searchId, names) == [] <==>
      forall name :: name in names ==> name !in w.files || w.files[name] == [] || |name| >= 256
    decreases |names|
  {
    if names != [] {
      var init, last := SplitLast(names);
      NoTasksFor(w, plan, searchId, init);
      NoTasksOf(w, plan, searchId, last);
      assert forall name :: name in names <==> name in init || name == last;
    }
  }

  /** Nothing can be searched, and something failed. */
  ghost predicate Unsearchable(w: World, names: seq<Bytes>) {
    && FailedAt(w, names) != {}
    && forall name :: name in names ==> name !in w.files || w.files[name] == [] || |name| >= 256
  }

  lemma RefusedExactly(w: World, plan: Plan)
    ensures Refused(w, plan) <==> Unsearchable(w, plan.names)
  {
    NoTasksFor(w, plan, 0, plan.names);
    ErrorsAreFailures(w, plan.names);
  }

  /** `ProcessSingleFile`: the tasks of one file are appended, or it is reported. */
  method ProcessSingleFile(w: World, plan: Plan, searchId: nat, name: Bytes, outTasks: seq<Task>)
    returns (handled: bool, tasks: seq<Task>)
    ensures handled <==> name in w.files && (w.files[name] == [] || |name| < 256)
    ensures tasks == outTasks + FileTasks(w, plan, searchId, name)
  {
    tasks := outTasks;
    if name !in w.files {
      return false, tasks;
    }
    var size := |w.files[name]|;
    if size == 0 {
      return true, tasks;
    }
    if |name| >= FILENAME_FIELD {
      return false, tasks;
    }
    tasks := EnqueueFileChunks(size, CHUNK_SIZE, BaseTask(plan, searchId, name), tasks);
    handled := true;
  }

  /** The scan over the files found: tasks collected, failures counted. */
  method CollectTasks(w: World, plan: Plan, searchId: nat) returns (tasks: seq<Task>, scanErrors: nat)
    ensures tasks == PlanTasks(w, plan, searchId)
    ensures scanErrors == ErrorsFor(w, plan.names) == |FailedAt(w, plan.names)|
  {
    tasks, scanErrors := [], 0;
    for i := 0 to |plan.names|
      invariant tasks == TasksFor(w, plan, searchId, plan.names[..i])
      invariant scanErrors == ErrorsFor(w, plan.names[..i])
    {
      assert plan.names[..i + 1][..i] == plan.names[..i];
      var handled: bool;
      handled, tasks := ProcessSingleFile(w, plan, searchId, plan.names[i], tasks);
      if !handled {
        scanErrors := scanErrors + 1;
      }
    }
    assert plan.names[..|plan.names|] == plan.names;
    ErrorsAreFailures(w, plan.names);
  }

  // ------------------------------------------------ results of the request

  function FileOf(w: World, name: Bytes): Option<Bytes> {
    if name in w.files then Some(w.files[name]) else None
  }

  /** What a Worker answers to a task. */
  function ResultOf(w: World, task: Task): ChunkResult {
    TaskResult(FileOf(w, task.filename), w.compile(task.keyword), task)
      .(searchId := task.searchId, taskId := task.taskId)
  }

  /** All formatted matches of a task, before any cap. */
  function TaskMatches(w: World, task: Task): seq<Bytes> {
    match FileOf(w, task.filename)
    case None => []
    case Some(d) => FormatAll(task.filename, MatchesIn(w.compile(task.keyword), d, task.start, task.end))
  }

  function AllTaskMatches(w: World, tasks: seq<Task>): seq<Bytes> {
    if tasks == [] then []
    else AllTaskMatches(w, tasks[..|tasks| - 1]) + TaskMatches(w, tasks[|tasks| - 1])
  }

  /** The reference answer for one file: every line of it, read in order. */
  function GrepFile(w: World, keyword: Bytes, name: Bytes): seq<Bytes> {
    if ScanFails(w, name) then []
    else FormatAll(name, Grep(w.compile(CString(keyword, KEYWORD_FIELD)), Split(w.files[name])))
  }

  /** The reference answer for the files of a request, one after the other. */
  function GrepFiles(w: World, keyword: Bytes, names: seq<Bytes>): seq<Bytes> {
    if names == [] then []
    else GrepFiles(w, keyword, names[..|names| - 1]) + GrepFile(w, keyword, names[|names| - 1])
  }

  /** File names come from the file system and hold no NUL byte. */
  ghost predicate NamesValid(names: seq<Bytes>) {
    forall n :: n in names ==> 0 !in n
  }

  lemma AllTaskMatchesAppend(w: World, tasks: seq<Task>, task: Task)
    ensures AllTaskMatches(w, tasks + [task]) == AllTaskMatches(w, tasks) + TaskMatches(w, task)
  {
    assert (tasks + [task])[..|tasks|] == tasks;
  }

  lemma {:induction false} AllTaskMatchesConcat(w: World, a: seq<Task>, b: seq<Task>)
    ensures AllTaskMatches(w, a + b) == AllTaskMatches(w, a) + AllTaskMatches(w, b)
    decreases |b|
  {
    if b == [] {
      assert a + b == a;
    } else {
      var init, last := SplitLast(b);
      AllTaskMatchesConcat(w, a, init);
      ConcatAssoc(a, init, [last]);
      AllTaskMatchesAppend(w, a + init, last);
      ConcatAssoc(AllTaskMatches(w, a), AllTaskMatches(w, init), TaskMatches(w, last));
    }
  }

  /** Tasks that all concern one open file report that file's matches. */
  lemma {:induction false} OneFileMatches(w: World, tasks: seq<Task>, name: Bytes, keyword: Bytes)
    requires name in w.files
    requires forall t :: t in tasks ==> t.filename == name && t.keyword == keyword
    ensures AllTaskMatches(w, tasks) == FormatAll(name, SearchTasks(w.compile(keyword), w.files[name], tasks))
    decreases |tasks|
  {
    if tasks != [] {
      var rx, d := w.compile(keyword), w.files[name];
      var first, rest := tasks[0], tasks[1..];
      assert forall t :: t in rest ==> t in tasks;
      OneFileMatches(w, rest, name, keyword);
      AllTaskMatchesCons(w, tasks);
      assert TaskMatches(w, first) == FormatAll(name, MatchesIn(rx, d, first.start, first.end));
      FormatConcat(name, MatchesIn(rx, d, first.start, first.end), SearchTasks(rx, d, rest));
    }
  }

  lemma AllTaskMatchesCons(w: World, tasks: seq<Task>)
    requires tasks != []
    ensures AllTaskMatches(w, tasks) == TaskMatches(w, tasks[0]) + AllTaskMatches(w, tasks[1..])
  {
    AllTaskMatchesConcat(w, [tasks[0]], tasks[1..]);
    SplitFirst(tasks);
    OneTaskMatches(w, tasks[0]);
  }

  lemma OneTaskMatches(w: World, task: Task)
    ensures AllTaskMatches(w, [task]) == TaskMatches(w, task)
  {
    assert AllTaskMatches(w, [task][..0]) == [];
  }

  lemma FormatConcat(name: Bytes, a: seq<Bytes>, b: seq<Bytes>)
    ensures FormatAll(name, a + b) == FormatAll(name, a) + FormatAll(name, b)
  {
  }

  lemma FileTasksAreGrep(w: World, plan: Plan, searchId: nat, name: Bytes)
    requires 0 !in name
    ensures AllTaskMatches(w, FileTasks(w, plan, searchId, name)) == GrepFile(w, plan.keyword, name)
  {
    if !ScanFails(w, name) {
      var base, d := BaseTask(plan, searchId, name), w.files[name];
      if d != [] {
        CStringExact(name, FILENAME_FIELD);
        ChunkShape(base, |d|, CHUNK_SIZE, 0);
        OneFileMatches(w, ChunkTasks(base, |d|, CHUNK_SIZE, 0), name, base.keyword);
        ChunkedSearchIsGrep(w.compile(base.keyword), d, base, CHUNK_SIZE);
      }
    }
  }

  /** The tasks of a request together report the reference answer. */
  lemma {:induction false} TasksAreGrep(w: World, plan: Plan, searchId: nat, names: seq<Bytes>)
    requires NamesValid(names)
    ensures AllTaskMatches(w, TasksFor(w, plan, searchId, names)) == GrepFiles(w, plan.keyword, names)
    decreases |names|
  {
    if names != [] {
      var n := |names| - 1;
      TasksAreGrep(w, plan, searchId, names[..n]);
      FileTasksAreGrep(w, plan, searchId, names[n]);
      AllTaskMatchesConcat(w, TasksFor(w, plan, searchId, names[..n]), FileTasks(w, plan, searchId, names[n]));
    }
  }

  /** No scan error means that no file was left out of the reference answer. */
  lemma {:induction false} NoErrorsNoOmission(w: World, names: seq<Bytes>)
    ensures ErrorsFor(w, names) == 0 <==> forall n :: n in names ==> !ScanFails(w, n)
    decreases |names|
  {
    if names != [] {
      NoErrorsNoOmission(w, names[..|names| - 1]);
      assert names == names[..|names| - 1] + [names[|names| - 1]];
    }
  }

  /** Every task of a plan carries the plan's parameters, and covers bytes of a
      file that can be read. */
  lemma {:induction false} PlanTaskShape(w: World, plan: Plan, searchId: nat, names: seq<Bytes>)
    ensures forall t :: t in TasksFor(w, plan, searchId, names) ==>
      && t.searchId == searchId && t.taskId == 0 && t.maxResults == plan.maxResults
      && t.end - t.start <= CHUNK_SIZE && |t.filename| < FILENAME_FIELD
      && (NamesValid(names) ==> InFile(w, t))
    decreases |names|
  {
    if names != [] {
      var n := |names| - 1;
      PlanTaskShape(w, plan, searchId, names[..n]);
      assert names[n] in names;
      if !ScanFails(w, names[n]) && w.files[names[n]] != [] {
        ChunkShape(BaseTask(plan, searchId, names[n]), |w.files[names[n]]|, CHUNK_SIZE, 0);
        CStringExact(names[n], FILENAME_FIELD);
      }
    }
  }

  ghost predicate InFile(w: World, task: Task) {
    task.filename in w.files && task.start < task.end <= |w.files[task.filename]|
  }
}
