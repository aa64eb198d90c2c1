/** Where the chunks of a search are: pending, in flight, claimed, finishing. */
module Accounting {
  import opened Base
  import opened Codec
  import opened LineSearch
  import opened Scheduler
  import opened Cluster
  import opened Bags

  // ------------------------------------------------- where the chunks are

  /** The chunk of a task, if the task belongs to search `sid`. */
  function TaskBag(task: Task, sid: nat): multiset<Task> {
    if task.searchId == sid then multiset{Chunk(task)} else multiset{}
  }

  function SentBag(entry: Sent, sid: nat): multiset<Task> {
    if entry.live then TaskBag(entry.task, sid) else multiset{}
  }

  /** A chunk claimed by a `TaskDone` handler, its result not yet added. */
  function ClaimedBag(pc: Pc, sid: nat): multiset<Task> {
    match pc
    case Redispatching(_, task, _) => TaskBag(task, sid)
    case Aggregating(task, _) => TaskBag(task, sid)
    case _ => multiset{}
  }

  /** A chunk whose result was added but that is not yet counted as done. */
  function FinishingBag(pc: Pc, sid: nat): multiset<Task> {
    match pc
    case Writing(task, _) => TaskBag(task, sid)
    case Counting(task) => TaskBag(task, sid)
    case _ => multiset{}
  }

  /** Lines on their way to the result file. */
  function LinesBag(pc: Pc, sid: nat): multiset<Bytes> {
    match pc
    case Writing(task, lines) => if task.searchId == sid then multiset(lines) else multiset{}
    case _ => multiset{}
  }

  /** The same as functions of an element. */
  function TaskBags(sid: nat): Task -> multiset<Task> {
    (task: Task) => TaskBag(task, sid)
  }

  function SentBags(sid: nat): Sent -> multiset<Task> {
    (entry: Sent) => SentBag(entry, sid)
  }

  function ClaimedBags(sid: nat): Pc -> multiset<Task> {
    (pc: Pc) => ClaimedBag(pc, sid)
  }

  function FinishingBags(sid: nat): Pc -> multiset<Task> {
    (pc: Pc) => FinishingBag(pc, sid)
  }

  function LinesBags(sid: nat): Pc -> multiset<Bytes> {
    (pc: Pc) => LinesBag(pc, sid)
  }

  function TasksOf(tasks: seq<Task>, sid: nat): multiset<Task> {
    Sum(tasks, TaskBags(sid))
  }

  function LiveOf(sent: seq<Sent>, sid: nat): multiset<Task> {
    Sum(sent, SentBags(sid))
  }

  function ClaimedOf(threads: seq<Pc>, sid: nat): multiset<Task> {
    Sum(threads, ClaimedBags(sid))
  }

  function FinishingOf(threads: seq<Pc>, sid: nat): multiset<Task> {
    Sum(threads, FinishingBags(sid))
  }

  function LinesOf(threads: seq<Pc>, sid: nat): multiset<Bytes> {
    Sum(threads, LinesBags(sid))
  }

  lemma TasksAppend(tasks: seq<Task>, task: Task, sid: nat)
    ensures TasksOf(tasks + [task], sid) == TasksOf(tasks, sid) + TaskBag(task, sid)
  {
    SumAppend(tasks, task, TaskBags(sid));
  }

  lemma TasksConcat(a: seq<Task>, b: seq<Task>, sid: nat)
    ensures TasksOf(a + b, sid) == TasksOf(a, sid) + TasksOf(b, sid)
  {
    SumConcat(a, b, TaskBags(sid));
  }

  lemma TasksSingle(task: Task, sid: nat)
    ensures TasksOf([task], sid) == TaskBag(task, sid)
  {
    TasksAppend([], task, sid);
    assert [] + [task] == [task];
  }

  lemma TasksCons(tasks: seq<Task>, sid: nat)
    requires tasks != []
    ensures TasksOf(tasks, sid) == TaskBag(tasks[0], sid) + TasksOf(tasks[1..], sid)
  {
    SplitFirst(tasks);
    TasksConcat([tasks[0]], tasks[1..], sid);
    TasksSingle(tasks[0], sid);
  }

  lemma LiveAppend(sent: seq<Sent>, entry: Sent, sid: nat)
    ensures LiveOf(sent + [entry], sid) == LiveOf(sent, sid) + SentBag(entry, sid)
  {
    SumAppend(sent, entry, SentBags(sid));
  }

  lemma LiveRetire(sent: seq<Sent>, id: nat, sid: nat)
    requires 1 <= id <= |sent|
    ensures LiveOf(Retire(sent, id), sid) + SentBag(sent[id - 1], sid) == LiveOf(sent, sid)
  {
    var dead := sent[id - 1].(live := false);
    SumUpdate(sent, id - 1, dead, SentBags(sid));
    assert SentBag(dead, sid) == multiset{};
    AddNothing(LiveOf(sent, sid));
  }

  lemma AddNothing<T>(a: multiset<T>)
    ensures a + multiset{} == a
  {
  }

  lemma ThreadMoves(threads: seq<Pc>, i: nat, pc: Pc, sid: nat)
    requires i < |threads|
    ensures ClaimedOf(threads[i := pc], sid) + ClaimedBag(threads[i], sid) == ClaimedOf(threads, sid) + ClaimedBag(pc, sid)
    ensures FinishingOf(threads[i := pc], sid) + FinishingBag(threads[i], sid) == FinishingOf(threads, sid) + FinishingBag(pc, sid)
  {
    SumUpdate(threads, i, pc, ClaimedBags(sid));
    SumUpdate(threads, i, pc, FinishingBags(sid));
  }

  lemma LinesMove(threads: seq<Pc>, i: nat, pc: Pc, sid: nat)
    requires i < |threads|
    ensures LinesOf(threads[i := pc], sid) + LinesBag(threads[i], sid) == LinesOf(threads, sid) + LinesBag(pc, sid)
  {
    SumUpdate(threads, i, pc, LinesBags(sid));
  }

  lemma ThreadStarts(threads: seq<Pc>, pc: Pc, sid: nat)
    ensures ClaimedOf(threads + [pc], sid) == ClaimedOf(threads, sid) + ClaimedBag(pc, sid)
    ensures FinishingOf(threads + [pc], sid) == FinishingOf(threads, sid) + FinishingBag(pc, sid)
  {
    SumAppend(threads, pc, ClaimedBags(sid));
    SumAppend(threads, pc, FinishingBags(sid));
  }

  lemma LinesStart(threads: seq<Pc>, pc: Pc, sid: nat)
    ensures LinesOf(threads + [pc], sid) == LinesOf(threads, sid) + LinesBag(pc, sid)
  {
    SumAppend(threads, pc, LinesBags(sid));
  }

  /** A thread that keeps its chunk, or has none, keeps the totals. */
  lemma ThreadKeepsChunk(threads: seq<Pc>, i: nat, pc: Pc, sid: nat)
    requires i < |threads|
    requires ClaimedBag(pc, sid) == ClaimedBag(threads[i], sid) && FinishingBag(pc, sid) == FinishingBag(threads[i], sid)
    ensures ClaimedOf(threads[i := pc], sid) == ClaimedOf(threads, sid)
    ensures FinishingOf(threads[i := pc], sid) == FinishingOf(threads, sid)
  {
    ThreadMoves(threads, i, pc, sid);
    Cancel(ClaimedOf(threads[i := pc], sid), ClaimedOf(threads, sid), ClaimedBag(pc, sid));
    Cancel(FinishingOf(threads[i := pc], sid), FinishingOf(threads, sid), FinishingBag(pc, sid));
  }

  /** A handler that has added its result: its chunk is claimed no longer. */
  lemma ThreadSettlesChunk(threads: seq<Pc>, i: nat, pc: Pc, task: Task, sid: nat)
    requires i < |threads|
    requires ClaimedBag(threads[i], sid) == TaskBag(task, sid) && FinishingBag(threads[i], sid) == multiset{}
    requires ClaimedBag(pc, sid) == multiset{} && FinishingBag(pc, sid) == TaskBag(task, sid)
    ensures ClaimedOf(threads, sid) == ClaimedOf(threads[i := pc], sid) + TaskBag(task, sid)
    ensures FinishingOf(threads[i := pc], sid) == FinishingOf(threads, sid) + TaskBag(task, sid)
  {
    ThreadMoves(threads, i, pc, sid);
  }

  /** A handler that has counted its chunk. */
  lemma ThreadDropsChunk(threads: seq<Pc>, i: nat, task: Task, sid: nat)
    requires i < |threads| && threads[i] == Counting(task)
    ensures ClaimedOf(threads[i := Finished], sid) == ClaimedOf(threads, sid)
    ensures FinishingOf(threads, sid) == FinishingOf(threads[i := Finished], sid) + TaskBag(task, sid)
  {
    ThreadMoves(threads, i, Finished, sid);
    Cancel(ClaimedOf(threads[i := Finished], sid), ClaimedOf(threads, sid), multiset{});
  }

  lemma NoTasks(tasks: seq<Task>, sid: nat)
    requires forall i :: 0 <= i < |tasks| ==> TaskBag(tasks[i], sid) == multiset{}
    ensures TasksOf(tasks, sid) == multiset{}
  {
    SumEmpty(tasks, TaskBags(sid));
  }

  lemma NoLive(sent: seq<Sent>, sid: nat)
    requires forall i :: 0 <= i < |sent| ==> SentBag(sent[i], sid) == multiset{}
    ensures LiveOf(sent, sid) == multiset{}
  {
    SumEmpty(sent, SentBags(sid));
  }

  lemma NoClaimed(threads: seq<Pc>, sid: nat)
    requires forall i :: 0 <= i < |threads| ==> ClaimedBag(threads[i], sid) == multiset{}
    ensures ClaimedOf(threads, sid) == multiset{}
  {
    SumEmpty(threads, ClaimedBags(sid));
  }

  lemma NoFinishing(threads: seq<Pc>, sid: nat)
    requires forall i :: 0 <= i < |threads| ==> FinishingBag(threads[i], sid) == multiset{}
    ensures FinishingOf(threads, sid) == multiset{}
  {
    SumEmpty(threads, FinishingBags(sid));
  }

  lemma NoLines(threads: seq<Pc>, sid: nat)
    requires forall i :: 0 <= i < |threads| ==> LinesBag(threads[i], sid) == multiset{}
    ensures LinesOf(threads, sid) == multiset{}
  {
    SumEmpty(threads, LinesBags(sid));
  }

  lemma LiveContains(sent: seq<Sent>, i: nat, sid: nat)
    requires i < |sent|
    ensures SentBag(sent[i], sid) <= LiveOf(sent, sid)
  {
    SumContains(sent, i, SentBags(sid));
  }

  lemma ClaimedContains(threads: seq<Pc>, i: nat, sid: nat)
    requires i < |threads|
    ensures ClaimedBag(threads[i], sid) <= ClaimedOf(threads, sid)
  {
    SumContains(threads, i, ClaimedBags(sid));
  }

  lemma FinishingContains(threads: seq<Pc>, i: nat, sid: nat)
    requires i < |threads|
    ensures FinishingBag(threads[i], sid) <= FinishingOf(threads, sid)
  {
    SumContains(threads, i, FinishingBags(sid));
  }
}
