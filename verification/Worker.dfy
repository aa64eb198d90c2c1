/** The Worker's side of one task: what a pool thread runs for a `Server_SearchTask`
    message (WorkerClient.cpp: OnMessage, SendTaskDone). */
module Worker {
  import opened Base
  import opened Codec
  import opened LineSearch
  import opened Chunking
  import opened Conservation
  import opened Width

  /** A chunk has too few lines for the 32-bit counter to wrap. */
  lemma CounterFits(d: Bytes, task: Task)
    requires TaskFits(task)
    ensures |LinesIn(d, task.start, task.end)| < U32
  {
    if task.end < task.start {
      NoStarts(d, task.start, task.end);
    }
  }

  /** Files have sizes that a stream position can hold. */
  ghost predicate FilesFit(w: World) {
    forall name :: name in w.files ==> |w.files[name]| < U64 - 1
  }

  /** A task that a Worker can run: at most a chunk, of a file it has or not. */
  ghost predicate Runnable(w: World, task: Task) {
    && TaskFits(task) && task.end < U64
    && (task.filename in w.files ==> task.start <= |w.files[task.filename]| < U64 - 1)
  }

  /** The reply to a task holds exactly the result the task asks for. */
  method RunTask(w: World, task: Task) returns (msg: Message)
    requires Runnable(w, task)
    ensures fresh(msg) && msg.id == TASK_DONE == 2
    ensures msg.body == EncodeBatch(ResultOf(w, task)) && msg.size == |msg.body| % U32
  {
    var batch := SearchTask(FileOf(w, task.filename), w.compile(task.keyword), task);
    if task.filename in w.files {
      CounterFits(w.files[task.filename], task);
    }
    batch := batch.(searchId := task.searchId, taskId := task.taskId);
    msg := SerializeBatch(batch);
    msg.id := TASK_DONE;
  }
}
