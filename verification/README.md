# LogGrid: a verified model

LogGrid is a small master/worker MapReduce: a Master cuts log files into byte
chunks, Workers search the chunks for a regular expression, and the Master adds
up what they answer. This project models the Master's scheduler, the chunk
search, the wire format, the connection's callbacks and the Worker's thread pool
in Dafny, and proves what they achieve together.

`dafny verify dfyconfig.toml` checks everything.

## The main results

- **A finished search is right** (`Answer.DoneMeansAnswered`,
  `Results.DoneMeansGrep`). In every run, with any
  interleaving of handlers, any disconnects, re-dispatches and late or false
  replies: when the status of a search of up to 2^31-1 chunks says Done, the match
  count is that of a plain line-by-line reading of all files, and the result file
  holds that many of the true matches, up to the limit. What the answer is, is
  written out twice: with the functions of the search (`Chunking.GrepFiles`), and
  without them, from files as lines of text, keywords of up to 63 bytes and paths of
  up to 255 (`Text`, `Answer.AnswerTo`); the two are proved equal. The bound is that of the
  `int` counters, and it is exact: every longer search has a run that increments
  the largest `int` (`Overflow.CounterOverflows`), and there is a search of 2^32
  chunks that is Done before anything is searched (`Witness.DoneBeforeSearching`).
- **First come, first served** (`Order`). Tasks are begun in the order in which
  their searches were published, and only tasks of lost workers overtake
  (`Order.PendingInOrder`, `Order.FirstComeFirstServed`); idle workers are woken in
  the order in which they were queued (`Order.QueuedFirstTakenFirst`); result files
  are appended to, answer after answer (`ResultFiles.FileIsChunkwise`).
- **Nothing is lost or done twice** (`History.ChunksBalance`,
  `History.LateReplyIgnored`). Every chunk of a published search is pending, in
  flight, claimed, finishing or counted, in one place only.
- **A search can always be finished** (`Completion.ReachesDone`,
  `Completion.OneWorkerSuffices`). For searches of up to 2^31-1 chunks, and as long
  as the tasks still to be sent keep the task ids below 2^64: from every reachable
  state with a registered worker that has a thread the run can go on to Done, and
  it still can when every other worker is lost first and none joins.
- **The system comes to rest** (`Draining.ComesToRest`, `Draining.RestMeansDone`).
  Without new requests, workers or losses every infinite interleaving of handlers
  and replies stops changing anything; where it stops, with ids below 2^64 and a
  worker that has a thread, every search of up to 2^31-1 chunks is Done.
- **Chunked search is grep** (`LineSearch.SearchTask`,
  `Chunking.ChunkedSearchIsGrep`), for every byte string and every chunk size.
- **Work conservation at lock granularity** (`Reservations.NoSlotForgotten`,
  `Reservations.WaitingMeansBusy`): no slot of a worker is ever forgotten, and
  while a task waits with no handler in progress every worker is fully used.
- **Capacity** is kept between handlers (`Server.MasterServer`): no worker gets
  more tasks than it advertised. Between critical sections it can fail
  (`Witness.CapacityCanBreak`). `Overdraft.CapacityExactly` says exactly when, and
  `Reservations.CapacityBySchedule` which schedules are safe.
- **The two views of the Master agree** (`Alone`): each handler as a whole is its
  own run at lock granularity when nothing else runs in between.
- **The wire** (`Codec.BatchRoundTrip`, `Link.OneWriteInOrder`,
  `Link.DeliversPrefix`): batches come back as they were, and connections deliver
  in order. A message without a body can be delivered with another one's body
  (`Link.StaleBody`), and one of 4 GiB makes two messages arrive where one was sent
  (`Link.Misframed`); `Link.CopiesExactly` says exactly when delivery is right.
- **The thread pool loses no task and no wakeup and drains on destruction**
  (`ThreadPool.NoLostWakeup`, `ThreadPool.GracefulDrain`).

## How it is built

| file | what it holds |
|---|---|
| `Base` | bytes, word sizes, wrapping arithmetic |
| `Codec` | message bodies and the batch format, writer and reader |
| `LineSearch` | `SearchTask` over an input stream, against the sequential reading |
| `Text` | files as lines of text, and the search in these terms |
| `Chunking` | from a request to its tasks, and from their results to grep |
| `Scheduler` | each critical section of the Master as a function of its state |
| `Cluster` | the system at lock granularity: handlers as threads with a control point, workers and connections as environment |
| `Bags`, `Accounting`, `Tables`, `Conservation`, `Totals`, `EndToEnd` | the invariant, piece by piece, and its preservation by every step |
| `Results`, `History` | what follows for a client and along a run |
| `Answer` | the answer to a request written out from the files alone, and that it is the one a client gets |
| `Order`, `ResultFiles` | the order in which tasks are sent, workers woken and lines written |
| `Replies` | what a reply does whatever its body says, and bytes on the wire |
| `Handlers` | whole handlers as functions, composed of critical sections |
| `Alone` | each of them is a run of `Cluster` |
| `Capacity`, `Server` | the Master at handler granularity, as a class |
| `Reservations`, `Overdraft` | slots, idle queue and capacity at lock granularity |
| `Progress`, `Completion` | runs that reach Done, and the task ids they need |
| `Draining` | every run without arrivals comes to rest, and what holds there |
| `Overflow` | runs that count up to the largest `int` |
| `Witness` | two runs in which the code does not do what one may expect |
| `Framing`, `Link` | one end of a connection as a class, and a connection in operation |
| `ThreadPool`, `Worker`, `Width` | the Worker's pool, its task, and the sizes of its replies |

The Master is modelled twice from the same critical-section functions. At lock
granularity (`Cluster`) any number of handlers may stand between two critical
sections; this includes every schedule of the one update thread and the HTTP
threads. At handler granularity (`Server`) the handlers are methods with loops
that run one after the other.

## Assumptions

- Regular expressions are an uninterpreted predicate on lines, for the keyword as
  stored (cut to 63 bytes); an invalid pattern matches nothing.
- Files do not change and open successfully; file names hold no NUL byte.
- A connection id says Hello at most once, and not after its disconnect. A
  disconnect may happen at any time; nothing says that one is ever noticed.
- A reply that carries a task id sent to that connection is the one the Worker's
  code produces (`Worker.RunTask`, which can run every task in flight as long as
  files are smaller than 2^64-1 bytes: `Progress.FlightRunnable`). Any other reply
  is arbitrary.
- Formatted lines are shorter than 4 GiB (`Conservation.WorldFits`), and a reply
  arrives as it was sent. A reply of 4 GiB or more does not, because `header.size`
  wraps (`Link.LongNeverArrives`); `Width.RepliesFit` shows that no reply gets that
  large, and that every 32-bit field is exact, for lines up to 2.9 GB.
- Integers are stored least significant byte first, on both ends.
- The stream between two ends is a reliable FIFO of bytes, reads and writes
  complete only in full, and callbacks of one connection do not overlap.
- Nothing is enqueued on the thread pool once its destructor runs, and the
  destructor runs once.

## Where code and comments differ

The model follows the code.

- The feature list says that files are partitioned at exact line boundaries
  (README.md:196). The Master cuts at arbitrary bytes; the Workers realign.
- `m_idleWorkers` is described as workers with zero assigned tasks
  (NetServer/src/MasterServer.hpp:316). A worker is queued as soon as one of its
  threads finds no task, whatever its other threads are doing.
- `m_pendingTasks` is described as a FIFO queue (NetServer/src/MasterServer.hpp:304).
  Tasks reclaimed from a lost worker go to its front, in reverse order of the
  iteration over an unordered map.

## Model

| member | source | states |
|---|---|---|
| Answer.DoneMeansAnswered | NetServer/src/MasterServer.cpp:229-249 | The end-to-end result against an answer written out in bytes: for every file that exists and has a path of up to 255 bytes, the lines of its text on which the first 63 bytes of the keyword match, each as name, colon, blank, text without its CR; a Done status (up to 2^31-1 chunks) counts them all modulo 2^64, and the file holds as many of them as the limit allows |
| Answer.AnswerOnText | NetClient/src/FileProcessor.hpp:59-72 | However a file is written as lines ended by CR LF or LF, its answer is the texts that match, in order |
| Answer.GrepFilesIsAnswer | NetServer/src/MasterServer.cpp:121-143 | The reference answer built from the search's functions is the answer written out in bytes, for every keyword and every sequence of files |
| Answer.ErrorsReported | NetServer/src/MasterServer.cpp:104-106 | In every state of every run a status reports as many scan errors as there are positions in the request with a file that cannot be measured, or is not empty and has a path of 256 bytes or more |
| Answer.AcceptedExactly | NetServer/src/MasterServer.cpp:67-71 | In every state of every run a request is published or about to be, unless some file failed and every other one is empty |
| Answer.PlannedChunk | NetServer/src/MasterServer.cpp:184-213 | Every field of every task: task `i` of a file of up to 255 path bytes covers 5 MiB from `i` times 5 MiB on, cut at the end of the file, with the keyword's first 63 bytes before any NUL; there are as many as begin inside the file |
| Results.DoneMeansGrep | NetServer/src/MasterServer.cpp:229-249 | End to end, over every run, for searches of up to 2^31-1 chunks: a Done status counts exactly the matching lines of all files of the request (modulo 2^64), the line counter is the smaller of that and the limit, and the result file holds that many lines, all of them true matches, and all matches when the limit allows |
| Results.DoneExactly | NetServer/src/MasterServer.cpp:241-248 | In every state of every run, for searches of up to 2^31-1 chunks: Done holds if and only if no chunk of the search is pending, in flight, claimed or finishing |
| Results.CountingIsDefined | NetServer/src/MasterServer.cpp:400-404 | Up to 2^31-1 chunks, in every run, the increment of the counter of finished chunks stays in the range of `int` |
| Overflow.CounterOverflows | NetServer/src/MasterServer.cpp:400-404 | Every request of more than 2^31-1 chunks (and fewer than 2^64) has a run in which the counter holds the largest `int` and is about to be incremented |
| Results.CastIsFaithful | NetServer/src/MasterServer.cpp:179 | A fact about the conversion to `int`: it tells every smaller count from the total if and only if the total is below 2^32 |
| Results.DoneTooEarly | NetServer/src/MasterServer.cpp:176-182 | A search just published, with all its chunks pending, is already reported Done if and only if their number is a multiple of 2^32 |
| Witness.DoneBeforeSearching | NetServer/src/MasterServer.cpp:176-182 | A run in which a search is reported Done with no matches while all of its 2^32 chunks are pending and every line of its file matches |
| Results.AddedOnce | NetServer/src/MasterServer.cpp:428-459 | In every state of every run the chunks added are a sub-multiset of the request's chunks, those counted of those added, and the matches added of the true answer: no chunk contributes twice |
| Results.FileComplete | NetServer/src/MasterServer.cpp:494-519 | With no result between its addition and its count, the result file holds exactly the counted number of lines, from the added matches, and all of them when the limit allows |
| ResultFiles.FileIsChunkwise | NetServer/src/MasterServer.cpp:453-458 | In every state of every run a result file is made of first lines of the answers of chunks of the request, chunk after chunk, no chunk used twice |
| ResultFiles.FilesOnlyGrow | NetServer/src/MasterServer.cpp:521-522 | Along any run result files are only appended to |
| Replies.OtherSearchesUntouched | NetServer/src/MasterServer.cpp:428-430 | Whatever search the body of an accepted reply names, only the search of the task that the worker held is touched |
| Replies.AlwaysCounted | NetServer/src/MasterServer.cpp:390-404 | An accepted reply is counted in the end, also when its body is malformed |
| Replies.ShortBodyCounts | NetServer/src/MasterServer.cpp:390-404 | A body too short for its fields counts its chunk and changes nothing else |
| Results.StatusCounters | NetServer/src/MasterServer.cpp:241-248 | What the two chunk counters of a status mean: chunks counted and chunks planned, as `int` |
| History.StatusMonotone | NetServer/src/MasterServer.cpp:229-249 | Over any run, two statuses of one search: totals and scan errors never change and lines never decrease; below 2^64 matches the match count never decreases; up to 2^31-1 chunks the finished chunks never decrease, never exceed the total, and Done stays Done |
| History.ChunksBalance | NetServer/src/MasterServer.cpp:283-327 | At every lock release of every run, the chunks of a search are as many as its pending tasks, in-flight entries, claimed, finishing and counted chunks together |
| History.LateReplyIgnored | NetServer/src/MasterServer.cpp:361-385 | Once a dispatched task id is in flight nowhere, a reply with that id, from anyone and at any later moment of the run, changes nothing |
| History.AcceptedOnce | NetServer/src/MasterServer.cpp:367-380 | A reply is accepted exactly when this worker holds the task, and then the id is in flight nowhere |
| History.LostIsPending | NetServer/src/MasterServer.cpp:266-277 | After a disconnect the worker's ids are in flight nowhere and its tasks are pending again |
| History.ReclaimedFirst | NetServer/src/MasterServer.cpp:269-275 | Reclaimed tasks, each once, stand before all that waited, the last visited first |
| History.WorkersAlways | NetServer/src/MasterServer.hpp:301-338 | In every state of every run: free slots plus running tasks equal the advertised threads modulo 2^64, in-flight ids are distinct and belong to registered workers, no empty table is kept, and the idle id-set is exactly the registered workers in the idle queue, each once |
| History.NoReadOutOfRange | NetServer/src/MasterServer.cpp:475-487 | In every run the unchecked reads of the batch decoder stay inside the body |
| History.GrowsAlong | NetServer/src/MasterServer.cpp:298-299 | Along any run the dispatch history, the sessions and the counted chunks only grow; a dispatched id is never reused or revived |
| EndToEnd.InvAlways | NetServer/src/MasterServer.cpp:145-459 | The whole invariant (tables, ledger, conservation, totals, bodies) in every state of every run |
| EndToEnd.InvNext | NetServer/src/MasterServer.cpp:145-459 | Every critical section and every outside event keeps the invariant |
| Conservation.StepMovesChunks | NetServer/src/MasterServer.cpp:283-327 | Every critical section of a handler in progress, except publishing, moves chunks between places without creating, losing or duplicating one |
| Conservation.DisconnectMovesChunks | NetServer/src/MasterServer.cpp:256-278 | Reclaiming moves exactly the lost worker's live chunks back to the queue, in whatever order its table is visited |
| Conservation.ReplyDecodes | NetServer/src/MasterServer.cpp:461-492 | An honest reply is decoded to the result it encodes |
| History.MirrorsAlways | NetServer/src/MasterServer.cpp:266-299 | In every state of every run the in-flight table is the live part of the dispatch history, whose ids count up from one |
| Totals.CapsCompose | NetServer/src/MasterServer.cpp:442-450 | For any completion order, capping every chunk and then the session gives the smaller of the limit and the total |
| Totals.AggregateTotals | NetServer/src/MasterServer.cpp:428-459 | Adding one honest result keeps the counters and the result file in step with the matches added, for all sessions |
| Totals.ResultAgainstMatches | NetClient/src/FileProcessor.hpp:65-71 | A Worker's result counts all matches of its chunk and carries the first ones, up to the limit |
| LineSearch.SearchTask | NetClient/src/FileProcessor.hpp:15-85 | The result is all matches among the lines whose first byte lies in the chunk, counted, with the first ones up to the limit formatted, for any chunk with fewer than 2^32 lines |
| Text.ResultOnText | NetClient/src/FileProcessor.hpp:59-72 | On a file given as lines of text the result of any chunk is the texts that match among the lines whose first byte lies in it, all counted, the first ones shown with name, colon and blank: one CR before the newline is no part of the text |
| Text.GrepOfText | NetClient/src/FileProcessor.hpp:59-72 | The reference reading of a file given as lines of text finds exactly the texts that match, in order |
| Text.EveryFileIsText | NetClient/src/FileProcessor.hpp:59 | Every sequence of bytes is such a file, with or without a newline at the end |
| LineSearch.Realign | NetClient/src/FileProcessor.hpp:25-46 | The search starts at the first line that begins in the chunk; if there is none, no line of the chunk is skipped |
| LineSearch.ScanLines | NetClient/src/FileProcessor.hpp:59-84 | From a line start, the loop accounts for every line that begins before the end of the chunk, including one that ends after it and a last one without a newline |
| LineSearch.InputStream.GetLine | NetClient/src/FileProcessor.hpp:59 | Reads up to and over the next newline, or to the end of the data, where it sets the end bit |
| LineSearch.InputStream.Tell | NetClient/src/FileProcessor.hpp:74-81 | The position, or the largest 64-bit value once a state bit is set |
| LineSearch.SplitIsFaithful | NetClient/src/FileProcessor.hpp:59 | The reference reading loses nothing: its lines, each with a newline, are the file with a newline at the end |
| LineSearch.SplitHasNoNewline | NetClient/src/FileProcessor.hpp:59 | No line of the reference reading contains a newline |
| LineSearch.WholeFileLines | NetClient/src/FileProcessor.hpp:25-59 | The lines that begin anywhere in a file are the lines of the reference reading, in order |
| Chunking.ChunkedSearchIsGrep | NetServer/src/MasterServer.cpp:184-193 | For every file and every positive chunk size, the uncapped chunk results in offset order are the matching lines of the file in order |
| Chunking.ByteHasOneChunk | NetServer/src/MasterServer.cpp:184-193 | Every byte, hence the first byte of every line, lies in exactly one chunk |
| Chunking.ChunkAt | NetServer/src/MasterServer.cpp:184-193 | Chunk `i` begins after `i` whole chunks and ends after one more or with the file, and exists if and only if it begins inside the file |
| Chunking.EnqueueFileChunks | NetServer/src/MasterServer.cpp:184-193 | The loop appends exactly the chunk tasks of the file |
| Chunking.ProcessSingleFile | NetServer/src/MasterServer.cpp:121-143 | Appends the file's tasks; succeeds if and only if the file can be measured and is empty or has a path below 256 bytes |
| Chunking.CollectTasks | NetServer/src/MasterServer.cpp:89-112 | All tasks of all files in order, and the number of positions whose file failed |
| Chunking.ErrorsAreFailures | NetServer/src/MasterServer.cpp:104-107 | The errors of a scan are the positions of the request whose file fails, each counted once |
| Chunking.CStringExact | NetServer/src/MasterServer.cpp:206-210 | A fixed-size field holds what comes before the first NUL, cut to one byte less than the field; it keeps a string if and only if that is short enough and has no NUL |
| Chunking.TasksAreGrep | NetServer/src/MasterServer.cpp:56-65 | The uncapped results of all tasks of a request are the reference answer for its files |
| Chunking.NoErrorsNoOmission | NetServer/src/MasterServer.cpp:104-107 | No scan error if and only if no file of the request was left out |
| Server.MasterServer.constructor | NetServer/src/MasterServer.hpp:301-334 | The initial state satisfies the handler invariant |
| Server.MasterServer.DispatchNextTask | NetServer/src/MasterServer.cpp:283-327 | The new tables and the message sent, for every branch |
| Order.IdleIsQueue | NetServer/src/MasterServer.cpp:312-322 | Between any two moments of any run the idle queue lost what was taken at its front and got what was added at its end, in these orders |
| Order.QueuedFirstTakenFirst | NetServer/src/MasterServer.cpp:153-157 | Of two entries of the idle queue the one queued first is taken first |
| Order.TakenIsWoken | NetServer/src/MasterServer.cpp:153-172 | A client leaves the idle queue only while a task waits, to a handler that goes on to fill its free slots if it is still registered |
| Order.JoinedIsIdle | NetServer/src/MasterServer.cpp:286-318 | Who joins the idle queue is a registered worker that found no task waiting |
| Order.PendingInOrder | NetServer/src/MasterServer.cpp:176-182 | In every state of every run the tasks not yet begun stand at the end of the queue in the order in which their searches were published; only tasks reclaimed from lost workers stand before them |
| Order.BegunInOrder | NetServer/src/MasterServer.cpp:290-296 | A task sent for the first time is the next one in the order of publication, and no reclaimed task waits then |
| Order.FirstComeFirstServed | NetServer/src/MasterServer.cpp:176-182 | In every run without a lost worker the chunks sent, in order of task id, followed by those that wait, are all chunks of all published searches in the order of publication |
| Server.MasterServer.AssignIdleWorkers | NetServer/src/MasterServer.cpp:145-174 | Terminates from every state, with the new tables and all messages sent; where every free slot was in the idle queue, afterwards no registered worker has a free slot while any task waits, and no counter has wrapped |
| Server.AssignAllSteady | NetServer/src/MasterServer.cpp:145-174 | Waking the idle workers leaves no registered worker with a free slot while any task waits |
| Handlers.AssignHolds | NetServer/src/MasterServer.cpp:291-311 | The messages sent are the tasks put in flight, each at the worker it goes to, as many as the ids handed out and in their order |
| Server.MasterServer.DispatchUpTo | NetServer/src/MasterServer.cpp:349-354 | The new tables and all messages sent; a worker handed as many tasks as it has free slots ends up full or in the idle queue, and its counter does not wrap |
| Server.GiveUpToSteady | NetServer/src/MasterServer.cpp:169-172 | Handing a worker exactly as many tasks as it has free slots keeps capacity, and leaves it full, or queued with nothing waiting |
| Server.MasterServer.OnHello | NetServer/src/MasterServer.cpp:334-357 | Registers the worker and fills it, keeping capacity and work conservation |
| Server.MasterServer.OnTaskDone | NetServer/src/MasterServer.cpp:358-416 | A reply is accepted if and only if this worker holds the task; then the slot is refilled, the result added and the chunk counted; otherwise nothing changes; capacity and work conservation are kept |
| Server.MasterServer.AggregateTaskResult | NetServer/src/MasterServer.cpp:428-459 | The session grows by the batch, capped, and exactly the wanted lines go to its file; a malformed batch or unknown session changes nothing |
| Server.MasterServer.OnClientDisconnect | NetServer/src/MasterServer.cpp:256-281 | The worker is forgotten, its tasks return to the front, idle workers are woken; capacity and work conservation are kept |
| Server.MasterServer.StartSearch | NetServer/src/MasterServer.cpp:50-77 | Refused exactly when some file failed and every other one is empty, with only an id used up; otherwise the session and its tasks are published and idle workers woken |
| Server.MasterServer.GetStatus | NetServer/src/MasterServer.cpp:229-249 | Reads the session and changes nothing |
| Server.ClaimThenDispatch | NetServer/src/MasterServer.cpp:367-388 | Freeing a slot and refilling it at once keeps capacity and work conservation |
| Server.MasterServer.WithinCapacity | NetServer/src/MasterServer.cpp:299-301 | Between handlers no worker holds more tasks than it advertised |
| Server.MasterServer.WaitingMeansAllBusy | NetServer/src/MasterServer.cpp:145-174 | Between handlers, while any task waits, every registered worker runs exactly as many tasks as it advertised |
| Alone.HelloIsRun | NetServer/src/MasterServer.cpp:334-357 | Any run goes on with a whole Hello handler to the state that `OnHello` specifies |
| Alone.TaskDoneIsRun | NetServer/src/MasterServer.cpp:358-416 | Any run goes on with a whole accepted `TaskDone` handler to the state that `OnTaskDone` specifies |
| Alone.DisconnectIsRun | NetServer/src/MasterServer.cpp:256-281 | Any run goes on with a whole disconnect handler to the state that `OnClientDisconnect` specifies |
| Alone.StartIsRun | NetServer/src/MasterServer.cpp:50-77 | Any run goes on with a whole accepted `StartSearch` to the state that the method specifies |
| Reservations.NoSlotForgotten | NetServer/src/MasterServer.cpp:283-327 | In every state of every run a registered worker stands in the idle queue, or as many tasks as it advertised run on it or are about to be sent to it by handlers in progress |
| Reservations.WaitingMeansBusy | NetServer/src/MasterServer.cpp:145-174 | Work conservation at lock granularity: in every run, whenever a task waits and no handler is in progress, the idle queue is empty and every registered worker runs at least as many tasks as it advertised |
| Reservations.CapacityBySchedule | NetServer/src/MasterServer.cpp:156-172 | In every run in which no handler wakes a worker some of whose slots another handler holds, the slots held stay within the free slots and no worker has more tasks than it advertised |
| Progress.SomethingRuns | NetServer/src/MasterServer.cpp:283-327 | In every run, with no handler in progress: while a search has chunks left and a registered worker has a thread, some task is in flight |
| Completion.HandlersFinish | NetServer/src/MasterServer.cpp:145-174 | From every reachable state the handlers in progress can finish, one after the other, with the same requests, workers and searches; then the next id and the waiting tasks add up to what they and the tasks about to be published added up to before |
| Completion.ReachesDone | NetServer/src/MasterServer.cpp:358-416 | From every reachable state, whatever handlers are in progress, with a registered worker that has a thread, and with the next task id plus the tasks waiting or about to be published below 2^64, the run can go on until a published search of up to 2^31-1 chunks is Done, with the same workers and requests |
| Completion.OneWorkerSuffices | NetServer/src/MasterServer.cpp:256-281 | The same after the loss of all workers but one with everything they held, and with no other worker joining |
| Draining.ComesToRest | NetServer/src/MasterServer.cpp:145-174 | In every infinite run without arrivals other than replies, in any interleaving, the state changes only finitely often; so the rounds of waking idle workers end under interleaving too |
| Draining.RestMeansDone | NetServer/src/MasterServer.cpp:229-249 | Where no handler step and no reply changes anything, no handler is in progress, and with a registered worker that has a thread and ids below 2^64 nothing waits or is in flight and every search of up to 2^31-1 chunks is Done |
| Progress.FlightRunnable | NetServer/src/MasterServer.cpp:184-193 | In every run a task in flight lies inside its file and fits its fields, so the Worker's code can run it |
| Progress.WorkerSuffices | NetServer/src/MasterServer.cpp:358-416 | With no handler in progress and one registered worker with a thread, the run can go on until a published search of up to 2^31-1 chunks is Done, as long as task ids fit 64 bits |
| Progress.AnsweredOnce | NetServer/src/MasterServer.cpp:367-388 | Each accepted reply lowers the number of tasks that wait or are in flight by exactly one |
| Capacity.DispatchExactIff | NetServer/src/MasterServer.cpp:291-301 | The untested decrement keeps every counter exact if and only if the worker had a free slot or no task was waiting |
| Overdraft.CapacityExactly | NetServer/src/MasterServer.cpp:159-172 | At lock granularity a run keeps every worker within what it advertised if and only if none of its steps is taken by a handler about to send a waiting task to a worker without a free slot |
| Witness.CapacityCanBreak | NetServer/src/MasterServer.cpp:378-388 | There is a run in which a worker with two threads holds three tasks and its slot counter has wrapped |
| Codec.BatchRoundTrip | NetClient/src/WorkerClient.cpp:81-100 | Serializing, popping the task id and decoding gives the batch back if and only if its line counter is its number of lines and every length fits 32 bits; the task id always comes back |
| Replies.ReplyBytes | NetClient/src/WorkerClient.cpp:81-100 | The body of one reply, byte for byte |
| Replies.HeaderBytes | NetCommon/include/net_message.hpp:16-19 | A message header, byte for byte |
| Codec.ToBytesAt | NetCommon/include/net_message.hpp:40-43 | Byte `i` of an integer is its digit to the base 256, the least significant first |
| Codec.TailFields | NetServer/src/MasterServer.cpp:461-471 | The fields popped from the tail and the lines read from the front never overlap |
| Codec.SerializeBatch | NetClient/src/WorkerClient.cpp:81-100 | The body is the lines with their lengths, then the four fields, and the header holds its size modulo 2^32 |
| Codec.DeserializeBatch | NetServer/src/MasterServer.cpp:461-492 | Yields what the body encodes, or throws on a short body, provided no length field points outside it |
| Codec.LinesRoundTrip | NetServer/src/MasterServer.cpp:475-487 | Length-prefixed lines are read back wherever they stand in a body |
| Codec.Message.Push | NetCommon/include/net_message.hpp:37-48 | Appends to the tail and updates the size |
| Codec.Message.Pop | NetCommon/include/net_message.hpp:51-74 | Removes what `Push` appended, or throws and leaves the message as it was |
| Framing.Connection.OnSendPosted | NetCommon/include/net_connection.hpp:70-79 | Queues the message and starts a write exactly when none was going on |
| Framing.Connection.OnHeaderWritten | NetCommon/include/net_connection.hpp:118-137 | Goes on with the body, or pops the message and starts the next |
| Framing.Connection.OnHeaderRead | NetCommon/include/net_connection.hpp:86-97 | Goes on to the body, or delivers at once what the temporary message then holds |
| Link.Channel.Run | NetCommon/include/net_connection.hpp:70-168 | The callbacks of two connection objects, in any order that the stream allows, are the events of the state machine that the results below are about |
| Link.OneWriteInOrder | NetCommon/include/net_connection.hpp:70-154 | Over every run: without write errors there is one outstanding write exactly when the queue is not empty, and at all times the wire carries a prefix of the frames in the order sent |
| Link.DeliversPrefix | NetCommon/include/net_connection.hpp:86-168 | The reader delivers a prefix of the messages sent, unchanged, for messages with a body and as long as none delivered is of 4 GiB or more, whatever callbacks leave behind |
| Link.IdleMeansAllDelivered | NetCommon/include/net_connection.hpp:86-168 | When all is written and the reader lacks bytes, no message is missing, as long as none delivered is of 4 GiB or more |
| Link.CopiesExactly | NetCommon/include/net_connection.hpp:90-96 | Queued by copy, the messages delivered are those sent if and only if none of them is of 4 GiB or more and none without a body came after one with a body |
| Link.LongNeverArrives | NetCommon/include/net_message.hpp:26-28 | A message of 4 GiB or more is never delivered as it was sent: always on a connection that queues by copy, and on any other unless its size wraps to 0 |
| Link.Misframed | NetCommon/include/net_connection.hpp:86-97 | A run in which one message of exactly 4 GiB is sent and two empty ones are delivered, the second read out of the body of the first |
| Link.StaleBody | NetCommon/include/net_connection.hpp:94-96 | A run in which a message without a body is delivered with the body of the one before |
| ThreadPool.StartedInOrder | NetClient/src/ThreadPool.hpp:19-33 | Over every run tasks start exactly once, in the order enqueued, and once a thread has returned all have started |
| ThreadPool.NoLostWakeup | NetClient/src/ThreadPool.hpp:19-55 | With work queued, a notification is under way or a thread is up; while a thread sleeps there is one of either for every queued task |
| ThreadPool.GracefulDrain | NetClient/src/ThreadPool.hpp:25-46 | After the destructor sets its flag no run goes on for ever, and it can end only with all threads returned and all tasks started |
| ThreadPool.Pool.NextTask | NetClient/src/ThreadPool.hpp:19-31 | One pass of a thread through its locked block: waits, returns, or takes the front task |
| ThreadPool.Run | NetClient/src/ThreadPool.hpp:15-55 | The pool's critical sections, notifications and wakeups, in any order, are the events of the state machine that the results above are about |
| ThreadPool.CalculateThreadCount | NetClient/src/WorkerClient.cpp:14-19 | One thread less than processors when there are several, one when there is one, four when their number is unknown |
| Worker.RunTask | NetClient/src/WorkerClient.cpp:30-44 | The reply to a task holds exactly the result that the task asks for |
| Width.ReplySize | NetServer/src/MasterServer.cpp:10-13 | A reply counts at most one line per byte of a chunk, and its body is at most 261 chunk sizes, the longest line and 29 bytes |
| Width.RepliesFit | NetClient/src/WorkerClient.cpp:85-97 | With lines up to 2.9 GB, every reply to a planned task has an exact header size and decodes to its result |
| Width.ChunkWeight | NetClient/src/FileProcessor.hpp:59 | The lines that begin in a chunk are longer than it by less than one line |

## Left out

- Search and task ids: unbounded numbers; a search starts only while its id is below 2^64, and task ids do not wrap.
- EnqueueFileChunks: does not model 64-bit wrap-around of the offset, which needs a file of almost 2^64 bytes.
- DoneMeansGrep: says nothing of searches of 2^31 chunks and more, whose counter of finished chunks would pass the largest `int`, which is undefined in C++. The model lets it wrap there, which only `Results.StatusCounters` shows.
- StatusMonotone: the same for the chunk counters from 2^31 chunks on, and for match counts that pass 2^64, which wrap.
- CollectTasks: takes the regular files found; directory recursion, the skipping of symbolic links and errors on directories and entries, which only add to the scan errors, are not modelled.
- DeserializeBatch: bodies whose length fields point outside the body are excluded by its precondition, because the source reads out of bounds there; `History.NoReadOutOfRange` shows that no such body arises from the Worker's code.
- AggregateTaskResult: opening the result file always succeeds, and writing appends whole lines at once; a file that cannot be opened would lose lines that the status has counted.
- OnHello: a Hello message too short for its payload is reported and ignored by the source; the model starts with the decoded thread count.
- Path resolution and the sandbox checks: a request is given as the sequence of regular files found.
- HTTP, JSON, both `main` functions, logging and the session's file path: transport and text.
- The internals of regular expressions, and files that a Worker cannot open although the Master could measure them.
- The accept loop, connection lifetimes, `MessageClient`, `tsqueue`: thin wrappers; the queue of received messages is a sequence.
- Noticing a dead socket, and any progress that depends on the network: not decided by this code.
- The relation between the two ends' processes: replies arrive at the Master as events at any time, which allows every delay and reordering a network could add.
- The 128 MB chunk size: not compiled. Only `Width` and the plan of a request use the 5 MiB constant; chunking itself is proved for every size.
