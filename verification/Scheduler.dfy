/** The shared state of `MasterServer` and its critical sections: each function
    below is what one `lock_guard` block does to that state. */
module Scheduler {
  import opened Base
  import opened Codec
  import opened LineSearch

  // -------------------------------------------------------------------- state

  datatype Session = Session(
    maxResults: nat,
    totalMatches: nat,
    lineCount: nat,
    scanErrors: nat,
    chunksTotal: int,
    chunksDone: int
  )

  datatype Status = Status(
    done: bool,
    linesFound: nat,
    totalMatches: nat,
    scanErrors: nat,
    chunksDone: int,
    chunksTotal: int
  )

  datatype Master = Master(
    pending: seq<Task>,
    inFlight: map<nat, map<nat, Task>>,
    idle: seq<nat>,
    idleIds: set<nat>,
    freeSlots: map<nat, nat>,
    sessions: map<nat, Session>,
    nextSearchId: nat,
    nextTaskId: nat
  )

  const INITIAL := Master([], map[], [], {}, map[], map[], 0, 0)

  function Flight(m: Master, client: nat): map<nat, Task> {
    if client in m.inFlight then m.inFlight[client] else map[]
  }

  predicate InFlightAt(m: Master, client: nat, id: nat) {
    client in m.inFlight && id in m.inFlight[client]
  }

  /** The chunk behind a task, whatever id it was dispatched under. */
  function Chunk(task: Task): Task {
    task.(taskId := 0)
  }

  // -------------------------------------------------------- critical sections

  function AddPendingTasks(m: Master, searchId: nat, session: Session, tasks: seq<Task>): Master {
    m.(sessions := m.sessions[searchId := session.(chunksTotal := ToInt32(|tasks|))],
       pending := m.pending + tasks)
  }

  datatype Wakeup = NoWork | Stale | Wake(client: nat, slots: nat)

  /** The block at the top of the loop of `AssignIdleWorkers`. */
  function TakeIdle(m: Master): (Master, Wakeup) {
    if m.pending == [] || m.idle == [] then (m, NoWork)
    else
      var client := m.idle[0];
      var popped := m.(idle := m.idle[1..]);
      if client !in m.freeSlots then (popped, Stale)
      else (popped.(idleIds := m.idleIds - {client}), Wake(client, m.freeSlots[client]))
  }

  /** `DispatchNextTask`; the task sent, if any, is the boolean it returns. */
  function Dispatch(m: Master, client: nat): (Master, Option<Task>) {
    if client !in m.freeSlots then (m, None)
    else if m.pending != [] then
      var id := m.nextTaskId + 1;
      var task := m.pending[0].(taskId := id);
      (m.(pending := m.pending[1..],
          nextTaskId := id,
          inFlight := m.inFlight[client := Flight(m, client)[id := task]],
          freeSlots := m.freeSlots[client := Dec64(m.freeSlots[client])]),
       Some(task))
    else if client !in m.idleIds then
      (m.(idle := m.idle + [client], idleIds := m.idleIds + {client}), None)
    else (m, None)
  }

  /** The block of `Worker_Hello`. */
  function Register(m: Master, client: nat, threads: nat): Master {
    m.(freeSlots := m.freeSlots[client := threads])
  }

  /** The first block of `Worker_TaskDone`: the task, if this worker holds it. */
  function Claim(m: Master, client: nat, id: nat): (Master, Option<Task>) {
    if !InFlightAt(m, client, id) then (m, None)
    else
      var rest := m.inFlight[client] - {id};
      var slots := if client in m.freeSlots then m.freeSlots[client] else 0;
      (m.(inFlight := if rest == map[] then m.inFlight - {client} else m.inFlight[client := rest],
          freeSlots := m.freeSlots[client := Inc64(slots)]),
       Some(m.inFlight[client][id]))
  }

  /** The block of `AggregateTaskResult`: how many lines are to be written, or
      None when the session is unknown and the source throws. */
  function Aggregate(m: Master, searchId: nat, batch: ChunkResult): (Master, Option<nat>) {
    if searchId !in m.sessions then (m, None)
    else
      var s := m.sessions[searchId];
      var counted := s.(totalMatches := (s.totalMatches + batch.totalMatches) % U64);
      if s.lineCount < s.maxResults then
        var n := Min(|batch.lines|, s.maxResults - s.lineCount);
        (m.(sessions := m.sessions[searchId := counted.(lineCount := s.lineCount + n)]), Some(n))
      else (m.(sessions := m.sessions[searchId := counted]), Some(0))
  }

  /** `++` on a C++ `int`, with two's complement where the source overflows. */
  function IncInt32(x: int): int {
    if x == INT32_MAX then -0x8000_0000 else x + 1
  }

  /** The last block of `Worker_TaskDone`. */
  function CountChunk(m: Master, searchId: nat): Master {
    if searchId !in m.sessions then m
    else
      var s := m.sessions[searchId];
      m.(sessions := m.sessions[searchId := s.(chunksDone := IncInt32(s.chunksDone))])
  }

  /** Each task is pushed to the front in turn. */
  function PushFront(pending: seq<Task>, tasks: map<nat, Task>, order: seq<nat>): seq<Task>
    requires forall id :: id in order ==> id in tasks
  {
    if order == [] then pending
    else [tasks[order[|order| - 1]]] + PushFront(pending, tasks, order[..|order| - 1])
  }

  /** `order` lists the keys of an unordered map in some iteration order. */
  ghost predicate Enumerates(order: seq<nat>, tasks: map<nat, Task>) {
    && (forall id :: id in order <==> id in tasks)
    && (forall i, j :: 0 <= i < j < |order| ==> order[i] != order[j])
  }

  /** The block of `OnClientDisconnect`, for the order in which the worker's
      tasks happen to be visited. */
  function Reclaim(m: Master, client: nat, order: seq<nat>): Master
    requires forall id :: id in order ==> id in Flight(m, client)
  {
    m.(freeSlots := m.freeSlots - {client},
       idleIds := m.idleIds - {client},
       pending := PushFront(m.pending, Flight(m, client), order),
       inFlight := m.inFlight - {client})
  }

  function GetStatus(m: Master, searchId: nat): Option<Status> {
    if searchId !in m.sessions then None
    else
      var s := m.sessions[searchId];
      Some(Status(s.chunksDone == s.chunksTotal, s.lineCount, s.totalMatches, s.scanErrors, s.chunksDone, s.chunksTotal))
  }

  // --------------------------------------------------------- index invariants

  /** In-flight entries belong to registered workers, carry fresh distinct ids,
      and no empty inner map is kept. */
  ghost predicate FlightIndexed(m: Master) {
    && (forall c: nat :: c in m.inFlight ==> c in m.freeSlots && m.inFlight[c] != map[])
    && (forall c: nat, id: nat :: InFlightAt(m, c, id) ==> 1 <= id <= m.nextTaskId && m.inFlight[c][id].taskId == id)
    && (forall c: nat, d: nat, id: nat :: InFlightAt(m, c, id) && InFlightAt(m, d, id) ==> c == d)
  }

  /** The id-set is exactly the registered workers in the idle queue, each of
      which stands in it once; entries of departed workers may remain. */
  ghost predicate IdleIndexed(m: Master) {
    && (forall c: nat :: c in m.idleIds <==> c in m.freeSlots && c in m.idle)
    && (forall i, j :: 0 <= i < j < |m.idle| && m.idle[i] == m.idle[j] ==> m.idle[i] !in m.freeSlots)
  }

  ghost predicate Indexed(m: Master) {
    FlightIndexed(m) && IdleIndexed(m)
  }

  /** A worker's free slots and running tasks make up what it advertised, in the
      64-bit arithmetic of the counter. */
  ghost predicate Balanced(slots: nat, running: nat, threads: nat) {
    slots < U64 && (slots + running) % U64 == threads % U64
  }

  ghost predicate Ledger(m: Master, advertised: map<nat, nat>) {
    forall c: nat :: c in m.freeSlots ==>
      c in advertised && Balanced(m.freeSlots[c], |Flight(m, c)|, advertised[c])
  }

  /** Nothing happened to a worker, or it took a task, or it gave one back. */
  ghost predicate WorkerMoves(slots: nat, running: nat, slots': nat, running': nat) {
    || (slots' == slots && running' == running)
    || (slots' == Dec64(slots) && running' == running + 1)
    || (slots' == Inc64(slots) && running' + 1 == running)
  }

  lemma MoveBalanced(slots: nat, running: nat, slots': nat, running': nat, threads: nat)
    requires Balanced(slots, running, threads) && WorkerMoves(slots, running, slots', running')
    ensures Balanced(slots', running', threads)
  {
  }

  lemma MovesKeepLedger(m: Master, m': Master, advertised: map<nat, nat>)
    requires Ledger(m, advertised)
    requires forall c: nat :: c in m'.freeSlots ==>
      c in m.freeSlots && WorkerMoves(m.freeSlots[c], |Flight(m, c)|, m'.freeSlots[c], |Flight(m', c)|)
    ensures Ledger(m', advertised)
  {
    forall c: nat | c in m'.freeSlots
      ensures c in advertised && Balanced(m'.freeSlots[c], |Flight(m', c)|, advertised[c])
    {
      MoveBalanced(m.freeSlots[c], |Flight(m, c)|, m'.freeSlots[c], |Flight(m', c)|, advertised[c]);
    }
  }

  /** What a dispatched task changes in the in-flight table. */
  lemma DispatchFlight(m: Master, client: nat)
    requires client in m.freeSlots && m.pending != []
    ensures
      var m' := Dispatch(m, client).0;
      var id := m.nextTaskId + 1;
      && (forall c: nat, k: nat :: InFlightAt(m', c, k) <==> InFlightAt(m, c, k) || (c == client && k == id))
      && (forall c: nat, k: nat :: InFlightAt(m', c, k) ==>
        m'.inFlight[c][k] == if c == client && k == id then m.pending[0].(taskId := id) else m.inFlight[c][k])
      && (forall c: nat :: c != client ==> Flight(m', c) == Flight(m, c))
  {
  }

  lemma DispatchKeeps(m: Master, client: nat)
    requires Indexed(m)
    ensures Indexed(Dispatch(m, client).0)
  {
    var m' := Dispatch(m, client).0;
    if client in m.freeSlots && m.pending != [] {
      DispatchFlight(m, client);
      assert InFlightAt(m', client, m.nextTaskId + 1);
      assert FlightIndexed(m');
      assert IdleIndexed(m');
    } else {
      KeepsFlight(m, m');
    }
  }

  /** What a dispatched task does to each worker's slots and running tasks. */
  lemma DispatchNumbers(m: Master, client: nat, c: nat)
    requires FlightIndexed(m) && client in m.freeSlots && m.pending != [] && c in m.freeSlots
    ensures
      var m' := Dispatch(m, client).0;
      && c in m'.freeSlots
      && m'.freeSlots[c] == (if c == client then Dec64(m.freeSlots[c]) else m.freeSlots[c])
      && |Flight(m', c)| == |Flight(m, c)| + (if c == client then 1 else 0)
  {
    DispatchFlight(m, client);
    if c == client {
      var id := m.nextTaskId + 1;
      assert !InFlightAt(m, client, id);
      MapGrows(Flight(m, client), id, m.pending[0].(taskId := id));
    }
  }

  /** How a dispatch moves each worker's slots and running tasks. */
  lemma DispatchMoves(m: Master, client: nat, c: nat)
    requires FlightIndexed(m) && c in m.freeSlots
    ensures
      var m' := Dispatch(m, client).0;
      && c in m'.freeSlots
      && WorkerMoves(m.freeSlots[c], |Flight(m, c)|, m'.freeSlots[c], |Flight(m', c)|)
  {
    if client in m.freeSlots && m.pending != [] {
      DispatchNumbers(m, client, c);
    }
  }

  lemma DispatchLedger(m: Master, client: nat, advertised: map<nat, nat>)
    requires FlightIndexed(m) && Ledger(m, advertised)
    ensures Ledger(Dispatch(m, client).0, advertised)
  {
    var m' := Dispatch(m, client).0;
    forall c: nat | c in m'.freeSlots
      ensures c in m.freeSlots && WorkerMoves(m.freeSlots[c], |Flight(m, c)|, m'.freeSlots[c], |Flight(m', c)|)
    {
      DispatchMoves(m, client, c);
    }
    MovesKeepLedger(m, m', advertised);
  }

  lemma MapGrows<K, V>(m: map<K, V>, k: K, v: V)
    requires k !in m
    ensures |m[k := v]| == |m| + 1
  {
    assert m[k := v].Keys == m.Keys + {k};
  }

  lemma MapShrinks<K, V>(m: map<K, V>, k: K)
    requires k in m
    ensures |m - {k}| == |m| - 1
  {
    assert (m - {k}).Keys == m.Keys - {k};
  }

  /** Steps that leave the in-flight table alone and forget no worker. */
  lemma KeepsFlight(m: Master, m': Master)
    requires m'.inFlight == m.inFlight && m.freeSlots.Keys <= m'.freeSlots.Keys && m'.nextTaskId == m.nextTaskId
    ensures FlightIndexed(m) ==> FlightIndexed(m')
  {
    assert forall c: nat, k: nat :: InFlightAt(m', c, k) <==> InFlightAt(m, c, k);
  }

  lemma TakeIdleKeeps(m: Master)
    requires Indexed(m)
    ensures Indexed(TakeIdle(m).0)
    ensures TakeIdle(m).1.Wake? ==> TakeIdle(m).1.client in m.freeSlots
  {
    var m' := TakeIdle(m).0;
    KeepsFlight(m, m');
    if m.pending != [] && m.idle != [] {
      assert forall c: nat :: c in m.idle <==> c == m.idle[0] || c in m'.idle;
    }
  }

  lemma RegisterKeeps(m: Master, client: nat, threads: nat)
    requires Indexed(m) && client !in m.freeSlots && client !in m.idle
    ensures Indexed(Register(m, client, threads))
  {
    KeepsFlight(m, Register(m, client, threads));
  }

  lemma RegisterLedger(m: Master, client: nat, threads: nat, advertised: map<nat, nat>)
    requires FlightIndexed(m) && Ledger(m, advertised) && client !in m.freeSlots && threads < U64
    ensures Ledger(Register(m, client, threads), advertised[client := threads])
  {
    assert Flight(m, client) == map[];
  }

  /** What an accepted `TaskDone` changes in the in-flight table. */
  lemma ClaimFlight(m: Master, client: nat, id: nat)
    requires InFlightAt(m, client, id)
    ensures
      var m' := Claim(m, client, id).0;
      && (forall c: nat, k: nat :: InFlightAt(m', c, k) <==> InFlightAt(m, c, k) && !(c == client && k == id))
      && (forall c: nat, k: nat :: InFlightAt(m', c, k) ==> m'.inFlight[c][k] == m.inFlight[c][k])
      && (forall c: nat :: c != client ==> Flight(m', c) == Flight(m, c))
      && Flight(m', client) == Flight(m, client) - {id}
  {
    var rest := m.inFlight[client] - {id};
    assert forall k: nat :: k in rest <==> k in m.inFlight[client] && k != id;
  }

  lemma ClaimKeeps(m: Master, client: nat, id: nat)
    requires Indexed(m)
    ensures Indexed(Claim(m, client, id).0)
  {
    if InFlightAt(m, client, id) {
      var m' := Claim(m, client, id).0;
      ClaimFlight(m, client, id);
      assert FlightIndexed(m');
      assert IdleIndexed(m');
    }
  }

  lemma ClaimSlots(m: Master, client: nat, id: nat)
    requires InFlightAt(m, client, id) && client in m.freeSlots
    ensures Claim(m, client, id).0.freeSlots == m.freeSlots[client := Inc64(m.freeSlots[client])]
  {
  }

  /** What an accepted reply does to each worker's slots and running tasks. */
  lemma ClaimNumbers(m: Master, client: nat, id: nat, c: nat)
    requires FlightIndexed(m) && InFlightAt(m, client, id) && c in m.freeSlots
    ensures
      var m' := Claim(m, client, id).0;
      && c in m'.freeSlots
      && m'.freeSlots[c] == (if c == client then Inc64(m.freeSlots[c]) else m.freeSlots[c])
      && |Flight(m', c)| + (if c == client then 1 else 0) == |Flight(m, c)|
  {
    ClaimFlight(m, client, id);
    ClaimSlots(m, client, id);
    if c == client {
      MapShrinks(Flight(m, client), id);
    } else {
      assert Flight(Claim(m, client, id).0, c) == Flight(m, c);
    }
  }

  lemma ClaimMoves(m: Master, client: nat, id: nat, c: nat)
    requires FlightIndexed(m) && c in m.freeSlots
    ensures
      var m' := Claim(m, client, id).0;
      && c in m'.freeSlots
      && WorkerMoves(m.freeSlots[c], |Flight(m, c)|, m'.freeSlots[c], |Flight(m', c)|)
  {
    if InFlightAt(m, client, id) {
      ClaimNumbers(m, client, id, c);
    }
  }

  lemma ClaimLedger(m: Master, client: nat, id: nat, advertised: map<nat, nat>)
    requires FlightIndexed(m) && Ledger(m, advertised)
    ensures Ledger(Claim(m, client, id).0, advertised)
  {
    var m' := Claim(m, client, id).0;
    forall c: nat | c in m'.freeSlots
      ensures c in m.freeSlots && WorkerMoves(m.freeSlots[c], |Flight(m, c)|, m'.freeSlots[c], |Flight(m', c)|)
    {
      ClaimMoves(m, client, id, c);
    }
    MovesKeepLedger(m, m', advertised);
  }

  lemma ReclaimKeeps(m: Master, client: nat, order: seq<nat>)
    requires Indexed(m) && forall id :: id in order ==> id in Flight(m, client)
    ensures Indexed(Reclaim(m, client, order))
    ensures forall c: nat, k: nat :: InFlightAt(Reclaim(m, client, order), c, k) <==> InFlightAt(m, c, k) && c != client
  {
    var m' := Reclaim(m, client, order);
    assert forall c: nat, k: nat :: InFlightAt(m', c, k) <==> InFlightAt(m, c, k) && c != client;
  }

  lemma ReclaimLedger(m: Master, client: nat, order: seq<nat>, advertised: map<nat, nat>)
    requires Ledger(m, advertised) && forall id :: id in order ==> id in Flight(m, client)
    ensures Ledger(Reclaim(m, client, order), advertised)
  {
    MovesKeepLedger(m, Reclaim(m, client, order), advertised);
  }

  lemma IncrementMatchesCast(n: nat)
    ensures IncInt32(ToInt32(n)) == ToInt32(n + 1)
  {
  }
}
