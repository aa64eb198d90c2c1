/** What the scheduler keeps when handlers run one after the other: no worker
    runs more tasks than it advertised, and no slot is idle while work waits. */
module Capacity {
  import opened Base
  import opened Scheduler

  /** Free slots plus running tasks are exactly what each worker advertised: the
      unsigned counter has not wrapped. */
  ghost predicate Exact(m: Master, advertised: map<nat, nat>) {
    forall c: nat :: c in m.freeSlots ==>
      c in advertised && m.freeSlots[c] + |Flight(m, c)| == advertised[c] < U64
  }

  /** Every registered worker with a free slot stands in the idle queue, except
      possibly those in `but`. */
  ghost predicate Covered(m: Master, but: set<nat>) {
    forall c: nat :: c in m.freeSlots && c !in but && m.freeSlots[c] > 0 ==> c in m.idleIds
  }

  /** While work waits, no registered worker outside `but` has a free slot. */
  ghost predicate Saturated(m: Master, but: set<nat>) {
    m.pending != [] ==> forall c: nat :: c in m.freeSlots && c !in but ==> m.freeSlots[c] == 0
  }

  /** No worker has more tasks than it advertised. */
  lemma WithinCapacity(m: Master, advertised: map<nat, nat>, client: nat)
    requires FlightIndexed(m) && Exact(m, advertised)
    ensures client in m.inFlight ==> client in advertised && 0 < |m.inFlight[client]| <= advertised[client]
  {
    if client in m.inFlight {
      assert m.inFlight[client] != map[];
      assert |m.inFlight[client]| != 0;
      assert Flight(m, client) == m.inFlight[client];
    }
  }

  /** While any task waits, every registered worker runs as many as it said. */
  lemma WaitingMeansAllBusy(m: Master, advertised: map<nat, nat>, client: nat)
    requires Exact(m, advertised) && Saturated(m, {}) && m.pending != [] && client in m.freeSlots
    ensures client in advertised && |Flight(m, client)| == advertised[client]
  {
    assert m.freeSlots[client] == 0;
  }

  /** Within capacity the unsigned counter does not wrap. */
  lemma SlotDown(slots: nat)
    requires 0 < slots < U64
    ensures Dec64(slots) == slots - 1
  {
  }

  lemma DispatchExactFor(m: Master, client: nat, c: nat, advertised: map<nat, nat>)
    requires FlightIndexed(m) && Exact(m, advertised) && client in m.freeSlots && m.pending != []
    requires m.freeSlots[client] > 0 && c in m.freeSlots
    ensures
      var m' := Dispatch(m, client).0;
      c in m'.freeSlots && m'.freeSlots[c] + |Flight(m', c)| == advertised[c]
  {
    DispatchNumbers(m, client, c);
    SlotDown(m.freeSlots[client]);
  }

  /** A task is about to be sent to a worker that has no free slot. */
  predicate Overdrawn(m: Master, client: nat) {
    client in m.freeSlots && m.pending != [] && m.freeSlots[client] == 0
  }

  lemma DispatchExact(m: Master, client: nat, advertised: map<nat, nat>)
    requires FlightIndexed(m) && Exact(m, advertised) && !Overdrawn(m, client)
    ensures Exact(Dispatch(m, client).0, advertised)
  {
    var m' := Dispatch(m, client).0;
    if client in m.freeSlots && m.pending != [] {
      forall c: nat | c in m'.freeSlots
        ensures c in advertised && m'.freeSlots[c] + |Flight(m', c)| == advertised[c] < U64
      {
        DispatchExactFor(m, client, c, advertised);
      }
    }
  }

  /** `DispatchNextTask` does not test the counter: it wraps exactly when the
      worker had no free slot. */
  lemma DispatchExactIff(m: Master, client: nat, advertised: map<nat, nat>)
    requires FlightIndexed(m) && Exact(m, advertised)
    ensures Exact(Dispatch(m, client).0, advertised) <==> !Overdrawn(m, client)
  {
    if Overdrawn(m, client) {
      var m' := Dispatch(m, client).0;
      assert client in m'.freeSlots && m'.freeSlots[client] == U64 - 1;
      DispatchNumbers(m, client, client);
    } else {
      DispatchExact(m, client, advertised);
    }
  }

  /** A slot given back by a worker within capacity does not wrap either. */
  lemma SlotUp(slots: nat, running: nat, threads: nat)
    requires slots + running == threads < U64 && running > 0
    ensures Inc64(slots) == slots + 1
  {
  }

  /** The slot given back is one more free slot. */
  lemma ClaimExactSlots(m: Master, client: nat, id: nat, advertised: map<nat, nat>)
    requires FlightIndexed(m) && Exact(m, advertised) && InFlightAt(m, client, id)
    ensures client in m.freeSlots && Inc64(m.freeSlots[client]) == m.freeSlots[client] + 1
    ensures Claim(m, client, id).0.freeSlots == m.freeSlots[client := m.freeSlots[client] + 1]
  {
    ClaimedSlotUp(m, client, id, advertised);
    ClaimSlots(m, client, id);
  }

  lemma ClaimedSlotUp(m: Master, client: nat, id: nat, advertised: map<nat, nat>)
    requires FlightIndexed(m) && Exact(m, advertised) && InFlightAt(m, client, id)
    ensures client in m.freeSlots && Inc64(m.freeSlots[client]) == m.freeSlots[client] + 1
  {
    assert id in Flight(m, client);
    SlotUp(m.freeSlots[client], |Flight(m, client)|, advertised[client]);
  }

  lemma ClaimExactFor(m: Master, client: nat, id: nat, c: nat, advertised: map<nat, nat>)
    requires FlightIndexed(m) && Exact(m, advertised) && InFlightAt(m, client, id) && c in m.freeSlots
    ensures
      var m' := Claim(m, client, id).0;
      c in m'.freeSlots && m'.freeSlots[c] + |Flight(m', c)| == advertised[c]
  {
    assert c in advertised && m.freeSlots[c] + |Flight(m, c)| == advertised[c];
    ClaimNumbers(m, client, id, c);
    ClaimExactSlots(m, client, id, advertised);
  }

  lemma ClaimExact(m: Master, client: nat, id: nat, advertised: map<nat, nat>)
    requires FlightIndexed(m) && Exact(m, advertised) && InFlightAt(m, client, id)
    ensures Exact(Claim(m, client, id).0, advertised)
  {
    ClaimExactSlots(m, client, id, advertised);
    var m' := Claim(m, client, id).0;
    forall c: nat | c in m'.freeSlots
      ensures c in advertised && m'.freeSlots[c] + |Flight(m', c)| == advertised[c] < U64
    {
      ClaimExactFor(m, client, id, c, advertised);
    }
  }

  /** Dispatching to one worker leaves the others as they were. */
  lemma DispatchKeepsCover(m: Master, client: nat)
    requires Indexed(m) && Covered(m, {client}) && client in m.freeSlots
    ensures
      var (m', sent) := Dispatch(m, client);
      && m'.freeSlots.Keys == m.freeSlots.Keys
      && Covered(m', {client}) && (Saturated(m, {client}) ==> Saturated(m', {client}))
      && (sent.None? ==> m'.pending == m.pending == [] && m'.freeSlots == m.freeSlots && Covered(m', {}))
      && (sent.Some? ==> |m'.pending| < |m.pending|)
      && (sent.Some? ==> m'.freeSlots == m.freeSlots[client := Dec64(m.freeSlots[client])])
  {
  }

  /** A worker with `left` free slots is being handed tasks; every other worker
      with a free slot stands in the queue. */
  ghost predicate Handing(m: Master, advertised: map<nat, nat>, client: nat, left: nat) {
    && Indexed(m) && Exact(m, advertised) && Covered(m, {client})
    && client in m.freeSlots && m.freeSlots[client] == left
  }

  /** One turn of a dispatch loop that finds a task. */
  lemma HandOne(m: Master, advertised: map<nat, nat>, client: nat, left: nat)
    requires Handing(m, advertised, client, left) && left > 0 && m.pending != []
    ensures
      var m' := Dispatch(m, client).0;
      && Dispatch(m, client).1.Some? && Handing(m', advertised, client, left - 1)
      && |m'.pending| == |m.pending| - 1 && m'.freeSlots.Keys == m.freeSlots.Keys && m'.idle == m.idle
      && (Saturated(m, {client}) ==> Saturated(m', {client}))
  {
    DispatchKeeps(m, client);
    DispatchExact(m, client, advertised);
    DispatchKeepsCover(m, client);
    SlotDown(left);
  }

  /** One turn of a dispatch loop that finds none. */
  lemma HandNone(m: Master, advertised: map<nat, nat>, client: nat, left: nat)
    requires Handing(m, advertised, client, left) && left > 0 && m.pending == []
    ensures
      var m' := Dispatch(m, client).0;
      && Dispatch(m, client).1.None? && m'.pending == [] && m'.freeSlots == m.freeSlots
      && Indexed(m') && Exact(m', advertised) && Covered(m', {})
      && (forall c: nat :: c in m'.idle ==> c in m.idle || c == client)
  {
    DispatchKeeps(m, client);
    DispatchExact(m, client, advertised);
    DispatchKeepsCover(m, client);
  }

  /** A worker without free slots needs no cover, and wastes none. */
  lemma NoSlotNoCover(m: Master, client: nat)
    requires client in m.freeSlots && m.freeSlots[client] == 0
    ensures Covered(m, {client}) ==> Covered(m, {})
    ensures Saturated(m, {client}) ==> Saturated(m, {})
  {
  }

  lemma TakeIdleCovers(m: Master)
    requires Indexed(m) && Covered(m, {})
    ensures
      var (m', wakeup) := TakeIdle(m);
      match wakeup
      case NoWork => m' == m && (m.pending == [] || m.idle == [])
      case Stale => |m'.idle| < |m.idle| && Covered(m', {})
      case Wake(client, slots) =>
        |m'.idle| < |m.idle| && Covered(m', {client}) && client in m'.freeSlots && slots == m'.freeSlots[client]
  {
  }

  /** With nobody in the queue, cover is saturation. */
  lemma EmptyQueueSaturates(m: Master)
    requires IdleIndexed(m) && Covered(m, {}) && (m.pending == [] || m.idle == [])
    ensures Saturated(m, {})
  {
  }

  lemma ReclaimExact(m: Master, client: nat, order: seq<nat>, advertised: map<nat, nat>)
    requires Exact(m, advertised) && forall id :: id in order ==> id in Flight(m, client)
    ensures Exact(Reclaim(m, client, order), advertised)
    ensures Covered(m, {}) ==> Covered(Reclaim(m, client, order), {})
  {
    var m' := Reclaim(m, client, order);
    forall c: nat | c in m'.freeSlots
      ensures c in advertised && m'.freeSlots[c] + |Flight(m', c)| == advertised[c] < U64
    {
      assert c in m.freeSlots && Flight(m', c) == Flight(m, c);
    }
  }

  lemma RegisterExact(m: Master, client: nat, threads: nat, advertised: map<nat, nat>)
    requires FlightIndexed(m) && Exact(m, advertised) && client !in m.freeSlots && threads < U64
    ensures Exact(Register(m, client, threads), advertised[client := threads])
    ensures Covered(m, {}) ==> Covered(Register(m, client, threads), {client})
    ensures Saturated(m, {}) ==> Saturated(Register(m, client, threads), {client})
  {
    assert client !in m.inFlight;
    assert |Flight(m, client)| == 0;
  }
}
