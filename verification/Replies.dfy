/** What a reply does to the Master whatever its body says, and the bytes on the
    wire. No assumption is made here about who answers or how. */
module Replies {
  import opened Base
  import opened Codec
  import opened LineSearch
  import opened Scheduler
  import opened Chunking
  import opened Cluster
  import opened Handlers
  import Framing

  // --------------------------------------------------- any body, any sender

  /** A search's session and result file are the same. */
  ghost predicate SearchSame(s: State, s': State, sid: nat) {
    && (sid in s'.master.sessions <==> sid in s.master.sessions) && (sid in s'.output <==> sid in s.output)
    && (sid in s.master.sessions ==> s'.master.sessions[sid] == s.master.sessions[sid])
    && (sid in s.output ==> s'.output[sid] == s.output[sid])
  }

  /** A reply is added to the search of the task that this worker held, whatever
      search the body names; no other search notices. */
  lemma OtherSearchesUntouched(w: World, s: State, i: nat, sid: nat)
    requires i < |s.threads|
    requires s.threads[i].Redispatching? || s.threads[i].Aggregating? || s.threads[i].Writing? || s.threads[i].Counting?
    requires sid != s.threads[i].task.searchId
    ensures SearchSame(s, StepThread(w, s, i), sid)
  {
    match s.threads[i]
    case Redispatching(client, task, body) => assert StepThread(w, s, i) == StepRedispatch(s, i, client, task, body);
    case Aggregating(task, body) => AggregateTouches(s, i, task, body, sid);
      assert StepThread(w, s, i) == StepAggregate(s, i, task, body);
    case Writing(task, lines) => assert StepThread(w, s, i) == StepWrite(s, i, task, lines);
    case Counting(task) => assert StepThread(w, s, i) == StepCount(s, i, task);
  }

  lemma AggregateTouches(s: State, i: nat, task: Task, body: Bytes, sid: nat)
    requires i < |s.threads| && sid != task.searchId
    ensures SearchSame(s, StepAggregate(s, i, task, body), sid)
  {
  }

  /** Where a handler of an accepted reply goes next. */
  ghost predicate Onward(s: State, s': State, i: nat)
    requires i < |s.threads| == |s'.threads|
  {
    var pc, pc' := s.threads[i], s'.threads[i];
    match pc
    case Redispatching(_, task, body) => pc' == Aggregating(task, body) && s'.counted == s.counted
    case Aggregating(task, _) => (pc' == Counting(task) || (pc'.Writing? && pc'.task == task)) && s'.counted == s.counted
    case Writing(task, _) => pc' == Counting(task) && s'.counted == s.counted
    case Counting(task) => pc' == Finished && s'.counted == s.counted + [Chunk(task)]
    case _ => true
  }

  /** An accepted reply is counted in the end, also when its body is malformed and
      adds nothing: each step leads on to the count. */
  lemma AlwaysCounted(w: World, s: State, i: nat)
    requires i < |s.threads|
    requires s.threads[i].Redispatching? || s.threads[i].Aggregating? || s.threads[i].Writing? || s.threads[i].Counting?
    ensures |StepThread(w, s, i).threads| == |s.threads| && Onward(s, StepThread(w, s, i), i)
  {
    match s.threads[i]
    case Redispatching(client, task, body) => assert StepThread(w, s, i) == StepRedispatch(s, i, client, task, body);
    case Aggregating(task, body) => assert StepThread(w, s, i) == StepAggregate(s, i, task, body);
    case Writing(task, lines) => assert StepThread(w, s, i) == StepWrite(s, i, task, lines);
    case Counting(task) => assert StepThread(w, s, i) == StepCount(s, i, task);
  }

  /** The same of the whole second half of the handler: a body too short for its
      fields counts the chunk and does nothing else. */
  lemma ShortBodyCounts(m: Master, output: map<nat, seq<Bytes>>, task: Task, body: Bytes)
    requires |body| < 20 && task.searchId in m.sessions && m.sessions[task.searchId].chunksDone < 0x7FFF_FFFF
    ensures
      var session := m.sessions[task.searchId];
      Complete(m, output, task, body) ==
        (m.(sessions := m.sessions[task.searchId := session.(chunksDone := session.chunksDone + 1)]), output)
  {
  }

  /** A body without a task id changes nothing. */
  lemma NoIdIgnored(s: State, client: nat, body: Bytes)
    requires |body| < 8
    ensures ApplyTaskDone(s, client, body) == s
  {
  }

  // ------------------------------------------------------ bytes on the wire

  lemma SmallWord(v: nat)
    requires v < 256
    ensures ToBytes(v, 4) == [v, 0, 0, 0] && ToBytes(v, 8) == [v, 0, 0, 0, 0, 0, 0, 0]
  {
    Zeros(3);
    Zeros(7);
    assert ToBytes(v, 4) == [v] + ToBytes(0, 3);
    assert ToBytes(v, 8) == [v] + ToBytes(0, 7);
  }

  lemma {:induction false} Zeros(n: nat)
    ensures ToBytes(0, n) == seq(n, _ => 0)
  {
    if n > 0 {
      Zeros(n - 1);
    }
  }

  /** The body of one reply, byte for byte. */
  lemma ReplyBytes()
    ensures EncodeBatch(ChunkResult([[65, 66]], 5, 6, 7, 1)) ==
      [2, 0, 0, 0, 65, 66]
      + ([1, 0, 0, 0] + [7, 0, 0, 0, 0, 0, 0, 0] + [5, 0, 0, 0, 0, 0, 0, 0])
      + [6, 0, 0, 0, 0, 0, 0, 0]
  {
    TailBytes();
    SmallWord(6);
    LineBytes();
  }

  lemma TailBytes()
    ensures EncodeTail(ChunkResult([[65, 66]], 5, 6, 7, 1)) ==
      [1, 0, 0, 0] + [7, 0, 0, 0, 0, 0, 0, 0] + [5, 0, 0, 0, 0, 0, 0, 0]
  {
    SmallWord(1);
    SmallWord(5);
    SmallWord(7);
  }

  lemma LineBytes()
    ensures EncodeLines([[65, 66]]) == [2, 0, 0, 0, 65, 66]
  {
    SmallWord(2);
    assert EncodeLine([65, 66]) == [2, 0, 0, 0] + [65, 66];
    assert EncodeLines([[65, 66]]) == EncodeLine([65, 66]) + EncodeLines([]);
  }

  /** A message header, byte for byte. */
  lemma HeaderBytes(body: Bytes)
    ensures Framing.Header(Framing.Packet(2, 3, body)) == [2, 0, 0, 0, 3, 0, 0, 0]
  {
    SmallWord(2);
    SmallWord(3);
  }
}
