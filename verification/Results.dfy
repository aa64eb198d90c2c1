/** What a client may conclude from a status in any run: the end-to-end result,
    exactly-once counting, and the monotonicity of what is reported. */
module Results {
  import opened Base
  import opened Codec
  import opened LineSearch
  import opened Chunking
  import opened Scheduler
  import opened Cluster
  import opened Bags
  import opened Accounting
  import opened Tables
  import opened Conservation
  import opened Totals
  import opened EndToEnd

  // ------------------------------------------- results do not depend on order

  lemma {:induction false} OfBag(tasks: seq<Task>, sid: nat)
    ensures multiset(Of(tasks, sid)) == TasksOf(tasks, sid)
    decreases |tasks|
  {
    if tasks != [] {
      var init, last := SplitLast(tasks);
      OfBag(init, sid);
      TasksAppend(init, last, sid);
      OfAppend(init, last, sid);
    }
  }

  lemma TakeOut(tasks: seq<Task>, task: Task) returns (front: seq<Task>, back: seq<Task>)
    requires task in tasks
    ensures tasks == front + [task] + back
    ensures multiset(tasks) == multiset(front + back) + multiset{task}
  {
    var j :| 0 <= j < |tasks| && tasks[j] == task;
    front, back := tasks[..j], tasks[j + 1..];
    assert tasks == front + [task] + back;
    assert multiset(front + [task] + back) == multiset(front) + multiset{task} + multiset(back);
  }

  lemma MatchesAround(w: World, front: seq<Task>, task: Task, back: seq<Task>)
    ensures multiset(AllTaskMatches(w, front + [task] + back))
         == multiset(AllTaskMatches(w, front + back)) + multiset(TaskMatches(w, task))
  {
    AllTaskMatchesConcat(w, front + [task], back);
    AllTaskMatchesAppend(w, front, task);
    AllTaskMatchesConcat(w, front, back);
  }

  /** Fewer chunks report fewer matches, whatever the order of either list. */
  lemma {:induction false} MatchesOfSubset(w: World, a: seq<Task>, b: seq<Task>)
    requires multiset(a) <= multiset(b)
    ensures multiset(AllTaskMatches(w, a)) <= multiset(AllTaskMatches(w, b))
    ensures |AllTaskMatches(w, a)| <= |AllTaskMatches(w, b)|
    decreases |a|
  {
    if a != [] {
      var init, last := SplitLast(a);
      assert last in multiset(a);
      var front, back := TakeOut(b, last);
      DropOne(init, last, front + back);
      MatchesOfSubset(w, init, front + back);
      AllTaskMatchesAppend(w, init, last);
      MatchesAround(w, front, last, back);
      Widen(AllTaskMatches(w, init), AllTaskMatches(w, front + back), TaskMatches(w, last), AllTaskMatches(w, b));
    }
  }

  lemma DropOne(init: seq<Task>, last: Task, rest: seq<Task>)
    requires multiset(init + [last]) <= multiset(rest) + multiset{last}
    ensures multiset(init) <= multiset(rest)
  {
    assert multiset(init + [last]) == multiset(init) + multiset{last};
    CancelSub(multiset(init), multiset(rest), multiset{last});
  }

  lemma Widen(x: seq<Bytes>, y: seq<Bytes>, z: seq<Bytes>, all: seq<Bytes>)
    requires multiset(x) <= multiset(y) && multiset(all) == multiset(y) + multiset(z)
    ensures multiset(x + z) <= multiset(all) && |x + z| <= |all|
  {
    assert multiset(x + z) == multiset(x) + multiset(z);
    assert multiset(all) == multiset(x + z) + (multiset(y) - multiset(x));
    assert |multiset(all)| == |all| && |multiset(x + z)| == |x + z|;
  }

  // --------------------------------------------------- what has been added

  /** At every lock release, what was added is part of the true answer. */
  lemma AddedIsPartOfAnswer(w: World, s: State, sid: nat)
    requires Inv(w, s) && sid in s.master.sessions
    ensures
      var plan := s.requests[sid];
      && TasksOf(s.aggregated, sid) <= multiset(PlanTasks(w, plan, sid))
      && TasksOf(s.counted, sid) <= TasksOf(s.aggregated, sid)
      && multiset(Added(w, s.aggregated, sid)) <= multiset(GrepFiles(w, plan.keyword, plan.names))
      && |Added(w, s.aggregated, sid)| <= |GrepFiles(w, plan.keyword, plan.names)|
  {
    var plan := s.requests[sid];
    assert ConservedFor(w, s, sid);
    OfBag(s.aggregated, sid);
    MatchesOfSubset(w, Of(s.aggregated, sid), PlanTasks(w, plan, sid));
    TasksAreGrep(w, plan, sid, plan.names);
  }

  /** Once every chunk is counted, the whole answer was added. */
  lemma AllCounted(w: World, s: State, sid: nat)
    requires Inv(w, s) && sid in s.master.sessions
    requires |TasksOf(s.counted, sid)| == |PlanTasks(w, s.requests[sid], sid)|
    ensures
      var plan := s.requests[sid];
      && multiset(Added(w, s.aggregated, sid)) == multiset(GrepFiles(w, plan.keyword, plan.names))
      && |Added(w, s.aggregated, sid)| == |GrepFiles(w, plan.keyword, plan.names)|
      && NothingLeft(s, sid)
  {
    var plan := s.requests[sid];
    var tasks := PlanTasks(w, plan, sid);
    AddedIsPartOfAnswer(w, s, sid);
    assert |multiset(tasks)| == |tasks|;
    SameSizeSubMultiset(TasksOf(s.counted, sid), multiset(tasks));
    assert TasksOf(s.aggregated, sid) == multiset(tasks);
    OfBag(s.aggregated, sid);
    MatchesOfSubset(w, tasks, Of(s.aggregated, sid));
    TasksAreGrep(w, plan, sid, plan.names);
    NothingElse(w, s, sid);
  }

  /** No chunk of the search is pending, in flight or mid-completion. */
  ghost predicate NothingLeft(s: State, sid: nat) {
    && TasksOf(s.master.pending, sid) == multiset{} && LiveOf(s.sent, sid) == multiset{}
    && ClaimedOf(s.threads, sid) == multiset{} && FinishingOf(s.threads, sid) == multiset{}
  }

  /** Chunks counted plus chunks not yet counted are the chunks published. */
  lemma CountedBalance(w: World, s: State, sid: nat)
    requires Inv(w, s) && sid in s.master.sessions
    ensures |PlanTasks(w, s.requests[sid], sid)| ==
      |TasksOf(s.master.pending, sid)| + |LiveOf(s.sent, sid)| + |ClaimedOf(s.threads, sid)|
      + |FinishingOf(s.threads, sid)| + |TasksOf(s.counted, sid)|
  {
    assert ConservedFor(w, s, sid);
    var tasks := PlanTasks(w, s.requests[sid], sid);
    assert |multiset(tasks)| == |tasks|;
    SizeOfFour(TasksOf(s.master.pending, sid), LiveOf(s.sent, sid), ClaimedOf(s.threads, sid), TasksOf(s.aggregated, sid));
    assert |TasksOf(s.aggregated, sid)| == |FinishingOf(s.threads, sid)| + |TasksOf(s.counted, sid)|;
  }

  lemma SizeOfFour<T>(p: multiset<T>, l: multiset<T>, c: multiset<T>, a: multiset<T>)
    ensures |p + l + c + a| == |p| + |l| + |c| + |a|
  {
  }

  lemma NothingElse(w: World, s: State, sid: nat)
    requires Inv(w, s) && sid in s.master.sessions
    requires |TasksOf(s.counted, sid)| == |PlanTasks(w, s.requests[sid], sid)|
    ensures NothingLeft(s, sid)
  {
    CountedBalance(w, s, sid);
  }

  // ------------------------------------------------------------- Done is right

  /** A fact about the conversion to `int` alone: it tells every smaller count
      from the total exactly when the total is below 2^32. */
  lemma CastIsFaithful(total: nat)
    ensures (forall c: nat :: c <= total && ToInt32(c) == ToInt32(total) ==> c == total) <==> total < U32
  {
    if total < U32 {
      forall c: nat | c <= total && ToInt32(c) == ToInt32(total)
        ensures c == total
      {
        ToInt32Equal(c, total);
      }
    } else {
      var c: nat := total - U32;
      assert c % U32 == total % U32;
      ToInt32Equal(c, total);
      assert c <= total && ToInt32(c) == ToInt32(total) && c != total;
    }
  }

  /** What the two counters of a session hold. */
  lemma StatusCounters(w: World, s: State, sid: nat)
    requires Inv(w, s) && GetStatus(s.master, sid).Some?
    ensures
      var status := GetStatus(s.master, sid).value;
      && status.chunksDone == ToInt32(|TasksOf(s.counted, sid)|)
      && status.chunksTotal == ToInt32(|PlanTasks(w, s.requests[sid], sid)|)
      && status.done == (status.chunksDone == status.chunksTotal)
  {
    assert CountersFor(w, s, sid) && SessionOf(w, s.master.sessions[sid], s.requests[sid], sid);
  }

  /** Up to the largest `int`, counts are what they are, and no `++` overflows. */
  lemma SmallCast(c: nat, total: nat)
    requires c <= total <= INT32_MAX
    ensures ToInt32(c) == c && ToInt32(total) == total
    ensures c < total ==> IncInt32(ToInt32(c)) == c + 1
  {
  }

  lemma ZeroCast(total: nat)
    ensures ToInt32(0) == ToInt32(total) <==> total % U32 == 0
  {
    ToInt32Equal(0, total);
  }

  lemma NothingLeftBySize(w: World, s: State, sid: nat)
    requires Inv(w, s) && sid in s.master.sessions
    ensures NothingLeft(s, sid) <==> |TasksOf(s.counted, sid)| == |PlanTasks(w, s.requests[sid], sid)|
  {
    CountedBalance(w, s, sid);
  }

  /** The largest number of chunks that the `int` counters can hold. */
  ghost predicate Countable(w: World, s: State, sid: nat) {
    sid < |s.requests| && |PlanTasks(w, s.requests[sid], sid)| <= INT32_MAX
  }

  lemma DoneMeansNothingLeft(w: World, s: State, sid: nat)
    requires Inv(w, s) && GetStatus(s.master, sid).Some? && Countable(w, s, sid)
    ensures GetStatus(s.master, sid).value.done <==> NothingLeft(s, sid)
    ensures GetStatus(s.master, sid).value.done <==>
      |TasksOf(s.counted, sid)| == |PlanTasks(w, s.requests[sid], sid)|
  {
    StatusCounters(w, s, sid);
    CountedBalance(w, s, sid);
    NothingLeftBySize(w, s, sid);
    SmallCast(|TasksOf(s.counted, sid)|, |PlanTasks(w, s.requests[sid], sid)|);
  }

  /** In every state of every run the status says Done exactly when no chunk of
      the search is pending, in flight or mid-completion. */
  lemma DoneExactly(w: World, trace: seq<State>, k: nat, sid: nat)
    requires WorldFits(w) && IsRun(w, trace) && trace[0] == START && k < |trace|
    requires GetStatus(trace[k].master, sid).Some? && Countable(w, trace[k], sid)
    ensures GetStatus(trace[k].master, sid).value.done <==> NothingLeft(trace[k], sid)
  {
    InvAlways(w, trace, k);
    DoneMeansNothingLeft(w, trace[k], sid);
  }

  /** A chunk about to be counted is not yet counted. */
  lemma CountingLeft(w: World, s: State, i: nat, sid: nat)
    requires Inv(w, s) && sid in s.master.sessions
    requires i < |s.threads| && s.threads[i].Counting? && s.threads[i].task.searchId == sid
    ensures |TasksOf(s.counted, sid)| < |PlanTasks(w, s.requests[sid], sid)|
  {
    CountedBalance(w, s, sid);
    FinishingHolds(s.threads, i, sid);
  }

  lemma FinishingHolds(threads: seq<Pc>, i: nat, sid: nat)
    requires i < |threads| && threads[i].Counting? && threads[i].task.searchId == sid
    ensures |FinishingOf(threads, sid)| > 0
  {
    FinishingContains(threads, i, sid);
    assert Chunk(threads[i].task) in FinishingOf(threads, sid);
  }

  /** The `++` on the counter of counted chunks never leaves the range of `int`. */
  lemma CountingIsDefined(w: World, trace: seq<State>, k: nat, i: nat, sid: nat)
    requires WorldFits(w) && IsRun(w, trace) && trace[0] == START && k < |trace|
    requires i < |trace[k].threads| && trace[k].threads[i].Counting? && trace[k].threads[i].task.searchId == sid
    requires sid in trace[k].master.sessions && Countable(w, trace[k], sid)
    ensures 0 <= trace[k].master.sessions[sid].chunksDone < INT32_MAX
  {
    InvAlways(w, trace, k);
    CountingLeft(w, trace[k], i, sid);
    StatusCounters(w, trace[k], sid);
    SmallCast(|TasksOf(trace[k].counted, sid)|, |PlanTasks(w, trace[k].requests[sid], sid)|);
  }

  /** In every state of every run what was added is part of the true answer, each
      chunk at most once, and what was counted was added. */
  lemma AddedOnce(w: World, trace: seq<State>, k: nat, sid: nat)
    requires WorldFits(w) && IsRun(w, trace) && trace[0] == START && k < |trace|
    requires sid in trace[k].master.sessions
    ensures sid < |trace[k].requests|
    ensures
      var s := trace[k];
      var plan := s.requests[sid];
      && TasksOf(s.aggregated, sid) <= multiset(PlanTasks(w, plan, sid))
      && TasksOf(s.counted, sid) <= TasksOf(s.aggregated, sid)
      && multiset(Added(w, s.aggregated, sid)) <= multiset(GrepFiles(w, plan.keyword, plan.names))
  {
    InvAlways(w, trace, k);
    AddedIsPartOfAnswer(w, trace[k], sid);
  }

  /** The end-to-end result. In every run, with any disconnects, reclaims and
      late or false replies: when a search that `int` can count is reported Done,
      the status counts the matching lines of all its files, and the result file
      holds that many of them, up to the limit; all of them when the limit
      allows. */
  lemma DoneMeansGrep(w: World, trace: seq<State>, k: nat, sid: nat)
    requires WorldFits(w) && IsRun(w, trace) && trace[0] == START && k < |trace|
    requires GetStatus(trace[k].master, sid).Some?
    ensures sid < |trace[k].requests|
    ensures
      var s := trace[k];
      var plan := s.requests[sid];
      var status := GetStatus(s.master, sid).value;
      var answer := GrepFiles(w, plan.keyword, plan.names);
      |PlanTasks(w, plan, sid)| <= INT32_MAX && status.done ==>
        && status.totalMatches == |answer| % U64
        && status.linesFound == Min(plan.maxResults, |answer|)
        && sid in s.output && |s.output[sid]| == status.linesFound
        && multiset(s.output[sid]) <= multiset(answer)
        && (|answer| <= plan.maxResults ==> multiset(s.output[sid]) == multiset(answer))
        && (status.scanErrors == 0 <==> forall name :: name in plan.names ==> !ScanFails(w, name))
  {
    var s := trace[k];
    InvAlways(w, trace, k);
    assert SessionOf(w, s.master.sessions[sid], s.requests[sid], sid);
    if Countable(w, s, sid) && GetStatus(s.master, sid).value.done {
      DoneMeansNothingLeft(w, s, sid);
      AllCounted(w, s, sid);
      FileComplete(w, s, sid);
      NoErrorsNoOmission(w, s.requests[sid].names);
    }
  }

  /** With nothing between its addition and its count, the result file is what the
      line counter says. */
  lemma FileComplete(w: World, s: State, sid: nat)
    requires Inv(w, s) && sid in s.master.sessions && FinishingOf(s.threads, sid) == multiset{}
    ensures sid in s.output
    ensures
      var session, added := s.master.sessions[sid], Added(w, s.aggregated, sid);
      && |s.output[sid]| == session.lineCount == Min(session.maxResults, |added|)
      && multiset(s.output[sid]) <= multiset(added)
      && (|added| <= session.maxResults ==> multiset(s.output[sid]) == multiset(added))
  {
    assert CountersFor(w, s, sid) && OutputFor(w, s, sid);
    NoLinesLeft(s.threads, sid);
    FileIsWhole(s.output[sid], multiset{}, Added(w, s.aggregated, sid));
  }

  /** Part of the answer, and as long: the answer. */
  lemma FileIsWhole(file: seq<Bytes>, rest: multiset<Bytes>, added: seq<Bytes>)
    requires multiset(file) + rest <= multiset(added) && |rest| == 0
    ensures multiset(file) <= multiset(added)
    ensures |file| == |added| ==> multiset(file) == multiset(added)
  {
    assert |multiset(file)| == |file| && |multiset(added)| == |added|;
    if |file| == |added| {
      SameSizeSubMultiset(multiset(file), multiset(added));
    }
  }

  lemma LinesNeedChunk(pc: Pc, sid: nat)
    requires LinesBag(pc, sid) != multiset{}
    ensures FinishingBag(pc, sid) != multiset{}
  {
    assert Chunk(pc.task) in FinishingBag(pc, sid);
  }

  lemma NoLinesLeft(threads: seq<Pc>, sid: nat)
    requires FinishingOf(threads, sid) == multiset{}
    ensures LinesOf(threads, sid) == multiset{}
  {
    forall i | 0 <= i < |threads|
      ensures LinesBag(threads[i], sid) == multiset{}
    {
      FinishingContains(threads, i, sid);
      if LinesBag(threads[i], sid) != multiset{} {
        LinesNeedChunk(threads[i], sid);
      }
    }
    NoLines(threads, sid);
  }

  /** A search of a positive multiple of 2^32 chunks is Done the moment it is
      published, with every chunk pending. */
  lemma DoneTooEarly(w: World, s: State, i: nat, sid: nat)
    requires WorldFits(w) && Inv(w, s) && i < |s.threads| && s.threads[i] == Publishing(sid)
    ensures
      var s' := StepThread(w, s, i);
      var n := |PlanTasks(w, s.requests[sid], sid)|;
      && GetStatus(s'.master, sid).Some? && |TasksOf(s'.master.pending, sid)| == n
      && (GetStatus(s'.master, sid).value.done <==> n % U32 == 0)
  {
    var s' := StepPublish(w, s, i, sid);
    assert s' == StepThread(w, s, i) == Apply(w, s, Step(i));
    InvNext(w, s, Step(i));
    NothingBeforePublish(s, sid);
    StatusCounters(w, s', sid);
    ZeroCast(|PlanTasks(w, s.requests[sid], sid)|);
    FreshPending(w, s, i, sid);
  }

  lemma FreshPending(w: World, s: State, i: nat, sid: nat)
    requires Known(s) && i < |s.threads| && s.threads[i] == Publishing(sid) && sid < |s.requests| && sid !in s.master.sessions
    ensures |TasksOf(StepPublish(w, s, i, sid).master.pending, sid)| == |PlanTasks(w, s.requests[sid], sid)|
  {
    var plan := s.requests[sid];
    var tasks := PlanTasks(w, plan, sid);
    PlanTaskShape(w, plan, sid, plan.names);
    OwnTasksBag(tasks, sid, sid);
    TasksConcat(s.master.pending, tasks, sid);
    NoTasks(s.master.pending, sid);
    assert |multiset(tasks)| == |tasks|;
  }
}
