/** Machine widths: how large a reply can get, and that its 32-bit lengths and
    counters are exact for every file whose lines stay below 2.9 GB. */
module Width {
  import opened Base
  import opened Codec
  import opened LineSearch
  import opened Chunking
  import opened Conservation
  import opened Framing

  /** `LogSearchMsg::Worker_TaskDone`. */
  const TASK_DONE: nat := 2

  const LINE_LIMIT: nat := 2_900_000_000

  /** No line of the data is longer than `limit`. */
  ghost predicate LinesWithin(d: Bytes, limit: nat) {
    forall line :: line in Split(d) ==> |line| <= limit
  }

  /** The bytes of the lines, each with a newline. */
  function Weight(lines: seq<Bytes>): nat {
    if lines == [] then 0 else Weight(lines[..|lines| - 1]) + |lines[|lines| - 1]| + 1
  }

  lemma WeightAppend(lines: seq<Bytes>, line: Bytes)
    ensures Weight(lines + [line]) == Weight(lines) + |line| + 1
  {
    assert (lines + [line])[..|lines|] == lines;
  }

  // ------------------------------------------------------ lines of one chunk

  /** From any position, the rest of its line is no longer than the limit. */
  lemma {:induction false} RestOfLine(d: Bytes, p: nat, limit: nat)
    requires p <= |d| && LinesWithin(d, limit)
    ensures LineEnd(d, p) - p <= limit
    decreases p
  {
    if p < |d| {
      if IsLineStart(d, p) {
        LinesInAreLines(d, p, p + 1);
        assert LinesIn(d, p, p + 1) == [] + [LineAt(d, p)];
        assert LinesIn(d, p, p + 1)[0] == LineAt(d, p);
      } else {
        RestOfLine(d, p - 1, limit);
      }
    }
  }

  /** Where the lines that start before `b` end, newline included. */
  function Reach(d: Bytes, b: nat): nat
    requires b <= |d|
  {
    if IsLineStart(d, b) then b else LineEnd(d, b) + 1
  }

  lemma ReachNext(d: Bytes, b: nat)
    requires b < |d|
    ensures LineEnd(d, b) + 1 <= Reach(d, b + 1)
  {
    LineEndIsNextNewline(d, b);
  }

  lemma {:induction false} WeightUpTo(d: Bytes, a: nat, b: nat)
    requires a <= b <= |d|
    ensures a + Weight(LinesIn(d, a, b)) <= Reach(d, b)
    decreases b
  {
    if a < b {
      var before := LinesIn(d, a, b - 1);
      WeightUpTo(d, a, b - 1);
      ReachNext(d, b - 1);
      if IsLineStart(d, b - 1) {
        WeightAppend(before, LineAt(d, b - 1));
        assert a + Weight(before) <= b - 1;
      } else {
        assert LinesIn(d, a, b) == before;
      }
    } else {
      assert LinesIn(d, a, b) == [];
    }
  }

  /** Lines that start in a chunk exceed it by less than one line. */
  lemma ChunkWeight(d: Bytes, a: nat, b: nat, limit: nat)
    requires LinesWithin(d, limit) && a <= b
    ensures Weight(LinesIn(d, a, b)) <= (b - a) + limit + 1
  {
    if b <= |d| {
      WeightUpTo(d, a, b);
      RestOfLine(d, b, limit);
    } else if a <= |d| {
      RangePastEnd(d, a, b);
      WeightUpTo(d, a, |d|);
    } else {
      NoStarts(d, a, b);
    }
  }

  // --------------------------------------------------------- the reply body

  lemma {:induction false} GrepWeight(rx: Regex, lines: seq<Bytes>)
    ensures Weight(Grep(rx, lines)) <= Weight(lines)
    decreases |lines|
  {
    if lines != [] {
      var init, last := SplitLast(lines);
      GrepWeight(rx, init);
      WeightAppend(Grep(rx, init), StripCr(last));
      assert Grep(rx, init) + [] == Grep(rx, init);
    }
  }

  lemma {:induction false} TakeWeight(lines: seq<Bytes>, n: nat)
    requires n <= |lines|
    ensures Weight(lines[..n]) <= Weight(lines)
    decreases |lines|
  {
    if n < |lines| {
      var init := lines[..|lines| - 1];
      TakeWeight(init, n);
      assert init[..n] == lines[..n];
    } else {
      assert lines[..n] == lines;
    }
  }

  /** A formatted line costs its length field, the file name and a separator. */
  lemma {:induction false} EncodedSize(name: Bytes, matches: seq<Bytes>)
    requires |name| < FILENAME_FIELD
    ensures |EncodeLines(FormatAll(name, matches))| <= 260 * |matches| + Weight(matches)
    decreases |matches|
  {
    if matches != [] {
      var init, last := SplitLast(matches);
      EncodedSize(name, init);
      FormatConcat(name, init, [last]);
      EncodeLinesAppend(FormatAll(name, init), FormatAll(name, [last]));
      assert FormatAll(name, [last]) == [Format(name, last)];
      assert EncodeLines([Format(name, last)]) == EncodeLine(Format(name, last)) + [];
    }
  }

  /** A Worker's answer counts at most one line per byte of its chunk, and its
      body is bounded by the chunk size and the longest line. */
  lemma ReplySize(w: World, task: Task, limit: nat)
    requires TaskFits(task)
    requires task.filename in w.files ==> LinesWithin(w.files[task.filename], limit)
    ensures ResultOf(w, task).linesFound <= ResultOf(w, task).totalMatches <= CHUNK_SIZE
    ensures |EncodeBatch(ResultOf(w, task))| <= 261 * CHUNK_SIZE + limit + 29
  {
    if task.filename in w.files {
      var d, rx := w.files[task.filename], w.compile(task.keyword);
      var lines := LinesIn(d, task.start, task.end);
      var matches := Grep(rx, lines);
      var kept := Take(matches, task.maxResults);
      if task.start <= task.end {
        ChunkWeight(d, task.start, task.end, limit);
      }
      GrepWeight(rx, lines);
      TakeWeight(matches, |kept|);
      EncodedSize(task.filename, kept);
      assert ResultOf(w, task).lines == FormatAll(task.filename, kept);
    }
  }

  /** All lines of all files stay below the limit. */
  ghost predicate ShortLines(w: World) {
    forall name :: name in w.files ==> LinesWithin(w.files[name], LINE_LIMIT)
  }

  lemma ShortLinesFit(w: World)
    requires ShortLines(w)
    ensures WorldFits(w)
  {
  }

  /** A reply comes back from the wire format as it was. */
  lemma ReplyRoundTrip(w: World, task: Task)
    requires WorldFits(w) && TaskFits(task) && task.taskId < U64
    ensures
      var body := EncodeBatch(ResultOf(w, task));
      && PopTaskId(body).Some? && PopTaskId(body).value.0 == task.taskId
      && DecodeBatch(PopTaskId(body).value.1) == Batch(ResultOf(w, task).(taskId := 0))
  {
    ResultLinesFit(w, task);
    BatchRoundTrip(ResultOf(w, task));
  }

  lemma HeaderExact(body: Bytes)
    requires |body| <= 261 * CHUNK_SIZE + LINE_LIMIT + 29
    ensures WellFormed(Packet(TASK_DONE, |body| % U32, body)) && Short(Packet(TASK_DONE, |body| % U32, body))
  {
  }

  lemma PlannedTaskFits(w: World, plan: Plan, searchId: nat, task: Task, taskId: nat)
    requires task in PlanTasks(w, plan, searchId) && searchId < U64
    ensures TaskFits(task.(taskId := taskId))
  {
    PlanTaskShape(w, plan, searchId, plan.names);
  }

  ghost predicate RepliesExactly(w: World, task: Task) {
    var body := EncodeBatch(ResultOf(w, task));
    && WellFormed(Packet(TASK_DONE, |body| % U32, body)) && Short(Packet(TASK_DONE, |body| % U32, body))
    && PopTaskId(body).Some? && PopTaskId(body).value.0 == task.taskId
    && DecodeBatch(PopTaskId(body).value.1) == Batch(ResultOf(w, task).(taskId := 0))
  }

  /** With lines below 2.9 GB every 32-bit field of every reply to a planned task
      is exact: the header carries the true body size, and the body decodes to
      the result. */
  lemma RepliesFit(w: World, plan: Plan, searchId: nat, task: Task, taskId: nat)
    requires ShortLines(w) && task in PlanTasks(w, plan, searchId) && searchId < U64 && taskId < U64
    ensures RepliesExactly(w, task.(taskId := taskId))
  {
    PlannedTaskFits(w, plan, searchId, task, taskId);
    ShortLinesFit(w);
    ReplySize(w, task.(taskId := taskId), LINE_LIMIT);
    HeaderExact(EncodeBatch(ResultOf(w, task.(taskId := taskId))));
    ReplyRoundTrip(w, task.(taskId := taskId));
  }
}
