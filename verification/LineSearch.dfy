/** What one Worker does with one chunk: `FileProcessor::SearchTask`, proved
    against the plain line-by-line reading of the file. */
module LineSearch {
  import opened Base
  import opened Codec

  const NEWLINE: Byte := 10
  const CARRIAGE_RETURN: Byte := 13
  const SEPARATOR: Bytes := [58, 32] // ": "

  /** A compiled `std::regex`, or the compile error. */
  datatype Regex = Invalid | Valid(search: Bytes -> bool)

  predicate LineMatches(rx: Regex, line: Bytes) {
    rx.Valid? && rx.search(line)
  }

  // ------------------------------------------------- the reference reading

  /** End of the line that starts at `p`: the next newline, or the end of data. */
  function LineEnd(d: Bytes, p: nat): (e: nat)
    requires p <= |d|
    ensures p <= e <= |d|
    decreases |d| - p
  {
    if p == |d| || d[p] == NEWLINE then p else LineEnd(d, p + 1)
  }

  lemma {:induction false} LineEndIsNextNewline(d: Bytes, p: nat)
    requires p <= |d|
    ensures forall k :: p <= k < LineEnd(d, p) ==> d[k] != NEWLINE
    ensures LineEnd(d, p) < |d| ==> d[LineEnd(d, p)] == NEWLINE
    decreases |d| - p
  {
    if p < |d| && d[p] != NEWLINE {
      LineEndIsNextNewline(d, p + 1);
    }
  }

  /** The whole file as lines, the way a sequential reader sees it: newlines
      separate, and a newline at the very end adds no empty line. */
  function Split(d: Bytes): seq<Bytes> {
    if d == [] then []
    else
      var e := LineEnd(d, 0);
      if e == |d| then [d] else [d[..e]] + Split(d[e + 1..])
  }

  function StripCr(line: Bytes): Bytes {
    if line != [] && line[|line| - 1] == CARRIAGE_RETURN then line[..|line| - 1] else line
  }

  /** The matching lines, in order, without their carriage returns. */
  function Grep(rx: Regex, lines: seq<Bytes>): (r: seq<Bytes>)
    ensures |r| <= |lines|
  {
    if lines == [] then []
    else
      var line := StripCr(lines[|lines| - 1]);
      Grep(rx, lines[..|lines| - 1]) + if LineMatches(rx, line) then [line] else []
  }

  function Format(name: Bytes, line: Bytes): Bytes {
    name + SEPARATOR + line
  }

  function FormatAll(name: Bytes, lines: seq<Bytes>): (r: seq<Bytes>)
    ensures |r| == |lines|
    ensures forall i :: 0 <= i < |r| ==> r[i] == Format(name, lines[i])
  {
    seq(|lines|, i requires 0 <= i < |lines| => Format(name, lines[i]))
  }

  /** Writing every line followed by a newline. */
  function Unlines(lines: seq<Bytes>): Bytes {
    if lines == [] then [] else lines[0] + [NEWLINE] + Unlines(lines[1..])
  }

  /** The data with a newline added if its last line has none. */
  function Terminated(d: Bytes): Bytes {
    if d == [] || d[|d| - 1] == NEWLINE then d else d + [NEWLINE]
  }

  lemma TerminatedFront(line: Bytes, rest: Bytes)
    ensures Terminated(line + [NEWLINE] + rest) == line + [NEWLINE] + Terminated(rest)
  {
    if rest == [] {
      assert line + [NEWLINE] + rest == line + [NEWLINE];
    } else {
      assert line + [NEWLINE] + (rest + [NEWLINE]) == line + [NEWLINE] + rest + [NEWLINE];
    }
  }

  lemma JoinFront(line: Bytes, lines: seq<Bytes>, rest: Bytes)
    requires Unlines(lines) == Terminated(rest)
    ensures Unlines([line] + lines) == Terminated(line + [NEWLINE] + rest)
  {
    assert ([line] + lines)[1..] == lines;
    TerminatedFront(line, rest);
  }

  lemma JoinLast(line: Bytes)
    requires line != [] && NEWLINE !in line
    ensures Unlines([line]) == Terminated(line)
  {
    assert Unlines([line]) == line + [NEWLINE] + Unlines([]);
  }

  lemma CutAt(d: Bytes, e: nat)
    requires e < |d| && d[e] == NEWLINE
    ensures d[..e] + [NEWLINE] + d[e + 1..] == d
  {
  }

  /** `Split` loses nothing: joining its lines gives the file back. */
  lemma {:induction false} SplitIsFaithful(d: Bytes)
    ensures Unlines(Split(d)) == Terminated(d)
    decreases |d|
  {
    if d != [] {
      var e := LineEnd(d, 0);
      LineEndIsNextNewline(d, 0);
      if e == |d| {
        JoinLast(d);
      } else {
        var rest := d[e + 1..];
        SplitIsFaithful(rest);
        CutAt(d, e);
        JoinFront(d[..e], Split(rest), rest);
      }
    }
  }

  lemma {:induction false} SplitHasNoNewline(d: Bytes)
    ensures forall line :: line in Split(d) ==> NEWLINE !in line
    decreases |d|
  {
    LineEndIsNextNewline(d, 0);
    if d != [] && LineEnd(d, 0) < |d| {
      SplitHasNoNewline(d[LineEnd(d, 0) + 1..]);
    }
  }

  // -------------------------------------------- lines owned by a byte range

  /** Byte `p` is the first byte of a line. */
  predicate IsLineStart(d: Bytes, p: nat) {
    p < |d| && (p == 0 || d[p - 1] == NEWLINE)
  }

  function LineAt(d: Bytes, p: nat): Bytes
    requires p <= |d|
  {
    d[p..LineEnd(d, p)]
  }

  /** The lines whose first byte lies in `[a, b)`, in file order. */
  function LinesIn(d: Bytes, a: nat, b: nat): (r: seq<Bytes>)
    ensures a <= b ==> |r| <= b - a
    decreases b
  {
    if b <= a then []
    else LinesIn(d, a, b - 1) + if IsLineStart(d, b - 1) then [LineAt(d, b - 1)] else []
  }

  lemma {:induction false} LinesInConcat(d: Bytes, a: nat, b: nat, c: nat)
    requires a <= b <= c
    ensures LinesIn(d, a, c) == LinesIn(d, a, b) + LinesIn(d, b, c)
    decreases c
  {
    if b < c {
      LinesInConcat(d, a, b, c - 1);
    }
  }

  /** A range with no line start in it owns no line. */
  lemma {:induction false} NoStarts(d: Bytes, a: nat, b: nat)
    requires forall p :: a <= p < b ==> !IsLineStart(d, p)
    ensures LinesIn(d, a, b) == []
    decreases b
  {
    if a < b {
      NoStarts(d, a, b - 1);
    }
  }

  /** Between a line start and the byte after its newline there is one line. */
  lemma OneLine(d: Bytes, p: nat, q: nat)
    requires IsLineStart(d, p) && p < q <= LineEnd(d, p) + 1
    ensures LinesIn(d, p, q) == [LineAt(d, p)]
  {
    LineEndIsNextNewline(d, p);
    LinesInConcat(d, p, p + 1, q);
    NoStarts(d, p + 1, q);
    assert LinesIn(d, p, p + 1) == LinesIn(d, p, p) + [LineAt(d, p)];
  }

  lemma {:induction false} LineEndShift(d: Bytes, p: nat, k: nat)
    requires p + k <= |d|
    ensures LineEnd(d[p..], k) + p == LineEnd(d, p + k)
    decreases |d| - k
  {
    if p + k < |d| && d[p + k] != NEWLINE {
      LineEndShift(d, p, k + 1);
    }
  }

  /** `Split` of a suffix, in positions of the whole file. */
  lemma SplitSuffix(d: Bytes, p: nat)
    requires p < |d|
    ensures LineEnd(d, p) == |d| ==> Split(d[p..]) == [LineAt(d, p)]
    ensures LineEnd(d, p) < |d| ==> Split(d[p..]) == [LineAt(d, p)] + Split(d[LineEnd(d, p) + 1..])
  {
    var e, s := LineEnd(d, p), d[p..];
    LineEndShift(d, p, 0);
    assert LineEnd(s, 0) == e - p && s[..e - p] == LineAt(d, p);
    if e < |d| {
      assert s[e - p + 1..] == d[e + 1..];
    } else {
      assert s[..e - p] == s;
    }
  }

  /** The same step for the lines counted by their first bytes. */
  lemma LinesInSuffix(d: Bytes, p: nat)
    requires IsLineStart(d, p)
    ensures LineEnd(d, p) == |d| ==> LinesIn(d, p, |d|) == [LineAt(d, p)]
    ensures LineEnd(d, p) < |d| ==>
      LinesIn(d, p, |d|) == [LineAt(d, p)] + LinesIn(d, LineEnd(d, p) + 1, |d|)
  {
    var e := LineEnd(d, p);
    if e == |d| {
      OneLine(d, p, e);
    } else {
      OneLine(d, p, e + 1);
      LinesInConcat(d, p, e + 1, |d|);
    }
  }

  /** Read position by position, the rest of a file is the rest of its lines. */
  lemma {:induction false} SuffixLines(d: Bytes, p: nat)
    requires IsLineStart(d, p) || p == |d|
    ensures LinesIn(d, p, |d|) == Split(d[p..])
    decreases |d| - p
  {
    if p < |d| {
      SplitSuffix(d, p);
      LinesInSuffix(d, p);
      var e := LineEnd(d, p);
      if e < |d| {
        LineEndIsNextNewline(d, p);
        SuffixLines(d, e + 1);
      }
    }
  }

  /** The lines owned by the whole byte range are the lines of the file. */
  lemma WholeFileLines(d: Bytes)
    ensures LinesIn(d, 0, |d|) == Split(d)
  {
    SuffixLines(d, 0);
    assert d[0..] == d;
  }

  lemma {:induction false} GrepConcat(rx: Regex, a: seq<Bytes>, b: seq<Bytes>)
    ensures Grep(rx, a + b) == Grep(rx, a) + Grep(rx, b)
    decreases |b|
  {
    if b == [] {
      assert a + b == a;
    } else {
      var init, last := SplitLast(b);
      GrepConcat(rx, a, init);
      ConcatAssoc(a, init, [last]);
      GrepAppend(rx, a + init, last);
      GrepAppend(rx, init, last);
      ConcatAssoc(Grep(rx, a), Grep(rx, init), Grep(rx, [last]));
    }
  }

  lemma GrepAppend(rx: Regex, lines: seq<Bytes>, line: Bytes)
    ensures Grep(rx, lines + [line]) == Grep(rx, lines) + Grep(rx, [line])
  {
    assert (lines + [line])[..|lines|] == lines;
    assert [line][..0] == [];
  }

  // ---------------------------------------------------------- input stream

  /** The part of `std::ifstream` that the search uses, with its state bits. */
  class InputStream {
    const data: Bytes
    var pos: nat
    var eof: bool
    var fail: bool

    constructor (data: Bytes)
      ensures this.data == data && pos == 0 && !eof && !fail
    {
      this.data := data;
      pos, eof, fail := 0, false, false;
    }

    ghost predicate Good()
      reads this
    {
      !eof && !fail
    }

    method Seek(p: nat)
      modifies this
      ensures fail == old(fail) && !eof
      ensures pos == if fail then old(pos) else p
    {
      eof := false;
      if !fail { pos := p; }
    }

    method Get() returns (c: Option<Byte>)
      modifies this
      ensures old(Good()) && old(pos) < |data| ==> Good() && c == Some(data[old(pos)]) && pos == old(pos) + 1
      ensures !(old(Good()) && old(pos) < |data|) ==> c.None? && fail && pos == old(pos)
    {
      if eof || fail {
        fail := true;
        return None;
      }
      if pos >= |data| {
        eof, fail := true, true;
        return None;
      }
      c := Some(data[pos]);
      pos := pos + 1;
    }

    /** `std::getline`: stops after a newline, or at the end of the data, where
        it sets the end bit and fails only if it extracted nothing. */
    method GetLine() returns (line: Option<Bytes>)
      modifies this
      ensures old(Good()) && old(pos) < |data| ==>
        && line == Some(LineAt(data, old(pos))) && !fail
        && (eof <==> LineEnd(data, old(pos)) == |data|)
        && (!eof ==> pos == LineEnd(data, old(pos)) + 1)
      ensures !(old(Good()) && old(pos) < |data|) ==> line.None? && fail
    {
      if eof || fail {
        fail := true;
        return None;
      }
      if pos >= |data| {
        eof, fail := true, true;
        return None;
      }
      var start := pos;
      var end := start;
      while end < |data| && data[end] != NEWLINE
        invariant start <= end <= |data|
        invariant LineEnd(data, end) == LineEnd(data, start)
      {
        end := end + 1;
      }
      line := Some(data[start..end]);
      if end == |data| {
        pos, eof := end, true;
      } else {
        pos := end + 1;
      }
    }

    /** `tellg` cast to `uint64_t`: -1, hence the largest value, once a state bit
        is set (its sentry then sets the fail bit too). */
    method Tell() returns (p: nat)
      modifies this
      ensures pos == old(pos)
      ensures old(Good()) ==> Good() && p == pos
      ensures !old(Good()) ==> fail && p == U64 - 1
    {
      if eof || fail {
        fail := true;
        return U64 - 1;
      }
      return pos;
    }
  }

  // ------------------------------------------------------------ SearchTask

  datatype Task = Task(
    searchId: nat,
    taskId: nat,
    maxResults: nat,
    start: nat,
    end: nat,
    keyword: Bytes,
    filename: Bytes
  )

  const EMPTY_RESULT := ChunkResult([], 0, 0, 0, 0)

  /** The matches among the lines that a byte range owns. */
  function MatchesIn(rx: Regex, d: Bytes, a: nat, b: nat): seq<Bytes> {
    Grep(rx, LinesIn(d, a, b))
  }

  /** The batch a chunk must produce: all its matches counted, the first `cap`
      of them formatted. */
  function BatchOf(name: Bytes, matches: seq<Bytes>, cap: nat): ChunkResult {
    var lines := FormatAll(name, Take(matches, cap));
    ChunkResult(lines, 0, 0, |matches|, |lines|)
  }

  /** The result of a task: nothing if the file cannot be opened or the keyword
      is not a regular expression. */
  function TaskResult(file: Option<Bytes>, rx: Regex, task: Task): ChunkResult {
    match file
    case None => EMPTY_RESULT
    case Some(d) => BatchOf(task.filename, MatchesIn(rx, d, task.start, task.end), task.maxResults)
  }

  /** First position from `a` on that begins a line, or the end of the data. */
  lemma Realigned(d: Bytes, a: nat, next: nat)
    requires 0 < a <= |d|
    requires d[a - 1] != NEWLINE
    requires next == LineEnd(d, a) + 1 || (next == |d| && LineEnd(d, a) == |d|)
    ensures LinesIn(d, a, next) == []
  {
    LineEndIsNextNewline(d, a);
    NoStarts(d, a, next);
  }

  /** The opening of `SearchTask`: step over the line that began in an earlier
      chunk. */
  method Realign(file: InputStream, start: nat) returns (currentPos: nat)
    requires file.pos == 0 && file.Good()
    requires start <= |file.data| < U64 - 1
    modifies file
    ensures file.Good() ==>
      && start <= file.pos == currentPos <= |file.data|
      && (file.pos == |file.data| || IsLineStart(file.data, file.pos))
      && LinesIn(file.data, start, file.pos) == []
    ensures !file.Good() ==> currentPos == U64 - 1 && LinesIn(file.data, start, |file.data|) == []
  {
    var d := file.data;
    file.Seek(start);
    if start != 0 {
      file.Seek(start - 1);
      var prev := file.Get();
      if prev != Some(NEWLINE) {
        LineEndIsNextNewline(d, start);
        var dummy := file.GetLine();
        if file.fail || file.eof {
          NoStarts(d, start, |d|);
        } else {
          Realigned(d, start, file.pos);
        }
      }
    }
    currentPos := file.Tell();
  }

  /** Nothing starts past the end of the data. */
  lemma RangePastEnd(d: Bytes, a: nat, b: nat)
    requires a <= |d| <= b
    ensures LinesIn(d, a, b) == LinesIn(d, a, |d|)
  {
    LinesInConcat(d, a, |d|, b);
    NoStarts(d, |d|, b);
  }

  /** One turn of the search loop on the line at `p`. */
  lemma ScanOne(rx: Regex, d: Bytes, a: nat, p: nat, q: nat)
    requires a <= p && IsLineStart(d, p) && p < q <= LineEnd(d, p) + 1
    ensures
      var line := StripCr(LineAt(d, p));
      MatchesIn(rx, d, a, q) == MatchesIn(rx, d, a, p) + if LineMatches(rx, line) then [line] else []
  {
    LinesInConcat(d, a, p, q);
    OneLine(d, p, q);
    GrepConcat(rx, LinesIn(d, a, p), [LineAt(d, p)]);
    assert [LineAt(d, p)][..0] == [];
  }

  /** Adding one match to a capped batch. */
  lemma BatchGrows(name: Bytes, matches: seq<Bytes>, line: Bytes, cap: nat)
    ensures
      var before, after := BatchOf(name, matches, cap), BatchOf(name, matches + [line], cap);
      && after.totalMatches == before.totalMatches + 1
      && after.lines == (if before.linesFound < cap then before.lines + [Format(name, line)] else before.lines)
  {
    if |matches| < cap {
      assert Take(matches + [line], cap) == matches + [line] && Take(matches, cap) == matches;
    } else {
      assert Take(matches + [line], cap) == Take(matches, cap);
    }
  }

  /** What the search loop has accumulated when it has scanned up to `upTo`. */
  ghost predicate Accumulated(batch: ChunkResult, d: Bytes, rx: Regex, task: Task, upTo: nat) {
    |LinesIn(d, task.start, task.end)| < U32 ==>
      batch == BatchOf(task.filename, MatchesIn(rx, d, task.start, Min(upTo, task.end)), task.maxResults)
  }

  /** A range that owns no line has no shorter range that does. */
  lemma NothingYet(d: Bytes, rx: Regex, task: Task, upTo: nat)
    requires LinesIn(d, task.start, upTo) == []
    ensures Accumulated(EMPTY_RESULT, d, rx, task, upTo)
  {
    if task.start <= task.end < upTo {
      LinesInConcat(d, task.start, task.end, upTo);
    }
    assert EMPTY_RESULT == BatchOf(task.filename, [], task.maxResults);
  }

  /** A scan that reached the end of the data has seen the whole range. */
  lemma ScanComplete(batch: ChunkResult, d: Bytes, rx: Regex, task: Task, upTo: nat)
    requires task.start <= |d|
    requires Accumulated(batch, d, rx, task, upTo) && (task.end <= upTo || upTo == |d|)
    ensures |LinesIn(d, task.start, task.end)| < U32 ==> batch == TaskResult(Some(d), rx, task)
  {
    if upTo < task.end {
      RangePastEnd(d, task.start, task.end);
    }
  }

  /** The matches up to a position inside the range are fewer than its lines. */
  lemma MatchesBounded(rx: Regex, d: Bytes, task: Task, q: nat)
    requires task.start <= q <= task.end
    ensures |MatchesIn(rx, d, task.start, q)| <= |LinesIn(d, task.start, task.end)|
  {
    LinesInConcat(d, task.start, q, task.end);
  }

  /** The body of the search loop: `batch.lines_found` is 32 bits wide. */
  method AddMatch(batch: ChunkResult, task: Task, line: Bytes, ghost matches: seq<Bytes>) returns (r: ChunkResult)
    ensures batch == BatchOf(task.filename, matches, task.maxResults) && |matches| + 1 < U32 ==>
      r == BatchOf(task.filename, matches + [line], task.maxResults)
  {
    r := batch;
    if batch.linesFound < task.maxResults {
      r := r.(lines := r.lines + [Format(task.filename, line)], linesFound := (r.linesFound + 1) % U32);
    }
    r := r.(totalMatches := (r.totalMatches + 1) % U64);
    BatchGrows(task.filename, matches, line, task.maxResults);
  }

  method SearchLine(batch: ChunkResult, rx: Regex, task: Task, line: Bytes, ghost d: Bytes, ghost p: nat, ghost next: nat)
    returns (r: ChunkResult)
    requires rx.Valid? && IsLineStart(d, p) && task.start <= p < task.end
    requires p < next <= LineEnd(d, p) + 1 && line == LineAt(d, p)
    requires Accumulated(batch, d, rx, task, p)
    ensures Accumulated(r, d, rx, task, next)
  {
    var text := StripCr(line);
    ghost var q := Min(next, task.end);
    ScanOne(rx, d, task.start, p, q);
    MatchesBounded(rx, d, task, q);
    r := batch;
    if rx.search(text) {
      r := AddMatch(batch, task, text, MatchesIn(rx, d, task.start, p));
    }
  }

  /** The loop of `SearchTask`, on a stream standing at a line start. */
  method ScanLines(file: InputStream, rx: Regex, task: Task, from: nat) returns (batch: ChunkResult)
    requires rx.Valid? && file.Good() && task.start <= file.pos == from <= |file.data| < U64 - 1
    requires from == |file.data| || IsLineStart(file.data, from)
    requires LinesIn(file.data, task.start, from) == []
    modifies file
    ensures |LinesIn(file.data, task.start, task.end)| < U32 ==> batch == TaskResult(Some(file.data), rx, task)
  {
    var d := file.data;
    batch := EMPTY_RESULT;
    var currentPos := from;
    NothingYet(d, rx, task, from);
    while currentPos < task.end
      invariant file.Good() && task.start <= file.pos == currentPos <= |d|
      invariant currentPos == |d| || IsLineStart(d, currentPos)
      invariant Accumulated(batch, d, rx, task, currentPos)
      decreases |d| - currentPos
    {
      var line := file.GetLine();
      if line.None? {
        break;
      }
      LineEndIsNextNewline(d, currentPos);
      ghost var next := Min(LineEnd(d, currentPos) + 1, |d|);
      batch := SearchLine(batch, rx, task, line.value, d, currentPos, next);
      var pos := file.Tell();
      if pos == U64 - 1 {
        ScanComplete(batch, d, rx, task, next);
        return;
      }
      currentPos := pos;
    }
    ScanComplete(batch, d, rx, task, currentPos);
  }

  /** `FileProcessor::SearchTask`. The 32-bit line counter wraps, so the result
      is as specified whenever fewer than 2^32 lines start in the range. */
  method SearchTask(source: Option<Bytes>, rx: Regex, task: Task) returns (batch: ChunkResult)
    requires source.Some? ==> task.start <= |source.value| < U64 - 1
    requires task.end < U64
    ensures
      var n := if source.Some? then |LinesIn(source.value, task.start, task.end)| else 0;
      n < U32 ==> batch == TaskResult(source, rx, task)
  {
    if source.None? {
      return EMPTY_RESULT;
    }
    var d := source.value;
    var file := new InputStream(d);
    var currentPos := Realign(file, task.start);
    if rx.Invalid? {
      GrepInvalid(LinesIn(d, task.start, task.end));
      return EMPTY_RESULT;
    }
    if currentPos < task.end {
      batch := ScanLines(file, rx, task, currentPos);
    } else {
      batch := EMPTY_RESULT;
      ghost var upTo := if file.Good() then currentPos else |d|;
      NothingYet(d, rx, task, upTo);
      ScanComplete(batch, d, rx, task, upTo);
    }
  }

  lemma {:induction false} GrepInvalid(lines: seq<Bytes>)
    ensures Grep(Invalid, lines) == []
  {
    if lines != [] {
      GrepInvalid(lines[..|lines| - 1]);
    }
  }
}
