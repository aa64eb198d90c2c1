/** Log files as lines of text, and the search of a chunk in these terms. Nothing
    here speaks of the functions that the search is built from: what a line is,
    where its text ends and which lines are found is written out in bytes. */
module Text {
  import opened Base
  import opened Codec
  import opened LineSearch

  /** A line of text, and whether a carriage return ends it. */
  datatype Line = Line(text: Bytes, cr: bool)

  /** Lines that end with a newline, and one at the very end that does not. */
  datatype TextFile = TextFile(lines: seq<Line>, last: Option<Line>)

  function Raw(line: Line): Bytes {
    line.text + if line.cr then [13] else []
  }

  /** No newline within; of carriage returns at the end, one is not text. */
  predicate IsLine(line: Line) {
    && 10 !in line.text
    && (!line.cr && line.text != [] ==> line.text[|line.text| - 1] != 13)
  }

  predicate IsText(f: TextFile) {
    && (forall i :: 0 <= i < |f.lines| ==> IsLine(f.lines[i]))
    && (f.last.Some? ==> IsLine(f.last.value) && Raw(f.last.value) != [])
  }

  function Lines(f: TextFile): seq<Line> {
    f.lines + if f.last.Some? then [f.last.value] else []
  }

  /** The bytes of the file. */
  function Contents(f: TextFile): Bytes
    decreases |f.lines|
  {
    if f.lines != [] then Raw(f.lines[0]) + [10] + Contents(f.(lines := f.lines[1..]))
    else if f.last.Some? then Raw(f.last.value)
    else []
  }

  /** The texts on which the regular expression matches, in order. */
  function Hits(rx: Regex, lines: seq<Line>): seq<Bytes> {
    if lines == [] then []
    else
      var text := lines[|lines| - 1].text;
      Hits(rx, lines[..|lines| - 1]) + if rx.Valid? && rx.search(text) then [text] else []
  }

  /** A line as it is reported: the file's name, a colon, a blank, its text. */
  function Shown(name: Bytes, texts: seq<Bytes>): (r: seq<Bytes>)
    ensures |r| == |texts|
  {
    seq(|texts|, i requires 0 <= i < |texts| => name + [58, 32] + texts[i])
  }

  // ------------------------------------------------------- whole files

  lemma {:induction false} EndOfLine(d: Bytes, p: nat, e: nat)
    requires p <= e <= |d| && (forall k :: p <= k < e ==> d[k] != 10) && (e < |d| ==> d[e] == 10)
    ensures LineEnd(d, p) == e
    decreases e - p
  {
    if p < e {
      EndOfLine(d, p + 1, e);
    }
  }

  /** A line without its carriage return is its text. */
  lemma TextOfLine(line: Line)
    requires IsLine(line)
    ensures StripCr(Raw(line)) == line.text && 10 !in Raw(line)
  {
    if line.cr {
      assert Raw(line)[..|Raw(line)| - 1] == line.text;
    }
  }

  function Raws(lines: seq<Line>): (r: seq<Bytes>)
    ensures |r| == |lines|
    ensures forall i :: 0 <= i < |r| ==> r[i] == Raw(lines[i])
  {
    seq(|lines|, i requires 0 <= i < |lines| => Raw(lines[i]))
  }

  ghost predicate AreLines(lines: seq<Line>) {
    forall i :: 0 <= i < |lines| ==> IsLine(lines[i])
  }

  lemma {:induction false} GrepOfLines(rx: Regex, lines: seq<Line>)
    requires AreLines(lines)
    ensures Grep(rx, Raws(lines)) == Hits(rx, lines)
    decreases |lines|
  {
    if lines != [] {
      var init, last := SplitLast(lines);
      GrepOfLines(rx, init);
      assert Raws(lines)[..|lines| - 1] == Raws(init);
      TextOfLine(last);
    }
  }

  /** The first line of a file that has a line with a newline. */
  lemma FirstLine(f: TextFile)
    requires IsText(f) && f.lines != []
    ensures
      var d, e := Contents(f), |Raw(f.lines[0])|;
      && e < |d| && LineEnd(d, 0) == e && d[..e] == Raw(f.lines[0])
      && d[e + 1..] == Contents(f.(lines := f.lines[1..])) && IsText(f.(lines := f.lines[1..]))
  {
    var d, e := Contents(f), |Raw(f.lines[0])|;
    TextOfLine(f.lines[0]);
    assert d[..e] == Raw(f.lines[0]);
    assert forall k :: 0 <= k < e ==> d[k] == Raw(f.lines[0])[k];
    EndOfLine(d, 0, e);
  }

  lemma LinesCons(f: TextFile)
    requires f.lines != []
    ensures Lines(f) == [f.lines[0]] + Lines(f.(lines := f.lines[1..]))
    ensures Raws(Lines(f)) == [Raw(f.lines[0])] + Raws(Lines(f.(lines := f.lines[1..])))
  {
  }

  /** The reference reading splits a text into its lines. */
  lemma {:induction false} SplitOfText(f: TextFile)
    requires IsText(f)
    ensures Split(Contents(f)) == Raws(Lines(f))
    decreases |f.lines|
  {
    if f.lines != [] {
      FirstLine(f);
      SplitOfText(f.(lines := f.lines[1..]));
      LinesCons(f);
    } else if f.last.Some? {
      var d := Contents(f);
      TextOfLine(f.last.value);
      EndOfLine(d, 0, |d|);
    }
  }

  /** The matching lines of a file are the texts that match, in order. */
  lemma GrepOfText(rx: Regex, f: TextFile)
    requires IsText(f)
    ensures Grep(rx, Split(Contents(f))) == Hits(rx, Lines(f))
  {
    SplitOfText(f);
    GrepOfLines(rx, Lines(f));
  }

  function AsLine(raw: Bytes): (line: Line)
    requires 10 !in raw
    ensures IsLine(line) && Raw(line) == raw
  {
    if raw != [] && raw[|raw| - 1] == 13 then Line(raw[..|raw| - 1], true) else Line(raw, false)
  }

  /** Every file is a text. */
  lemma {:induction false} EveryFileIsText(d: Bytes) returns (f: TextFile)
    ensures IsText(f) && Contents(f) == d
    decreases |d|
  {
    var e := LineEnd(d, 0);
    LineEndIsNextNewline(d, 0);
    if d == [] {
      f := TextFile([], None);
    } else if e == |d| {
      f := TextFile([], Some(AsLine(d)));
    } else {
      var rest := EveryFileIsText(d[e + 1..]);
      f := rest.(lines := [AsLine(d[..e])] + rest.lines);
      assert f.lines[1..] == rest.lines && rest == f.(lines := rest.lines);
      assert d == d[..e] + [10] + d[e + 1..];
    }
  }

  // ------------------------------------------------------------ one chunk

  /** The lines whose first byte lies in `[a, b)`, when the first of them stands
      at `at` and each is followed by one byte more. */
  function Starting(lines: seq<Line>, at: nat, a: nat, b: nat): seq<Line> {
    if lines == [] then []
    else (if a <= at < b then [lines[0]] else []) + Starting(lines[1..], at + |Raw(lines[0])| + 1, a, b)
  }

  lemma {:induction false} StartingSub(lines: seq<Line>, at: nat, a: nat, b: nat)
    ensures AreLines(lines) ==> AreLines(Starting(lines, at, a, b))
    ensures b <= at ==> Starting(lines, at, a, b) == []
    decreases |lines|
  {
    if lines != [] {
      StartingSub(lines[1..], at + |Raw(lines[0])| + 1, a, b);
    }
  }

  /** The lines of a text that stands at the end of the data `d`. */
  ghost predicate EndsWith(d: Bytes, at: nat, f: TextFile) {
    && at <= |d| && d[at..] == Contents(f) && IsText(f)
    && (at == |d| || IsLineStart(d, at))
  }

  /** One line further. */
  lemma EndsWithNext(d: Bytes, at: nat, f: TextFile)
    requires EndsWith(d, at, f) && f.lines != []
    ensures
      var next := at + |Raw(f.lines[0])| + 1;
      && IsLineStart(d, at) && next == LineEnd(d, at) + 1 <= |d| && LineAt(d, at) == Raw(f.lines[0])
      && EndsWith(d, next, f.(lines := f.lines[1..]))
  {
    FirstLine(f);
    LineEndShift(d, at, 0);
    LineEndIsNextNewline(d, at);
    var e := |Raw(f.lines[0])|;
    assert d[at..][..e] == d[at..at + e] && d[at..][e + 1..] == d[at + e + 1..];
  }

  /** What one line contributes to the lines of a range. */
  lemma RangeStep(d: Bytes, at: nat, next: nat, a: nat, b: nat)
    requires IsLineStart(d, at) && next == LineEnd(d, at) + 1
    ensures
      var lo := if a < at then at else a;
      var lo' := if a < next then next else a;
      LinesIn(d, lo, b) == (if a <= at < b then [LineAt(d, at)] else []) + LinesIn(d, lo', b)
  {
    var lo := if a < at then at else a;
    var lo' := if a < next then next else a;
    LineEndIsNextNewline(d, at);
    if lo < b {
      var mid := Min(lo', b);
      LinesInConcat(d, lo, mid, b);
      if a <= at {
        OneLine(d, at, mid);
      } else {
        NoStarts(d, lo, mid);
      }
    }
  }

  lemma {:induction false} LinesInOfText(d: Bytes, at: nat, f: TextFile, a: nat, b: nat)
    requires EndsWith(d, at, f)
    ensures LinesIn(d, if a < at then at else a, b) == Raws(Starting(Lines(f), at, a, b))
    decreases |f.lines|
  {
    if f.lines != [] {
      EndsWithNext(d, at, f);
      LinesInOfText(d, at + |Raw(f.lines[0])| + 1, f.(lines := f.lines[1..]), a, b);
      OneMoreLine(d, at, f, a, b);
    } else if f.last.None? {
      NoStarts(d, if a < at then at else a, b);
    } else {
      LastLineOfText(d, at, f, a, b);
    }
  }

  lemma StartingCons(line: Line, rest: seq<Line>, at: nat, a: nat, b: nat)
    ensures Raws(Starting([line] + rest, at, a, b)) ==
      (if a <= at < b then [Raw(line)] else []) + Raws(Starting(rest, at + |Raw(line)| + 1, a, b))
  {
    assert ([line] + rest)[1..] == rest;
  }

  /** The lines of the rest, and the first one. */
  lemma OneMoreLine(d: Bytes, at: nat, f: TextFile, a: nat, b: nat)
    requires f.lines != [] && IsLineStart(d, at) && LineAt(d, at) == Raw(f.lines[0])
    requires
      var next, rest := at + |Raw(f.lines[0])| + 1, f.(lines := f.lines[1..]);
      next == LineEnd(d, at) + 1 && LinesIn(d, if a < next then next else a, b) == Raws(Starting(Lines(rest), next, a, b))
    ensures LinesIn(d, if a < at then at else a, b) == Raws(Starting(Lines(f), at, a, b))
  {
    RangeStep(d, at, at + |Raw(f.lines[0])| + 1, a, b);
    LinesCons(f);
    StartingCons(f.lines[0], Lines(f.(lines := f.lines[1..])), at, a, b);
  }

  lemma LastLineOfText(d: Bytes, at: nat, f: TextFile, a: nat, b: nat)
    requires EndsWith(d, at, f) && f.lines == [] && f.last.Some?
    ensures LinesIn(d, if a < at then at else a, b) == Raws(Starting(Lines(f), at, a, b))
  {
    LastLineIs(d, at, f);
    RangeStep(d, at, |d| + 1, a, b);
    NoStarts(d, if a < |d| + 1 then |d| + 1 else a, b);
    StartingCons(f.last.value, [], at, a, b);
    assert Lines(f) == [f.last.value] + [];
  }

  lemma LastLineIs(d: Bytes, at: nat, f: TextFile)
    requires EndsWith(d, at, f) && f.lines == [] && f.last.Some?
    ensures IsLineStart(d, at) && LineEnd(d, at) == |d| && LineAt(d, at) == Raw(f.last.value)
    ensures |d| == at + |Raw(f.last.value)|
  {
    var s := d[at..];
    TextOfLine(f.last.value);
    EndOfLine(s, 0, |s|);
    LineEndShift(d, at, 0);
    assert d[at..|d|] == s;
  }

  /** The result of a task on a text: the matching texts among the lines that begin
      in the chunk, all counted, and the first ones shown. */
  lemma ResultOnText(rx: Regex, f: TextFile, task: Task)
    requires IsText(f)
    ensures
      var hits := Hits(rx, Starting(Lines(f), 0, task.start, task.end));
      var n := Min(task.maxResults, |hits|);
      TaskResult(Some(Contents(f)), rx, task) == ChunkResult(Shown(task.filename, hits[..n]), 0, 0, |hits|, n)
  {
    MatchesOfText(rx, f, task.start, task.end);
    ShownIs(task.filename, Take(Hits(rx, Starting(Lines(f), 0, task.start, task.end)), task.maxResults));
  }

  /** The matches among the lines that begin in a range of a text. */
  lemma MatchesOfText(rx: Regex, f: TextFile, a: nat, b: nat)
    requires IsText(f)
    ensures MatchesIn(rx, Contents(f), a, b) == Hits(rx, Starting(Lines(f), 0, a, b))
  {
    assert Contents(f)[0..] == Contents(f);
    LinesInOfText(Contents(f), 0, f, a, b);
    StartingSub(Lines(f), 0, a, b);
    GrepOfLines(rx, Starting(Lines(f), 0, a, b));
  }

  lemma ShownIs(name: Bytes, texts: seq<Bytes>)
    ensures FormatAll(name, texts) == Shown(name, texts)
  {
  }
}
