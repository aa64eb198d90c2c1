/** The binary batch format between Worker and Master: a body that is appended
    to at the tail, popped from the tail, and whose matched lines are read back
    from the front (net_message.hpp, WorkerClient.cpp, MasterServer.cpp). */
module Codec {
  import opened Base

  // ---------------------------------------------------------------- integers

  function Pow256(n: nat): (r: nat)
    ensures r >= 1
  {
    if n == 0 then 1 else 256 * Pow256(n - 1)
  }

  /** The `n` low-order bytes of `v`, least significant first. */
  function ToBytes(v: nat, n: nat): (b: Bytes)
    ensures |b| == n
  {
    if n == 0 then [] else [v % 256] + ToBytes(v / 256, n - 1)
  }

  function FromBytes(b: Bytes): nat {
    if b == [] then 0 else b[0] + 256 * FromBytes(b[1..])
  }

  /** Copying an integer that fits its width out and back in keeps it. */
  lemma {:induction false} IntegerRoundTrip(v: nat, n: nat)
    requires v < Pow256(n)
    ensures FromBytes(ToBytes(v, n)) == v
  {
    if n != 0 {
      IntegerRoundTrip(v / 256, n - 1);
      assert ToBytes(v, n)[1..] == ToBytes(v / 256, n - 1);
    }
  }

  lemma {:induction false} FromBytesBound(b: Bytes)
    ensures FromBytes(b) < Pow256(|b|)
  {
    if b != [] {
      FromBytesBound(b[1..]);
    }
  }

  /** Byte `i` of an integer, counted from the least significant one. */
  lemma {:induction false} ToBytesAt(v: nat, n: nat, i: nat)
    requires i < n
    ensures ToBytes(v, n)[i] == v / Pow256(i) % 256
    decreases i
  {
    if i == 0 {
      assert v / 1 == v;
    } else {
      ToBytesAt(v / 256, n - 1, i - 1);
      DivideTwice(v, Pow256(i - 1));
    }
  }

  lemma QuotientIs(v: nat, m: nat, q: nat, r: nat)
    requires r < m && v == m * q + r
    ensures v / m == q
  {
    var d := v / m - q;
    assert m * (v / m) + v % m == v;
    assert m * d == r - v % m;
    AtLeastOnce(m, d);
  }

  lemma AtLeastOnce(m: nat, d: int)
    ensures (d >= 1 ==> m * d >= m) && (d <= -1 ==> m * d + m <= 0)
  {
  }

  lemma DivideTwice(v: nat, p: nat)
    requires p >= 1
    ensures v / 256 / p == v / (256 * p)
  {
    var a := v / 256;
    var q, r := a / p, a % p;
    assert v == 256 * a + v % 256 && a == p * q + r;
    assert 256 * (p * q) == 256 * p * q;
    QuotientIs(v, 256 * p, q, 256 * r + v % 256);
  }

  lemma WordSizes()
    ensures Pow256(4) == U32 && Pow256(8) == U64
  {
    assert Pow256(1) == 256;
    assert Pow256(2) == 0x1_0000;
    assert Pow256(3) == 0x100_0000;
    assert Pow256(4) == U32;
    assert Pow256(5) == 0x100_0000_0000;
    assert Pow256(6) == 0x1_0000_0000_0000;
    assert Pow256(7) == 0x100_0000_0000_0000;
  }

  // ----------------------------------------------------------------- message

  /** `olc::net::message`: `operator<<` and `operator>>` work on the tail of
      `body` and rewrite `header.size`. */
  class Message {
    var id: nat
    var size: nat
    var body: Bytes

    constructor ()
      ensures id == 0 && size == 0 && body == []
    {
      id, size, body := 0, 0, [];
    }

    /** `operator<<` for a value whose memory is `data`. */
    method Push(data: Bytes)
      modifies this
      ensures body == old(body) + data
      ensures size == |body| % U32 && id == old(id)
    {
      body := body + data;
      size := |body| % U32;
    }

    /** `operator>>` for a value of `n` bytes; None is the thrown exception,
        which leaves the message as it was. */
    method Pop(n: nat) returns (data: Option<Bytes>)
      modifies this
      ensures id == old(id)
      ensures data.None? <==> |old(body)| < n
      ensures data.None? ==> body == old(body) && size == old(size)
      ensures data.Some? ==> |data.value| == n && body + data.value == old(body) && size == |body| % U32
    {
      if |body| < n {
        return None;
      }
      var start := |body| - n;
      data := Some(body[start..]);
      body := body[..start];
      size := |body| % U32;
    }
  }

  // ------------------------------------------------------------------- batch

  datatype ChunkResult = ChunkResult(
    lines: seq<Bytes>,
    searchId: nat,
    taskId: nat,
    totalMatches: nat,
    linesFound: nat
  )

  /** The fields hold values of their C++ types. */
  ghost predicate FieldsFit(b: ChunkResult) {
    b.searchId < U64 && b.taskId < U64 && b.totalMatches < U64 && b.linesFound < U32
  }

  /** A 32-bit length, then the line itself. */
  function EncodeLine(line: Bytes): Bytes {
    ToBytes(|line| % U32, 4) + line
  }

  function EncodeLines(lines: seq<Bytes>): Bytes {
    if lines == [] then [] else EncodeLine(lines[0]) + EncodeLines(lines[1..])
  }

  function EncodeTail(b: ChunkResult): (r: Bytes)
    ensures |r| == 20
  {
    ToBytes(b.linesFound, 4) + ToBytes(b.totalMatches, 8) + ToBytes(b.searchId, 8)
  }

  /** The body of a `Worker_TaskDone` message. */
  function EncodeBatch(b: ChunkResult): Bytes {
    EncodeLines(b.lines) + EncodeTail(b) + ToBytes(b.taskId, 8)
  }

  lemma {:induction false} EncodeLinesAppend(lines: seq<Bytes>, more: seq<Bytes>)
    ensures EncodeLines(lines + more) == EncodeLines(lines) + EncodeLines(more)
  {
    if lines == [] {
      assert lines + more == more;
    } else {
      EncodeLinesAppend(lines[1..], more);
      assert (lines + more)[1..] == lines[1..] + more;
      ConcatAssoc(EncodeLine(lines[0]), EncodeLines(lines[1..]), EncodeLines(more));
    }
  }

  lemma EncodeLast(lines: seq<Bytes>, i: nat)
    requires i < |lines|
    ensures EncodeLines(lines[..i + 1]) == EncodeLines(lines[..i]) + ToBytes(|lines[i]| % U32, 4) + lines[i]
  {
    EncodeLinesAppend(lines[..i], [lines[i]]);
    assert lines[..i + 1] == lines[..i] + [lines[i]];
    assert EncodeLines([lines[i]]) == EncodeLine(lines[i]) + [];
    ConcatAssoc(EncodeLines(lines[..i]), ToBytes(|lines[i]| % U32, 4), lines[i]);
  }

  method SerializeBatch(batch: ChunkResult) returns (msg: Message)
    ensures fresh(msg)
    ensures msg.body == EncodeBatch(batch) && msg.size == |msg.body| % U32
  {
    msg := new Message();
    for i := 0 to |batch.lines|
      invariant fresh(msg)
      invariant msg.body == EncodeLines(batch.lines[..i])
    {
      var line := batch.lines[i];
      EncodeLast(batch.lines, i);
      msg.body := msg.body + ToBytes(|line| % U32, 4);
      msg.body := msg.body + line;
    }
    assert batch.lines[..|batch.lines|] == batch.lines;
    msg.size := |msg.body| % U32;
    msg.Push(ToBytes(batch.linesFound, 4));
    msg.Push(ToBytes(batch.totalMatches, 8));
    msg.Push(ToBytes(batch.searchId, 8));
    msg.Push(ToBytes(batch.taskId, 8));
  }

  /** Length-prefixed lines read from the front, starting at `offset`; None when
      a read would leave the body, which the source does not check. */
  function ParseLines(body: Bytes, offset: nat, count: nat): Option<seq<Bytes>>
    decreases count
  {
    if count == 0 then Some([])
    else if offset + 4 > |body| then None
    else
      var len := FromBytes(body[offset..offset + 4]);
      if offset + 4 + len > |body| then None
      else
        match ParseLines(body, offset + 4 + len, count - 1)
        case None => None
        case Some(rest) => Some([body[offset + 4..offset + 4 + len]] + rest)
  }

  datatype Decoded = Batch(result: ChunkResult) | Throws | OutOfRange

  /** The body of a `Worker_TaskDone` message split at its trailing task id. */
  function PopTaskId(body: Bytes): Option<(nat, Bytes)> {
    if |body| < 8 then None
    else Some((FromBytes(body[|body| - 8..]), body[..|body| - 8]))
  }

  /** What reading the rest of the body yields, once the task id is gone. */
  function DecodeBatch(body: Bytes): Decoded {
    var n := |body|;
    if n < 20 then Throws
    else
      var count := FromBytes(body[n - 20..n - 16]);
      match ParseLines(body[..n - 20], 0, count)
      case None => OutOfRange
      case Some(lines) =>
        Batch(ChunkResult(lines, FromBytes(body[n - 8..]), 0, FromBytes(body[n - 16..n - 8]), count))
  }

  /** The loop of `DeserializeBatch` over the front of the body. */
  method ReadLines(body: Bytes, count: nat) returns (lines: seq<Bytes>)
    requires ParseLines(body, 0, count).Some?
    ensures ParseLines(body, 0, count) == Some(lines)
  {
    lines := [];
    var offset: nat := 0;
    for i := 0 to count
      invariant offset <= |body|
      invariant ParseLines(body, offset, count - i).Some?
      invariant lines + ParseLines(body, offset, count - i).value == ParseLines(body, 0, count).value
    {
      var len := FromBytes(body[offset..offset + 4]);
      offset := offset + 4;
      lines := lines + [body[offset..offset + len]];
      offset := offset + len;
    }
    assert lines + [] == lines;
  }

  /** `MasterServer::DeserializeBatch`. */
  method DeserializeBatch(msg: Message) returns (r: Decoded)
    requires !DecodeBatch(msg.body).OutOfRange?
    modifies msg
    ensures r == DecodeBatch(old(msg.body))
  {
    ghost var full := msg.body;
    var searchId := msg.Pop(8);
    if searchId.None? { return Throws; }
    assert msg.body == full[..|full| - 8] && searchId.value == full[|full| - 8..];
    var totalMatches := msg.Pop(8);
    if totalMatches.None? { return Throws; }
    assert msg.body == full[..|full| - 16] && totalMatches.value == full[|full| - 16..|full| - 8];
    var lineCount := msg.Pop(4);
    if lineCount.None? { return Throws; }
    assert msg.body == full[..|full| - 20] && lineCount.value == full[|full| - 20..|full| - 16];
    var count := FromBytes(lineCount.value);
    var lines := ReadLines(msg.body, count);
    r := Batch(ChunkResult(lines, FromBytes(searchId.value), 0, FromBytes(totalMatches.value), count));
  }

  // -------------------------------------------------------------- round trip

  ghost predicate LengthsFit(lines: seq<Bytes>) {
    forall i :: 0 <= i < |lines| ==> |lines[i]| < U32
  }

  /** One length prefix and its line, anywhere in the body. */
  lemma ParseOne(pre: Bytes, head: Bytes, line: Bytes, rest: Bytes, more: seq<Bytes>)
    requires |head| == 4 && FromBytes(head) == |line|
    requires ParseLines(pre + head + line + rest, |pre + head + line|, |more|) == Some(more)
    ensures ParseLines(pre + (head + line + rest), |pre|, |more| + 1) == Some([line] + more)
  {
    var body := pre + (head + line + rest);
    assert body == pre + head + line + rest;
    assert body[|pre|..|pre| + 4] == head;
    assert body[|pre| + 4..|pre| + 4 + |line|] == line;
  }

  lemma EncodeCons(lines: seq<Bytes>)
    requires lines != [] && |lines[0]| < U32
    ensures EncodeLines(lines) == ToBytes(|lines[0]|, 4) + lines[0] + EncodeLines(lines[1..])
  {
  }

  /** Lines with 32-bit lengths are read back wherever they lie in the body. */
  lemma {:induction false} LinesRoundTrip(pre: Bytes, lines: seq<Bytes>)
    requires LengthsFit(lines)
    ensures ParseLines(pre + EncodeLines(lines), |pre|, |lines|) == Some(lines)
    decreases |lines|
  {
    if lines != [] {
      var line, head := lines[0], ToBytes(|lines[0]|, 4);
      LengthRoundTrip(|line|);
      EncodeCons(lines);
      LinesRoundTrip(pre + head + line, lines[1..]);
      ParseOne(pre, head, line, EncodeLines(lines[1..]), lines[1..]);
      assert lines == [line] + lines[1..];
    }
  }

  lemma LengthRoundTrip(n: nat)
    requires n < U32
    ensures FromBytes(ToBytes(n, 4)) == n
  {
    WordSizes();
    IntegerRoundTrip(n, 4);
  }

  /** Whatever is parsed has the requested number of lines, all of 32-bit length. */
  lemma {:induction false} ParsedLinesFit(body: Bytes, offset: nat, count: nat)
    requires ParseLines(body, offset, count).Some?
    ensures |ParseLines(body, offset, count).value| == count
    ensures LengthsFit(ParseLines(body, offset, count).value)
    decreases count
  {
    if count != 0 {
      var len := FromBytes(body[offset..offset + 4]);
      FromBytesBound(body[offset..offset + 4]);
      WordSizes();
      ParsedLinesFit(body, offset + 4 + len, count - 1);
    }
  }

  /** Reading the tail fields never touches the line bytes in front of them. */
  lemma TailFields(b: ChunkResult)
    requires FieldsFit(b)
    ensures PopTaskId(EncodeBatch(b)) == Some((b.taskId, EncodeLines(b.lines) + EncodeTail(b)))
    ensures
      var body := EncodeLines(b.lines) + EncodeTail(b);
      var n := |body|;
      && n >= 20 && body[..n - 20] == EncodeLines(b.lines)
      && FromBytes(body[n - 20..n - 16]) == b.linesFound
      && FromBytes(body[n - 16..n - 8]) == b.totalMatches
      && FromBytes(body[n - 8..]) == b.searchId
  {
    FieldsRoundTrip(b);
    Suffixes(EncodeLines(b.lines), ToBytes(b.linesFound, 4), ToBytes(b.totalMatches, 8), ToBytes(b.searchId, 8), ToBytes(b.taskId, 8));
  }

  lemma FieldsRoundTrip(b: ChunkResult)
    requires FieldsFit(b)
    ensures FromBytes(ToBytes(b.taskId, 8)) == b.taskId && FromBytes(ToBytes(b.searchId, 8)) == b.searchId
    ensures FromBytes(ToBytes(b.totalMatches, 8)) == b.totalMatches && FromBytes(ToBytes(b.linesFound, 4)) == b.linesFound
  {
    WordSizes();
    IntegerRoundTrip(b.taskId, 8);
    IntegerRoundTrip(b.searchId, 8);
    IntegerRoundTrip(b.totalMatches, 8);
    IntegerRoundTrip(b.linesFound, 4);
  }

  /** Where four fields stand behind the lines. */
  lemma Suffixes(front: Bytes, found: Bytes, total: Bytes, search: Bytes, task: Bytes)
    requires |found| == 4 && |total| == |search| == |task| == 8
    ensures
      var body := front + (found + total + search);
      var n := |body|;
      && (body + task)[..n] == body && (body + task)[n..] == task && n >= 20
      && body[..n - 20] == front && body[n - 20..n - 16] == found
      && body[n - 16..n - 8] == total && body[n - 8..] == search
  {
  }

  /** The batch comes back unchanged exactly when its line counter is the number
      of lines and every line length fits 32 bits. */
  lemma BatchRoundTrip(b: ChunkResult)
    requires FieldsFit(b)
    ensures PopTaskId(EncodeBatch(b)).Some? && PopTaskId(EncodeBatch(b)).value.0 == b.taskId
    ensures
      var body := PopTaskId(EncodeBatch(b)).value.1;
      DecodeBatch(body) == Batch(b.(taskId := 0)) <==> b.linesFound == |b.lines| && LengthsFit(b.lines)
  {
    TailFields(b);
    var front := EncodeLines(b.lines);
    var parsed := ParseLines(front, 0, b.linesFound);
    if parsed.Some? {
      ParsedLinesFit(front, 0, b.linesFound);
    }
    if b.linesFound == |b.lines| && LengthsFit(b.lines) {
      LinesRoundTrip([], b.lines);
      assert [] + front == front;
    }
  }
}
