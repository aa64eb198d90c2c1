/** A connection in operation: both ends and the stream between them. */
module Link {
  import opened Base
  import opened Codec
  import opened Framing

  /** `sent` lists the messages in the order in which their posted sends ran;
      `wire` is every byte ever put on the stream, of which `consumed` are read.
      `copies` tells whether delivered messages are queued by copy. */
  datatype State = State(
    copies: bool,
    sent: seq<Packet>,
    sender: Sender,
    writeFailed: bool,
    wire: Bytes,
    consumed: nat,
    receiver: Receiver
  )

  function Start(copies: bool): State {
    State(copies, [], Sender([], []), false, [], 0, Receiver(Packet(0, 0, []), [HeaderIn], []))
  }

  datatype Event =
    | Post(p: Packet)
    | Flush(i: nat, n: nat)                      // part of an outstanding write reaches the stream
    | WriteDone(i: nat)
    | WriteFails(i: nat)
    | ReadDone(i: nat, left: Option<Packet>)
    | ReadFails(i: nat)

  function Without<T>(s: seq<T>, i: nat): seq<T>
    requires i < |s|
  {
    s[..i] + s[i + 1..]
  }

  predicate Enabled(l: State, e: Event) {
    match e
    case Post(p) => WellFormed(p)
    case Flush(i, n) => i < |l.sender.writing| && n <= |l.sender.writing[i].rest|
    case WriteDone(i) => i < |l.sender.writing| && l.sender.writing[i].rest == [] && l.sender.queue != []
    case WriteFails(i) => i < |l.sender.writing|
    case ReadDone(i, left) =>
      && i < |l.receiver.reading| && l.consumed + Need(l.receiver, l.receiver.reading[i]) <= |l.wire|
      && (l.copies ==> left.None?)
    case ReadFails(i) => i < |l.receiver.reading|
  }

  function DoFlush(l: State, i: nat, n: nat): State
    requires Enabled(l, Flush(i, n))
  {
    var w := l.sender.writing[i];
    l.(wire := l.wire + w.rest[..n],
       sender := l.sender.(writing := l.sender.writing[i := w.(rest := w.rest[n..])]))
  }

  function DoWriteDone(l: State, i: nat): State
    requires Enabled(l, WriteDone(i))
  {
    l.(sender := Written(l.sender.(writing := Without(l.sender.writing, i)), l.sender.writing[i]))
  }

  function DoReadDone(l: State, i: nat, left: Option<Packet>): State
    requires Enabled(l, ReadDone(i, left))
  {
    var read := l.receiver.reading[i];
    var next := l.consumed + Need(l.receiver, read);
    var bytes := l.wire[l.consumed..next];
    var r := l.receiver.(reading := Without(l.receiver.reading, i));
    l.(consumed := next, receiver := if read.HeaderIn? then HeaderRead(r, bytes, left) else BodyRead(r, bytes, left))
  }

  function Apply(l: State, e: Event): State
    requires Enabled(l, e)
  {
    match e
    case Post(p) => l.(sent := l.sent + [p], sender := Posted(l.sender, p))
    case Flush(i, n) => DoFlush(l, i, n)
    case WriteDone(i) => DoWriteDone(l, i)
    case WriteFails(i) => l.(writeFailed := true, sender := l.sender.(writing := Without(l.sender.writing, i)))
    case ReadDone(i, left) => DoReadDone(l, i, left)
    case ReadFails(i) => l.(receiver := l.receiver.(reading := Without(l.receiver.reading, i)))
  }

  /** Two connection objects and the stream from one to the other. */
  class Channel {
    const local: Connection
    const remote: Connection
    var wire: Bytes
    var consumed: nat
    var copies: bool
    var writeFailed: bool
    ghost var sent: seq<Packet>

    ghost function View(): State
      reads this, local, remote
    {
      State(copies, sent, local.Out(), writeFailed, wire, consumed, remote.In())
    }

    /** Two new ends, of which the remote one starts to read. */
    constructor (local: Connection, remote: Connection, copies: bool)
      requires local != remote && local.Out() == Sender([], [])
      requires remote.In() == Receiver(Packet(0, 0, []), [], [])
      modifies remote`reading
      ensures this.local == local && this.remote == remote && View() == Start(copies)
    {
      this.local, this.remote, this.copies := local, remote, copies;
      wire, consumed, writeFailed, sent := [], 0, false, [];
      new;
      remote.StartReading();
    }

    /** The callbacks of the two objects, in any order that the stream allows, are
        the events of the state machine. */
    method Run(e: Event)
      requires local != remote && Enabled(View(), e)
      modifies this, local, remote
      ensures View() == Apply(old(View()), e)
    {
      match e
      case Post(p) =>
        sent := sent + [p];
        local.OnSendPosted(p);
      case Flush(i, n) => FlushSome(i, n);
      case WriteDone(i) => CompleteWrite(i);
      case WriteFails(i) =>
        writeFailed := true;
        local.writing := Without(local.writing, i);
      case ReadDone(i, left) => CompleteRead(i, left);
      case ReadFails(i) =>
        remote.reading := Without(remote.reading, i);
    }

    method FlushSome(i: nat, n: nat)
      requires local != remote && Enabled(View(), Flush(i, n))
      modifies this`wire, local`writing
      ensures View() == DoFlush(old(View()), i, n)
    {
      var w := local.writing[i];
      wire := wire + w.rest[..n];
      local.writing := local.writing[i := w.(rest := w.rest[n..])];
    }

    method CompleteWrite(i: nat)
      requires local != remote && Enabled(View(), WriteDone(i))
      modifies local
      ensures View() == DoWriteDone(old(View()), i)
    {
      var w := local.writing[i];
      local.writing := Without(local.writing, i);
      if w.HeaderOut? {
        local.OnHeaderWritten();
      } else {
        local.OnBodyWritten();
      }
    }

    method CompleteRead(i: nat, left: Option<Packet>)
      requires local != remote && Enabled(View(), ReadDone(i, left))
      modifies this`consumed, remote
      ensures View() == DoReadDone(old(View()), i, left)
    {
      var read := remote.reading[i];
      var next := consumed + if read.HeaderIn? then HEADER_SIZE else |remote.msgTemporaryIn.body|;
      var bytes := wire[consumed..next];
      consumed := next;
      remote.reading := Without(remote.reading, i);
      if read.HeaderIn? {
        remote.OnHeaderRead(bytes, left);
      } else {
        remote.OnBodyRead(bytes, left);
      }
    }
  }

  ghost predicate Next(l: State, l': State) {
    exists e :: Enabled(l, e) && l' == Apply(l, e)
  }

  ghost predicate StepAt(trace: seq<State>, k: nat)
    requires k + 1 < |trace|
  {
    Next(trace[k], trace[k + 1])
  }

  ghost predicate IsRun(trace: seq<State>) {
    && trace != [] && trace[0] == Start(trace[0].copies)
    && forall k: nat :: k + 1 < |trace| ==> StepAt(trace, k)
  }

  // ------------------------------------------------------------- write side

  /** The bytes still to come from the messages in the queue. */
  function Left(s: Sender): Bytes
    requires s.writing != [] ==> s.queue != []
  {
    if s.writing == [] then []
    else if s.writing[0].HeaderOut? then s.writing[0].rest + (s.queue[0].body + Frames(s.queue[1..]))
    else s.writing[0].rest + Frames(s.queue[1..])
  }

  /** One outstanding write exactly when the queue is not empty; what is on the
      wire and what is still to come are the frames in the order sent. */
  ghost predicate SenderOk(l: State) {
    if l.writeFailed then l.sender.writing == [] && l.sender.queue != [] && l.wire <= Frames(l.sent)
    else
      && |l.sender.writing| == (if l.sender.queue == [] then 0 else 1)
      && l.wire + Left(l.sender) == Frames(l.sent)
  }

  lemma PostOk(l: State, p: Packet)
    requires SenderOk(l) && WellFormed(p)
    ensures SenderOk(Apply(l, Post(p)))
  {
    var s := l.sender;
    var s' := Posted(s, p);
    FramesAppend(l.sent, p);
    if !l.writeFailed {
      if s.queue == [] {
        assert s'.queue[1..] == [];
        assert Left(s') == Header(p) + (p.body + []) == Frame(p);
      } else {
        FramesAppend(s.queue[1..], p);
        assert s'.queue[1..] == s.queue[1..] + [p];
        LeftGrows(s.writing[0].rest, s.queue[0].body, Frames(s.queue[1..]), Frame(p));
      }
      ConcatAssoc(l.wire, Left(s), Frame(p));
    }
  }

  lemma LeftGrows(rest: Bytes, body: Bytes, more: Bytes, frame: Bytes)
    ensures rest + (body + (more + frame)) == rest + (body + more) + frame
    ensures rest + (more + frame) == rest + more + frame
  {
  }

  lemma FlushOk(l: State, i: nat, n: nat)
    requires SenderOk(l) && Enabled(l, Flush(i, n))
    ensures SenderOk(DoFlush(l, i, n))
  {
    var w := l.sender.writing[0];
    assert w.rest == w.rest[..n] + w.rest[n..];
    var more := if w.HeaderOut? then l.sender.queue[0].body + Frames(l.sender.queue[1..]) else Frames(l.sender.queue[1..]);
    ConcatAssoc(w.rest[..n], w.rest[n..], more);
    ConcatAssoc(l.wire, w.rest[..n], w.rest[n..] + more);
  }

  lemma WriteDoneOk(l: State, i: nat)
    requires SenderOk(l) && Enabled(l, WriteDone(i))
    ensures SenderOk(DoWriteDone(l, i))
  {
    var s, s' := l.sender, DoWriteDone(l, i).sender;
    assert Without(s.writing, i) == [];
    var tail := s.queue[1..];
    if s.writing[0].HeaderOut? && s.queue[0].body != [] {
      assert Left(s') == s.queue[0].body + Frames(tail) == Left(s);
    } else {
      assert Left(s) == Frames(tail);
      if tail != [] {
        assert Left(s') == Header(tail[0]) + (tail[0].body + Frames(tail[1..]));
        ConcatAssoc(Header(tail[0]), tail[0].body, Frames(tail[1..]));
      }
    }
  }

  lemma SenderNext(l: State, e: Event)
    requires SenderOk(l) && Enabled(l, e)
    ensures SenderOk(Apply(l, e))
  {
    match e
    case Post(p) => PostOk(l, p);
    case Flush(i, n) => FlushOk(l, i, n);
    case WriteDone(i) => WriteDoneOk(l, i);
    case WriteFails(i) =>
    case ReadDone(i, left) =>
    case ReadFails(i) =>
  }

  // -------------------------------------------------------------- read side

  /** Every message delivered so far had a size that its header can hold. */
  ghost predicate NoneTooLong(l: State) {
    forall i: nat :: i < |l.receiver.inbox| && i < |l.sent| ==> Short(l.sent[i])
  }

  /** Nothing on the stream but the frames in the order sent. */
  ghost predicate Framed(wire: Bytes, sent: seq<Packet>) {
    wire <= Frames(sent) && forall p :: p in sent ==> WellFormed(p)
  }

  /** What a receiver of `k` messages has consumed. */
  function Boundary(sent: seq<Packet>, k: nat): nat
    requires k <= |sent|
  {
    |Frames(sent[..k])|
  }

  /** The frame after the first `k`. */
  lemma NextFrame(sent: seq<Packet>, k: nat)
    requires k < |sent|
    ensures Boundary(sent, k + 1) == Boundary(sent, k) + HEADER_SIZE + |sent[k].body| <= |Frames(sent)|
    ensures Frames(sent)[Boundary(sent, k)..Boundary(sent, k) + HEADER_SIZE] == Header(sent[k])
    ensures Frames(sent)[Boundary(sent, k) + HEADER_SIZE..Boundary(sent, k + 1)] == sent[k].body
  {
    assert sent[..k + 1] == sent[..k] + [sent[k]];
    FramesAppend(sent[..k], sent[k]);
    assert sent == sent[..k + 1] + sent[k + 1..];
    FramesConcat(sent[..k + 1], sent[k + 1..]);
    InMiddle(Frames(sent[..k]), Header(sent[k]), sent[k].body, Frames(sent[k + 1..]));
  }

  lemma InMiddle(a: Bytes, b: Bytes, c: Bytes, d: Bytes)
    ensures
      var all := a + (b + c) + d;
      all[|a|..|a| + |b|] == b && all[|a| + |b|..|a| + |b| + |c|] == c
  {
  }

  /** The same bytes, seen on the wire as far as it goes. */
  lemma OnWire(wire: Bytes, all: Bytes, a: nat, b: nat)
    requires wire <= all && a <= b <= |wire|
    ensures wire[a..b] == all[a..b]
  {
  }

  /** A message is delivered as it was sent, except that an empty body shows
      whatever the temporary message still held. */
  predicate Arrived(got: Packet, p: Packet) {
    got.id == p.id && got.size == p.size && (p.body != [] ==> got.body == p.body)
  }

  ghost predicate Delivered(inbox: seq<Packet>, sent: seq<Packet>) {
    |inbox| <= |sent| && forall i :: 0 <= i < |inbox| ==> Arrived(inbox[i], sent[i])
  }

  /** The receiver stands at the start of a frame, or behind its header. */
  ghost predicate ReceiverOk(l: State) {
    var r, k := l.receiver, |l.receiver.inbox|;
    && Delivered(r.inbox, l.sent) && |r.reading| <= 1
    && (r.reading == [HeaderIn] ==> l.consumed == Boundary(l.sent, k))
    && (r.reading == [BodyIn] ==>
      && k < |l.sent| && l.consumed == Boundary(l.sent, k) + HEADER_SIZE
      && r.temp.id == l.sent[k].id && r.temp.size == l.sent[k].size == |r.temp.body| > 0)
  }

  lemma HeaderParses(p: Packet)
    requires WellFormed(p)
    ensures FromBytes(Header(p)[..4]) == p.id && FromBytes(Header(p)[4..]) == p.size
  {
    LengthRoundTrip(p.id);
    LengthRoundTrip(p.size);
    assert Header(p)[..4] == ToBytes(p.id, 4) && Header(p)[4..] == ToBytes(p.size, 4);
  }

  /** A complete header can only be the next message's. */
  lemma HeaderAvailable(l: State)
    requires ReceiverOk(l) && Framed(l.wire, l.sent) && l.receiver.reading == [HeaderIn]
    requires l.consumed + HEADER_SIZE <= |l.wire|
    ensures
      var k := |l.receiver.inbox|;
      && k < |l.sent| && l.wire[l.consumed..l.consumed + HEADER_SIZE] == Header(l.sent[k])
      && Boundary(l.sent, k + 1) == l.consumed + HEADER_SIZE + |l.sent[k].body|
  {
    var k := |l.receiver.inbox|;
    assert l.sent[..|l.sent|] == l.sent;
    assert k < |l.sent|;
    NextFrame(l.sent, k);
    OnWire(l.wire, Frames(l.sent), l.consumed, l.consumed + HEADER_SIZE);
  }

  /** What the header callback makes of a message's own header. */
  lemma HeaderReadOf(r: Receiver, p: Packet, left: Option<Packet>)
    requires WellFormed(p)
    ensures
      var r' := HeaderRead(r, Header(p), left);
      if p.size == 0 then
        && r'.inbox == r.inbox + [Packet(p.id, p.size, r.temp.body)] && r'.reading == r.reading + [HeaderIn]
        && (left.None? ==> r'.temp.body == r.temp.body)
      else
        && r'.inbox == r.inbox && r'.reading == r.reading + [BodyIn]
        && r'.temp.id == p.id && r'.temp.size == |r'.temp.body| == p.size
  {
    HeaderParses(p);
  }

  lemma HeaderReadOk(l: State, left: Option<Packet>)
    requires ReceiverOk(l) && Framed(l.wire, l.sent) && Enabled(l, ReadDone(0, left)) && l.receiver.reading == [HeaderIn]
    requires NoneTooLong(DoReadDone(l, 0, left))
    ensures ReceiverOk(DoReadDone(l, 0, left))
  {
    var r, k := l.receiver, |l.receiver.inbox|;
    HeaderAvailable(l);
    var p := l.sent[k];
    assert p in l.sent;
    assert Without(r.reading, 0) == [];
    HeaderReadOf(r.(reading := []), p, left);
    assert p.size == 0 ==> Short(p);
    HeaderReadFits(l, DoReadDone(l, 0, left), HeaderRead(r.(reading := []), Header(p), left));
  }

  /** The receiver behind a header: at the next frame, or inside this one. */
  lemma HeaderReadFits(l: State, l': State, r': Receiver)
    requires ReceiverOk(l) && |l.receiver.inbox| < |l.sent|
    requires l'.sent == l.sent && l'.receiver == r'
    requires
      var r, k := l.receiver, |l.receiver.inbox|;
      var p := l.sent[k];
      if p.size == 0 then
        p.body == [] &&
        r'.inbox == r.inbox + [Packet(p.id, p.size, r.temp.body)] && r'.reading == [HeaderIn]
        && l'.consumed == Boundary(l.sent, k + 1)
      else
        r'.inbox == r.inbox && r'.reading == [BodyIn] && r'.temp.id == p.id && r'.temp.size == |r'.temp.body| == p.size
        && l'.consumed == Boundary(l.sent, k) + HEADER_SIZE
    ensures ReceiverOk(l')
  {
    var r, p := l.receiver, l.sent[|l.receiver.inbox|];
    DeliveredGrows(r.inbox, Packet(p.id, p.size, r.temp.body), l.sent);
    assert [HeaderIn][0] != [BodyIn][0];
  }

  lemma DeliveredGrows(inbox: seq<Packet>, got: Packet, sent: seq<Packet>)
    requires Delivered(inbox, sent) && |inbox| < |sent|
    ensures Arrived(got, sent[|inbox|]) ==> Delivered(inbox + [got], sent)
  {
  }

  /** The bytes behind a header are that message's body. */
  lemma BodyBytes(l: State)
    requires ReceiverOk(l) && Framed(l.wire, l.sent) && l.receiver.reading == [BodyIn]
    requires Short(l.sent[|l.receiver.inbox|])
    requires l.consumed + |l.receiver.temp.body| <= |l.wire|
    ensures
      var k := |l.receiver.inbox|;
      && l.wire[l.consumed..l.consumed + |l.receiver.temp.body|] == l.sent[k].body != []
      && Boundary(l.sent, k + 1) == l.consumed + |l.receiver.temp.body|
  {
    var k := |l.receiver.inbox|;
    assert l.sent[k] in l.sent;
    NextFrame(l.sent, k);
    OnWire(l.wire, Frames(l.sent), l.consumed, Boundary(l.sent, k + 1));
  }

  lemma BodyReadOk(l: State, left: Option<Packet>)
    requires ReceiverOk(l) && Framed(l.wire, l.sent) && Enabled(l, ReadDone(0, left)) && l.receiver.reading == [BodyIn]
    requires Short(l.sent[|l.receiver.inbox|])
    ensures ReceiverOk(DoReadDone(l, 0, left))
  {
    var r, k := l.receiver, |l.receiver.inbox|;
    BodyBytes(l);
    assert Without(r.reading, 0) == [];
    assert DoReadDone(l, 0, left).receiver == BodyRead(r.(reading := []), l.sent[k].body, left);
    DeliveredGrows(r.inbox, l.sent[k], l.sent);
  }

  lemma PostKeepsReceiver(l: State, p: Packet)
    requires ReceiverOk(l)
    ensures ReceiverOk(l.(sent := l.sent + [p], sender := Posted(l.sender, p)))
  {
    var k := |l.receiver.inbox|;
    assert (l.sent + [p])[..k] == l.sent[..k];
  }

  /** What a read callback has to go by, whatever is on the wire: sizes are below
      2^32, and so are the bodies read. */
  ghost predicate ReaderOk(copies: bool, r: Receiver) {
    && |r.reading| <= 1 && (r.reading == [BodyIn] ==> r.temp.size == |r.temp.body| < U32)
    && (copies ==> Short(r.temp))
    && forall i: nat :: i < |r.inbox| ==> Readable(copies, r.inbox[i])
  }

  predicate Readable(copies: bool, p: Packet) {
    p.size < U32 && (copies || p.size > 0 ==> Short(p))
  }

  lemma DeliverKeepsReader(copies: bool, r: Receiver, left: Option<Packet>)
    requires ReaderOk(copies, r) && r.reading == [] && Readable(copies, r.temp) && (copies ==> left.None?)
    ensures ReaderOk(copies, Deliver(r, left))
  {
    assert [HeaderIn][0] != [BodyIn][0];
  }

  lemma HeaderKeepsReader(copies: bool, r: Receiver, bytes: Bytes, left: Option<Packet>)
    requires ReaderOk(copies, r) && r.reading == [] && |bytes| == HEADER_SIZE && (copies ==> left.None?)
    ensures ReaderOk(copies, HeaderRead(r, bytes, left))
  {
    WordSizes();
    FromBytesBound(bytes[4..]);
    var temp := r.temp.(id := FromBytes(bytes[..4]), size := FromBytes(bytes[4..]));
    if temp.size == 0 {
      DeliverKeepsReader(copies, r.(temp := temp), left);
    }
  }

  lemma BodyKeepsReader(copies: bool, r: Receiver, bytes: Bytes, left: Option<Packet>)
    requires ReaderOk(copies, r) && r.reading == [] && (copies ==> left.None?)
    requires r.temp.size == |bytes| < U32
    ensures ReaderOk(copies, BodyRead(r, bytes, left))
  {
    DeliverKeepsReader(copies, r.(temp := r.temp.(body := bytes)), left);
  }

  lemma ReaderNext(l: State, e: Event)
    requires ReaderOk(l.copies, l.receiver) && Enabled(l, e)
    ensures ReaderOk(l.copies, Apply(l, e).receiver)
  {
    match e
    case ReadDone(i, left) =>
      var bytes := l.wire[l.consumed..l.consumed + Need(l.receiver, l.receiver.reading[i])];
      var r := l.receiver.(reading := Without(l.receiver.reading, i));
      assert r.reading == [];
      if l.receiver.reading[i].HeaderIn? {
        HeaderKeepsReader(l.copies, r, bytes, left);
      } else {
        assert l.receiver.reading == [BodyIn];
        BodyKeepsReader(l.copies, r, bytes, left);
      }
    case Post(p) =>
    case Flush(i, n) =>
    case WriteDone(i) =>
    case WriteFails(i) =>
    case ReadFails(i) => assert Without(l.receiver.reading, i) == [];
  }

  /** Everything that holds after every callback. */
  ghost predicate Inv(l: State) {
    && SenderOk(l) && (forall p :: p in l.sent ==> WellFormed(p)) && ReaderOk(l.copies, l.receiver)
    && (NoneTooLong(l) ==> ReceiverOk(l) && (l.copies ==> CopiesOk(l)))
  }

  lemma SenderFrames(l: State)
    requires SenderOk(l)
    ensures l.wire <= Frames(l.sent)
  {
  }

  /** The body callback delivers the message at the reader. */
  lemma BodyIsShort(l: State, left: Option<Packet>)
    requires ReceiverOk(l) && l.receiver.reading == [BodyIn] && Enabled(l, ReadDone(0, left))
    requires NoneTooLong(DoReadDone(l, 0, left))
    ensures Short(l.sent[|l.receiver.inbox|])
  {
    assert |DoReadDone(l, 0, left).receiver.inbox| == |l.receiver.inbox| + 1;
  }

  lemma ReceiverNext(l: State, e: Event)
    requires Inv(l) && Enabled(l, e) && NoneTooLong(l) && NoneTooLong(Apply(l, e))
    ensures ReceiverOk(Apply(l, e))
  {
    match e
    case Post(p) => PostKeepsReceiver(l, p);
    case ReadDone(i, left) =>
      SenderFrames(l);
      if l.receiver.reading[0] == HeaderIn {
        assert l.receiver.reading == [HeaderIn];
        HeaderReadOk(l, left);
      } else {
        assert l.receiver.reading == [BodyIn];
        BodyIsShort(l, left);
        BodyReadOk(l, left);
      }
    case Flush(i, n) =>
    case WriteDone(i) =>
    case WriteFails(i) =>
    case ReadFails(i) => assert Without(l.receiver.reading, i) == [];
  }

  // ------------------------------------------------- messages without a body

  /** The body of the last message that has one. */
  function LastBody(sent: seq<Packet>): Bytes {
    if sent == [] then []
    else if sent[|sent| - 1].body != [] then sent[|sent| - 1].body
    else LastBody(sent[..|sent| - 1])
  }

  /** What is queued by copy for message `i`. */
  function Copied(sent: seq<Packet>, i: nat): Packet
    requires i < |sent|
  {
    sent[i].(body := LastBody(sent[..i + 1]))
  }

  ghost predicate AllCopied(inbox: seq<Packet>, sent: seq<Packet>) {
    |inbox| <= |sent| && forall i: nat :: i < |inbox| ==> inbox[i] == Copied(sent, i)
  }

  lemma OneMoreCopied(inbox: seq<Packet>, sent: seq<Packet>, got: Packet)
    requires AllCopied(inbox, sent) && |inbox| < |sent| && got == Copied(sent, |inbox|)
    ensures AllCopied(inbox + [got], sent)
  {
  }

  /** Queued by copy, an empty message carries the body of an earlier one. */
  ghost predicate CopiesOk(l: State) {
    var r, k := l.receiver, |l.receiver.inbox|;
    && AllCopied(r.inbox, l.sent)
    && (r.reading == [HeaderIn] ==> r.temp.body == LastBody(l.sent[..k]))
  }

  lemma CopiedStays(sent: seq<Packet>, p: Packet, i: nat)
    requires i < |sent|
    ensures Copied(sent + [p], i) == Copied(sent, i)
  {
    assert (sent + [p])[..i + 1] == sent[..i + 1];
  }

  lemma PostKeepsCopies(l: State, p: Packet)
    requires CopiesOk(l)
    ensures CopiesOk(l.(sent := l.sent + [p], sender := Posted(l.sender, p)))
  {
    var k := |l.receiver.inbox|;
    assert (l.sent + [p])[..k] == l.sent[..k];
    forall i: nat | i < k ensures l.receiver.inbox[i] == Copied(l.sent + [p], i) {
      CopiedStays(l.sent, p, i);
    }
  }

  lemma LastBodyNext(sent: seq<Packet>, k: nat)
    requires k < |sent|
    ensures LastBody(sent[..k + 1]) == if sent[k].body != [] then sent[k].body else LastBody(sent[..k])
  {
    assert sent[..k + 1][..k] == sent[..k];
  }

  /** The header callback on a copying connection. */
  lemma HeaderCopiesOf(r: Receiver, sent: seq<Packet>)
    requires AllCopied(r.inbox, sent) && |r.inbox| < |sent| && r.reading == []
    requires r.temp.body == LastBody(sent[..|r.inbox|]) && WellFormed(sent[|r.inbox|])
    requires sent[|r.inbox|].size == 0 ==> sent[|r.inbox|].body == []
    ensures
      var r' := HeaderRead(r, Header(sent[|r.inbox|]), None);
      && AllCopied(r'.inbox, sent)
      && (r'.reading == [HeaderIn] ==> r'.temp.body == LastBody(sent[..|r'.inbox|]))
  {
    var k := |r.inbox|;
    HeaderReadOf(r, sent[k], None);
    LastBodyNext(sent, k);
    if sent[k].body == [] {
      OneMoreCopied(r.inbox, sent, Packet(sent[k].id, sent[k].size, r.temp.body));
    } else {
      assert HeaderRead(r, Header(sent[k]), None).reading[0] == BodyIn;
    }
  }

  lemma HeaderCopies(l: State)
    requires Inv(l) && l.copies && Enabled(l, ReadDone(0, None)) && l.receiver.reading == [HeaderIn]
    requires NoneTooLong(l) && NoneTooLong(DoReadDone(l, 0, None))
    ensures CopiesOk(DoReadDone(l, 0, None))
  {
    var r := l.receiver.(reading := []);
    HeaderReadIs(l, None);
    HeaderReadOf(r, l.sent[|r.inbox|], None);
    assert l.sent[|r.inbox|].size == 0 ==> Short(l.sent[|r.inbox|]);
    HeaderCopiesOf(r, l.sent);
  }

  /** The next callback gets the next message's header. */
  lemma HeaderReadIs(l: State, left: Option<Packet>)
    requires Inv(l) && NoneTooLong(l) && Enabled(l, ReadDone(0, left)) && l.receiver.reading == [HeaderIn]
    ensures
      var r := l.receiver.(reading := []);
      && |r.inbox| < |l.sent| && WellFormed(l.sent[|r.inbox|])
      && DoReadDone(l, 0, left).receiver == HeaderRead(r, Header(l.sent[|r.inbox|]), left)
  {
    SenderFrames(l);
    HeaderReadAt(l, left);
  }

  lemma HeaderReadAt(l: State, left: Option<Packet>)
    requires ReceiverOk(l) && Framed(l.wire, l.sent) && Enabled(l, ReadDone(0, left)) && l.receiver.reading == [HeaderIn]
    ensures
      var r := l.receiver.(reading := []);
      && |r.inbox| < |l.sent| && WellFormed(l.sent[|r.inbox|])
      && DoReadDone(l, 0, left).receiver == HeaderRead(r, Header(l.sent[|r.inbox|]), left)
  {
    HeaderAvailable(l);
    assert l.sent[|l.receiver.inbox|] in l.sent;
    assert Without(l.receiver.reading, 0) == [];
  }

  /** The body callback on a copying connection. */
  lemma BodyCopiesOf(r: Receiver, sent: seq<Packet>)
    requires AllCopied(r.inbox, sent) && |r.inbox| < |sent| && sent[|r.inbox|].body != []
    requires r.temp.id == sent[|r.inbox|].id && r.temp.size == sent[|r.inbox|].size
    ensures
      var r' := BodyRead(r, sent[|r.inbox|].body, None);
      AllCopied(r'.inbox, sent) && r'.temp.body == LastBody(sent[..|r'.inbox|])
  {
    LastBodyNext(sent, |r.inbox|);
    OneMoreCopied(r.inbox, sent, sent[|r.inbox|]);
  }

  lemma BodyCopies(l: State)
    requires Inv(l) && l.copies && Enabled(l, ReadDone(0, None)) && l.receiver.reading == [BodyIn]
    requires NoneTooLong(l) && NoneTooLong(DoReadDone(l, 0, None))
    ensures CopiesOk(DoReadDone(l, 0, None))
  {
    var r := l.receiver.(reading := []);
    SenderFrames(l);
    BodyIsShort(l, None);
    BodyBytes(l);
    assert Without(l.receiver.reading, 0) == [];
    assert DoReadDone(l, 0, None).receiver == BodyRead(r, l.sent[|r.inbox|].body, None);
    BodyCopiesOf(r, l.sent);
  }

  lemma CopiesNext(l: State, e: Event)
    requires Inv(l) && l.copies && Enabled(l, e) && NoneTooLong(l) && NoneTooLong(Apply(l, e))
    ensures CopiesOk(Apply(l, e))
  {
    match e
    case Post(p) => PostKeepsCopies(l, p);
    case ReadDone(i, left) =>
      if l.receiver.reading[0] == HeaderIn {
        assert l.receiver.reading == [HeaderIn];
        HeaderCopies(l);
      } else {
        assert l.receiver.reading == [BodyIn];
        BodyCopies(l);
      }
    case Flush(i, n) =>
    case WriteDone(i) =>
    case WriteFails(i) =>
    case ReadFails(i) => assert Without(l.receiver.reading, i) == [];
  }

  // -------------------------------------------------------------- every run

  /** Messages sent and delivered stay so. */
  lemma StaysShort(l: State, e: Event)
    requires Enabled(l, e) && NoneTooLong(Apply(l, e))
    ensures NoneTooLong(l)
  {
    var l' := Apply(l, e);
    assert |l.receiver.inbox| <= |l'.receiver.inbox| && l.sent <= l'.sent;
  }

  lemma InvNext(l: State, e: Event)
    requires Inv(l) && Enabled(l, e)
    ensures Inv(Apply(l, e))
  {
    SenderNext(l, e);
    ReaderNext(l, e);
    if NoneTooLong(Apply(l, e)) {
      StaysShort(l, e);
      ReceiverNext(l, e);
      if l.copies {
        CopiesNext(l, e);
      }
    }
  }

  lemma {:induction false} InvAlways(trace: seq<State>, k: nat)
    requires IsRun(trace) && k < |trace|
    ensures Inv(trace[k])
    decreases k
  {
    if k > 0 {
      InvAlways(trace, k - 1);
      assert StepAt(trace, k - 1);
      var e :| Enabled(trace[k - 1], e) && trace[k] == Apply(trace[k - 1], e);
      InvNext(trace[k - 1], e);
    }
  }

  /** As long as no write fails there is one outstanding write when the queue is
      not empty and none otherwise; the wire always carries a prefix of the
      frames in the order sent. */
  lemma OneWriteInOrder(trace: seq<State>, k: nat)
    requires IsRun(trace) && k < |trace|
    ensures
      var l := trace[k];
      && (!l.writeFailed ==> |l.sender.writing| == if l.sender.queue != [] then 1 else 0)
      && (l.sender.writing != [] ==> l.sender.queue != [])
      && l.wire <= Frames(l.sent)
  {
    InvAlways(trace, k);
  }

  /** The reader delivers a prefix of what was sent, in order and unchanged, for
      messages with a body, whatever callbacks leave in the temporary message. */
  lemma DeliversPrefix(trace: seq<State>, k: nat)
    requires IsRun(trace) && k < |trace| && NoneTooLong(trace[k])
    requires forall p :: p in trace[k].sent ==> p.body != []
    ensures trace[k].receiver.inbox <= trace[k].sent
  {
    InvAlways(trace, k);
    var l := trace[k];
    forall i | 0 <= i < |l.receiver.inbox| ensures l.receiver.inbox[i] == l.sent[i] {
      assert l.sent[i] in l.sent;
      assert Arrived(l.receiver.inbox[i], l.sent[i]);
    }
  }

  /** A message whose body is longer than its header can say is never delivered
      as it was sent. (One whose size wraps to 0 could only be mistaken for what a
      callback left behind.) */
  lemma LongNeverArrives(trace: seq<State>, k: nat, i: nat)
    requires IsRun(trace) && k < |trace| && i < |trace[k].receiver.inbox| && i < |trace[k].sent|
    requires trace[k].copies || trace[k].sent[i].size > 0
    ensures trace[k].receiver.inbox[i] == trace[k].sent[i] ==> Short(trace[k].sent[i])
  {
    InvAlways(trace, k);
    assert Readable(trace[k].copies, trace[k].receiver.inbox[i]);
  }

  /** An empty message behind one with a body. */
  predicate EmptyAfterBody(sent: seq<Packet>, i: nat, j: nat) {
    i < j < |sent| && sent[i].body != [] && sent[j].body == []
  }

  lemma {:induction false} LastBodyEmpty(sent: seq<Packet>)
    ensures LastBody(sent) == [] <==> forall p :: p in sent ==> p.body == []
  {
    if sent != [] {
      var init, last := SplitLast(sent);
      LastBodyEmpty(init);
      assert forall p :: p in sent <==> p in init || p == last;
    }
  }

  lemma CopiedIntact(sent: seq<Packet>, j: nat)
    requires j < |sent|
    ensures Copied(sent, j) == sent[j] <==> forall i: nat :: !EmptyAfterBody(sent, i, j)
  {
    LastBodyNext(sent, j);
    LastBodyEmpty(sent[..j]);
    if sent[j].body == [] {
      assert forall i :: 0 <= i < j ==> sent[..j][i] == sent[i];
      if LastBody(sent[..j]) != [] {
        var p :| p in sent[..j] && p.body != [];
        var i: nat :| i < j && sent[..j][i] == p;
        assert EmptyAfterBody(sent, i, j);
      } else {
        assert forall i :: 0 <= i < j ==> sent[i] in sent[..j];
      }
    }
  }

  lemma DeliveredAreShort(trace: seq<State>, k: nat)
    requires IsRun(trace) && k < |trace| && trace[k].copies
    requires trace[k].receiver.inbox <= trace[k].sent
    ensures NoneTooLong(trace[k])
  {
    forall i: nat | i < |trace[k].receiver.inbox| ensures Short(trace[k].sent[i]) {
      LongNeverArrives(trace, k, i);
    }
  }

  /** Queued by copy, what is delivered is what was sent if and only if none of it
      was too long and no empty message came after one with a body. */
  lemma CopiesExactly(trace: seq<State>, k: nat)
    requires IsRun(trace) && k < |trace| && trace[k].copies
    ensures
      var inbox, sent := trace[k].receiver.inbox, trace[k].sent;
      inbox <= sent <==>
        NoneTooLong(trace[k]) && forall i: nat, j: nat :: j < |inbox| ==> !EmptyAfterBody(sent, i, j)
  {
    if trace[k].receiver.inbox <= trace[k].sent {
      DeliveredAreShort(trace, k);
    }
    if NoneTooLong(trace[k]) {
      ShortCopiesExactly(trace, k);
    }
  }

  lemma ShortCopiesExactly(trace: seq<State>, k: nat)
    requires IsRun(trace) && k < |trace| && trace[k].copies && NoneTooLong(trace[k])
    ensures
      var inbox, sent := trace[k].receiver.inbox, trace[k].sent;
      inbox <= sent <==> forall i: nat, j: nat :: j < |inbox| ==> !EmptyAfterBody(sent, i, j)
  {
    InvAlways(trace, k);
    var inbox, sent := trace[k].receiver.inbox, trace[k].sent;
    forall j: nat | j < |inbox|
      ensures inbox[j] == sent[j] <==> forall i: nat :: !EmptyAfterBody(sent, i, j)
    {
      CopiedIntact(sent, j);
    }
  }

  /** No callback is due: all is written, and the reader lacks bytes. */
  ghost predicate Idle(l: State) {
    && !l.writeFailed && l.sender.writing == []
    && l.receiver.reading != [] && l.consumed + Need(l.receiver, l.receiver.reading[0]) > |l.wire|
  }

  lemma MissingMeansDue(l: State)
    requires Inv(l) && NoneTooLong(l) && !l.writeFailed && l.sender.writing == [] && l.receiver.reading != []
    requires |l.receiver.inbox| < |l.sent|
    ensures l.consumed + Need(l.receiver, l.receiver.reading[0]) <= |l.wire|
  {
    var k := |l.receiver.inbox|;
    NextFrame(l.sent, k);
    assert l.sent[k] in l.sent;
    assert l.receiver.reading == [l.receiver.reading[0]];
  }

  /** When nothing more is due, nothing is missing. */
  lemma IdleMeansAllDelivered(trace: seq<State>, k: nat)
    requires IsRun(trace) && k < |trace| && Idle(trace[k]) && NoneTooLong(trace[k])
    ensures |trace[k].receiver.inbox| == |trace[k].sent|
  {
    InvAlways(trace, k);
    if |trace[k].receiver.inbox| < |trace[k].sent| {
      MissingMeansDue(trace[k]);
    }
  }

  // --------------------------------------------------------- a stale body

  const FULL := Packet(1, 1, [65])
  const EMPTY := Packet(2, 0, [])

  lemma Extend(trace: seq<State>, e: Event) returns (longer: seq<State>)
    requires IsRun(trace) && Enabled(trace[|trace| - 1], e)
    ensures IsRun(longer) && longer[|longer| - 1] == Apply(trace[|trace| - 1], e)
  {
    var last := trace[|trace| - 1];
    longer := trace + [Apply(last, e)];
    forall k: nat | k + 1 < |longer| ensures StepAt(longer, k) {
      if k + 1 < |trace| {
        assert StepAt(trace, k);
      } else {
        assert Next(last, Apply(last, e));
      }
    }
  }

  /** The outstanding write reaches the stream and completes. */
  lemma WriteWhole(trace: seq<State>) returns (longer: seq<State>)
    requires IsRun(trace)
    requires |trace[|trace| - 1].sender.writing| == 1 && trace[|trace| - 1].sender.queue != []
    ensures IsRun(longer)
    ensures
      var l := trace[|trace| - 1];
      var w := l.sender.writing[0];
      longer[|longer| - 1] == l.(wire := l.wire + w.rest, sender := Written(Sender(l.sender.queue, []), w.(rest := [])))
  {
    var l := trace[|trace| - 1];
    var w := l.sender.writing[0];
    assert w.rest[..|w.rest|] == w.rest && w.rest[|w.rest|..] == [];
    longer := Extend(trace, Flush(0, |w.rest|));
    assert longer[|longer| - 1] == l.(wire := l.wire + w.rest, sender := Sender(l.sender.queue, [w.(rest := [])]));
    assert Without([w.(rest := [])], 0) == [];
    longer := Extend(longer, WriteDone(0));
  }

  /** Both messages are sent and written to the stream. */
  lemma BothWritten() returns (trace: seq<State>)
    ensures IsRun(trace)
    ensures
      var l := trace[|trace| - 1];
      && l.copies && l.sent == [FULL, EMPTY] && l.wire == Header(FULL) + FULL.body + Header(EMPTY)
      && l.receiver == Start(true).receiver && l.consumed == 0
  {
    trace := [Start(true)];
    trace := Extend(trace, Post(FULL));
    trace := Extend(trace, Post(EMPTY));
    assert trace[|trace| - 1].sender == Sender([FULL, EMPTY], [HeaderOut(Header(FULL))]);
    trace := WriteWhole(trace);
    assert trace[|trace| - 1].sender == Sender([FULL, EMPTY], [BodyOut(FULL.body)]);
    trace := WriteWhole(trace);
    assert trace[|trace| - 1].sender == Sender([EMPTY], [HeaderOut(Header(EMPTY))]);
    trace := WriteWhole(trace);
  }

  lemma WireParts()
    ensures
      var wire := Header(FULL) + FULL.body + Header(EMPTY);
      |wire| == 17 && wire[0..8] == Header(FULL) && wire[8..9] == FULL.body && wire[9..17] == Header(EMPTY)
  {
  }

  /** What the first two reads see of the run. */
  ghost predicate Reading(trace: seq<State>, receiver: Receiver, consumed: nat) {
    IsRun(trace) &&
    var l := trace[|trace| - 1];
    && l.copies && l.sent == [FULL, EMPTY] && l.wire == Header(FULL) + FULL.body + Header(EMPTY)
    && l.receiver == receiver && l.consumed == consumed
  }

  lemma HeaderIsRead() returns (trace: seq<State>)
    ensures Reading(trace, Receiver(Packet(1, 1, Resize([], 1)), [BodyIn], []), 8)
  {
    trace := BothWritten();
    WireParts();
    HeaderParses(FULL);
    trace := Extend(trace, ReadDone(0, None));
  }

  /** One byte of body completes the message. */
  lemma LastByte(l: State)
    requires l.receiver == Receiver(Packet(1, 1, Resize([], 1)), [BodyIn], []) && l.consumed == 8 && l.copies
    requires |l.wire| > 8 && l.wire[8..9] == FULL.body
    ensures Enabled(l, ReadDone(0, None))
    ensures DoReadDone(l, 0, None) == l.(receiver := Receiver(FULL, [HeaderIn], [FULL]), consumed := 9)
  {
    assert Without([BodyIn], 0) == [];
    var r := Receiver(Packet(1, 1, Resize([], 1)), [], []);
    assert BodyRead(r, FULL.body, None) == Receiver(FULL, [HeaderIn], [FULL]);
  }

  lemma FullRead() returns (trace: seq<State>)
    ensures Reading(trace, Receiver(FULL, [HeaderIn], [FULL]), 9)
  {
    trace := HeaderIsRead();
    WireParts();
    LastByte(trace[|trace| - 1]);
    trace := Extend(trace, ReadDone(0, None));
  }

  /** The message without a body is delivered with the body of the other. */
  lemma StaleBody() returns (trace: seq<State>)
    ensures IsRun(trace)
    ensures trace[|trace| - 1].sent == [FULL, EMPTY]
    ensures trace[|trace| - 1].receiver.inbox == [FULL, EMPTY.(body := FULL.body)]
  {
    trace := FullRead();
    WireParts();
    var r := Receiver(FULL, [], [FULL]);
    HeaderReadOf(r, EMPTY, None);
    trace := Extend(trace, ReadDone(0, None));
    assert trace[|trace| - 1].receiver == HeaderRead(r, Header(EMPTY), None);
  }

  // ------------------------------------------------------- a body too long

  const HUGE_BODY: Bytes := seq(U32, _ => 0)
  const LONG := Packet(1, 0, HUGE_BODY)

  /** The body is too long for its header by exactly what the size can count. */
  lemma LongWritten() returns (trace: seq<State>)
    ensures IsRun(trace)
    ensures
      var l := trace[|trace| - 1];
      && l.copies && l.sent == [LONG] && l.wire == Header(LONG) + HUGE_BODY
      && l.receiver == Start(true).receiver && l.consumed == 0
  {
    trace := [Start(true)];
    trace := Extend(trace, Post(LONG));
    assert trace[|trace| - 1].sender == Sender([LONG], [HeaderOut(Header(LONG))]);
    trace := WriteWhole(trace);
    assert trace[|trace| - 1].sender == Sender([LONG], [BodyOut(HUGE_BODY)]);
    trace := WriteWhole(trace);
  }

  lemma LongWire()
    ensures
      var wire := Header(LONG) + HUGE_BODY;
      |wire| > 16 && wire[0..8] == Header(LONG) && wire[8..16] == Header(Packet(0, 0, []))
  {
    assert ToBytes(0, 1) == [0];
    assert ToBytes(0, 2) == [0, 0];
    assert ToBytes(0, 3) == [0, 0, 0];
    assert ToBytes(0, 4) == [0, 0, 0, 0];
    assert HUGE_BODY[..8] == Header(Packet(0, 0, []));
  }

  /** A header with size 0 delivers what the temporary message holds. */
  lemma BareHeader(l: State, id: nat)
    requires l.receiver.reading == [HeaderIn] && l.receiver.temp.body == [] && id < U32
    requires l.consumed + HEADER_SIZE <= |l.wire|
    requires l.wire[l.consumed..l.consumed + HEADER_SIZE] == Header(Packet(id, 0, []))
    ensures Enabled(l, ReadDone(0, None))
    ensures
      var got := Packet(id, 0, []);
      DoReadDone(l, 0, None)
        == l.(consumed := l.consumed + HEADER_SIZE, receiver := Receiver(got, [HeaderIn], l.receiver.inbox + [got]))
  {
    assert Without([HeaderIn], 0) == [];
    HeaderParses(Packet(id, 0, []));
  }

  /** The reader takes a long message for one without a body, and its body for
      headers: two messages arrive where one was sent. */
  lemma Misframed() returns (trace: seq<State>)
    ensures IsRun(trace)
    ensures trace[|trace| - 1].sent == [LONG] && |LONG.body| == U32
    ensures trace[|trace| - 1].receiver.inbox == [Packet(1, 0, []), Packet(0, 0, [])]
  {
    trace := LongWritten();
    LongWire();
    assert Header(LONG) == Header(Packet(1, 0, []));
    BareHeader(trace[|trace| - 1], 1);
    trace := Extend(trace, ReadDone(0, None));
    BareHeader(trace[|trace| - 1], 0);
    trace := Extend(trace, ReadDone(0, None));
  }
}
