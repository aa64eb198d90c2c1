/** One direction of a connection: the write callbacks that drain the out-queue,
    the byte stream, and the read callbacks that rebuild messages from it
    (net_connection.hpp). Callbacks run one at a time on one `io_context`. */
module Framing {
  import opened Base
  import opened Codec

  const HEADER_SIZE: nat := 8

  /** A message as a value: the header's `id` and `size`, and the body. */
  datatype Packet = Packet(id: nat, size: nat, body: Bytes)

  /** What `operator<<` leaves behind. */
  predicate WellFormed(p: Packet) {
    p.id < U32 && p.size == |p.body| % U32
  }

  /** The 32-bit size describes the body. */
  predicate Short(p: Packet) {
    |p.body| < U32
  }

  function Header(p: Packet): (h: Bytes)
    ensures |h| == HEADER_SIZE
  {
    ToBytes(p.id, 4) + ToBytes(p.size, 4)
  }

  function Frame(p: Packet): Bytes {
    Header(p) + p.body
  }

  function Frames(ps: seq<Packet>): Bytes {
    if ps == [] then [] else Frame(ps[0]) + Frames(ps[1..])
  }

  lemma {:induction false} FramesConcat(a: seq<Packet>, b: seq<Packet>)
    ensures Frames(a + b) == Frames(a) + Frames(b)
  {
    if a == [] {
      assert a + b == b;
    } else {
      FramesConcat(a[1..], b);
      assert (a + b)[1..] == a[1..] + b;
      ConcatAssoc(Frame(a[0]), Frames(a[1..]), Frames(b));
    }
  }

  lemma FramesAppend(ps: seq<Packet>, p: Packet)
    ensures Frames(ps + [p]) == Frames(ps) + Frame(p)
  {
    FramesConcat(ps, [p]);
    assert Frames([p]) == Frame(p) + [];
  }

  // ------------------------------------------------------------- write side

  /** A write handed to the stream, with the bytes not yet on the wire. */
  datatype Write = HeaderOut(rest: Bytes) | BodyOut(rest: Bytes)

  datatype Sender = Sender(queue: seq<Packet>, writing: seq<Write>)

  function WriteHeader(s: Sender): Sender
    requires s.queue != []
  {
    s.(writing := s.writing + [HeaderOut(Header(s.queue[0]))])
  }

  function WriteBody(s: Sender): Sender
    requires s.queue != []
  {
    s.(writing := s.writing + [BodyOut(s.queue[0].body)])
  }

  /** The function that `Send` posts. */
  function Posted(s: Sender, p: Packet): Sender {
    var pushed := s.(queue := s.queue + [p]);
    if s.queue == [] then WriteHeader(pushed) else pushed
  }

  function PopFront(s: Sender): Sender
    requires s.queue != []
  {
    var popped := s.(queue := s.queue[1..]);
    if popped.queue != [] then WriteHeader(popped) else popped
  }

  /** Completion handlers; the finished write is already gone. */
  function HeaderWritten(s: Sender): Sender
    requires s.queue != []
  {
    if s.queue[0].body != [] then WriteBody(s) else PopFront(s)
  }

  function Written(s: Sender, w: Write): Sender
    requires s.queue != []
  {
    if w.HeaderOut? then HeaderWritten(s) else PopFront(s)
  }

  // -------------------------------------------------------------- read side

  datatype Read = HeaderIn | BodyIn

  datatype Receiver = Receiver(temp: Packet, reading: seq<Read>, inbox: seq<Packet>)

  /** `vector::resize`. */
  function Resize(b: Bytes, n: nat): (r: Bytes)
    ensures |r| == n
  {
    if n <= |b| then b[..n] else b + seq(n - |b|, _ => 0)
  }

  /** `AddToIncomingMessageQueue`: queued by copy, or given to a callback that
      may leave anything behind in the temporary message. */
  function Deliver(r: Receiver, left: Option<Packet>): Receiver {
    Receiver(if left.None? then r.temp else left.value, r.reading + [HeaderIn], r.inbox + [r.temp])
  }

  function HeaderRead(r: Receiver, bytes: Bytes, left: Option<Packet>): Receiver
    requires |bytes| == HEADER_SIZE
  {
    var temp := r.temp.(id := FromBytes(bytes[..4]), size := FromBytes(bytes[4..]));
    if temp.size > 0 then r.(temp := temp.(body := Resize(temp.body, temp.size)), reading := r.reading + [BodyIn])
    else Deliver(r.(temp := temp), left)
  }

  function BodyRead(r: Receiver, bytes: Bytes, left: Option<Packet>): Receiver {
    Deliver(r.(temp := r.temp.(body := bytes)), left)
  }

  function Need(r: Receiver, read: Read): nat {
    if read.HeaderIn? then HEADER_SIZE else |r.temp.body|
  }

  // ----------------------------------------------------------------- class

  /** One end of a connection. `writing` and `reading` are the operations that asio
      holds for it. */
  class Connection {
    var qMessagesOut: seq<Packet>
    var writing: seq<Write>
    var msgTemporaryIn: Packet
    var reading: seq<Read>
    var qMessagesIn: seq<Packet>

    ghost function Out(): Sender
      reads this
    {
      Sender(qMessagesOut, writing)
    }

    ghost function In(): Receiver
      reads this
    {
      Receiver(msgTemporaryIn, reading, qMessagesIn)
    }

    constructor ()
      ensures Out() == Sender([], []) && In() == Receiver(Packet(0, 0, []), [], [])
    {
      qMessagesOut, writing := [], [];
      msgTemporaryIn, reading, qMessagesIn := Packet(0, 0, []), [], [];
    }

    /** `ConnectToClient`, or the success of `ConnectToServer`: the first read. */
    method StartReading()
      modifies this`reading
      ensures In() == old(In()).(reading := old(reading) + [HeaderIn])
    {
      reading := reading + [HeaderIn];
    }

    method StartHeaderWrite()
      requires qMessagesOut != []
      modifies this`writing
      ensures Out() == WriteHeader(old(Out()))
    {
      writing := writing + [HeaderOut(Header(qMessagesOut[0]))];
    }

    method StartBodyWrite()
      requires qMessagesOut != []
      modifies this`writing
      ensures Out() == WriteBody(old(Out()))
    {
      writing := writing + [BodyOut(qMessagesOut[0].body)];
    }

    method OnSendPosted(msg: Packet)
      modifies this`qMessagesOut, this`writing
      ensures Out() == Posted(old(Out()), msg)
    {
      var writingMessage := qMessagesOut != [];
      qMessagesOut := qMessagesOut + [msg];
      if !writingMessage {
        StartHeaderWrite();
      }
    }

    method OnHeaderWritten()
      requires qMessagesOut != []
      modifies this`qMessagesOut, this`writing
      ensures Out() == HeaderWritten(old(Out()))
    {
      if |qMessagesOut[0].body| > 0 {
        StartBodyWrite();
      } else {
        qMessagesOut := qMessagesOut[1..];
        if qMessagesOut != [] {
          StartHeaderWrite();
        }
      }
    }

    method OnBodyWritten()
      requires qMessagesOut != []
      modifies this`qMessagesOut, this`writing
      ensures Out() == PopFront(old(Out()))
    {
      qMessagesOut := qMessagesOut[1..];
      if qMessagesOut != [] {
        StartHeaderWrite();
      }
    }

    method OnHeaderRead(bytes: Bytes, left: Option<Packet>)
      requires |bytes| == HEADER_SIZE
      modifies this`msgTemporaryIn, this`reading, this`qMessagesIn
      ensures In() == HeaderRead(old(In()), bytes, left)
    {
      msgTemporaryIn := msgTemporaryIn.(id := FromBytes(bytes[..4]), size := FromBytes(bytes[4..]));
      if msgTemporaryIn.size > 0 {
        msgTemporaryIn := msgTemporaryIn.(body := Resize(msgTemporaryIn.body, msgTemporaryIn.size));
        reading := reading + [BodyIn];
      } else {
        AddToIncomingMessageQueue(left);
      }
    }

    method OnBodyRead(bytes: Bytes, left: Option<Packet>)
      modifies this`msgTemporaryIn, this`reading, this`qMessagesIn
      ensures In() == BodyRead(old(In()), bytes, left)
    {
      msgTemporaryIn := msgTemporaryIn.(body := bytes);
      AddToIncomingMessageQueue(left);
    }

    method AddToIncomingMessageQueue(left: Option<Packet>)
      modifies this`msgTemporaryIn, this`reading, this`qMessagesIn
      ensures In() == Deliver(old(In()), left)
    {
      qMessagesIn := qMessagesIn + [msgTemporaryIn];
      if left.Some? {
        msgTemporaryIn := left.value;
      }
      reading := reading + [HeaderIn];
    }
  }
}
