/** Length-prefixed messages over one TCP connection of the asynchronous engine: the
    bounded queue of frames with its single writer, and the reader at the other end
    (src/Net/Async/TcpConnection.h). A frame is four big-endian length bytes and
    then the message. */
module TcpFraming {
  import opened Prelude

  const PREFIX: nat := 4
  const MAX_FRAMES: nat := 1024
  const MAX_MESSAGE_LIMIT: nat := 16 * 1024 * 1024
  const MAX_QUEUE_LIMIT: nat := 256 * 1024 * 1024
  const QUEUE_HEADROOM: nat := 16

  // ------------------------------------------------------------- length bytes

  // static_cast<uint8_t>(length >> 24) and so on.
  function LengthBytes(length: nat): (r: Bytes)
    ensures |r| == PREFIX
  {
    [((length / 16777216) % 256) as Byte, ((length / 65536) % 256) as Byte, ((length / 256) % 256) as Byte,
     (length % 256) as Byte]
  }

  function LengthOf(header: Bytes): nat
    requires |header| == PREFIX
  {
    16777216 * (header[0] as nat) + 65536 * (header[1] as nat) + 256 * (header[2] as nat) + header[3] as nat
  }

  lemma LengthRoundTrip(length: nat)
    requires length < 0x1_0000_0000
    ensures LengthOf(LengthBytes(length)) == length
  {
    assert length / 256 / 256 == length / 65536 && length / 65536 / 256 == length / 16777216;
  }

  function Frame(message: Bytes): (r: Bytes)
    ensures |r| == |message| + PREFIX
  {
    LengthBytes(|message|) + message
  }

  /** A frame on the wire: the length in four bytes, the highest first, and then the
      message. */
  lemma FrameLayout(message: Bytes)
    requires |message| < 0x1_0000_0000
    ensures
      var frame := Frame(message);
      && |frame| == |message| + 4 && frame[4..] == message
      && 16777216 * (frame[0] as nat) + 65536 * (frame[1] as nat) + 256 * (frame[2] as nat) + frame[3] as nat
           == |message|
  {
    LengthRoundTrip(|message|);
  }

  function Frames(messages: seq<Bytes>): (r: seq<Bytes>)
    ensures |r| == |messages|
  {
    seq(|messages|, i requires 0 <= i < |messages| => Frame(messages[i]))
  }

  // ------------------------------------------------------------------- reader

  // Taking one message off the front of a stream: None while it is incomplete,
  // and a refusal as soon as the length is over the limit.
  datatype Taken = Message(message: Bytes, rest: Bytes) | Incomplete | TooLong

  function TakeMessage(stream: Bytes, maxMessage: nat): Taken
  {
    if |stream| < PREFIX then Incomplete
    else
      var length := LengthOf(stream[..PREFIX]);
      if length > maxMessage then TooLong
      else if |stream| < PREFIX + length then Incomplete
      else Message(stream[PREFIX..PREFIX + length], stream[PREFIX + length..])
  }

  /** A reader that shares the limit refuses a frame as soon as it has read a length
      beyond it, and only then. */
  lemma LongFrameIsRefused(message: Bytes, cut: nat, maxMessage: nat)
    requires |message| < 0x1_0000_0000 && cut <= |message| + 4
    ensures TakeMessage(Frame(message)[..cut], maxMessage) == TooLong <==> cut >= 4 && |message| > maxMessage
  {
    LengthRoundTrip(|message|);
    var stream := Frame(message)[..cut];
    if cut >= 4 {
      assert stream[..PREFIX] == LengthBytes(|message|);
    }
  }

  // All messages of a stream, and what is left behind them.
  function Parse(stream: Bytes, maxMessage: nat): (seq<Bytes>, Taken)
    decreases |stream|
  {
    match TakeMessage(stream, maxMessage)
    case Message(message, rest) =>
      var (more, end) := Parse(rest, maxMessage);
      ([message] + more, end)
    case end => ([], end)
  }

  lemma TakeOfFrame(message: Bytes, rest: Bytes, maxMessage: nat)
    requires |message| <= maxMessage < 0x1_0000_0000
    ensures TakeMessage(Frame(message) + rest, maxMessage) == Message(message, rest)
  {
    var stream := Frame(message) + rest;
    LengthRoundTrip(|message|);
    assert stream[..PREFIX] == LengthBytes(|message|);
    assert stream[PREFIX..PREFIX + |message|] == message;
    assert stream[PREFIX + |message|..] == rest;
  }

  ghost predicate AllWithin(messages: seq<Bytes>, maxMessage: nat)
  {
    forall i :: 0 <= i < |messages| ==> |messages[i]| <= maxMessage
  }

  lemma ParseFront(message: Bytes, rest: Bytes, maxMessage: nat)
    requires |message| <= maxMessage < 0x1_0000_0000
    ensures Parse(Frame(message) + rest, maxMessage) == ([message] + Parse(rest, maxMessage).0, Parse(rest, maxMessage).1)
  {
    TakeOfFrame(message, rest, maxMessage);
  }

  lemma FramesFront(messages: seq<Bytes>, tail: Bytes)
    requires messages != []
    ensures Flatten(Frames(messages)) + tail == Frame(messages[0]) + (Flatten(Frames(messages[1..])) + tail)
  {
    assert Frames(messages) == [Frame(messages[0])] + Frames(messages[1..]);
    FlattenPushFront(Frame(messages[0]), Frames(messages[1..]));
  }

  /** Framing round-trips: a reader with the same limit gets back exactly the
      messages sent, in order. With the stream cut anywhere it has the messages
      that are wholly there, and goes on with the part of a frame that follows. */
  lemma {:induction false} FramesParseBack(messages: seq<Bytes>, tail: Bytes, maxMessage: nat)
    requires AllWithin(messages, maxMessage) && maxMessage < 0x1_0000_0000
    ensures Parse(Flatten(Frames(messages)) + tail, maxMessage).0 == messages + Parse(tail, maxMessage).0
    ensures Parse(Flatten(Frames(messages)) + tail, maxMessage).1 == Parse(tail, maxMessage).1
  {
    if messages == [] {
      NoFrames(messages, tail);
      NothingInFront(messages, Parse(tail, maxMessage).0);
    } else {
      var stream := Flatten(Frames(messages[1..])) + tail;
      FramesFront(messages, tail);
      ParseFront(messages[0], stream, maxMessage);
      FramesParseBack(messages[1..], tail, maxMessage);
      FrontBack(messages, Parse(tail, maxMessage).0);
    }
  }

  lemma NoFrames(messages: seq<Bytes>, tail: Bytes)
    requires messages == []
    ensures Flatten(Frames(messages)) + tail == tail
  {
    assert Frames(messages) == [];
  }

  lemma NothingInFront(messages: seq<Bytes>, more: seq<Bytes>)
    requires messages == []
    ensures messages + more == more
  {
  }

  lemma FrontBack(messages: seq<Bytes>, more: seq<Bytes>)
    requires messages != []
    ensures [messages[0]] + (messages[1..] + more) == messages + more
  {
  }

  // ------------------------------------------------------------------- sender

  // sent: messages accepted; written: the bytes of completed writes.
  datatype Sender = Sender(maxMessage: nat, maxQueue: nat, isOpen: bool, closed: bool, outgoing: seq<Bytes>,
                           queuedBytes: int, writing: bool, sent: seq<Bytes>, written: Bytes)

  function Opened(maxMessage: nat, maxQueue: nat): Sender
  {
    Sender(maxMessage, maxQueue, true, false, [], 0, false, [], [])
  }

  datatype SendResult = Accepted | NotOpen | MessageTooLong | QueueFull | WriteFailed

  function Admission(s: Sender, message: Bytes): SendResult
  {
    if s.closed || !s.isOpen then NotOpen
    else if |message| > s.maxMessage then MessageTooLong
    else if |s.outgoing| >= MAX_FRAMES || |message| + PREFIX > s.maxQueue
            || s.queuedBytes > s.maxQueue - (|message| + PREFIX)
    then QueueFull
    else Accepted
  }

  function Closing(s: Sender): Sender
  {
    if s.closed then s else s.(closed := true, outgoing := [], queuedBytes := 0)
  }

  // starts is false when the write cannot be initiated, which closes the
  // connection. The frame is queued before.
  function WriteNext(s: Sender, starts: bool): Sender
  {
    if starts then s.(writing := true) else Closing(s)
  }

  function Queued(s: Sender, message: Bytes): Sender
  {
    s.(outgoing := s.outgoing + [Frame(message)], queuedBytes := s.queuedBytes + |message| + PREFIX,
       sent := s.sent + [message])
  }

  function Send(s: Sender, message: Bytes, starts: bool): Sender
  {
    if Admission(s, message) != Accepted then s
    else if s.outgoing == [] then WriteNext(Queued(s, message), starts)
    else Queued(s, message)
  }

  // The frame at the front has been written, or the write failed.
  function Written(s: Sender, failed: bool, starts: bool): Sender
  {
    if !s.writing then s
    else
      var over := s.(writing := false);
      if s.closed || s.outgoing == [] then over
      else if failed then Closing(over)
      else
        var next := over.(queuedBytes := s.queuedBytes - |s.outgoing[0]|, outgoing := s.outgoing[1..],
                          written := s.written + s.outgoing[0]);
        if next.outgoing != [] then WriteNext(next, starts) else next
  }

  datatype Action = Sends(message: Bytes, starts: bool) | WriteDone(failed: bool, starts: bool) | Closes

  function Step(s: Sender, a: Action): Sender
  {
    match a
    case Sends(message, starts) => Send(s, message, starts)
    case WriteDone(failed, starts) => Written(s, failed, starts)
    case Closes => Closing(s)
  }

  function Play(start: Sender, actions: seq<Action>): Sender
  {
    if actions == [] then start
    else Step(Play(start, actions[..|actions| - 1]), actions[|actions| - 1])
  }

  function FrameBytes(frames: seq<Bytes>): nat
  {
    |Flatten(frames)|
  }

  ghost predicate Inv(s: Sender)
  {
    && AllWithin(s.sent, s.maxMessage)
    && (!s.closed ==>
          && s.written + Flatten(s.outgoing) == Flatten(Frames(s.sent))
          && s.queuedBytes == FrameBytes(s.outgoing) <= s.maxQueue
          && |s.outgoing| <= MAX_FRAMES
          && (s.writing <==> s.outgoing != []))
    && (s.closed ==> s.outgoing == [] && s.queuedBytes == 0 && s.written <= Flatten(Frames(s.sent)))
  }

  // ------------------------------------------------------------- preservation

  lemma QueuedFlatten(s: Sender, message: Bytes)
    ensures Flatten(Queued(s, message).outgoing) == Flatten(s.outgoing) + Frame(message)
    ensures Flatten(Frames(Queued(s, message).sent)) == Flatten(Frames(s.sent)) + Frame(message)
  {
    assert (s.outgoing + [Frame(message)])[..|s.outgoing|] == s.outgoing;
    assert Frames(s.sent + [message]) == Frames(s.sent) + [Frame(message)];
    assert (Frames(s.sent) + [Frame(message)])[..|s.sent|] == Frames(s.sent);
  }

  lemma SendKeeps(s: Sender, message: Bytes, starts: bool)
    requires Inv(s)
    ensures Inv(Send(s, message, starts))
  {
    if Admission(s, message) == Accepted {
      QueuedFlatten(s, message);
      assert s.written + (Flatten(s.outgoing) + Frame(message)) == s.written + Flatten(s.outgoing) + Frame(message);
      WrittenIsPrefix(s);
    }
  }

  lemma WrittenIsPrefix(s: Sender)
    requires Inv(s)
    ensures s.written <= Flatten(Frames(s.sent))
  {
  }

  lemma WrittenKeeps(s: Sender, failed: bool, starts: bool)
    requires Inv(s)
    ensures Inv(Written(s, failed, starts))
  {
    WrittenIsPrefix(s);
    if s.writing && !s.closed && !failed {
      var front, rest := s.outgoing[0], s.outgoing[1..];
      assert s.outgoing == [front] + rest;
      FlattenPushFront(front, rest);
      assert s.written + (front + Flatten(rest)) == s.written + front + Flatten(rest);
    }
  }

  lemma CloseKeeps(s: Sender)
    requires Inv(s)
    ensures Inv(Closing(s))
  {
    WrittenIsPrefix(s);
  }

  lemma StepKeeps(s: Sender, a: Action)
    requires Inv(s)
    ensures Inv(Step(s, a)) && Step(s, a).maxMessage == s.maxMessage && Step(s, a).maxQueue == s.maxQueue
  {
    match a
    case Sends(message, starts) => SendKeeps(s, message, starts);
    case WriteDone(failed, starts) => WrittenKeeps(s, failed, starts);
    case Closes => CloseKeeps(s);
  }

  lemma {:induction false} PlayKeeps(maxMessage: nat, maxQueue: nat, actions: seq<Action>)
    ensures
      var s := Play(Opened(maxMessage, maxQueue), actions);
      Inv(s) && s.maxMessage == maxMessage && s.maxQueue == maxQueue
  {
    if actions == [] {
      assert Frames([]) == [];
    } else {
      PlayKeeps(maxMessage, maxQueue, actions[..|actions| - 1]);
      StepKeeps(Play(Opened(maxMessage, maxQueue), actions[..|actions| - 1]), actions[|actions| - 1]);
    }
  }

  // ------------------------------------------------------------- main results

  /** While the connection is open the bytes written and the queued frames are
      exactly the frames of the accepted messages in order, the byte count is that
      of the queued frames and within the limit, and a write is in flight exactly
      when a frame is queued. */
  lemma QueueIsExact(maxMessage: nat, maxQueue: nat, actions: seq<Action>)
    requires !Play(Opened(maxMessage, maxQueue), actions).closed
    ensures
      var s := Play(Opened(maxMessage, maxQueue), actions);
      && s.written + Flatten(s.outgoing) == Flatten(Frames(s.sent))
      && 0 <= s.queuedBytes == |Flatten(s.outgoing)| <= maxQueue && |s.outgoing| <= MAX_FRAMES
      && (s.writing <==> s.outgoing != [])
  {
    PlayKeeps(maxMessage, maxQueue, actions);
  }

  /** End to end: whatever has been written, closed or not, a peer with the same
      limit reads a prefix of the accepted messages from it, and never refuses a
      length. */
  lemma PeerReadsAPrefix(maxMessage: nat, maxQueue: nat, actions: seq<Action>)
    requires maxMessage < 0x1_0000_0000
    ensures
      var s := Play(Opened(maxMessage, maxQueue), actions);
      Parse(s.written, maxMessage).0 <= s.sent && Parse(s.written, maxMessage).1 == Incomplete
  {
    PlayKeeps(maxMessage, maxQueue, actions);
    var s := Play(Opened(maxMessage, maxQueue), actions);
    WrittenIsPrefix(s);
    PrefixParses(s.sent, s.written, maxMessage);
  }

  // Cutting the stream of frames anywhere leaves an incomplete frame at the end.
  lemma {:induction false} PrefixParses(messages: seq<Bytes>, stream: Bytes, maxMessage: nat)
    requires AllWithin(messages, maxMessage) && maxMessage < 0x1_0000_0000
    requires stream <= Flatten(Frames(messages))
    ensures Parse(stream, maxMessage).0 <= messages && Parse(stream, maxMessage).1 == Incomplete
  {
    if messages == [] {
      assert Frames(messages) == [];
    } else {
      var front, rest := Frame(messages[0]), Flatten(Frames(messages[1..]));
      FramesFront(messages, []);
      NothingBehind(Flatten(Frames(messages)), rest);
      if |stream| < |front| {
        PartOfFrame(messages[0], stream, maxMessage);
      } else {
        assert stream == front + stream[|front|..];
        PrefixParses(messages[1..], stream[|front|..], maxMessage);
        ParseFront(messages[0], stream[|front|..], maxMessage);
      }
    }
  }

  lemma NothingBehind(all: Bytes, rest: Bytes)
    ensures all + [] == all && rest + [] == rest
  {
  }

  lemma PartOfFrame(message: Bytes, stream: Bytes, maxMessage: nat)
    requires |message| <= maxMessage < 0x1_0000_0000
    requires stream <= Frame(message) && |stream| < |Frame(message)|
    ensures TakeMessage(stream, maxMessage) == Incomplete
  {
    LengthRoundTrip(|message|);
    if |stream| >= PREFIX {
      assert stream[..PREFIX] == LengthBytes(|message|);
    }
  }

  // What the option decoder guarantees of the limits.
  predicate ValidLimits(maxMessage: nat, maxQueue: nat)
  {
    0 < maxMessage <= MAX_MESSAGE_LIMIT && maxMessage + QUEUE_HEADROOM <= maxQueue <= MAX_QUEUE_LIMIT
  }

  lemma {:induction false} StaysPublished(maxMessage: nat, maxQueue: nat, actions: seq<Action>)
    ensures Play(Opened(maxMessage, maxQueue), actions).isOpen
  {
    if actions != [] {
      StaysPublished(maxMessage, maxQueue, actions[..|actions| - 1]);
    }
  }

  // There is room for the frame of the message beside the frames that are queued.
  predicate HasRoom(s: Sender, maxMessage: nat, maxQueue: nat, message: Bytes)
  {
    && |message| <= maxMessage && |s.outgoing| < 1024 && |Flatten(s.outgoing)| + |message| + 4 <= maxQueue
  }

  /** What a send comes to as long as the connection is open: a message within the
      limit that finds room is queued behind the others, and its write is under way or
      follows theirs; when the queue was empty and the write cannot start the
      connection closes; any other message changes nothing. */
  lemma SendAnswers(maxMessage: nat, maxQueue: nat, actions: seq<Action>, message: Bytes, starts: bool)
    requires !Play(Opened(maxMessage, maxQueue), actions).closed
    ensures
      var s := Play(Opened(maxMessage, maxQueue), actions);
      var t := Step(s, Sends(message, starts));
      && (Admission(s, message) == Accepted <==> HasRoom(s, maxMessage, maxQueue, message))
      && if !HasRoom(s, maxMessage, maxQueue, message) then t == s
         else
           && t.sent == s.sent + [message] && t.written == s.written
           && if s.outgoing == [] && !starts then t.closed
              else !t.closed && t.writing && t.outgoing == s.outgoing + [Frame(message)]
  {
    PlayKeeps(maxMessage, maxQueue, actions);
    StaysPublished(maxMessage, maxQueue, actions);
  }

  /** What the end of a write comes to: the front frame has been written and the next
      one follows, until the queue is empty; a failed write, or one that cannot start,
      closes the connection. */
  lemma WriteAnswers(maxMessage: nat, maxQueue: nat, actions: seq<Action>, failed: bool, starts: bool)
    requires
      var s := Play(Opened(maxMessage, maxQueue), actions);
      !s.closed && s.outgoing != []
    ensures
      var s := Play(Opened(maxMessage, maxQueue), actions);
      var t := Step(s, WriteDone(failed, starts));
      && t.sent == s.sent
      && if failed then t.closed && t.written == s.written
         else
           && t.written == s.written + s.outgoing[0]
           && if |s.outgoing| > 1 && !starts then t.closed
              else !t.closed && t.outgoing == s.outgoing[1..] && (t.writing <==> |s.outgoing| > 1)
  {
    PlayKeeps(maxMessage, maxQueue, actions);
  }

  /** Under validated limits a message of any admissible size, up to the largest,
      is accepted when the queue is empty. */
  lemma EmptyQueueAccepts(maxMessage: nat, maxQueue: nat, actions: seq<Action>, message: Bytes)
    requires ValidLimits(maxMessage, maxQueue) && |message| <= maxMessage
    requires
      var s := Play(Opened(maxMessage, maxQueue), actions);
      !s.closed && s.isOpen && s.outgoing == []
    ensures Admission(Play(Opened(maxMessage, maxQueue), actions), message) == Accepted
  {
    PlayKeeps(maxMessage, maxQueue, actions);
  }

  // ------------------------------------------------------- the imperative form

  class TcpConnection {
    const maxMessage: nat
    const maxQueue: nat
    var isOpen: bool
    var closed: bool
    var outgoing: seq<Bytes>
    var queuedBytes: int
    var writing: bool
    ghost var sent: seq<Bytes>
    ghost var written: Bytes

    ghost function Model(): Sender
      reads this
    {
      Sender(maxMessage, maxQueue, isOpen, closed, outgoing, queuedBytes, writing, sent, written)
    }

    // A connection that has been published.
    constructor (maxMessage: nat, maxQueue: nat)
      ensures Model() == Opened(maxMessage, maxQueue)
    {
      this.maxMessage, this.maxQueue := maxMessage, maxQueue;
      isOpen, closed, outgoing, queuedBytes, writing := true, false, [], 0, false;
      sent, written := [], [];
    }

    static method BuildFrame(message: Bytes) returns (frame: Bytes)
      requires |message| < 0x1_0000_0000
      ensures frame == Frame(message)
    {
      var bytes := new Byte[|message| + PREFIX](_ => 0);
      var length := |message|;
      bytes[0] := ((length / 16777216) % 256) as Byte;
      bytes[1] := ((length / 65536) % 256) as Byte;
      bytes[2] := ((length / 256) % 256) as Byte;
      bytes[3] := (length % 256) as Byte;
      for i := 0 to length
        invariant bytes[..PREFIX] == LengthBytes(length)
        invariant bytes[PREFIX..PREFIX + i] == message[..i]
      {
        bytes[PREFIX + i] := message[i];
      }
      assert bytes[..] == bytes[..PREFIX] + bytes[PREFIX..PREFIX + length];
      return bytes[..];
    }

    method CloseConnection()
      modifies this`closed, this`outgoing, this`queuedBytes
      ensures Model() == Closing(old(Model()))
    {
      if closed {
        return;
      }
      closed := true;
      outgoing := [];
      queuedBytes := 0;
    }

    method StartWrite(starts: bool)
      modifies this`closed, this`outgoing, this`queuedBytes, this`writing
      ensures Model() == WriteNext(old(Model()), starts)
    {
      if !starts {
        CloseConnection();
        return;
      }
      writing := true;
    }

    method SendMessage(message: Bytes, starts: bool) returns (result: SendResult)
      requires maxMessage < 0x1_0000_0000
      modifies this
      ensures
        var admission := Admission(old(Model()), message);
        result == if admission == Accepted && old(outgoing) == [] && !starts then WriteFailed else admission
      ensures Model() == Send(old(Model()), message, starts)
    {
      if closed || !isOpen {
        return NotOpen;
      }
      if |message| > maxMessage {
        return MessageTooLong;
      }
      var wireSize := |message| + PREFIX;
      if |outgoing| >= MAX_FRAMES || wireSize > maxQueue || queuedBytes > maxQueue - wireSize {
        return QueueFull;
      }
      var frame := BuildFrame(message);
      var busy := outgoing != [];
      outgoing := outgoing + [frame];
      queuedBytes := queuedBytes + wireSize;
      sent := sent + [message];
      if !busy {
        StartWrite(starts);
        return if starts then Accepted else WriteFailed;
      }
      return Accepted;
    }

    method OnWritten(failed: bool, starts: bool)
      modifies this
      ensures Model() == Written(old(Model()), failed, starts)
    {
      if !writing {
        return;
      }
      writing := false;
      if closed || outgoing == [] {
        return;
      }
      if failed {
        CloseConnection();
        return;
      }
      var frame := outgoing[0];
      queuedBytes := queuedBytes - |frame|;
      outgoing := outgoing[1..];
      written := written + frame;
      if outgoing != [] {
        StartWrite(starts);
      }
    }

    // read_header and read_body on what has arrived: the next message, if it is
    // complete and admissible.
    static method ReadMessage(stream: Bytes, maxMessage: nat) returns (taken: Taken)
      ensures taken == TakeMessage(stream, maxMessage)
    {
      if |stream| < PREFIX {
        return Incomplete;
      }
      var length := 16777216 * (stream[0] as nat) + 65536 * (stream[1] as nat) + 256 * (stream[2] as nat)
                    + stream[3] as nat;
      assert length == LengthOf(stream[..PREFIX]);
      if length > maxMessage {
        return TooLong;
      }
      if |stream| < PREFIX + length {
        return Incomplete;
      }
      return Message(stream[PREFIX..PREFIX + length], stream[PREFIX + length..]);
    }
  }
}
