/** One HTTP connection of the asynchronous engine: it reads a request, hands it
    to the host, waits for the host's response, writes it and reads on
    (src/Net/Async/HttpConnection.h). The parser, the TLS handshake and the write
    are operations whose completions run as handlers on the one worker thread, so
    a run is any sequence of completions, host responses, closes, and ids taken
    from the shared counter by other connections. */
module HttpConnection {
  import opened Prelude
  import H = HttpCodec

  const ID_RANGE: nat := 0x1_0000_0000_0000_0000
  const ERROR_RESPONSE_BYTES: nat := 256
  const HTTP_1_1: nat := 11

  // ----------------------------------------------------------------- requests

  datatype Known = Host | Expect | Upgrade | Unnamed

  datatype Field = Field(known: Known, name: Bytes, value: Bytes)

  datatype Verb = Head | Connect | OptionsVerb | OtherVerb

  // What the parser has read of a request.
  datatype Request = Request(version: nat, verb: Verb, verbText: Bytes, target: Bytes,
                             fields: seq<Field>, body: Bytes, keepAlive: bool)

  const SLASH: Byte := 47
  const STAR: Byte := 42
  const HASH: Byte := 35
  const COLON_SPACE: Bytes := [58, 32]
  const CR_LF: Bytes := [13, 10]

  function Count(fields: seq<Field>, known: Known): nat
  {
    if fields == [] then 0
    else Count(fields[..|fields| - 1], known) + if fields[|fields| - 1].known == known then 1 else 0
  }

  // The value a lookup of the host field finds: that of the first one.
  function HostValue(fields: seq<Field>): Bytes
  {
    if fields == [] then [] else if fields[0].known == Host then fields[0].value else HostValue(fields[1..])
  }

  // The status a request is refused with, in the order the checks are made.
  function Refusal(r: Request): Option<nat>
  {
    if r.version != HTTP_1_1 then Some(505)
    else if Count(r.fields, Host) != 1 || HostValue(r.fields) == [] then Some(400)
    else if Count(r.fields, Expect) != 0 then Some(417)
    else if r.verb == Connect || Count(r.fields, Upgrade) != 0 then Some(501)
    else if !((r.target != [] && r.target[0] == SLASH) || (r.target == [STAR] && r.verb == OptionsVerb))
            || |r.target| > 2048 || HASH in r.target || r.verbText == [] || |r.verbText| > 32
    then Some(400)
    else None
  }

  function Line(f: Field): Bytes { f.name + COLON_SPACE + f.value + CR_LF }

  // All header lines, one after the other.
  function HeaderText(fields: seq<Field>): Bytes
  {
    if fields == [] then [] else HeaderText(fields[..|fields| - 1]) + Line(fields[|fields| - 1])
  }

  /** The header text is one line for each field, in order: the name, a colon and a
      space, the value, and a line end. */
  lemma HeaderTextSays(fields: seq<Field>, f: Field)
    ensures HeaderText([]) == []
    ensures HeaderText(fields + [f]) == HeaderText(fields) + (f.name + [58, 32] + f.value + [13, 10])
  {
    assert (fields + [f])[..|fields|] == fields;
  }

  lemma {:induction false} HeaderTextGrows(fields: seq<Field>, k: nat)
    requires k <= |fields|
    ensures |HeaderText(fields[..k])| <= |HeaderText(fields)|
  {
    if k == |fields| {
      assert fields[..k] == fields;
    } else {
      HeaderTextGrows(fields[..|fields| - 1], k);
      assert fields[..|fields| - 1][..k] == fields[..k];
    }
  }

  /** The loop gives up at the first field that does not fit into what is left of
      the limit. It gives up exactly when the whole text exceeds the limit. */
  method BuildHeaders(fields: seq<Field>) returns (headers: Option<Bytes>)
    ensures headers == if |HeaderText(fields)| <= H.HEADER_LIMIT then Some(HeaderText(fields)) else None
  {
    var text: Bytes := [];
    for i := 0 to |fields|
      invariant text == HeaderText(fields[..i]) && |text| <= H.HEADER_LIMIT
    {
      assert fields[..i + 1][..i] == fields[..i];
      var field := fields[i];
      if |field.name| + |field.value| + 4 > H.HEADER_LIMIT - |text| {
        HeaderTextGrows(fields, i + 1);
        return None;
      }
      text := text + field.name;
      text := text + COLON_SPACE;
      text := text + field.value;
      text := text + CR_LF;
      assert text == HeaderText(fields[..i]) + Line(field);
    }
    assert fields[..|fields|] == fields;
    return Some(text);
  }

  // ------------------------------------------------------------- the machine

  datatype Reading = NoRead | HeaderRead | BodyRead

  // A reply put on the wire: the host's answer to a request, or an error
  // response of the engine's own.
  datatype Reply = Answer(id: nat) | Failure(status: nat)

  // A request as the host received it.
  datatype Delivery = Delivery(id: nat, payload: Bytes)

  datatype Log = Log(started: nat, delivered: seq<Delivery>, written: seq<Reply>)

  datatype Conn = Conn(maxMessage: nat, maxSend: nat, nextId: nat,
                       closed: bool, isOpen: bool, pending: nat, head: bool, keepAlive: bool,
                       handshaking: bool, reading: Reading, writing: bool, keepAfterWrite: bool, log: Log)

  function Accepted(maxMessage: nat, maxSend: nat, nextId: nat): Conn
  {
    Conn(maxMessage, maxSend, nextId, false, false, 0, false, false, true, NoRead, false, false, Log(0, [], []))
  }

  // What the host wants to send. headerBytes is None when the response does not
  // validate, and otherwise the size its headers are accounted for.
  datatype Response = Response(headerBytes: Option<nat>, bodyBytes: nat, closeConnection: bool)

  datatype ReadError = EndOfStream | Aborted | BodyLimit | HeaderLimit | BufferOverflow | OtherError

  // accepts: the host took the event. starts: the write could be initiated.
  datatype Action =
    | Begin(accepts: bool)
    | HeaderArrived(request: Request, complete: bool, accepts: bool, starts: bool)
    | BodyArrived(request: Request, accepts: bool, starts: bool)
    | ReadFailed(error: ReadError, starts: bool)
    | Respond(id: nat, response: Response, starts: bool)
    | WriteDone(failed: bool)
    | Close
    | IdTakenElsewhere

  function NextId(id: nat): nat { if id + 1 == ID_RANGE then 0 else id + 1 }

  function Closing(c: Conn): Conn
  {
    if c.closed then c else c.(closed := true, pending := 0)
  }

  function StartRead(c: Conn): Conn
  {
    c.(reading := HeaderRead, log := c.log.(started := c.log.started + 1))
  }

  function Write(c: Conn, reply: Reply, keepAlive: bool, starts: bool): Conn
  {
    var w := c.(pending := 0);
    if starts then w.(writing := true, keepAfterWrite := keepAlive, log := w.log.(written := w.log.written + [reply]))
    else Closing(w)
  }

  function RejectHttp(c: Conn, status: nat, starts: bool): Conn
  {
    if c.maxSend < ERROR_RESPONSE_BYTES then Closing(c) else Write(c, Failure(status), false, starts)
  }

  function PartsOf(r: Request, id: nat): H.Parts
  {
    H.Parts(id, r.verbText, r.target, HeaderText(r.fields), r.body)
  }

  function Dispatch(c: Conn, r: Request, accepts: bool, starts: bool): Conn
  {
    if Refusal(r).Some? then RejectHttp(c, Refusal(r).value, starts)
    else if |HeaderText(r.fields)| > H.HEADER_LIMIT then RejectHttp(c, 431, starts)
    else if H.Total(PartsOf(r, c.nextId)) > c.maxMessage then RejectHttp(c, 413, starts)
    else if c.nextId == 0 then Closing(c)
    else Deliver(c.(nextId := NextId(c.nextId)), r, c.nextId, accepts)
  }

  // None from the encoder is an exception, which closes the connection.
  function Deliver(c: Conn, r: Request, id: nat, accepts: bool): Conn
  {
    match H.Encode(PartsOf(r, id))
    case None => Closing(c)
    case Some(payload) =>
      var waiting := c.(pending := id, head := r.verb == Head, keepAlive := r.keepAlive);
      if accepts then waiting.(log := c.log.(delivered := c.log.delivered + [Delivery(id, payload)]))
      else Closing(waiting)
  }

  predicate Accepts(c: Conn, id: nat, response: Response)
  {
    && !c.closed && c.isOpen && id != 0 && c.pending == id
    && response.headerBytes.Some? && response.headerBytes.value <= c.maxSend
    && (if c.head then 0 else response.bodyBytes) <= c.maxSend - response.headerBytes.value
  }

  function AfterReadError(c: Conn, error: ReadError, starts: bool): Conn
  {
    match error
    case EndOfStream => Closing(c)
    case Aborted => Closing(c)
    case BodyLimit => RejectHttp(c, 413, starts)
    case HeaderLimit => RejectHttp(c, 431, starts)
    case BufferOverflow => RejectHttp(c, 431, starts)
    case OtherError => RejectHttp(c, 400, starts)
  }

  function AfterHeader(c: Conn, r: Request, complete: bool, accepts: bool, starts: bool): Conn
  {
    if c.closed then c
    else if Refusal(r).Some? then RejectHttp(c, Refusal(r).value, starts)
    else if complete then Dispatch(c, r, accepts, starts)
    else c.(reading := BodyRead)
  }

  function AfterWrite(c: Conn, failed: bool): Conn
  {
    if c.closed then c else if failed || !c.keepAfterWrite then Closing(c) else StartRead(c)
  }

  // A completion without its operation, and a refused response, change nothing.
  function Step(c: Conn, a: Action): Conn
  {
    match a
    case Begin(accepts) =>
      if !c.handshaking then c
      else if c.closed then c.(handshaking := false)
      else if accepts then StartRead(c.(handshaking := false, isOpen := true))
      else Closing(c.(handshaking := false))
    case HeaderArrived(r, complete, accepts, starts) =>
      if c.reading != HeaderRead then c else AfterHeader(c.(reading := NoRead), r, complete, accepts, starts)
    case BodyArrived(r, accepts, starts) =>
      if c.reading != BodyRead then c
      else if c.closed then c.(reading := NoRead)
      else Dispatch(c.(reading := NoRead), r, accepts, starts)
    case ReadFailed(error, starts) =>
      if c.reading == NoRead then c
      else if c.closed then c.(reading := NoRead)
      else AfterReadError(c.(reading := NoRead), error, starts)
    case Respond(id, response, starts) =>
      if Accepts(c, id, response) then Write(c, Answer(id), c.keepAlive && !response.closeConnection, starts) else c
    case WriteDone(failed) =>
      if !c.writing then c else AfterWrite(c.(writing := false), failed)
    case Close => Closing(c)
    case IdTakenElsewhere => if c.nextId == 0 then c else c.(nextId := NextId(c.nextId))
  }

  function Play(start: Conn, actions: seq<Action>): Conn
  {
    if actions == [] then start
    else Step(Play(start, actions[..|actions| - 1]), actions[|actions| - 1])
  }

  // ---------------------------------------------------------------- invariant

  // What an open connection is busy with.
  function Activities(c: Conn): nat
  {
    (if c.handshaking then 1 else 0) + (if c.reading != NoRead then 1 else 0)
    + (if c.pending != 0 then 1 else 0) + (if c.writing then 1 else 0)
  }

  predicate Busy(c: Conn)
  {
    && (!c.closed ==> Activities(c) == 1 && (c.handshaking <==> !c.isOpen))
    && (c.closed ==> c.pending == 0)
  }

  function Ids(deliveries: seq<Delivery>): seq<nat>
  {
    seq(|deliveries|, i requires 0 <= i < |deliveries| => deliveries[i].id)
  }

  predicate Issued(c: Conn, id: nat) { 0 < id && (c.nextId == 0 || id < c.nextId) }

  ghost predicate Ascending(ids: seq<nat>)
  {
    forall i, j :: 0 <= i < j < |ids| ==> ids[i] < ids[j]
  }

  ghost predicate AllIssued(c: Conn)
  {
    c.nextId < ID_RANGE && forall i :: 0 <= i < |c.log.delivered| ==> Issued(c, c.log.delivered[i].id)
  }

  // The host can decode what it was given, and finds the id there.
  predicate Readable(d: Delivery)
  {
    H.Decode(d.payload).Some? && H.Decode(d.payload).value.id == d.id
  }

  ghost predicate AllReadable(deliveries: seq<Delivery>)
  {
    forall i :: 0 <= i < |deliveries| ==> Readable(deliveries[i])
  }

  // The ids answered, in the order of the wire.
  function Answered(written: seq<Reply>): seq<nat>
  {
    if written == [] then []
    else
      var last := written[|written| - 1];
      Answered(written[..|written| - 1]) + if last.Answer? then [last.id] else []
  }

  ghost predicate NoFailures(written: seq<Reply>)
  {
    forall i :: 0 <= i < |written| ==> written[i].Answer?
  }

  // An error response is the last thing on the wire.
  ghost predicate FailsLast(c: Conn)
  {
    var w := c.log.written;
    && (w != [] ==> NoFailures(w[..|w| - 1]))
    && (w != [] && w[|w| - 1].Failure? && !c.closed ==> c.writing && !c.keepAfterWrite)
  }

  // Every request delivered is answered, except the one that is pending, or the
  // last one of a connection that closed meanwhile.
  ghost predicate InOrder(c: Conn)
  {
    var ids, answered := Ids(c.log.delivered), Answered(c.log.written);
    && (!c.closed ==> ids == if c.pending == 0 then answered else answered + [c.pending])
    && (c.closed ==> answered <= ids && |ids| <= |answered| + 1)
  }

  // Every reply on the wire belongs to a read of its own.
  predicate Paired(c: Conn)
  {
    && |c.log.written| <= c.log.started
    && (!c.closed ==> c.log.started == |c.log.written| + if c.reading != NoRead || c.pending != 0 then 1 else 0)
  }

  ghost predicate Inv(c: Conn)
  {
    && Busy(c) && Paired(c) && FailsLast(c) && InOrder(c)
    && AllIssued(c) && Ascending(Ids(c.log.delivered)) && AllReadable(c.log.delivered)
  }

  // An open connection between two operations. It may owe a reply to the
  // request it read last.
  ghost predicate Between(c: Conn, owes: bool)
  {
    && !c.closed && c.isOpen && Activities(c) == 0
    && c.log.started == |c.log.written| + (if owes then 1 else 0)
    && NoFailures(c.log.written) && Ids(c.log.delivered) == Answered(c.log.written) && Sound(c)
  }

  ghost predicate Sound(c: Conn)
  {
    AllIssued(c) && Ascending(Ids(c.log.delivered)) && AllReadable(c.log.delivered)
  }

  lemma CloseKeeps(c: Conn)
    requires Inv(c)
    ensures Inv(Closing(c))
  {
  }

  lemma ClosingBetween(c: Conn, owes: bool)
    requires Between(c, owes)
    ensures Inv(Closing(c))
  {
  }

  lemma StartReadKeeps(c: Conn)
    requires Between(c, false)
    ensures Inv(StartRead(c))
  {
  }

  lemma AnsweredPlus(written: seq<Reply>, reply: Reply)
    ensures Answered(written + [reply]) == Answered(written) + if reply.Answer? then [reply.id] else []
  {
    assert (written + [reply])[..|written|] == written;
  }

  lemma FailureKeeps(c: Conn, status: nat, starts: bool)
    requires Between(c, true)
    ensures Inv(RejectHttp(c, status, starts))
  {
    var t := RejectHttp(c, status, starts);
    if t.closed {
      ClosingBetween(c, true);
      assert t == Closing(c);
    } else {
      AnsweredPlus(c.log.written, Failure(status));
      assert Answered(t.log.written) == Answered(c.log.written);
      assert t.log.written[..|c.log.written|] == c.log.written;
    }
  }

  // While the host is asked nothing has failed on the wire yet.
  lemma WaitingHasNoFailures(c: Conn)
    requires FailsLast(c) && Busy(c) && !c.closed && !c.writing
    ensures NoFailures(c.log.written)
  {
    var w := c.log.written;
    if w != [] {
      assert w == w[..|w| - 1] + [w[|w| - 1]];
    }
  }

  lemma AnswerKeeps(c: Conn, keepAlive: bool, starts: bool)
    requires Inv(c) && !c.closed && c.pending != 0
    ensures Inv(Write(c, Answer(c.pending), keepAlive, starts))
  {
    var t := Write(c, Answer(c.pending), keepAlive, starts);
    if starts {
      WaitingHasNoFailures(c);
      AnsweredPlus(c.log.written, Answer(c.pending));
      assert t.log.written[..|c.log.written|] == c.log.written;
      assert Ids(t.log.delivered) == Answered(t.log.written);
    } else {
      CloseKeeps(c);
      assert t == Closing(c);
    }
  }

  // The connection with its next id handed to a request.
  function Handed(c: Conn, d: Delivery): Conn
  {
    c.(nextId := NextId(c.nextId), log := c.log.(delivered := c.log.delivered + [d]))
  }

  lemma HandedIsOrdered(c: Conn, d: Delivery)
    requires AllIssued(c) && Ascending(Ids(c.log.delivered)) && c.nextId != 0 && d.id == c.nextId
    ensures AllIssued(Handed(c, d)) && Ascending(Ids(Handed(c, d).log.delivered))
    ensures Ids(Handed(c, d).log.delivered) == Ids(c.log.delivered) + [d.id]
  {
    assert Ids(Handed(c, d).log.delivered) == Ids(c.log.delivered) + [d.id];
    assert forall i :: 0 <= i < |c.log.delivered| ==> Issued(c, c.log.delivered[i].id);
    assert forall i :: 0 <= i < |c.log.delivered| ==> Ids(c.log.delivered)[i] == c.log.delivered[i].id;
  }

  lemma TakenIsSound(c: Conn)
    requires Sound(c) && c.nextId != 0
    ensures Sound(c.(nextId := NextId(c.nextId)))
  {
    assert forall i :: 0 <= i < |c.log.delivered| ==> Issued(c, c.log.delivered[i].id);
  }

  lemma DeliverKeeps(c: Conn, r: Request, accepts: bool)
    requires Between(c, true) && c.nextId != 0 && Refusal(r).None? && |HeaderText(r.fields)| <= H.HEADER_LIMIT
    ensures Inv(Deliver(c.(nextId := NextId(c.nextId)), r, c.nextId, accepts))
  {
    var id := c.nextId;
    var moved := c.(nextId := NextId(id));
    if H.Encode(PartsOf(r, id)).Some? && accepts {
      DeliveredIsReadable(r, id);
      DeliveryKeeps(c, Delivery(id, H.Encode(PartsOf(r, id)).value), r.verb == Head, r.keepAlive);
    } else {
      TakenIsSound(c);
      ClosingBetween(moved, true);
    }
  }

  lemma DeliveryKeeps(c: Conn, d: Delivery, head: bool, keepAlive: bool)
    requires Between(c, true) && c.nextId != 0 && d.id == c.nextId && Readable(d)
    ensures Inv(Handed(c, d).(pending := d.id, head := head, keepAlive := keepAlive))
  {
    HandedIsOrdered(c, d);
    assert AllReadable(Handed(c, d).log.delivered);
  }

  /** What the connection hands over decodes at the host: to the id, and to
      exactly the method, target, header text and body that were read. */
  lemma DeliveredIsReadable(r: Request, id: nat)
    requires 0 < id < ID_RANGE && Refusal(r).None? && |HeaderText(r.fields)| <= H.HEADER_LIMIT
    requires H.Encode(PartsOf(r, id)).Some?
    ensures
      var payload := H.Encode(PartsOf(r, id)).value;
      && H.Decode(payload).Some? && H.Decode(payload).value.id == id
      && H.Tiles(H.Decode(payload).value, |payload|)
      && H.Slices(payload, H.Decode(payload).value) == PartsOf(r, id)
  {
    H.DecodeOfEncode(PartsOf(r, id));
  }

  lemma DispatchKeeps(c: Conn, r: Request, accepts: bool, starts: bool)
    requires Between(c, true)
    ensures Inv(Dispatch(c, r, accepts, starts))
  {
    if Refusal(r).Some? {
      FailureKeeps(c, Refusal(r).value, starts);
    } else if |HeaderText(r.fields)| > H.HEADER_LIMIT {
      FailureKeeps(c, 431, starts);
    } else if H.Total(PartsOf(r, c.nextId)) > c.maxMessage {
      FailureKeeps(c, 413, starts);
    } else if c.nextId == 0 {
      ClosingBetween(c, true);
    } else {
      DeliverKeeps(c, r, accepts);
    }
  }

  // A completed read leaves the connection between two operations.
  lemma ReadIsOver(c: Conn)
    requires Inv(c) && c.reading != NoRead
    ensures !c.closed ==> Between(c.(reading := NoRead), true)
    ensures c.closed ==> Inv(c.(reading := NoRead))
  {
    if !c.closed {
      WaitingHasNoFailures(c);
    }
  }

  lemma AfterHeaderKeeps(c: Conn, r: Request, complete: bool, accepts: bool, starts: bool)
    requires Inv(c) && c.reading == HeaderRead
    ensures Inv(AfterHeader(c.(reading := NoRead), r, complete, accepts, starts))
  {
    ReadIsOver(c);
    var over := c.(reading := NoRead);
    if !c.closed {
      if Refusal(r).Some? {
        FailureKeeps(over, Refusal(r).value, starts);
      } else if complete {
        DispatchKeeps(over, r, accepts, starts);
      } else {
        assert over.(reading := BodyRead) == c.(reading := BodyRead);
      }
    }
  }

  lemma AfterReadErrorKeeps(c: Conn, error: ReadError, starts: bool)
    requires Between(c, true)
    ensures Inv(AfterReadError(c, error, starts))
  {
    match error
    case EndOfStream => ClosingBetween(c, true);
    case Aborted => ClosingBetween(c, true);
    case BodyLimit => FailureKeeps(c, 413, starts);
    case HeaderLimit => FailureKeeps(c, 431, starts);
    case BufferOverflow => FailureKeeps(c, 431, starts);
    case OtherError => FailureKeeps(c, 400, starts);
  }

  lemma KeptAliveHasNoFailures(c: Conn)
    requires FailsLast(c) && !c.closed && c.keepAfterWrite
    ensures NoFailures(c.log.written)
  {
    var w := c.log.written;
    if w != [] {
      assert w == w[..|w| - 1] + [w[|w| - 1]];
    }
  }

  lemma WriteEndsTheConnection(c: Conn)
    requires Inv(c)
    ensures Inv(Closing(c.(writing := false)))
  {
  }

  lemma AfterWriteKeeps(c: Conn, failed: bool)
    requires Inv(c) && c.writing
    ensures Inv(AfterWrite(c.(writing := false), failed))
  {
    var over := c.(writing := false);
    if c.closed || failed || !c.keepAfterWrite {
      WriteEndsTheConnection(c);
    } else {
      KeptAliveHasNoFailures(c);
      assert Between(over, false);
      StartReadKeeps(over);
    }
  }

  lemma BeginKeeps(c: Conn, accepts: bool)
    requires Inv(c) && c.handshaking
    ensures Inv(Step(c, Begin(accepts)))
  {
    var over := c.(handshaking := false);
    if !c.closed {
      WaitingHasNoFailures(c);
      assert Between(over.(isOpen := true), false);
      if accepts {
        StartReadKeeps(over.(isOpen := true));
      } else {
        assert Inv(Closing(over));
      }
    }
  }

  lemma BodyKeeps(c: Conn, r: Request, accepts: bool, starts: bool)
    requires Inv(c)
    ensures Inv(Step(c, BodyArrived(r, accepts, starts)))
  {
    if c.reading == BodyRead {
      ReadIsOver(c);
      if !c.closed {
        DispatchKeeps(c.(reading := NoRead), r, accepts, starts);
      }
    }
  }

  lemma ReadFailedKeeps(c: Conn, error: ReadError, starts: bool)
    requires Inv(c)
    ensures Inv(Step(c, ReadFailed(error, starts)))
  {
    if c.reading != NoRead {
      ReadIsOver(c);
      if !c.closed {
        AfterReadErrorKeeps(c.(reading := NoRead), error, starts);
      }
    }
  }

  lemma StepKeeps(c: Conn, a: Action)
    requires Inv(c)
    ensures Inv(Step(c, a))
  {
    match a
    case Begin(accepts) =>
      if c.handshaking {
        BeginKeeps(c, accepts);
      }
    case HeaderArrived(r, complete, accepts, starts) =>
      if c.reading == HeaderRead {
        AfterHeaderKeeps(c, r, complete, accepts, starts);
      }
    case BodyArrived(r, accepts, starts) => BodyKeeps(c, r, accepts, starts);
    case ReadFailed(error, starts) => ReadFailedKeeps(c, error, starts);
    case Respond(id, response, starts) =>
      if Accepts(c, id, response) {
        AnswerKeeps(c, c.keepAlive && !response.closeConnection, starts);
      }
    case WriteDone(failed) =>
      if c.writing {
        AfterWriteKeeps(c, failed);
      }
    case Close => CloseKeeps(c);
    case IdTakenElsewhere =>
      assert Busy(Step(c, a));
  }

  lemma {:induction false} PlayKeeps(start: Conn, actions: seq<Action>)
    requires Inv(start)
    ensures Inv(Play(start, actions))
  {
    if actions != [] {
      PlayKeeps(start, actions[..|actions| - 1]);
      StepKeeps(Play(start, actions[..|actions| - 1]), actions[|actions| - 1]);
    }
  }

  // ------------------------------------------------------------- main results

  /** In every run an open connection is in exactly one of the handshake, a read,
      waiting for the host, and a write; a closed one waits for nobody. Each reply
      on the wire has a read of its own. */
  lemma OneActivity(maxMessage: nat, maxSend: nat, nextId: nat, actions: seq<Action>)
    requires nextId < ID_RANGE
    ensures
      var c := Play(Accepted(maxMessage, maxSend, nextId), actions);
      && (!c.closed ==> Activities(c) == 1 && (c.handshaking <==> !c.isOpen))
      && (c.closed ==> c.pending == 0)
      && |c.log.written| <= c.log.started
  {
    PlayKeeps(Accepted(maxMessage, maxSend, nextId), actions);
  }

  /** Responses leave in request order, at most one for each request: the ids
      answered are an initial part of the ids delivered, which ascend, and at most
      the last one delivered is unanswered. An error response of the engine ends
      the wire. */
  lemma ResponsesInRequestOrder(maxMessage: nat, maxSend: nat, nextId: nat, actions: seq<Action>)
    requires nextId < ID_RANGE
    ensures
      var log := Play(Accepted(maxMessage, maxSend, nextId), actions).log;
      && Answered(log.written) <= Ids(log.delivered) && |log.delivered| <= |Answered(log.written)| + 1
      && Ascending(Ids(log.delivered))
      && (log.written != [] ==> NoFailures(log.written[..|log.written| - 1]))
  {
    PlayKeeps(Accepted(maxMessage, maxSend, nextId), actions);
  }

  /** Every event of the connection decodes at the host, under the id that a
      response has to name. */
  lemma EveryRequestDecodes(maxMessage: nat, maxSend: nat, nextId: nat, actions: seq<Action>)
    requires nextId < ID_RANGE
    ensures AllReadable(Play(Accepted(maxMessage, maxSend, nextId), actions).log.delivered)
  {
    PlayKeeps(Accepted(maxMessage, maxSend, nextId), actions);
  }

  lemma {:induction false} AnsweredPrefix(a: seq<Reply>, b: seq<Reply>)
    ensures Answered(a) <= Answered(a + b)
  {
    if b == [] {
      assert a + b == a;
    } else {
      assert (a + b)[..|a + b| - 1] == a + b[..|b| - 1];
      AnsweredPrefix(a, b[..|b| - 1]);
    }
  }

  // Later states of a connection: the wire grows, and closed stays closed.
  ghost predicate Later(c: Conn, t: Conn)
  {
    c.log.written <= t.log.written && (c.closed ==> t.closed) && t.maxMessage == c.maxMessage
  }

  lemma WriteGrows(c: Conn, reply: Reply, keepAlive: bool, starts: bool)
    requires !c.closed
    ensures Later(c, Write(c, reply, keepAlive, starts))
  {
  }

  lemma RejectGrows(c: Conn, status: nat, starts: bool)
    requires !c.closed
    ensures Later(c, RejectHttp(c, status, starts))
  {
    WriteGrows(c, Failure(status), false, starts);
  }

  lemma DispatchGrows(c: Conn, r: Request, accepts: bool, starts: bool)
    requires !c.closed
    ensures Later(c, Dispatch(c, r, accepts, starts))
  {
    if Refusal(r).Some? {
      RejectGrows(c, Refusal(r).value, starts);
    } else if |HeaderText(r.fields)| > H.HEADER_LIMIT {
      RejectGrows(c, 431, starts);
    } else if H.Total(PartsOf(r, c.nextId)) > c.maxMessage {
      RejectGrows(c, 413, starts);
    }
  }

  lemma AfterHeaderGrows(c: Conn, r: Request, complete: bool, accepts: bool, starts: bool)
    ensures Later(c, AfterHeader(c, r, complete, accepts, starts))
  {
    if !c.closed {
      if Refusal(r).Some? {
        RejectGrows(c, Refusal(r).value, starts);
      } else if complete {
        DispatchGrows(c, r, accepts, starts);
      }
    }
  }

  lemma AfterReadErrorGrows(c: Conn, error: ReadError, starts: bool)
    requires !c.closed
    ensures Later(c, AfterReadError(c, error, starts))
  {
    match error
    case EndOfStream =>
    case Aborted =>
    case BodyLimit => RejectGrows(c, 413, starts);
    case HeaderLimit => RejectGrows(c, 431, starts);
    case BufferOverflow => RejectGrows(c, 431, starts);
    case OtherError => RejectGrows(c, 400, starts);
  }

  lemma QuietStepGrows(c: Conn, a: Action)
    requires a.Begin? || a.WriteDone? || a.Close? || a.IdTakenElsewhere?
    ensures Step(c, a).log.written == c.log.written && (c.closed ==> Step(c, a).closed)
    ensures Step(c, a).maxMessage == c.maxMessage
  {
  }

  lemma StepGrows(c: Conn, a: Action)
    ensures Later(c, Step(c, a))
  {
    match a
    case Begin(_) => QuietStepGrows(c, a);
    case HeaderArrived(r, complete, accepts, starts) =>
      if c.reading == HeaderRead {
        AfterHeaderGrows(c.(reading := NoRead), r, complete, accepts, starts);
      }
    case BodyArrived(r, accepts, starts) =>
      if c.reading == BodyRead && !c.closed {
        DispatchGrows(c.(reading := NoRead), r, accepts, starts);
      }
    case ReadFailed(error, starts) =>
      if c.reading != NoRead && !c.closed {
        AfterReadErrorGrows(c.(reading := NoRead), error, starts);
      }
    case Respond(id, response, starts) =>
      if Accepts(c, id, response) {
        WriteGrows(c, Answer(id), c.keepAlive && !response.closeConnection, starts);
      }
    case WriteDone(_) => QuietStepGrows(c, a);
    case Close => QuietStepGrows(c, a);
    case IdTakenElsewhere => QuietStepGrows(c, a);
  }

  lemma {:induction false} PlayGrows(start: Conn, actions: seq<Action>, more: seq<Action>)
    ensures Later(Play(start, actions), Play(start, actions + more))
  {
    if more == [] {
      assert actions + more == actions;
    } else {
      assert (actions + more)[..|actions + more| - 1] == actions + more[..|more| - 1];
      PlayGrows(start, actions, more[..|more| - 1]);
      StepGrows(Play(start, actions + more[..|more| - 1]), more[|more| - 1]);
    }
  }

  lemma StaysAnswered(c: Conn, t: Conn, id: nat)
    requires Later(c, t) && id in Answered(c.log.written)
    ensures id in Answered(t.log.written)
  {
    var tail := t.log.written[|c.log.written|..];
    assert c.log.written + tail == t.log.written;
    AnsweredPrefix(c.log.written, tail);
  }

  /** A response is accepted only for the request that is waiting, which is the
      last one delivered and has not been answered. */
  lemma OnlyTheWaitingRequest(maxMessage: nat, maxSend: nat, nextId: nat, actions: seq<Action>,
                              id: nat, response: Response)
    requires nextId < ID_RANGE
    requires Accepts(Play(Accepted(maxMessage, maxSend, nextId), actions), id, response)
    ensures
      var log := Play(Accepted(maxMessage, maxSend, nextId), actions).log;
      Ids(log.delivered) == Answered(log.written) + [id] && id !in Answered(log.written)
  {
    PlayKeeps(Accepted(maxMessage, maxSend, nextId), actions);
    WaitingIsNew(Play(Accepted(maxMessage, maxSend, nextId), actions));
  }

  lemma LastIsNew(ids: seq<nat>, id: nat)
    requires Ascending(ids + [id])
    ensures id !in ids
  {
    forall i | 0 <= i < |ids|
      ensures ids[i] != id
    {
      assert (ids + [id])[i] == ids[i] && (ids + [id])[|ids|] == id;
    }
  }

  /** A stale id never answers a later request: once a delivered request is no
      longer waiting, whether it was answered or the connection closed, no
      response for its id is accepted, whatever happens next. */
  lemma StaleIdIsRefused(maxMessage: nat, maxSend: nat, nextId: nat, actions: seq<Action>, more: seq<Action>,
                         id: nat, response: Response)
    requires nextId < ID_RANGE
    requires
      var c := Play(Accepted(maxMessage, maxSend, nextId), actions);
      id in Ids(c.log.delivered) && c.pending != id
    ensures !Accepts(Play(Accepted(maxMessage, maxSend, nextId), actions + more), id, response)
  {
    var start := Accepted(maxMessage, maxSend, nextId);
    var c, t := Play(start, actions), Play(start, actions + more);
    PlayKeeps(start, actions);
    PlayKeeps(start, actions + more);
    PlayGrows(start, actions, more);
    WaitingIsNew(t);
    if !c.closed {
      StaysAnswered(c, t, id);
    }
  }

  lemma WaitingIsNew(c: Conn)
    requires Inv(c)
    ensures !c.closed && c.pending != 0 ==> c.pending !in Answered(c.log.written)
  {
    if !c.closed && c.pending != 0 {
      LastIsNew(Answered(c.log.written), c.pending);
    }
  }

  // ---------------------------------------- what a request must be, and is told

  // What the server asks of a request, fault by fault, in the order in which it
  // looks for them.
  predicate Names(fields: seq<Field>, known: Known)
  {
    exists i :: 0 <= i < |fields| && fields[i].known == known
  }

  // There is exactly one host field, and it says something.
  predicate OneHost(fields: seq<Field>)
  {
    exists i :: 0 <= i < |fields| && fields[i].known == Host && fields[i].value != []
                && forall j :: 0 <= j < |fields| && j != i ==> fields[j].known != Host
  }

  predicate GoodTarget(r: Request)
  {
    && 1 <= |r.target| <= 2048
    && (r.target[0] == SLASH || (r.verb == OptionsVerb && |r.target| == 1 && r.target[0] == STAR))
    && (forall i :: 0 <= i < |r.target| ==> r.target[i] != HASH)
    && 1 <= |r.verbText| <= 32
  }

  // The status of the first fault of a header; none for a good one.
  function HeaderFault(r: Request): Option<nat>
  {
    if r.version != 11 then Some(505)
    else if !OneHost(r.fields) then Some(400)
    else if Names(r.fields, Expect) then Some(417)
    else if r.verb == Connect || Names(r.fields, Upgrade) then Some(501)
    else if !GoodTarget(r) then Some(400)
    else None
  }

  // Every field takes its name, its value, a colon, a space and a line end.
  function FieldBytes(fields: seq<Field>): nat
  {
    if fields == [] then 0
    else FieldBytes(fields[..|fields| - 1]) + |fields[|fields| - 1].name| + |fields[|fields| - 1].value| + 4
  }

  function EventBytes(r: Request): nat
  {
    32 + |r.verbText| + |r.target| + FieldBytes(r.fields) + |r.body|
  }

  // The same of a request that has been read to its end.
  function Fault(r: Request, maxMessage: nat): Option<nat>
  {
    if HeaderFault(r).Some? then HeaderFault(r)
    else if FieldBytes(r.fields) > 16384 then Some(431)
    else if EventBytes(r) > maxMessage then Some(413)
    else None
  }

  lemma {:induction false} CountsNames(fields: seq<Field>, known: Known)
    ensures Count(fields, known) == 0 <==> !Names(fields, known)
  {
    if fields != [] {
      var front := fields[..|fields| - 1];
      CountsNames(front, known);
      assert forall i :: 0 <= i < |front| ==> fields[i] == front[i];
      if Names(front, known) {
        var i :| 0 <= i < |front| && front[i].known == known;
        assert fields[i].known == known;
      }
    }
  }

  lemma {:induction false} CountFront(fields: seq<Field>, known: Known)
    requires fields != []
    ensures Count(fields, known) == (if fields[0].known == known then 1 else 0) + Count(fields[1..], known)
  {
    if |fields| > 1 {
      var n := |fields| - 1;
      CountFront(fields[..n], known);
      assert fields[..n][1..] == fields[1..][..n - 1];
    } else {
      assert fields[..0] == [];
    }
  }

  lemma {:induction false} OneHostIsFound(fields: seq<Field>)
    ensures Count(fields, Host) == 1 && HostValue(fields) != [] <==> OneHost(fields)
  {
    if fields != [] {
      var rest := fields[1..];
      CountFront(fields, Host);
      assert forall i :: 0 <= i < |rest| ==> fields[i + 1] == rest[i];
      if fields[0].known == Host {
        CountsNames(rest, Host);
        FirstIsTheHost(fields);
      } else {
        OneHostIsFound(rest);
        OneHostOfRest(fields);
      }
    }
  }

  lemma FirstIsTheHost(fields: seq<Field>)
    requires fields != [] && fields[0].known == Host
    ensures OneHost(fields) <==> fields[0].value != [] && !Names(fields[1..], Host)
  {
    var rest := fields[1..];
    assert forall i :: 0 <= i < |rest| ==> fields[i + 1] == rest[i];
    if Names(rest, Host) {
      var i :| 0 <= i < |rest| && rest[i].known == Host;
      assert fields[i + 1].known == Host;
    } else {
      assert forall j :: 0 < j < |fields| ==> rest[j - 1] == fields[j];
    }
  }

  lemma OneHostOfRest(fields: seq<Field>)
    requires fields != [] && fields[0].known != Host
    ensures OneHost(fields) <==> OneHost(fields[1..])
  {
    var rest := fields[1..];
    if OneHost(rest) {
      var i :| 0 <= i < |rest| && rest[i].known == Host && rest[i].value != []
               && forall j :: 0 <= j < |rest| && j != i ==> rest[j].known != Host;
      forall j | 0 <= j < |fields| && j != i + 1
        ensures fields[j].known != Host
      {
        assert j > 0 ==> fields[j] == rest[j - 1];
      }
      assert fields[i + 1] == rest[i];
    }
    if OneHost(fields) {
      var i :| 0 <= i < |fields| && fields[i].known == Host && fields[i].value != []
               && forall j :: 0 <= j < |fields| && j != i ==> fields[j].known != Host;
      assert rest[i - 1] == fields[i];
      forall j | 0 <= j < |rest| && j != i - 1
        ensures rest[j].known != Host
      {
        assert rest[j] == fields[j + 1];
      }
    }
  }

  lemma {:induction false} TextTakesFieldBytes(fields: seq<Field>)
    ensures |HeaderText(fields)| == FieldBytes(fields)
  {
    if fields != [] {
      TextTakesFieldBytes(fields[..|fields| - 1]);
    }
  }

  /** A header is refused exactly for the first of its faults, and with its status. */
  lemma RefusedForItsFault(r: Request)
    ensures Refusal(r) == HeaderFault(r)
  {
    CountsNames(r.fields, Expect);
    CountsNames(r.fields, Upgrade);
    OneHostIsFound(r.fields);
    assert r.target == [STAR] <==> |r.target| == 1 && r.target[0] == STAR;
  }

  // The completion of a read that hands over a whole request.
  predicate Completes(c: Conn, a: Action, r: Request)
  {
    || (c.reading == HeaderRead && a.HeaderArrived? && a.complete && a.request == r)
    || (c.reading == BodyRead && a.BodyArrived? && a.request == r)
  }

  // What is on the wire after an error response: that response, as the last one,
  // when the connection may send it and the write starts; otherwise it closes.
  predicate Refused(c: Conn, t: Conn, status: nat, starts: bool)
  {
    && t.log.delivered == c.log.delivered && t.nextId == c.nextId
    && if c.maxSend >= 256 && starts
       then !t.closed && t.writing && !t.keepAfterWrite && t.log.written == c.log.written + [Failure(status)]
       else t.closed && t.log.written == c.log.written
  }

  lemma RejectAnswers(c: Conn, status: nat, starts: bool)
    requires !c.closed
    ensures Refused(c, RejectHttp(c, status, starts), status, starts)
  {
  }

  lemma LimitStays(maxMessage: nat, maxSend: nat, nextId: nat, actions: seq<Action>)
    ensures Play(Accepted(maxMessage, maxSend, nextId), actions).maxMessage == maxMessage
  {
    PlayGrows(Accepted(maxMessage, maxSend, nextId), [], actions);
    assert [] + actions == actions;
  }

  lemma HeaderFaultFirst(r: Request, maxMessage: nat)
    ensures Refusal(r) == HeaderFault(r) && (Refusal(r).Some? ==> Fault(r, maxMessage) == Refusal(r))
  {
    RefusedForItsFault(r);
  }

  lemma BadIsDispatched(c: Conn, r: Request, accepts: bool, starts: bool)
    requires !c.closed && Fault(r, c.maxMessage).Some?
    ensures Refused(c, Dispatch(c, r, accepts, starts), Fault(r, c.maxMessage).value, starts)
  {
    RefusedForItsFault(r);
    TextTakesFieldBytes(r.fields);
    RejectAnswers(c, Fault(r, c.maxMessage).value, starts);
  }

  // The delivery of the request, and what the connection waits for then.
  ghost predicate Hands(c: Conn, t: Conn, r: Request)
  {
    && !t.closed && t.pending == c.nextId && t.head == (r.verb == Head) && t.keepAlive == r.keepAlive
    && t.log.written == c.log.written
    && |t.log.delivered| == |c.log.delivered| + 1 && c.log.delivered <= t.log.delivered
    && var d := t.log.delivered[|c.log.delivered|];
       && d.id == c.nextId && H.Decode(d.payload).Some? && H.Decode(d.payload).value.id == d.id
       && H.Tiles(H.Decode(d.payload).value, |d.payload|)
       && H.Slices(d.payload, H.Decode(d.payload).value)
            == H.Parts(d.id, r.verbText, r.target, HeaderText(r.fields), r.body)
  }

  lemma GoodIsDispatched(c: Conn, r: Request, starts: bool)
    requires !c.closed && 0 < c.nextId < ID_RANGE && c.maxMessage < H.U32_RANGE && Fault(r, c.maxMessage).None?
    ensures Hands(c, Dispatch(c, r, true, starts), r)
  {
    RefusedForItsFault(r);
    TextTakesFieldBytes(r.fields);
    assert H.Encode(PartsOf(r, c.nextId)).Some?;
    DeliveredIsReadable(r, c.nextId);
  }

  /** A good request reaches the host: when it is complete, on an open connection with
      ids left and a host that accepts, exactly one delivery is added, under the next
      id, it decodes to what was read, nothing is written, and the connection waits for
      the answer to it. */
  lemma GoodRequestIsDelivered(maxMessage: nat, maxSend: nat, nextId: nat, actions: seq<Action>, a: Action, r: Request)
    requires 0 < nextId < ID_RANGE && maxMessage < H.U32_RANGE
    requires
      var c := Play(Accepted(maxMessage, maxSend, nextId), actions);
      !c.closed && Completes(c, a, r) && a.accepts && c.nextId != 0
    requires Fault(r, maxMessage).None?
    ensures
      var c := Play(Accepted(maxMessage, maxSend, nextId), actions);
      Hands(c, Step(c, a), r)
  {
    PlayKeeps(Accepted(maxMessage, maxSend, nextId), actions);
    LimitStays(maxMessage, maxSend, nextId, actions);
    var c := Play(Accepted(maxMessage, maxSend, nextId), actions);
    GoodIsDispatched(c.(reading := NoRead), r, a.starts);
    HeaderFaultFirst(r, maxMessage);
  }

  /** A request with a fault does not: the first fault decides the status. */
  lemma BadRequestIsRefused(maxMessage: nat, maxSend: nat, nextId: nat, actions: seq<Action>, a: Action, r: Request)
    requires
      var c := Play(Accepted(maxMessage, maxSend, nextId), actions);
      !c.closed && Completes(c, a, r)
    requires Fault(r, maxMessage).Some?
    ensures
      var c := Play(Accepted(maxMessage, maxSend, nextId), actions);
      Refused(c, Step(c, a), Fault(r, maxMessage).value, a.starts)
  {
    LimitStays(maxMessage, maxSend, nextId, actions);
    var c := Play(Accepted(maxMessage, maxSend, nextId), actions);
    BadIsDispatched(c.(reading := NoRead), r, a.accepts, a.starts);
    HeaderFaultFirst(r, maxMessage);
    if HeaderFault(r).Some? {
      RejectAnswers(c.(reading := NoRead), HeaderFault(r).value, a.starts);
    }
  }

  /** Of a header whose body is still to come, a good one has the body read, and a bad
      one is refused at once. */
  lemma HeaderAnswers(c: Conn, r: Request, accepts: bool, starts: bool)
    requires !c.closed && c.reading == HeaderRead
    ensures
      var t := Step(c, HeaderArrived(r, false, accepts, starts));
      if HeaderFault(r).Some? then Refused(c, t, HeaderFault(r).value, starts)
      else t == c.(reading := BodyRead)
  {
    RefusedForItsFault(r);
  }

  /** A read that fails is answered by what failed: the end of the stream and an abort
      close the connection silently, a body over its limit is 413, a header over its
      limit or a full buffer 431, and anything else 400. */
  lemma ReadFailureAnswers(c: Conn, error: ReadError, starts: bool)
    requires !c.closed && c.reading != NoRead
    ensures
      var t := Step(c, ReadFailed(error, starts));
      match error
      case EndOfStream => t.closed && t.log == c.log
      case Aborted => t.closed && t.log == c.log
      case BodyLimit => Refused(c, t, 413, starts)
      case HeaderLimit => Refused(c, t, 431, starts)
      case BufferOverflow => Refused(c, t, 431, starts)
      case OtherError => Refused(c, t, 400, starts)
  {
    var over := c.(reading := NoRead);
    match error
    case EndOfStream =>
    case Aborted =>
    case BodyLimit => RejectAnswers(over, 413, starts);
    case HeaderLimit => RejectAnswers(over, 431, starts);
    case BufferOverflow => RejectAnswers(over, 431, starts);
    case OtherError => RejectAnswers(over, 400, starts);
  }

  // The response is the next thing on the wire, or the connection closes because the
  // write cannot start.
  predicate Responds(c: Conn, t: Conn, id: nat, response: Response, starts: bool)
  {
    && t.pending == 0 && t.log.delivered == c.log.delivered
    && if starts then
         && !t.closed && t.log.written == c.log.written + [Answer(id)]
         && t.keepAfterWrite == (c.keepAlive && !response.closeConnection)
       else t.closed && t.log.written == c.log.written
  }

  /** The host that owes an answer can give it: as long as the connection is open and
      its last delivery unanswered, a valid response under that id which fits the send
      limit is accepted, and is the next thing on the wire unless the write cannot
      start; the connection reads on afterwards exactly when both sides want it to. */
  lemma WaitingRequestIsAnswered(maxMessage: nat, maxSend: nat, nextId: nat, actions: seq<Action>, c: Conn,
                                 headerBytes: nat, response: Response, starts: bool)
    requires nextId < ID_RANGE && c == Play(Accepted(maxMessage, maxSend, nextId), actions)
    requires !c.closed && |c.log.delivered| > |Answered(c.log.written)|
    requires Fits(c, headerBytes, response)
    ensures
      var id := c.log.delivered[|c.log.delivered| - 1].id;
      Accepts(c, id, response) && Responds(c, Step(c, Respond(id, response, starts)), id, response, starts)
  {
    PlayKeeps(Accepted(maxMessage, maxSend, nextId), actions);
    LastIsPending(c);
    AnswerAnswers(c, response, starts);
  }

  // The response validates, and its headers and the body it may have fit the limit.
  predicate Fits(c: Conn, headerBytes: nat, response: Response)
  {
    && response.headerBytes == Some(headerBytes)
    && headerBytes + (if c.head then 0 else response.bodyBytes) <= c.maxSend
  }

  lemma LastIsPending(c: Conn)
    requires Inv(c) && !c.closed && |c.log.delivered| > |Answered(c.log.written)|
    ensures c.log.delivered[|c.log.delivered| - 1].id == c.pending != 0 && c.isOpen
  {
    var ids := Ids(c.log.delivered);
    assert |ids| == |c.log.delivered|;
    assert ids == Answered(c.log.written) + [c.pending];
    assert ids[|ids| - 1] == c.pending;
  }

  lemma AnswerAnswers(c: Conn, response: Response, starts: bool)
    requires Accepts(c, c.pending, response)
    ensures
      Responds(c, Step(c, Respond(c.pending, response, starts)), c.pending, response, starts)
  {
  }

  /** After the handshake an accepted connection reads, and after a reply that keeps
      the connection it reads again; otherwise it closes. */
  lemma ReadingGoesOn(c: Conn, accepts: bool, failed: bool)
    requires !c.closed
    ensures c.handshaking ==>
              var t := Step(c, Begin(accepts));
              if accepts then !t.closed && t.isOpen && t.reading == HeaderRead else t.closed
    ensures c.writing ==>
              var t := Step(c, WriteDone(failed));
              if c.keepAfterWrite && !failed then !t.closed && t.reading == HeaderRead else t.closed
  {
  }

  // ------------------------------------------------------- the imperative form

  // The counter all connections of the worker share.
  class RequestIds {
    var next: nat

    constructor ()
      ensures next == 1
    {
      next := 1;
    }

    method Allocate() returns (id: nat)
      modifies this
      ensures id == old(next)
      ensures next == if id == 0 then 0 else NextId(id)
    {
      if next == 0 {
        return 0;
      }
      id := next;
      next := if next + 1 == ID_RANGE then 0 else next + 1;
    }
  }

  class HttpConnection {
    const ids: RequestIds
    const maxMessage: nat
    const maxSend: nat
    var closed: bool
    var isOpen: bool
    var pendingRequestId: nat
    var headRequest: bool
    var requestKeepAlive: bool
    // The operation in flight, as its completion handler sees it.
    var handshaking: bool
    var reading: Reading
    var writing: bool
    var keepAfterWrite: bool
    ghost var log: Log

    ghost function Model(): Conn
      reads this, ids
    {
      Conn(maxMessage, maxSend, ids.next, closed, isOpen, pendingRequestId, headRequest, requestKeepAlive,
           handshaking, reading, writing, keepAfterWrite, log)
    }

    constructor (ids: RequestIds, maxMessage: nat, maxSend: nat)
      ensures this.ids == ids && Model() == Accepted(maxMessage, maxSend, ids.next)
    {
      this.ids, this.maxMessage, this.maxSend := ids, maxMessage, maxSend;
      closed, isOpen, pendingRequestId := false, false, 0;
      headRequest, requestKeepAlive := false, false;
      handshaking, reading, writing, keepAfterWrite := true, NoRead, false, false;
      log := Log(0, [], []);
    }

    method CloseConnection()
      modifies this`closed, this`pendingRequestId
      ensures Model() == Closing(old(Model()))
    {
      if closed {
        return;
      }
      closed := true;
      pendingRequestId := 0;
    }

    method ReadRequest()
      modifies this`reading, this`log
      ensures Model() == StartRead(old(Model()))
    {
      reading := HeaderRead;
      log := log.(started := log.started + 1);
    }

    method WriteResponse(ghost reply: Reply, keepAlive: bool, starts: bool)
      modifies this
      ensures Model() == Write(old(Model()), reply, keepAlive, starts)
    {
      pendingRequestId := 0;
      if !starts {
        CloseConnection();
        return;
      }
      writing, keepAfterWrite := true, keepAlive;
      log := log.(written := log.written + [reply]);
    }

    method RejectRequest(status: nat, starts: bool)
      modifies this
      ensures Model() == RejectHttp(old(Model()), status, starts)
    {
      if maxSend < ERROR_RESPONSE_BYTES {
        CloseConnection();
        return;
      }
      WriteResponse(Failure(status), false, starts);
    }

    method BeginRequests(accepts: bool)
      modifies this
      ensures Model() == Step(old(Model()), Begin(accepts))
    {
      if !handshaking {
        return;
      }
      handshaking := false;
      if closed {
        return;
      }
      if !accepts {
        CloseConnection();
        return;
      }
      isOpen := true;
      ReadRequest();
    }

    method ValidateRequestHeader(request: Request, starts: bool) returns (ok: bool)
      modifies this
      ensures ok <==> Refusal(request).None?
      ensures Model() == if ok then old(Model()) else RejectHttp(old(Model()), Refusal(request).value, starts)
    {
      var refusal := Refusal(request);
      if refusal.Some? {
        RejectRequest(refusal.value, starts);
        return false;
      }
      return true;
    }

    method DispatchRequest(request: Request, accepts: bool, starts: bool)
      modifies this, ids
      ensures Model() == Dispatch(old(Model()), request, accepts, starts)
    {
      var valid := ValidateRequestHeader(request, starts);
      if !valid {
        return;
      }
      var headers := BuildHeaders(request.fields);
      if headers.None? {
        RejectRequest(431, starts);
        return;
      }
      var total := H.ENVELOPE_BYTES + |request.verbText| + |request.target| + |headers.value| + |request.body|;
      if total > maxMessage {
        RejectRequest(413, starts);
        return;
      }
      var id := ids.Allocate();
      if id == 0 {
        CloseConnection();
        return;
      }
      DeliverRequest(request, headers.value, id, accepts);
    }

    method DeliverRequest(request: Request, headers: Bytes, id: nat, accepts: bool)
      requires headers == HeaderText(request.fields)
      modifies this
      ensures Model() == Deliver(old(Model()), request, id, accepts)
    {
      var payload := H.EncodeHttpRequest(H.Parts(id, request.verbText, request.target, headers, request.body));
      if payload.None? {
        CloseConnection();
        return;
      }
      pendingRequestId := id;
      headRequest, requestKeepAlive := request.verb == Head, request.keepAlive;
      if !accepts {
        CloseConnection();
        return;
      }
      log := log.(delivered := log.delivered + [Delivery(id, payload.value)]);
    }

    method OnHeader(request: Request, complete: bool, accepts: bool, starts: bool)
      modifies this, ids
      ensures Model() == Step(old(Model()), HeaderArrived(request, complete, accepts, starts))
    {
      if reading != HeaderRead {
        return;
      }
      reading := NoRead;
      if closed {
        return;
      }
      var valid := ValidateRequestHeader(request, starts);
      if !valid {
        return;
      }
      if complete {
        DispatchRequest(request, accepts, starts);
      } else {
        reading := BodyRead;
      }
    }

    method OnBody(request: Request, accepts: bool, starts: bool)
      modifies this, ids
      ensures Model() == Step(old(Model()), BodyArrived(request, accepts, starts))
    {
      if reading != BodyRead {
        return;
      }
      reading := NoRead;
      if closed {
        return;
      }
      DispatchRequest(request, accepts, starts);
    }

    method OnReadFailure(error: ReadError, starts: bool)
      modifies this
      ensures Model() == Step(old(Model()), ReadFailed(error, starts))
    {
      if reading == NoRead {
        return;
      }
      reading := NoRead;
      if closed {
        return;
      }
      match error
      case EndOfStream => CloseConnection();
      case Aborted => CloseConnection();
      case BodyLimit => RejectRequest(413, starts);
      case HeaderLimit => RejectRequest(431, starts);
      case BufferOverflow => RejectRequest(431, starts);
      case OtherError => RejectRequest(400, starts);
    }

    method RespondHttp(id: nat, response: Response, starts: bool) returns (accepted: bool)
      modifies this
      ensures accepted <==> Accepts(old(Model()), id, response)
      ensures Model() == Step(old(Model()), Respond(id, response, starts))
    {
      if closed || !isOpen || id == 0 || pendingRequestId != id {
        return false;
      }
      if response.headerBytes.None? {
        return false;
      }
      var bodyBytes := if headRequest then 0 else response.bodyBytes;
      if response.headerBytes.value > maxSend || bodyBytes > maxSend - response.headerBytes.value {
        return false;
      }
      WriteResponse(Answer(id), requestKeepAlive && !response.closeConnection, starts);
      return true;
    }

    method OnWritten(failed: bool)
      modifies this
      ensures Model() == Step(old(Model()), WriteDone(failed))
    {
      if !writing {
        return;
      }
      writing := false;
      if closed {
        return;
      }
      if failed || !keepAfterWrite {
        CloseConnection();
        return;
      }
      ReadRequest();
    }
  }
}
