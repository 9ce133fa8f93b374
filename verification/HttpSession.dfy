/** An HTTP connection and the engine it runs in, as one machine: the handlers of
    the connection publish to the queue of the host, and what the queue answers
    decides how they go on (src/Net/Async/HttpConnection.h, ConnectionState.cpp,
    WorkerContext.cpp). The rest of the engine, with all other sessions and the
    polls of the host, acts in between. */
module HttpSession {
  import opened Prelude
  import Q = EventQueue
  import E = Engine
  import H = HttpConnection
  import Codec = HttpCodec

  // The connection serves the session of the id that the functions below are given.
  datatype Joint = Joint(engine: E.Engine, conn: H.Conn)

  // What a handler of the connection hands to the host, if anything.
  datatype Published = Nothing | Open | Request(payload: Bytes)

  function With(a: H.Action, accepts: bool): H.Action
  {
    match a
    case Begin(_) => H.Begin(accepts)
    case HeaderArrived(r, complete, _, starts) => H.HeaderArrived(r, complete, accepts, starts)
    case BodyArrived(r, _, starts) => H.BodyArrived(r, accepts, starts)
    case _ => a
  }

  function Publishes(c: H.Conn, a: H.Action): Published
  {
    var t := H.Step(c, With(a, true));
    if |t.log.delivered| > |c.log.delivered| then Request(t.log.delivered[|t.log.delivered| - 1].payload)
    else if t.isOpen && !c.isOpen then Open
    else Nothing
  }

  // The engine after the publication, and whether the host took it.
  function Told(e: E.Engine, s: nat, p: Published, allocates: bool): (E.Engine, bool)
  {
    match p
    case Nothing => (e, true)
    case Open =>
      var t := E.Step(e, E.PublishOpen(s, allocates));
      (t, s in t.sessions && t.sessions[s].isOpen)
    case Request(payload) =>
      var t := E.Step(e, E.PublishMessage(s, payload, true, allocates));
      (t, s in t.sessions)
  }

  // A handler of the connection. A connection that closes leaves the registry.
  function Serve(j: Joint, s: nat, a: H.Action, allocates: bool): Joint
  {
    var (e, accepts) := Told(j.engine, s, Publishes(j.conn, a), allocates);
    var c := H.Step(j.conn, With(a, accepts));
    Joint(if c.closed && !j.conn.closed then E.Step(e, E.Close(s, allocates)) else e, c)
  }

  // The rest of the engine does not act for this session.
  predicate Foreign(a: E.Action, s: nat)
  {
    match a
    case PublishOpen(id, _) => id != s
    case PublishMessage(id, _, _, _) => id != s
    case Close(id, _) => id != s
    case _ => true
  }

  datatype Action = Serves(action: H.Action, allocates: bool) | Elsewhere(other: E.Action)

  function Step(j: Joint, s: nat, a: Action): Joint
  {
    match a
    case Serves(action, allocates) => Serve(j, s, action, allocates)
    case Elsewhere(action) => if Foreign(action, s) then j.(engine := E.Step(j.engine, action)) else j
  }

  function Play(start: Joint, s: nat, actions: seq<Action>): Joint
  {
    if actions == [] then start
    else Step(Play(start, s, actions[..|actions| - 1]), s, actions[|actions| - 1])
  }

  // The payloads of the requests among the events of a session, in order.
  function Requests(events: seq<Q.Event>, s: nat): seq<Bytes> { E.PayloadsOf(events, s, Q.HttpRequestEvent) }

  function Payloads(deliveries: seq<H.Delivery>): seq<Bytes>
  {
    seq(|deliveries|, i requires 0 <= i < |deliveries| => deliveries[i].payload)
  }

  // ---------------------------------------------------------------- invariant

  // The session is registered while the connection is open, and known as open to
  // the engine exactly when it is to the connection.
  predicate Agree(e: E.Engine, s: nat, c: H.Conn)
  {
    && s > 0 && E.Issued(e, s)
    && (s in e.sessions <==> !c.closed)
    && (!c.closed ==> e.sessions[s].isOpen == c.isOpen)
  }

  ghost predicate Inv(j: Joint, s: nat)
  {
    && E.Inv(j.engine) && H.Inv(j.conn) && Agree(j.engine, s, j.conn)
    && Requests(j.engine.history.accepted, s) == Payloads(j.conn.log.delivered)
  }

  lemma NoRequest(e: E.Engine, kind: Q.Kind, session: nat, payload: Bytes, allocates: bool, s: nat)
    requires session != s || kind != Q.HttpRequestEvent
    ensures Requests(E.Push(e, kind, session, payload, allocates).0.history.accepted, s)
         == Requests(e.history.accepted, s)
  {
    E.PushedPayload(e, kind, session, payload, allocates, s, Q.HttpRequestEvent);
    assert Requests(e.history.accepted, s) + [] == Requests(e.history.accepted, s);
  }

  lemma ClosedRequests(e: E.Engine, id: nat, allocates: bool, s: nat)
    requires id in e.sessions
    ensures Requests(E.Closed(e, id, allocates).history.accepted, s) == Requests(e.history.accepted, s)
  {
    E.RemovedElsewhere(e, id);
    NoRequest(E.Removed(e, id), Q.CloseEvent, id, [], allocates, s);
  }

  lemma PushKeepsRegistry(e: E.Engine, kind: Q.Kind, session: nat, payload: Bytes, allocates: bool)
    ensures
      var p := E.Push(e, kind, session, payload, allocates).0;
      p.sessions == e.sessions && p.nextId == e.nextId
  {
  }

  lemma ClosedRegistry(e: E.Engine, id: nat, allocates: bool)
    requires id in e.sessions
    ensures E.Closed(e, id, allocates).sessions == e.sessions - {id} && E.Closed(e, id, allocates).nextId == e.nextId
  {
  }

  // What the rest of the engine does not touch.
  predicate Kept(e: E.Engine, t: E.Engine, s: nat)
  {
    && (s in t.sessions <==> s in e.sessions) && (s in e.sessions ==> t.sessions[s] == e.sessions[s])
    && (E.Issued(e, s) ==> E.Issued(t, s))
    && Requests(t.history.accepted, s) == Requests(e.history.accepted, s)
  }

  lemma PublishKept(e: E.Engine, id: nat, payload: Bytes, kind: Q.Kind, allocates: bool, s: nat)
    requires id in e.sessions && e.sessions[id].isOpen && id != s
    ensures
      var (pushed, ok) := E.Push(e, kind, id, payload, allocates);
      Kept(e, if ok then pushed else E.Closed(pushed, id, allocates), s)
  {
    var (pushed, ok) := E.Push(e, kind, id, payload, allocates);
    NoRequest(e, kind, id, payload, allocates, s);
    PushKeepsRegistry(e, kind, id, payload, allocates);
    if !ok {
      ClosedRequests(pushed, id, allocates, s);
      ClosedRegistry(pushed, id, allocates);
    }
  }

  lemma OpenKept(e: E.Engine, id: nat, allocates: bool, s: nat)
    requires id in e.sessions && id != s
    ensures Kept(e, E.Step(e, E.PublishOpen(id, allocates)), s)
  {
    NoRequest(e, Q.OpenEvent, id, [], allocates, s);
    PushKeepsRegistry(e, Q.OpenEvent, id, [], allocates);
    E.RemovedElsewhere(E.Push(e, Q.OpenEvent, id, [], allocates).0, id);
  }

  lemma ForeignKept(e: E.Engine, a: E.Action, s: nat)
    requires E.Inv(e) && s > 0 && E.Issued(e, s) && Foreign(a, s)
    ensures Kept(e, E.Step(e, a), s)
  {
    match a
    case Admit(_) =>
    case PublishOpen(id, allocates) =>
      if id in e.sessions {
        OpenKept(e, id, allocates, s);
      }
    case PublishMessage(id, payload, http, allocates) =>
      if id in e.sessions && e.sessions[id].isOpen {
        PublishKept(e, id, payload, if http then Q.HttpRequestEvent else Q.MessageEvent, allocates, s);
      }
    case Close(id, allocates) =>
      if id in e.sessions {
        ClosedRequests(e, id, allocates, s);
        ClosedRegistry(e, id, allocates);
      }
    case ReportError(message, allocates) => NoRequest(e, Q.ErrorEvent, 0, message, allocates, s);
    case Poll(_) =>
    case BeginStop =>
    case FinishStop =>
  }

  // ------------------------------------------------------ steps of the session

  // How a handler goes on when the host accepts, and when it does not.
  ghost predicate GoesOn(c: H.Conn, a: H.Action)
  {
    var yes, no := H.Step(c, With(a, true)), H.Step(c, With(a, false));
    match Publishes(c, a)
    case Nothing =>
      yes == no && yes.log.delivered == c.log.delivered && yes.isOpen == c.isOpen && (c.closed ==> yes.closed)
    case Open =>
      && !c.closed && !c.isOpen && !yes.closed && yes.isOpen && no.closed
      && yes.log.delivered == c.log.delivered && no.log.delivered == c.log.delivered
    case Request(payload) =>
      && !c.closed && c.isOpen && !yes.closed && yes.isOpen && no.closed
      && no.log.delivered == c.log.delivered && Payloads(yes.log.delivered) == Payloads(c.log.delivered) + [payload]
  }

  // The handler hands nothing over and stays as open as it was.
  predicate Quiet(c: H.Conn, t: H.Conn)
  {
    t.log.delivered == c.log.delivered && t.isOpen == c.isOpen && (c.closed ==> t.closed)
  }

  lemma RejectIsQuiet(c: H.Conn, status: nat, starts: bool)
    requires !c.closed
    ensures Quiet(c, H.RejectHttp(c, status, starts))
  {
  }

  // The two ways a delivery goes on, when there is one.
  ghost predicate Delivers(c: H.Conn, yes: H.Conn, no: H.Conn)
  {
    && |yes.log.delivered| == |c.log.delivered| + 1 && c.log.delivered <= yes.log.delivered
    && !yes.closed && yes.isOpen == c.isOpen && no.closed && no.log.delivered == c.log.delivered
  }

  lemma DeliverGoesOn(c: H.Conn, r: H.Request, id: nat)
    requires !c.closed
    ensures
      var yes, no := H.Deliver(c, r, id, true), H.Deliver(c, r, id, false);
      (yes == no && Quiet(c, yes)) || Delivers(c, yes, no)
  {
  }

  lemma DispatchGoesOn(c: H.Conn, r: H.Request, starts: bool)
    requires !c.closed
    ensures
      var yes, no := H.Dispatch(c, r, true, starts), H.Dispatch(c, r, false, starts);
      (yes == no && Quiet(c, yes)) || Delivers(c, yes, no)
  {
    if H.Refusal(r).Some? {
      RejectIsQuiet(c, H.Refusal(r).value, starts);
    } else if |H.HeaderText(r.fields)| > Codec.HEADER_LIMIT {
      RejectIsQuiet(c, 431, starts);
    } else if Codec.Total(H.PartsOf(r, c.nextId)) > c.maxMessage {
      RejectIsQuiet(c, 413, starts);
    } else if c.nextId != 0 {
      DeliverGoesOn(c.(nextId := H.NextId(c.nextId)), r, c.nextId);
    }
  }

  lemma HeaderGoesOn(c: H.Conn, r: H.Request, complete: bool, starts: bool)
    requires !c.closed
    ensures
      var yes, no := H.AfterHeader(c, r, complete, true, starts), H.AfterHeader(c, r, complete, false, starts);
      (yes == no && Quiet(c, yes)) || Delivers(c, yes, no)
  {
    if H.Refusal(r).Some? {
      RejectIsQuiet(c, H.Refusal(r).value, starts);
    } else if complete {
      DispatchGoesOn(c, r, starts);
    }
  }

  lemma ReadGoesOn(c: H.Conn, a: H.Action)
    requires H.Inv(c) && (a.HeaderArrived? || a.BodyArrived?)
    ensures
      var yes, no := H.Step(c, With(a, true)), H.Step(c, With(a, false));
      (yes == no && Quiet(c, yes)) || (!c.closed && c.isOpen && Delivers(c, yes, no))
  {
    if !c.closed && c.reading != H.NoRead {
      var over := c.(reading := H.NoRead);
      if a.HeaderArrived? {
        HeaderGoesOn(over, a.request, a.complete, a.starts);
      } else {
        DispatchGoesOn(over, a.request, a.starts);
      }
    }
  }

  lemma ReadErrorIsQuiet(c: H.Conn, error: H.ReadError, starts: bool)
    requires !c.closed
    ensures Quiet(c, H.AfterReadError(c, error, starts))
  {
    match error
    case EndOfStream =>
    case Aborted =>
    case BodyLimit => RejectIsQuiet(c, 413, starts);
    case HeaderLimit => RejectIsQuiet(c, 431, starts);
    case BufferOverflow => RejectIsQuiet(c, 431, starts);
    case OtherError => RejectIsQuiet(c, 400, starts);
  }

  lemma WriteIsQuiet(c: H.Conn, reply: H.Reply, keepAlive: bool, starts: bool)
    requires !c.closed
    ensures Quiet(c, H.Write(c, reply, keepAlive, starts))
  {
  }

  lemma OtherIsQuiet(c: H.Conn, a: H.Action)
    requires a.ReadFailed? || a.Respond? || a.WriteDone? || a.Close? || a.IdTakenElsewhere?
    ensures With(a, true) == With(a, false) == a && Quiet(c, H.Step(c, a))
  {
    match a
    case ReadFailed(error, starts) =>
      if c.reading != H.NoRead && !c.closed {
        ReadErrorIsQuiet(c.(reading := H.NoRead), error, starts);
      }
    case Respond(id, response, starts) =>
      if H.Accepts(c, id, response) {
        WriteIsQuiet(c, H.Answer(id), c.keepAlive && !response.closeConnection, starts);
      }
    case WriteDone(_) =>
    case Close =>
    case IdTakenElsewhere =>
  }

  lemma BeginGoesOn(c: H.Conn, accepts: bool)
    requires H.Inv(c)
    ensures GoesOn(c, H.Begin(accepts))
  {
  }

  lemma ReadHandlerGoesOn(c: H.Conn, a: H.Action)
    requires H.Inv(c) && (a.HeaderArrived? || a.BodyArrived?)
    ensures GoesOn(c, a)
  {
    ReadGoesOn(c, a);
    var yes := H.Step(c, With(a, true));
    if Publishes(c, a).Request? {
      assert yes.log.delivered == c.log.delivered + [yes.log.delivered[|c.log.delivered|]];
    }
  }

  lemma HandlerGoesOn(c: H.Conn, a: H.Action)
    requires H.Inv(c)
    ensures GoesOn(c, a)
  {
    if a.HeaderArrived? || a.BodyArrived? {
      ReadHandlerGoesOn(c, a);
    } else if a.Begin? {
      BeginGoesOn(c, a.accepts);
    } else {
      OtherIsQuiet(c, a);
    }
  }

  lemma CloseIsTold(e: E.Engine, s: nat, allocates: bool)
    requires E.Inv(e)
    ensures
      var t := E.Step(e, E.Close(s, allocates));
      && E.Inv(t) && t.nextId == e.nextId && s !in t.sessions
      && Requests(t.history.accepted, s) == Requests(e.history.accepted, s)
  {
    E.StepKeeps(e, E.Close(s, allocates));
    if s in e.sessions {
      ClosedRequests(e, s, allocates, s);
      ClosedRegistry(e, s, allocates);
    }
  }

  lemma OpenIsTold(e: E.Engine, s: nat, allocates: bool)
    requires E.Inv(e) && s in e.sessions && !e.sessions[s].isOpen
    ensures
      var (t, ok) := Told(e, s, Open, allocates);
      && E.Inv(t) && t.nextId == e.nextId && (ok ==> s in t.sessions && t.sessions[s].isOpen)
      && Requests(t.history.accepted, s) == Requests(e.history.accepted, s)
  {
    E.StepKeeps(e, E.PublishOpen(s, allocates));
    NoRequest(e, Q.OpenEvent, s, [], allocates, s);
    PushKeepsRegistry(e, Q.OpenEvent, s, [], allocates);
    E.RemovedElsewhere(E.Push(e, Q.OpenEvent, s, [], allocates).0, s);
  }

  lemma RequestIsTold(e: E.Engine, s: nat, payload: Bytes, allocates: bool)
    requires E.Inv(e) && s in e.sessions && e.sessions[s].isOpen
    ensures
      var (t, ok) := Told(e, s, Request(payload), allocates);
      && E.Inv(t) && t.nextId == e.nextId && (ok ==> s in t.sessions && t.sessions[s].isOpen)
      && Requests(t.history.accepted, s) == Requests(e.history.accepted, s) + if ok then [payload] else []
  {
    E.StepKeeps(e, E.PublishMessage(s, payload, true, allocates));
    var (pushed, ok) := E.Push(e, Q.HttpRequestEvent, s, payload, allocates);
    E.PushedPayload(e, Q.HttpRequestEvent, s, payload, allocates, s, Q.HttpRequestEvent);
    PushKeepsRegistry(e, Q.HttpRequestEvent, s, payload, allocates);
    if !ok {
      ClosedRequests(pushed, s, allocates, s);
      ClosedRegistry(pushed, s, allocates);
    }
  }

  // The engine after a publication of the session, before a close.
  lemma PublicationIsTold(j: Joint, s: nat, a: H.Action, allocates: bool)
    requires Inv(j, s)
    ensures
      var (e, ok) := Told(j.engine, s, Publishes(j.conn, a), allocates);
      var c := H.Step(j.conn, With(a, ok));
      && E.Inv(e) && e.nextId == j.engine.nextId
      && (!c.closed ==> s in e.sessions && e.sessions[s].isOpen == c.isOpen)
      && (j.conn.closed ==> c.closed && s !in e.sessions)
      && Requests(e.history.accepted, s) == Payloads(c.log.delivered)
  {
    HandlerGoesOn(j.conn, a);
    match Publishes(j.conn, a)
    case Nothing =>
    case Open => OpenIsTold(j.engine, s, allocates);
    case Request(payload) =>
      RequestIsTold(j.engine, s, payload, allocates);
      assert Payloads(j.conn.log.delivered) + [] == Payloads(j.conn.log.delivered);
  }

  lemma ServeKeeps(j: Joint, s: nat, a: H.Action, allocates: bool)
    requires Inv(j, s)
    ensures Inv(Serve(j, s, a, allocates), s)
  {
    var (e, ok) := Told(j.engine, s, Publishes(j.conn, a), allocates);
    PublicationIsTold(j, s, a, allocates);
    H.StepKeeps(j.conn, With(a, ok));
    CloseIsTold(e, s, allocates);
  }

  lemma StepKeeps(j: Joint, s: nat, a: Action)
    requires Inv(j, s)
    ensures Inv(Step(j, s, a), s)
  {
    match a
    case Serves(action, allocates) => ServeKeeps(j, s, action, allocates);
    case Elsewhere(action) =>
      if Foreign(action, s) {
        E.StepKeeps(j.engine, action);
        ForeignKept(j.engine, action, s);
      }
  }

  lemma {:induction false} PlayKeeps(start: Joint, s: nat, actions: seq<Action>)
    requires Inv(start, s)
    ensures Inv(Play(start, s, actions), s)
  {
    if actions != [] {
      PlayKeeps(start, s, actions[..|actions| - 1]);
      StepKeeps(Play(start, s, actions[..|actions| - 1]), s, actions[|actions| - 1]);
    }
  }

  // A session that was admitted and has not been opened, with its new connection.
  ghost predicate Admitted(j: Joint, s: nat)
  {
    && E.Inv(j.engine) && s in j.engine.sessions && !j.engine.sessions[s].isOpen
    && exists maxMessage: nat, maxSend: nat, nextId: nat ::
         nextId < H.ID_RANGE && j.conn == H.Accepted(maxMessage, maxSend, nextId)
  }

  lemma {:induction false} NoEventsNoRequests(events: seq<Q.Event>, s: nat)
    requires E.Kinds(events, s) == []
    ensures Requests(events, s) == []
  {
    if events != [] {
      NoEventsNoRequests(events[..|events| - 1], s);
    }
  }

  lemma AdmittedKeeps(j: Joint, s: nat)
    requires Admitted(j, s)
    ensures Inv(j, s)
  {
    assert s > 0 && E.Agrees(j.engine, s);
    E.GrammarByPhase(E.Kinds(j.engine.history.accepted, s));
    NoEventsNoRequests(j.engine.history.accepted, s);
  }

  // ------------------------------------------------------------- main results

  /** In every run the requests the queue has accepted for the session are exactly
      the deliveries of its connection, byte for byte and in their order; the ones
      the host has polled are an initial part of them; and the session is registered,
      and open, exactly as long as the connection is. */
  lemma RequestsAreTheDeliveries(start: Joint, s: nat, actions: seq<Action>)
    requires Admitted(start, s)
    ensures
      var j := Play(start, s, actions);
      && Requests(j.engine.history.accepted, s) == Payloads(j.conn.log.delivered)
      && Requests(j.engine.history.delivered, s) <= Payloads(j.conn.log.delivered)
      && (s in j.engine.sessions <==> !j.conn.closed)
      && (s in j.engine.sessions ==> j.engine.sessions[s].isOpen == j.conn.isOpen)
  {
    AdmittedKeeps(start, s);
    PlayKeeps(start, s, actions);
    E.PolledPayloads(Play(start, s, actions).engine.history, s, Q.HttpRequestEvent);
  }

  /** So a response reaches the request it is for: whenever the connection accepts a
      response, the last request the queue accepted for the session decodes at the
      host to the id that the response names. */
  lemma ResponseNamesTheLastRequest(start: Joint, s: nat, actions: seq<Action>, id: nat, response: H.Response)
    requires Admitted(start, s) && H.Accepts(Play(start, s, actions).conn, id, response)
    ensures
      var requests := Requests(Play(start, s, actions).engine.history.accepted, s);
      && requests != []
      && var last := Codec.Decode(requests[|requests| - 1]); last.Some? && last.value.id == id
  {
    AdmittedKeeps(start, s);
    PlayKeeps(start, s, actions);
    var c := Play(start, s, actions).conn;
    var ids := H.Ids(c.log.delivered);
    assert ids == H.Answered(c.log.written) + [id];
    assert ids[|ids| - 1] == id && c.log.delivered[|ids| - 1].id == id;
    assert H.Readable(c.log.delivered[|ids| - 1]);
  }
}
