/** Session lifecycles of the asynchronous engine and the event history its host
    sees (src/Net/Async/WorkerContext.cpp, ConnectionState.cpp, UdpPeer.cpp,
    UdpListener.cpp, TransportService.cpp, src/Runtime/Host/ServerHost.cpp).

    One worker thread runs all handlers; host calls to poll interleave with the
    events a handler pushes. An action is a handler, or a part of one, that
    pushes at most one event. */
module Engine {
  import opened Prelude
  import Q = EventQueue

  const ID_RANGE: nat := 0x1_0000_0000_0000_0000

  datatype Protocol = Stream | Udp(listener: nat, endpoint: nat)

  // A session in the registry: handshaking until it is isOpen. Closing removes it.
  datatype Session = Session(protocol: Protocol, isOpen: bool)

  datatype Engine = Engine(history: Q.Run, sessions: map<nat, Session>, peers: map<(nat, nat), nat>,
                           nextId: nat, maxConnections: nat, stopping: bool)

  function Started(maxConnections: nat, maxCount: nat, maxBytes: nat): Engine
  {
    Engine(Q.Run(Q.Empty(maxCount, maxBytes), [], []), map[], map[], 1, maxConnections, false)
  }

  datatype Action =
    | Admit(protocol: Protocol)
    | PublishOpen(id: nat, allocates: bool)
    | PublishMessage(id: nat, payload: Bytes, http: bool, allocates: bool)
    | Close(id: nat, allocates: bool)
    | ReportError(message: Bytes, allocates: bool)
    | Poll(capacity: nat)
    | BeginStop
    | FinishStop  // the transport has stopped; the queue is told so

  // next_session_id++ on 64 bits, where 0 means that the ids are used up.
  function NextId(id: nat): nat { if id + 1 == ID_RANGE then 0 else id + 1 }

  function Push(e: Engine, kind: Q.Kind, session: nat, payload: Bytes, allocates: bool): (Engine, bool)
  {
    (e.(history := Q.After(e.history, Q.Push(kind, session, payload, allocates))),
     Q.Pushed(e.history.queue, kind, session, payload, allocates).1)
  }

  function Admitted(e: Engine, protocol: Protocol): Engine
  {
    var added := e.(sessions := e.sessions[e.nextId := Session(protocol, false)], nextId := NextId(e.nextId));
    if protocol.Udp? then added.(peers := e.peers[(protocol.listener, protocol.endpoint) := e.nextId]) else added
  }

  function Opening(e: Engine, id: nat): Engine
    requires id in e.sessions
  {
    e.(sessions := e.sessions[id := e.sessions[id].(isOpen := true)])
  }

  function Removed(e: Engine, id: nat): Engine
    requires id in e.sessions
  {
    var rest := e.(sessions := e.sessions - {id});
    match e.sessions[id].protocol
    case Stream => rest
    case Udp(listener, endpoint) => rest.(peers := rest.peers - {(listener, endpoint)})
  }

  // The session leaves the registry, and its Close is pushed when it was open.
  function Closed(e: Engine, id: nat, allocates: bool): Engine
    requires id in e.sessions
  {
    if e.sessions[id].isOpen then Push(Removed(e, id), Q.CloseEvent, id, [], allocates).0 else Removed(e, id)
  }

  function Step(e: Engine, a: Action): Engine
  {
    match a
    case Admit(protocol) =>
      if e.stopping || (protocol.Udp? && (protocol.listener, protocol.endpoint) in e.peers)
         || |e.sessions| >= e.maxConnections || e.nextId == 0
      then e
      else Admitted(e, protocol)
    case PublishOpen(id, allocates) =>
      if id !in e.sessions || e.sessions[id].isOpen then e
      else
        var (pushed, ok) := Push(e, Q.OpenEvent, id, [], allocates);
        if ok then Opening(pushed, id) else Removed(pushed, id)
    case PublishMessage(id, payload, http, allocates) =>
      if id !in e.sessions || !e.sessions[id].isOpen then e
      else
        var (pushed, ok) := Push(e, if http then Q.HttpRequestEvent else Q.MessageEvent, id, payload, allocates);
        if ok then pushed else Closed(pushed, id, allocates)
    case Close(id, allocates) => if id in e.sessions then Closed(e, id, allocates) else e
    case ReportError(message, allocates) => Push(e, Q.ErrorEvent, 0, message, allocates).0
    case Poll(capacity) => e.(history := Q.After(e.history, Q.Poll(capacity)))
    case BeginStop => e.(stopping := true)
    case FinishStop =>
      if e.stopping && e.sessions == map[] then e.(history := Q.After(e.history, Q.Finish)) else e
  }

  function Play(start: Engine, actions: seq<Action>): Engine
  {
    if actions == [] then start
    else Step(Play(start, actions[..|actions| - 1]), actions[|actions| - 1])
  }

  // ------------------------------------------------------------ event grammar

  // How a session's history reads so far.
  datatype Phase = Unseen | Opened | Ended | Malformed

  function Read(phase: Phase, kind: Q.Kind): Phase
  {
    match (phase, kind)
    case (Unseen, OpenEvent) => Opened
    case (Opened, MessageEvent) => Opened
    case (Opened, HttpRequestEvent) => Opened
    case (Opened, CloseEvent) => Ended
    case _ => Malformed
  }

  // The kinds of a session's events, in order.
  function Kinds(events: seq<Q.Event>, id: nat): seq<Q.Kind>
  {
    if events == [] then []
    else
      var last := events[|events| - 1];
      Kinds(events[..|events| - 1], id) + (if last.session == id then [last.kind] else [])
  }

  function PhaseOf(kinds: seq<Q.Kind>): Phase
  {
    if kinds == [] then Unseen else Read(PhaseOf(kinds[..|kinds| - 1]), kinds[|kinds| - 1])
  }

  // Open, then messages and requests, then at most one final Close.
  ghost predicate Grammatical(kinds: seq<Q.Kind>)
  {
    && (kinds != [] ==> kinds[0] == Q.OpenEvent)
    && forall i :: 0 < i < |kinds| ==>
         kinds[i] in {Q.MessageEvent, Q.HttpRequestEvent} || (kinds[i] == Q.CloseEvent && i == |kinds| - 1)
  }

  lemma {:induction false} GrammarByPhase(kinds: seq<Q.Kind>)
    requires PhaseOf(kinds) != Malformed
    ensures Grammatical(kinds)
    ensures kinds == [] <==> PhaseOf(kinds) == Unseen
    ensures PhaseOf(kinds) == Ended <==> |kinds| > 1 && kinds[|kinds| - 1] == Q.CloseEvent
  {
    if kinds != [] {
      GrammarByPhase(kinds[..|kinds| - 1]);
    }
  }

  // ---------------------------------------------------------------- invariant

  function SessionPhase(e: Engine, id: nat): Phase { PhaseOf(Kinds(e.history.accepted, id)) }

  predicate Issued(e: Engine, id: nat) { id > 0 && (e.nextId == 0 || id < e.nextId) }

  predicate Live(e: Engine) { !e.history.queue.overflow && !e.history.queue.stopped }

  // None when the session is not in the registry, otherwise whether it is open.
  function Place(e: Engine, id: nat): Option<bool>
  {
    if id in e.sessions then Some(e.sessions[id].isOpen) else None
  }

  // A history in the given phase fits a session at the given place: nothing is
  // pushed for an id before it is issued, and without overflow an open history
  // belongs to a registered session.
  predicate Fits(phase: Phase, place: Option<bool>, issued: bool, overflow: bool)
  {
    && phase != Malformed
    && (place.Some? ==> issued && phase == if place.value then Opened else Unseen)
    && (!issued ==> phase == Unseen)
    && (!overflow && phase == Opened ==> place.Some?)
  }

  predicate Agrees(e: Engine, id: nat)
  {
    Fits(SessionPhase(e, id), Place(e, id), Issued(e, id), e.history.queue.overflow)
  }

  ghost predicate Histories(e: Engine)
  {
    0 !in e.sessions && e.nextId < ID_RANGE && forall id :: id > 0 ==> Agrees(e, id)
  }

  // The endpoint index and the registry of UDP sessions are each other's inverse.
  ghost predicate Indexed(e: Engine)
  {
    && (forall key :: key in e.peers ==>
          e.peers[key] in e.sessions && e.sessions[e.peers[key]].protocol == Udp(key.0, key.1))
    && (forall id :: id in e.sessions && e.sessions[id].protocol.Udp? ==>
          var p := e.sessions[id].protocol;
          (p.listener, p.endpoint) in e.peers && e.peers[(p.listener, p.endpoint)] == id)
  }

  predicate Finished(e: Engine)
  {
    e.history.queue.stopped ==> e.stopping && e.sessions == map[]
  }

  ghost predicate Inv(e: Engine)
  {
    && Q.Inv(e.history)
    && Histories(e)
    && Indexed(e)
    && |e.sessions| <= e.maxConnections
    && Finished(e)
  }

  // ------------------------------------------------------------- preservation

  lemma KindsAppend(events: seq<Q.Event>, event: Q.Event, id: nat)
    ensures PhaseOf(Kinds(events + [event], id))
         == if event.session == id then Read(PhaseOf(Kinds(events, id)), event.kind) else PhaseOf(Kinds(events, id))
  {
    assert (events + [event])[..|events|] == events;
    var kinds := Kinds(events, id);
    if event.session == id {
      assert (kinds + [event.kind])[..|kinds|] == kinds;
    } else {
      assert kinds + [] == kinds;
    }
  }

  // An accepted push moves the phase of its own session only.
  lemma PushMovesPhase(e: Engine, kind: Q.Kind, session: nat, payload: Bytes, allocates: bool, id: nat)
    ensures
      var (p, ok) := Push(e, kind, session, payload, allocates);
      SessionPhase(p, id)
        == if ok && id == session then Read(SessionPhase(e, id), kind) else SessionPhase(e, id)
  {
    var (p, ok) := Push(e, kind, session, payload, allocates);
    if ok {
      KindsAppend(e.history.accepted, p.history.accepted[|e.history.accepted|], id);
    }
  }

  // A push is refused exactly when the queue is not live afterwards, and a queue
  // that is not live stays as it is.
  lemma PushOutcome(e: Engine, kind: Q.Kind, session: nat, payload: Bytes, allocates: bool)
    requires Q.Inv(e.history)
    ensures
      var (p, ok) := Push(e, kind, session, payload, allocates);
      && Q.Inv(p.history) && p == e.(history := p.history)
      && ok == Live(p) && (Live(p) ==> Live(e)) && (!Live(e) ==> p == e)
      && p.history.queue.stopped == e.history.queue.stopped
      && (e.history.queue.overflow ==> p.history.queue.overflow)
  {
    Q.PushKeeps(e.history, kind, session, payload, allocates);
  }

  ghost predicate Untouched(e: Engine, t: Engine, id: nat)
  {
    && SessionPhase(t, id) == SessionPhase(e, id) && Place(t, id) == Place(e, id)
    && Issued(t, id) == Issued(e, id) && (e.history.queue.overflow ==> t.history.queue.overflow)
  }

  // A step that concerns one session keeps every other one in agreement.
  lemma OneSession(e: Engine, t: Engine, id: nat)
    requires Histories(e) && 0 !in t.sessions && t.nextId == e.nextId
    requires forall other :: other > 0 && other != id ==> Untouched(e, t, other)
    requires id > 0 ==> Agrees(t, id)
    ensures Histories(t)
  {
    forall other | other > 0
      ensures Agrees(t, other)
    {
      if other != id {
        assert Untouched(e, t, other) && Agrees(e, other);
      }
    }
  }

  // A push followed by a change of the registry at the same session.
  lemma PushTouchesOne(e: Engine, t: Engine, kind: Q.Kind, id: nat, payload: Bytes, allocates: bool)
    requires Q.Inv(e.history)
    requires t.history == Push(e, kind, id, payload, allocates).0.history && t.nextId == e.nextId
    requires forall other :: other != id ==> Place(t, other) == Place(e, other)
    ensures forall other :: other > 0 && other != id ==> Untouched(e, t, other)
  {
    var (p, ok) := Push(e, kind, id, payload, allocates);
    PushOutcome(e, kind, id, payload, allocates);
    forall other | other > 0 && other != id
      ensures Untouched(e, t, other)
    {
      PushMovesPhase(e, kind, id, payload, allocates, other);
      assert SessionPhase(t, other) == SessionPhase(p, other);
    }
  }

  lemma SmallerMap(sessions: map<nat, Session>, id: nat)
    requires id in sessions
    ensures |sessions - {id}| < |sessions|
  {
    assert (sessions - {id}).Keys == sessions.Keys - {id};
  }

  lemma RemoveKeepsIndex(e: Engine, id: nat)
    requires Indexed(e) && id in e.sessions
    ensures Indexed(Removed(e, id)) && |Removed(e, id).sessions| < |e.sessions|
  {
    SmallerMap(e.sessions, id);
    var r := Removed(e, id);
    forall key | key in r.peers
      ensures r.peers[key] in r.sessions && r.sessions[r.peers[key]].protocol == Udp(key.0, key.1)
    {
      assert key in e.peers;
    }
  }

  lemma AdmitKeeps(e: Engine, protocol: Protocol)
    requires Inv(e) && e.nextId > 0 && |e.sessions| < e.maxConnections && !e.stopping
    requires protocol.Udp? ==> (protocol.listener, protocol.endpoint) !in e.peers
    ensures Inv(Admitted(e, protocol))
  {
    AdmitKeepsHistories(e, protocol);
    AdmitKeepsIndex(e, protocol);
    AdmitAddsOne(e, protocol);
  }

  lemma AdmitAddsOne(e: Engine, protocol: Protocol)
    requires e.nextId !in e.sessions
    ensures |Admitted(e, protocol).sessions| == |e.sessions| + 1
    ensures Admitted(e, protocol).history == e.history
    ensures Admitted(e, protocol).maxConnections == e.maxConnections
  {
    assert Admitted(e, protocol).sessions.Keys == e.sessions.Keys + {e.nextId};
  }

  lemma AdmitKeepsHistories(e: Engine, protocol: Protocol)
    requires Histories(e) && e.nextId > 0
    ensures e.nextId !in e.sessions && Histories(Admitted(e, protocol))
  {
    var t := Admitted(e, protocol);
    assert Agrees(e, e.nextId);
    forall id | id > 0 && id != e.nextId
      ensures Agrees(t, id)
    {
      assert Agrees(e, id);
      assert Issued(e, id) ==> Issued(t, id);
    }
  }

  lemma AdmitKeepsIndex(e: Engine, protocol: Protocol)
    requires Indexed(e) && e.nextId !in e.sessions
    requires protocol.Udp? ==> (protocol.listener, protocol.endpoint) !in e.peers
    ensures Indexed(Admitted(e, protocol))
  {
  }

  lemma OpenKeeps(e: Engine, id: nat, allocates: bool)
    requires Inv(e) && id in e.sessions && !e.sessions[id].isOpen
    ensures
      var (p, ok) := Push(e, Q.OpenEvent, id, [], allocates);
      Inv(if ok then Opening(p, id) else Removed(p, id))
  {
    var (p, ok) := Push(e, Q.OpenEvent, id, [], allocates);
    var t := if ok then Opening(p, id) else Removed(p, id);
    PushOutcome(e, Q.OpenEvent, id, [], allocates);
    OpenKeepsHistories(e, t, p, ok, id, allocates);
    assert Indexed(p);
    if ok {
      OpeningKeepsIndex(p, id);
    } else {
      RemoveKeepsIndex(p, id);
    }
  }

  // The phase and the place of a session after a push for it, when the registry
  // changes only at that session.
  lemma PushedAgrees(e: Engine, t: Engine, kind: Q.Kind, id: nat, payload: Bytes, allocates: bool)
    requires Q.Inv(e.history) && Agrees(e, id) && Place(e, id).Some?
    requires
      var (p, ok) := Push(e, kind, id, payload, allocates);
      && t.history == p.history && t.nextId == e.nextId
      && (Place(t, id).Some? ==> ok && Read(SessionPhase(e, id), kind) == if Place(t, id).value then Opened else Unseen)
      && (ok && Place(t, id).None? ==> Read(SessionPhase(e, id), kind) == Ended)
      && (!ok && !t.history.queue.overflow ==> SessionPhase(e, id) != Opened)
    ensures Agrees(t, id)
  {
    PushMovesPhase(e, kind, id, payload, allocates, id);
    var p := Push(e, kind, id, payload, allocates).0;
    assert SessionPhase(t, id) == SessionPhase(p, id);
  }

  lemma OpenKeepsHistories(e: Engine, t: Engine, p: Engine, ok: bool, id: nat, allocates: bool)
    requires Inv(e) && id in e.sessions && !e.sessions[id].isOpen
    requires (p, ok) == Push(e, Q.OpenEvent, id, [], allocates)
    requires t == if ok then Opening(p, id) else Removed(p, id)
    ensures Histories(t)
  {
    assert Agrees(e, id);
    PushedAgrees(e, t, Q.OpenEvent, id, [], allocates);
    PushTouchesOne(e, t, Q.OpenEvent, id, [], allocates);
    OneSession(e, t, id);
  }

  lemma OpeningKeepsIndex(e: Engine, id: nat)
    requires Indexed(e) && id in e.sessions
    ensures Indexed(Opening(e, id)) && |Opening(e, id).sessions| == |e.sessions|
  {
    assert Opening(e, id).sessions.Keys == e.sessions.Keys;
  }

  lemma CloseKeeps(e: Engine, id: nat, allocates: bool)
    requires Inv(e) && id in e.sessions
    ensures Inv(Closed(e, id, allocates))
  {
    RemoveKeepsIndex(e, id);
    if e.sessions[id].isOpen {
      CloseIsPushed(e, id, allocates);
      assert Indexed(Push(Removed(e, id), Q.CloseEvent, id, [], allocates).0);
    } else {
      RemoveUnopened(e, id);
    }
  }

  lemma RemoveUnopened(e: Engine, id: nat)
    requires Histories(e) && id in e.sessions && !e.sessions[id].isOpen
    ensures Histories(Removed(e, id))
  {
    var r := Removed(e, id);
    forall other | other > 0 && other != id
      ensures Untouched(e, r, other)
    {
    }
    assert Agrees(e, id);
    OneSession(e, r, id);
  }

  lemma RemovedElsewhere(e: Engine, id: nat)
    requires id in e.sessions
    ensures forall other :: other != id ==> Place(Removed(e, id), other) == Place(e, other)
    ensures Removed(e, id).history == e.history && Removed(e, id).nextId == e.nextId
    ensures Place(Removed(e, id), id).None? && 0 !in e.sessions ==> 0 !in Removed(e, id).sessions
  {
  }

  lemma CloseIsPushed(e: Engine, id: nat, allocates: bool)
    requires Q.Inv(e.history) && Histories(e) && Finished(e) && id in e.sessions && e.sessions[id].isOpen
    ensures
      var t := Push(Removed(e, id), Q.CloseEvent, id, [], allocates).0;
      Histories(t) && Q.Inv(t.history) && Finished(t)
  {
    var t := Push(Removed(e, id), Q.CloseEvent, id, [], allocates).0;
    PushOutcome(e, Q.CloseEvent, id, [], allocates);
    RemovedElsewhere(e, id);
    assert Agrees(e, id);
    PushedAgrees(e, t, Q.CloseEvent, id, [], allocates);
    PushTouchesOne(e, t, Q.CloseEvent, id, [], allocates);
    OneSession(e, t, id);
  }

  lemma MessageKeeps(e: Engine, id: nat, payload: Bytes, kind: Q.Kind, allocates: bool)
    requires Inv(e) && id in e.sessions && e.sessions[id].isOpen
    requires kind == Q.HttpRequestEvent || kind == Q.MessageEvent
    ensures
      var (pushed, ok) := Push(e, kind, id, payload, allocates);
      Inv(if ok then pushed else Closed(pushed, id, allocates))
  {
    MessageIsPushed(e, id, payload, kind, allocates);
    var (pushed, ok) := Push(e, kind, id, payload, allocates);
    if !ok {
      CloseKeeps(pushed, id, allocates);
    }
  }

  lemma MessageIsPushed(e: Engine, id: nat, payload: Bytes, kind: Q.Kind, allocates: bool)
    requires Inv(e) && id in e.sessions && e.sessions[id].isOpen
    requires kind == Q.HttpRequestEvent || kind == Q.MessageEvent
    ensures Inv(Push(e, kind, id, payload, allocates).0)
  {
    var p := Push(e, kind, id, payload, allocates).0;
    PushOutcome(e, kind, id, payload, allocates);
    PushMovesPhase(e, kind, id, payload, allocates, id);
    PushTouchesOne(e, p, kind, id, payload, allocates);
    assert Agrees(e, id);
    OneSession(e, p, id);
    assert Indexed(p);
  }

  lemma ErrorKeeps(e: Engine, message: Bytes, allocates: bool)
    requires Inv(e)
    ensures Inv(Step(e, ReportError(message, allocates)))
  {
    var p := Push(e, Q.ErrorEvent, 0, message, allocates).0;
    PushOutcome(e, Q.ErrorEvent, 0, message, allocates);
    PushTouchesOne(e, p, Q.ErrorEvent, 0, message, allocates);
    OneSession(e, p, 0);
    assert Indexed(p);
  }

  // A step that pushes nothing and leaves the registry alone.
  lemma NoPushKeepsHistories(e: Engine, t: Engine)
    requires Histories(e)
    requires t.history.accepted == e.history.accepted && t.sessions == e.sessions && t.nextId == e.nextId
    requires t.history.queue.overflow == e.history.queue.overflow
    ensures Histories(t)
  {
    forall id | id > 0
      ensures Agrees(t, id)
    {
      assert Agrees(e, id);
    }
  }

  lemma PollKeeps(e: Engine, capacity: nat)
    requires Inv(e)
    ensures Inv(Step(e, Poll(capacity)))
  {
    Q.PollKeeps(e.history, capacity);
    NoPushKeepsHistories(e, Step(e, Poll(capacity)));
    assert Indexed(Step(e, Poll(capacity)));
  }

  lemma StopKeeps(e: Engine, a: Action)
    requires Inv(e) && (a == BeginStop || a == FinishStop)
    ensures Inv(Step(e, a))
  {
    NoPushKeepsHistories(e, Step(e, a));
    assert Indexed(Step(e, a));
  }

  lemma StepKeeps(e: Engine, a: Action)
    requires Inv(e)
    ensures Inv(Step(e, a))
  {
    match a
    case Admit(protocol) =>
      if Step(e, a) != e {
        AdmitKeeps(e, protocol);
      }
    case PublishOpen(id, allocates) =>
      if id in e.sessions && !e.sessions[id].isOpen {
        OpenKeeps(e, id, allocates);
      }
    case PublishMessage(id, payload, http, allocates) =>
      if id in e.sessions && e.sessions[id].isOpen {
        MessageKeeps(e, id, payload, if http then Q.HttpRequestEvent else Q.MessageEvent, allocates);
      }
    case Close(id, allocates) =>
      if id in e.sessions {
        CloseKeeps(e, id, allocates);
      }
    case ReportError(message, allocates) => ErrorKeeps(e, message, allocates);
    case Poll(capacity) => PollKeeps(e, capacity);
    case BeginStop => StopKeeps(e, BeginStop);
    case FinishStop => StopKeeps(e, FinishStop);
  }

  lemma {:induction false} PlayKeeps(maxConnections: nat, maxCount: nat, maxBytes: nat, actions: seq<Action>)
    ensures Inv(Play(Started(maxConnections, maxCount, maxBytes), actions))
  {
    if actions != [] {
      PlayKeeps(maxConnections, maxCount, maxBytes, actions[..|actions| - 1]);
      StepKeeps(Play(Started(maxConnections, maxCount, maxBytes), actions[..|actions| - 1]), actions[|actions| - 1]);
    }
  }

  // ------------------------------------------------------------- main results

  /** In every run the accepted events of a session read Open, then messages and
      requests, then at most one final Close; and as long as the queue has not
      overflowed, a session whose Close is missing is still in the registry. */
  lemma EventGrammar(maxConnections: nat, maxCount: nat, maxBytes: nat, actions: seq<Action>, id: nat)
    requires id > 0
    ensures
      var e := Play(Started(maxConnections, maxCount, maxBytes), actions);
      var kinds := Kinds(e.history.accepted, id);
      && Grammatical(kinds)
      && (!e.history.queue.overflow && kinds != [] && id !in e.sessions ==> kinds[|kinds| - 1] == Q.CloseEvent)
      && (id in e.sessions ==> kinds == [] || kinds[|kinds| - 1] != Q.CloseEvent)
  {
    PlayKeeps(maxConnections, maxCount, maxBytes, actions);
    var e := Play(Started(maxConnections, maxCount, maxBytes), actions);
    assert Agrees(e, id);
    GrammarByPhase(Kinds(e.history.accepted, id));
  }

  /** The transport stops before the queue is finished, so after a stop without
      overflow a host that polls until it is told stopped has received, for each
      session it saw open, exactly one Close, as the last event. */
  lemma EveryOpenIsClosed(maxConnections: nat, maxCount: nat, maxBytes: nat, actions: seq<Action>,
                          capacity: nat, id: nat)
    requires id > 0
    requires
      var queue := Play(Started(maxConnections, maxCount, maxBytes), actions).history.queue;
      queue.stopped && !queue.overflow && Q.Polled(queue, capacity).1 == Q.Stopped
    ensures
      var delivered := Play(Started(maxConnections, maxCount, maxBytes), actions).history.delivered;
      var kinds := Kinds(delivered, id);
      Grammatical(kinds) && (kinds != [] ==> kinds[|kinds| - 1] == Q.CloseEvent)
  {
    PlayKeeps(maxConnections, maxCount, maxBytes, actions);
    var e := Play(Started(maxConnections, maxCount, maxBytes), actions);
    AllDelivered(e.history, capacity);
    assert Finished(e);
    EventGrammar(maxConnections, maxCount, maxBytes, actions, id);
  }

  lemma AllDelivered(r: Q.Run, capacity: nat)
    requires Q.Inv(r) && !r.queue.overflow && Q.Polled(r.queue, capacity).1 == Q.Stopped
    ensures r.delivered == r.accepted
  {
  }

  /** Throughout, the UDP endpoint index and the registry are inverse to each
      other, and the registry never exceeds the connection limit. */
  lemma IndexAndLimit(maxConnections: nat, maxCount: nat, maxBytes: nat, actions: seq<Action>)
    ensures
      var e := Play(Started(maxConnections, maxCount, maxBytes), actions);
      Indexed(e) && |e.sessions| <= maxConnections
  {
    PlayKeeps(maxConnections, maxCount, maxBytes, actions);
    LimitStays(Started(maxConnections, maxCount, maxBytes), actions);
  }

  lemma StepKeepsLimit(e: Engine, a: Action)
    ensures Step(e, a).maxConnections == e.maxConnections
  {
    match a
    case Admit(_) =>
    case PublishOpen(_, _) =>
    case PublishMessage(_, _, _, _) =>
    case Close(_, _) =>
    case ReportError(_, _) =>
    case Poll(_) =>
    case BeginStop =>
    case FinishStop =>
  }

  lemma {:induction false} LimitStays(start: Engine, actions: seq<Action>)
    ensures Play(start, actions).maxConnections == start.maxConnections
  {
    if actions != [] {
      LimitStays(start, actions[..|actions| - 1]);
      StepKeepsLimit(Play(start, actions[..|actions| - 1]), actions[|actions| - 1]);
    }
  }

  // --------------------------------------------- what the host is told of what

  // The payloads of the events of one kind for a session, in order.
  function PayloadsOf(events: seq<Q.Event>, id: nat, kind: Q.Kind): seq<Bytes>
  {
    if events == [] then []
    else
      var last := events[|events| - 1];
      PayloadsOf(events[..|events| - 1], id, kind)
      + if last.session == id && last.kind == kind then [last.payload] else []
  }

  lemma PushedPayload(e: Engine, kind: Q.Kind, session: nat, payload: Bytes, allocates: bool, id: nat, wanted: Q.Kind)
    ensures
      var (p, ok) := Push(e, kind, session, payload, allocates);
      PayloadsOf(p.history.accepted, id, wanted) == PayloadsOf(e.history.accepted, id, wanted)
        + if ok && session == id && kind == wanted then [payload] else []
  {
    var (p, ok) := Push(e, kind, session, payload, allocates);
    if ok {
      assert p.history.accepted[..|e.history.accepted|] == e.history.accepted;
    } else {
      assert PayloadsOf(e.history.accepted, id, wanted) + [] == PayloadsOf(e.history.accepted, id, wanted);
    }
  }

  // The queue takes one more event: it is neither finished nor overflowed, and what
  // the host has not polled yet leaves room.
  predicate Takes(e: Engine, payload: Bytes, allocates: bool)
  {
    && Live(e)
    && Q.HasRoom(e.history, e.history.queue.maxCount, e.history.queue.maxBytes, payload, allocates)
  }

  lemma TakenExactly(e: Engine, kind: Q.Kind, session: nat, payload: Bytes, allocates: bool)
    requires Q.Inv(e.history)
    ensures
      var (p, ok) := Push(e, kind, session, payload, allocates);
      && (ok <==> Takes(e, payload, allocates))
      && p.history.accepted == e.history.accepted
           + (if ok then [Q.Event(kind, session, |e.history.accepted| + 1, payload)] else [])
      && p == e.(history := p.history)
  {
    Q.PushTells(e.history, kind, session, payload, allocates);
    assert e.history.accepted + [] == e.history.accepted;
  }

  predicate IsOpen(e: Engine, id: nat) { id in e.sessions && e.sessions[id].isOpen }

  // What the handlers have published for a session while it was open and the queue
  // took it.
  function Published(start: Engine, actions: seq<Action>, id: nat, http: bool): seq<Bytes>
  {
    if actions == [] then []
    else
      var front, last := actions[..|actions| - 1], actions[|actions| - 1];
      Published(start, front, id, http)
      + if last.PublishMessage? && last.id == id && last.http == http
           && IsOpen(Play(start, front), id) && Takes(Play(start, front), last.payload, last.allocates)
        then [last.payload] else []
  }

  function KindOf(http: bool): Q.Kind { if http then Q.HttpRequestEvent else Q.MessageEvent }

  lemma NoPayload(e: Engine, kind: Q.Kind, session: nat, payload: Bytes, allocates: bool, id: nat, http: bool)
    requires session != id || kind != KindOf(http)
    ensures PayloadsOf(Push(e, kind, session, payload, allocates).0.history.accepted, id, KindOf(http))
         == PayloadsOf(e.history.accepted, id, KindOf(http))
  {
    PushedPayload(e, kind, session, payload, allocates, id, KindOf(http));
    assert PayloadsOf(e.history.accepted, id, KindOf(http)) + [] == PayloadsOf(e.history.accepted, id, KindOf(http));
  }

  lemma ClosedPayloads(e: Engine, session: nat, allocates: bool, id: nat, http: bool)
    requires session in e.sessions
    ensures PayloadsOf(Closed(e, session, allocates).history.accepted, id, KindOf(http))
         == PayloadsOf(e.history.accepted, id, KindOf(http))
  {
    NoPayload(Removed(e, session), Q.CloseEvent, session, [], allocates, id, http);
  }

  // One action adds to the payloads of a session what Published says of it.
  lemma StepPublishes(e: Engine, a: Action, id: nat, http: bool)
    requires Inv(e)
    ensures
      var published := a.PublishMessage? && a.id == id && a.http == http && IsOpen(e, id)
                       && Takes(e, a.payload, a.allocates);
      PayloadsOf(Step(e, a).history.accepted, id, KindOf(http))
        == PayloadsOf(e.history.accepted, id, KindOf(http)) + if published then [a.payload] else []
  {
    var before := PayloadsOf(e.history.accepted, id, KindOf(http));
    assert before + [] == before;
    match a
    case Admit(_) =>
    case PublishOpen(session, allocates) => NoPayload(e, Q.OpenEvent, session, [], allocates, id, http);
    case PublishMessage(session, payload, wanted, allocates) =>
      if IsOpen(e, session) {
        MessageGoesOn(e, session, payload, wanted, allocates, id, http);
      }
    case Close(session, allocates) =>
      if session in e.sessions {
        ClosedPayloads(e, session, allocates, id, http);
      }
    case ReportError(message, allocates) => NoPayload(e, Q.ErrorEvent, 0, message, allocates, id, http);
    case Poll(_) =>
    case BeginStop =>
    case FinishStop =>
  }

  lemma MessageGoesOn(e: Engine, session: nat, payload: Bytes, wanted: bool, allocates: bool, id: nat, http: bool)
    requires Inv(e) && IsOpen(e, session)
    ensures
      var published := session == id && wanted == http && Takes(e, payload, allocates);
      PayloadsOf(Step(e, PublishMessage(session, payload, wanted, allocates)).history.accepted, id, KindOf(http))
        == PayloadsOf(e.history.accepted, id, KindOf(http)) + if published then [payload] else []
  {
    var (pushed, ok) := Push(e, KindOf(wanted), session, payload, allocates);
    PushedPayload(e, KindOf(wanted), session, payload, allocates, id, KindOf(http));
    TakenExactly(e, KindOf(wanted), session, payload, allocates);
    if !ok {
      ClosedPayloads(pushed, session, allocates, id, http);
    }
  }

  lemma {:induction false} PublishedArrives(maxConnections: nat, maxCount: nat, maxBytes: nat, actions: seq<Action>,
                                            id: nat, http: bool)
    ensures
      var start := Started(maxConnections, maxCount, maxBytes);
      PayloadsOf(Play(start, actions).history.accepted, id, KindOf(http)) == Published(start, actions, id, http)
  {
    if actions != [] {
      var front := actions[..|actions| - 1];
      PublishedArrives(maxConnections, maxCount, maxBytes, front, id, http);
      PlayKeeps(maxConnections, maxCount, maxBytes, front);
      StepPublishes(Play(Started(maxConnections, maxCount, maxBytes), front), actions[|actions| - 1], id, http);
    }
  }

  lemma {:induction false} PayloadsPrefix(events: seq<Q.Event>, more: seq<Q.Event>, id: nat, kind: Q.Kind)
    ensures PayloadsOf(events, id, kind) <= PayloadsOf(events + more, id, kind)
  {
    if more == [] {
      assert events + more == events;
    } else {
      assert (events + more)[..|events + more| - 1] == events + more[..|more| - 1];
      PayloadsPrefix(events, more[..|more| - 1], id, kind);
    }
  }

  lemma PolledPayloads(r: Q.Run, id: nat, kind: Q.Kind)
    requires Q.Inv(r) && kind != Q.OverflowEvent
    ensures PayloadsOf(r.delivered, id, kind) <= PayloadsOf(r.accepted, id, kind)
  {
    var polled := if r.queue.reported then r.delivered[..|r.delivered| - 1] else r.delivered;
    assert polled <= r.accepted;
    assert polled + r.accepted[|polled|..] == r.accepted;
    PayloadsPrefix(polled, r.accepted[|polled|..], id, kind);
    assert PayloadsOf(polled, id, kind) + [] == PayloadsOf(polled, id, kind);
  }

  /** Nothing is altered on the way to the host: in every run the payloads of the
      message events accepted for a session are, in order and byte for byte, what was
      published for it while it was open and the queue took it, and the same of its
      requests; what the host has polled is an initial part of that. */
  lemma MessagesArrive(maxConnections: nat, maxCount: nat, maxBytes: nat, actions: seq<Action>, id: nat, http: bool)
    ensures
      var start := Started(maxConnections, maxCount, maxBytes);
      var history := Play(start, actions).history;
      && PayloadsOf(history.accepted, id, KindOf(http)) == Published(start, actions, id, http)
      && PayloadsOf(history.delivered, id, KindOf(http)) <= Published(start, actions, id, http)
  {
    PublishedArrives(maxConnections, maxCount, maxBytes, actions, id, http);
    PlayKeeps(maxConnections, maxCount, maxBytes, actions);
    PolledPayloads(Play(Started(maxConnections, maxCount, maxBytes), actions).history, id, KindOf(http));
  }

  // ------------------------------------------------ what becomes of a session

  ghost predicate EndpointTaken(e: Engine, protocol: Protocol)
  {
    protocol.Udp? && exists id :: id in e.sessions && e.sessions[id].protocol == protocol
  }

  lemma {:induction false} StoppingMeansBegun(start: Engine, actions: seq<Action>)
    ensures Play(start, actions).stopping <==> start.stopping || BeginStop in actions
  {
    if actions != [] {
      var front, last := actions[..|actions| - 1], actions[|actions| - 1];
      StoppingMeansBegun(start, front);
      assert actions == front + [last];
      StoppingStays(Play(start, front), last);
    }
  }

  lemma StoppingStays(e: Engine, a: Action)
    ensures Step(e, a).stopping <==> e.stopping || a == BeginStop
  {
    match a
    case Admit(_) =>
    case PublishOpen(_, _) =>
    case PublishMessage(_, _, _, _) =>
    case Close(_, _) =>
    case ReportError(_, _) =>
    case Poll(_) =>
    case BeginStop =>
    case FinishStop =>
  }

  /** A connection is admitted exactly when no stop has begun, no session has its UDP
      endpoint, the limit leaves room and ids are left; it then has a session of its
      own, not open yet, and every other one stays as it is. */
  lemma AdmitAnswers(maxConnections: nat, maxCount: nat, maxBytes: nat, actions: seq<Action>, protocol: Protocol)
    ensures
      var e := Play(Started(maxConnections, maxCount, maxBytes), actions);
      var t := Step(e, Admit(protocol));
      if BeginStop !in actions && !EndpointTaken(e, protocol) && |e.sessions| < maxConnections && e.nextId != 0
      then e.nextId !in e.sessions && t.sessions == e.sessions[e.nextId := Session(protocol, false)]
      else t == e
  {
    PlayKeeps(maxConnections, maxCount, maxBytes, actions);
    LimitStays(Started(maxConnections, maxCount, maxBytes), actions);
    var e := Play(Started(maxConnections, maxCount, maxBytes), actions);
    StoppingMeansBegun(Started(maxConnections, maxCount, maxBytes), actions);
    if e.nextId != 0 {
      AdmitKeepsHistories(e, protocol);
    }
  }

  /** A session that was admitted is opened, and the host told of it, exactly when the
      queue takes the event; otherwise it leaves the registry untold. */
  lemma OpenAnswers(e: Engine, id: nat, allocates: bool)
    requires Inv(e) && id in e.sessions && !e.sessions[id].isOpen
    ensures
      var t := Step(e, PublishOpen(id, allocates));
      if Takes(e, [], allocates) then
        && t.sessions == e.sessions[id := Session(e.sessions[id].protocol, true)]
        && t.history.accepted == e.history.accepted + [Q.Event(Q.OpenEvent, id, |e.history.accepted| + 1, [])]
      else t.sessions == e.sessions - {id} && t.history.accepted == e.history.accepted
  {
    TakenExactly(e, Q.OpenEvent, id, [], allocates);
    RemovedElsewhere(Push(e, Q.OpenEvent, id, [], allocates).0, id);
  }

  /** A message of an open session is told to the host exactly when the queue takes
      it, and then changes no session; otherwise the session is closed. */
  lemma MessageAnswers(e: Engine, id: nat, payload: Bytes, http: bool, allocates: bool)
    requires Inv(e) && IsOpen(e, id)
    ensures
      var t := Step(e, PublishMessage(id, payload, http, allocates));
      if Takes(e, payload, allocates) then
        && t.sessions == e.sessions
        && t.history.accepted == e.history.accepted + [Q.Event(KindOf(http), id, |e.history.accepted| + 1, payload)]
      else t.sessions == e.sessions - {id} && t.history.accepted == e.history.accepted
  {
    TakenExactly(e, KindOf(http), id, payload, allocates);
    PushOutcome(e, KindOf(http), id, payload, allocates);
    var (pushed, ok) := Push(e, KindOf(http), id, payload, allocates);
    if !ok {
      TakenExactly(Removed(pushed, id), Q.CloseEvent, id, [], allocates);
      assert e.history.accepted + [] == e.history.accepted;
    }
  }

  /** Closing takes exactly that session out of the registry, and tells the host when
      the session was open and the queue takes the event. */
  lemma CloseAnswers(e: Engine, id: nat, allocates: bool)
    requires Inv(e)
    ensures
      var t := Step(e, Close(id, allocates));
      && t.sessions == e.sessions - {id}
      && t.history.accepted == e.history.accepted
           + if IsOpen(e, id) && Takes(e, [], allocates)
             then [Q.Event(Q.CloseEvent, id, |e.history.accepted| + 1, [])] else []
  {
    if id in e.sessions {
      TakenExactly(Removed(e, id), Q.CloseEvent, id, [], allocates);
    }
    assert e.history.accepted + [] == e.history.accepted;
  }

  /** As long as nothing has overflowed, a poll of the host gets the first event it
      was told and has not polled yet, whenever its buffer holds it, and changes no
      session. */
  lemma PollAnswers(e: Engine, capacity: nat)
    requires Inv(e) && !e.history.queue.overflow && |e.history.delivered| < |e.history.accepted|
    ensures
      var event := e.history.accepted[|e.history.delivered|];
      var t := Step(e, Poll(capacity));
      && t == e.(history := t.history) && t.history.accepted == e.history.accepted
      && t.history.delivered == e.history.delivered + if |event.payload| <= capacity then [event] else []
  {
    Q.PollTells(e.history, capacity);
    assert e.history.delivered + [] == e.history.delivered;
  }

  /** An error is told to the host as it is, for session 0, when the queue takes it. */
  lemma ErrorAnswers(e: Engine, message: Bytes, allocates: bool)
    requires Inv(e)
    ensures
      var t := Step(e, ReportError(message, allocates));
      && t.sessions == e.sessions
      && t.history.accepted == e.history.accepted
           + if Takes(e, message, allocates) then [Q.Event(Q.ErrorEvent, 0, |e.history.accepted| + 1, message)] else []
  {
    TakenExactly(e, Q.ErrorEvent, 0, message, allocates);
  }

  // ------------------------------------------------------- the imperative form

  // Stop first forbids admission and then only closes sessions.
  ghost predicate Stopping(actions: seq<Action>)
  {
    actions != [] && actions[0] == BeginStop && forall i :: 0 < i < |actions| ==> actions[i].Close?
  }

  lemma PlayOne(start: Engine, actions: seq<Action>, a: Action)
    ensures Play(start, actions + [a]) == Step(Play(start, actions), a)
  {
    assert (actions + [a])[..|actions|] == actions;
  }

  // The registry of the worker thread with the two notifications it wraps, and
  // the event queue the callbacks push into.
  class WorkerContext {
    const events: Q.Events
    const maxConnections: nat
    var sessions: map<nat, Session>
    var peers: map<(nat, nat), nat>
    var nextId: nat
    var stopping: bool
    ghost var accepted: seq<Q.Event>
    ghost var delivered: seq<Q.Event>

    ghost function Model(): Engine
      reads this, events
    {
      Engine(Q.Run(events.Model(), accepted, delivered), sessions, peers, nextId, maxConnections, stopping)
    }

    constructor (events: Q.Events, maxConnections: nat)
      requires events.Model() == Q.Empty(events.maxCount, events.maxBytes)
      ensures this.events == events && Model() == Started(maxConnections, events.maxCount, events.maxBytes)
    {
      this.events, this.maxConnections := events, maxConnections;
      sessions, peers, nextId, stopping := map[], map[], 1, false;
      accepted, delivered := [], [];
    }

    method AllocateSessionId() returns (id: nat)
      modifies this`nextId
      ensures id == old(nextId)
      ensures nextId == if id == 0 then 0 else NextId(id)
    {
      if nextId == 0 {
        return 0;
      }
      id := nextId;
      nextId := if nextId + 1 == ID_RANGE then 0 else nextId + 1;
    }

    method Notify(kind: Q.Kind, id: nat, payload: Bytes) returns (ok: bool, ghost allocates: bool)
      modifies events, this`accepted
      ensures (Model(), ok) == Push(old(Model()), kind, id, payload, allocates)
    {
      ghost var sequence := events.nextSequence;
      ok, allocates := events.Push(kind, id, payload);
      accepted := if ok then accepted + [Q.Event(kind, id, sequence, payload)] else accepted;
    }

    method AdmitSession(protocol: Protocol)
      modifies this
      ensures Model() == Step(old(Model()), Admit(protocol))
    {
      if stopping || |sessions| >= maxConnections {
        return;
      }
      if protocol.Udp? && (protocol.listener, protocol.endpoint) in peers {
        return;
      }
      var id := AllocateSessionId();
      if id == 0 {
        return;
      }
      if protocol.Udp? {
        peers := peers[(protocol.listener, protocol.endpoint) := id];
      }
      sessions := sessions[id := Session(protocol, false)];
    }

    method RemoveSession(id: nat)
      requires id in sessions
      modifies this`sessions, this`peers
      ensures Model() == Removed(old(Model()), id)
    {
      var protocol := sessions[id].protocol;
      if protocol.Udp? {
        peers := peers - {(protocol.listener, protocol.endpoint)};
      }
      sessions := sessions - {id};
    }

    method OpenSession(id: nat) returns (ok: bool, ghost allocates: bool)
      modifies this, events
      ensures ok <==> id in old(sessions) && !old(sessions)[id].isOpen && id in sessions && sessions[id].isOpen
      ensures ok ==> Live(Model())
      ensures Model() == Step(old(Model()), PublishOpen(id, allocates))
    {
      ok, allocates := false, true;
      if id !in sessions || sessions[id].isOpen {
        return;
      }
      ok, allocates := Notify(Q.OpenEvent, id, []);
      if !ok {
        RemoveSession(id);
        return;
      }
      sessions := sessions[id := sessions[id].(isOpen := true)];
    }

    method CloseSession(id: nat) returns (ghost allocates: bool)
      modifies this, events
      ensures sessions == old(sessions) - {id} && stopping == old(stopping)
      ensures Model() == Step(old(Model()), Close(id, allocates))
    {
      allocates := true;
      if id !in sessions {
        return;
      }
      var wasOpen := sessions[id].isOpen;
      RemoveSession(id);
      if wasOpen {
        var ok;
        ok, allocates := Notify(Q.CloseEvent, id, []);
      }
    }

    method PublishToHost(id: nat, payload: Bytes, http: bool) returns (ok: bool, ghost allocates: bool)
      modifies this, events
      ensures ok <==> id in old(sessions) && old(sessions)[id].isOpen && id in sessions
      ensures Model() == Step(old(Model()), PublishMessage(id, payload, http, allocates))
    {
      ok, allocates := false, true;
      if id !in sessions || !sessions[id].isOpen {
        return;
      }
      ok, allocates := Notify(if http then Q.HttpRequestEvent else Q.MessageEvent, id, payload);
      if !ok {
        ghost var refused := Model();
        ghost var again := CloseSession(id);
        assert Closed(refused, id, again) == Closed(refused, id, allocates);
      }
    }

    // The stop handler: no session is admitted any more and every session is
    // closed, one after another, until the registry is empty.
    method CloseAll() returns (ghost actions: seq<Action>)
      modifies this, events
      ensures sessions == map[] && stopping
      ensures Model() == Play(old(Model()), actions)
      ensures Stopping(actions)
    {
      stopping := true;
      actions := [BeginStop];
      PlayOne(old(Model()), [], BeginStop);
      while sessions != map[]
        invariant stopping && Stopping(actions)
        invariant Model() == Play(old(Model()), actions)
        decreases |sessions|
      {
        var id :| id in sessions;
        SmallerMap(sessions, id);
        ghost var allocates := CloseSession(id);
        PlayOne(old(Model()), actions, Close(id, allocates));
        actions := actions + [Close(id, allocates)];
      }
    }

    /** Stopping the host: the transport stops first, then the queue is finished. A
        host that then polls until it is told stopped has every Close, unless the
        queue has overflowed. */
    method StopHost() returns (ghost actions: seq<Action>)
      modifies this, events
      ensures sessions == map[] && stopping && events.Model().stopped
      ensures actions != [] && actions[|actions| - 1] == FinishStop && Stopping(actions[..|actions| - 1])
      ensures Model() == Play(old(Model()), actions)
    {
      ghost var closing := CloseAll();
      events.Finish();
      PlayOne(old(Model()), closing, FinishStop);
      actions := closing + [FinishStop];
      assert actions[..|actions| - 1] == closing;
    }
  }
}
