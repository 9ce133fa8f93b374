/** The runtime that all datagram endpoints share: the registry, the counter of
    peer ids, and the poll that takes a queued event before it pumps the library
    (src/Net/Transports/Gns/Runtime.cpp). One mutex covers every call; a pump runs
    the callbacks and the receives of all endpoints. */
module GnsRuntime {
  import opened Prelude
  import E = GnsEndpoint

  const ENDPOINT_BASE: nat := 0x4700_0000_0000_0000
  const LAST_ENDPOINT: nat := 0x00FF_FFFF_FFFF_FFFF
  const MAX_ENDPOINTS: nat := 64

  // An endpoint that has been destroyed leaves the registry; a poll that still
  // waits on it keeps the object, so the model keeps all of them.
  datatype Runtime = Runtime(nextPeer: nat, nextEndpoint: nat, endpoints: map<nat, E.Endpoint>, live: set<nat>)

  function Initial(): Runtime { Runtime(1, 1, map[], {}) }

  // An endpoint with the counter as it stands now.
  function At(r: Runtime, handle: nat): E.Endpoint
    requires handle in r.endpoints
  {
    r.endpoints[handle].(nextPeer := r.nextPeer)
  }

  function Act(r: Runtime, handle: nat, a: E.Action): Runtime
  {
    if handle !in r.live || handle !in r.endpoints || a.PeerTakenElsewhere? then r
    else
      var e := E.Step(At(r, handle), a);
      r.(nextPeer := e.nextPeer, endpoints := r.endpoints[handle := e])
  }

  // What a pump does: native callbacks and receives, on any endpoints.
  datatype Pumped = Pumped(handle: nat, action: E.Action)

  predicate FromLibrary(a: E.Action) { a.StatusChanged? || a.Received? || a.ReceiveFailed? }

  function Pump(r: Runtime, pump: seq<Pumped>): Runtime
  {
    if pump == [] then r
    else
      var before, last := Pump(r, pump[..|pump| - 1]), pump[|pump| - 1];
      if FromLibrary(last.action) then Act(before, last.handle, last.action) else before
  }

  function Poll(r: Runtime, handle: nat, capacity: nat, pump: seq<Pumped>): (Runtime, Option<E.Reply>)
  {
    if handle !in r.live || handle !in r.endpoints then (r, None)
    else if E.Answer(At(r, handle), capacity) != E.NoEvent then
      (Act(r, handle, E.Polls(capacity)), Some(E.Answer(At(r, handle), capacity)))
    else
      var q := Pump(r, pump);
      if handle !in q.endpoints then (q, None)
      else (Act(q, handle, E.Polls(capacity)), Some(E.Answer(At(q, handle), capacity)))
  }

  // made is false when the endpoint cannot be built or stored: its id is used up.
  function Create(r: Runtime, options: E.Options, made: bool): (Runtime, Option<nat>)
  {
    if |r.live| >= MAX_ENDPOINTS || r.nextEndpoint > LAST_ENDPOINT then (r, None)
    else if !made then (r.(nextEndpoint := r.nextEndpoint + 1), None)
    else
      var handle := ENDPOINT_BASE + r.nextEndpoint;
      (r.(nextEndpoint := r.nextEndpoint + 1, live := r.live + {handle},
          endpoints := r.endpoints[handle := E.Created(options, r.nextPeer)]), Some(handle))
  }

  function Destroy(r: Runtime, handle: nat): Runtime
  {
    if handle !in r.live || handle !in r.endpoints then r
    else Act(r, handle, E.ShutsDown).(live := r.live - {handle})
  }

  datatype Call =
    | Creates(options: E.Options, made: bool)
    | Acts(handle: nat, action: E.Action)
    | Polls(handle: nat, capacity: nat, pump: seq<Pumped>)
    | Destroys(handle: nat)

  function Step(r: Runtime, c: Call): Runtime
  {
    match c
    case Creates(options, made) => Create(r, options, made).0
    case Acts(handle, action) => Act(r, handle, action)
    case Polls(handle, capacity, pump) => Poll(r, handle, capacity, pump).0
    case Destroys(handle) => Destroy(r, handle)
  }

  function Play(calls: seq<Call>): Runtime
  {
    if calls == [] then Initial() else Step(Play(calls[..|calls| - 1]), calls[|calls| - 1])
  }

  lemma PlayOne(calls: seq<Call>, c: Call)
    ensures Play(calls + [c]) == Step(Play(calls), c)
  {
    assert (calls + [c])[..|calls|] == calls;
  }

  // ---------------------------------------------------- ids across endpoints

  // The endpoint has the peer, or has told its host about it.
  ghost predicate Seen(e: E.Endpoint, id: nat)
  {
    E.Registered(e, id) || E.Kinds(e.pushed, id) != []
  }

  lemma SeenIsIssued(e: E.Endpoint, id: nat)
    requires E.Inv(e) && Seen(e, id)
    ensures E.Issued(e, id)
  {
    assert E.Fits(e, id);
    if E.Registered(e, id) {
      var h :| h in e.peers && e.peers[h].id == id;
      assert E.EntryFits(e, h);
    } else {
      E.GrammarByPhase(E.Kinds(e.pushed, id));
    }
  }

  lemma PushSees(e: E.Endpoint, event: E.Event, allocates: bool, id: nat)
    requires Seen(E.Push(e, event, allocates), id)
    ensures Seen(e, id) || id == event.peer
  {
    var t := E.Push(e, event, allocates);
    if t.pushed != e.pushed {
      assert t.pushed[..|e.pushed|] == e.pushed;
    }
    assert t.peers == e.peers || t.peers == map[];
    if E.Registered(t, id) {
      var h :| h in t.peers && t.peers[h].id == id;
      assert h in e.peers;
    }
  }

  // A table with some of the peers of another one.
  lemma FewerSees(e: E.Endpoint, t: E.Endpoint, id: nat)
    requires t.pushed == e.pushed && Seen(t, id)
    requires forall h :: h in t.peers ==> h in e.peers && t.peers[h].id == e.peers[h].id
    ensures Seen(e, id)
  {
    if E.Registered(t, id) {
      var h :| h in t.peers && t.peers[h].id == id;
      assert h in e.peers && e.peers[h].id == id;
    }
  }

  lemma PeerSeen(e: E.Endpoint, h: nat)
    requires h in e.peers
    ensures Seen(e, e.peers[h].id)
  {
    assert E.Registered(e, e.peers[h].id);
  }

  lemma DropSees(e: E.Endpoint, handle: nat, allocates: bool, id: nat)
    requires Seen(E.Drop(e, handle, allocates), id)
    ensures Seen(e, id)
  {
    if handle in e.peers {
      PushSees(E.Forget(e, handle), E.Event(E.Disconnected, e.peers[handle].id, []), allocates, id);
      PeerSeen(e, handle);
      if id != e.peers[handle].id {
        FewerSees(e, E.Forget(e, handle), id);
      }
    }
  }

  lemma EnterSees(e: E.Endpoint, handle: nat, id: nat)
    requires handle !in e.peers && Seen(E.Enter(e, handle), id)
    ensures Seen(e, id) || id == E.PEER_BASE + e.nextPeer
  {
    var t := E.Enter(e, handle);
    if E.Registered(t, id) {
      var h :| h in t.peers && t.peers[h].id == id;
      assert h != handle ==> h in e.peers && e.peers[h].id == id;
    }
  }

  lemma OnStatusSees(e: E.Endpoint, handle: nat, c: E.Change, allocates: bool, id: nat)
    requires Seen(E.OnStatus(e, handle, c, allocates), id)
    ensures Seen(e, id) || id == E.PEER_BASE + e.nextPeer
  {
    if handle !in e.peers {
      if c.Connecting? {
        OnConnectingSees(e, handle, c, allocates, id);
      }
    } else {
      match c
      case Connecting(_, _, _) =>
      case Up(encrypted) =>
        if !encrypted {
          DropSees(e, handle, allocates, id);
        } else if !e.peers[handle].connected {
          var up := e.(peers := e.peers[handle := e.peers[handle].(connected := true)]);
          PushSees(up, E.Event(E.Connected, e.peers[handle].id, []), allocates, id);
          PeerSeen(e, handle);
          if id != e.peers[handle].id {
            FewerSees(e, up, id);
          }
        }
      case Down => DropSees(e, handle, allocates, id);
      case OtherChange =>
    }
  }

  lemma OnConnectingSees(e: E.Endpoint, handle: nat, c: E.Change, allocates: bool, id: nat)
    requires c.Connecting? && handle !in e.peers && Seen(E.OnConnecting(e, handle, c, allocates), id)
    ensures Seen(e, id) || id == E.PEER_BASE + e.nextPeer
  {
    var t := E.OnConnecting(e, handle, c, allocates);
    if t == E.Overflow(e) {
      FewerSees(e, t, id);
    } else if t != e {
      if !c.accepted {
        DropSees(E.Enter(e, handle), handle, allocates, id);
      }
      EnterSees(e, handle, id);
    }
  }

  lemma OnMessageSees(e: E.Endpoint, handle: nat, payload: Bytes, allocates: bool, id: nat)
    requires Seen(E.OnMessage(e, handle, payload, allocates), id)
    ensures Seen(e, id)
  {
    if !e.stopped && handle in e.peers {
      PeerSeen(e, handle);
      if |payload| > e.options.maxMessage || !e.peers[handle].connected {
        DropSees(e, handle, allocates, id);
      } else {
        PushSees(e, E.Event(E.Message, e.peers[handle].id, payload), allocates, id);
      }
    }
  }

  /** A step shows an endpoint no peer but those it knew and the one the counter
      gives next. */
  lemma StepSees(e: E.Endpoint, a: E.Action, id: nat)
    requires Seen(E.Step(e, a), id)
    ensures Seen(e, id) || id == E.PEER_BASE + e.nextPeer
  {
    match a
    case Connects(handle, parsed, native, allocates) =>
      if E.Connect(e, handle, parsed, native, allocates).status == E.Ok {
        EnterSees(e, handle, id);
      } else {
        FewerSees(e, E.Step(e, a), id);
      }
    case StatusChanged(handle, change, allocates) => OnStatusSees(e, handle, change, allocates, id);
    case Received(handle, payload, allocates) => OnMessageSees(e, handle, payload, allocates, id);
    case ReceiveFailed => FewerSees(e, E.Step(e, a), id);
    case Disconnects(handle, allocates) =>
      if !e.stopped {
        DropSees(e, handle, allocates, id);
      }
    case Polls(_) => FewerSees(e, E.Step(e, a), id);
    case ShutsDown => FewerSees(e, E.Step(e, a), id);
    case PeerTakenElsewhere => FewerSees(e, E.Step(e, a), id);
  }

  // ---------------------------------------------------------------- invariant

  ghost predicate Apart(r: Runtime)
  {
    forall h, k, id :: h in r.endpoints && k in r.endpoints && h != k && Seen(r.endpoints[h], id)
      ==> !Seen(r.endpoints[k], id)
  }

  ghost predicate Sound(r: Runtime)
  {
    forall h :: h in r.endpoints ==> E.Inv(At(r, h))
  }

  ghost predicate Registry(r: Runtime)
  {
    && r.live <= r.endpoints.Keys && |r.live| <= MAX_ENDPOINTS
    && (forall h :: h in r.endpoints ==> ENDPOINT_BASE <= h < ENDPOINT_BASE + r.nextEndpoint)
    && (forall h :: h in r.endpoints && h !in r.live ==> r.endpoints[h].stopped)
  }

  ghost predicate Inv(r: Runtime)
  {
    Apart(r) && Sound(r) && Registry(r)
  }

  lemma CounterMoves(e: E.Endpoint, nextPeer: nat)
    requires E.Inv(e) && e.nextPeer <= nextPeer
    ensures E.Inv(e.(nextPeer := nextPeer))
  {
    var t := e.(nextPeer := nextPeer);
    forall id
      ensures E.Fits(t, id)
    {
      assert E.Fits(e, id);
      assert E.Registered(e, id) ==> E.Registered(t, id);
    }
    forall h | h in t.peers
      ensures E.EntryFits(t, h)
    {
      assert E.EntryFits(e, h);
    }
  }

  lemma SeenIgnoresCounter(e: E.Endpoint, nextPeer: nat, id: nat)
    ensures Seen(e.(nextPeer := nextPeer), id) <==> Seen(e, id)
  {
    var t := e.(nextPeer := nextPeer);
    assert E.Registered(t, id) <==> E.Registered(e, id);
  }

  // Only the endpoint that took an id from the counter can see it.
  lemma NewIdIsApart(r: Runtime, h: nat, a: E.Action, id: nat, other: nat)
    requires Inv(r) && h in r.endpoints && other in r.endpoints && other != h
    requires Seen(E.Step(At(r, h), a), id)
    ensures !Seen(r.endpoints[other], id)
  {
    StepSees(At(r, h), a, id);
    SeenIgnoresCounter(r.endpoints[h], r.nextPeer, id);
    SeenIgnoresCounter(r.endpoints[other], r.nextPeer, id);
    if id == E.PEER_BASE + r.nextPeer && Seen(At(r, other), id) {
      SeenIsIssued(At(r, other), id);
    }
  }

  lemma ActKeepsApart(r: Runtime, h: nat, a: E.Action)
    requires Inv(r)
    ensures Apart(Act(r, h, a))
  {
    var t := Act(r, h, a);
    if t != r {
      forall g, k, id | g in t.endpoints && k in t.endpoints && g != k && Seen(t.endpoints[g], id)
        ensures !Seen(t.endpoints[k], id)
      {
        if g == h {
          NewIdIsApart(r, h, a, id, k);
        } else if k == h && Seen(t.endpoints[k], id) {
          NewIdIsApart(r, h, a, id, g);
        }
      }
    }
  }

  lemma ActKeepsSound(r: Runtime, h: nat, a: E.Action)
    requires Sound(r)
    ensures Sound(Act(r, h, a)) && Act(r, h, a).nextPeer >= r.nextPeer
    ensures h in r.endpoints && r.endpoints[h].stopped && h in Act(r, h, a).endpoints ==> Act(r, h, a).endpoints[h].stopped
  {
    var t := Act(r, h, a);
    if t != r {
      var e := At(r, h);
      E.StepKeeps(e, a);
      E.StepGrows(e, a);
      forall k | k in t.endpoints
        ensures E.Inv(At(t, k))
      {
        if k != h {
          CounterMoves(At(r, k), t.nextPeer);
        }
      }
    }
  }

  lemma ActKeeps(r: Runtime, h: nat, a: E.Action)
    requires Inv(r)
    ensures Inv(Act(r, h, a)) && Act(r, h, a).endpoints.Keys == r.endpoints.Keys && Act(r, h, a).live == r.live
  {
    ActKeepsApart(r, h, a);
    ActKeepsSound(r, h, a);
    var t := Act(r, h, a);
    assert t.endpoints.Keys == r.endpoints.Keys;
  }

  lemma {:induction false} PumpKeeps(r: Runtime, pump: seq<Pumped>)
    requires Inv(r)
    ensures Inv(Pump(r, pump)) && Pump(r, pump).endpoints.Keys == r.endpoints.Keys && Pump(r, pump).live == r.live
  {
    if pump != [] {
      PumpKeeps(r, pump[..|pump| - 1]);
      ActKeeps(Pump(r, pump[..|pump| - 1]), pump[|pump| - 1].handle, pump[|pump| - 1].action);
    }
  }

  lemma NewIsApart(r: Runtime, handle: nat, options: E.Options)
    requires Inv(r) && handle !in r.endpoints
    ensures
      var t := r.(endpoints := r.endpoints[handle := E.Created(options, r.nextPeer)]);
      Apart(t) && Sound(t)
  {
    var t := r.(endpoints := r.endpoints[handle := E.Created(options, r.nextPeer)]);
    E.FreshKeeps(options, r.nextPeer);
    forall k | k in t.endpoints
      ensures E.Inv(At(t, k))
    {
      assert k != handle ==> At(t, k) == At(r, k);
    }
    assert forall id :: !Seen(t.endpoints[handle], id);
  }

  lemma CreateKeeps(r: Runtime, options: E.Options, made: bool)
    requires Inv(r)
    ensures Inv(Create(r, options, made).0)
  {
    var (t, handle) := Create(r, options, made);
    forall h | h in t.endpoints && h in r.endpoints && handle.None?
      ensures E.Inv(At(t, h))
    {
      assert At(t, h) == At(r, h);
    }
    if handle.Some? {
      NewIsApart(r, handle.value, options);
      var added := r.(endpoints := r.endpoints[handle.value := E.Created(options, r.nextPeer)]);
      forall k | k in t.endpoints
        ensures E.Inv(At(t, k))
      {
        assert At(t, k) == At(added, k);
      }
    }
  }

  lemma ShutdownStops(r: Runtime, handle: nat)
    requires handle in r.live && handle in r.endpoints
    ensures handle in Act(r, handle, E.ShutsDown).endpoints && Act(r, handle, E.ShutsDown).endpoints[handle].stopped
  {
  }

  // A stopped endpoint leaves the registry.
  lemma LeavesRegistry(r: Runtime, handle: nat)
    requires Inv(r) && handle in r.live && handle in r.endpoints && r.endpoints[handle].stopped
    ensures Inv(r.(live := r.live - {handle}))
  {
    var t := r.(live := r.live - {handle});
    assert r.live == t.live + {handle};
    forall h | h in t.endpoints
      ensures E.Inv(At(t, h))
    {
      assert At(t, h) == At(r, h);
    }
  }

  lemma DestroyKeeps(r: Runtime, handle: nat)
    requires Inv(r)
    ensures Inv(Destroy(r, handle))
  {
    if handle in r.live && handle in r.endpoints {
      ActKeeps(r, handle, E.ShutsDown);
      ShutdownStops(r, handle);
      LeavesRegistry(Act(r, handle, E.ShutsDown), handle);
    }
  }

  // Where a poll takes its event: before or after the pump.
  function Source(r: Runtime, handle: nat, capacity: nat, pump: seq<Pumped>): Runtime
    requires handle in r.endpoints
  {
    if E.Answer(At(r, handle), capacity) != E.NoEvent then r else Pump(r, pump)
  }

  lemma PollTakes(r: Runtime, handle: nat, capacity: nat, pump: seq<Pumped>)
    requires Inv(r) && handle in r.live && handle in r.endpoints
    ensures Inv(Source(r, handle, capacity, pump)) && handle in Source(r, handle, capacity, pump).endpoints
    ensures Poll(r, handle, capacity, pump).0 == Act(Source(r, handle, capacity, pump), handle, E.Polls(capacity))
  {
    PumpKeeps(r, pump);
  }

  lemma PollKeeps(r: Runtime, handle: nat, capacity: nat, pump: seq<Pumped>)
    requires Inv(r)
    ensures Inv(Poll(r, handle, capacity, pump).0)
  {
    if handle in r.live && handle in r.endpoints {
      PollTakes(r, handle, capacity, pump);
      ActKeeps(Source(r, handle, capacity, pump), handle, E.Polls(capacity));
    }
  }

  lemma {:induction false} PlayKeeps(calls: seq<Call>)
    ensures Inv(Play(calls))
  {
    if calls != [] {
      var before := Play(calls[..|calls| - 1]);
      PlayKeeps(calls[..|calls| - 1]);
      match calls[|calls| - 1]
      case Creates(options, made) => CreateKeeps(before, options, made);
      case Acts(handle, action) => ActKeeps(before, handle, action);
      case Polls(handle, capacity, pump) => PollKeeps(before, handle, capacity, pump);
      case Destroys(handle) => DestroyKeeps(before, handle);
    }
  }

  // ------------------------------------------------------------- main results

  /** In every run of the runtime a public peer id belongs to one endpoint only,
      destroyed ones included: no two ever have the peer or tell their host of it.
      There are at most 64 endpoints, and a destroyed one stays stopped. */
  lemma PeerIdsAreGlobal(calls: seq<Call>, h: nat, k: nat, id: nat)
    requires h in Play(calls).endpoints && k in Play(calls).endpoints && h != k
    ensures !(Seen(Play(calls).endpoints[h], id) && Seen(Play(calls).endpoints[k], id))
    ensures |Play(calls).live| <= MAX_ENDPOINTS
    ensures h !in Play(calls).live ==> Play(calls).endpoints[h].stopped
  {
    PlayKeeps(calls);
  }

  /** A poll that answers that the buffer is too small changes nothing, and the
      next call, a retry with the reported size, gets the same event, whatever the
      library has received meanwhile. */
  lemma RetryGetsTheEvent(r: Runtime, handle: nat, capacity: nat, pump: seq<Pumped>, event: E.Event, later: seq<Pumped>)
    requires Poll(r, handle, capacity, pump).1 == Some(E.TooSmall(event))
    ensures
      var after := Poll(r, handle, capacity, pump).0;
      Poll(after, handle, |event.payload|, later).1 == Some(E.Got(event))
  {
    var q := if E.Answer(At(r, handle), capacity) != E.NoEvent then r else Pump(r, pump);
    if E.Answer(At(r, handle), capacity) == E.NoEvent {
      PumpKeepsLive(r, pump);
    }
    var after := Act(q, handle, E.Polls(capacity));
    assert E.Step(At(q, handle), E.Polls(capacity)) == At(q, handle);
    assert At(after, handle) == At(q, handle);
  }

  lemma {:induction false} PumpKeepsLive(r: Runtime, pump: seq<Pumped>)
    ensures Pump(r, pump).live == r.live
  {
    if pump != [] {
      PumpKeepsLive(r, pump[..|pump| - 1]);
    }
  }

  // No step in the list polls the endpoint.
  ghost predicate Unpolled(actions: seq<E.Action>)
  {
    forall i :: 0 <= i < |actions| ==> !actions[i].Polls?
  }

  // What is queued stays in front unless the endpoint stops, and overflow stops it.
  ghost predicate Retained(e: E.Endpoint, t: E.Endpoint)
  {
    && (t.stopped || e.events <= t.events)
    && (e.stopped ==> t.stopped)
    && ((e.overflow ==> e.stopped) ==> (t.overflow ==> t.stopped))
  }

  lemma UnpolledStep(e: E.Endpoint, a: E.Action)
    requires !a.Polls?
    ensures Retained(e, E.Step(e, a))
  {
    match a
    case Connects(_, _, _, _) =>
    case StatusChanged(handle, change, allocates) => StatusKeepsFront(e, handle, change, allocates);
    case Received(handle, payload, allocates) =>
      if !e.stopped && handle in e.peers {
        DropKeepsFront(e, handle, allocates);
        PushKeepsFront(e, E.Event(E.Message, e.peers[handle].id, payload), allocates);
      }
    case ReceiveFailed =>
    case Disconnects(handle, allocates) => DropKeepsFront(e, handle, allocates);
    case Polls(_) =>
    case ShutsDown =>
    case PeerTakenElsewhere =>
  }

  lemma PushKeepsFront(e: E.Endpoint, event: E.Event, allocates: bool)
    ensures Retained(e, E.Push(e, event, allocates))
  {
  }

  lemma DropKeepsFront(e: E.Endpoint, handle: nat, allocates: bool)
    ensures Retained(e, E.Drop(e, handle, allocates))
  {
    if handle in e.peers {
      PushKeepsFront(E.Forget(e, handle), E.Event(E.Disconnected, e.peers[handle].id, []), allocates);
    }
  }

  lemma StatusKeepsFront(e: E.Endpoint, handle: nat, c: E.Change, allocates: bool)
    ensures Retained(e, E.OnStatus(e, handle, c, allocates))
  {
    DropKeepsFront(e, handle, allocates);
    if handle !in e.peers {
      if c.Connecting? {
        DropKeepsFront(E.Enter(e, handle), handle, allocates);
      }
    } else {
      var peer := e.peers[handle];
      PushKeepsFront(e.(peers := e.peers[handle := peer.(connected := true)]), E.Event(E.Connected, peer.id, []), allocates);
    }
  }

  // The event that a step on a running endpoint wants to push.
  function Wanted(e: E.Endpoint, a: E.Action): Option<E.Event>
  {
    match a
    case StatusChanged(handle, change, _) =>
      if handle !in e.peers then
        if Admits(e, change) && E.NextPeerId(e).Some? && !change.accepted
        then Some(E.Event(E.Disconnected, E.NextPeerId(e).value, [])) else None
      else
        (match change
         case Connecting(_, _, _) => None
         case Up(encrypted) =>
           if !encrypted then Some(E.Event(E.Disconnected, e.peers[handle].id, []))
           else if e.peers[handle].connected then None
           else Some(E.Event(E.Connected, e.peers[handle].id, []))
         case Down => Some(E.Event(E.Disconnected, e.peers[handle].id, []))
         case OtherChange => None)
    case Received(handle, payload, _) =>
      if handle !in e.peers then None
      else if |payload| > e.options.maxMessage || !e.peers[handle].connected
      then Some(E.Event(E.Disconnected, e.peers[handle].id, []))
      else Some(E.Event(E.Message, e.peers[handle].id, payload))
    case Disconnects(handle, _) =>
      if handle in e.peers then Some(E.Event(E.Disconnected, e.peers[handle].id, [])) else None
    case _ => None
  }

  // An incoming connection that is let in.
  predicate Admits(e: E.Endpoint, c: E.Change)
  {
    c.Connecting? && |e.peers| < e.options.maxPeers && c.admissible && c.configured
  }

  // Whether storing the event of a step succeeds.
  predicate Allocates(a: E.Action)
  {
    match a
    case StatusChanged(_, _, allocates) => allocates
    case Received(_, _, allocates) => allocates
    case Disconnects(_, allocates) => allocates
    case _ => true
  }

  predicate HasRoom(e: E.Endpoint, event: E.Event)
  {
    |e.events| < e.options.maxCount && E.Cost(e.options, event) <= e.options.maxBytes - e.eventBytes
  }

  // The guards of the branches that stop a running endpoint: an event finds no room
  // or no memory, a connection that is let in finds no id or no memory for its table
  // entry, a receive fails, or it is shut down.
  predicate Ends(e: E.Endpoint, a: E.Action)
  {
    || a.ReceiveFailed? || a.ShutsDown?
    || (a.StatusChanged? && a.handle !in e.peers && Admits(e, a.change)
        && (E.NextPeerId(e).None? || !a.allocates))
    || (Wanted(e, a).Some? && !(HasRoom(e, Wanted(e, a).value) && Allocates(a)))
  }

  /** A step stops a running endpoint exactly when one of those guards holds. */
  lemma EndsStop(e: E.Endpoint, a: E.Action)
    requires !e.stopped
    ensures E.Step(e, a).stopped <==> Ends(e, a)
  {
    match a
    case Connects(_, _, _, _) =>
    case StatusChanged(handle, change, allocates) => StatusStops(e, handle, change, allocates);
    case Received(_, _, _) =>
    case ReceiveFailed =>
    case Disconnects(_, _) =>
    case Polls(_) =>
    case ShutsDown =>
    case PeerTakenElsewhere =>
  }

  lemma StatusStops(e: E.Endpoint, handle: nat, c: E.Change, allocates: bool)
    requires !e.stopped
    ensures E.OnStatus(e, handle, c, allocates).stopped <==> Ends(e, E.StatusChanged(handle, c, allocates))
  {
    if handle !in e.peers {
      if c.Connecting? {
        assert E.Enter(e, handle).events == e.events && handle in E.Enter(e, handle).peers;
      }
    } else {
      match c
      case Connecting(_, _, _) =>
      case Up(_) =>
      case Down =>
      case OtherChange =>
    }
  }

  // No step of the run meets such a guard.
  ghost predicate NothingEnds(e: E.Endpoint, actions: seq<E.Action>)
  {
    forall i :: 0 <= i < |actions| ==> !Ends(E.Play(e, actions[..i]), actions[i])
  }

  lemma NothingEndsMore(e: E.Endpoint, actions: seq<E.Action>)
    requires actions != []
    ensures
      var n := |actions| - 1;
      NothingEnds(e, actions) <==> NothingEnds(e, actions[..n]) && !Ends(E.Play(e, actions[..n]), actions[n])
  {
    var n := |actions| - 1;
    forall i | 0 <= i < n
      ensures Ends(E.Play(e, actions[..i]), actions[i]) == Ends(E.Play(e, actions[..n][..i]), actions[..n][i])
    {
      assert actions[..n][..i] == actions[..i];
    }
  }

  // An endpoint keeps its front event over steps that do not poll it if and only if
  // no step meets a guard that ends it.
  lemma {:induction false} EndpointRetains(e: E.Endpoint, actions: seq<E.Action>)
    requires Unpolled(actions) && !e.stopped && !e.overflow && e.events != []
    ensures
      var t := E.Play(e, actions);
      && (E.Answer(t, |e.events[0].payload|) == E.Got(e.events[0]) <==> NothingEnds(e, actions))
      && (t.stopped <==> !NothingEnds(e, actions))
      && (!t.stopped ==> e.events <= t.events && !t.overflow)
  {
    if actions != [] {
      var front, last := actions[..|actions| - 1], actions[|actions| - 1];
      EndpointRetains(e, front);
      UnpolledStep(E.Play(e, front), last);
      NothingEndsMore(e, actions);
      if !E.Play(e, front).stopped {
        EndsStop(E.Play(e, front), last);
      }
    }
  }

  // ------------------------------------------- what an endpoint sees of a run

  // What endpoint h sees of a step at endpoint k: the step itself when k is h, and
  // otherwise that an id is taken from the counter, when one is.
  function Echo(r: Runtime, h: nat, k: nat, a: E.Action): seq<E.Action>
  {
    if k !in r.live || k !in r.endpoints || a.PeerTakenElsewhere? then []
    else if k == h then [a]
    else if E.Step(At(r, k), a).nextPeer != r.nextPeer then [E.PeerTakenElsewhere]
    else []
  }

  function PumpEcho(r: Runtime, h: nat, pump: seq<Pumped>): seq<E.Action>
  {
    if pump == [] then []
    else
      var front, last := pump[..|pump| - 1], pump[|pump| - 1];
      PumpEcho(r, h, front) + if FromLibrary(last.action) then Echo(Pump(r, front), h, last.handle, last.action) else []
  }

  function CallEcho(r: Runtime, h: nat, c: Call): seq<E.Action>
  {
    match c
    case Creates(_, _) => []
    case Acts(k, action) => Echo(r, h, k, action)
    case Polls(k, capacity, pump) =>
      if k !in r.live || k !in r.endpoints then []
      else if E.Answer(At(r, k), capacity) != E.NoEvent then Echo(r, h, k, E.Polls(capacity))
      else PumpEcho(r, h, pump) + Echo(Pump(r, pump), h, k, E.Polls(capacity))
    case Destroys(k) => Echo(r, h, k, E.ShutsDown)
  }

  // What endpoint h sees of the calls more, made after calls.
  function Sees(calls: seq<Call>, more: seq<Call>, h: nat): seq<E.Action>
  {
    if more == [] then []
    else
      var front := more[..|more| - 1];
      Sees(calls, front, h) + CallEcho(Play(calls + front), h, more[|more| - 1])
  }

  lemma StatusAdvances(e: E.Endpoint, handle: nat, c: E.Change, allocates: bool)
    ensures
      var t := E.OnStatus(e, handle, c, allocates);
      t.nextPeer == e.nextPeer || (t.nextPeer == e.nextPeer + 1 && e.nextPeer <= E.LAST_PEER)
  {
    if handle !in e.peers && c.Connecting? {
      assert E.Enter(e, handle).nextPeer == e.nextPeer + 1;
    }
  }

  lemma CounterAdvances(e: E.Endpoint, a: E.Action)
    ensures
      var t := E.Step(e, a);
      t.nextPeer == e.nextPeer || (t.nextPeer == e.nextPeer + 1 && e.nextPeer <= E.LAST_PEER)
  {
    match a
    case Connects(_, _, _, _) =>
    case StatusChanged(handle, change, allocates) => StatusAdvances(e, handle, change, allocates);
    case Received(_, _, _) =>
    case ReceiveFailed =>
    case Disconnects(_, _) =>
    case Polls(_) =>
    case ShutsDown =>
    case PeerTakenElsewhere =>
  }

  lemma EchoOne(e: E.Endpoint, a: E.Action)
    ensures E.Play(e, [a]) == E.Step(e, a) && E.Play(e, []) == e
  {
    assert [a][..0] == [];
  }

  lemma ActEchoes(r: Runtime, h: nat, k: nat, a: E.Action)
    requires h in r.endpoints
    ensures h in Act(r, k, a).endpoints && At(Act(r, k, a), h) == E.Play(At(r, h), Echo(r, h, k, a))
  {
    EchoOne(At(r, h), a);
    EchoOne(At(r, h), E.PeerTakenElsewhere);
    if k in r.live && k in r.endpoints {
      CounterAdvances(At(r, k), a);
    }
  }

  lemma {:induction false} PumpEchoes(r: Runtime, h: nat, pump: seq<Pumped>)
    requires h in r.endpoints
    ensures h in Pump(r, pump).endpoints && At(Pump(r, pump), h) == E.Play(At(r, h), PumpEcho(r, h, pump))
  {
    if pump != [] {
      var front, last := pump[..|pump| - 1], pump[|pump| - 1];
      PumpEchoes(r, h, front);
      ActEchoes(Pump(r, front), h, last.handle, last.action);
      E.PlayAppend(At(r, h), PumpEcho(r, h, front), Echo(Pump(r, front), h, last.handle, last.action));
      assert PumpEcho(r, h, front) + [] == PumpEcho(r, h, front);
    }
  }

  lemma CallEchoes(r: Runtime, h: nat, c: Call)
    requires Inv(r) && h in r.endpoints
    ensures h in Step(r, c).endpoints && At(Step(r, c), h) == E.Play(At(r, h), CallEcho(r, h, c))
  {
    match c
    case Creates(_, _) =>
    case Acts(k, action) => ActEchoes(r, h, k, action);
    case Polls(k, capacity, pump) =>
      if k in r.live && k in r.endpoints {
        PollEchoes(r, h, k, capacity, pump);
      }
    case Destroys(k) => ActEchoes(r, h, k, E.ShutsDown);
  }

  lemma PollEchoes(r: Runtime, h: nat, k: nat, capacity: nat, pump: seq<Pumped>)
    requires Inv(r) && h in r.endpoints && k in r.live && k in r.endpoints
    ensures
      var t := Poll(r, k, capacity, pump).0;
      h in t.endpoints && At(t, h) == E.Play(At(r, h), CallEcho(r, h, Polls(k, capacity, pump)))
  {
    PollTakes(r, k, capacity, pump);
    PumpEchoes(r, h, pump);
    ActEchoes(Source(r, k, capacity, pump), h, k, E.Polls(capacity));
    E.PlayAppend(At(r, h), PumpEcho(r, h, pump), Echo(Pump(r, pump), h, k, E.Polls(capacity)));
  }

  /** A run of the runtime is a run of each of its endpoints: what the calls do to
      endpoint h is what the endpoint's own machine does on the steps it sees, where
      the ids that other endpoints take are steps too. So what holds of every run of
      an endpoint holds of every endpoint in every run of the runtime. */
  lemma {:induction false} RunProjects(calls: seq<Call>, more: seq<Call>, h: nat)
    requires h in Play(calls).endpoints
    ensures h in Play(calls + more).endpoints
    ensures At(Play(calls + more), h) == E.Play(At(Play(calls), h), Sees(calls, more, h))
  {
    if more == [] {
      assert calls + more == calls;
    } else {
      var front, last := more[..|more| - 1], more[|more| - 1];
      RunProjects(calls, front, h);
      assert calls + more == calls + front + [last];
      PlayOne(calls + front, last);
      PlayKeeps(calls + front);
      CallEchoes(Play(calls + front), h, last);
      E.PlayAppend(At(Play(calls), h), Sees(calls, front, h), CallEcho(Play(calls + front), h, last));
    }
  }

  /** What the registry answers: an endpoint is created, empty and under a handle never
      used before, exactly when fewer than 64 live, handles are left and it can be
      built; a destroyed one is stopped and can no longer be reached. */
  lemma RegistryAnswers(calls: seq<Call>, options: E.Options, made: bool, h: nat)
    ensures
      var r := Play(calls);
      var (t, handle) := Create(r, options, made);
      && (handle.Some? <==> |r.live| < MAX_ENDPOINTS && r.nextEndpoint <= LAST_ENDPOINT && made)
      && (handle.Some? ==>
            && handle.value !in r.endpoints && t.live == r.live + {handle.value}
            && t.endpoints == r.endpoints[handle.value := E.Created(options, r.nextPeer)])
      && (handle.None? ==> t.live == r.live && t.endpoints == r.endpoints)
    ensures h in Play(calls).live ==>
              var r, t := Play(calls), Destroy(Play(calls), h);
              && t.live == r.live - {h} && h in t.endpoints && t.endpoints[h].stopped
              && forall capacity, pump :: Poll(t, h, capacity, pump) == (t, None)
  {
    PlayKeeps(calls);
    if h in Play(calls).live {
      ShutdownStops(Play(calls), h);
    }
  }

  /** In every run of the runtime the events each endpoint has pushed, and those its
      host has polled, keep the grammar, and its limits hold. */
  lemma GrammarEverywhere(calls: seq<Call>, h: nat, id: nat)
    requires h in Play(calls).endpoints
    ensures
      var e := Play(calls).endpoints[h];
      && e.taken <= e.pushed && E.Grammatical(E.Kinds(e.pushed, id)) && E.Grammatical(E.Kinds(e.taken, id))
      && |e.peers| <= e.options.maxPeers && |e.events| <= e.options.maxCount && e.eventBytes <= e.options.maxBytes
  {
    PlayKeeps(calls);
    E.HistoryIsGrammatical(At(Play(calls), h), id);
  }

  // No call polls the endpoint.
  ghost predicate Untouched(more: seq<Call>, h: nat)
  {
    forall i :: 0 <= i < |more| ==> !PollsIt(more[i], h)
  }

  predicate PollsIt(c: Call, h: nat)
  {
    (c.Polls? && c.handle == h) || (c.Acts? && c.handle == h && c.action.Polls?)
  }

  lemma {:induction false} PumpIsUnpolled(r: Runtime, h: nat, pump: seq<Pumped>)
    ensures Unpolled(PumpEcho(r, h, pump))
  {
    if pump != [] {
      PumpIsUnpolled(r, h, pump[..|pump| - 1]);
    }
  }

  lemma CallIsUnpolled(r: Runtime, h: nat, c: Call)
    requires !PollsIt(c, h)
    ensures Unpolled(CallEcho(r, h, c))
  {
    if c.Polls? {
      PumpIsUnpolled(r, h, c.pump);
    }
  }

  lemma {:induction false} SeenUnpolled(calls: seq<Call>, more: seq<Call>, h: nat)
    requires Untouched(more, h)
    ensures Unpolled(Sees(calls, more, h))
  {
    if more != [] {
      var front, last := more[..|more| - 1], more[|more| - 1];
      SeenUnpolled(calls, front, h);
      assert !PollsIt(last, h);
      CallIsUnpolled(Play(calls + front), h, last);
    }
  }

  /** A retry that does not come next. In any run of the runtime, after any further
      calls that do not poll the endpoint, polls of other endpoints with all they
      pump included, a retry still gets the retained event if and only if in none of
      the steps the endpoint saw meanwhile an event found no room or no memory, a
      connection that was let in found no id or no memory, a receive failed, or the
      endpoint was shut down. */
  lemma RetainedUnlessStopped(calls: seq<Call>, more: seq<Call>, h: nat, later: seq<Pumped>)
    requires h in Play(calls).live && h in Play(calls).endpoints && Untouched(more, h)
    requires !At(Play(calls), h).stopped && At(Play(calls), h).events != []
    ensures
      var e := At(Play(calls), h);
      var (_, reply) := Poll(Play(calls + more), h, |e.events[0].payload|, later);
      reply == Some(E.Got(e.events[0])) <==> NothingEnds(e, Sees(calls, more, h))
  {
    PlayKeeps(calls);
    PlayKeeps(calls + more);
    RunProjects(calls, more, h);
    SeenUnpolled(calls, more, h);
    assert E.Inv(At(Play(calls), h));
    EndpointRetains(At(Play(calls), h), Sees(calls, more, h));
  }

  // The smallest limits the options may have, for any size of an event.
  function Tight(size: nat): E.Options { E.Options(1, 64, 1, size + 64, size) }

  const FIRST: nat := ENDPOINT_BASE + 1
  const SECOND: nat := ENDPOINT_BASE + 2
  const PEER: nat := E.PEER_BASE + 1
  const HELLO := E.Event(E.Connected, PEER, [])
  const NEWS := E.Event(E.Message, PEER, [0])

  function Comes(): seq<Pumped> { [Pumped(FIRST, E.StatusChanged(7, E.Up(true), true))] }

  function Burst(): seq<Pumped> { [Pumped(FIRST, E.Received(7, [0], true))] }

  // Two endpoints of those limits; the first connects, polls its Connected event,
  // and polls again with an empty buffer when a message of one byte has come.
  function Waiting(size: nat): seq<Call>
  {
    [Creates(Tight(size), true)] + [Creates(Tight(size), true)] + [Acts(FIRST, E.Connects(7, true, true, true))]
    + [Polls(FIRST, 0, Comes())] + [Polls(FIRST, 0, Burst())]
  }

  // The first endpoint, connecting, with a peer that is up, and with the message.
  function Joining(size: nat): E.Endpoint
  {
    E.Created(Tight(size), 2).(peers := map[7 := E.Peer(PEER, false)])
  }

  function Joined(size: nat): E.Endpoint
  {
    E.Created(Tight(size), 2).(peers := map[7 := E.Peer(PEER, true)], pushed := [HELLO], taken := [HELLO])
  }

  function Crowded(size: nat): E.Endpoint
  {
    Joined(size).(events := [NEWS], eventBytes := size + 1, pushed := [HELLO, NEWS])
  }

  function Pair(size: nat, nextPeer: nat, first: E.Endpoint): Runtime
  {
    Runtime(nextPeer, 3, map[FIRST := first, SECOND := E.Created(Tight(size), 1)], {FIRST, SECOND})
  }

  lemma TwoCreated(size: nat)
    ensures Play([Creates(Tight(size), true)] + [Creates(Tight(size), true)])
         == Pair(size, 1, E.Created(Tight(size), 1))
  {
    PlayOne([], Creates(Tight(size), true));
    assert [] + [Creates(Tight(size), true)] == [Creates(Tight(size), true)];
    PlayOne([Creates(Tight(size), true)], Creates(Tight(size), true));
    var r := Play([Creates(Tight(size), true)]);
    assert r.live == {FIRST} && |r.live| == 1;
  }

  lemma ActOnFirst(size: nat, first: E.Endpoint, a: E.Action)
    requires !a.PeerTakenElsewhere?
    ensures
      var t := E.Step(first, a);
      Act(Pair(size, first.nextPeer, first), FIRST, a) == Pair(size, t.nextPeer, t)
  {
    var r := Pair(size, first.nextPeer, first);
    assert At(r, FIRST) == first;
    assert r.endpoints[FIRST := E.Step(first, a)] == Pair(size, first.nextPeer, E.Step(first, a)).endpoints;
  }

  lemma FirstIsUp(size: nat)
    ensures Poll(Pair(size, 2, Joining(size)), FIRST, 0, Comes()) == (Pair(size, 2, Joined(size)), Some(E.Got(HELLO)))
  {
    var r := Pair(size, 2, Joining(size));
    var up := Joined(size).(events := [HELLO], eventBytes := size, taken := []);
    PumpOne(r, Comes()[0]);
    ActOnFirst(size, Joining(size), Comes()[0].action);
    assert E.OnStatus(Joining(size), 7, E.Up(true), true) == up;
    ActOnFirst(size, up, E.Polls(0));
    assert [HELLO][1..] == [];
    assert E.Take(up, 0) == Joined(size);
    assert At(r, FIRST) == Joining(size) && At(Pair(size, 2, up), FIRST) == up;
  }

  lemma FirstReceives(size: nat)
    ensures Poll(Pair(size, 2, Joined(size)), FIRST, 0, Burst()) == (Pair(size, 2, Crowded(size)), Some(E.TooSmall(NEWS)))
  {
    var r := Pair(size, 2, Joined(size));
    PumpOne(r, Burst()[0]);
    ActOnFirst(size, Joined(size), Burst()[0].action);
    assert E.OnMessage(Joined(size), 7, [0], true) == Crowded(size);
    ActOnFirst(size, Crowded(size), E.Polls(0));
    assert At(r, FIRST) == Joined(size) && At(Pair(size, 2, Crowded(size)), FIRST) == Crowded(size);
  }

  lemma WaitingIsReached(size: nat)
    ensures Play(Waiting(size)) == Pair(size, 2, Crowded(size))
  {
    var created := [Creates(Tight(size), true)] + [Creates(Tight(size), true)];
    var connected := created + [Acts(FIRST, E.Connects(7, true, true, true))];
    TwoCreated(size);
    PlayOne(created, Acts(FIRST, E.Connects(7, true, true, true)));
    ActOnFirst(size, E.Created(Tight(size), 1), E.Connects(7, true, true, true));
    assert E.Step(E.Created(Tight(size), 1), E.Connects(7, true, true, true)) == Joining(size);
    PlayOne(connected, Polls(FIRST, 0, Comes()));
    FirstIsUp(size);
    PlayOne(connected + [Polls(FIRST, 0, Comes())], Polls(FIRST, 0, Burst()));
    FirstReceives(size);
  }

  /** So the retry is not safe from a poll of another endpoint: that poll pumps all
      of them. A run from the start, under limits the options may have: after the
      too small buffer a retry that comes next gets the message whatever arrives,
      but when the second endpoint is polled in between, one more message for the
      first one overflows it, and the retry gets the overflow. */
  lemma AnotherPollCanOverflow(size: nat)
    ensures
      var r := Play(Waiting(size));
      && Poll(r, FIRST, 0, []).1 == Some(E.TooSmall(NEWS))
      && Poll(r, FIRST, 1, Burst()).1 == Some(E.Got(NEWS))
      && Poll(Play(Waiting(size) + [Polls(SECOND, 0, Burst())]), FIRST, 1, []).1 == Some(E.OverflowEvent)
  {
    WaitingIsReached(size);
    FirstReceives(size);
    RetryGetsTheEvent(Pair(size, 2, Joined(size)), FIRST, 0, Burst(), NEWS, Burst());
    PlayOne(Waiting(size), Polls(SECOND, 0, Burst()));
    SecondPumps(size);
  }

  lemma SecondPumps(size: nat)
    ensures
      var t := Poll(Pair(size, 2, Crowded(size)), SECOND, 0, Burst()).0;
      FIRST in t.endpoints && FIRST in t.live && t.endpoints[FIRST] == E.Overflow(Crowded(size))
  {
    var r := Pair(size, 2, Crowded(size));
    PumpOne(r, Burst()[0]);
    ActOnFirst(size, Crowded(size), Burst()[0].action);
    assert E.OnMessage(Crowded(size), 7, [0], true) == E.Overflow(Crowded(size));
  }

  lemma PumpOne(r: Runtime, p: Pumped)
    ensures Pump(r, [p]) == if FromLibrary(p.action) then Act(r, p.handle, p.action) else r
  {
    assert [p][..0] == [];
    assert Pump(r, [p][..0]) == r;
  }

  // ------------------------------------------------------- the imperative form

  // A status change as the library reports it: of a connection, and perhaps of one
  // that came in at the listener of an endpoint.
  datatype Callback = Callback(connection: nat, listener: Option<nat>, change: E.Change, allocates: bool)

  // The endpoint answers for the connection of a callback.
  predicate Owns(e: E.Endpoint, h: nat, c: Callback)
  {
    !e.stopped && (c.connection in e.peers || c.listener == Some(h))
  }

  function OnChange(c: Callback): E.Action { E.StatusChanged(c.connection, c.change, c.allocates) }

  // What a pump did: the owner found for each callback, the order in which the
  // endpoints received, and how much of what was there each of them handled.
  datatype Round = Round(owners: seq<Option<nat>>, order: seq<nat>, handled: map<nat, nat>)

  // What the library has for an endpoint.
  function Due(arrivals: map<nat, seq<E.Arrival>>, h: nat): seq<E.Arrival>
  {
    if h in arrivals then arrivals[h] else []
  }

  function Handled(arrivals: map<nat, seq<E.Arrival>>, handled: map<nat, nat>, h: nat): seq<E.Arrival>
  {
    if h in handled && handled[h] <= |Due(arrivals, h)| then Due(arrivals, h)[..handled[h]] else []
  }

  function Dispatched(callbacks: seq<Callback>, owners: seq<Option<nat>>): seq<Pumped>
    requires |owners| == |callbacks|
  {
    if callbacks == [] then []
    else
      var n := |callbacks| - 1;
      Dispatched(callbacks[..n], owners[..n])
      + if owners[n].Some? then [Pumped(owners[n].value, OnChange(callbacks[n]))] else []
  }

  function Receives(h: nat, arrivals: seq<E.Arrival>): seq<Pumped>
  {
    seq(|arrivals|, i requires 0 <= i < |arrivals| => Pumped(h, E.ActionOf(arrivals[i])))
  }

  function AllReceived(order: seq<nat>, arrivals: map<nat, seq<E.Arrival>>, handled: map<nat, nat>): seq<Pumped>
  {
    if order == [] then []
    else
      var n := |order| - 1;
      AllReceived(order[..n], arrivals, handled) + Receives(order[n], Handled(arrivals, handled, order[n]))
  }

  // All callbacks first, then the receives of every endpoint.
  function PumpOf(callbacks: seq<Callback>, arrivals: map<nat, seq<E.Arrival>>, round: Round): seq<Pumped>
    requires |round.owners| == |callbacks|
  {
    Dispatched(callbacks, round.owners) + AllReceived(round.order, arrivals, round.handled)
  }

  // The owner is an endpoint that owns the connection when its turn comes, and none
  // only when no endpoint does.
  ghost predicate RightOwner(r: Runtime, c: Callback, owner: Option<nat>)
  {
    match owner
    case Some(h) => h in r.live && h in r.endpoints && Owns(At(r, h), h, c)
    case None => forall h :: h in r.live && h in r.endpoints ==> !Owns(At(r, h), h, c)
  }

  ghost predicate RightOwners(r: Runtime, callbacks: seq<Callback>, owners: seq<Option<nat>>)
  {
    && |owners| == |callbacks|
    && forall i :: 0 <= i < |callbacks| ==>
         RightOwner(Pump(r, Dispatched(callbacks[..i], owners[..i])), callbacks[i], owners[i])
  }

  // Each endpoint has its turn once.
  ghost predicate EachOnce(order: seq<nat>, live: set<nat>)
  {
    && (forall h :: h in live <==> h in order)
    && (forall i, j :: 0 <= i < j < |order| ==> order[i] != order[j])
  }

  ghost predicate RightRound(r: Runtime, callbacks: seq<Callback>, round: Round)
  {
    && RightOwners(r, callbacks, round.owners)
    && EachOnce(round.order, r.live) && round.handled.Keys == r.live
  }

  lemma PumpSnoc(r: Runtime, pump: seq<Pumped>, p: Pumped)
    ensures Pump(r, pump + [p])
         == if FromLibrary(p.action) then Act(Pump(r, pump), p.handle, p.action) else Pump(r, pump)
  {
    assert (pump + [p])[..|pump|] == pump;
  }

  lemma {:induction false} PumpAppend(r: Runtime, pump: seq<Pumped>, more: seq<Pumped>)
    ensures Pump(r, pump + more) == Pump(Pump(r, pump), more)
  {
    if more == [] {
      assert pump + more == pump;
    } else {
      assert pump + more == (pump + more[..|more| - 1]) + [more[|more| - 1]];
      PumpSnoc(r, pump + more[..|more| - 1], more[|more| - 1]);
      PumpAppend(r, pump, more[..|more| - 1]);
    }
  }

  // One endpoint has come to the given state, and nothing else has changed.
  ghost predicate OnlyAt(r: Runtime, t: Runtime, h: nat, e: E.Endpoint)
  {
    && t == r.(endpoints := t.endpoints) && t.endpoints.Keys == r.endpoints.Keys && h in r.endpoints && At(t, h) == e
    && forall k :: k in r.endpoints && k != h ==> t.endpoints[k] == r.endpoints[k]
  }

  lemma ReceiveAtOne(r: Runtime, t: Runtime, h: nat, e: E.Endpoint, a: E.Arrival)
    requires h in r.live && OnlyAt(r, t, h, e)
    ensures OnlyAt(r, Act(t, h, E.ActionOf(a)), h, E.Step(e, E.ActionOf(a)))
  {
    ActAt(t, h, E.ActionOf(a));
    ReceiveKeepsCounter(e, a);
  }

  // The receives of one endpoint are steps of that endpoint alone.
  lemma {:induction false} ReceivesAtOne(r: Runtime, h: nat, arrivals: seq<E.Arrival>)
    requires h in r.live && h in r.endpoints
    ensures OnlyAt(r, Pump(r, Receives(h, arrivals)), h, E.Play(At(r, h), E.Handling(arrivals)))
  {
    if arrivals != [] {
      var n := |arrivals| - 1;
      ReceivesAtOne(r, h, arrivals[..n]);
      assert Receives(h, arrivals) == Receives(h, arrivals[..n]) + [Pumped(h, E.ActionOf(arrivals[n]))];
      PumpSnoc(r, Receives(h, arrivals[..n]), Pumped(h, E.ActionOf(arrivals[n])));
      E.HandlingOneMore(At(r, h), arrivals, n);
      assert arrivals[..n + 1] == arrivals;
      var before := Pump(r, Receives(h, arrivals[..n]));
      ReceiveAtOne(r, before, h, E.Play(At(r, h), E.Handling(arrivals[..n])), arrivals[n]);
    }
  }

  lemma ReceiveKeepsCounter(e: E.Endpoint, a: E.Arrival)
    ensures E.Step(e, E.ActionOf(a)).nextPeer == e.nextPeer
  {
  }

  // What a further endpoint handles does not change what was recorded of the others.
  lemma {:induction false} RecordOneMore(order: seq<nat>, arrivals: map<nat, seq<E.Arrival>>, handled: map<nat, nat>,
                                         h: nat, n: nat)
    requires h !in order
    ensures AllReceived(order, arrivals, handled[h := n]) == AllReceived(order, arrivals, handled)
  {
    if order != [] {
      RecordOneMore(order[..|order| - 1], arrivals, handled, h, n);
    }
  }

  lemma OwnersOneMore(start: Runtime, callbacks: seq<Callback>, owners: seq<Option<nat>>, owner: Option<nat>, i: nat)
    requires i < |callbacks| && RightOwners(start, callbacks[..i], owners)
    requires RightOwner(Pump(start, Dispatched(callbacks[..i], owners)), callbacks[i], owner)
    ensures RightOwners(start, callbacks[..i + 1], owners + [owner])
    ensures
      var before := Pump(start, Dispatched(callbacks[..i], owners));
      Pump(start, Dispatched(callbacks[..i + 1], owners + [owner]))
        == if owner.Some? then Act(before, owner.value, OnChange(callbacks[i])) else before
  {
    var more, all := callbacks[..i + 1], owners + [owner];
    assert more[..i] == callbacks[..i] && all[..i] == owners;
    if owner.Some? {
      PumpSnoc(start, Dispatched(callbacks[..i], owners), Pumped(owner.value, OnChange(callbacks[i])));
    } else {
      assert Dispatched(callbacks[..i], owners) + [] == Dispatched(callbacks[..i], owners);
    }
    forall j | 0 <= j < i + 1
      ensures RightOwner(Pump(start, Dispatched(more[..j], all[..j])), more[j], all[j])
    {
      assert more[..j] == callbacks[..i][..j];
      assert all[..j] == owners[..j];
      assert j == i ==> callbacks[..i][..j] == callbacks[..i] && owners[..j] == owners;
    }
  }

  // The record of a pump when one more endpoint has had its turn.
  function Turned(round: Round, h: nat, n: nat): Round
  {
    round.(order := round.order + [h], handled := round.handled[h := n])
  }

  lemma TurnAdded(start: Runtime, arrivals: map<nat, seq<E.Arrival>>, round: Round, h: nat, n: nat)
    requires h !in round.order && n <= |Due(arrivals, h)|
    ensures
      var after := Turned(round, h, n);
      Pump(start, AllReceived(after.order, arrivals, after.handled))
        == Pump(Pump(start, AllReceived(round.order, arrivals, round.handled)), Receives(h, Due(arrivals, h)[..n]))
  {
    assert (round.order + [h])[..|round.order|] == round.order;
    RecordOneMore(round.order, arrivals, round.handled, h, n);
    PumpAppend(start, AllReceived(round.order, arrivals, round.handled), Receives(h, Due(arrivals, h)[..n]));
  }

  // Every endpoint but those that are left has had its turn.
  ghost predicate HadTurns(round: Round, live: set<nat>, left: set<nat>)
  {
    left <= live && EachOnce(round.order, live - left) && round.handled.Keys == live - left
  }

  lemma TurnOnce(round: Round, live: set<nat>, left: set<nat>, h: nat, n: nat)
    requires HadTurns(round, live, left) && h in left
    ensures h !in round.order && HadTurns(Turned(round, h, n), live, left - {h})
  {
    assert live - (left - {h}) == live - left + {h};
    assert round.handled[h := n].Keys == round.handled.Keys + {h};
    forall k
      ensures k in live - (left - {h}) <==> k in round.order + [h]
    {
      assert k in round.order + [h] <==> k in round.order || k == h;
    }
  }

  lemma RoundIsRight(start: Runtime, callbacks: seq<Callback>, arrivals: map<nat, seq<E.Arrival>>, round: Round)
    requires RightOwners(start, callbacks, round.owners) && HadTurns(round, start.live, {})
    ensures RightRound(start, callbacks, round)
    ensures Pump(Pump(start, Dispatched(callbacks, round.owners)), AllReceived(round.order, arrivals, round.handled))
         == Pump(start, PumpOf(callbacks, arrivals, round))
  {
    PumpAppend(start, Dispatched(callbacks, round.owners), AllReceived(round.order, arrivals, round.handled));
    assert start.live - {} == start.live;
  }

  lemma ActAt(r: Runtime, h: nat, a: E.Action)
    requires h in r.live && h in r.endpoints && !a.PeerTakenElsewhere?
    ensures
      var t, e := Act(r, h, a), E.Step(At(r, h), a);
      && t == r.(nextPeer := e.nextPeer, endpoints := t.endpoints) && t.endpoints == r.endpoints[h := e]
  {
  }

  // A registry of at most 64 objects, each under its own handle.
  ghost predicate Registered(endpoints: map<nat, E.DatagramEndpoint>, ids: E.PeerIds, next: nat,
                             owned: set<E.DatagramEndpoint>)
  {
    && |endpoints| <= MAX_ENDPOINTS
    && forall h :: h in endpoints ==>
         endpoints[h] in owned && endpoints[h].id == h && endpoints[h].ids == ids && h < ENDPOINT_BASE + next
  }

  lemma RemoveOne(endpoints: map<nat, E.DatagramEndpoint>, ids: E.PeerIds, next: nat, owned: set<E.DatagramEndpoint>,
                  h: nat)
    requires Registered(endpoints, ids, next, owned) && h in endpoints
    ensures Registered(endpoints - {h}, ids, next, owned) && endpoints.Keys == (endpoints - {h}).Keys + {h}
  {
    assert (endpoints - {h}).Keys == endpoints.Keys - {h};
  }

  // A new endpoint is in the registry.
  function Stored(r: Runtime, id: nat, options: E.Options): Runtime
  {
    r.(live := r.live + {id}, endpoints := r.endpoints[id := E.Created(options, r.nextPeer)])
  }

  lemma CreateStores(r: Runtime, options: E.Options, made: bool)
    ensures
      var id, moved := ENDPOINT_BASE + r.nextEndpoint, r.(nextEndpoint := r.nextEndpoint + 1);
      Create(r, options, made)
        == if |r.live| >= MAX_ENDPOINTS || r.nextEndpoint > LAST_ENDPOINT then (r, None)
           else if made then (Stored(moved, id, options), Some(id))
           else (moved, None)
  {
  }

  lemma StoredOne(endpoints: map<nat, E.DatagramEndpoint>, ids: E.PeerIds, next: nat, owned: set<E.DatagramEndpoint>,
                  id: nat, endpoint: E.DatagramEndpoint)
    requires Registered(endpoints, ids, next, owned) && |endpoints| < MAX_ENDPOINTS
    requires id !in endpoints && endpoint.id == id && endpoint.ids == ids && id < ENDPOINT_BASE + next
    ensures Registered(endpoints[id := endpoint], ids, next, owned + {endpoint})
    ensures endpoints.Keys == endpoints[id := endpoint].Keys - {id}
  {
    assert endpoints[id := endpoint].Keys == endpoints.Keys + {id};
  }

  // The object has the state, the counter aside.
  ghost predicate Shows(e: E.Endpoint, o: E.DatagramEndpoint)
    reads o
  {
    e.(nextPeer := 0) == o.State()
  }

  // An endpoint has handled what was due, or 64 messages, or has stopped.
  ghost predicate DrainedOne(o: E.DatagramEndpoint, due: nat, handled: nat)
    reads o
  {
    handled <= E.RECEIVE_BUDGET && handled <= due && (handled < due ==> handled == E.RECEIVE_BUDGET || o.stopped)
  }

  class Registrar {
    const ids: E.PeerIds
    var endpoints: map<nat, E.DatagramEndpoint>
    var nextEndpoint: nat
    ghost var machine: Runtime
    ghost var owned: set<E.DatagramEndpoint>

    ghost predicate Valid()
      reads this, ids, owned
    {
      Tracks(machine)
    }

    // The runtime is the one the machine has.
    ghost predicate Tracks(m: Runtime)
      reads this`endpoints, this`nextEndpoint, this`owned, ids, owned
    {
      && Registered(endpoints, ids, nextEndpoint, owned)
      && m.live == endpoints.Keys && m.nextPeer == ids.next && m.nextEndpoint == nextEndpoint
      && forall h :: h in endpoints ==> h in m.endpoints && Shows(m.endpoints[h], endpoints[h])
    }

    // One endpoint may have changed, and the counter with it.
    ghost predicate OthersTrack(m: Runtime, but: nat)
      reads this`endpoints, this`nextEndpoint, this`owned, owned
    {
      && Registered(endpoints, ids, nextEndpoint, owned) && m.nextEndpoint == nextEndpoint
      && forall h :: h in endpoints && h != but ==> h in m.endpoints && Shows(m.endpoints[h], endpoints[h])
    }

    lemma ActTracks(m: Runtime, h: nat, a: E.Action)
      requires h in endpoints && h in m.endpoints && m.live == endpoints.Keys && OthersTrack(m, h)
      requires endpoints[h].Model() == E.Step(At(m, h), a) && !a.PeerTakenElsewhere?
      ensures Tracks(Act(m, h, a))
    {
      ActAt(m, h, a);
      assert endpoints[h].Model().nextPeer == ids.next;
    }

    lemma ReceivesTrack(m: Runtime, h: nat, arrivals: seq<E.Arrival>)
      requires h in endpoints && h in m.endpoints && m.live == endpoints.Keys && OthersTrack(m, h)
      requires m.nextPeer == ids.next && endpoints[h].Model() == E.Play(At(m, h), E.Handling(arrivals))
      ensures Tracks(Pump(m, Receives(h, arrivals)))
    {
      ReceivesAtOne(m, h, arrivals);
      var t := Pump(m, Receives(h, arrivals));
      assert At(t, h) == endpoints[h].Model();
    }

    lemma StoredTracks(m: Runtime, id: nat)
      requires id in endpoints && m.live == endpoints.Keys - {id} && OthersTrack(m, id) && m.nextPeer == ids.next
      requires endpoints[id].Model() == E.Created(endpoints[id].options, ids.next)
      ensures Tracks(Stored(m, id, endpoints[id].options))
    {
      assert m.live + {id} == endpoints.Keys;
    }

    lemma LeavingTracks(m: Runtime, before: map<nat, E.DatagramEndpoint>, h: nat)
      requires endpoints == before - {h} && m.live == before.Keys && Registered(endpoints, ids, nextEndpoint, owned)
      requires m.nextPeer == ids.next && m.nextEndpoint == nextEndpoint
      requires forall k :: k in before ==> k in m.endpoints && Shows(m.endpoints[k], before[k])
      ensures Tracks(m.(live := m.live - {h}))
    {
      assert m.live - {h} == endpoints.Keys;
      assert forall k :: k in endpoints ==> k in before && endpoints[k] == before[k];
    }

    constructor ()
      ensures Valid() && machine == Initial()
    {
      ids := new E.PeerIds();
      endpoints, nextEndpoint := map[], 1;
      machine, owned := Initial(), {};
    }

    // The next handle of the registry, which is used up whatever becomes of it.
    method TakeHandle() returns (id: Option<nat>)
      requires Valid()
      modifies this`nextEndpoint, this`machine
      ensures Valid()
      ensures id.None? <==> |old(machine).live| >= MAX_ENDPOINTS || old(machine).nextEndpoint > LAST_ENDPOINT
      ensures id.None? ==> machine == old(machine)
      ensures id.Some? ==> id.value !in endpoints && id.value < ENDPOINT_BASE + nextEndpoint
      ensures id.Some? ==> id.value == ENDPOINT_BASE + old(machine).nextEndpoint && |endpoints| < MAX_ENDPOINTS
      ensures id.Some? ==> machine == old(machine).(nextEndpoint := old(machine).nextEndpoint + 1)
    {
      assert |machine.live| == |endpoints|;
      if |endpoints| >= MAX_ENDPOINTS || nextEndpoint > LAST_ENDPOINT {
        return None;
      }
      id := Some(ENDPOINT_BASE + nextEndpoint);
      nextEndpoint := nextEndpoint + 1;
      machine := machine.(nextEndpoint := nextEndpoint);
    }

    // The object is built and stored, or its construction fails.
    method BuildEndpoint(id: nat, options: E.Options, made: bool) returns (handle: Option<nat>)
      requires Valid() && id !in endpoints && id < ENDPOINT_BASE + nextEndpoint && |endpoints| < MAX_ENDPOINTS
      modifies this`endpoints, this`machine, this`owned
      ensures Valid() && handle == if made then Some(id) else None
      ensures machine == if made then Stored(old(machine), id, options) else old(machine)
      ensures made ==> id in endpoints && fresh(endpoints[id])
    {
      if !made {
        return None;
      }
      var endpoint := new E.DatagramEndpoint(id, options, ids);
      assert Valid();
      StoreEndpoint(id, endpoint);
      return Some(id);
    }

    method CreateEndpoint(options: E.Options, made: bool) returns (handle: Option<nat>)
      requires Valid()
      modifies this
      ensures Valid() && (machine, handle) == Create(old(machine), options, made)
      ensures handle.Some? ==>
                handle.value !in old(endpoints) && handle.value in endpoints && fresh(endpoints[handle.value])
    {
      handle := TakeHandle();
      if handle.Some? {
        handle := BuildEndpoint(handle.value, options, made);
      }
      CreateStores(old(machine), options, made);
    }

    method StoreEndpoint(id: nat, endpoint: E.DatagramEndpoint)
      requires Valid() && id !in endpoints && id < ENDPOINT_BASE + nextEndpoint && |endpoints| < MAX_ENDPOINTS
      requires endpoint.id == id && endpoint.ids == ids && endpoint.Model() == E.Created(endpoint.options, ids.next)
      modifies this`endpoints, this`machine, this`owned
      ensures Valid() && id in endpoints && endpoints[id] == endpoint
      ensures machine == Stored(old(machine), id, endpoint.options)
    {
      StoredOne(endpoints, ids, nextEndpoint, owned, id, endpoint);
      ghost var was, before := machine, endpoints;
      machine, owned := Stored(was, id, endpoint.options), owned + {endpoint};
      endpoints := endpoints[id := endpoint];
      forall k | k in endpoints && k != id
        ensures k in was.endpoints && Shows(was.endpoints[k], endpoints[k])
      {
        assert k in before && old(Shows(was.endpoints[k], before[k]));
      }
      StoredTracks(was, id);
    }

    // The first endpoint found that owns the connection.
    method FindOwner(c: Callback) returns (owner: Option<nat>)
      requires Valid()
      ensures RightOwner(machine, c, owner)
    {
      var left := endpoints.Keys;
      while left != {}
        invariant left <= endpoints.Keys
        invariant forall h :: h in endpoints && h !in left ==> !Owns(At(machine, h), h, c)
        decreases left
      {
        var h :| h in left;
        if !endpoints[h].stopped && (c.connection in endpoints[h].peers || c.listener == Some(h)) {
          return Some(h);
        }
        left := left - {h};
      }
      return None;
    }

    // One endpoint has a status change.
    method ChangeAt(h: nat, c: Callback)
      requires Valid() && h in endpoints
      modifies endpoints[h], ids, this`machine
      ensures Valid() && machine == Act(old(machine), h, OnChange(c))
    {
      assert endpoints[h].Model() == At(machine, h);
      ghost var was := machine;
      machine := Act(was, h, OnChange(c));
      endpoints[h].OnStatusChange(c.connection, c.change, c.allocates);
      ActTracks(was, h, OnChange(c));
    }

    // One endpoint receives.
    method ReceiveAt(h: nat, arrivals: seq<E.Arrival>) returns (n: nat)
      requires Valid() && h in endpoints
      modifies endpoints[h], this`machine
      ensures Valid() && n <= |arrivals| && n <= E.RECEIVE_BUDGET
      ensures n < |arrivals| ==> n == E.RECEIVE_BUDGET || endpoints[h].stopped
      ensures machine == Pump(old(machine), Receives(h, arrivals[..n]))
    {
      assert endpoints[h].Model() == At(machine, h);
      n := endpoints[h].Receive(arrivals);
      ghost var was := machine;
      machine := Pump(was, Receives(h, arrivals[..n]));
      ReceivesTrack(was, h, arrivals[..n]);
    }

    method TakeAt(h: nat, capacity: nat) returns (reply: E.Reply)
      requires Valid() && h in endpoints
      modifies endpoints[h], this`machine
      ensures Valid() && reply == E.Answer(At(old(machine), h), capacity)
      ensures machine == if reply == E.NoEvent then old(machine) else Act(old(machine), h, E.Polls(capacity))
      ensures endpoints[h].stopped == old(endpoints[h].stopped)
    {
      assert endpoints[h].Model() == At(machine, h);
      reply := endpoints[h].TakeNext(capacity);
      if reply != E.NoEvent {
        ghost var was := machine;
        machine := Act(was, h, E.Polls(capacity));
        ActTracks(was, h, E.Polls(capacity));
      }
    }

    // The library runs the callbacks one after the other; each goes to an endpoint
    // that owns its connection at that moment.
    method RunCallbacks(callbacks: seq<Callback>) returns (ghost owners: seq<Option<nat>>)
      requires Valid()
      modifies owned, ids, this`machine
      ensures Valid() && RightOwners(old(machine), callbacks, owners)
      ensures machine == Pump(old(machine), Dispatched(callbacks, owners))
    {
      ghost var start := machine;
      owners := [];
      for i := 0 to |callbacks|
        invariant Valid() && RightOwners(start, callbacks[..i], owners)
        invariant machine == Pump(start, Dispatched(callbacks[..i], owners))
      {
        var owner := FindOwner(callbacks[i]);
        OwnersOneMore(start, callbacks, owners, owner, i);
        if owner.Some? {
          ChangeAt(owner.value, callbacks[i]);
        }
        owners := owners + [owner];
      }
      assert callbacks[..|callbacks|] == callbacks;
    }

    // Each endpoint that had its turn has handled what was there for it, or 64
    // messages, or has stopped.
    ghost predicate Drained(arrivals: map<nat, seq<E.Arrival>>, round: Round)
      reads this, owned
    {
      forall h :: h in round.handled && h in endpoints && endpoints[h] in owned ==>
        DrainedOne(endpoints[h], |Due(arrivals, h)|, round.handled[h])
    }

    // The endpoint has its turn to receive.
    method ReceiveNext(h: nat, arrivals: map<nat, seq<E.Arrival>>, ghost before: Round) returns (ghost n: nat)
      requires Valid() && Drained(arrivals, before) && h in endpoints && h !in before.order && h !in before.handled
      modifies endpoints[h], this`machine
      ensures Valid() && n <= |Due(arrivals, h)| && Drained(arrivals, Turned(before, h, n))
      ensures machine == Pump(old(machine), Receives(h, Due(arrivals, h)[..n]))
    {
      n := ReceiveAt(h, Due(arrivals, h));
      assert DrainedOne(endpoints[h], |Due(arrivals, h)|, n);
    }

    // All endpoints but those that are left have had their turn.
    ghost predicate Receiving(start: Runtime, arrivals: map<nat, seq<E.Arrival>>, round: Round, left: set<nat>)
      reads this, ids, owned
    {
      && Valid() && HadTurns(round, endpoints.Keys, left) && Drained(arrivals, round)
      && machine == Pump(start, AllReceived(round.order, arrivals, round.handled))
    }

    method TakeTurn(h: nat, arrivals: map<nat, seq<E.Arrival>>, left: set<nat>, ghost start: Runtime,
                    ghost before: Round)
      returns (ghost round: Round)
      requires Receiving(start, arrivals, before, left) && h in left
      modifies endpoints[h], this`machine
      ensures Receiving(start, arrivals, round, left - {h}) && round.owners == before.owners
    {
      ghost var n := ReceiveNext(h, arrivals, before);
      TurnOnce(before, endpoints.Keys, left, h, n);
      TurnAdded(start, arrivals, before, h, n);
      round := Turned(before, h, n);
    }

    // Every endpoint receives, each in its turn.
    method ReceiveAll(arrivals: map<nat, seq<E.Arrival>>, ghost owners: seq<Option<nat>>) returns (ghost round: Round)
      requires Valid()
      modifies owned, this`machine
      ensures round.owners == owners && Receiving(old(machine), arrivals, round, {})
    {
      ghost var start := machine;
      round := Round(owners, [], map[]);
      var left := endpoints.Keys;
      while left != {}
        invariant round.owners == owners && Receiving(start, arrivals, round, left)
        decreases left
      {
        var h :| h in left;
        round := TakeTurn(h, arrivals, left, start, round);
        left := left - {h};
      }
    }

    // A pump of the runtime: all callbacks, then every endpoint receives.
    method PumpAll(callbacks: seq<Callback>, arrivals: map<nat, seq<E.Arrival>>) returns (ghost round: Round)
      requires Valid()
      modifies owned, ids, this`machine
      ensures Valid() && RightRound(old(machine), callbacks, round) && Drained(arrivals, round)
      ensures machine == Pump(old(machine), PumpOf(callbacks, arrivals, round))
    {
      ghost var owners := RunCallbacks(callbacks);
      round := ReceiveAll(arrivals, owners);
      RoundIsRight(old(machine), callbacks, arrivals, round);
    }

    // The second half of a round: pump, then take.
    method PumpAndTake(h: nat, capacity: nat, callbacks: seq<Callback>, arrivals: map<nat, seq<E.Arrival>>)
      returns (reply: E.Reply, ghost round: Round)
      requires Valid() && h in endpoints
      modifies owned, ids, this`machine
      ensures Valid() && RightRound(old(machine), callbacks, round) && Drained(arrivals, round)
      ensures
        var pumped := Pump(old(machine), PumpOf(callbacks, arrivals, round));
        && h in pumped.endpoints && reply == E.Answer(At(pumped, h), capacity)
        && machine == Act(pumped, h, E.Polls(capacity))
    {
      round := PumpAll(callbacks, arrivals);
      reply := TakeDrained(h, capacity, arrivals, round);
    }

    method TakeDrained(h: nat, capacity: nat, ghost arrivals: map<nat, seq<E.Arrival>>, ghost round: Round)
      returns (reply: E.Reply)
      requires Valid() && h in endpoints && h in machine.endpoints && Drained(arrivals, round)
      modifies endpoints[h], this`machine
      ensures Valid() && Drained(arrivals, round) && reply == E.Answer(At(old(machine), h), capacity)
      ensures machine == Act(old(machine), h, E.Polls(capacity))
    {
      reply := TakeAt(h, capacity);
      if reply == E.NoEvent {
        SawNothing(h, capacity);
      }
    }

    /** One round of poll is the poll of the machine: an event that is queued is taken
        without pumping; otherwise the callbacks run, every endpoint receives, and then
        the event is taken. The pump of that poll is exactly what was done: each
        callback went to an owner, and each endpoint handled an initial part of what
        the library had for it, all of it unless it reached 64 messages or stopped. */
    method PollRound(handle: nat, capacity: nat, callbacks: seq<Callback>, arrivals: map<nat, seq<E.Arrival>>)
      returns (reply: Option<E.Reply>, ghost pump: seq<Pumped>, ghost round: Round)
      requires Valid()
      modifies owned, ids, this`machine
      ensures Valid() && (machine, reply) == Poll(old(machine), handle, capacity, pump)
      ensures handle in endpoints && E.Answer(At(old(machine), handle), capacity) == E.NoEvent ==>
                && RightRound(old(machine), callbacks, round) && Drained(arrivals, round)
                && pump == PumpOf(callbacks, arrivals, round)
    {
      pump, round := [], Round([], [], map[]);
      if handle !in endpoints {
        return None, pump, round;
      }
      var first := TakeAt(handle, capacity);
      if first != E.NoEvent {
        return Some(first), pump, round;
      }
      var second;
      second, round := PumpAndTake(handle, capacity, callbacks, arrivals);
      pump := PumpOf(callbacks, arrivals, round);
      reply := Some(second);
    }

    // A take that finds nothing is a step of the machine that changes nothing.
    ghost method SawNothing(h: nat, capacity: nat)
      requires Valid() && h in endpoints && E.Answer(At(machine, h), capacity) == E.NoEvent
      modifies this`machine
      ensures Valid() && machine == Act(old(machine), h, E.Polls(capacity))
    {
      machine := Act(machine, h, E.Polls(capacity));
    }

    method StopAt(h: nat)
      requires Valid() && h in endpoints
      modifies endpoints[h], this`machine
      ensures Valid() && machine == Act(old(machine), h, E.ShutsDown)
      ensures endpoints[h].Model() == E.Shutdown(old(endpoints[h].Model()))
    {
      assert endpoints[h].Model() == At(machine, h);
      ghost var was := machine;
      machine := Act(was, h, E.ShutsDown);
      endpoints[h].ShutDown();
      ActTracks(was, h, E.ShutsDown);
    }

    method Leave(h: nat)
      requires Valid() && h in endpoints
      modifies this`endpoints, this`machine
      ensures Valid() && machine == old(machine).(live := old(machine).live - {h})
    {
      RemoveOne(endpoints, ids, nextEndpoint, owned, h);
      ghost var was, before := machine, endpoints;
      machine := was.(live := was.live - {h});
      endpoints := endpoints - {h};
      LeavingTracks(was, before, h);
    }

    method DestroyEndpoint(handle: nat) returns (found: bool)
      requires Valid()
      modifies this`endpoints, this`machine, if handle in endpoints then {endpoints[handle]} else {}
      ensures Valid() && machine == Destroy(old(machine), handle)
      ensures found <==> handle in old(endpoints)
      ensures found ==> old(endpoints)[handle].Model() == E.Shutdown(old(endpoints[handle].Model()))
    {
      found := handle in endpoints;
      if found {
        StopAt(handle);
        Leave(handle);
      }
    }
  }
}
