/** One datagram endpoint over GameNetworkingSockets: its peer table, its bounded
    event queue and its terminal overflow (src/Net/Transports/Gns/Endpoint.cpp,
    EndpointEvents.cpp, Runtime.cpp). Every operation and every native callback
    runs under the one mutex of the runtime, so a run is any sequence of them. The
    native library is a set of parameters that say what it answers. */
module GnsEndpoint {
  import opened Prelude

  const PEER_BASE: nat := 0x5000_0000_0000_0000
  const LAST_PEER: nat := 0x00FF_FFFF_FFFF_FFFF
  const RECEIVE_BUDGET: nat := 64

  datatype Kind = Connected | Message | Disconnected

  datatype Event = Event(kind: Kind, peer: nat, payload: Bytes)

  datatype Peer = Peer(id: nat, connected: bool)

  // eventSize is the size of the fixed part of a queued event.
  datatype Options = Options(maxPeers: nat, maxMessage: nat, maxCount: nat, maxBytes: nat, eventSize: nat)

  // nextPeer is the runtime's counter, which all endpoints share. pushed and
  // taken are the history: events that entered the queue and events polled.
  datatype Endpoint = Endpoint(options: Options, nextPeer: nat, peers: map<nat, Peer>,
                               events: seq<Event>, eventBytes: int, stopped: bool, overflow: bool, reported: bool,
                               pushed: seq<Event>, taken: seq<Event>, overflowsReported: nat)

  function Created(options: Options, nextPeer: nat): Endpoint
  {
    Endpoint(options, nextPeer, map[], [], 0, false, false, false, [], [], 0)
  }

  function Shutdown(e: Endpoint): Endpoint
  {
    e.(stopped := true, peers := map[], events := [], eventBytes := 0)
  }

  function Overflow(e: Endpoint): Endpoint { Shutdown(e.(overflow := true)) }

  function Cost(o: Options, event: Event): nat { o.eventSize + |event.payload| }

  // allocates is false when storing the event throws.
  function Push(e: Endpoint, event: Event, allocates: bool): Endpoint
  {
    if e.stopped then e
    else if |e.events| >= e.options.maxCount || Cost(e.options, event) > e.options.maxBytes - e.eventBytes
            || !allocates
    then Overflow(e)
    else e.(events := e.events + [event], eventBytes := e.eventBytes + Cost(e.options, event),
            pushed := e.pushed + [event])
  }

  datatype Reply = OverflowEvent | EndOfEvents | NoEvent | TooSmall(event: Event) | Got(event: Event)

  function Answer(e: Endpoint, capacity: nat): Reply
  {
    if e.overflow && !e.reported then OverflowEvent
    else if e.stopped then EndOfEvents
    else if e.events == [] then NoEvent
    else if |e.events[0].payload| > capacity then TooSmall(e.events[0])
    else Got(e.events[0])
  }

  function Take(e: Endpoint, capacity: nat): Endpoint
  {
    match Answer(e, capacity)
    case OverflowEvent => e.(reported := true, overflowsReported := e.overflowsReported + 1)
    case Got(event) => e.(events := e.events[1..], eventBytes := e.eventBytes - Cost(e.options, event),
                          taken := e.taken + [event])
    case _ => e
  }

  function Forget(e: Endpoint, handle: nat): Endpoint { e.(peers := e.peers - {handle}) }

  function Drop(e: Endpoint, handle: nat, allocates: bool): Endpoint
  {
    if handle !in e.peers then e
    else Push(Forget(e, handle), Event(Disconnected, e.peers[handle].id, []), allocates)
  }

  // The runtime's next id: None is the exception of a used-up counter.
  function NextPeerId(e: Endpoint): Option<nat>
  {
    if e.nextPeer > LAST_PEER then None else Some(PEER_BASE + e.nextPeer)
  }

  function Enter(e: Endpoint, handle: nat): Endpoint
  {
    e.(nextPeer := e.nextPeer + 1, peers := e.peers[handle := Peer(PEER_BASE + e.nextPeer, false)])
  }

  // A new status of a native connection. admissible: the remote address may
  // connect; configured: the configuration took; accepted: the library accepted.
  datatype Change =
    | Connecting(admissible: bool, configured: bool, accepted: bool)
    | Up(encrypted: bool)
    | Down
    | OtherChange

  // The peer takes the next id before its entry is stored. allocates is false when
  // storing the entry throws, or the event of a connection that is not accepted:
  // either way the endpoint overflows and the id is used up.
  function OnConnecting(e: Endpoint, handle: nat, c: Change, allocates: bool): Endpoint
    requires c.Connecting? && handle !in e.peers
  {
    if e.stopped || |e.peers| >= e.options.maxPeers || !c.admissible then e
    else if !c.configured then e
    else if NextPeerId(e).None? then Overflow(e)
    else if !allocates then Overflow(e.(nextPeer := e.nextPeer + 1))
    else
      var entered := Enter(e, handle);
      if c.accepted then entered else Drop(entered, handle, allocates)
  }

  function OnStatus(e: Endpoint, handle: nat, c: Change, allocates: bool): Endpoint
  {
    if handle !in e.peers then if c.Connecting? then OnConnecting(e, handle, c, allocates) else e
    else
      match c
      case Connecting(_, _, _) => e
      case Up(encrypted) =>
        if !encrypted then Drop(e, handle, allocates)
        else if e.peers[handle].connected then e
        else
          var peer := e.peers[handle];
          Push(e.(peers := e.peers[handle := peer.(connected := true)]), Event(Connected, peer.id, []), allocates)
      case Down => Drop(e, handle, allocates)
      case OtherChange => e
  }

  // A message the native library hands over, from a handle.
  function OnMessage(e: Endpoint, handle: nat, payload: Bytes, allocates: bool): Endpoint
  {
    if e.stopped || handle !in e.peers then e
    else if |payload| > e.options.maxMessage then Drop(e, handle, allocates)
    else if !e.peers[handle].connected then Drop(e, handle, allocates)
    else Push(e, Event(Message, e.peers[handle].id, payload), allocates)
  }

  datatype Status = Ok | Stopped | InvalidArgument | Backpressure | IoError | InternalError | InvalidHandle

  datatype ConnectResult = ConnectResult(endpoint: Endpoint, status: Status, peer: nat)

  // parsed: the address is well formed and allowed; native: the library gave a
  // handle and took the configuration; allocates: the table entry could be stored.
  function Connect(e: Endpoint, handle: nat, parsed: bool, native: bool, allocates: bool): ConnectResult
  {
    if e.stopped then ConnectResult(e, Stopped, 0)
    else if !parsed then ConnectResult(e, InvalidArgument, 0)
    else if |e.peers| >= e.options.maxPeers then ConnectResult(e, Backpressure, 0)
    else if !native then ConnectResult(e, IoError, 0)
    else if NextPeerId(e).None? then ConnectResult(e, InternalError, 0)
    else if handle in e.peers || !allocates then ConnectResult(e.(nextPeer := e.nextPeer + 1), InternalError, 0)
    else ConnectResult(Enter(e, handle), Ok, PEER_BASE + e.nextPeer)
  }

  datatype Action =
    | Connects(handle: nat, parsed: bool, native: bool, allocates: bool)
    | StatusChanged(handle: nat, change: Change, allocates: bool)
    | Received(handle: nat, payload: Bytes, allocates: bool)
    | ReceiveFailed
    | Disconnects(handle: nat, allocates: bool) // find_peer found the handle
    | Polls(capacity: nat)
    | ShutsDown
    | PeerTakenElsewhere

  function Step(e: Endpoint, a: Action): Endpoint
  {
    match a
    case Connects(handle, parsed, native, allocates) => Connect(e, handle, parsed, native, allocates).endpoint
    case StatusChanged(handle, change, allocates) => OnStatus(e, handle, change, allocates)
    case Received(handle, payload, allocates) => OnMessage(e, handle, payload, allocates)
    case ReceiveFailed => if e.stopped then e else Overflow(e)
    case Disconnects(handle, allocates) => if e.stopped then e else Drop(e, handle, allocates)
    case Polls(capacity) => Take(e, capacity)
    case ShutsDown => Shutdown(e)
    case PeerTakenElsewhere => if e.nextPeer > LAST_PEER then e else e.(nextPeer := e.nextPeer + 1)
  }

  function Play(start: Endpoint, actions: seq<Action>): Endpoint
  {
    if actions == [] then start
    else Step(Play(start, actions[..|actions| - 1]), actions[|actions| - 1])
  }

  lemma {:induction false} PlayAppend(start: Endpoint, actions: seq<Action>, more: seq<Action>)
    ensures Play(start, actions + more) == Play(Play(start, actions), more)
  {
    if more == [] {
      assert actions + more == actions;
    } else {
      assert (actions + more)[..|actions + more| - 1] == actions + more[..|more| - 1];
      PlayAppend(start, actions, more[..|more| - 1]);
    }
  }

  // ------------------------------------------------------------ event grammar

  datatype Phase = Unseen | Live | Ended | Malformed

  function Read(phase: Phase, kind: Kind): Phase
  {
    match (phase, kind)
    case (Unseen, Connected) => Live
    case (Live, Message) => Live
    case (Live, Disconnected) => Ended
    case (Unseen, Disconnected) => Ended
    case _ => Malformed
  }

  function Kinds(events: seq<Event>, id: nat): seq<Kind>
  {
    if events == [] then []
    else
      var last := events[|events| - 1];
      Kinds(events[..|events| - 1], id) + if last.peer == id then [last.kind] else []
  }

  function PhaseOf(kinds: seq<Kind>): Phase
  {
    if kinds == [] then Unseen else Read(PhaseOf(kinds[..|kinds| - 1]), kinds[|kinds| - 1])
  }

  // Connected, then messages, then at most one Disconnected; or Disconnected alone
  // for a peer that never connected.
  ghost predicate Grammatical(kinds: seq<Kind>)
  {
    || kinds == [Disconnected]
    || ((kinds != [] ==> kinds[0] == Connected)
        && forall i :: 0 < i < |kinds| ==> kinds[i] == Message || (kinds[i] == Disconnected && i == |kinds| - 1))
  }

  lemma GrammarExtends(front: seq<Kind>, kind: Kind)
    requires Grammatical(front) && front != [] && front[|front| - 1] != Disconnected
    requires kind == Message || kind == Disconnected
    ensures Grammatical(front + [kind])
  {
    var kinds := front + [kind];
    forall i | 0 < i < |kinds|
      ensures kinds[i] == Message || (kinds[i] == Disconnected && i == |kinds| - 1)
    {
      assert i < |front| ==> kinds[i] == front[i];
    }
  }

  lemma {:induction false} GrammarByPhase(kinds: seq<Kind>)
    requires PhaseOf(kinds) != Malformed
    ensures Grammatical(kinds)
    ensures kinds == [] <==> PhaseOf(kinds) == Unseen
    ensures PhaseOf(kinds) == Ended <==> kinds != [] && kinds[|kinds| - 1] == Disconnected
  {
    if kinds != [] {
      var front, last := kinds[..|kinds| - 1], kinds[|kinds| - 1];
      GrammarByPhase(front);
      assert kinds == front + [last];
      if PhaseOf(front) == Live {
        GrammarExtends(front, last);
      }
    }
  }

  lemma KindsAppend(events: seq<Event>, event: Event, id: nat)
    ensures PhaseOf(Kinds(events + [event], id))
         == if event.peer == id then Read(PhaseOf(Kinds(events, id)), event.kind) else PhaseOf(Kinds(events, id))
  {
    assert (events + [event])[..|events|] == events;
    var kinds := Kinds(events, id);
    if event.peer == id {
      assert (kinds + [event.kind])[..|kinds|] == kinds;
    } else {
      assert kinds + [] == kinds;
    }
  }

  // ---------------------------------------------------------------- invariant

  function PeerPhase(e: Endpoint, id: nat): Phase { PhaseOf(Kinds(e.pushed, id)) }

  predicate Issued(e: Endpoint, id: nat) { PEER_BASE <= id < PEER_BASE + e.nextPeer }

  ghost predicate Registered(e: Endpoint, id: nat)
  {
    exists handle :: handle in e.peers && e.peers[handle].id == id
  }

  predicate Readable(e: Endpoint, id: nat)
  {
    PeerPhase(e, id) != Malformed && (!Issued(e, id) ==> PeerPhase(e, id) == Unseen)
  }

  // The history of an id. While the endpoint runs, an open history belongs to a
  // peer in the table.
  ghost predicate Fits(e: Endpoint, id: nat)
  {
    && Readable(e, id)
    && (!e.stopped && PeerPhase(e, id) == Live ==> Registered(e, id))
  }

  ghost predicate Histories(e: Endpoint)
  {
    forall id :: Fits(e, id)
  }

  predicate EntryFits(e: Endpoint, handle: nat)
    requires handle in e.peers
  {
    var peer := e.peers[handle];
    Issued(e, peer.id) && PeerPhase(e, peer.id) == if peer.connected then Live else Unseen
  }

  ghost predicate Entries(e: Endpoint)
  {
    && (forall handle :: handle in e.peers ==> EntryFits(e, handle))
    && (forall h, k :: h in e.peers && k in e.peers && h != k ==> e.peers[h].id != e.peers[k].id)
    && |e.peers| <= e.options.maxPeers
  }

  function QueueBytes(o: Options, events: seq<Event>): nat
  {
    if events == [] then 0 else QueueBytes(o, events[..|events| - 1]) + Cost(o, events[|events| - 1])
  }

  ghost predicate Queue(e: Endpoint)
  {
    && e.eventBytes == QueueBytes(e.options, e.events) <= e.options.maxBytes
    && |e.events| <= e.options.maxCount
    && (if e.stopped then e.taken <= e.pushed else e.taken + e.events == e.pushed)
  }

  predicate Flags(e: Endpoint)
  {
    && (e.stopped ==> e.peers == map[] && e.events == [])
    && (e.overflow ==> e.stopped) && (e.reported ==> e.overflow)
    && e.overflowsReported == if e.reported then 1 else 0
  }

  ghost predicate Inv(e: Endpoint)
  {
    Histories(e) && Entries(e) && Queue(e) && Flags(e)
  }

  // ------------------------------------------------------------- preservation

  // An endpoint that stops keeps what it has pushed so far.
  lemma StoppedKeeps(e: Endpoint, t: Endpoint)
    requires Inv(e) && (t == Shutdown(e) || (t == Overflow(e) && !e.stopped))
    ensures Inv(t)
  {
    forall id
      ensures Fits(t, id)
    {
      assert Fits(e, id);
    }
    assert e.taken <= e.pushed;
  }

  lemma {:induction false} QueueBytesFront(o: Options, events: seq<Event>)
    requires events != []
    ensures QueueBytes(o, events) == Cost(o, events[0]) + QueueBytes(o, events[1..])
  {
    if |events| > 1 {
      QueueBytesFront(o, events[..|events| - 1]);
      assert events[..|events| - 1][1..] == events[1..][..|events| - 2];
    } else {
      assert events[..0] == [];
    }
  }

  lemma PushKeepsQueue(e: Endpoint, event: Event, allocates: bool)
    requires Queue(e) && Flags(e)
    ensures Queue(Push(e, event, allocates)) && Flags(Push(e, event, allocates))
  {
    var t := Push(e, event, allocates);
    if t.pushed != e.pushed {
      assert t.events[..|e.events|] == e.events;
      assert e.taken + (e.events + [event]) == e.taken + e.events + [event];
    } else if !e.stopped {
      assert e.taken <= e.pushed;
    }
  }

  // A push moves the phase of its own peer, or stops the endpoint.
  lemma PushMovesPhase(e: Endpoint, event: Event, allocates: bool, id: nat)
    ensures
      var t := Push(e, event, allocates);
      && PeerPhase(t, id) == (if !t.stopped && event.peer == id then Read(PeerPhase(e, id), event.kind) else PeerPhase(e, id))
      && t.nextPeer == e.nextPeer && (e.stopped ==> t == e)
      && (!t.stopped ==> t.peers == e.peers) && (t.stopped && !e.stopped ==> t == Overflow(e))
  {
    KindsAppend(e.pushed, event, id);
  }

  // The peer of one handle changes: it leaves the table, or its entry becomes peer.
  function Changed(e: Endpoint, handle: nat, peer: Option<Peer>): Endpoint
  {
    e.(peers := if peer.Some? then e.peers[handle := peer.value] else e.peers - {handle})
  }

  // The event that goes with the change fits the history of the peer.
  predicate Fitting(e: Endpoint, handle: nat, peer: Option<Peer>, event: Event)
  {
    && handle in e.peers && event.peer == e.peers[handle].id
    && (peer.Some? ==> peer.value.id == event.peer)
    && Read(PeerPhase(e, event.peer), event.kind)
       == (if peer.None? then Ended else if peer.value.connected then Live else Unseen)
  }

  lemma ChangeKeepsRegistered(e: Endpoint, handle: nat, peer: Option<Peer>, id: nat)
    requires Entries(e) && handle in e.peers && id != e.peers[handle].id && Registered(e, id)
    ensures Registered(Changed(e, handle, peer), id)
  {
    var h :| h in e.peers && e.peers[h].id == id;
    assert h in Changed(e, handle, peer).peers;
  }

  lemma ChangeKeepsHistories(e: Endpoint, handle: nat, peer: Option<Peer>, event: Event, allocates: bool)
    requires Inv(e) && Fitting(e, handle, peer, event)
    ensures Histories(Push(Changed(e, handle, peer), event, allocates))
  {
    var f := Changed(e, handle, peer);
    var t := Push(f, event, allocates);
    forall id
      ensures Fits(t, id)
    {
      assert Fits(e, id);
      PushMovesPhase(f, event, allocates, id);
      assert PeerPhase(f, id) == PeerPhase(e, id);
      if id == event.peer {
        assert EntryFits(e, handle);
        if peer.Some? && !t.stopped {
          assert handle in t.peers && t.peers[handle].id == id;
        }
      } else if !t.stopped && PeerPhase(t, id) == Live {
        ChangeKeepsRegistered(e, handle, peer, id);
        assert Registered(f, id);
      }
    }
  }

  lemma ChangeKeepsEntries(e: Endpoint, handle: nat, peer: Option<Peer>, event: Event, allocates: bool)
    requires Inv(e) && Fitting(e, handle, peer, event)
    ensures Entries(Push(Changed(e, handle, peer), event, allocates))
  {
    var f := Changed(e, handle, peer);
    var t := Push(f, event, allocates);
    PushMovesPhase(f, event, allocates, event.peer);
    if !t.stopped {
      forall h | h in t.peers
        ensures EntryFits(t, h)
      {
        ChangeKeepsEntry(e, handle, peer, event, allocates, h);
      }
      ChangeKeepsUnique(e, handle, peer);
      ChangedSize(e.peers, handle, peer);
    }
  }

  lemma ChangeKeepsEntry(e: Endpoint, handle: nat, peer: Option<Peer>, event: Event, allocates: bool, h: nat)
    requires Entries(e) && Fitting(e, handle, peer, event)
    requires var t := Push(Changed(e, handle, peer), event, allocates); !t.stopped && h in t.peers
    ensures EntryFits(Push(Changed(e, handle, peer), event, allocates), h)
  {
    var f := Changed(e, handle, peer);
    PushMovesPhase(f, event, allocates, event.peer);
    assert EntryFits(e, h);
    PushMovesPhase(f, event, allocates, e.peers[h].id);
    assert PeerPhase(f, e.peers[h].id) == PeerPhase(e, e.peers[h].id);
  }

  lemma ChangeKeepsUnique(e: Endpoint, handle: nat, peer: Option<Peer>)
    requires Entries(e) && handle in e.peers && (peer.Some? ==> peer.value.id == e.peers[handle].id)
    ensures
      var peers := Changed(e, handle, peer).peers;
      forall h, k :: h in peers && k in peers && h != k ==> peers[h].id != peers[k].id
  {
  }

  lemma ChangedSize(peers: map<nat, Peer>, handle: nat, peer: Option<Peer>)
    requires handle in peers
    ensures |if peer.Some? then peers[handle := peer.value] else peers - {handle}| <= |peers|
  {
    if peer.Some? {
      assert peers[handle := peer.value].Keys == peers.Keys;
    } else {
      assert (peers - {handle}).Keys == peers.Keys - {handle};
    }
  }

  lemma ChangeKeeps(e: Endpoint, handle: nat, peer: Option<Peer>, event: Event, allocates: bool)
    requires Inv(e) && Fitting(e, handle, peer, event)
    ensures Inv(Push(Changed(e, handle, peer), event, allocates))
  {
    ChangeKeepsHistories(e, handle, peer, event, allocates);
    ChangeKeepsEntries(e, handle, peer, event, allocates);
    PushKeepsQueue(Changed(e, handle, peer), event, allocates);
  }

  lemma DropKeeps(e: Endpoint, handle: nat, allocates: bool)
    requires Inv(e)
    ensures Inv(Drop(e, handle, allocates))
  {
    if handle in e.peers {
      assert EntryFits(e, handle);
      ChangeKeeps(e, handle, None, Event(Disconnected, e.peers[handle].id, []), allocates);
    }
  }

  lemma EnterKeeps(e: Endpoint, handle: nat)
    requires Inv(e) && handle !in e.peers && !e.stopped && |e.peers| < e.options.maxPeers
    ensures Inv(Enter(e, handle))
  {
    var t, newId := Enter(e, handle), PEER_BASE + e.nextPeer;
    assert Fits(e, newId);
    forall id
      ensures Fits(t, id)
    {
      assert Fits(e, id);
      if Registered(e, id) {
        var h :| h in e.peers && e.peers[h].id == id;
        assert h in t.peers && t.peers[h].id == id;
      }
    }
    EnterKeepsEntries(e, handle);
  }

  lemma EnterKeepsEntries(e: Endpoint, handle: nat)
    requires Entries(e) && handle !in e.peers && |e.peers| < e.options.maxPeers
    requires PeerPhase(e, PEER_BASE + e.nextPeer) == Unseen
    ensures Entries(Enter(e, handle))
  {
    var t := Enter(e, handle);
    assert t.peers.Keys == e.peers.Keys + {handle};
    forall h | h in t.peers
      ensures EntryFits(t, h)
    {
      assert h != handle ==> EntryFits(e, h);
    }
    forall h, k | h in t.peers && k in t.peers && h != k
      ensures t.peers[h].id != t.peers[k].id
    {
      assert h != handle ==> EntryFits(e, h);
      assert k != handle ==> EntryFits(e, k);
    }
  }

  lemma TakenElsewhereKeeps(e: Endpoint)
    requires Inv(e)
    ensures Inv(e.(nextPeer := e.nextPeer + 1))
  {
    var t := e.(nextPeer := e.nextPeer + 1);
    forall id
      ensures Fits(t, id)
    {
      assert Fits(e, id);
      assert Registered(e, id) ==> Registered(t, id);
    }
    forall h | h in t.peers
      ensures EntryFits(t, h)
    {
      assert EntryFits(e, h);
    }
  }

  lemma TakeKeepsQueue(e: Endpoint, capacity: nat)
    requires Queue(e)
    ensures Queue(Take(e, capacity))
  {
    if Answer(e, capacity).Got? {
      QueueBytesFront(e.options, e.events);
      FrontMoves(e.taken, e.events);
    }
  }

  lemma FrontMoves(taken: seq<Event>, events: seq<Event>)
    requires events != []
    ensures taken + [events[0]] + events[1..] == taken + events
  {
    assert events == [events[0]] + events[1..];
  }

  lemma TakeKeeps(e: Endpoint, capacity: nat)
    requires Inv(e)
    ensures Inv(Take(e, capacity))
  {
    TakeKeepsQueue(e, capacity);
    SameTable(e, Take(e, capacity));
  }

  lemma SameTable(e: Endpoint, t: Endpoint)
    requires Histories(e) && Entries(e)
    requires t.peers == e.peers && t.pushed == e.pushed && t.nextPeer == e.nextPeer && t.options == e.options
    requires t.stopped == e.stopped
    ensures Histories(t) && Entries(t)
  {
    forall id
      ensures Fits(t, id)
    {
      assert Fits(e, id);
      assert Registered(e, id) ==> Registered(t, id);
    }
    forall h | h in t.peers
      ensures EntryFits(t, h)
    {
      assert EntryFits(e, h);
    }
  }

  lemma OnStatusKeeps(e: Endpoint, handle: nat, c: Change, allocates: bool)
    requires Inv(e)
    ensures Inv(OnStatus(e, handle, c, allocates))
  {
    if handle !in e.peers {
      if c.Connecting? {
        OnConnectingKeeps(e, handle, c, allocates);
      }
    } else {
      match c
      case Connecting(_, _, _) =>
      case Up(encrypted) =>
        if !encrypted {
          DropKeeps(e, handle, allocates);
        } else if !e.peers[handle].connected {
          var peer := e.peers[handle];
          assert EntryFits(e, handle);
          ChangeKeeps(e, handle, Some(peer.(connected := true)), Event(Connected, peer.id, []), allocates);
        }
      case Down => DropKeeps(e, handle, allocates);
      case OtherChange =>
    }
  }

  lemma OnConnectingKeeps(e: Endpoint, handle: nat, c: Change, allocates: bool)
    requires Inv(e) && c.Connecting? && handle !in e.peers
    ensures Inv(OnConnecting(e, handle, c, allocates))
  {
    if !(e.stopped || |e.peers| >= e.options.maxPeers || !c.admissible) && c.configured {
      if NextPeerId(e).None? {
        StoppedKeeps(e, Overflow(e));
      } else if !allocates {
        TakenElsewhereKeeps(e);
        StoppedKeeps(e.(nextPeer := e.nextPeer + 1), Overflow(e.(nextPeer := e.nextPeer + 1)));
      } else {
        EnterKeeps(e, handle);
        DropKeeps(Enter(e, handle), handle, allocates);
      }
    }
  }

  lemma OnMessageKeeps(e: Endpoint, handle: nat, payload: Bytes, allocates: bool)
    requires Inv(e)
    ensures Inv(OnMessage(e, handle, payload, allocates))
  {
    if !e.stopped && handle in e.peers {
      var peer := e.peers[handle];
      if |payload| > e.options.maxMessage || !peer.connected {
        DropKeeps(e, handle, allocates);
      } else {
        assert EntryFits(e, handle);
        assert Changed(e, handle, Some(peer)) == e;
        ChangeKeeps(e, handle, Some(peer), Event(Message, peer.id, payload), allocates);
      }
    }
  }

  lemma ConnectKeeps(e: Endpoint, handle: nat, parsed: bool, native: bool, allocates: bool)
    requires Inv(e)
    ensures Inv(Connect(e, handle, parsed, native, allocates).endpoint)
  {
    TakenElsewhereKeeps(e);
    if Connect(e, handle, parsed, native, allocates).status == Ok {
      EnterKeeps(e, handle);
    }
  }

  lemma StepKeeps(e: Endpoint, a: Action)
    requires Inv(e)
    ensures Inv(Step(e, a))
  {
    match a
    case Connects(handle, parsed, native, allocates) => ConnectKeeps(e, handle, parsed, native, allocates);
    case StatusChanged(handle, change, allocates) => OnStatusKeeps(e, handle, change, allocates);
    case Received(handle, payload, allocates) => OnMessageKeeps(e, handle, payload, allocates);
    case ReceiveFailed =>
      if !e.stopped {
        StoppedKeeps(e, Overflow(e));
      }
    case Disconnects(handle, allocates) => DropKeeps(e, handle, allocates);
    case Polls(capacity) => TakeKeeps(e, capacity);
    case ShutsDown => StoppedKeeps(e, Shutdown(e));
    case PeerTakenElsewhere => TakenElsewhereKeeps(e);
  }

  lemma {:induction false} PlayKeeps(start: Endpoint, actions: seq<Action>)
    requires Inv(start)
    ensures Inv(Play(start, actions))
  {
    if actions != [] {
      PlayKeeps(start, actions[..|actions| - 1]);
      StepKeeps(Play(start, actions[..|actions| - 1]), actions[|actions| - 1]);
    }
  }

  lemma FreshKeeps(options: Options, nextPeer: nat)
    ensures Inv(Created(options, nextPeer))
  {
  }

  // ------------------------------------------------------------- main results

  lemma {:induction false} KindsPrefix(a: seq<Event>, b: seq<Event>, id: nat)
    ensures Kinds(a, id) <= Kinds(a + b, id)
  {
    if b == [] {
      assert a + b == a;
    } else {
      assert (a + b)[..|a + b| - 1] == a + b[..|b| - 1];
      KindsPrefix(a, b[..|b| - 1], id);
    }
  }

  lemma PrefixGrammatical(kinds: seq<Kind>, front: seq<Kind>)
    requires Grammatical(kinds) && front <= kinds
    ensures Grammatical(front)
  {
    assert front == kinds[..|front|];
    if kinds == [Disconnected] {
      assert front == [] || front == [Disconnected];
    }
  }

  /** In every run the events pushed for a peer id, and so the events a host has
      polled for it, read Connected, messages, at most one final Disconnected; or
      they are one Disconnected alone. */
  lemma EventGrammarHolds(options: Options, nextPeer: nat, actions: seq<Action>, id: nat)
    ensures
      var e := Play(Created(options, nextPeer), actions);
      && e.taken <= e.pushed
      && Grammatical(Kinds(e.pushed, id)) && Grammatical(Kinds(e.taken, id))
  {
    FreshKeeps(options, nextPeer);
    PlayKeeps(Created(options, nextPeer), actions);
    HistoryIsGrammatical(Play(Created(options, nextPeer), actions), id);
  }

  lemma HistoryIsGrammatical(e: Endpoint, id: nat)
    requires Inv(e)
    ensures e.taken <= e.pushed && Grammatical(Kinds(e.pushed, id)) && Grammatical(Kinds(e.taken, id))
  {
    assert Fits(e, id);
    GrammarByPhase(Kinds(e.pushed, id));
    TakenIsPushed(e);
    var rest := e.pushed[|e.taken|..];
    assert e.taken + rest == e.pushed;
    KindsPrefix(e.taken, rest, id);
    PrefixGrammatical(Kinds(e.pushed, id), Kinds(e.taken, id));
  }

  lemma TakenIsPushed(e: Endpoint)
    requires Queue(e)
    ensures e.taken <= e.pushed
  {
  }

  lemma PushGrows(e: Endpoint, event: Event, allocates: bool)
    ensures e.pushed <= Push(e, event, allocates).pushed
    ensures Push(e, event, allocates).nextPeer == e.nextPeer && Push(e, event, allocates).options == e.options
    ensures e.stopped ==> Push(e, event, allocates) == e
  {
  }

  // What later states share with earlier ones.
  ghost predicate Later(e: Endpoint, t: Endpoint)
  {
    && e.pushed <= t.pushed && e.nextPeer <= t.nextPeer && t.options == e.options
    && (e.stopped ==> t.stopped && t.pushed == e.pushed) && (e.overflow ==> t.overflow)
  }

  lemma DropGrows(e: Endpoint, handle: nat, allocates: bool)
    ensures Later(e, Drop(e, handle, allocates))
  {
    if handle in e.peers {
      PushGrows(Forget(e, handle), Event(Disconnected, e.peers[handle].id, []), allocates);
    }
  }

  lemma OnStatusGrows(e: Endpoint, handle: nat, c: Change, allocates: bool)
    ensures Later(e, OnStatus(e, handle, c, allocates))
  {
    DropGrows(e, handle, allocates);
    if handle !in e.peers {
      if c.Connecting? {
        DropGrows(Enter(e, handle), handle, allocates);
      }
    } else if c.Up? {
      var peer := e.peers[handle];
      PushGrows(e.(peers := e.peers[handle := peer.(connected := true)]), Event(Connected, peer.id, []), allocates);
    }
  }

  lemma StepGrows(e: Endpoint, a: Action)
    ensures Later(e, Step(e, a))
  {
    match a
    case Connects(_, _, _, _) =>
    case StatusChanged(handle, change, allocates) => OnStatusGrows(e, handle, change, allocates);
    case Received(handle, payload, allocates) =>
      DropGrows(e, handle, allocates);
      if handle in e.peers {
        PushGrows(e, Event(Message, e.peers[handle].id, payload), allocates);
      }
    case ReceiveFailed =>
    case Disconnects(handle, allocates) => DropGrows(e, handle, allocates);
    case Polls(_) =>
    case ShutsDown =>
    case PeerTakenElsewhere =>
  }

  lemma {:induction false} PlayGrows(start: Endpoint, actions: seq<Action>, more: seq<Action>)
    ensures Later(Play(start, actions), Play(start, actions + more))
  {
    if more == [] {
      assert actions + more == actions;
    } else {
      assert (actions + more)[..|actions + more| - 1] == actions + more[..|more| - 1];
      PlayGrows(start, actions, more[..|more| - 1]);
      StepGrows(Play(start, actions + more[..|more| - 1]), more[|more| - 1]);
    }
  }

  lemma EndedIsFinal(kinds: seq<Kind>, longer: seq<Kind>)
    requires Grammatical(longer) && kinds <= longer && kinds != [] && kinds[|kinds| - 1] == Disconnected
    ensures longer == kinds
  {
    assert longer[|kinds| - 1] == kinds[|kinds| - 1];
    assert longer[..|kinds|] == kinds;
  }

  /** Peer ids are never reused, even when the library reuses handles: once the
      Disconnected of an id has been pushed, no event for that id is ever pushed
      again. */
  lemma IdsAreNeverReused(options: Options, nextPeer: nat, actions: seq<Action>, more: seq<Action>, id: nat)
    requires
      var kinds := Kinds(Play(Created(options, nextPeer), actions).pushed, id);
      kinds != [] && kinds[|kinds| - 1] == Disconnected
    ensures Kinds(Play(Created(options, nextPeer), actions + more).pushed, id)
         == Kinds(Play(Created(options, nextPeer), actions).pushed, id)
  {
    var start := Created(options, nextPeer);
    PlayGrows(start, actions, more);
    EventGrammarHolds(options, nextPeer, actions + more, id);
    EndedStays(Play(start, actions).pushed, Play(start, actions + more).pushed, id);
  }

  lemma EndedStays(events: seq<Event>, longer: seq<Event>, id: nat)
    requires events <= longer && Grammatical(Kinds(longer, id))
    requires var kinds := Kinds(events, id); kinds != [] && kinds[|kinds| - 1] == Disconnected
    ensures Kinds(longer, id) == Kinds(events, id)
  {
    var rest := longer[|events|..];
    assert events + rest == longer;
    KindsPrefix(events, rest, id);
    EndedIsFinal(Kinds(events, id), Kinds(longer, id));
  }

  /** A successful connect returns an id that no event and no peer has had. */
  lemma ConnectGivesAFreshId(options: Options, nextPeer: nat, actions: seq<Action>, handle: nat, r: ConnectResult)
    requires r == Connect(Play(Created(options, nextPeer), actions), handle, true, true, true) && r.status == Ok
    ensures Kinds(Play(Created(options, nextPeer), actions).pushed, r.peer) == []
    ensures !Registered(Play(Created(options, nextPeer), actions), r.peer)
    ensures handle in r.endpoint.peers && r.endpoint.peers[handle] == Peer(r.peer, false)
  {
    FreshKeeps(options, nextPeer);
    PlayKeeps(Created(options, nextPeer), actions);
    ConnectEnters(Play(Created(options, nextPeer), actions), handle, r);
  }

  lemma ConnectEnters(e: Endpoint, handle: nat, r: ConnectResult)
    requires Inv(e) && r == Connect(e, handle, true, true, true) && r.status == Ok
    ensures Kinds(e.pushed, r.peer) == [] && !Registered(e, r.peer)
    ensures handle in r.endpoint.peers && r.endpoint.peers[handle] == Peer(r.peer, false)
  {
    NextIdIsFresh(e);
    assert r == ConnectResult(Enter(e, handle), Ok, PEER_BASE + e.nextPeer);
  }

  lemma NextIdIsFresh(e: Endpoint)
    requires Inv(e)
    ensures Kinds(e.pushed, PEER_BASE + e.nextPeer) == [] && !Registered(e, PEER_BASE + e.nextPeer)
  {
    var id := PEER_BASE + e.nextPeer;
    assert Fits(e, id);
    GrammarByPhase(Kinds(e.pushed, id));
    forall h | h in e.peers
      ensures e.peers[h].id != id
    {
      assert EntryFits(e, h);
    }
  }

  /** The limits hold in every run: the table, the queue, and the byte count, which
      is exactly the cost of what is queued. While the endpoint runs, what was
      polled and what is queued is what was pushed. */
  lemma LimitsHold(options: Options, nextPeer: nat, actions: seq<Action>)
    ensures
      var e := Play(Created(options, nextPeer), actions);
      && |e.peers| <= options.maxPeers && |e.events| <= options.maxCount
      && 0 <= e.eventBytes == QueueBytes(options, e.events) <= options.maxBytes
      && (!e.stopped ==> e.taken + e.events == e.pushed)
  {
    FreshKeeps(options, nextPeer);
    PlayKeeps(Created(options, nextPeer), actions);
    PlayGrows(Created(options, nextPeer), [], actions);
    assert [] + actions == actions;
  }

  /** Overflow empties the endpoint for good and is reported exactly once, before
      the end: after it the table and the queue are empty in every later state,
      nothing is pushed, and polls answer one overflow and then the end. */
  lemma OverflowIsTerminal(options: Options, nextPeer: nat, actions: seq<Action>, more: seq<Action>, capacity: nat)
    requires Play(Created(options, nextPeer), actions).overflow
    ensures
      var e := Play(Created(options, nextPeer), actions + more);
      && e.overflow && e.peers == map[] && e.events == [] && e.overflowsReported <= 1
      && e.pushed == Play(Created(options, nextPeer), actions).pushed
      && Answer(e, capacity) == (if e.overflowsReported == 1 then EndOfEvents else OverflowEvent)
  {
    FreshKeeps(options, nextPeer);
    PlayKeeps(Created(options, nextPeer), actions);
    PlayKeeps(Created(options, nextPeer), actions + more);
    PlayGrows(Created(options, nextPeer), actions, more);
  }

  // -------------------------------------------------- what each step comes to

  // The endpoint runs, and what its host has not polled leaves room for an event.
  predicate Takes(e: Endpoint, payload: Bytes, allocates: bool)
  {
    && !e.stopped && |e.taken| <= |e.pushed| < |e.taken| + e.options.maxCount
    && QueueBytes(e.options, e.pushed[|e.taken|..]) + e.options.eventSize + |payload| <= e.options.maxBytes && allocates
  }

  lemma PushTells(e: Endpoint, event: Event, allocates: bool)
    requires Queue(e) && !e.stopped
    ensures Push(e, event, allocates)
         == if Takes(e, event.payload, allocates) then
              e.(events := e.events + [event], eventBytes := e.eventBytes + e.options.eventSize + |event.payload|,
                 pushed := e.pushed + [event])
            else Overflow(e)
  {
    assert e.pushed[|e.taken|..] == e.events;
  }

  // The payloads of the messages of a peer, in order.
  function MessagesOf(events: seq<Event>, id: nat): seq<Bytes>
  {
    if events == [] then []
    else
      var last := events[|events| - 1];
      MessagesOf(events[..|events| - 1], id) + if last.peer == id && last.kind == Message then [last.payload] else []
  }

  // The handle is that of a peer that is up.
  predicate IsUp(e: Endpoint, handle: nat, id: nat)
  {
    handle in e.peers && e.peers[handle] == Peer(id, true)
  }

  // What the library has handed over for a peer while it was up, within the size
  // limit, and while the queue took it.
  function Heard(start: Endpoint, actions: seq<Action>, id: nat): seq<Bytes>
  {
    if actions == [] then []
    else
      var front, last := actions[..|actions| - 1], actions[|actions| - 1];
      Heard(start, front, id) + if Hears(Play(start, front), last, id) then [last.payload] else []
  }

  predicate Hears(e: Endpoint, a: Action, id: nat)
  {
    && a.Received? && IsUp(e, a.handle, id) && |a.payload| <= e.options.maxMessage
    && Takes(e, a.payload, a.allocates)
  }

  lemma PushedMessage(e: Endpoint, event: Event, allocates: bool, id: nat)
    requires Queue(e)
    ensures
      var taken := Takes(e, event.payload, allocates) && event.peer == id && event.kind == Message;
      MessagesOf(Push(e, event, allocates).pushed, id)
        == MessagesOf(e.pushed, id) + if taken then [event.payload] else []
  {
    assert MessagesOf(e.pushed, id) + [] == MessagesOf(e.pushed, id);
    if !e.stopped {
      PushTells(e, event, allocates);
      assert (e.pushed + [event])[..|e.pushed|] == e.pushed;
    }
  }

  lemma DroppedMessages(e: Endpoint, handle: nat, allocates: bool, id: nat)
    requires Queue(e)
    ensures MessagesOf(Drop(e, handle, allocates).pushed, id) == MessagesOf(e.pushed, id)
  {
    if handle in e.peers {
      PushedMessage(Forget(e, handle), Event(Disconnected, e.peers[handle].id, []), allocates, id);
      assert MessagesOf(e.pushed, id) + [] == MessagesOf(e.pushed, id);
    }
  }

  lemma StatusMessages(e: Endpoint, handle: nat, c: Change, allocates: bool, id: nat)
    requires Queue(e)
    ensures MessagesOf(OnStatus(e, handle, c, allocates).pushed, id) == MessagesOf(e.pushed, id)
  {
    if handle !in e.peers {
      if c.Connecting? {
        ConnectingMessages(e, handle, c, allocates, id);
      }
    } else {
      DroppedMessages(e, handle, allocates, id);
      var peer := e.peers[handle];
      var up := e.(peers := e.peers[handle := peer.(connected := true)]);
      PushedMessage(up, Event(Connected, peer.id, []), allocates, id);
      assert MessagesOf(e.pushed, id) + [] == MessagesOf(e.pushed, id);
    }
  }

  lemma ConnectingMessages(e: Endpoint, handle: nat, c: Change, allocates: bool, id: nat)
    requires Queue(e) && c.Connecting? && handle !in e.peers
    ensures MessagesOf(OnConnecting(e, handle, c, allocates).pushed, id) == MessagesOf(e.pushed, id)
  {
    DroppedMessages(Enter(e, handle), handle, allocates, id);
  }

  lemma StepHears(e: Endpoint, a: Action, id: nat)
    requires Inv(e)
    ensures MessagesOf(Step(e, a).pushed, id)
         == MessagesOf(e.pushed, id) + if Hears(e, a, id) then [a.payload] else []
  {
    assert MessagesOf(e.pushed, id) + [] == MessagesOf(e.pushed, id);
    match a
    case Connects(_, _, _, _) =>
    case StatusChanged(handle, change, allocates) => StatusMessages(e, handle, change, allocates, id);
    case Received(handle, payload, allocates) =>
      DroppedMessages(e, handle, allocates, id);
      if handle in e.peers {
        PushedMessage(e, Event(Message, e.peers[handle].id, payload), allocates, id);
      }
    case ReceiveFailed =>
    case Disconnects(handle, allocates) => DroppedMessages(e, handle, allocates, id);
    case Polls(_) =>
    case ShutsDown =>
    case PeerTakenElsewhere =>
  }

  lemma {:induction false} HeardArrives(start: Endpoint, actions: seq<Action>, id: nat)
    requires Inv(start) && start.pushed == []
    ensures MessagesOf(Play(start, actions).pushed, id) == Heard(start, actions, id)
  {
    if actions != [] {
      HeardArrives(start, actions[..|actions| - 1], id);
      PlayKeeps(start, actions[..|actions| - 1]);
      StepHears(Play(start, actions[..|actions| - 1]), actions[|actions| - 1], id);
    }
  }

  lemma {:induction false} MessagesPrefix(events: seq<Event>, more: seq<Event>, id: nat)
    ensures MessagesOf(events, id) <= MessagesOf(events + more, id)
  {
    if more == [] {
      assert events + more == events;
    } else {
      assert (events + more)[..|events + more| - 1] == events + more[..|more| - 1];
      MessagesPrefix(events, more[..|more| - 1], id);
    }
  }

  /** Nothing is altered on the way to the host: the messages pushed for a peer are, in
      order and byte for byte, those the library handed over for it while it was up and
      the queue took them, and the ones polled are an initial part of them. */
  lemma MessagesArrive(options: Options, nextPeer: nat, actions: seq<Action>, id: nat)
    ensures
      var start := Created(options, nextPeer);
      var e := Play(start, actions);
      MessagesOf(e.pushed, id) == Heard(start, actions, id) && MessagesOf(e.taken, id) <= Heard(start, actions, id)
  {
    FreshKeeps(options, nextPeer);
    HeardArrives(Created(options, nextPeer), actions, id);
    PlayKeeps(Created(options, nextPeer), actions);
    TakenMessages(Play(Created(options, nextPeer), actions), id);
  }

  lemma TakenMessages(e: Endpoint, id: nat)
    requires Inv(e)
    ensures MessagesOf(e.taken, id) <= MessagesOf(e.pushed, id)
  {
    TakenIsPushed(e);
    assert e.taken + e.pushed[|e.taken|..] == e.pushed;
    MessagesPrefix(e.taken, e.pushed[|e.taken|..], id);
  }

  /** What a poll answers while the endpoint runs: the first event pushed and not
      polled goes to any buffer that holds its payload, and there is no event exactly
      when all of them have been polled. */
  lemma PollAnswers(e: Endpoint, capacity: nat)
    requires Inv(e) && !e.stopped
    ensures |e.taken| <= |e.pushed|
    ensures |e.taken| == |e.pushed| ==> Answer(e, capacity) == NoEvent && Take(e, capacity) == e
    ensures |e.taken| < |e.pushed| ==>
              var event, t := e.pushed[|e.taken|], Take(e, capacity);
              if |event.payload| <= capacity
              then Answer(e, capacity) == Got(event) && t.taken == e.taken + [event] && t.pushed == e.pushed
              else Answer(e, capacity) == TooSmall(event) && t == e
  {
    assert e.pushed[|e.taken|..] == e.events;
  }

  /** A stopped endpoint answers its one overflow, if it stopped by overflowing, and
      then only the end. */
  lemma StoppedAnswers(e: Endpoint, capacity: nat)
    requires e.stopped
    ensures Answer(e, capacity) == if e.overflow && !e.reported then OverflowEvent else EndOfEvents
    ensures e.overflow && !e.reported ==> Take(e, capacity) == e.(reported := true, overflowsReported := e.overflowsReported + 1)
  {
  }

  // The peer has left the table, and its host is told when the queue takes it.
  predicate Dropped(e: Endpoint, t: Endpoint, handle: nat, allocates: bool)
    requires handle in e.peers
  {
    if Takes(e, [], allocates) then
      t.peers == e.peers - {handle} && t.pushed == e.pushed + [Event(Disconnected, e.peers[handle].id, [])] && !t.stopped
    else t == Overflow(e.(peers := e.peers - {handle}))
  }

  lemma DropTells(e: Endpoint, handle: nat, allocates: bool)
    requires Queue(e) && !e.stopped && handle in e.peers
    ensures Dropped(e, Drop(e, handle, allocates), handle, allocates)
  {
    PushTells(Forget(e, handle), Event(Disconnected, e.peers[handle].id, []), allocates);
  }

  /** What a peer of the table comes to: it is up, and its host told, when the library
      says so of an encrypted connection for the first time; it is dropped when the
      connection is not encrypted, goes down, sends a message that is too long or too
      early, or is disconnected. */
  lemma PeerAnswers(e: Endpoint, handle: nat, allocates: bool)
    requires Inv(e) && !e.stopped && handle in e.peers
    ensures Dropped(e, Step(e, StatusChanged(handle, Up(false), allocates)), handle, allocates)
    ensures Dropped(e, Step(e, StatusChanged(handle, Down, allocates)), handle, allocates)
    ensures Dropped(e, Step(e, Disconnects(handle, allocates)), handle, allocates)
    ensures e.peers[handle].connected ==> Step(e, StatusChanged(handle, Up(true), allocates)) == e
    ensures !e.peers[handle].connected && !Takes(e, [], allocates) ==>
              Step(e, StatusChanged(handle, Up(true), allocates)).overflow
    ensures !e.peers[handle].connected && Takes(e, [], allocates) ==>
              var t := Step(e, StatusChanged(handle, Up(true), allocates));
              && !t.stopped && t.peers == e.peers[handle := Peer(e.peers[handle].id, true)]
              && t.pushed == e.pushed + [Event(Connected, e.peers[handle].id, [])]
  {
    DropTells(e, handle, allocates);
    var peer := e.peers[handle];
    PushTells(e.(peers := e.peers[handle := peer.(connected := true)]), Event(Connected, peer.id, []), allocates);
  }

  lemma MessageAnswers(e: Endpoint, handle: nat, payload: Bytes, allocates: bool)
    requires Inv(e) && !e.stopped && handle in e.peers
    requires |payload| > e.options.maxMessage || !e.peers[handle].connected
    ensures Dropped(e, Step(e, Received(handle, payload, allocates)), handle, allocates)
  {
    DropTells(e, handle, allocates);
  }

  /** A connection comes into the table under the next id exactly when the endpoint
      runs, the table has room, the address may connect and the configuration took,
      and there are an id and memory for it. */
  lemma ConnectionAnswers(e: Endpoint, handle: nat, c: Change, allocates: bool)
    requires Inv(e) && handle !in e.peers && c.Connecting? && c.accepted
    ensures
      var t := Step(e, StatusChanged(handle, c, allocates));
      var admitted := !e.stopped && |e.peers| < e.options.maxPeers && c.admissible && c.configured;
      && (handle in t.peers <==> admitted && e.nextPeer <= LAST_PEER && allocates)
      && (handle in t.peers ==> t.peers == e.peers[handle := Peer(PEER_BASE + e.nextPeer, false)] && t.pushed == e.pushed)
      && (!admitted ==> t == e)
  {
  }

  /** One that is let in but not accepted uses up an id, and its host is told that it
      ended. */
  lemma RefusedConnectionAnswers(e: Endpoint, handle: nat, c: Change)
    requires Inv(e) && handle !in e.peers && c.Connecting? && !c.accepted && e.nextPeer <= LAST_PEER
    requires !e.stopped && |e.peers| < e.options.maxPeers && c.admissible && c.configured
    ensures
      var t := Step(e, StatusChanged(handle, c, true));
      && t.nextPeer == e.nextPeer + 1
      && if Takes(e, [], true) then
           t.peers == e.peers && t.pushed == e.pushed + [Event(Disconnected, PEER_BASE + e.nextPeer, [])]
         else t.overflow && t.pushed == e.pushed
  {
    var entered := Enter(e, handle);
    assert entered.peers - {handle} == e.peers;
    PushTells(Forget(entered, handle), Event(Disconnected, PEER_BASE + e.nextPeer, []), true);
  }

  lemma ConnectAnswers(e: Endpoint, handle: nat, parsed: bool, native: bool, allocates: bool)
    requires Inv(e)
    ensures
      var r := Connect(e, handle, parsed, native, allocates);
      && (r.status == Stopped <==> e.stopped)
      && (r.status == InvalidArgument <==> !e.stopped && !parsed)
      && (r.status == Backpressure <==> !e.stopped && parsed && |e.peers| >= e.options.maxPeers)
      && (r.status == IoError <==> !e.stopped && parsed && |e.peers| < e.options.maxPeers && !native)
      && (r.status == Ok <==>
            && !e.stopped && parsed && |e.peers| < e.options.maxPeers && native
            && e.nextPeer <= LAST_PEER && handle !in e.peers && allocates)
      && (r.status == Ok ==> r.endpoint.peers == e.peers[handle := Peer(r.peer, false)] && r.peer == PEER_BASE + e.nextPeer)
      && (r.status != Ok ==> r.endpoint.peers == e.peers)
  {
  }

  // ------------------------------------------------------- the imperative form

  // The counter of the runtime.
  class PeerIds {
    var next: nat

    constructor ()
      ensures next == 1
    {
      next := 1;
    }

    method Allocate() returns (id: Option<nat>)
      modifies this
      ensures id == if old(next) > LAST_PEER then None else Some(PEER_BASE + old(next))
      ensures next == if id.Some? then old(next) + 1 else old(next)
    {
      if next > LAST_PEER {
        return None;
      }
      id := Some(PEER_BASE + next);
      next := next + 1;
    }
  }

  // What the library hands over in one receive call.
  datatype Arrival = Handed(handle: nat, payload: Bytes, allocates: bool) | Failure

  function ActionOf(a: Arrival): Action
  {
    match a
    case Handed(handle, payload, allocates) => Received(handle, payload, allocates)
    case Failure => ReceiveFailed
  }

  function Handling(arrivals: seq<Arrival>): seq<Action>
  {
    seq(|arrivals|, i requires 0 <= i < |arrivals| => ActionOf(arrivals[i]))
  }

  lemma HandlingOneMore(start: Endpoint, arrivals: seq<Arrival>, i: nat)
    requires i < |arrivals|
    ensures Play(start, Handling(arrivals[..i + 1])) == Step(Play(start, Handling(arrivals[..i])), ActionOf(arrivals[i]))
  {
    assert Handling(arrivals[..i + 1])[..i] == Handling(arrivals[..i]);
  }

  class DatagramEndpoint {
    const id: nat // its handle in the registry
    const options: Options
    const ids: PeerIds
    var peers: map<nat, Peer>
    var events: seq<Event>
    var eventBytes: int
    var stopped: bool
    var overflow: bool
    var overflowReported: bool
    ghost var pushed: seq<Event>
    ghost var taken: seq<Event>
    ghost var overflows: nat

    ghost function Model(): Endpoint
      reads this, ids
    {
      Endpoint(options, ids.next, peers, events, eventBytes, stopped, overflow, overflowReported,
               pushed, taken, overflows)
    }

    // The endpoint without the counter it shares.
    ghost function State(): (e: Endpoint)
      reads this
    {
      Endpoint(options, 0, peers, events, eventBytes, stopped, overflow, overflowReported, pushed, taken, overflows)
    }

    constructor (id: nat, options: Options, ids: PeerIds)
      ensures this.id == id && this.ids == ids && Model() == Created(options, ids.next)
    {
      this.id, this.options, this.ids := id, options, ids;
      peers, events, eventBytes := map[], [], 0;
      stopped, overflow, overflowReported := false, false, false;
      pushed, taken, overflows := [], [], 0;
    }

    method ShutDown()
      modifies this`stopped, this`peers, this`events, this`eventBytes
      ensures Model() == Shutdown(old(Model()))
    {
      stopped := true;
      peers := map[];
      events := [];
      eventBytes := 0;
    }

    method Overflowed()
      modifies this`overflow, this`stopped, this`peers, this`events, this`eventBytes
      ensures Model() == Overflow(old(Model()))
    {
      overflow := true;
      ShutDown();
    }

    method PushEvent(event: Event, allocates: bool)
      modifies this
      ensures Model() == Push(old(Model()), event, allocates)
    {
      if stopped {
        return;
      }
      var cost := options.eventSize + |event.payload|;
      if |events| >= options.maxCount || cost > options.maxBytes - eventBytes || !allocates {
        Overflowed();
        return;
      }
      events := events + [event];
      eventBytes := eventBytes + cost;
      pushed := pushed + [event];
    }

    method TakeNext(capacity: nat) returns (reply: Reply)
      modifies this
      ensures reply == Answer(old(Model()), capacity)
      ensures Model() == Take(old(Model()), capacity)
      ensures stopped == old(stopped) && (reply == NoEvent ==> unchanged(this))
    {
      if overflow && !overflowReported {
        overflowReported := true;
        overflows := overflows + 1;
        return OverflowEvent;
      }
      if stopped {
        return EndOfEvents;
      }
      if events == [] {
        return NoEvent;
      }
      var event := events[0];
      if |event.payload| > capacity {
        return TooSmall(event);
      }
      eventBytes := eventBytes - (options.eventSize + |event.payload|);
      events := events[1..];
      taken := taken + [event];
      return Got(event);
    }

    method DropPeer(handle: nat, allocates: bool)
      modifies this
      ensures Model() == Drop(old(Model()), handle, allocates)
    {
      if handle !in peers {
        return;
      }
      var event := Event(Disconnected, peers[handle].id, []);
      peers := peers - {handle};
      PushEvent(event, allocates);
    }

    method OnConnectingChange(handle: nat, c: Change, allocates: bool)
      requires c.Connecting? && handle !in peers
      modifies this, ids
      ensures Model() == OnConnecting(old(Model()), handle, c, allocates)
    {
      if stopped || |peers| >= options.maxPeers || !c.admissible || !c.configured {
        return;
      }
      var id := ids.Allocate();
      if id.None? {
        Overflowed();
        return;
      }
      if !allocates {
        Overflowed();
        return;
      }
      peers := peers[handle := Peer(id.value, false)];
      if !c.accepted {
        DropPeer(handle, allocates);
      }
    }

    method OnStatusChange(handle: nat, c: Change, allocates: bool)
      modifies this, ids
      ensures Model() == OnStatus(old(Model()), handle, c, allocates)
    {
      if handle !in peers {
        if c.Connecting? {
          OnConnectingChange(handle, c, allocates);
        }
        return;
      }
      match c
      case Connecting(_, _, _) =>
      case Up(encrypted) =>
        if !encrypted {
          DropPeer(handle, allocates);
        } else if !peers[handle].connected {
          var peer := peers[handle];
          peers := peers[handle := peer.(connected := true)];
          PushEvent(Event(Connected, peer.id, []), allocates);
        }
      case Down => DropPeer(handle, allocates);
      case OtherChange =>
    }

    method HandleMessage(handle: nat, payload: Bytes, allocates: bool)
      modifies this
      ensures Model() == OnMessage(old(Model()), handle, payload, allocates)
    {
      if stopped || handle !in peers {
        return;
      }
      if |payload| > options.maxMessage || !peers[handle].connected {
        DropPeer(handle, allocates);
        return;
      }
      PushEvent(Event(Message, peers[handle].id, payload), allocates);
    }

    // One pump: up to 64 receive calls, fewer when nothing is left to receive or
    // when the endpoint stops on the way.
    method Receive(arrivals: seq<Arrival>) returns (handled: nat)
      modifies this
      ensures handled <= RECEIVE_BUDGET && handled <= |arrivals|
      ensures handled < RECEIVE_BUDGET && handled < |arrivals| ==> stopped
      ensures Model() == Play(old(Model()), Handling(arrivals[..handled]))
    {
      handled := 0;
      while handled < RECEIVE_BUDGET && !stopped && handled < |arrivals|
        invariant handled <= RECEIVE_BUDGET && handled <= |arrivals|
        invariant Model() == Play(old(Model()), Handling(arrivals[..handled]))
        decreases |arrivals| - handled
      {
        HandlingOneMore(old(Model()), arrivals, handled);
        ghost var before := Model();
        match arrivals[handled] {
          case Handed(handle, payload, allocates) => HandleMessage(handle, payload, allocates);
          case Failure => Overflowed();
        }
        assert Model() == Step(before, ActionOf(arrivals[handled]));
        handled := handled + 1;
      }
    }

    method ConnectPeer(handle: nat, parsed: bool, native: bool, allocates: bool) returns (status: Status, peer: nat)
      modifies this`peers, ids
      ensures ConnectResult(Model(), status, peer) == Connect(old(Model()), handle, parsed, native, allocates)
    {
      peer := 0;
      if stopped {
        return Stopped, 0;
      }
      if !parsed {
        return InvalidArgument, 0;
      }
      if |peers| >= options.maxPeers {
        return Backpressure, 0;
      }
      if !native {
        return IoError, 0;
      }
      var id := ids.Allocate();
      if id.None? || handle in peers || !allocates {
        return InternalError, 0;
      }
      peers := peers[handle := Peer(id.value, false)];
      return Ok, id.value;
    }

    method FindPeer(id: nat) returns (handle: Option<nat>)
      ensures handle.Some? ==> handle.value in peers && peers[handle.value].id == id
      ensures handle.None? <==> !Registered(Model(), id)
    {
      var left := peers.Keys;
      while left != {}
        invariant left <= peers.Keys
        invariant forall h :: h in peers && h !in left ==> peers[h].id != id
      {
        var h :| h in left;
        if peers[h].id == id {
          return Some(h);
        }
        left := left - {h};
      }
      return None;
    }

    method DisconnectPeer(id: nat, allocates: bool) returns (status: Status, ghost found: nat)
      modifies this
      ensures status == if old(stopped) then Stopped else if Registered(old(Model()), id) then Ok else InvalidHandle
      ensures status != Ok ==> Model() == old(Model())
      ensures status == Ok ==> found in old(peers) && old(peers)[found].id == id
      ensures status == Ok ==> Model() == Step(old(Model()), Disconnects(found, allocates))
    {
      found := 0;
      if stopped {
        status := Stopped;
        return;
      }
      var handle := FindPeer(id);
      if handle.None? {
        status := InvalidHandle;
        return;
      }
      found := handle.value;
      DropPeer(handle.value, allocates);
      status := Ok;
    }
  }
}
