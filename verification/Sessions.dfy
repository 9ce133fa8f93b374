/** Sessions of the runtime: the hub that all TCP listeners share and the map from
    connections to sessions that each of them keeps (src/Runtime/TcpListener.cpp,
    SessionRegistry.cpp, ConnectionHub.cpp).

    Callbacks of different connections interleave; the hub, admission and each map
    have a mutex of their own, so the steps are the sections under one of them. The
    transport orders the callbacks of one connection, as CallbackOrder shows of the
    IOCP backend. */
module Sessions {
  import opened Prelude
  import Iocp = IocpCallbacks

  // Connection ids are unique only inside their listener.
  datatype Key = Key(listener: nat, connection: nat)

  // How far the callbacks of a connection have come.
  datatype Stage =
    | Fresh
    | Admitting         // on_connected, before the admission
    | Holding(id: nat)  // on_connected, added to the hub but not to the map
    | Finishing         // on_connected, the rest
    | Connected
    | Releasing(id: nat) // on_disconnected, out of the map but still in the hub
    | Gone

  // hub says which connection a session was made for.
  datatype State = State(maxSessions: nat, nextId: nat, hub: map<nat, Key>, sessions: map<Key, nat>,
                         stages: map<Key, Stage>, stopped: set<nat>)

  function Started(maxSessions: nat): State
  {
    State(maxSessions, 1, map[], map[], map[], {})
  }

  function StageOf(s: State, key: Key): Stage
  {
    if key in s.stages then s.stages[key] else Fresh
  }

  datatype Action =
    | BeginConnect(key: Key)
    | TryAdd(key: Key, running: bool)
    | Emplace(key: Key)
    | EndConnect(key: Key)
    | Disconnect(key: Key)
    | Release(key: Key)
    | StopTransport(listener: nat)
    | Clean(key: Key)

  predicate InCallback(stage: Stage)
  {
    stage == Admitting || stage.Holding? || stage == Finishing || stage.Releasing?
  }

  // A transport stops only once its callbacks have returned.
  predicate Quiet(s: State, listener: nat)
  {
    forall key :: key in s.stages && key.listener == listener ==> !InCallback(s.stages[key])
  }

  function At(s: State, key: Key, stage: Stage): State { s.(stages := s.stages[key := stage]) }

  function Step(s: State, a: Action): State
  {
    match a
    case BeginConnect(key) =>
      if StageOf(s, key) == Fresh && key.listener !in s.stopped then At(s, key, Admitting) else s
    case TryAdd(key, running) =>
      if StageOf(s, key) != Admitting then s
      else if running && |s.hub| < s.maxSessions then
        At(s.(hub := s.hub[s.nextId := key], nextId := s.nextId + 1), key, Holding(s.nextId))
      else At(s, key, Finishing)
    case Emplace(key) =>
      if !StageOf(s, key).Holding? then s
      else
        At(if key in s.sessions then s else s.(sessions := s.sessions[key := StageOf(s, key).id]), key, Finishing)
    case EndConnect(key) => if StageOf(s, key) == Finishing then At(s, key, Connected) else s
    case Disconnect(key) =>
      if StageOf(s, key) != Connected || key.listener in s.stopped then s
      else if key in s.sessions then At(s.(sessions := s.sessions - {key}), key, Releasing(s.sessions[key]))
      else At(s, key, Gone)
    case Release(key) =>
      if !StageOf(s, key).Releasing? then s
      else At(s.(hub := s.hub - {StageOf(s, key).id}), key, Gone)
    case StopTransport(listener) => if Quiet(s, listener) then s.(stopped := s.stopped + {listener}) else s
    case Clean(key) =>
      if key.listener !in s.stopped || key !in s.sessions then s
      else At(s.(hub := s.hub - {s.sessions[key]}, sessions := s.sessions - {key}), key, Gone)
  }

  function Play(maxSessions: nat, actions: seq<Action>): State
  {
    if actions == [] then Started(maxSessions)
    else Step(Play(maxSessions, actions[..|actions| - 1]), actions[|actions| - 1])
  }

  // ---------------------------------------------------------------- invariant

  // The session a connection answers for: in its map, or in transit in a callback.
  function Token(s: State, key: Key): Option<nat>
  {
    if key in s.sessions then Some(s.sessions[key])
    else
      match StageOf(s, key)
      case Holding(id) => Some(id)
      case Releasing(id) => Some(id)
      case _ => None
  }

  predicate Placed(s: State, key: Key)
  {
    && (key in s.sessions ==> StageOf(s, key) == Finishing || StageOf(s, key) == Connected)
    && (key.listener in s.stopped ==> !InCallback(StageOf(s, key)))
    && (Token(s, key).Some? ==> Token(s, key).value in s.hub && s.hub[Token(s, key).value] == key)
  }

  ghost predicate Inv(s: State)
  {
    && (forall key :: Placed(s, key))
    && (forall id :: id in s.hub ==> 0 < id < s.nextId && Token(s, s.hub[id]) == Some(id))
    && |s.hub| <= s.maxSessions
    && s.nextId > 0
  }

  // A step at one connection.
  lemma OneConnection(s: State, t: State, key: Key)
    requires Inv(s) && Placed(t, key) && t.maxSessions == s.maxSessions && t.stopped == s.stopped
    requires s.nextId <= t.nextId
    requires forall other :: other != key ==> StageOf(t, other) == StageOf(s, other)
    requires t.sessions - {key} == s.sessions - {key}
    requires forall id :: id in s.hub && s.hub[id] != key ==> id in t.hub && t.hub[id] == s.hub[id]
    requires forall id :: id in t.hub && t.hub[id] != key ==> id in s.hub && t.hub[id] == s.hub[id]
    requires forall id :: id in t.hub && t.hub[id] == key ==> 0 < id < t.nextId && Token(t, key) == Some(id)
    requires |t.hub| <= t.maxSessions
    ensures Inv(t)
  {
    forall other | other != key
      ensures Placed(t, other) && Token(t, other) == Token(s, other)
    {
      OtherConnection(s, t, key, other);
    }
  }

  lemma OtherConnection(s: State, t: State, key: Key, other: Key)
    requires Placed(s, other) && other != key && t.stopped == s.stopped
    requires StageOf(t, other) == StageOf(s, other) && t.sessions - {key} == s.sessions - {key}
    requires forall id :: id in s.hub && s.hub[id] != key ==> id in t.hub && t.hub[id] == s.hub[id]
    ensures Placed(t, other) && Token(t, other) == Token(s, other)
  {
    assert other in t.sessions <==> other in t.sessions - {key};
    assert other in s.sessions <==> other in s.sessions - {key};
    if other in t.sessions {
      assert t.sessions[other] == (t.sessions - {key})[other] == (s.sessions - {key})[other] == s.sessions[other];
    }
  }

  lemma HubSmaller(hub: map<nat, Key>, id: nat)
    ensures |hub - {id}| <= |hub|
  {
    assert (hub - {id}).Keys == hub.Keys - {id};
  }

  lemma HubLarger(hub: map<nat, Key>, id: nat, key: Key)
    requires id !in hub
    ensures |hub[id := key]| == |hub| + 1
  {
    assert hub[id := key].Keys == hub.Keys + {id};
  }

  lemma TryAddKeeps(s: State, key: Key, running: bool)
    requires Inv(s)
    ensures Inv(Step(s, TryAdd(key, running)))
  {
    var t := Step(s, TryAdd(key, running));
    assert Placed(s, key);
    if t != s {
      if t.nextId != s.nextId {
        assert s.nextId !in s.hub;
        HubLarger(s.hub, s.nextId, key);
      }
      OneConnection(s, t, key);
    }
  }

  lemma EmplaceKeeps(s: State, key: Key)
    requires Inv(s)
    ensures Inv(Step(s, Emplace(key)))
  {
    assert Placed(s, key);
    if StageOf(s, key).Holding? {
      OneConnection(s, Step(s, Emplace(key)), key);
    }
  }

  lemma DisconnectKeeps(s: State, key: Key)
    requires Inv(s)
    ensures Inv(Step(s, Disconnect(key)))
  {
    assert Placed(s, key);
    if Step(s, Disconnect(key)) != s {
      OneConnection(s, Step(s, Disconnect(key)), key);
    }
  }

  // A connection answers for one session only.
  lemma OneToken(s: State, key: Key, id: nat)
    requires Inv(s) && Token(s, key) == Some(id)
    ensures forall other :: other in s.hub && s.hub[other] == key ==> other == id
  {
    forall other | other in s.hub && s.hub[other] == key
      ensures other == id
    {
      assert Token(s, s.hub[other]) == Some(other);
    }
  }

  // The session of a connection leaves the hub together with the connection.
  lemma LeaveKeeps(s: State, key: Key, id: nat)
    requires Inv(s) && Token(s, key) == Some(id)
    ensures Inv(At(s.(hub := s.hub - {id}, sessions := s.sessions - {key}), key, Gone))
  {
    assert Placed(s, key);
    HubSmaller(s.hub, id);
    OneToken(s, key, id);
    OneConnection(s, At(s.(hub := s.hub - {id}, sessions := s.sessions - {key}), key, Gone), key);
  }

  lemma ReleaseKeeps(s: State, key: Key)
    requires Inv(s)
    ensures Inv(Step(s, Release(key)))
  {
    assert Placed(s, key);
    if StageOf(s, key).Releasing? {
      LeaveKeeps(s, key, StageOf(s, key).id);
      assert s.sessions - {key} == s.sessions;
    }
  }

  lemma CleanKeeps(s: State, key: Key)
    requires Inv(s)
    ensures Inv(Step(s, Clean(key)))
  {
    if Step(s, Clean(key)) != s {
      LeaveKeeps(s, key, s.sessions[key]);
    }
  }

  lemma MoveKeeps(s: State, a: Action)
    requires Inv(s) && (a.BeginConnect? || a.EndConnect?)
    ensures Inv(Step(s, a))
  {
    assert Placed(s, a.key);
    if Step(s, a) != s {
      OneConnection(s, Step(s, a), a.key);
    }
  }

  lemma StopTransportKeeps(s: State, listener: nat)
    requires Inv(s)
    ensures Inv(Step(s, StopTransport(listener)))
  {
    var t := Step(s, StopTransport(listener));
    forall key
      ensures Placed(t, key) && Token(t, key) == Token(s, key)
    {
      assert Placed(s, key);
    }
  }

  lemma StepKeeps(s: State, a: Action)
    requires Inv(s)
    ensures Inv(Step(s, a))
  {
    match a
    case BeginConnect(_) => MoveKeeps(s, a);
    case TryAdd(key, running) => TryAddKeeps(s, key, running);
    case Emplace(key) => EmplaceKeeps(s, key);
    case EndConnect(_) => MoveKeeps(s, a);
    case Disconnect(key) => DisconnectKeeps(s, key);
    case Release(key) => ReleaseKeeps(s, key);
    case StopTransport(listener) => StopTransportKeeps(s, listener);
    case Clean(key) => CleanKeeps(s, key);
  }

  lemma {:induction false} PlayKeeps(maxSessions: nat, actions: seq<Action>)
    ensures Inv(Play(maxSessions, actions)) && Play(maxSessions, actions).maxSessions == maxSessions
  {
    if actions != [] {
      PlayKeeps(maxSessions, actions[..|actions| - 1]);
      StepKeeps(Play(maxSessions, actions[..|actions| - 1]), actions[|actions| - 1]);
      StepGrows(Play(maxSessions, actions[..|actions| - 1]), actions[|actions| - 1]);
    }
  }

  lemma StepGrows(s: State, a: Action)
    ensures Step(s, a).maxSessions == s.maxSessions && s.nextId <= Step(s, a).nextId
    ensures forall id :: id in Step(s, a).hub && id !in s.hub ==> id == s.nextId && id < Step(s, a).nextId
  {
    match a
    case BeginConnect(_) =>
    case TryAdd(_, _) =>
    case Emplace(_) =>
    case EndConnect(_) =>
    case Disconnect(_) =>
    case Release(_) =>
    case StopTransport(_) =>
    case Clean(_) =>
  }

  // ------------------------------------------------------------- main results

  /** The hub is the disjoint union of the listeners' maps and the sessions in
      transit inside a callback: each session in it belongs to exactly the one
      connection it was made for, and each session a connection answers for is in
      it. There are never more than the limit. */
  lemma HubIsTheUnion(maxSessions: nat, actions: seq<Action>, id: nat, key: Key)
    ensures
      var s := Play(maxSessions, actions);
      && |s.hub| <= maxSessions
      && (Token(s, key) == Some(id) <==> id in s.hub && s.hub[id] == key)
      && (id in s.hub ==> Token(s, s.hub[id]) == Some(id))
  {
    PlayKeeps(maxSessions, actions);
    assert Placed(Play(maxSessions, actions), key);
  }

  /** Nothing leaks while the listeners run: a session in the hub belongs to a
      connection that is connected or inside a callback, never to one whose
      on_disconnected has finished. */
  lemma NoLeakWhileRunning(maxSessions: nat, actions: seq<Action>, id: nat)
    requires id in Play(maxSessions, actions).hub
    ensures
      var s := Play(maxSessions, actions);
      var stage := StageOf(s, s.hub[id]);
      stage != Fresh && stage != Admitting && stage != Gone
  {
    PlayKeeps(maxSessions, actions);
    var s := Play(maxSessions, actions);
    assert Placed(s, s.hub[id]);
  }

  // Stop has run to its end: the transport has stopped and the map is empty.
  ghost predicate FullyStopped(s: State, listener: nat)
  {
    listener in s.stopped && forall key :: key in s.sessions ==> key.listener != listener
  }

  /** Once every listener has been stopped the hub is empty. */
  lemma AllStoppedMeansEmpty(maxSessions: nat, actions: seq<Action>)
    requires forall key :: key in Play(maxSessions, actions).stages ==>
               FullyStopped(Play(maxSessions, actions), key.listener)
    ensures Play(maxSessions, actions).hub == map[]
  {
    PlayKeeps(maxSessions, actions);
    var s := Play(maxSessions, actions);
    forall id
      ensures id !in s.hub
    {
      if id in s.hub {
        var key := s.hub[id];
        assert Placed(s, key);
        assert key in s.stages;
        StoppedAnswersForNone(s, key);
      }
    }
  }

  lemma StoppedAnswersForNone(s: State, key: Key)
    requires Placed(s, key) && FullyStopped(s, key.listener)
    ensures Token(s, key).None?
  {
  }

  /** Ids are never reused: an id below the counter that is not in the hub never
      comes back, and the counter only grows. */
  lemma {:induction false} IdsAreNeverReused(maxSessions: nat, actions: seq<Action>, more: seq<Action>, id: nat)
    requires id < Play(maxSessions, actions).nextId && id !in Play(maxSessions, actions).hub
    ensures id < Play(maxSessions, actions + more).nextId && id !in Play(maxSessions, actions + more).hub
  {
    if more == [] {
      assert actions + more == actions;
    } else {
      assert (actions + more)[..|actions + more| - 1] == actions + more[..|more| - 1];
      IdsAreNeverReused(maxSessions, actions, more[..|more| - 1], id);
      StepGrows(Play(maxSessions, actions + more[..|more| - 1]), more[|more| - 1]);
    }
  }

  // The session the connection was granted at its admission, read off the run: one
  // while the server runs and the hub has room.
  function Granted(maxSessions: nat, actions: seq<Action>, key: Key): Option<nat>
  {
    if actions == [] then None
    else
      var front, last := actions[..|actions| - 1], actions[|actions| - 1];
      var s := Play(maxSessions, front);
      if last.TryAdd? && last.key == key && StageOf(s, key) == Admitting then
        if last.running && |s.hub| < maxSessions then Some(s.nextId) else None
      else Granted(maxSessions, front, key)
  }

  predicate Admitted(stage: Stage) { stage.Holding? || stage == Finishing || stage == Connected }

  // A step at another connection, or at none.
  lemma ElsewhereStays(s: State, a: Action, key: Key)
    requires a.StopTransport? || a.key != key
    ensures StageOf(Step(s, a), key) == StageOf(s, key)
    ensures key in Step(s, a).sessions <==> key in s.sessions
    ensures key in s.sessions ==> Step(s, a).sessions[key] == s.sessions[key]
  {
    match a
    case BeginConnect(_) =>
    case TryAdd(_, _) =>
    case Emplace(_) =>
    case EndConnect(_) =>
    case Disconnect(_) =>
    case Release(_) =>
    case StopTransport(_) =>
    case Clean(_) =>
  }

  lemma TokenStays(s: State, a: Action, key: Key)
    requires Placed(s, key) && Admitted(StageOf(s, key)) && Admitted(StageOf(Step(s, a), key))
    ensures Token(Step(s, a), key) == Token(s, key)
  {
    if a.StopTransport? || a.key != key {
      ElsewhereStays(s, a, key);
    } else {
      match a
      case BeginConnect(_) =>
      case TryAdd(_, _) =>
      case Emplace(_) =>
      case EndConnect(_) =>
      case Disconnect(_) =>
      case Release(_) =>
      case Clean(_) =>
    }
  }

  lemma OnlyAdmissionAdmits(s: State, a: Action, key: Key)
    requires Placed(s, key) && !Admitted(StageOf(s, key)) && Admitted(StageOf(Step(s, a), key))
    ensures StageOf(s, key) == Admitting && a.TryAdd? && a.key == key
    ensures Token(Step(s, a), key) == if a.running && |s.hub| < s.maxSessions then Some(s.nextId) else None
  {
    if a.StopTransport? || a.key != key {
      ElsewhereStays(s, a, key);
    } else {
      match a
      case BeginConnect(_) =>
      case TryAdd(_, _) =>
      case Emplace(_) =>
      case EndConnect(_) =>
      case Disconnect(_) =>
      case Release(_) =>
      case Clean(_) =>
    }
  }

  /** In every run a connection has, from its admission to its end, exactly the
      session it was granted: a new one when the server was running and the hub had
      room at that moment, and none otherwise. */
  lemma {:induction false} ConnectionHasItsGrant(maxSessions: nat, actions: seq<Action>, key: Key)
    requires Admitted(StageOf(Play(maxSessions, actions), key))
    ensures Token(Play(maxSessions, actions), key) == Granted(maxSessions, actions, key)
  {
    if actions != [] {
      var front, last := actions[..|actions| - 1], actions[|actions| - 1];
      PlayKeeps(maxSessions, front);
      var s := Play(maxSessions, front);
      assert Placed(s, key);
      if Admitted(StageOf(s, key)) {
        ConnectionHasItsGrant(maxSessions, front, key);
        TokenStays(s, last, key);
      } else {
        OnlyAdmissionAdmits(s, last, key);
      }
    }
  }

  /** The callbacks do their part at once where nothing comes in between: on_connected
      of a new connection ends with it connected and its grant in the map, and
      on_disconnected of a connected one leaves no session of it. */
  lemma ConnectAnswers(maxSessions: nat, actions: seq<Action>, key: Key, running: bool)
    requires StageOf(Play(maxSessions, actions), key) == Fresh && key.listener !in Play(maxSessions, actions).stopped
    ensures
      var s := Play(maxSessions, actions);
      var t := Connecting(s, key, running);
      && StageOf(t, key) == Connected
      && (if running && |s.hub| < maxSessions
          then t.hub == s.hub[s.nextId := key] && t.sessions == s.sessions[key := s.nextId]
          else t.hub == s.hub && t.sessions == s.sessions)
  {
    PlayKeeps(maxSessions, actions);
    assert Placed(Play(maxSessions, actions), key);
  }

  lemma DisconnectAnswers(maxSessions: nat, actions: seq<Action>, key: Key)
    requires
      var s := Play(maxSessions, actions);
      StageOf(s, key) == Connected && key.listener !in s.stopped
    ensures
      var s := Play(maxSessions, actions);
      var t, id := Disconnecting(s, key), Granted(maxSessions, actions, key);
      && StageOf(t, key) == Gone && t.sessions == s.sessions - {key}
      && t.hub == s.hub - if id.Some? then {id.value} else {}
  {
    PlayKeeps(maxSessions, actions);
    assert Placed(Play(maxSessions, actions), key);
    ConnectionHasItsGrant(maxSessions, actions, key);
    LeavingFrees(Play(maxSessions, actions), key, Granted(maxSessions, actions, key));
  }

  lemma LeavingFrees(s: State, key: Key, id: Option<nat>)
    requires StageOf(s, key) == Connected && key.listener !in s.stopped
    requires id == if key in s.sessions then Some(s.sessions[key]) else None
    ensures
      var t := Disconnecting(s, key);
      && StageOf(t, key) == Gone && t.sessions == s.sessions - {key}
      && t.hub == s.hub - if id.Some? then {id.value} else {}
  {
    DisconnectTakes(s, key);
    if key in s.sessions {
      ReleasingFrees(Step(s, Action.Disconnect(key)), key, id.value);
    } else {
      assert s.sessions - {key} == s.sessions;
      assert s.hub - {} == s.hub;
    }
  }

  lemma DisconnectTakes(s: State, key: Key)
    requires StageOf(s, key) == Connected && key.listener !in s.stopped
    ensures
      var t := Step(s, Action.Disconnect(key));
      && t.hub == s.hub
      && (if key in s.sessions then t.sessions == s.sessions - {key} && StageOf(t, key) == Releasing(s.sessions[key])
          else t.sessions == s.sessions && StageOf(t, key) == Gone && Step(t, Release(key)) == t)
  {
  }

  lemma ReleasingFrees(s: State, key: Key, id: nat)
    requires StageOf(s, key) == Releasing(id)
    ensures
      var t := Step(s, Release(key));
      StageOf(t, key) == Gone && t.sessions == s.sessions && t.hub == s.hub - {id}
  {
  }

  // -------------------------------------------- the order the transport keeps

  // How far the callbacks of one IOCP connection have come, read off its log. The
  // connected callback runs in the first scope of the accept thread.
  datatype Course = BeforeConnect | InConnect | AfterConnect | Disconnected | OutOfOrder

  function Follow(c: Course, e: Iocp.Event): Course
  {
    match e
    case Entered(agent) => if agent == Iocp.ACCEPT && c == BeforeConnect then InConnect else c
    case Left(agent) => if agent == Iocp.ACCEPT && c == InConnect then AfterConnect else c
    case Disconnected => if c == AfterConnect then Disconnected else OutOfOrder
  }

  function CourseOf(log: seq<Iocp.Event>): Course
  {
    if log == [] then BeforeConnect else Follow(CourseOf(log[..|log| - 1]), log[|log| - 1])
  }

  /** The IOCP backend calls the listener in the order the session machine takes
      its steps: in every interleaving on_disconnected starts only after
      on_connected has returned. */
  lemma CallbackOrder(steps: seq<(Iocp.Agent, Iocp.Action)>)
    ensures CourseOf(Iocp.Play(steps).log) != OutOfOrder
  {
    var log := Iocp.Play(steps).log;
    var n := |log|;
    if n > 0 && log[n - 1].Disconnected? {
      AfterTheScope(steps);
    } else {
      NoNoticeBefore(steps, n);
      assert log[..n] == log;
      NeverOutOfOrder(log);
    }
  }

  // When the notification comes, the connected callback has run and returned.
  lemma AfterTheScope(steps: seq<(Iocp.Agent, Iocp.Action)>)
    requires Iocp.Play(steps).log != [] && Iocp.Play(steps).log[|Iocp.Play(steps).log| - 1].Disconnected?
    ensures CourseOf(Iocp.Play(steps).log[..|Iocp.Play(steps).log| - 1]) == AfterConnect
  {
    var n := |Iocp.Play(steps).log|;
    Iocp.DisconnectedOnceAndLast(steps, n - 1);
    EnteredBeforeNotice(steps);
    NoNoticeBefore(steps, n - 1);
    ClosedScope(Iocp.Play(steps).log[..n - 1]);
  }

  ghost predicate NoNotice(log: seq<Iocp.Event>)
  {
    forall i :: 0 <= i < |log| ==> !log[i].Disconnected?
  }

  lemma NoNoticeBefore(steps: seq<(Iocp.Agent, Iocp.Action)>, n: nat)
    requires n <= |Iocp.Play(steps).log|
    requires n == |Iocp.Play(steps).log| ==> n == 0 || !Iocp.Play(steps).log[n - 1].Disconnected?
    ensures NoNotice(Iocp.Play(steps).log[..n])
  {
    var log := Iocp.Play(steps).log;
    forall i | 0 <= i < n
      ensures !log[i].Disconnected?
    {
      if log[i].Disconnected? {
        Iocp.DisconnectedOnceAndLast(steps, i);
      }
    }
  }

  lemma {:induction false} NeverOutOfOrder(log: seq<Iocp.Event>)
    requires NoNotice(log)
    ensures CourseOf(log) in {BeforeConnect, InConnect, AfterConnect}
  {
    if log != [] {
      NeverOutOfOrder(log[..|log| - 1]);
    }
  }

  lemma {:induction false} OpenIsEntered(log: seq<Iocp.Event>, agent: Iocp.Agent)
    requires agent in Iocp.Open(log)
    ensures Iocp.Entered(agent) in log
  {
    if log[|log| - 1] != Iocp.Entered(agent) {
      OpenIsEntered(log[..|log| - 1], agent);
    }
  }

  // The connection is published from inside the accept thread's scope.
  lemma {:induction false} PublishedIsEntered(steps: seq<(Iocp.Agent, Iocp.Action)>)
    ensures Iocp.Play(steps).published ==> Iocp.Entered(Iocp.ACCEPT) in Iocp.Play(steps).log
  {
    if steps != [] {
      var (a, action) := steps[|steps| - 1];
      var before := Iocp.Play(steps[..|steps| - 1]);
      PublishedIsEntered(steps[..|steps| - 1]);
      Iocp.PlayKeeps(steps[..|steps| - 1]);
      LogGrows(before, a, action);
      if !before.published && Iocp.Step(before, a, action).published {
        PublishedInside(before, a, action);
        OpenIsEntered(before.log, Iocp.ACCEPT);
      }
    }
  }

  lemma PublishedInside(s: Iocp.State, a: Iocp.Agent, action: Iocp.Action)
    requires Iocp.Counted(s) && !s.published && Iocp.Step(s, a, action).published
    ensures Iocp.ACCEPT in Iocp.Open(s.log)
  {
    match action
    case LockBegin =>
    case ReadClosing =>
    case FinishBegin =>
    case Publish => assert Iocp.ACCEPT in Iocp.Scopes(s.pcs);
    case LockEnd =>
    case FinishEnd =>
    case Look =>
    case Close =>
    case Erase =>
    case LockRequest =>
    case FinishRequest =>
    case Notify =>
  }

  lemma LogGrows(s: Iocp.State, a: Iocp.Agent, action: Iocp.Action)
    ensures s.log <= Iocp.Step(s, a, action).log
  {
    match action
    case LockBegin =>
    case ReadClosing =>
    case FinishBegin =>
    case Publish =>
    case LockEnd =>
    case FinishEnd =>
    case Look =>
    case Close =>
    case Erase =>
    case LockRequest =>
    case FinishRequest =>
    case Notify =>
  }

  lemma NoticeIsPublished(steps: seq<(Iocp.Agent, Iocp.Action)>)
    ensures Iocp.Play(steps).published || NoNotice(Iocp.Play(steps).log)
  {
    if !Iocp.Play(steps).published {
      Iocp.ConnectedCallbackAdmitted(steps);
    }
  }

  lemma EnteredBeforeNotice(steps: seq<(Iocp.Agent, Iocp.Action)>)
    requires Iocp.Play(steps).log != [] && Iocp.Play(steps).log[|Iocp.Play(steps).log| - 1].Disconnected?
    ensures Iocp.Entered(Iocp.ACCEPT) in Iocp.Play(steps).log[..|Iocp.Play(steps).log| - 1]
  {
    NoticeIsPublished(steps);
    PublishedIsEntered(steps);
    InFront(Iocp.Play(steps).log, Iocp.Entered(Iocp.ACCEPT));
  }

  lemma InFront(log: seq<Iocp.Event>, e: Iocp.Event)
    requires e in log && log[|log| - 1] != e
    ensures e in log[..|log| - 1]
  {
  }

  // A log whose first accept scope has been left again.
  lemma {:induction false} ScopeCourse(log: seq<Iocp.Event>)
    requires NoNotice(log)
    ensures CourseOf(log) == BeforeConnect ==> Iocp.Entered(Iocp.ACCEPT) !in log
    ensures CourseOf(log) == InConnect ==> Iocp.ACCEPT in Iocp.Open(log)
  {
    if log != [] {
      ScopeCourse(log[..|log| - 1]);
      assert log == log[..|log| - 1] + [log[|log| - 1]];
    }
  }

  lemma ClosedScope(log: seq<Iocp.Event>)
    requires NoNotice(log) && Iocp.Entered(Iocp.ACCEPT) in log && Iocp.Open(log) == {}
    ensures CourseOf(log) == AfterConnect
  {
    ScopeCourse(log);
    NeverOutOfOrder(log);
  }

  // ------------------------------------ a listener driven by an IOCP connection

  // What the listener does at an event of the connection: on_connected runs in the
  // first scope of the accept thread, on_disconnected at the notification.
  function Reaction(course: Course, e: Iocp.Event, key: Key, running: bool): seq<Action>
  {
    match e
    case Entered(agent) =>
      if agent == Iocp.ACCEPT && course == BeforeConnect
      then [BeginConnect(key)] + [TryAdd(key, running)] + [Emplace(key)] else []
    case Left(agent) => if agent == Iocp.ACCEPT && course == InConnect then [EndConnect(key)] else []
    case Disconnected => [Action.Disconnect(key)] + [Release(key)]
  }

  function Reactions(log: seq<Iocp.Event>, key: Key, running: bool): seq<Action>
  {
    if log == [] then []
    else
      var front := log[..|log| - 1];
      Reactions(front, key, running) + Reaction(CourseOf(front), log[|log| - 1], key, running)
  }

  // The stage a connection is in when its callbacks have come so far.
  function StageAfter(course: Course): Stage
  {
    match course
    case BeforeConnect => Fresh
    case InConnect => Finishing
    case AfterConnect => Connected
    case Disconnected => Gone
    case OutOfOrder => Fresh
  }

  lemma PlaySnoc(maxSessions: nat, actions: seq<Action>, a: Action)
    ensures Play(maxSessions, actions + [a]) == Step(Play(maxSessions, actions), a)
  {
    assert (actions + [a])[..|actions|] == actions;
  }

  lemma OutOfOrderStays(log: seq<Iocp.Event>)
    requires log != [] && CourseOf(log) != OutOfOrder
    ensures CourseOf(log[..|log| - 1]) != OutOfOrder
  {
  }

  lemma ConnectReacts(maxSessions: nat, actions: seq<Action>, key: Key, running: bool)
    requires StageOf(Play(maxSessions, actions), key) == Fresh && Play(maxSessions, actions).stopped == {}
    ensures
      var t := Play(maxSessions, actions + ([BeginConnect(key)] + [TryAdd(key, running)] + [Emplace(key)]));
      StageOf(t, key) == Finishing && t.stopped == {}
  {
    var begin, add, put := BeginConnect(key), TryAdd(key, running), Emplace(key);
    assert actions + ([begin] + [add] + [put]) == actions + [begin] + [add] + [put];
    PlaySnoc(maxSessions, actions, begin);
    PlaySnoc(maxSessions, actions + [begin], add);
    PlaySnoc(maxSessions, actions + [begin] + [add], put);
    PlayKeeps(maxSessions, actions + [begin] + [add]);
    EmplaceFinishes(Play(maxSessions, actions + [begin] + [add]), key);
  }

  lemma EmplaceFinishes(s: State, key: Key)
    requires StageOf(s, key).Holding? || StageOf(s, key) == Finishing
    ensures StageOf(Step(s, Emplace(key)), key) == Finishing && Step(s, Emplace(key)).stopped == s.stopped
  {
  }

  lemma DisconnectReacts(maxSessions: nat, actions: seq<Action>, key: Key)
    requires StageOf(Play(maxSessions, actions), key) == Connected && Play(maxSessions, actions).stopped == {}
    ensures
      var t := Play(maxSessions, actions + ([Action.Disconnect(key)] + [Release(key)]));
      StageOf(t, key) == Gone && t.stopped == {}
  {
    var leave, release := Action.Disconnect(key), Release(key);
    assert actions + ([leave] + [release]) == actions + [leave] + [release];
    PlaySnoc(maxSessions, actions, leave);
    PlaySnoc(maxSessions, actions + [leave], release);
  }

  lemma {:induction false} StageFollows(maxSessions: nat, log: seq<Iocp.Event>, key: Key, running: bool)
    requires CourseOf(log) != OutOfOrder
    ensures
      var s := Play(maxSessions, Reactions(log, key, running));
      StageOf(s, key) == StageAfter(CourseOf(log)) && s.stopped == {}
  {
    if log != [] {
      var front, last := log[..|log| - 1], log[|log| - 1];
      var before := Reactions(front, key, running);
      OutOfOrderStays(log);
      StageFollows(maxSessions, front, key, running);
      match last
      case Entered(agent) =>
        if agent == Iocp.ACCEPT && CourseOf(front) == BeforeConnect {
          ConnectReacts(maxSessions, before, key, running);
        } else {
          assert before + [] == before;
        }
      case Left(agent) =>
        if agent == Iocp.ACCEPT && CourseOf(front) == InConnect {
          PlaySnoc(maxSessions, before, EndConnect(key));
        } else {
          assert before + [] == before;
        }
      case Disconnected => DisconnectReacts(maxSessions, before, key);
    }
  }

  /** The two machines together: in every interleaving of the IOCP backend no
      callback comes at a stage at which the listener would ignore it, and once the
      connection has been notified, the hub and the map hold no session of it. */
  lemma NotifiedConnectionIsGone(maxSessions: nat, steps: seq<(Iocp.Agent, Iocp.Action)>, key: Key, running: bool)
    ensures
      var log := Iocp.Play(steps).log;
      var s := Play(maxSessions, Reactions(log, key, running));
      && StageOf(s, key) == StageAfter(CourseOf(log))
      && (Iocp.Notices(log) > 0 ==>
            StageOf(s, key) == Gone && Token(s, key).None? && forall id :: id in s.hub ==> s.hub[id] != key)
  {
    var log := Iocp.Play(steps).log;
    CallbackOrder(steps);
    StageFollows(maxSessions, log, key, running);
    PlayKeeps(maxSessions, Reactions(log, key, running));
    var s := Play(maxSessions, Reactions(log, key, running));
    assert Placed(s, key);
    if Iocp.Notices(log) > 0 {
      var i := Iocp.SomeNotice(log);
      Iocp.DisconnectedOnceAndLast(steps, i);
      assert CourseOf(log) == Course.Disconnected;
      NoTokenNoSession(s, key);
    }
  }

  lemma NoTokenNoSession(s: State, key: Key)
    requires Inv(s) && Token(s, key).None?
    ensures forall id :: id in s.hub ==> s.hub[id] != key
  {
    forall id | id in s.hub
      ensures s.hub[id] != key
    {
      assert Token(s, s.hub[id]) == Some(id);
    }
  }

  /** The release at the end of on_disconnected takes exactly the session of that
      connection out of the hub: it answers for none any more, and every other
      connection answers for the one it had. */
  lemma ReleaseFreesOne(s: State, key: Key)
    requires Inv(s) && StageOf(s, key).Releasing?
    ensures
      var t := Step(s, Release(key));
      && Token(t, key).None? && (forall id :: id in t.hub ==> t.hub[id] != key)
      && (forall other :: other != key ==> Token(t, other) == Token(s, other))
      && |t.hub| == |s.hub| - 1
  {
    assert Placed(s, key);
    ReleaseKeeps(s, key);
    var t := Step(s, Release(key));
    NoTokenNoSession(t, key);
    assert s.hub.Keys == t.hub.Keys + {StageOf(s, key).id};
  }

  // ------------------------------------------------------- the imperative form

  class SessionRegistry {
    const maxSessions: nat
    var hub: map<nat, Key>
    var nextSessionId: nat

    constructor (maxSessions: nat)
      ensures this.maxSessions == maxSessions && hub == map[] && nextSessionId == 1
    {
      this.maxSessions, hub, nextSessionId := maxSessions, map[], 1;
    }

    method Add(key: Key) returns (id: Option<nat>)
      modifies this
      ensures old(|hub|) >= maxSessions ==> id.None? && hub == old(hub) && nextSessionId == old(nextSessionId)
      ensures old(|hub|) < maxSessions ==>
                && id == Some(old(nextSessionId)) && hub == old(hub)[id.value := key]
                && nextSessionId == old(nextSessionId) + 1
    {
      if |hub| >= maxSessions {
        return None;
      }
      id := Some(nextSessionId);
      nextSessionId := nextSessionId + 1;
      hub := hub[id.value := key];
    }

    method Remove(id: nat)
      modifies this`hub
      ensures hub == old(hub) - {id}
    {
      hub := hub - {id};
    }
  }

  // The whole of on_connected, and of on_disconnected, when no other callback
  // comes in between.
  function Connecting(s: State, key: Key, running: bool): State
  {
    Step(Step(Step(Step(s, BeginConnect(key)), TryAdd(key, running)), Emplace(key)), EndConnect(key))
  }

  function Run(s: State, actions: seq<Action>): State
  {
    if actions == [] then s else Step(Run(s, actions[..|actions| - 1]), actions[|actions| - 1])
  }

  lemma RunOne(s: State, actions: seq<Action>, a: Action)
    ensures Run(s, actions + [a]) == Step(Run(s, actions), a)
  {
    assert (actions + [a])[..|actions|] == actions;
  }

  function Disconnecting(s: State, key: Key): State
  {
    Step(Step(s, Disconnect(key)), Release(key))
  }

  // A listener with the registry. stages and stopped are what the transport does.
  class TcpListener {
    const id: nat
    const registry: SessionRegistry
    var sessions: map<Key, nat>
    ghost var stages: map<Key, Stage>
    ghost var stopped: set<nat>

    ghost function Model(): State
      reads this, registry
    {
      State(registry.maxSessions, registry.nextSessionId, registry.hub, sessions, stages, stopped)
    }

    constructor (id: nat, registry: SessionRegistry)
      ensures this.id == id && this.registry == registry && sessions == map[] && stages == map[] && stopped == {}
    {
      this.id, this.registry := id, registry;
      sessions, stages, stopped := map[], map[], {};
    }

    method Admit(key: Key, running: bool) returns (added: Option<nat>)
      requires StageOf(Model(), key) == Admitting
      modifies this`stages, registry
      ensures Model() == Step(old(Model()), TryAdd(key, running))
      ensures StageOf(Model(), key) == if added.Some? then Holding(added.value) else Finishing
    {
      added := None;
      if running {
        added := registry.Add(key);
      }
      stages := stages[key := if added.Some? then Holding(added.value) else Finishing];
    }

    method Insert(key: Key, sessionId: nat)
      requires StageOf(Model(), key) == Holding(sessionId)
      modifies this`sessions, this`stages
      ensures Model() == Step(old(Model()), Emplace(key))
    {
      if key !in sessions {
        sessions := sessions[key := sessionId];
      }
      stages := stages[key := Finishing];
    }

    method OnConnected(connection: nat, running: bool)
      requires StageOf(Model(), Key(id, connection)) == Fresh && id !in stopped
      modifies this, registry
      ensures Model() == Connecting(old(Model()), Key(id, connection), running)
    {
      var key := Key(id, connection);
      stages := stages[key := Admitting];
      assert Model() == Step(old(Model()), BeginConnect(key));
      var added := Admit(key, running);
      if added.Some? {
        Insert(key, added.value);
      }
      stages := stages[key := Connected];
    }

    method OnDisconnected(connection: nat)
      requires StageOf(Model(), Key(id, connection)) == Connected && id !in stopped
      modifies this, registry
      ensures Model() == Disconnecting(old(Model()), Key(id, connection))
    {
      var key := Key(id, connection);
      if key !in sessions {
        stages := stages[key := Gone];
        return;
      }
      var sessionId := sessions[key];
      sessions := sessions - {key};
      stages := stages[key := Releasing(sessionId)];
      assert Model() == Step(old(Model()), Disconnect(key));
      registry.Remove(sessionId);
      stages := stages[key := Gone];
    }

    // All connections of the map are this listener's, and its transport has stopped.
    ghost predicate Stopping()
      reads this
    {
      id in stopped && forall key :: key in sessions ==> key.listener == id
    }

    // One session of those that are left leaves the hub: one more Clean.
    method ReleaseOne(key: Key, left: map<Key, nat>, ghost start: State, ghost actions: seq<Action>,
                      ghost stopping: bool)
      requires key in left && Released(start, registry.hub, left)
      requires stopping ==>
                 id in stopped && key.listener == id && Model().(sessions := left) == Run(start, actions)
      modifies this`stages, registry`hub
      ensures Released(start, registry.hub, left - {key}) && |(left - {key}).Keys| < |left.Keys|
      ensures stopping ==> Model().(sessions := left - {key}) == Run(start, actions + [Clean(key)])
    {
      ReleasedOne(start, registry.hub, left, key);
      RunOne(start, actions, Clean(key));
      stages := stages[key := Gone];
      registry.Remove(left[key]);
    }

    // The release loop of stop, after the transport has stopped: every session of
    // the map leaves the hub, one Clean of the machine after the other, and the map
    // ends empty.
    method ReleaseAll() returns (ghost actions: seq<Action>)
      modifies this`sessions, this`stages, registry`hub
      ensures sessions == map[]
      ensures registry.hub == old(registry.hub) - old(sessions).Values
      ensures forall i :: 0 <= i < |actions| ==> actions[i].Clean?
      ensures old(Stopping()) ==> Model() == Run(old(Model()), actions)
    {
      var left := sessions;
      actions := [];
      ghost var start := Model();
      while left.Keys != {}
        invariant sessions == start.sessions && stopped == start.stopped && Released(start, registry.hub, left)
        invariant forall i :: 0 <= i < |actions| ==> actions[i].Clean?
        invariant old(Stopping()) ==> Model().(sessions := left) == Run(start, actions)
        decreases |left.Keys|
      {
        var key :| key in left;
        ReleaseOne(key, left, start, actions, old(Stopping()));
        actions := actions + [Clean(key)];
        left := left - {key};
      }
      ReleasedAll(start, registry.hub, left);
      sessions := map[];
    }
  }

  // What the release loop has done when these sessions are left.
  ghost predicate Released(start: State, hub: map<nat, Key>, left: map<Key, nat>)
  {
    && (forall key :: key in left ==> key in start.sessions && left[key] == start.sessions[key])
    && (forall i :: i in hub ==> i in start.hub && hub[i] == start.hub[i])
    && (forall i :: i in start.hub && i !in hub ==> i in start.sessions.Values)
    && (forall key :: key in start.sessions && key !in left ==> start.sessions[key] !in hub)
  }

  lemma ReleasedOne(start: State, hub: map<nat, Key>, left: map<Key, nat>, key: Key)
    requires Released(start, hub, left) && key in left
    ensures Released(start, hub - {left[key]}, left - {key}) && |(left - {key}).Keys| < |left.Keys|
  {
    assert start.sessions[key] in start.sessions.Values;
    assert (left - {key}).Keys == left.Keys - {key};
  }

  lemma ReleasedAll(start: State, hub: map<nat, Key>, left: map<Key, nat>)
    requires Released(start, hub, left) && left.Keys == {}
    ensures hub == start.hub - start.sessions.Values && left == map[]
  {
    forall i | i in start.hub && i in start.sessions.Values
      ensures i !in hub
    {
      var key :| key in start.sessions && start.sessions[key] == i;
    }
  }
}
