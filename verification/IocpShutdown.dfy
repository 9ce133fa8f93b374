/** Shutdown of the IOCP server (src/Net/Iocp/ServerLifecycle.cpp,
    CompletionPort.cpp, Operation.h, ServerConnections.cpp, ServerAccept.cpp,
    ServerIo.cpp and the submission paths of Connection.cpp).

    Everything the threads of a server do to connections, operations and the
    completion port is a step; stop() runs beside them, step by step. */
module IocpShutdown {

  type ConnectionId = nat
  type OperationId = nat
  type WorkerId = nat

  datatype Connection = Connection(closing: bool, registered: bool)

  // A live operation is being submitted by the thread that built it, belongs to
  // the system, or is in the hands of a worker.
  datatype Place = Building | InSystem | HeldBy(worker: WorkerId)

  datatype Operation = Operation(connection: ConnectionId, place: Place)

  // A worker waits on the port, handles a completed operation, does what is left
  // to do after its operation is gone, or has left its loop.
  datatype Worker = Waiting | Handling(operation: OperationId) | Busy | Exited

  // The accept thread between connections, with a connection it has not
  // published yet, with one it has, or gone.
  datatype Accept = Looping | Created(id: ConnectionId) | Published(id: ConnectionId) | Gone

  datatype Stage = NotStopping | JoiningAccept | ClosingAll(todo: set<ConnectionId>) | Draining | Waking
                 | JoiningWorkers | PortClosed

  datatype State = State(running: bool, accept: Accept, connections: map<ConnectionId, Connection>,
                         operations: map<OperationId, Operation>, nextOperation: OperationId, pending: int,
                         workers: map<WorkerId, Worker>, posted: nat, packets: int, stage: Stage)

  ghost predicate Started(s: State)
  {
    && s.running && s.accept == Looping && s.connections == map[] && s.operations == map[] && s.pending == 0
    && (forall w :: w in s.workers ==> s.workers[w] == Waiting)
    && s.posted == 0 && s.packets == 0 && s.stage == NotStopping
  }

  datatype Action =
    | AcceptCreate(id: ConnectionId) | AcceptPublish | AcceptNext | AcceptExit
    | Close(id: ConnectionId) | Erase(id: ConnectionId)
    | StartOperation(id: ConnectionId) | Submitted(operation: OperationId) | SubmitFailed(operation: OperationId)
    | TakeCompletion(worker: WorkerId, operation: OperationId) | Resubmit(worker: WorkerId)
    | DropOperation(worker: WorkerId) | Rest(worker: WorkerId) | TakeWake(worker: WorkerId)
    | BeginStop | AcceptJoined | StopDisconnect(id: ConnectionId) | AllClosed | Drained | PostWake | AllPosted
    | WorkersJoined

  function WorkerOf(s: State, w: WorkerId): Worker
  {
    if w in s.workers then s.workers[w] else Exited
  }

  function Registered(s: State): set<ConnectionId>
  {
    set id | id in s.connections && s.connections[id].registered
  }

  ghost predicate Enabled(s: State, a: Action)
  {
    match a
    case AcceptCreate(id) => s.accept == Looping && id !in s.connections
    case AcceptPublish => s.accept.Created?
    case AcceptNext => s.accept.Published?
    case AcceptExit => s.accept == Looping && !s.running
    // disconnect finds the connection in the registry and closes it...
    case Close(id) => id in s.connections && s.connections[id].registered
    // ...and only then removes it.
    case Erase(id) => id in s.connections && s.connections[id].registered && s.connections[id].closing
    // post_receive, send and post_next_send build an operation under the socket
    // mutex, after finding that the connection is not closing.
    case StartOperation(id) => id in s.connections && !s.connections[id].closing
    case Submitted(op) => op in s.operations && s.operations[op].place == Building
    case SubmitFailed(op) => op in s.operations && s.operations[op].place == Building
    case TakeCompletion(w, op) =>
      WorkerOf(s, w) == Waiting && op in s.operations && s.operations[op].place == InSystem
    // complete_send hands a partly sent operation back, unless closing.
    case Resubmit(w) =>
      && WorkerOf(s, w).Handling? && WorkerOf(s, w).operation in s.operations
      && s.operations[WorkerOf(s, w).operation].connection in s.connections
      && !s.connections[s.operations[WorkerOf(s, w).operation].connection].closing
    case DropOperation(w) => WorkerOf(s, w).Handling? && WorkerOf(s, w).operation in s.operations
    case Rest(w) => WorkerOf(s, w) == Busy
    case TakeWake(w) => WorkerOf(s, w) == Waiting && s.packets > 0
    case BeginStop => s.running
    case AcceptJoined => s.stage == JoiningAccept && s.accept == Gone
    case StopDisconnect(id) => s.stage.ClosingAll? && id in s.stage.todo
    case AllClosed => s.stage == ClosingAll({})
    case Drained => s.stage == Draining && s.pending == 0
    case PostWake => s.stage == Waking && s.posted < |s.workers|
    case AllPosted => s.stage == Waking && s.posted == |s.workers|
    case WorkersJoined => s.stage == JoiningWorkers && forall w :: w in s.workers ==> s.workers[w] == Exited
  }

  function WithClosing(s: State, id: ConnectionId): State
    requires id in s.connections
  {
    s.(connections := s.connections[id := s.connections[id].(closing := true)])
  }

  // Disconnect as stop sees it: nothing left to do, or closed and then erased.
  function Disconnected(s: State, id: ConnectionId): State
  {
    if id in s.connections && s.connections[id].registered
    then s.(connections := s.connections[id := Connection(true, false)]) else s
  }

  ghost function Step(s: State, a: Action): State
    requires Enabled(s, a)
  {
    match a
    case AcceptCreate(id) => s.(accept := Created(id), connections := s.connections[id := Connection(false, false)])
    case AcceptPublish =>
      var id := s.accept.id;
      if id in s.connections
      then s.(accept := Published(id), connections := s.connections[id := s.connections[id].(registered := true)])
      else s
    case AcceptNext => s.(accept := Looping)
    case AcceptExit => s.(accept := Gone)
    case Close(id) => WithClosing(s, id)
    case Erase(id) => s.(connections := s.connections[id := s.connections[id].(registered := false)])
    case StartOperation(id) =>
      s.(operations := s.operations[s.nextOperation := Operation(id, Building)],
         nextOperation := s.nextOperation + 1, pending := s.pending + 1)
    case Submitted(op) => s.(operations := s.operations[op := s.operations[op].(place := InSystem)])
    case SubmitFailed(op) => s.(operations := s.operations - {op}, pending := s.pending - 1)
    case TakeCompletion(w, op) =>
      s.(operations := s.operations[op := s.operations[op].(place := HeldBy(w))],
         workers := s.workers[w := Handling(op)])
    case Resubmit(w) =>
      var op := WorkerOf(s, w).operation;
      s.(operations := s.operations[op := s.operations[op].(place := InSystem)], workers := s.workers[w := Busy])
    case DropOperation(w) =>
      s.(operations := s.operations - {WorkerOf(s, w).operation}, pending := s.pending - 1,
         workers := s.workers[w := Busy])
    case Rest(w) => s.(workers := s.workers[w := Waiting])
    case TakeWake(w) => s.(workers := s.workers[w := Exited], packets := s.packets - 1)
    case BeginStop => s.(running := false, stage := JoiningAccept)
    case AcceptJoined => s.(stage := ClosingAll(Registered(s)))
    case StopDisconnect(id) => Disconnected(s, id).(stage := ClosingAll(s.stage.todo - {id}))
    case AllClosed => s.(stage := Draining)
    case Drained => s.(stage := Waking)
    case PostWake => s.(posted := s.posted + 1, packets := s.packets + 1)
    case AllPosted => s.(stage := JoiningWorkers)
    case WorkersJoined => s.(stage := PortClosed)
  }

  // A run starts a server and takes enabled actions; others change nothing.
  ghost function Play(start: State, actions: seq<Action>): State
  {
    if actions == [] then start
    else
      var before := Play(start, actions[..|actions| - 1]);
      var last := actions[|actions| - 1];
      if Enabled(before, last) then Step(before, last) else before
  }

  // --------------------------------------------------------------- invariants

  ghost predicate FreshIds(s: State)
  {
    forall op :: op in s.operations ==> op < s.nextOperation
  }

  // The pending count is the number of live operations.
  ghost predicate Counted(s: State) { s.pending == |s.operations| }

  // A connection is registered, closing, or still the accept thread's own.
  ghost predicate ClosedBeforeErased(s: State)
  {
    && (s.accept.Created? ==> s.accept.id in s.connections)
    && forall id :: id in s.connections ==>
         s.connections[id].registered || s.connections[id].closing || s.accept == Created(id)
  }

  predicate PastAccept(stage: Stage) { stage != NotStopping && stage != JoiningAccept }

  predicate PastClosing(stage: Stage) { PastAccept(stage) && !stage.ClosingAll? }

  predicate PastDrain(stage: Stage) { stage == Waking || stage == JoiningWorkers || stage == PortClosed }

  ghost predicate AllClosing(s: State)
  {
    forall id :: id in s.connections ==> s.connections[id].closing
  }

  ghost predicate StopOrder(s: State)
  {
    && (s.running <==> s.stage == NotStopping)
    && (s.accept == Gone ==> !s.running)
    && (PastAccept(s.stage) ==> s.accept == Gone)
    && (s.stage.ClosingAll? ==>
          forall id :: id in s.connections && !s.connections[id].closing ==> id in s.stage.todo)
    && (PastClosing(s.stage) ==> AllClosing(s))
  }

  ghost predicate DrainedStaysEmpty(s: State)
  {
    PastDrain(s.stage) ==> s.operations == map[]
  }

  // Workers that have not left their loop.
  ghost function Alive(workers: map<WorkerId, Worker>): set<WorkerId>
  {
    set w | w in workers && workers[w] != Exited
  }

  // Each wake packet posted has sent one worker home or is still waiting for one.
  ghost predicate Wakes(s: State)
  {
    && s.posted <= |s.workers|
    && s.packets >= 0
    && |s.workers| - |Alive(s.workers)| + s.packets == s.posted
    && (!PastDrain(s.stage) ==> s.posted == 0)
    && (s.stage == JoiningWorkers || s.stage == PortClosed ==> s.posted == |s.workers|)
    && (s.stage == PortClosed ==> Alive(s.workers) == {})
  }

  // A worker and the operation it handles agree about each other.
  ghost predicate HeldAreHandled(s: State)
  {
    forall op :: op in s.operations && s.operations[op].place.HeldBy? ==>
      WorkerOf(s, s.operations[op].place.worker) == Handling(op)
  }

  ghost predicate HandledAreHeld(s: State)
  {
    forall w :: w in s.workers && s.workers[w].Handling? ==>
      s.workers[w].operation in s.operations && s.operations[s.workers[w].operation].place == HeldBy(w)
  }

  ghost predicate Inv(s: State)
  {
    && FreshIds(s) && Counted(s)
    && ClosedBeforeErased(s) && StopOrder(s) && DrainedStaysEmpty(s)
    && Wakes(s)
    && HeldAreHandled(s) && HandledAreHeld(s)
  }

  // ------------------------------------------------------------- preservation

  lemma MapSizes<K, V>(m: map<K, V>, k: K, v: V)
    ensures |m[k := v]| == |m| + (if k in m then 0 else 1)
    ensures |m - {k}| == |m| - (if k in m then 1 else 0)
  {
    assert m[k := v].Keys == m.Keys + {k};
    assert (m - {k}).Keys == m.Keys - {k};
    assert |m.Keys - {k}| == |m.Keys| - (if k in m then 1 else 0);
    assert k in m ==> m.Keys + {k} == m.Keys;
  }

  lemma CountedKept(s: State, a: Action)
    requires FreshIds(s) && Counted(s) && Enabled(s, a)
    ensures FreshIds(Step(s, a)) && Counted(Step(s, a))
  {
    var t := Step(s, a);
    match a
    case StartOperation(id) => Built(s, t, id);
    case Submitted(op) => Relabelled(s, t, op);
    case TakeCompletion(w, op) => Relabelled(s, t, op);
    case Resubmit(w) => Relabelled(s, t, WorkerOf(s, w).operation);
    case SubmitFailed(op) => Destroyed(s, t, op);
    case DropOperation(w) => Destroyed(s, t, WorkerOf(s, w).operation);
    case _ =>
  }

  // The constructor of Operation counts it.
  lemma Built(s: State, t: State, id: ConnectionId)
    requires FreshIds(s) && Counted(s)
    requires t.operations == s.operations[s.nextOperation := Operation(id, Building)]
    requires t.nextOperation == s.nextOperation + 1 && t.pending == s.pending + 1
    ensures FreshIds(t) && Counted(t)
  {
    MapSizes(s.operations, s.nextOperation, Operation(id, Building));
  }

  lemma Relabelled(s: State, t: State, op: OperationId)
    requires FreshIds(s) && Counted(s) && op in s.operations && op in t.operations
    requires t.operations == s.operations[op := t.operations[op]]
    requires t.nextOperation == s.nextOperation && t.pending == s.pending
    ensures FreshIds(t) && Counted(t)
  {
    MapSizes(s.operations, op, t.operations[op]);
  }

  // The destructor of Operation uncounts it.
  lemma Destroyed(s: State, t: State, op: OperationId)
    requires FreshIds(s) && Counted(s) && op in s.operations
    requires t.operations == s.operations - {op}
    requires t.nextOperation == s.nextOperation && t.pending == s.pending - 1
    ensures FreshIds(t) && Counted(t)
  {
    MapSizes(s.operations, op, s.operations[op]);
  }

  lemma ClosedBeforeErasedKept(s: State, a: Action)
    requires ClosedBeforeErased(s) && Enabled(s, a)
    ensures ClosedBeforeErased(Step(s, a))
  {
    match a
    case AcceptCreate(_) =>
    case AcceptPublish =>
    case AcceptNext =>
    case AcceptExit =>
    case Close(_) =>
    case Erase(_) =>
    case StopDisconnect(_) =>
    case _ =>
  }

  lemma StopOrderKept(s: State, a: Action)
    requires ClosedBeforeErased(s) && StopOrder(s) && Enabled(s, a)
    ensures StopOrder(Step(s, a))
  {
    match a
    case AcceptCreate(_) =>
    case AcceptPublish =>
    case AcceptNext =>
    case AcceptExit =>
    case Close(_) =>
    case Erase(_) =>
    case BeginStop =>
    case AcceptJoined =>
    case StopDisconnect(_) =>
    case AllClosed =>
    case Drained =>
    case _ =>
  }

  lemma DrainedStaysEmptyKept(s: State, a: Action)
    requires Counted(s) && StopOrder(s) && DrainedStaysEmpty(s) && Enabled(s, a)
    ensures DrainedStaysEmpty(Step(s, a))
  {
    match a
    case StartOperation(_) =>
    case Drained => assert |s.operations| == 0;
    case _ =>
  }

  lemma AliveMove(workers: map<WorkerId, Worker>, w: WorkerId, to: Worker)
    requires w in workers && workers[w] != Exited
    ensures |workers[w := to]| == |workers|
    ensures Alive(workers[w := to]) == if to == Exited then Alive(workers) - {w} else Alive(workers)
    ensures |Alive(workers[w := to])| == |Alive(workers)| - (if to == Exited then 1 else 0)
  {
    MapSizes(workers, w, to);
    assert Alive(workers[w := to]) == if to == Exited then Alive(workers) - {w} else Alive(workers);
    assert |Alive(workers) - {w}| == |Alive(workers)| - 1;
  }

  lemma WakesKept(s: State, a: Action)
    requires (s.running ==> s.stage == NotStopping) && Wakes(s) && Enabled(s, a)
    ensures Wakes(Step(s, a))
  {
    match a
    case TakeCompletion(w, op) => AliveMove(s.workers, w, Handling(op));
    case Resubmit(w) => AliveMove(s.workers, w, Busy);
    case DropOperation(w) => AliveMove(s.workers, w, Busy);
    case Rest(w) => AliveMove(s.workers, w, Waiting);
    case TakeWake(w) => AliveMove(s.workers, w, Exited);
    case WorkersJoined => assert Alive(s.workers) == {};
    case _ =>
  }

  // A step in which a worker moves.
  predicate OfWorker(a: Action) { a.TakeCompletion? || a.Resubmit? || a.DropOperation? || a.Rest? || a.TakeWake? }

  lemma WorkerKeepsHeld(s: State, a: Action)
    requires HeldAreHandled(s) && HandledAreHeld(s) && Enabled(s, a) && OfWorker(a)
    ensures HeldAreHandled(Step(s, a))
  {
    match a
    case TakeCompletion(_, _) =>
    case Resubmit(_) =>
    case DropOperation(_) =>
    case Rest(_) =>
    case TakeWake(_) =>
  }

  lemma WorkerKeepsHandled(s: State, a: Action)
    requires HeldAreHandled(s) && HandledAreHeld(s) && Enabled(s, a) && OfWorker(a)
    ensures HandledAreHeld(Step(s, a))
  {
    match a
    case TakeCompletion(_, _) =>
    case Resubmit(_) =>
    case DropOperation(_) =>
    case Rest(_) =>
    case TakeWake(_) =>
  }

  lemma HeldAndHandledKept(s: State, a: Action)
    requires FreshIds(s) && HeldAreHandled(s) && HandledAreHeld(s) && Enabled(s, a)
    ensures HeldAreHandled(Step(s, a)) && HandledAreHeld(Step(s, a))
  {
    if OfWorker(a) {
      WorkerKeepsHeld(s, a);
      WorkerKeepsHandled(s, a);
    } else {
      match a
      case StartOperation(_) =>
      case Submitted(_) =>
      case SubmitFailed(_) =>
      case _ =>
    }
  }

  lemma StepKeeps(s: State, a: Action)
    requires Inv(s) && Enabled(s, a)
    ensures Inv(Step(s, a))
  {
    CountedKept(s, a);
    ClosedBeforeErasedKept(s, a);
    StopOrderKept(s, a);
    DrainedStaysEmptyKept(s, a);
    WakesKept(s, a);
    HeldAndHandledKept(s, a);
  }

  lemma {:induction false} PlayKeeps(start: State, actions: seq<Action>)
    requires Started(start)
    ensures Inv(Play(start, actions))
  {
    if actions == [] {
      assert Alive(start.workers) == start.workers.Keys;
    } else {
      var before := Play(start, actions[..|actions| - 1]);
      var last := actions[|actions| - 1];
      PlayKeeps(start, actions[..|actions| - 1]);
      if Enabled(before, last) {
        StepKeeps(before, last);
      }
    }
  }

  // ------------------------------------------------------------- main results

  /** The pending count is exact in every reachable state; once stop has passed
      the drain there is no operation, and since every connection ever created
      is closing and none can be created, none can ever start. */
  lemma DrainIsFinal(start: State, actions: seq<Action>)
    requires Started(start)
    ensures
      var s := Play(start, actions);
      && s.pending == |s.operations|
      && (PastDrain(s.stage) ==>
            && s.operations == map[] && AllClosing(s)
            && (forall id :: !Enabled(s, AcceptCreate(id)) && !Enabled(s, StartOperation(id)))
            && (forall w, op :: !Enabled(s, TakeCompletion(w, op))))
  {
    PlayKeeps(start, actions);
  }

  /** A worker leaves only on a wake packet and none is posted before the drain,
      so cancelled operations always find workers. While stop joins the workers
      there is exactly one packet for each that has not left. */
  lemma WakesMatchWorkers(start: State, actions: seq<Action>)
    requires Started(start)
    ensures
      var s := Play(start, actions);
      && (!PastDrain(s.stage) ==> Alive(s.workers) == s.workers.Keys)
      && (s.stage == JoiningWorkers ==> s.packets == |Alive(s.workers)|)
      && (s.stage == JoiningWorkers ==>
            Enabled(s, WorkersJoined)
            || exists w :: w in s.workers && (Enabled(s, TakeWake(w)) || Enabled(s, Rest(w))))
  {
    PlayKeeps(start, actions);
    var s := Play(start, actions);
    if !PastDrain(s.stage) {
      AllAlive(s);
    }
    if s.stage == JoiningWorkers && !Enabled(s, WorkersJoined) {
      var w := SomeAlive(s);
    }
  }

  lemma SomeAlive(s: State) returns (w: WorkerId)
    requires Inv(s) && s.stage == JoiningWorkers && !Enabled(s, WorkersJoined)
    ensures w in s.workers && (Enabled(s, TakeWake(w)) || Enabled(s, Rest(w)))
  {
    w :| w in s.workers && s.workers[w] != Exited;
    assert w in Alive(s.workers);
    assert s.packets > 0;
  }

  lemma AllAlive(s: State)
    requires Wakes(s) && s.posted == 0
    ensures Alive(s.workers) == s.workers.Keys
  {
    var gone := s.workers.Keys - Alive(s.workers);
    assert s.workers.Keys == Alive(s.workers) + gone;
    assert |s.workers.Keys| == |Alive(s.workers)| + |gone|;
    assert gone == {};
  }

  /** When the port is closed nobody uses it: no worker is left, no operation is
      live and no packet is queued. */
  lemma PortClosesUnused(start: State, actions: seq<Action>)
    requires Started(start) && Play(start, actions).stage == PortClosed
    ensures
      var s := Play(start, actions);
      && (forall w :: w in s.workers ==> s.workers[w] == Exited)
      && s.operations == map[] && s.pending == 0 && s.packets == 0
      && s.accept == Gone
  {
    PlayKeeps(start, actions);
    var s := Play(start, actions);
    forall w | w in s.workers
      ensures s.workers[w] == Exited
    {
      assert w !in Alive(s.workers);
    }
  }

  /** The drain cannot get stuck: as long as an operation is live and the server
      has a worker, some thread can act on one, or a worker can return to the port. */
  lemma DrainProgresses(start: State, actions: seq<Action>, worker: WorkerId)
    requires Started(start) && worker in Play(start, actions).workers
    requires Play(start, actions).stage == Draining && Play(start, actions).pending > 0
    ensures
      var s := Play(start, actions);
      || (exists op :: Enabled(s, Submitted(op)))
      || (exists op :: Enabled(s, TakeCompletion(worker, op)))
      || (exists w :: Enabled(s, DropOperation(w)))
      || Enabled(s, Rest(worker))
  {
    PlayKeeps(start, actions);
    var s := Play(start, actions);
    AllAlive(s);
    assert worker in Alive(s.workers);
    var op :| op in s.operations;
    match s.operations[op].place
    case Building => assert Enabled(s, Submitted(op));
    case HeldBy(w) => assert Enabled(s, DropOperation(w));
    case InSystem =>
      match s.workers[worker]
      case Waiting => assert Enabled(s, TakeCompletion(worker, op));
      case Handling(_) => assert Enabled(s, DropOperation(worker));
      case Busy => assert Enabled(s, Rest(worker));
  }

  // What brings stop forward, done by itself or by a thread it waits for.
  predicate Forward(a: Action)
  {
    || a.AcceptPublish? || a.AcceptNext? || a.AcceptExit? || a.AcceptJoined?
    || a.StopDisconnect? || a.AllClosed?
    || a.Submitted? || a.TakeCompletion? || a.DropOperation? || a.Rest? || a.Drained?
    || a.PostWake? || a.AllPosted? || a.TakeWake? || a.WorkersJoined?
  }

  lemma AcceptIsJoined(s: State) returns (a: Action)
    requires Inv(s) && s.stage == JoiningAccept
    ensures Forward(a) && Enabled(s, a)
  {
    match s.accept
    case Looping => a := AcceptExit;
    case Created(_) => a := AcceptPublish;
    case Published(_) => a := AcceptNext;
    case Gone => a := AcceptJoined;
  }

  lemma DrainGoesOn(start: State, actions: seq<Action>, worker: WorkerId) returns (a: Action)
    requires Started(start) && worker in Play(start, actions).workers && Play(start, actions).stage == Draining
    ensures Forward(a) && Enabled(Play(start, actions), a)
  {
    PlayKeeps(start, actions);
    var s := Play(start, actions);
    if s.pending == 0 {
      a := Drained;
    } else {
      DrainProgresses(start, actions, worker);
      if op :| Enabled(s, Submitted(op)) {
        a := Submitted(op);
      } else if op :| Enabled(s, TakeCompletion(worker, op)) {
        a := TakeCompletion(worker, op);
      } else if w :| Enabled(s, DropOperation(w)) {
        a := DropOperation(w);
      } else {
        a := Rest(worker);
      }
    }
  }

  lemma WorkersGo(start: State, actions: seq<Action>) returns (a: Action)
    requires Started(start) && Play(start, actions).stage == JoiningWorkers
    ensures Forward(a) && Enabled(Play(start, actions), a)
  {
    PlayKeeps(start, actions);
    var s := Play(start, actions);
    a := WorkersJoined;
    if !Enabled(s, WorkersJoined) {
      var w := SomeAlive(s);
      a := if Enabled(s, TakeWake(w)) then TakeWake(w) else Rest(w);
    }
  }

  /** Once stop has begun it never gets stuck, at none of its stages: until the port
      is closed there is a step to take, by stop or by a thread it waits for. */
  lemma StopProgresses(start: State, actions: seq<Action>, worker: WorkerId)
    requires Started(start) && worker in Play(start, actions).workers
    requires Play(start, actions).stage !in {NotStopping, PortClosed}
    ensures exists a :: Forward(a) && Enabled(Play(start, actions), a)
  {
    PlayKeeps(start, actions);
    var s := Play(start, actions);
    match s.stage
    case JoiningAccept => var a := AcceptIsJoined(s);
    case ClosingAll(todo) =>
      if todo == {} {
        assert Forward(AllClosed) && Enabled(s, AllClosed);
      } else {
        var id :| id in todo;
        assert Forward(StopDisconnect(id)) && Enabled(s, StopDisconnect(id));
      }
    case Draining => var a := DrainGoesOn(start, actions, worker);
    case Waking => assert (Forward(PostWake) && Enabled(s, PostWake)) || (Forward(AllPosted) && Enabled(s, AllPosted));
    case JoiningWorkers => var a := WorkersGo(start, actions);
    case _ =>
  }

  // An accepted connection is open until somebody closes it.
  predicate StaysOpen(open: bool, a: Action, id: ConnectionId)
  {
    (a == AcceptCreate(id) || open) && a != Close(id) && a != StopDisconnect(id)
  }

  // Whether it is open, read off the steps that were taken.
  ghost predicate OpenNow(start: State, actions: seq<Action>, id: ConnectionId)
  {
    actions != []
    && var front, last := actions[..|actions| - 1], actions[|actions| - 1];
       if Enabled(Play(start, front), last) then StaysOpen(OpenNow(start, front, id), last, id)
       else OpenNow(start, front, id)
  }

  predicate IsOpen(s: State, id: ConnectionId) { id in s.connections && !s.connections[id].closing }

  lemma DisconnectCloses(s: State, other: ConnectionId, id: ConnectionId)
    requires ClosedBeforeErased(s) && StopOrder(s) && Enabled(s, StopDisconnect(other))
    ensures IsOpen(Step(s, StopDisconnect(other)), id) <==> IsOpen(s, id) && other != id
  {
  }

  lemma OpenMoves(s: State, a: Action, id: ConnectionId)
    requires ClosedBeforeErased(s) && StopOrder(s) && Enabled(s, a)
    ensures IsOpen(Step(s, a), id) <==> StaysOpen(IsOpen(s, id), a, id)
  {
    match a
    case StopDisconnect(other) => DisconnectCloses(s, other, id);
    case AcceptCreate(_) =>
    case AcceptPublish =>
    case Close(_) =>
    case Erase(_) =>
    case _ =>
  }

  /** An operation can be started on a connection from its acceptance until somebody
      closes it, also while the server is stopping. */
  lemma StartAnswers(start: State, actions: seq<Action>, id: ConnectionId)
    requires Started(start)
    ensures Enabled(Play(start, actions), StartOperation(id)) <==> OpenNow(start, actions, id)
  {
    OpenIsOpen(start, actions, id);
  }

  lemma {:induction false} OpenIsOpen(start: State, actions: seq<Action>, id: ConnectionId)
    requires Started(start)
    ensures IsOpen(Play(start, actions), id) <==> OpenNow(start, actions, id)
  {
    if actions != [] {
      var front, last := actions[..|actions| - 1], actions[|actions| - 1];
      PlayKeeps(start, front);
      OpenIsOpen(start, front, id);
      if Enabled(Play(start, front), last) {
        OpenMoves(Play(start, front), last, id);
      }
    }
  }

  // ------------------------------------------------------------ the drain ends

  // What is still to happen to an operation: it is submitted, completed, dropped.
  function Weight(place: Place): nat
  {
    match place case Building => 5 case InSystem => 4 case HeldBy(_) => 2
  }

  ghost function Placed(operations: map<OperationId, Operation>, weight: nat): set<OperationId>
  {
    set op | op in operations && Weight(operations[op].place) == weight
  }

  // Workers that have an operation, or something left to do after one.
  ghost function Occupied(workers: map<WorkerId, Worker>): set<WorkerId>
  {
    set w | w in workers && (workers[w].Handling? || workers[w] == Busy)
  }

  // The work left to the threads of a draining server.
  ghost function Work(s: State): nat
  {
    OperationWork(s.operations) + |Occupied(s.workers)| + |Registered(s)|
  }

  ghost function OperationWork(operations: map<OperationId, Operation>): nat
  {
    5 * |Placed(operations, 5)| + 4 * |Placed(operations, 4)| + 2 * |Placed(operations, 2)|
  }

  lemma SetMoves<T>(before: set<T>, after: set<T>, x: T)
    requires after == before + {x} || after == before - {x}
    ensures |after| == |before| + (if x in after then 1 else 0) - (if x in before then 1 else 0)
  {
    if x in before {
      assert before + {x} == before;
    } else {
      assert before - {x} == before;
    }
  }

  // One operation moves to another place, or leaves.
  lemma PlacedMoves(before: map<OperationId, Operation>, after: map<OperationId, Operation>, op: OperationId, weight: nat)
    requires op in before && after - {op} == before - {op}
    ensures |Placed(after, weight)| == |Placed(before, weight)|
              + (if op in after && Weight(after[op].place) == weight then 1 else 0)
              - (if Weight(before[op].place) == weight then 1 else 0)
  {
    forall other | other != op
      ensures other in Placed(after, weight) <==> other in Placed(before, weight)
    {
      assert other in after <==> other in after - {op};
      assert other in before <==> other in before - {op};
      assert other in after ==> after[other] == (after - {op})[other];
      assert other in before ==> before[other] == (before - {op})[other];
    }
    if op in Placed(after, weight) {
      assert Placed(after, weight) == Placed(before, weight) + {op};
    } else {
      assert Placed(after, weight) == Placed(before, weight) - {op};
    }
    SetMoves(Placed(before, weight), Placed(after, weight), op);
  }

  lemma AllPlacesMove(before: map<OperationId, Operation>, after: map<OperationId, Operation>, op: OperationId)
    requires op in before && after - {op} == before - {op}
    ensures OperationWork(after) == OperationWork(before)
            + (if op in after then Weight(after[op].place) else 0) - Weight(before[op].place)
  {
    PlacedMoves(before, after, op, 5);
    PlacedMoves(before, after, op, 4);
    PlacedMoves(before, after, op, 2);
  }

  lemma OccupiedMoves(workers: map<WorkerId, Worker>, w: WorkerId, to: Worker)
    requires w in workers
    ensures |Occupied(workers[w := to])| == |Occupied(workers)|
              + (if to.Handling? || to == Busy then 1 else 0)
              - (if workers[w].Handling? || workers[w] == Busy then 1 else 0)
  {
    var after := Occupied(workers[w := to]);
    if w in after {
      assert after == Occupied(workers) + {w};
    } else {
      assert after == Occupied(workers) - {w};
    }
    SetMoves(Occupied(workers), after, w);
  }

  lemma ErasingLowers(s: State, id: ConnectionId)
    requires Enabled(s, Erase(id))
    ensures |Registered(Step(s, Erase(id)))| < |Registered(s)|
  {
    assert Registered(Step(s, Erase(id))) == Registered(s) - {id};
    SetMoves(Registered(s), Registered(Step(s, Erase(id))), id);
  }

  // What threads can still do while the server drains: nothing that starts work.
  predicate Winding(a: Action)
  {
    a.Close? || a.Erase? || a.Submitted? || a.SubmitFailed? || a.TakeCompletion? || a.DropOperation? || a.Rest?
  }

  lemma OnlyWinding(s: State, a: Action)
    requires Inv(s) && s.stage == Draining && Enabled(s, a) && a != Drained
    ensures Winding(a) && Step(s, a).stage == Draining
  {
    AllAlive(s);
    assert AllClosing(s) && s.packets == 0;
    match a
    case StartOperation(_) =>
    case Resubmit(_) =>
    case _ =>
  }

  lemma SameRegistered(s: State, t: State)
    requires t.connections == s.connections
    ensures Registered(t) == Registered(s)
  {
  }

  // A step at one operation and at most one worker.
  lemma WorkMoves(s: State, t: State, op: OperationId)
    requires op in s.operations && t.operations - {op} == s.operations - {op} && t.connections == s.connections
    ensures Work(t) == Work(s) + (if op in t.operations then Weight(t.operations[op].place) else 0)
                         - Weight(s.operations[op].place) + |Occupied(t.workers)| - |Occupied(s.workers)|
  {
    AllPlacesMove(s.operations, t.operations, op);
    SameRegistered(s, t);
  }

  lemma SubmittingLowers(s: State, op: OperationId)
    requires Enabled(s, Submitted(op))
    ensures Work(Step(s, Submitted(op))) < Work(s)
  {
    Removing(s.operations, op, s.operations[op].(place := InSystem));
    WorkMoves(s, Step(s, Submitted(op)), op);
  }

  lemma FailingLowers(s: State, op: OperationId)
    requires Enabled(s, SubmitFailed(op))
    ensures Work(Step(s, SubmitFailed(op))) < Work(s)
  {
    Removing(s.operations, op, s.operations[op]);
    WorkMoves(s, Step(s, SubmitFailed(op)), op);
  }

  lemma Removing(operations: map<OperationId, Operation>, op: OperationId, x: Operation)
    ensures operations[op := x] - {op} == operations - {op}
    ensures operations - {op} - {op} == operations - {op}
  {
  }

  lemma TakingLowers(s: State, w: WorkerId, op: OperationId)
    requires Enabled(s, TakeCompletion(w, op)) && w in s.workers
    ensures Work(Step(s, TakeCompletion(w, op))) < Work(s)
  {
    var t := Step(s, TakeCompletion(w, op));
    Removing(s.operations, op, t.operations[op]);
    WorkMoves(s, t, op);
    OccupiedMoves(s.workers, w, Handling(op));
  }

  lemma DroppingLowers(s: State, w: WorkerId)
    requires Enabled(s, DropOperation(w)) && w in s.workers
    ensures Work(Step(s, DropOperation(w))) < Work(s)
  {
    var t, op := Step(s, DropOperation(w)), WorkerOf(s, w).operation;
    Removing(s.operations, op, s.operations[op]);
    WorkMoves(s, t, op);
    OccupiedMoves(s.workers, w, Busy);
  }

  lemma RestingLowers(s: State, w: WorkerId)
    requires Enabled(s, Rest(w)) && w in s.workers
    ensures Work(Step(s, Rest(w))) < Work(s)
  {
    OccupiedMoves(s.workers, w, Waiting);
    SameRegistered(s, Step(s, Rest(w)));
  }

  lemma ClosingAgain(s: State, id: ConnectionId)
    requires Enabled(s, Close(id)) && AllClosing(s)
    ensures Step(s, Close(id)) == s
  {
    assert s.connections[id := s.connections[id].(closing := true)] == s.connections;
  }

  /** While the server drains, every step any thread can take leaves the state as it
      is (closing a connection that is closing) or lowers the work that is left, and
      the server stays draining until stop passes the barrier. DrainProgresses finds
      such a step as long as an operation is live, so the drain ends. */
  lemma DrainStepsLower(s: State, a: Action)
    requires Inv(s) && s.stage == Draining && Enabled(s, a) && a != Drained
    ensures Step(s, a).stage == Draining
    ensures Step(s, a) == s || Work(Step(s, a)) < Work(s)
  {
    OnlyWinding(s, a);
    match a
    case Close(id) => ClosingAgain(s, id);
    case Erase(id) => ErasingLowers(s, id);
    case Submitted(op) => SubmittingLowers(s, op);
    case SubmitFailed(op) => FailingLowers(s, op);
    case TakeCompletion(w, op) => TakingLowers(s, w, op);
    case DropOperation(w) => DroppingLowers(s, w);
    case Rest(w) => RestingLowers(s, w);
    case _ =>
  }

  // Steps of threads that change something, one after another, before stop passes
  // the barrier.
  ghost predicate Effective(s: State, actions: seq<Action>)
    decreases |actions|
  {
    actions == []
    || (Enabled(s, actions[0]) && actions[0] != Drained && Step(s, actions[0]) != s
        && Effective(Step(s, actions[0]), actions[1..]))
  }

  /** However the threads take turns, the drain has no more steps than work. */
  lemma {:induction false} DrainIsBounded(s: State, actions: seq<Action>)
    requires Inv(s) && s.stage == Draining && Effective(s, actions)
    ensures |actions| <= Work(s)
    decreases |actions|
  {
    if actions != [] {
      DrainStepsLower(s, actions[0]);
      StepKeeps(s, actions[0]);
      DrainIsBounded(Step(s, actions[0]), actions[1..]);
    }
  }

  // ------------------------------------------------------- the imperative form

  // The completion port: the count its operations keep, inside a server whose
  // connections, operations and workers are as the machine has them.
  class CompletionPort {
    var pendingOperations: int
    ghost var server: State

    ghost function Model(): State
      reads this
    {
      server.(pending := pendingOperations)
    }

    constructor (ghost start: State)
      requires Started(start)
      ensures Model() == start
    {
      pendingOperations := 0;
      server := start;
    }

    // The constructor of an operation: the count stays that of the operations that
    // are live.
    method OperationStarted(ghost id: ConnectionId)
      requires FreshIds(Model()) && Counted(Model()) && Enabled(Model(), StartOperation(id))
      modifies this
      ensures Model() == Step(old(Model()), StartOperation(id))
      ensures Counted(Model()) && Model().operations != map[]
    {
      ghost var next := Step(Model(), StartOperation(id));
      CountedKept(Model(), StartOperation(id));
      pendingOperations := pendingOperations + 1;
      server := next;
      assert server.nextOperation - 1 in Model().operations;
    }

    // Its destructor: the waiter is woken exactly when no operation is live.
    method OperationFinished(ghost a: Action) returns (drained: bool)
      requires FreshIds(Model()) && Counted(Model()) && Enabled(Model(), a) && (a.SubmitFailed? || a.DropOperation?)
      modifies this
      ensures Model() == Step(old(Model()), a)
      ensures Counted(Model()) && (drained <==> Model().operations == map[])
    {
      ghost var next := Step(Model(), a);
      CountedKept(Model(), a);
      pendingOperations := pendingOperations - 1;
      server := next;
      drained := pendingOperations == 0;
    }
  }
}
