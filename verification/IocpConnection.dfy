/** The send side of one IOCP connection and the sections of its methods
    (src/Net/Iocp/Connection.cpp), and the registry operations of the server
    (src/Net/Iocp/ServerConnections.cpp).

    Each method runs under the connection's mutex. WSASend accepts or rejects a
    buffer, and the system completes any positive part of what it was given. */
module IocpConnection {
  import opened Prelude
  import Callbacks = IocpCallbacks

  const ULONG_MAX: nat := 0xFFFF_FFFF

  // The one send operation owned by the system: its buffer and what is done.
  datatype SendOperation = SendOperation(buffer: Bytes, offset: nat)

  // The connection's fields, and a record of the bytes accepted from callers,
  // the bytes completed by the system, and the bytes dropped on failure.
  datatype Sender = Sender(closing: bool, queue: seq<Bytes>, inProgress: bool, inFlight: Option<SendOperation>,
                           accepted: Bytes, completed: Bytes, lost: nat)

  function Open(): Sender { Sender(false, [], false, None, [], [], 0) }

  function Remainder(s: Sender): Bytes
  {
    if s.inFlight.Some? && s.inFlight.value.offset <= |s.inFlight.value.buffer|
    then s.inFlight.value.buffer[s.inFlight.value.offset..] else []
  }

  // The buffer moved into an operation that cannot be submitted is gone.
  function PostNext(s: Sender, submits: bool): (Sender, bool)
  {
    if s.queue == [] then (s.(inProgress := false), true)
    else if submits then
      (s.(queue := s.queue[1..], inProgress := true, inFlight := Some(SendOperation(s.queue[0], 0))), true)
    else
      (s.(queue := s.queue[1..], inProgress := false, lost := s.lost + |s.queue[0]|), false)
  }

  datatype Action =
    | Send(data: Bytes, submits: bool)
    | Complete(transferred: nat, submits: bool)
    | Abort  // the worker destroys an operation that failed or completed with nothing
    | Close

  // The server drops empty sends before they reach the connection; a completion
  // reports a positive part of the single buffer given to WSASend.
  predicate Possible(s: Sender, a: Action)
  {
    match a
    case Send(data, _) => data != []
    case Complete(transferred, _) =>
      s.inFlight.Some? && 0 < transferred <= |Remainder(s)| && transferred <= ULONG_MAX
    case Abort => s.inFlight.Some?
    case Close => true
  }

  function Step(s: Sender, a: Action): (Sender, bool)
  {
    match a
    case Send(data, submits) =>
      if s.closing then (s, false)
      else
        var queued := s.(queue := s.queue + [data], accepted := s.accepted + data);
        if queued.inProgress then (queued, true) else PostNext(queued, submits)
    case Complete(transferred, submits) =>
      if s.inFlight.None? || transferred > |Remainder(s)| then (s, false)
      else if s.closing then (s.(inFlight := None), true)
      else
        var operation := s.inFlight.value;
        var offset := operation.offset + transferred;
        var done := s.(completed := s.completed + Remainder(s)[..transferred]);
        if offset < |operation.buffer| then
          if submits then (done.(inFlight := Some(operation.(offset := offset))), true)
          else (done.(inFlight := None, lost := s.lost + |operation.buffer| - offset), false)
        else PostNext(done.(inFlight := None), submits)
    case Abort => (s.(inFlight := None, lost := s.lost + |Remainder(s)|), false)
    case Close => if s.closing then (s, true) else (s.(closing := true, queue := []), true)
  }

  function Play(actions: seq<Action>): Sender
  {
    if actions == [] then Open()
    else
      var before := Play(actions[..|actions| - 1]);
      var last := actions[|actions| - 1];
      if Possible(before, last) then Step(before, last).0 else before
  }

  // ---------------------------------------------------------------- invariant

  function Unsent(s: Sender): Bytes { Remainder(s) + Flatten(s.queue) }

  // The bytes are all there, in order.
  ghost predicate Conserved(s: Sender)
  {
    s.completed + Unsent(s) == s.accepted
  }

  ghost predicate NonEmpty(queue: seq<Bytes>)
  {
    forall i :: 0 <= i < |queue| ==> queue[i] != []
  }

  ghost predicate OneWriter(s: Sender)
  {
    && (s.inFlight.Some? ==> s.inProgress && s.inFlight.value.offset < |s.inFlight.value.buffer|)
    && (s.lost == 0 && !s.closing ==> (s.inProgress <==> s.inFlight.Some?))
    && (s.lost == 0 && !s.closing && !s.inProgress ==> s.queue == [])
    && NonEmpty(s.queue)
  }

  ghost predicate Balanced(s: Sender)
  {
    && |s.completed| + |Unsent(s)| + s.lost == |s.accepted|
    && (s.lost == 0 ==> Conserved(s))
  }

  ghost predicate Inv(s: Sender)
  {
    OneWriter(s) && (!s.closing ==> Balanced(s))
  }

  lemma PopFront(queue: seq<Bytes>)
    requires queue != []
    ensures Flatten(queue) == queue[0] + Flatten(queue[1..])
  {
    FlattenPushFront(queue[0], queue[1..]);
    assert queue == [queue[0]] + queue[1..];
  }

  lemma PushBack(queue: seq<Bytes>, data: Bytes)
    ensures Flatten(queue + [data]) == Flatten(queue) + data
  {
    assert (queue + [data])[..|queue|] == queue;
  }

  lemma PostKeeps(s: Sender, submits: bool)
    requires !s.closing && s.inFlight.None? && NonEmpty(s.queue) && Balanced(s)
    ensures Inv(PostNext(s, submits).0)
    ensures s.lost > 0 ==> PostNext(s, submits).0.lost > 0
  {
    if s.queue != [] {
      PopFront(s.queue);
      var t := PostNext(s, submits).0;
      assert s.queue[0] != [];
      assert Unsent(s) == s.queue[0] + Flatten(s.queue[1..]);
      if submits {
        assert Remainder(t) == s.queue[0];
      }
      if t.lost == 0 {
        assert Unsent(t) == Unsent(s);
      }
    }
  }

  lemma SendKeeps(s: Sender, data: Bytes, submits: bool)
    requires Inv(s) && data != []
    ensures Inv(Step(s, Send(data, submits)).0)
  {
    if !s.closing {
      var queued := s.(queue := s.queue + [data], accepted := s.accepted + data);
      PushBack(s.queue, data);
      assert Remainder(queued) == Remainder(s);
      assert Unsent(queued) == Unsent(s) + data;
      assert s.completed + (Unsent(s) + data) == s.completed + Unsent(s) + data;
      assert Balanced(queued);
      if !s.inProgress {
        PostKeeps(queued, submits);
      }
    }
  }

  // Part of the buffer is done, and the rest is submitted again or lost.
  lemma PartKeeps(s: Sender, transferred: nat, submits: bool)
    requires Inv(s) && !s.closing && s.inFlight.Some? && 0 < transferred < |Remainder(s)|
    ensures Inv(Step(s, Complete(transferred, submits)).0)
  {
    var operation := s.inFlight.value;
    var rest := Remainder(s);
    var done := s.(completed := s.completed + rest[..transferred]);
    BytesMove(s.completed, rest, transferred, Flatten(s.queue));
    var next := done.(inFlight := Some(operation.(offset := operation.offset + transferred)));
    assert Remainder(next) == rest[transferred..];
  }

  // The buffer is done, and the queue goes on.
  lemma WholeKeeps(s: Sender, submits: bool)
    requires Inv(s) && !s.closing && s.inFlight.Some?
    ensures Inv(Step(s, Complete(|Remainder(s)|, submits)).0)
  {
    var rest := Remainder(s);
    var idle := s.(completed := s.completed + rest, inFlight := None);
    BytesMove(s.completed, rest, |rest|, Flatten(s.queue));
    assert rest[..|rest|] == rest && rest[|rest|..] == [];
    assert Unsent(idle) == [] + Flatten(s.queue);
    PostKeeps(idle, submits);
  }

  lemma CompleteKeeps(s: Sender, transferred: nat, submits: bool)
    requires Inv(s) && Possible(s, Complete(transferred, submits))
    ensures Inv(Step(s, Complete(transferred, submits)).0)
  {
    if !s.closing {
      if transferred < |Remainder(s)| {
        PartKeeps(s, transferred, submits);
      } else {
        WholeKeeps(s, submits);
      }
    }
  }

  lemma BytesMove(done: Bytes, rest: Bytes, n: nat, queued: Bytes)
    requires n <= |rest|
    ensures done + (rest + queued) == done + rest[..n] + (rest[n..] + queued)
  {
    assert rest == rest[..n] + rest[n..];
  }

  lemma {:induction false} PlayKeeps(actions: seq<Action>)
    ensures Inv(Play(actions))
  {
    if actions == [] {
      assert Unsent(Open()) == [];
    } else {
      var before := Play(actions[..|actions| - 1]);
      var last := actions[|actions| - 1];
      PlayKeeps(actions[..|actions| - 1]);
      if Possible(before, last) {
        match last
        case Send(data, submits) => SendKeeps(before, data, submits);
        case Complete(transferred, submits) => CompleteKeeps(before, transferred, submits);
        case Abort =>
        case Close =>
      }
    }
  }

  // The guards of the branches that drop a buffer: a submission is refused while
  // there is a buffer to submit, or the worker gives an operation up.
  predicate Drops(s: Sender, a: Action)
  {
    match a
    case Send(_, submits) => !submits && !s.closing && !s.inProgress
    case Complete(transferred, submits) =>
      !submits && !s.closing && (transferred < |Remainder(s)| || s.queue != [])
    case Abort => true
    case Close => false
  }

  // The step at i of a run drops a buffer.
  predicate DropsAt(actions: seq<Action>, i: nat)
    requires i < |actions|
  {
    Possible(Play(actions[..i]), actions[i]) && Drops(Play(actions[..i]), actions[i])
  }

  ghost predicate NothingDropped(actions: seq<Action>)
  {
    forall i :: 0 <= i < |actions| ==> !DropsAt(actions, i)
  }

  /** A step loses bytes exactly when the guard of a dropping branch holds. */
  lemma DropsLose(s: Sender, a: Action)
    requires Inv(s) && Possible(s, a)
    ensures if Drops(s, a) then Step(s, a).0.lost > s.lost else Step(s, a).0.lost == s.lost
  {
    match a
    case Send(data, submits) =>
      if !s.closing && !s.inProgress {
        var queued := s.queue + [data];
        assert queued[0] == if s.queue == [] then data else s.queue[0];
      }
    case Complete(_, _) =>
      if s.queue != [] {
        assert s.queue[0] != [];
      }
    case Abort =>
    case Close =>
  }

  lemma DropsAtFront(actions: seq<Action>, i: nat)
    requires i < |actions| - 1
    ensures DropsAt(actions[..|actions| - 1], i) == DropsAt(actions, i)
  {
    assert actions[..|actions| - 1][..i] == actions[..i];
  }

  lemma {:induction false} LostByDropping(actions: seq<Action>)
    ensures Play(actions).lost == 0 <==> NothingDropped(actions)
  {
    if actions != [] {
      var n := |actions| - 1;
      var front := actions[..n];
      PlayKeeps(front);
      LostByDropping(front);
      if Possible(Play(front), actions[n]) {
        DropsLose(Play(front), actions[n]);
      }
      forall i | 0 <= i < n
        ensures DropsAt(actions, i) == DropsAt(front, i)
      {
        DropsAtFront(actions, i);
      }
      assert DropsAt(actions, n) == (Possible(Play(front), actions[n]) && Drops(Play(front), actions[n]));
    }
  }

  // ----------------------------------------- what callers and the system did

  // The callers have closed the connection at some time of the run.
  predicate Closed(actions: seq<Action>) { Action.Close in actions }

  // All data that callers sent before the connection was closed, in order.
  function Offered(actions: seq<Action>): Bytes
  {
    if actions == [] then []
    else
      var front, last := actions[..|actions| - 1], actions[|actions| - 1];
      Offered(front) + if last.Send? && !Closed(front) then last.data else []
  }

  // How many bytes the system has completed in all, up to the close.
  function Transferred(actions: seq<Action>): nat
  {
    if actions == [] then 0
    else
      var front, last := actions[..|actions| - 1], actions[|actions| - 1];
      Transferred(front)
      + if last.Complete? && Possible(Play(front), last) && !Closed(front) then last.transferred else 0
  }

  // Only a Close closes, and it does.
  lemma {:induction false} ClosingMeansClosed(actions: seq<Action>)
    ensures Play(actions).closing <==> Closed(actions)
  {
    if actions != [] {
      var front, last := actions[..|actions| - 1], actions[|actions| - 1];
      ClosingMeansClosed(front);
      assert actions == front + [last];
    }
  }

  lemma {:induction false} AcceptedIsOffered(actions: seq<Action>)
    ensures Play(actions).accepted == Offered(actions)
  {
    if actions != [] {
      var front, last := actions[..|actions| - 1], actions[|actions| - 1];
      AcceptedIsOffered(front);
      ClosingMeansClosed(front);
      assert Offered(front) + [] == Offered(front);
    }
  }

  lemma {:induction false} CompletedIsTransferred(actions: seq<Action>)
    ensures |Play(actions).completed| == Transferred(actions)
  {
    if actions != [] {
      var front, last := actions[..|actions| - 1], actions[|actions| - 1];
      CompletedIsTransferred(front);
      ClosingMeansClosed(front);
    }
  }

  /** While the connection is open, the bytes completed, the rest of the one
      operation in flight and the queued buffers are, in this order, exactly the
      data that callers have sent, if and only if no step of the run met the guard
      of a dropping branch; the completed bytes, as many as the system reported, are
      then a prefix of that data, and all of it once nothing is in progress. */
  lemma StreamConserved(actions: seq<Action>)
    requires !Closed(actions)
    ensures
      var s := Play(actions);
      && (s.completed + Unsent(s) == Offered(actions) <==> NothingDropped(actions))
      && |s.completed| == Transferred(actions)
      && (NothingDropped(actions) ==> s.completed <= Offered(actions) && (s.inProgress <==> s.inFlight.Some?))
      && (NothingDropped(actions) && !s.inProgress ==> s.completed == Offered(actions))
  {
    PlayKeeps(actions);
    LostByDropping(actions);
    ClosingMeansClosed(actions);
    AcceptedIsOffered(actions);
    CompletedIsTransferred(actions);
    var s := Play(actions);
    if s.lost == 0 && !s.inProgress {
      assert Unsent(s) == [];
    }
  }

  /** A send is answered true exactly when the connection has not been closed and no
      submission was refused for it: one in progress takes the data into the queue,
      and otherwise the front of the queue is submitted at once. A completion is
      answered false exactly when what it wanted to submit next was refused. */
  lemma SendAnswers(actions: seq<Action>, data: Bytes, submits: bool)
    requires data != []
    ensures
      var s := Play(actions);
      && (Step(s, Send(data, submits)).1 <==> !Closed(actions) && (s.inProgress || submits))
      && Offered(actions + [Send(data, submits)]) == Offered(actions) + (if Closed(actions) then [] else data)
      && (!Closed(actions) ==> Step(s, Send(data, submits)).0.inProgress == (s.inProgress || submits))
  {
    ClosingMeansClosed(actions);
    assert (actions + [Send(data, submits)])[..|actions|] == actions;
  }

  lemma CompletionAnswers(actions: seq<Action>, transferred: nat, submits: bool)
    requires Possible(Play(actions), Complete(transferred, submits))
    ensures
      var s := Play(actions);
      Step(s, Complete(transferred, submits)).1 <==>
        Closed(actions) || submits || (transferred == |Remainder(s)| && s.queue == [])
  {
    ClosingMeansClosed(actions);
  }

  /** After a failed submission a connection that has not been closed yet still
      accepts and completes later sends, so the peer can receive a stream with a
      gap: here 2 arrives without 1. */
  lemma GapAfterFailedSubmit()
    ensures
      var s := Play([Send([1], false), Send([2], true), Complete(1, true)]);
      !s.closing && s.accepted == [1, 2] && s.completed == [2]
  {
    var a := [Send([1], false), Send([2], true), Complete(1, true)];
    assert a[..2] == [Send([1], false), Send([2], true)];
    assert a[..2][..1] == [Send([1], false)];
    assert a[..2][..1][..0] == [];
    var first: Bytes, second: Bytes := [1], [2];
    assert Play(a[..2][..1][..0]) == Open();
    var s1 := Play(a[..2][..1]);
    assert [] + [first] == [first] && [first][1..] == [] && [] + first == first;
    assert s1 == Step(Open(), Send(first, false)).0;
    assert s1.queue == [] && s1.accepted == first && s1.inFlight == None;
    var s2 := Play(a[..2]);
    assert [] + [second] == [second] && [second][1..] == [];
    assert s2 == Step(s1, Send(second, true)).0;
    assert s2.inFlight == Some(SendOperation(second, 0));
    assert Remainder(s2) == [2];
  }

  // ------------------------------------------------------- the imperative form

  class Connection {
    const id: nat
    var closing: bool
    var sendQueue: seq<Bytes>
    var sendInProgress: bool
    var inFlight: Option<SendOperation>
    var activeCallbacks: int
    var disconnectPending: bool
    ghost var accepted: Bytes
    ghost var completed: Bytes
    ghost var lost: nat

    ghost function Model(): Sender
      reads this
    {
      Sender(closing, sendQueue, sendInProgress, inFlight, accepted, completed, lost)
    }

    constructor (id: nat)
      ensures this.id == id && Model() == Open() && activeCallbacks == 0 && !disconnectPending
    {
      this.id := id;
      closing, sendQueue, sendInProgress, inFlight := false, [], false, None;
      activeCallbacks, disconnectPending := 0, false;
      accepted, completed, lost := [], [], 0;
    }

    method Close()
      modifies this`closing, this`sendQueue
      ensures Model() == Step(old(Model()), Action.Close).0 && closing
    {
      if closing {
        return;
      }
      closing := true;
      sendQueue := [];
    }

    method BeginCallback() returns (entered: bool)
      modifies this`activeCallbacks
      ensures entered <==> !closing
      ensures activeCallbacks == old(activeCallbacks) + (if entered then 1 else 0)
    {
      if closing {
        return false;
      }
      activeCallbacks := activeCallbacks + 1;
      return true;
    }

    method EndCallback() returns (notify: bool)
      modifies this`activeCallbacks, this`disconnectPending
      ensures (activeCallbacks, disconnectPending, notify)
           == Callbacks.Leave(old(activeCallbacks), old(disconnectPending))
    {
      activeCallbacks := activeCallbacks - 1;
      if activeCallbacks == 0 && disconnectPending {
        disconnectPending := false;
        return true;
      }
      return false;
    }

    method RequestDisconnectNotification() returns (notify: bool)
      modifies this`disconnectPending
      ensures (disconnectPending, notify) == Callbacks.Request(activeCallbacks, old(disconnectPending))
    {
      if activeCallbacks == 0 {
        return true;
      }
      disconnectPending := true;
      return false;
    }

    method SendBytes(data: Bytes) returns (ok: bool, ghost submits: bool)
      modifies this`sendQueue, this`sendInProgress, this`inFlight, this`accepted, this`lost
      ensures (Model(), ok) == Step(old(Model()), Send(data, submits))
    {
      submits := true;
      if closing {
        return false, submits;
      }
      sendQueue := sendQueue + [data];
      accepted := accepted + data;
      if sendInProgress {
        return true, submits;
      }
      ok, submits := PostNextSend();
    }

    method PostNextSend() returns (ok: bool, ghost submits: bool)
      modifies this`sendQueue, this`sendInProgress, this`inFlight, this`lost
      ensures (Model(), ok) == PostNext(old(Model()), submits)
    {
      submits := true;
      if sendQueue == [] {
        sendInProgress := false;
        return true, submits;
      }
      var operation := SendOperation(sendQueue[0], 0);
      sendQueue := sendQueue[1..];
      sendInProgress := true;
      var submitted: bool := *;
      submits := submitted;
      if !submitted {
        sendInProgress := false;
        lost := lost + |operation.buffer|;
        return false, submits;
      }
      inFlight := Some(operation);
      return true, submits;
    }

    method CompleteSend(transferred: nat) returns (ok: bool, ghost submits: bool)
      requires Possible(Model(), Complete(transferred, true))
      modifies this`sendQueue, this`sendInProgress, this`inFlight, this`completed, this`lost
      ensures (Model(), ok) == Step(old(Model()), Complete(transferred, submits))
    {
      submits := true;
      var operation := inFlight.value;
      if closing {
        inFlight := None;
        return true, submits;
      }
      completed := completed + Remainder(Model())[..transferred];
      operation := operation.(offset := operation.offset + transferred);
      inFlight := None;
      if operation.offset < |operation.buffer| {
        var submitted: bool := *;
        submits := submitted;
        if !submitted {
          lost := lost + |operation.buffer| - operation.offset;
          return false, submits;
        }
        inFlight := Some(operation);
        return true, submits;
      }
      ok, submits := PostNextSend();
    }
  }

  // The registry of live connections.
  class Registry {
    var connections: map<nat, Connection>

    ghost predicate Valid()
      reads this
    {
      forall id :: id in connections ==> connections[id].id == id
    }

    constructor ()
      ensures Valid() && connections == map[]
    {
      connections := map[];
    }

    // Close first, then erase, then settle who notifies.
    method Disconnect(id: nat) returns (notify: bool)
      requires Valid()
      modifies this, connections.Values
      ensures Valid() && connections == old(connections) - {id}
      ensures id in old(connections) ==> old(connections)[id].closing
      ensures forall c :: c in old(connections.Values) ==> (old(c.closing) ==> c.closing)
      ensures id !in old(connections) ==> !notify
      ensures id in old(connections) ==> (notify <==> old(connections[id].activeCallbacks) == 0)
      ensures id in old(connections) && !notify ==> old(connections)[id].disconnectPending
    {
      if id !in connections {
        return false;
      }
      var connection := connections[id];
      connection.Close();
      connections := connections - {id};
      notify := connection.RequestDisconnectNotification();
    }

    /** Every connection that was registered ends up closed and the registry is
        empty, whatever order the snapshot lists them in. */
    method CloseAllConnections(snapshot: seq<nat>)
      requires Valid() && forall id :: id in connections <==> id in snapshot
      modifies this, connections.Values
      ensures Valid() && connections == map[]
      ensures forall c :: c in old(connections.Values) ==> c.closing
    {
      ghost var all := connections.Values;
      var i := 0;
      while i < |snapshot|
        invariant 0 <= i <= |snapshot| && Valid()
        invariant connections.Values <= all
        invariant forall id :: id in connections ==> id in snapshot[i..]
        invariant forall c :: c in all ==> c.closing || c in connections.Values
      {
        ghost var before := connections;
        var notify := Disconnect(snapshot[i]);
        forall c | c in before.Values
          ensures c.closing || c in connections.Values
        {
          var id :| id in before && before[id] == c;
          if id != snapshot[i] {
            assert id in connections && connections[id] == c;
          }
        }
        i := i + 1;
      }
    }
  }
}
