/** The bounded event queue between the engine and its host
    (src/Runtime/Host/EventQueue.cpp). Every method runs under one mutex, so a
    run is any sequence of calls. */
module EventQueue {
  import opened Prelude

  datatype Kind = OpenEvent | MessageEvent | CloseEvent | ErrorEvent | OverflowEvent | HttpRequestEvent

  // A session of 0 stands for an event of a listener.
  datatype Event = Event(kind: Kind, session: nat, sequence: nat, payload: Bytes)

  datatype Queue = Queue(maxCount: nat, maxBytes: nat, entries: seq<Event>, bytes: int, next: nat,
                         stopped: bool, overflow: bool, reported: bool)

  datatype Reply = Ready(event: Event) | Timeout | BufferTooSmall(event: Event) | Stopped

  function Empty(maxCount: nat, maxBytes: nat): Queue
  {
    Queue(maxCount, maxBytes, [], 0, 1, false, false, false)
  }

  // allocates is false when storing the entry throws.
  function Pushed(q: Queue, kind: Kind, session: nat, payload: Bytes, allocates: bool): (Queue, bool)
  {
    if q.stopped || q.overflow then (q, false)
    else if |q.entries| >= q.maxCount || |payload| > q.maxBytes - q.bytes || !allocates then
      (q.(entries := [], bytes := 0, overflow := true), false)
    else
      (q.(entries := q.entries + [Event(kind, session, q.next, payload)], next := q.next + 1,
          bytes := q.bytes + |payload|), true)
  }

  function Polled(q: Queue, capacity: nat): (Queue, Reply)
  {
    if q.overflow then
      if q.reported then (q, Stopped)
      else (q.(next := q.next + 1, reported := true), Ready(Event(OverflowEvent, 0, q.next, [])))
    else if q.entries == [] then (q, if q.stopped then Stopped else Timeout)
    else if |q.entries[0].payload| > capacity then (q, BufferTooSmall(q.entries[0]))
    else
      (q.(entries := q.entries[1..], bytes := q.bytes - |q.entries[0].payload|), Ready(q.entries[0]))
  }

  datatype Call = Push(kind: Kind, session: nat, payload: Bytes, allocates: bool) | Poll(capacity: nat) | Finish

  // The queue after a run, the pushes that were accepted and what polls delivered.
  datatype Run = Run(queue: Queue, accepted: seq<Event>, delivered: seq<Event>)

  function After(r: Run, c: Call): Run
  {
    match c
    case Push(kind, session, payload, allocates) =>
      var (q, ok) := Pushed(r.queue, kind, session, payload, allocates);
      Run(q, if ok then r.accepted + [Event(kind, session, r.queue.next, payload)] else r.accepted, r.delivered)
    case Poll(capacity) =>
      var (q, reply) := Polled(r.queue, capacity);
      r.(queue := q, delivered := if reply.Ready? then r.delivered + [reply.event] else r.delivered)
    case Finish => r.(queue := r.queue.(stopped := true))
  }

  function Play(maxCount: nat, maxBytes: nat, calls: seq<Call>): Run
  {
    if calls == [] then Run(Empty(maxCount, maxBytes), [], [])
    else After(Play(maxCount, maxBytes, calls[..|calls| - 1]), calls[|calls| - 1])
  }

  // ---------------------------------------------------------------- invariant

  function PayloadBytes(entries: seq<Event>): nat
  {
    if entries == [] then 0
    else PayloadBytes(entries[..|entries| - 1]) + |entries[|entries| - 1].payload|
  }

  lemma {:induction false} PayloadBytesSplit(entries: seq<Event>)
    requires entries != []
    ensures PayloadBytes(entries) == |entries[0].payload| + PayloadBytes(entries[1..])
  {
    if |entries| > 1 {
      PayloadBytesSplit(entries[..|entries| - 1]);
      assert entries[..|entries| - 1][1..] == entries[1..][..|entries| - 2];
    } else {
      assert entries[..0] == [];
    }
  }

  ghost predicate Numbered(events: seq<Event>)
  {
    forall i :: 0 <= i < |events| ==> events[i].sequence == i + 1
  }

  ghost predicate Terminal(r: Run)
  {
    && r.queue.entries == [] && r.queue.bytes == 0
    && (!r.queue.reported ==> r.delivered <= r.accepted && r.queue.next == |r.accepted| + 1)
    && (r.queue.reported ==>
          && r.delivered != []
          && r.delivered[..|r.delivered| - 1] <= r.accepted
          && r.delivered[|r.delivered| - 1] == Event(OverflowEvent, 0, |r.accepted| + 1, []))
  }

  ghost predicate Normal(r: Run)
  {
    && r.delivered + r.queue.entries == r.accepted
    && r.queue.next == |r.accepted| + 1
    && r.queue.bytes == PayloadBytes(r.queue.entries) <= r.queue.maxBytes
    && |r.queue.entries| <= r.queue.maxCount
    && !r.queue.reported
  }

  ghost predicate Inv(r: Run)
  {
    && Numbered(r.accepted)
    && if r.queue.overflow then Terminal(r) else Normal(r)
  }

  lemma PushKeeps(r: Run, kind: Kind, session: nat, payload: Bytes, allocates: bool)
    requires Inv(r)
    ensures Inv(After(r, Push(kind, session, payload, allocates)))
  {
    var next := After(r, Push(kind, session, payload, allocates));
    if !r.queue.overflow && next.queue.overflow {
      assert r.delivered <= r.accepted;
    } else if next.accepted != r.accepted {
      var event := next.accepted[|r.accepted|];
      assert next.queue.entries[..|r.queue.entries|] == r.queue.entries;
      assert r.delivered + (r.queue.entries + [event]) == r.delivered + r.queue.entries + [event];
    }
  }

  lemma PollKeeps(r: Run, capacity: nat)
    requires Inv(r)
    ensures Inv(After(r, Poll(capacity)))
  {
    var q := r.queue;
    var next := After(r, Poll(capacity));
    if next.delivered != r.delivered {
      assert next.delivered[..|r.delivered|] == r.delivered;
      if !q.overflow {
        PayloadBytesSplit(q.entries);
        assert q.entries == [q.entries[0]] + q.entries[1..];
        assert r.delivered + [q.entries[0]] + q.entries[1..] == r.delivered + q.entries;
      }
    }
  }

  lemma {:induction false} PlayKeeps(maxCount: nat, maxBytes: nat, calls: seq<Call>)
    ensures Inv(Play(maxCount, maxBytes, calls))
  {
    if calls != [] {
      PlayKeeps(maxCount, maxBytes, calls[..|calls| - 1]);
      var before := Play(maxCount, maxBytes, calls[..|calls| - 1]);
      match calls[|calls| - 1]
      case Push(kind, session, payload, allocates) => PushKeeps(before, kind, session, payload, allocates);
      case Poll(capacity) => PollKeeps(before, capacity);
      case Finish =>
    }
  }

  lemma {:induction false} LimitsStay(maxCount: nat, maxBytes: nat, calls: seq<Call>)
    ensures Play(maxCount, maxBytes, calls).queue.maxCount == maxCount
    ensures Play(maxCount, maxBytes, calls).queue.maxBytes == maxBytes
  {
    if calls != [] {
      LimitsStay(maxCount, maxBytes, calls[..|calls| - 1]);
    }
  }

  // ------------------------------------------------------------- main results

  /** Without overflow the queue is a faithful bounded FIFO: what was delivered
      followed by what is queued is the accepted history, numbered 1, 2, 3...,
      the byte count is the queued payload and both limits hold. A poll that says
      stopped says that everything accepted has been delivered. */
  lemma FaithfulFifo(maxCount: nat, maxBytes: nat, calls: seq<Call>, capacity: nat)
    requires !Play(maxCount, maxBytes, calls).queue.overflow
    ensures
      var r := Play(maxCount, maxBytes, calls);
      && r.delivered + r.queue.entries == r.accepted && Numbered(r.accepted)
      && r.queue.bytes == PayloadBytes(r.queue.entries) <= maxBytes && |r.queue.entries| <= maxCount
      && (Polled(r.queue, capacity).1 == Stopped ==> r.delivered == r.accepted)
  {
    PlayKeeps(maxCount, maxBytes, calls);
    LimitsStay(maxCount, maxBytes, calls);
  }

  lemma {:induction false} StoppedByFinish(maxCount: nat, maxBytes: nat, calls: seq<Call>)
    ensures Play(maxCount, maxBytes, calls).queue.stopped <==> Finish in calls
  {
    if calls != [] {
      StoppedByFinish(maxCount, maxBytes, calls[..|calls| - 1]);
      assert calls == calls[..|calls| - 1] + [calls[|calls| - 1]];
    }
  }

  lemma PlayOne(maxCount: nat, maxBytes: nat, calls: seq<Call>, c: Call)
    ensures Play(maxCount, maxBytes, calls + [c]) == After(Play(maxCount, maxBytes, calls), c)
  {
    assert (calls + [c])[..|calls|] == calls;
  }

  // What was accepted and has not been delivered leaves room for one more event.
  predicate HasRoom(r: Run, maxCount: nat, maxBytes: nat, payload: Bytes, allocates: bool)
  {
    && |r.delivered| <= |r.accepted| < |r.delivered| + maxCount
    && PayloadBytes(r.accepted[|r.delivered|..]) + |payload| <= maxBytes && allocates
  }

  lemma WaitingIsQueued(r: Run)
    requires Normal(r)
    ensures r.accepted[|r.delivered|..] == r.queue.entries && |r.delivered| <= |r.accepted|
  {
  }

  // What a push comes to, given whether it is open for events and has room for one.
  predicate PushComesTo(r: Run, t: Run, ok: bool, open: bool, room: bool, kind: Kind, session: nat, payload: Bytes)
  {
    if !open then !ok && t == r
    else if room then
      && ok && !t.queue.overflow && t.delivered == r.delivered
      && t.accepted == r.accepted + [Event(kind, session, |r.accepted| + 1, payload)]
    else !ok && t.queue.overflow && t.accepted == r.accepted && t.delivered == r.delivered
  }

  lemma PushTells(r: Run, kind: Kind, session: nat, payload: Bytes, allocates: bool)
    requires Inv(r)
    ensures
      var q := r.queue;
      PushComesTo(r, After(r, Push(kind, session, payload, allocates)),
                  Pushed(q, kind, session, payload, allocates).1, !q.stopped && !q.overflow,
                  HasRoom(r, q.maxCount, q.maxBytes, payload, allocates), kind, session, payload)
  {
    if !r.queue.overflow {
      WaitingIsQueued(r);
    }
  }

  /** What a push comes to, told by what was accepted and delivered before: an event
      that finds room and memory in a queue that is neither finished nor overflowed is
      accepted as it is, under the next number; one that does not makes the queue
      overflow; and in a finished or overflowed queue it changes nothing. */
  lemma PushAnswers(maxCount: nat, maxBytes: nat, calls: seq<Call>, kind: Kind, session: nat, payload: Bytes,
                    allocates: bool)
    ensures
      var r := Play(maxCount, maxBytes, calls);
      PushComesTo(r, Play(maxCount, maxBytes, calls + [Push(kind, session, payload, allocates)]),
                  Pushed(r.queue, kind, session, payload, allocates).1, Finish !in calls && !r.queue.overflow,
                  HasRoom(r, maxCount, maxBytes, payload, allocates), kind, session, payload)
  {
    PlayKeeps(maxCount, maxBytes, calls);
    LimitsStay(maxCount, maxBytes, calls);
    StoppedByFinish(maxCount, maxBytes, calls);
    PlayOne(maxCount, maxBytes, calls, Push(kind, session, payload, allocates));
    PushTells(Play(maxCount, maxBytes, calls), kind, session, payload, allocates);
  }

  // The same of a poll, from any state a run can reach.
  lemma PollTells(r: Run, capacity: nat)
    requires Inv(r) && !r.queue.overflow
    ensures
      var t, reply := After(r, Poll(capacity)), Polled(r.queue, capacity).1;
      && |r.delivered| <= |r.accepted| && t.accepted == r.accepted && t.queue.stopped == r.queue.stopped
      && (if |r.delivered| < |r.accepted| then
            var event := r.accepted[|r.delivered|];
            if |event.payload| <= capacity then reply == Ready(event) && t.delivered == r.delivered + [event]
            else reply == BufferTooSmall(event) && t == r
          else t == r && reply == if r.queue.stopped then Stopped else Timeout)
  {
    WaitingIsQueued(r);
  }

  /** What a poll answers, told the same way: without overflow the first event that
      was accepted and not delivered goes to any buffer it fits into, whatever else
      happened; timeout is said exactly when everything accepted has been delivered
      and the queue is not finished, and stopped exactly when it is. */
  lemma PollAnswers(maxCount: nat, maxBytes: nat, calls: seq<Call>, capacity: nat)
    requires !Play(maxCount, maxBytes, calls).queue.overflow
    ensures
      var r := Play(maxCount, maxBytes, calls);
      var t, reply := Play(maxCount, maxBytes, calls + [Poll(capacity)]), Polled(r.queue, capacity).1;
      && |r.delivered| <= |r.accepted|
      && (if |r.delivered| < |r.accepted| then
            var event := r.accepted[|r.delivered|];
            if |event.payload| <= capacity then reply == Ready(event) && t.delivered == r.delivered + [event]
            else reply == BufferTooSmall(event) && t == r
          else t == r && reply == if Finish in calls then Stopped else Timeout)
  {
    PlayKeeps(maxCount, maxBytes, calls);
    StoppedByFinish(maxCount, maxBytes, calls);
    PlayOne(maxCount, maxBytes, calls, Poll(capacity));
    PollTells(Play(maxCount, maxBytes, calls), capacity);
  }

  /** A buffer that is too small costs nothing: the queue is unchanged, and a
      retry with the size reported gets the same event. */
  lemma TooSmallConsumesNothing(q: Queue, capacity: nat)
    requires Polled(q, capacity).1.BufferTooSmall?
    ensures Polled(q, capacity).0 == q
    ensures
      var event := Polled(q, capacity).1.event;
      |event.payload| > capacity && Polled(q, |event.payload|).1 == Ready(event)
  {
  }

  // The guard of the branch that makes the queue overflow.
  predicate FindsNoRoom(q: Queue, c: Call)
  {
    c.Push? && !q.stopped && !q.overflow
    && (|q.entries| >= q.maxCount || |c.payload| > q.maxBytes - q.bytes || !c.allocates)
  }

  // A run that goes on from a given one.
  function Continue(r: Run, calls: seq<Call>): Run
  {
    if calls == [] then r else After(Continue(r, calls[..|calls| - 1]), calls[|calls| - 1])
  }

  ghost predicate Unpolled(calls: seq<Call>)
  {
    forall i :: 0 <= i < |calls| ==> !calls[i].Poll?
  }

  ghost predicate RoomForAll(r: Run, calls: seq<Call>)
  {
    forall i :: 0 <= i < |calls| ==> !FindsNoRoom(Continue(r, calls[..i]).queue, calls[i])
  }

  lemma RoomForOneMore(r: Run, calls: seq<Call>)
    requires calls != []
    ensures
      var n := |calls| - 1;
      RoomForAll(r, calls) <==> RoomForAll(r, calls[..n]) && !FindsNoRoom(Continue(r, calls[..n]).queue, calls[n])
  {
    var n := |calls| - 1;
    forall i | 0 <= i < n
      ensures FindsNoRoom(Continue(r, calls[..n][..i]).queue, calls[..n][i])
           == FindsNoRoom(Continue(r, calls[..i]).queue, calls[i])
    {
      assert calls[..n][..i] == calls[..i];
    }
  }

  lemma {:induction false} RoomKeepsEntries(r: Run, calls: seq<Call>)
    requires !r.queue.overflow && Unpolled(calls)
    ensures
      var q := Continue(r, calls).queue;
      && q.reported == r.queue.reported && (q.overflow <==> !RoomForAll(r, calls))
      && (RoomForAll(r, calls) ==> r.queue.entries <= q.entries)
  {
    if calls != [] {
      var front, last := calls[..|calls| - 1], calls[|calls| - 1];
      RoomKeepsEntries(r, front);
      RoomForOneMore(r, calls);
      EntriesGrow(Continue(r, front), last);
    }
  }

  lemma SameFront(q: Queue, t: Queue, capacity: nat)
    requires Polled(q, capacity).1.BufferTooSmall?
    requires !t.overflow ==> q.entries <= t.entries
    ensures
      var event := Polled(q, capacity).1.event;
      Polled(t, |event.payload|).1 == Ready(event) <==> !t.overflow
  {
    var event := Polled(q, capacity).1.event;
    assert |event.payload| > |Event(OverflowEvent, 0, t.next, []).payload|;
  }

  /** The retry need not come next: whatever is pushed meanwhile, and whether or not
      the queue is finished, it gets the same event if and only if every push found
      room and memory. */
  lemma RetryAfterPushes(r: Run, capacity: nat, calls: seq<Call>)
    requires Polled(r.queue, capacity).1.BufferTooSmall? && Unpolled(calls)
    ensures
      var event := Polled(r.queue, capacity).1.event;
      Polled(Continue(r, calls).queue, |event.payload|).1 == Ready(event) <==> RoomForAll(r, calls)
  {
    RoomKeepsEntries(r, calls);
    SameFront(r.queue, Continue(r, calls).queue, capacity);
  }

  lemma EntriesGrow(r: Run, c: Call)
    requires !c.Poll?
    ensures FindsNoRoom(r.queue, c) ==> After(r, c).queue.overflow
    ensures !FindsNoRoom(r.queue, c) ==>
              After(r, c).queue.overflow == r.queue.overflow && r.queue.entries <= After(r, c).queue.entries
    ensures After(r, c).queue.reported == r.queue.reported
    ensures r.queue.overflow ==> After(r, c).queue.overflow
  {
  }

  function Overflows(events: seq<Event>): nat
  {
    if events == [] then 0
    else Overflows(events[..|events| - 1]) + (if events[|events| - 1].kind == OverflowEvent then 1 else 0)
  }

  // Nothing but the queue itself makes overflow events.
  ghost predicate NoOverflowPushed(calls: seq<Call>)
  {
    forall i :: 0 <= i < |calls| && calls[i].Push? ==> calls[i].kind != OverflowEvent
  }

  /** Overflow is terminal and reported once: from then on every push fails and
      changes nothing, the next poll delivers the one overflow event, numbered
      above everything accepted, and every later poll says stopped, whatever
      finish or anybody else does meanwhile. */
  lemma OverflowIsTerminal(maxCount: nat, maxBytes: nat, calls: seq<Call>, more: seq<Call>, capacity: nat)
    requires Play(maxCount, maxBytes, calls).queue.overflow
    ensures
      var r := Play(maxCount, maxBytes, calls + more);
      && r.queue.overflow && r.queue.entries == []
      && r.accepted == Play(maxCount, maxBytes, calls).accepted
      && Polled(r.queue, capacity).1 == (if r.queue.reported then Stopped
                                         else Ready(Event(OverflowEvent, 0, |r.accepted| + 1, [])))
      && (r.queue.reported ==>
            && r.delivered != [] && r.delivered[|r.delivered| - 1].kind == OverflowEvent
            && r.delivered[..|r.delivered| - 1] <= r.accepted)
  {
    PlayKeeps(maxCount, maxBytes, calls + more);
    StaysOverflowed(maxCount, maxBytes, calls, more);
  }

  lemma {:induction false} StaysOverflowed(maxCount: nat, maxBytes: nat, calls: seq<Call>, more: seq<Call>)
    requires Play(maxCount, maxBytes, calls).queue.overflow
    ensures
      var r := Play(maxCount, maxBytes, calls + more);
      r.queue.overflow && r.accepted == Play(maxCount, maxBytes, calls).accepted
  {
    if more == [] {
      assert calls + more == calls;
    } else {
      assert (calls + more)[..|calls + more| - 1] == calls + more[..|more| - 1];
      StaysOverflowed(maxCount, maxBytes, calls, more[..|more| - 1]);
    }
  }

  /** Over a whole run at most one overflow event is delivered. */
  lemma OneOverflowEvent(maxCount: nat, maxBytes: nat, calls: seq<Call>)
    requires NoOverflowPushed(calls)
    ensures
      var r := Play(maxCount, maxBytes, calls);
      Overflows(r.delivered) == if r.queue.reported then 1 else 0
  {
    PlayKeeps(maxCount, maxBytes, calls);
    AcceptedArePushed(maxCount, maxBytes, calls);
    var r := Play(maxCount, maxBytes, calls);
    var proper := if r.queue.reported then r.delivered[..|r.delivered| - 1] else r.delivered;
    assert proper <= r.accepted;
    assert Ordinary(proper) by {
      assert proper == r.accepted[..|proper|];
    }
    NoOverflows(proper);
  }

  ghost predicate Ordinary(events: seq<Event>)
  {
    forall i :: 0 <= i < |events| ==> events[i].kind != OverflowEvent
  }

  lemma {:induction false} AcceptedArePushed(maxCount: nat, maxBytes: nat, calls: seq<Call>)
    requires NoOverflowPushed(calls)
    ensures Ordinary(Play(maxCount, maxBytes, calls).accepted)
  {
    if calls != [] {
      var last := calls[|calls| - 1];
      assert last.Push? ==> last.kind != OverflowEvent;
      AcceptedArePushed(maxCount, maxBytes, calls[..|calls| - 1]);
    }
  }

  lemma {:induction false} NoOverflows(events: seq<Event>)
    requires Ordinary(events)
    ensures Overflows(events) == 0
  {
    if events != [] {
      NoOverflows(events[..|events| - 1]);
    }
  }

  // ------------------------------------------------------- the imperative form

  class Events {
    const maxCount: nat
    const maxBytes: nat
    var entries: seq<Event>
    var bytes: int
    var nextSequence: nat
    var stopped: bool
    var overflow: bool
    var overflowReported: bool

    ghost function Model(): Queue
      reads this
    {
      Queue(maxCount, maxBytes, entries, bytes, nextSequence, stopped, overflow, overflowReported)
    }

    constructor (maxCount: nat, maxBytes: nat)
      ensures Model() == Empty(maxCount, maxBytes)
    {
      this.maxCount, this.maxBytes := maxCount, maxBytes;
      entries, bytes, nextSequence := [], 0, 1;
      stopped, overflow, overflowReported := false, false, false;
    }

    method Push(kind: Kind, session: nat, payload: Bytes) returns (accepted: bool, ghost allocates: bool)
      modifies this
      ensures (Model(), accepted) == Pushed(old(Model()), kind, session, payload, allocates)
    {
      allocates := true;
      if stopped || overflow {
        return false, allocates;
      }
      if |entries| >= maxCount || |payload| > maxBytes - bytes {
        overflow := true;
      } else {
        var stored: bool := *;
        allocates := stored;
        if stored {
          entries := entries + [Event(kind, session, nextSequence, payload)];
          nextSequence := nextSequence + 1;
          bytes := bytes + |payload|;
        } else {
          overflow := true;
        }
      }
      if overflow {
        entries := [];
        bytes := 0;
      }
      return !overflow, allocates;
    }

    // What poll does once it has stopped waiting.
    method Poll(capacity: nat) returns (reply: Reply)
      modifies this
      ensures (Model(), reply) == Polled(old(Model()), capacity)
    {
      if overflow {
        if overflowReported {
          return Stopped;
        }
        reply := Ready(Event(OverflowEvent, 0, nextSequence, []));
        nextSequence := nextSequence + 1;
        overflowReported := true;
        return;
      }
      if entries == [] {
        return if stopped then Stopped else Timeout;
      }
      var entry := entries[0];
      if |entry.payload| > capacity {
        return BufferTooSmall(entry);
      }
      bytes := bytes - |entry.payload|;
      entries := entries[1..];
      return Ready(entry);
    }

    method Finish()
      modifies this`stopped
      ensures Model() == old(Model()).(stopped := true)
    {
      stopped := true;
    }
  }
}
