/** The SQL request service (src/Data/Sql/Service.cpp). Every section the code
    runs under its mutex, and every step of the worker between sections, is one
    action; a run is any sequence of actions in any interleaving. */
module SqlService {
  import opened Prelude
  import opened SqlRequests
  import Driver = SqlDriver

  const U64_MAX: nat := 0xFFFF_FFFF_FFFF_FFFF

  datatype Phase = Queued | Running | Complete | Delivered

  datatype Request = Request(statements: seq<Statement>, reserved: nat, phase: Phase, status: Status)

  // Where the worker is: waiting for work, holding a request and about to look at
  // the stop flag, inside the driver with it, holding it with its result but not
  // published, or gone. Other threads run in any of these states.
  datatype Worker = Waiting | Holding(id: nat) | InDriver(id: nat) | Executed(id: nat) | Finished

  datatype Service = Service(options: Options, requests: map<nat, Request>, nextId: nat, reserved: nat,
                             stopping: bool, worker: Worker, durable: seq<Statement>, poisoned: bool)

  function Initial(options: Options): Service
  {
    Service(options, map[], 1, 0, false, Waiting, [], false)
  }

  datatype Reply =
    | Nothing | Accepted(id: nat) | Refused(status: Status) | Completion(id: nat, status: Status)
    | TimedOut | EmptyAndStopped | Freed

  datatype Copy = Copy(statements: seq<Statement>, reserved: nat)

  // What may happen next. A copy is None when copying the input failed;
  // admitted is false when inserting into the map threw.
  datatype Action =
    | Submit(copy: Option<Copy>, admitted: bool)
    | Take
    | Check
    | Finish(outcome: Driver.Outcome)
    | Publish
    | Poll
    | Release(id: nat)
    | Stop

  // The first request in id order that is in the given state.
  function FindState(requests: map<nat, Request>, phase: Phase, from: nat, end: nat): (r: Option<nat>)
    requires from <= end
    ensures r.Some? ==> from <= r.value < end && r.value in requests && requests[r.value].phase == phase
    ensures forall id :: from <= id < end && id in requests && requests[id].phase == phase
              ==> r.Some? && r.value <= id
    decreases end - from
  {
    if from == end then None
    else if from in requests && requests[from].phase == phase then Some(from)
    else FindState(requests, phase, from + 1, end)
  }

  function Find(s: Service, phase: Phase): Option<nat>
  {
    FindState(s.requests, phase, 0, s.nextId)
  }

  function Step(s: Service, a: Action): (Service, Reply)
  {
    match a
    case Submit(copy, admitted) =>
      if s.stopping then (s, Refused(Stopped))
      else if |s.requests| >= s.options.maxOutstanding then (s, Refused(Backpressure))
      else if copy.None? then (s, Refused(InvalidArgument))
      else if copy.value.reserved > s.options.memoryBudget - s.reserved then (s, Refused(Backpressure))
      else if s.nextId == U64_MAX then (s, Refused(InvalidState))
      else if !admitted then (s.(nextId := s.nextId + 1), Refused(InternalError))
      else
        var request := Request(copy.value.statements, copy.value.reserved, Queued, Ok);
        (s.(requests := s.requests[s.nextId := request], nextId := s.nextId + 1,
            reserved := s.reserved + copy.value.reserved),
         Accepted(s.nextId))
    case Take =>
      if s.worker != Waiting then (s, Nothing)
      else
        var id := Find(s, Queued);
        if id.Some? then
          (s.(requests := s.requests[id.value := s.requests[id.value].(phase := Running)],
              worker := Holding(id.value)), Nothing)
        else if s.stopping then (s.(worker := Finished), Nothing)
        else (s, Nothing)
    case Check =>
      if !s.worker.Holding? || s.worker.id !in s.requests then (s, Nothing)
      else
        var id := s.worker.id;
        if s.stopping then
          (s.(requests := s.requests[id := s.requests[id].(status := Cancelled)], worker := Executed(id)), Nothing)
        else (s.(worker := InDriver(id)), Nothing)
    case Finish(outcome) =>
      if !s.worker.InDriver? || s.worker.id !in s.requests then (s, Nothing)
      else
        var id := s.worker.id;
        (s.(requests := s.requests[id := s.requests[id].(status := outcome.status)], worker := Executed(id),
            durable := s.durable + (if outcome.applied then s.requests[id].statements else []),
            poisoned := outcome.poisoned), Nothing)
    case Publish =>
      if !s.worker.Executed? || s.worker.id !in s.requests then (s, Nothing)
      else
        (s.(requests := s.requests[s.worker.id := s.requests[s.worker.id].(phase := Complete)],
            worker := Waiting), Nothing)
    case Poll =>
      var id := Find(s, Complete);
      if id.Some? then
        (s.(requests := s.requests[id.value := s.requests[id.value].(phase := Delivered)]),
         Completion(id.value, s.requests[id.value].status))
      else (s, if s.worker.Finished? then EmptyAndStopped else TimedOut)
    case Release(id) =>
      if id !in s.requests || s.requests[id].phase != Delivered then (s, Refused(InvalidHandle))
      else (s.(requests := s.requests - {id}, reserved := Lower(s.reserved, s.requests[id].reserved)), Freed)
    case Stop => (s.(stopping := true), Nothing)
  }

  // reserved_bytes_ -= ...; the invariant shows it never wraps.
  function Lower(a: nat, b: nat): nat { if a >= b then a - b else (a - b) % (U64_MAX + 1) }

  // ------------------------------------------------------- the book of a run

  // Everything accepted, in order, with what became of it. An entry's status and
  // effect mean something once it has been executed.
  datatype Entry = Entry(id: nat, statements: seq<Statement>, reserved: nat, status: Status, applied: bool)

  // Four cursors into the log; between two of them all requests share a state.
  datatype Book = Book(log: seq<Entry>, delivered: nat, completed: nat, executed: nat, taken: nat)

  datatype Run = Run(service: Service, book: Book, deliveries: seq<(nat, Status)>)

  // The next entry has been executed or cancelled.
  function Settled(b: Book, done: Entry): Book
    requires b.executed < |b.log|
  {
    b.(log := b.log[b.executed := done], executed := b.executed + 1)
  }

  function Record(s: Service, b: Book, a: Action): Book
  {
    var (next, reply) := Step(s, a);
    match a
    case Submit(copy, _) =>
      if reply.Accepted? && copy.Some?
      then b.(log := b.log + [Entry(reply.id, copy.value.statements, copy.value.reserved, Ok, false)])
      else b
    case Take => if next.worker.Holding? && s.worker == Waiting then b.(taken := b.taken + 1) else b
    case Check =>
      if next.worker.Executed? && s.worker.Holding? && b.executed < |b.log| then
        Settled(b, b.log[b.executed].(status := Cancelled, applied := false))
      else b
    case Finish(outcome) =>
      if next.worker.Executed? && s.worker.InDriver? && b.executed < |b.log| then
        Settled(b, b.log[b.executed].(status := outcome.status, applied := outcome.applied))
      else b
    case Publish => if s.worker.Executed? && next.worker == Waiting then b.(completed := b.completed + 1) else b
    case Poll => if reply.Completion? then b.(delivered := b.delivered + 1) else b
    case _ => b
  }

  // An execution may only come to what the driver's contract allows.
  ghost predicate Possible(s: Service, a: Action)
  {
    a.Finish? ==> Driver.Legal(s.poisoned, a.outcome)
  }

  function After(r: Run, a: Action): Run
  {
    var (next, reply) := Step(r.service, a);
    Run(next, Record(r.service, r.book, a),
        if reply.Completion? then r.deliveries + [(reply.id, reply.status)] else r.deliveries)
  }

  ghost function Play(options: Options, actions: seq<Action>): Run
  {
    if actions == [] then Run(Initial(options), Book([], 0, 0, 0, 0), [])
    else
      var before := Play(options, actions[..|actions| - 1]);
      var last := actions[|actions| - 1];
      if Possible(before.service, last) then After(before, last) else before
  }

  // -------------------------------------------------------------- invariants

  function PhaseAt(b: Book, i: nat): Phase
  {
    if i < b.delivered then Delivered else if i < b.completed then Complete
    else if i < b.taken then Running else Queued
  }

  ghost predicate Ordered(b: Book)
  {
    && b.delivered <= b.completed <= b.executed <= b.taken <= |b.log|
    && b.taken <= b.completed + 1
  }

  ghost predicate WorkerAgrees(s: Service, b: Book)
    requires Ordered(b)
  {
    match s.worker
    case Waiting => b.taken == b.completed
    case Holding(id) => b.taken == b.completed + 1 && b.executed == b.completed && b.log[b.completed].id == id
    case InDriver(id) => b.taken == b.completed + 1 && b.executed == b.completed && b.log[b.completed].id == id
    case Executed(id) => b.executed == b.completed + 1 && b.log[b.completed].id == id
    case Finished => s.stopping && b.completed == |b.log|
  }

  ghost predicate Ascending(log: seq<Entry>, end: nat)
  {
    && (forall i, j :: 0 <= i < j < |log| ==> log[i].id < log[j].id)
    && (forall i :: 0 <= i < |log| ==> log[i].id < end)
  }

  ghost predicate Matches(r: Request, e: Entry, phase: Phase, executed: bool)
  {
    && r.statements == e.statements && r.reserved == e.reserved && r.phase == phase
    && (executed ==> r.status == e.status)
  }

  // Each accepted request is in the map with the state its position says,
  // unless it was delivered and released.
  ghost predicate HoldsAt(requests: map<nat, Request>, b: Book, i: nat)
    requires i < |b.log|
  {
    && (i >= b.delivered ==> b.log[i].id in requests)
    && (b.log[i].id in requests ==>
          Matches(requests[b.log[i].id], b.log[i], PhaseAt(b, i), i < b.executed))
  }

  ghost predicate Holds(requests: map<nat, Request>, b: Book)
  {
    forall i :: 0 <= i < |b.log| ==> HoldsAt(requests, b, i)
  }

  ghost predicate Logged(log: seq<Entry>, id: nat)
  {
    exists i :: 0 <= i < |log| && log[i].id == id
  }

  ghost predicate AllLogged(requests: map<nat, Request>, log: seq<Entry>)
  {
    forall id :: id in requests ==> Logged(log, id)
  }

  // The map of requests is a queue seen through four cursors.
  ghost predicate Queue(s: Service, b: Book)
  {
    && Ordered(b) && WorkerAgrees(s, b)
    && Ascending(b.log, s.nextId)
    && Holds(s.requests, b) && AllLogged(s.requests, b.log)
  }

  function Effects(log: seq<Entry>): seq<Statement>
  {
    if log == [] then []
    else
      var last := log[|log| - 1];
      Effects(log[..|log| - 1]) + (if last.applied then last.statements else [])
  }

  ghost predicate HonestEntry(e: Entry)
  {
    && (e.status == Ok ==> e.applied)
    && (e.applied ==> e.status in {Ok, OutcomeUnknown})
  }

  ghost predicate Honest(log: seq<Entry>)
  {
    forall i :: 0 <= i < |log| ==> HonestEntry(log[i])
  }

  ghost predicate Durable(s: Service, b: Book)
  {
    b.executed <= |b.log| && s.durable == Effects(b.log[..b.executed]) && Honest(b.log[..b.executed])
  }

  function ReservedBelow(requests: map<nat, Request>, end: nat): nat
  {
    if end == 0 then 0
    else ReservedBelow(requests, end - 1) + (if end - 1 in requests then requests[end - 1].reserved else 0)
  }

  ghost predicate Budgeted(s: Service)
  {
    && (forall id :: id in s.requests ==> id < s.nextId)
    && s.reserved == ReservedBelow(s.requests, s.nextId) <= s.options.memoryBudget
    && |s.requests| <= s.options.maxOutstanding
  }

  ghost predicate DeliveredInOrder(deliveries: seq<(nat, Status)>, b: Book)
  {
    && |deliveries| == b.delivered <= |b.log|
    && forall i :: 0 <= i < b.delivered ==> deliveries[i] == (b.log[i].id, b.log[i].status)
  }

  ghost predicate Inv(r: Run)
  {
    && Queue(r.service, r.book)
    && Durable(r.service, r.book)
    && Budgeted(r.service)
    && DeliveredInOrder(r.deliveries, r.book)
  }

  // ------------------------------------------- preservation: queue discipline

  lemma IndexOf(log: seq<Entry>, id: nat) returns (i: nat)
    requires Logged(log, id)
    ensures i < |log| && log[i].id == id
  {
    i :| 0 <= i < |log| && log[i].id == id;
  }

  // The scans of the code find exactly what the cursors point at.
  lemma FoundAt(s: Service, b: Book, phase: Phase, k: nat)
    requires Queue(s, b)
    requires forall i :: 0 <= i < |b.log| ==> (PhaseAt(b, i) == phase ==> k <= i)
    requires k < |b.log| ==> PhaseAt(b, k) == phase && k >= b.delivered
    requires k >= |b.log| ==> forall i :: 0 <= i < |b.log| ==> PhaseAt(b, i) != phase
    ensures Find(s, phase) == if k < |b.log| then Some(b.log[k].id) else None
  {
    var found := Find(s, phase);
    if found.Some? {
      assert Logged(b.log, found.value);
      var i := IndexOf(b.log, found.value);
      assert HoldsAt(s.requests, b, i);
    }
    if k < |b.log| {
      assert HoldsAt(s.requests, b, k);
    }
  }

  lemma Found(s: Service, b: Book)
    requires Queue(s, b)
    ensures Find(s, Queued) == if b.taken < |b.log| then Some(b.log[b.taken].id) else None
    ensures Find(s, Complete) == if b.delivered < b.completed then Some(b.log[b.delivered].id) else None
  {
    FoundAt(s, b, Queued, b.taken);
    FoundAt(s, b, Complete, if b.delivered < b.completed then b.delivered else |b.log|);
  }

  lemma LogGrows(s: Service, b: Book, entry: Entry)
    requires Queue(s, b) && entry.id == s.nextId
    ensures
      var c := b.(log := b.log + [entry]);
      var requests := s.requests[entry.id := Request(entry.statements, entry.reserved, Queued, Ok)];
      Ascending(c.log, s.nextId + 1) && Holds(requests, c) && AllLogged(requests, c.log)
  {
    var c := b.(log := b.log + [entry]);
    var requests := s.requests[entry.id := Request(entry.statements, entry.reserved, Queued, Ok)];
    forall id | id in requests
      ensures Logged(c.log, id)
    {
      if id == entry.id {
        assert c.log[|b.log|].id == id;
      } else {
        var i := IndexOf(b.log, id);
        assert c.log[i].id == id;
      }
    }
    forall i | 0 <= i < |c.log|
      ensures HoldsAt(requests, c, i)
    {
      if i < |b.log| {
        assert HoldsAt(s.requests, b, i);
      }
    }
  }

  // One request changes, every other keeps its place and state.
  lemma OneMoves(s: Service, b: Book, requests: map<nat, Request>, c: Book, k: nat)
    requires Queue(s, b) && k < |b.log| && b.log[k].id in s.requests && b.log[k].id in requests
    requires requests == s.requests[b.log[k].id := requests[b.log[k].id]]
    requires |c.log| == |b.log| && c.log == b.log[k := c.log[k]] && c.log[k].id == b.log[k].id
    requires b.delivered <= c.delivered
    requires forall i :: 0 <= i < |b.log| && i != k ==>
               PhaseAt(c, i) == PhaseAt(b, i) && (i < c.executed ==> i < b.executed)
    requires Matches(requests[b.log[k].id], c.log[k], PhaseAt(c, k), k < c.executed)
    ensures Ascending(c.log, s.nextId) && Holds(requests, c) && AllLogged(requests, c.log)
  {
    forall i | 0 <= i < |c.log|
      ensures HoldsAt(requests, c, i)
    {
      assert HoldsAt(s.requests, b, i);
      if i != k {
        assert b.log[i].id != b.log[k].id;
      }
    }
    forall id | id in requests
      ensures Logged(c.log, id)
    {
      var i := IndexOf(b.log, id);
      assert c.log[i].id == id;
    }
  }

  lemma ReleasedHolds(s: Service, b: Book, id: nat)
    requires Queue(s, b) && id in s.requests && s.requests[id].phase == Delivered
    ensures Holds(s.requests - {id}, b) && AllLogged(s.requests - {id}, b.log)
  {
    var k := IndexOf(b.log, id);
    assert HoldsAt(s.requests, b, k);
    forall i | 0 <= i < |b.log|
      ensures HoldsAt(s.requests - {id}, b, i)
    {
      assert HoldsAt(s.requests, b, i);
      if i > k {
        assert b.log[k].id < b.log[i].id;
      }
    }
  }

  lemma QueueKept(r: Run, a: Action)
    requires Queue(r.service, r.book)
    ensures Queue(After(r, a).service, After(r, a).book)
  {
    match a
    case Submit(_, _) => SubmitKeepsQueue(r, a);
    case Take => TakeKeepsQueue(r);
    case Check => SettleKeepsQueue(r, a);
    case Finish(_) => SettleKeepsQueue(r, a);
    case Publish => PublishKeepsQueue(r);
    case Poll => PollKeepsQueue(r);
    case Release(id) =>
      if After(r, a).service != r.service {
        ReleasedHolds(r.service, r.book, id);
      }
    case Stop =>
  }

  lemma SubmitKeepsQueue(r: Run, a: Action)
    requires Queue(r.service, r.book) && a.Submit?
    ensures Queue(After(r, a).service, After(r, a).book)
  {
    var next := After(r, a);
    if next.book != r.book {
      LogGrows(r.service, r.book, next.book.log[|r.book.log|]);
    }
  }

  lemma PublishKeepsQueue(r: Run)
    requires Queue(r.service, r.book)
    ensures Queue(After(r, Publish).service, After(r, Publish).book)
  {
    var s, b := r.service, r.book;
    var next := After(r, Publish);
    if s.worker.Executed? {
      assert HoldsAt(s.requests, b, b.completed);
      OneMoves(s, b, next.service.requests, next.book, b.completed);
    }
  }

  lemma SettleKeepsQueue(r: Run, a: Action)
    requires Queue(r.service, r.book) && (a.Check? || a.Finish?)
    ensures Queue(After(r, a).service, After(r, a).book)
  {
    var s, b := r.service, r.book;
    var next := After(r, a);
    if next.book != b {
      assert HoldsAt(s.requests, b, b.executed);
      OneMoves(s, b, next.service.requests, next.book, b.executed);
    } else if s.worker.Holding? || s.worker.InDriver? {
      assert HoldsAt(s.requests, b, b.executed);
    }
  }

  lemma TakeKeepsQueue(r: Run)
    requires Queue(r.service, r.book)
    ensures Queue(After(r, Take).service, After(r, Take).book)
  {
    var s, b := r.service, r.book;
    var next := After(r, Take);
    Found(s, b);
    if s.worker == Waiting && b.taken < |b.log| {
      assert HoldsAt(s.requests, b, b.taken);
      OneMoves(s, b, next.service.requests, next.book, b.taken);
    }
  }

  lemma PollKeepsQueue(r: Run)
    requires Queue(r.service, r.book)
    ensures Queue(After(r, Poll).service, After(r, Poll).book)
  {
    var s, b := r.service, r.book;
    var next := After(r, Poll);
    Found(s, b);
    if b.delivered < b.completed {
      assert HoldsAt(s.requests, b, b.delivered);
      OneMoves(s, b, next.service.requests, next.book, b.delivered);
    }
  }

  // --------------------------------------------- preservation: durable effects

  lemma EffectJoins(log: seq<Entry>, k: nat, done: Entry)
    requires k < |log| && Honest(log[..k]) && HonestEntry(done)
    ensures
      var after := log[k := done][..k + 1];
      && Effects(after) == Effects(log[..k]) + (if done.applied then done.statements else [])
      && Honest(after)
  {
    var after := log[k := done][..k + 1];
    assert after[..k] == log[..k];
  }

  // The steps that give a request its status.
  predicate Settles(s: Service, a: Action)
  {
    (a.Check? && s.worker.Holding? && s.stopping) || (a.Finish? && s.worker.InDriver?)
  }

  lemma OnlyExecutionsCount(r: Run, a: Action)
    requires r.book.executed <= |r.book.log|
    requires !Settles(r.service, a)
    ensures After(r, a).service.durable == r.service.durable
    ensures After(r, a).book.executed == r.book.executed <= |After(r, a).book.log|
    ensures After(r, a).book.log[..r.book.executed] == r.book.log[..r.book.executed]
  {
  }

  lemma DurableKept(r: Run, a: Action)
    requires Queue(r.service, r.book) && Durable(r.service, r.book) && Possible(r.service, a)
    ensures Durable(After(r, a).service, After(r, a).book)
  {
    var s, b := r.service, r.book;
    var c := After(r, a).book;
    if Settles(s, a) {
      assert HoldsAt(s.requests, b, b.executed);
      EffectJoins(b.log, b.executed, c.log[b.executed]);
      assert s.durable + [] == s.durable;
    } else {
      OnlyExecutionsCount(r, a);
    }
  }

  // ---------------------------------------------------- preservation: budget

  lemma {:induction false} ReservedSame(before: map<nat, Request>, after: map<nat, Request>, end: nat)
    requires forall id :: id < end ==> (id in before <==> id in after)
    requires forall id :: id < end && id in before ==> before[id].reserved == after[id].reserved
    ensures ReservedBelow(before, end) == ReservedBelow(after, end)
  {
    if end > 0 {
      ReservedSame(before, after, end - 1);
    }
  }

  lemma {:induction false} ReservedWithout(requests: map<nat, Request>, id: nat, end: nat)
    requires id < end && id in requests
    ensures ReservedBelow(requests, end) == ReservedBelow(requests - {id}, end) + requests[id].reserved
  {
    if id == end - 1 {
      ReservedSame(requests, requests - {id}, end - 1);
    } else {
      ReservedWithout(requests, id, end - 1);
    }
  }

  lemma SubmitKeepsBudget(s: Service, copy: Option<Copy>, admitted: bool)
    requires Budgeted(s)
    ensures Budgeted(Step(s, Submit(copy, admitted)).0)
  {
    var (t, reply) := Step(s, Submit(copy, admitted));
    if reply.Accepted? {
      InsertReserves(s.requests, s.nextId, t.requests[s.nextId]);
    } else if t != s {
      SkipReserves(s.requests, s.nextId);
    }
  }

  lemma InsertReserves(requests: map<nat, Request>, id: nat, request: Request)
    requires id !in requests
    ensures ReservedBelow(requests[id := request], id + 1) == ReservedBelow(requests, id) + request.reserved
    ensures |requests[id := request]| == |requests| + 1
  {
    ReservedSame(requests, requests[id := request], id);
  }

  lemma SkipReserves(requests: map<nat, Request>, id: nat)
    requires id !in requests
    ensures ReservedBelow(requests, id + 1) == ReservedBelow(requests, id)
  {
  }

  lemma ReleaseKeepsBudget(s: Service, id: nat)
    requires Budgeted(s)
    ensures Budgeted(Step(s, Release(id)).0)
  {
    var t := Step(s, Release(id)).0;
    if t != s {
      ReservedWithout(s.requests, id, s.nextId);
      assert t.requests.Keys == s.requests.Keys - {id};
      assert |t.requests.Keys| <= |s.requests.Keys|;
    }
  }

  // Other actions change states of requests, never which there are.
  lemma RelabelKeepsBudget(s: Service, t: Service)
    requires Budgeted(s)
    requires t.nextId == s.nextId && t.reserved == s.reserved && t.options == s.options
    requires t.requests.Keys == s.requests.Keys
    requires forall id :: id in s.requests ==> t.requests[id].reserved == s.requests[id].reserved
    ensures Budgeted(t)
  {
    ReservedSame(s.requests, t.requests, s.nextId);
    assert |t.requests| == |t.requests.Keys| == |s.requests|;
  }

  lemma BudgetKept(s: Service, a: Action)
    requires Budgeted(s)
    ensures Budgeted(Step(s, a).0)
  {
    match a
    case Submit(copy, admitted) => SubmitKeepsBudget(s, copy, admitted);
    case Release(id) => ReleaseKeepsBudget(s, id);
    case Stop =>
    case _ =>
      OthersRelabel(s, a);
      RelabelKeepsBudget(s, Step(s, a).0);
  }

  lemma OthersRelabel(s: Service, a: Action)
    requires !a.Submit? && !a.Release?
    ensures
      var t := Step(s, a).0;
      && t.nextId == s.nextId && t.reserved == s.reserved && t.options == s.options
      && t.requests.Keys == s.requests.Keys
      && forall id :: id in s.requests ==> t.requests[id].reserved == s.requests[id].reserved
  {
  }

  // ------------------------------------------------- preservation: deliveries

  lemma DeliveriesKept(r: Run, a: Action)
    requires Queue(r.service, r.book) && DeliveredInOrder(r.deliveries, r.book)
    ensures DeliveredInOrder(After(r, a).deliveries, After(r, a).book)
  {
    if a.Poll? {
      Found(r.service, r.book);
      if r.book.delivered < r.book.completed {
        assert HoldsAt(r.service.requests, r.book, r.book.delivered);
      }
    }
  }

  lemma InvKept(r: Run, a: Action)
    requires Inv(r) && Possible(r.service, a)
    ensures Inv(After(r, a))
  {
    QueueKept(r, a);
    DurableKept(r, a);
    BudgetKept(r.service, a);
    DeliveriesKept(r, a);
  }

  lemma {:induction false} PlayKeeps(options: Options, actions: seq<Action>)
    ensures Inv(Play(options, actions))
  {
    if actions != [] {
      var before := Play(options, actions[..|actions| - 1]);
      PlayKeeps(options, actions[..|actions| - 1]);
      if Possible(before.service, actions[|actions| - 1]) {
        InvKept(before, actions[|actions| - 1]);
      }
    }
  }

  // ------------------------------------------------------------ main results

  // The statements of the requests reported Ok, and of the chosen ones among
  // those reported unknown, each request whole, in id order.
  ghost function Serial(log: seq<Entry>, chosen: set<nat>): seq<Statement>
  {
    if log == [] then []
    else
      var last := log[|log| - 1];
      Serial(log[..|log| - 1], chosen)
      + (if last.status == Ok || (last.status == OutcomeUnknown && last.id in chosen) then last.statements else [])
  }

  lemma {:induction false} EffectsAreSerial(log: seq<Entry>, end: nat) returns (chosen: set<nat>)
    requires Ascending(log, end) && Honest(log)
    ensures Effects(log) == Serial(log, chosen)
    ensures forall id <- chosen :: id < end
  {
    chosen := {};
    if log != [] {
      var front, last := log[..|log| - 1], log[|log| - 1];
      chosen := EffectsAreSerial(front, last.id);
      SerialIgnores(front, chosen, last.id);
      if last.applied && last.status == OutcomeUnknown {
        chosen := chosen + {last.id};
      }
    }
  }

  lemma {:induction false} SerialIgnores(log: seq<Entry>, chosen: set<nat>, id: nat)
    requires Ascending(log, id)
    ensures Serial(log, chosen + {id}) == Serial(log, chosen)
  {
    if log != [] {
      SerialIgnores(log[..|log| - 1], chosen, id);
    }
  }

  /** In every reachable state the durable database is a serial execution: the
      requests executed so far, in id order, each whole, those reported Ok and
      some of those of unknown outcome, and nothing of any other. What poll has
      reported is exactly those statuses, once each, in strictly ascending id order. */
  lemma DurableMatchesReports(options: Options, actions: seq<Action>) returns (chosen: set<nat>)
    ensures
      var r := Play(options, actions);
      && r.book.executed <= |r.book.log|
      && r.service.durable == Serial(r.book.log[..r.book.executed], chosen)
      && Ascending(r.book.log, r.service.nextId)
      && DeliveredInOrder(r.deliveries, r.book)
  {
    PlayKeeps(options, actions);
    var r := Play(options, actions);
    assert Ascending(r.book.log[..r.book.executed], r.service.nextId);
    chosen := EffectsAreSerial(r.book.log[..r.book.executed], r.service.nextId);
  }

  // The database content a log of statements leads to, under any meaning of
  // statements.
  ghost function Replay<D>(effect: (Statement, D) -> D, start: D, log: seq<Statement>): D
  {
    if log == [] then start
    else effect(log[|log| - 1], Replay(effect, start, log[..|log| - 1]))
  }

  lemma {:induction false} ReplayAppend<D>(effect: (Statement, D) -> D, start: D, a: seq<Statement>, b: seq<Statement>)
    ensures Replay(effect, start, a + b) == Replay(effect, Replay(effect, start, a), b)
  {
    if b == [] {
      assert a + b == a;
    } else {
      assert (a + b)[..|a + b| - 1] == a + b[..|b| - 1];
      ReplayAppend(effect, start, a, b[..|b| - 1]);
    }
  }

  ghost function ReplayRequests<D>(effect: (Statement, D) -> D, start: D, log: seq<Entry>): D
  {
    if log == [] then start
    else
      var last := log[|log| - 1];
      var before := ReplayRequests(effect, start, log[..|log| - 1]);
      if last.applied then Replay(effect, before, last.statements) else before
  }

  /** Whatever statements mean, the durable content is the initial one with the
      applied requests run on it one after another. */
  lemma {:induction false} ContentIsSerial<D>(effect: (Statement, D) -> D, start: D, log: seq<Entry>)
    ensures Replay(effect, start, Effects(log)) == ReplayRequests(effect, start, log)
  {
    if log != [] {
      var front, last := log[..|log| - 1], log[|log| - 1];
      ContentIsSerial(effect, start, front);
      ReplayAppend(effect, start, Effects(front), last.statements);
      assert Effects(front) + [] == Effects(front);
    }
  }

  function Rank(phase: Phase): nat
  {
    match phase case Queued => 0 case Running => 1 case Complete => 2 case Delivered => 3
  }

  /** No request is ever behind one with a higher id, and at most one runs. */
  lemma StatesMonotoneInId(options: Options, actions: seq<Action>, low: nat, high: nat)
    requires var requests := Play(options, actions).service.requests;
             low < high && low in requests && high in requests
    ensures var requests := Play(options, actions).service.requests;
            && Rank(requests[low].phase) >= Rank(requests[high].phase)
            && !(requests[low].phase == Running && requests[high].phase == Running)
  {
    PlayKeeps(options, actions);
    var r := Play(options, actions);
    var i := IndexOf(r.book.log, low);
    var j := IndexOf(r.book.log, high);
    assert HoldsAt(r.service.requests, r.book, i) && HoldsAt(r.service.requests, r.book, j);
    assert i < j;
  }

  /** Poll answers that the service is stopped only when every accepted request
      has been delivered, and then it keeps answering so. */
  lemma StoppedMeansAllDelivered(options: Options, actions: seq<Action>)
    ensures
      var r := Play(options, actions);
      Step(r.service, Poll).1 == EmptyAndStopped <==>
        r.service.worker.Finished? && r.book.delivered == |r.book.log|
  {
    PlayKeeps(options, actions);
    Found(Play(options, actions).service, Play(options, actions).book);
  }

  /** Memory: what is reserved is the sum over the requests held, within budget;
      a service holding nothing never refuses for lack of room a request that
      was copied under decoded options. */
  lemma IdleNeverRefusesForRoom(source: OptionsInput, actions: seq<Action>, sizes: Layout,
                                inputs: seq<StatementInput>, admitted: bool)
    requires DecodeOptions(source).0 == Ok
    requires Accepts(sizes, source.numbers, inputs)
    ensures
      var s := Play(source.numbers, actions).service;
      && s.reserved == ReservedBelow(s.requests, s.nextId) <= source.numbers.memoryBudget
      && |s.requests| <= source.numbers.maxOutstanding
      && (s.requests == map[] ==>
            var copy := Copy(CopiedAll(inputs), Footprint(sizes, inputs) + source.numbers.maxResultBytes + 1024);
            Step(s, Submit(Some(copy), admitted)).1 != Refused(Backpressure))
  {
    PlayKeeps(source.numbers, actions);
    PlayKeepsOptions(source.numbers, actions);
    var s := Play(source.numbers, actions).service;
    if s.requests == map[] {
      NothingReserved(s.nextId);
      IdleBudgetSuffices(sizes, source, inputs);
    }
  }

  lemma {:induction false} NothingReserved(end: nat)
    ensures ReservedBelow(map[], end) == 0
  {
    if end > 0 {
      NothingReserved(end - 1);
    }
  }

  lemma {:induction false} PlayKeepsOptions(options: Options, actions: seq<Action>)
    ensures Play(options, actions).service.options == options
  {
    if actions != [] {
      PlayKeepsOptions(options, actions[..|actions| - 1]);
    }
  }

  // Work left for the worker, in its own steps: taking, checking, running and
  // publishing each request, and leaving.
  function Remaining(r: Run): int
  {
    4 * |r.book.log| - r.book.taken - 2 * r.book.executed - r.book.completed
    - (if r.service.worker.InDriver? then 1 else 0) + (if r.service.worker.Finished? then 0 else 1)
  }

  function WorkerAction(w: Worker, outcome: Driver.Outcome): Action
  {
    match w
    case Holding(_) => Check
    case InDriver(_) => Finish(outcome)
    case Executed(_) => Publish
    case _ => Take
  }

  // The entry is still the same request, whatever became of it.
  predicate SameRequest(a: Entry, b: Entry)
  {
    a.id == b.id && a.statements == b.statements && a.reserved == b.reserved
  }

  ghost predicate SameRequests(a: seq<Entry>, b: seq<Entry>)
  {
    |a| == |b| && forall i :: 0 <= i < |a| ==> SameRequest(a[i], b[i])
  }

  ghost predicate AllCancelled(log: seq<Entry>, from: nat, to: nat)
  {
    forall i :: from <= i < to && i < |log| ==> log[i].status == Cancelled && !log[i].applied
  }

  // The statements of a request that became durable.
  function Contribution(e: Entry): seq<Statement> { if e.applied then e.statements else [] }

  // What may have happened since a moment at which the service was stopping: the
  // request that was inside the driver then may have finished, and every later
  // one that came to its turn was cancelled.
  ghost predicate SinceStop(start: Run, r: Run)
  {
    var k := start.book.executed;
    var driving := start.service.worker.InDriver?;
    && r.service.stopping
    && SameRequests(r.book.log, start.book.log)
    && k <= r.book.executed <= |r.book.log| && r.book.log[..k] == start.book.log[..k]
    && AllCancelled(r.book.log, if driving then k + 1 else k, r.book.executed)
    && (if driving && r.book.executed == k
        then r.service.worker == start.service.worker && r.service.durable == start.service.durable
        else !r.service.worker.InDriver?
             && r.service.durable == start.service.durable + if driving then Contribution(r.book.log[k]) else [])
  }

  lemma SinceStopKept(start: Run, r: Run, a: Action)
    requires start.book.executed <= |start.book.log|
    requires SinceStop(start, r) && Queue(r.service, r.book)
    ensures SinceStop(start, After(r, a))
  {
    var s, b := r.service, r.book;
    var next := After(r, a);
    if Settles(s, a) {
      assert HoldsAt(s.requests, b, b.executed);
      assert next.book == Settled(b, next.book.log[b.executed]);
      SettledSince(start, r, next);
    } else {
      OnlyExecutionsCount(r, a);
      assert next.book.log == b.log;
    }
  }

  lemma SettledSince(start: Run, r: Run, next: Run)
    requires start.book.executed <= |start.book.log| && SinceStop(start, r)
    requires r.book.executed < |r.book.log| && next.book.executed == r.book.executed + 1
    requires |next.book.log| == |r.book.log|
    requires next.book.log == r.book.log[r.book.executed := next.book.log[r.book.executed]]
    requires SameRequest(next.book.log[r.book.executed], r.book.log[r.book.executed])
    requires next.service.stopping && !next.service.worker.InDriver?
    requires next.service.durable == r.service.durable + Contribution(next.book.log[r.book.executed])
    requires !r.service.worker.InDriver? ==>
               next.book.log[r.book.executed].status == Cancelled && !next.book.log[r.book.executed].applied
    ensures SinceStop(start, next)
  {
    assert next.book.log[..start.book.executed] == r.book.log[..start.book.executed];
    assert r.service.durable + [] == r.service.durable;
  }

  lemma StopNow(r: Run)
    requires r.service.stopping && r.book.executed <= |r.book.log|
    ensures SinceStop(r, r)
  {
    assert r.service.durable + [] == r.service.durable;
  }

  /** Stop is answered as soon as it can be: from any moment at which the service
      is stopping on, nothing is accepted any more; at most the one request that is
      inside the driver at that moment can still become durable, whole or not at
      all; and every other request that had not been executed is reported cancelled
      without an effect. */
  lemma {:induction false} StopLetsOneFinish(options: Options, actions: seq<Action>, more: seq<Action>)
    requires Play(options, actions).service.stopping
    ensures SinceStop(Play(options, actions), Play(options, actions + more))
  {
    var start := Play(options, actions);
    PlayKeeps(options, actions);
    if more == [] {
      assert actions + more == actions;
      StopNow(start);
    } else {
      var front, last := more[..|more| - 1], more[|more| - 1];
      assert (actions + more)[..|actions + more| - 1] == actions + front;
      StopLetsOneFinish(options, actions, front);
      PlayKeeps(options, actions + front);
      SinceStopKept(start, Play(options, actions + front), last);
    }
  }

  lemma PlayMore(options: Options, actions: seq<Action>, a: Action)
    requires Possible(Play(options, actions).service, a)
    ensures Play(options, actions + [a]) == After(Play(options, actions), a)
  {
    assert (actions + [a])[..|actions|] == actions;
  }

  // A service whose only request is a write inside the driver.
  function Driving(options: Options, write: seq<Statement>): Run
  {
    Run(Service(options, map[1 := Request(write, 0, Running, Ok)], 2, 0, false, InDriver(1), [], false),
        Book([Entry(1, write, 0, Ok, false)], 0, 0, 0, 1), [])
  }

  lemma DrivingIsReachable(options: Options, write: seq<Statement>)
    requires options.maxOutstanding > 0
    ensures Play(options, [Submit(Some(Copy(write, 0)), true)] + [Take] + [Check]) == Driving(options, write)
  {
    var submit := Submit(Some(Copy(write, 0)), true);
    PlayMore(options, [], submit);
    assert [] + [submit] == [submit];
    PlayMore(options, [submit], Take);
    PlayMore(options, [submit] + [Take], Check);
    var first := Play(options, [submit]).service;
    assert first.requests == map[1 := Request(write, 0, Queued, Ok)];
    assert Find(first, Queued) == Some(1);
  }

  /** And that one request really can: stop comes while a write is inside the
      driver, and afterwards the write is durable and reported Ok. */
  lemma CommitMayRaceStop(options: Options, write: seq<Statement>, stopped: seq<Action>)
    requires options.maxOutstanding > 0
    requires stopped == [Submit(Some(Copy(write, 0)), true)] + [Take] + [Check] + [Stop]
    ensures Play(options, stopped).service.stopping && Play(options, stopped).service.durable == []
    ensures
      var ended := Play(options, stopped + [Finish(Driver.Outcome(Ok, true, false))]);
      ended.service.durable == write && ended.book.log == [Entry(1, write, 0, Ok, true)]
  {
    DrivingIsReachable(options, write);
    PlayMore(options, [Submit(Some(Copy(write, 0)), true)] + [Take] + [Check], Stop);
    PlayMore(options, stopped, Finish(Driver.Outcome(Ok, true, false)));
    assert [] + write == write;
  }

  /** After stop no action of anybody gives the worker more to do, and every step
      of the worker uses some of it up, so the worker ends, at the latest after as
      many steps, with everything accepted complete. */
  lemma WorkerAdvances(r: Run, outcome: Driver.Outcome)
    requires Queue(r.service, r.book) && r.service.stopping
    ensures 0 <= Remaining(r)
    ensures r.service.worker.Finished? ==> r.book.completed == |r.book.log|
    ensures !r.service.worker.Finished? ==>
              Remaining(After(r, WorkerAction(r.service.worker, outcome))) < Remaining(r)
  {
    if r.service.worker.Holding? || r.service.worker.InDriver? || r.service.worker.Executed? {
      assert HoldsAt(r.service.requests, r.book, r.book.completed);
    } else {
      Found(r.service, r.book);
    }
  }

  lemma NobodyAddsWork(r: Run, a: Action)
    requires Queue(r.service, r.book) && r.service.stopping
    ensures Remaining(After(r, a)) <= Remaining(r) && After(r, a).service.stopping
  {
    if Settles(r.service, a) {
      assert HoldsAt(r.service.requests, r.book, r.book.executed);
    }
  }

  // -------------------------------------------------- what each step comes to

  lemma {:induction false} StoppingMeansAsked(options: Options, actions: seq<Action>)
    ensures Play(options, actions).service.stopping <==> Stop in actions
  {
    if actions != [] {
      var front, last := actions[..|actions| - 1], actions[|actions| - 1];
      StoppingMeansAsked(options, front);
      assert actions == front + [last];
      OnlyStopStops(Play(options, front).service, last);
    }
  }

  lemma OnlyStopStops(s: Service, a: Action)
    ensures Step(s, a).0.stopping <==> s.stopping || a == Stop
    ensures Step(s, a).0.options == s.options
  {
    match a
    case Submit(_, _) =>
    case Take =>
    case Check =>
    case Finish(_) =>
    case Publish =>
    case Poll =>
    case Release(_) =>
    case Stop =>
  }

  /** What a poll answers: while there is a request that is complete and has not been
      delivered, the first of them is handed out at once, with its own status, whether
      the service runs or stops; with none, the poll times out exactly as long as the
      worker has not ended, and the end is said only when everything accepted has been
      delivered. */
  lemma PollAnswers(options: Options, actions: seq<Action>)
    ensures
      var r := Play(options, actions);
      var b, reply := r.book, Step(r.service, Poll).1;
      && b.delivered <= b.completed <= |b.log|
      && (b.delivered < b.completed ==>
            && reply == Completion(b.log[b.delivered].id, b.log[b.delivered].status)
            && After(r, Poll).book == b.(delivered := b.delivered + 1)
            && After(r, Poll).deliveries == r.deliveries + [(b.log[b.delivered].id, b.log[b.delivered].status)])
      && (b.delivered == b.completed ==> After(r, Poll) == r)
      && (reply == TimedOut <==> b.delivered == b.completed && !r.service.worker.Finished?)
      && (reply == EmptyAndStopped <==> b.delivered == b.completed && r.service.worker.Finished?)
      && (r.service.worker.Finished? ==> b.completed == |b.log| && Stop in actions)
  {
    PlayKeeps(options, actions);
    StoppingMeansAsked(options, actions);
    var r := Play(options, actions);
    Found(r.service, r.book);
    if r.book.delivered < r.book.completed {
      assert HoldsAt(r.service.requests, r.book, r.book.delivered);
    }
  }

  /** What a submission answers: a request that could be copied is accepted, under an
      id above all earlier ones and as the last of the log, exactly when no stop was
      asked for, the requests held leave room in number and in bytes, ids are left and
      the insertion succeeds. Every refusal has its own cause. */
  lemma SubmitAnswers(options: Options, actions: seq<Action>, copy: Option<Copy>, admitted: bool)
    ensures
      var r := Play(options, actions);
      var s, reply, t := r.service, Step(r.service, Submit(copy, admitted)).1, After(r, Submit(copy, admitted));
      var crowded := |s.requests| >= options.maxOutstanding;
      var heavy := copy.Some? && ReservedBelow(s.requests, s.nextId) + copy.value.reserved > options.memoryBudget;
      && (reply == Refused(Stopped) <==> Stop in actions)
      && (reply == Refused(InvalidArgument) <==> Stop !in actions && !crowded && copy.None?)
      && (reply == Refused(Backpressure) <==> Stop !in actions && (crowded || heavy))
      && (reply.Accepted? <==>
            Stop !in actions && !crowded && copy.Some? && !heavy && s.nextId != U64_MAX && admitted)
      && (reply.Accepted? ==>
            t.book == r.book.(log := r.book.log + [Entry(reply.id, copy.value.statements, copy.value.reserved, Ok, false)]))
      && (!reply.Accepted? ==> t.book == r.book && t.service.requests == s.requests && t.service.reserved == s.reserved)
  {
    PlayKeeps(options, actions);
    PlayKeepsOptions(options, actions);
    StoppingMeansAsked(options, actions);
  }

  /** What the worker does next, wherever it is: it takes the first request that
      waits, or ends when a stop was asked for and none waits; it cancels the request
      it holds when a stop was asked for, and runs it otherwise; the driver's outcome
      becomes the status of that request and of no other, and exactly its statements
      become durable when the outcome applied them; and it publishes what it ran. */
  lemma WorkerAnswers(options: Options, actions: seq<Action>, outcome: Driver.Outcome)
    ensures
      var r := Play(options, actions);
      var t := After(r, WorkerAction(r.service.worker, outcome));
      Worked(r, t, Stop in actions, outcome)
  {
    PlayKeeps(options, actions);
    StoppingMeansAsked(options, actions);
    var r := Play(options, actions);
    match r.service.worker
    case Waiting => TakeWorks(r, outcome);
    case Holding(_) => CheckWorks(r, outcome);
    case InDriver(_) => FinishWorks(r, outcome);
    case Executed(_) => PublishWorks(r, outcome);
    case Finished => TakeWorks(r, outcome);
  }

  lemma TakeWorks(r: Run, outcome: Driver.Outcome)
    requires Queue(r.service, r.book) && (r.service.worker.Waiting? || r.service.worker.Finished?)
    ensures Worked(r, After(r, Take), r.service.stopping, outcome)
  {
    Found(r.service, r.book);
  }

  lemma CheckWorks(r: Run, outcome: Driver.Outcome)
    requires Queue(r.service, r.book) && r.service.worker.Holding?
    ensures Worked(r, After(r, Check), r.service.stopping, outcome)
  {
    assert HoldsAt(r.service.requests, r.book, r.book.completed);
  }

  lemma FinishWorks(r: Run, outcome: Driver.Outcome)
    requires Queue(r.service, r.book) && r.service.worker.InDriver?
    ensures Worked(r, After(r, Finish(outcome)), r.service.stopping, outcome)
  {
    assert HoldsAt(r.service.requests, r.book, r.book.completed);
    assert r.service.durable + [] == r.service.durable;
  }

  lemma PublishWorks(r: Run, outcome: Driver.Outcome)
    requires Queue(r.service, r.book) && r.service.worker.Executed?
    ensures Worked(r, After(r, Publish), r.service.stopping, outcome)
  {
    assert HoldsAt(r.service.requests, r.book, r.book.completed);
  }

  ghost predicate Worked(r: Run, t: Run, stop: bool, outcome: Driver.Outcome)
  {
    var s, b := r.service, r.book;
    match s.worker
    case Waiting =>
      && t.service.durable == s.durable
      && if b.taken < |b.log| then
           t.service.worker == Holding(b.log[b.taken].id) && t.book == b.(taken := b.taken + 1)
         else t.service.worker == (if stop then Finished else Waiting) && t.book == b
    case Holding(id) =>
      && t.service.durable == s.durable && b.executed < |b.log| && b.log[b.executed].id == id
      && if stop then
           && t.service.worker == Executed(id)
           && t.book == Settled(b, b.log[b.executed].(status := Cancelled, applied := false))
         else t.service.worker == InDriver(id) && t.book == b
    case InDriver(id) =>
      && b.executed < |b.log| && b.log[b.executed].id == id && t.service.worker == Executed(id)
      && t.book == Settled(b, b.log[b.executed].(status := outcome.status, applied := outcome.applied))
      && t.service.durable == s.durable + (if outcome.applied then b.log[b.executed].statements else [])
      && t.service.poisoned == outcome.poisoned
    case Executed(_) =>
      t.service.worker == Waiting && t.book == b.(completed := b.completed + 1) && t.service.durable == s.durable
    case Finished => t.service.worker == Finished && t.book == b && t.service.durable == s.durable
  }

  // The host has been handed the entry and has not freed it before.
  ghost predicate Handed(b: Book, id: nat)
  {
    exists i :: 0 <= i < b.delivered && i < |b.log| && b.log[i].id == id
  }

  // What the host has freed: results that had been handed to it.
  ghost function Released(options: Options, actions: seq<Action>): set<nat>
  {
    if actions == [] then {}
    else
      var front, last := actions[..|actions| - 1], actions[|actions| - 1];
      ReleasedBy(Play(options, front).book, last, Released(options, front))
  }

  // The map holds exactly what was accepted and has not been freed.
  ghost predicate HeldExactly(r: Run, released: set<nat>)
  {
    && (forall id :: id in r.service.requests <==> Logged(r.book.log, id) && id !in released)
    && (forall id :: id in released ==> Handed(r.book, id))
  }

  lemma DeliveredMeansHanded(s: Service, b: Book, id: nat)
    requires Queue(s, b) && id in s.requests
    ensures s.requests[id].phase == Delivered <==> Handed(b, id)
  {
    var k := IndexOf(b.log, id);
    assert HoldsAt(s.requests, b, k);
    if Handed(b, id) {
      var i :| 0 <= i < b.delivered && i < |b.log| && b.log[i].id == id;
      assert i == k;
    }
  }

  // Later logs still have every request, and nobody is handed back.
  lemma BookGrows(r: Run, a: Action, id: nat)
    requires Queue(r.service, r.book)
    ensures Logged(r.book.log, id) ==> Logged(After(r, a).book.log, id)
    ensures Handed(r.book, id) ==> Handed(After(r, a).book, id)
  {
    var b, c := r.book, After(r, a).book;
    assert |b.log| <= |c.log| && b.delivered <= c.delivered;
    assert forall i :: 0 <= i < |b.log| ==> c.log[i].id == b.log[i].id;
    if Logged(b.log, id) {
      var i := IndexOf(b.log, id);
      assert c.log[i].id == id;
    }
    if Handed(b, id) {
      var i :| 0 <= i < b.delivered && i < |b.log| && b.log[i].id == id;
      assert c.log[i].id == id;
    }
  }

  lemma StaysHeld(r: Run, a: Action, id: nat)
    requires Queue(r.service, r.book) && id in r.service.requests
    ensures id in After(r, a).service.requests <==> !(a.Release? && a.id == id && Handed(r.book, id))
  {
    if a.Release? && a.id == id {
      DeliveredMeansHanded(r.service, r.book, id);
    }
  }

  lemma OnlyAcceptedIsNew(r: Run, a: Action, id: nat)
    requires Queue(r.service, r.book) && !Logged(r.book.log, id) && Logged(After(r, a).book.log, id)
    ensures id in After(r, a).service.requests
  {
    var b, c := r.book, After(r, a).book;
    var i := IndexOf(c.log, id);
    if i < |b.log| {
      LoggedBefore(r, a, i);
      assert false;
    }
  }

  lemma LoggedBefore(r: Run, a: Action, i: nat)
    requires i < |r.book.log|
    ensures |After(r, a).book.log| >= |r.book.log| && Logged(r.book.log, After(r, a).book.log[i].id)
  {
    assert After(r, a).book.log[i].id == r.book.log[i].id;
  }

  lemma HandedIsLogged(b: Book, id: nat)
    requires Handed(b, id)
    ensures Logged(b.log, id)
  {
    var i :| 0 <= i < b.delivered && i < |b.log| && b.log[i].id == id;
  }

  // What the host has freed after one more action.
  ghost function ReleasedBy(b: Book, a: Action, released: set<nat>): set<nat>
  {
    released + if a.Release? && Handed(b, a.id) then {a.id} else {}
  }

  lemma OldHeld(r: Run, a: Action, released: set<nat>, id: nat)
    requires Queue(r.service, r.book) && HeldExactly(r, released) && Logged(r.book.log, id)
    ensures id in After(r, a).service.requests <==> id !in ReleasedBy(r.book, a, released)
    ensures Logged(After(r, a).book.log, id)
  {
    BookGrows(r, a, id);
    if id in r.service.requests {
      StaysHeld(r, a, id);
    } else {
      StaysAway(r, a, id);
    }
  }

  lemma StaysAway(r: Run, a: Action, id: nat)
    requires Queue(r.service, r.book) && Logged(r.book.log, id) && id !in r.service.requests
    ensures id !in After(r, a).service.requests
  {
    var i := IndexOf(r.book.log, id);
    if r.service.worker.Holding? || r.service.worker.InDriver? || r.service.worker.Executed? {
      assert HoldsAt(r.service.requests, r.book, r.book.completed);
    }
  }

  lemma NewHeld(r: Run, a: Action, released: set<nat>, id: nat)
    requires Queue(r.service, r.book) && HeldExactly(r, released) && !Logged(r.book.log, id)
    requires Queue(After(r, a).service, After(r, a).book)
    ensures id !in ReleasedBy(r.book, a, released)
    ensures id in After(r, a).service.requests <==> Logged(After(r, a).book.log, id)
  {
    if Handed(r.book, id) {
      HandedIsLogged(r.book, id);
    }
    if Logged(After(r, a).book.log, id) {
      OnlyAcceptedIsNew(r, a, id);
    }
  }

  lemma HeldKept(r: Run, a: Action, released: set<nat>)
    requires Queue(r.service, r.book) && HeldExactly(r, released)
    ensures HeldExactly(After(r, a), ReleasedBy(r.book, a, released))
  {
    QueueKept(r, a);
    var t, after := After(r, a), ReleasedBy(r.book, a, released);
    forall id
      ensures (id in t.service.requests <==> Logged(t.book.log, id) && id !in after) && (id in after ==> Handed(t.book, id))
    {
      BookGrows(r, a, id);
      if Logged(r.book.log, id) {
        OldHeld(r, a, released, id);
      } else {
        NewHeld(r, a, released, id);
      }
    }
  }

  /** Every accepted request is held, with its reservation, until the host frees it,
      and a release is granted exactly for a result that was handed to the host and
      has not been freed; what it held is then available again. */
  lemma {:induction false} HeldUntilReleased(options: Options, actions: seq<Action>)
    ensures HeldExactly(Play(options, actions), Released(options, actions))
  {
    if actions != [] {
      var front, last := actions[..|actions| - 1], actions[|actions| - 1];
      PlayKeeps(options, front);
      HeldUntilReleased(options, front);
      HeldKept(Play(options, front), last, Released(options, front));
    }
  }

  lemma ReleaseAnswers(options: Options, actions: seq<Action>, id: nat)
    ensures
      var r := Play(options, actions);
      var (t, reply) := Step(r.service, Release(id));
      && (reply == Freed <==> Handed(r.book, id) && id !in Released(options, actions))
      && (reply == Freed ==> id in r.service.requests && t.requests == r.service.requests - {id}
                             && t.reserved == r.service.reserved - r.service.requests[id].reserved)
      && (reply != Freed ==> t == r.service && reply == Refused(InvalidHandle))
  {
    PlayKeeps(options, actions);
    HeldUntilReleased(options, actions);
    ReleaseFrom(Play(options, actions), id, Released(options, actions));
  }

  lemma ReleaseFrom(r: Run, id: nat, released: set<nat>)
    requires Inv(r) && HeldExactly(r, released)
    ensures
      var (t, reply) := Step(r.service, Release(id));
      && (reply == Freed <==> Handed(r.book, id) && id !in released)
      && (reply == Freed ==> id in r.service.requests && t.requests == r.service.requests - {id}
                             && t.reserved == r.service.reserved - r.service.requests[id].reserved)
      && (reply != Freed ==> t == r.service && reply == Refused(InvalidHandle))
  {
    if Handed(r.book, id) {
      HandedIsLogged(r.book, id);
    }
    if id in r.service.requests {
      DeliveredMeansHanded(r.service, r.book, id);
      ReservedWithout(r.service.requests, id, r.service.nextId);
    }
  }

  // ------------------------------------------------------- the imperative form

  class SqlService {
    const sizes: Layout
    const options: Options
    const driver: Driver.SqliteDriver
    var requests: map<nat, Request>
    var nextId: nat
    var reservedBytes: nat
    const signals: Driver.Signals
    var worker: Worker

    // stopping_ is the flag the driver watches while it runs a request.
    ghost predicate Valid()
      reads this, driver, driver.database
    {
      && driver.Valid() && sizes.Valid()
      && options.maxRequestBytes <= 16 * MIB
    }

    ghost function Model(): Service
      reads this, driver, driver.database, signals
    {
      Service(options, requests, nextId, reservedBytes, signals.stopping, worker, driver.database.durable, driver.poisoned)
    }

    constructor (sizes: Layout, options: Options, driver: Driver.SqliteDriver)
      requires driver.Valid() && sizes.Valid() && options.maxRequestBytes <= 16 * MIB
      requires !driver.poisoned && driver.database.durable == []
      ensures Valid() && Model() == Initial(options)
    {
      this.sizes, this.options, this.driver := sizes, options, driver;
      requests, nextId, reservedBytes, worker := map[], 1, 0, Waiting;
      signals := new Driver.Signals(false);
    }

    method Submit(input: Option<seq<StatementInput>>) returns (reply: Reply, ghost action: Action)
      requires Valid()
      requires input.Some? ==> forall i :: 0 <= i < |input.value| ==> Readable(input.value[i])
      modifies this`requests, this`nextId, this`reservedBytes
      ensures Valid()
      ensures (Model(), reply) == Step(old(Model()), action)
      ensures action.Submit? && (action.copy.Some? <==> input.Some? && Accepts(sizes, options, input.value))
      ensures action.copy.Some? ==>
                action.copy.value == Copy(CopiedAll(input.value),
                                          Footprint(sizes, input.value) + options.maxResultBytes + 1024)
    {
      var copied, statements, reserved := CopyRequest(sizes, options, input);
      action := SqlService.Submitted(copied, statements, reserved, true);
      if signals.stopping {
        return Refused(Stopped), action;
      }
      if |requests| >= options.maxOutstanding {
        return Refused(Backpressure), action;
      }
      if !copied {
        return Refused(InvalidArgument), action;
      }
      if reserved > options.memoryBudget - reservedBytes {
        return Refused(Backpressure), action;
      }
      if nextId == U64_MAX {
        return Refused(InvalidState), action;
      }
      var id := nextId;
      nextId := nextId + 1;
      var inserted: bool := *;
      if !inserted {
        action := SqlService.Submitted(copied, statements, reserved, false);
        return Refused(InternalError), action;
      }
      requests := requests[id := Request(statements, reserved, Queued, Ok)];
      reservedBytes := reservedBytes + reserved;
      return Accepted(id), action;
    }

    static function Submitted(copied: bool, statements: seq<Statement>, reserved: nat, admitted: bool): Action
    {
      Action.Submit(if copied then Some(Copy(statements, reserved)) else None, admitted)
    }

    method FindInOrder(phase: Phase) returns (found: Option<nat>)
      ensures found == Find(Model(), phase)
    {
      var id := 0;
      while id < nextId
        invariant 0 <= id <= nextId
        invariant FindState(requests, phase, id, nextId) == FindState(requests, phase, 0, nextId)
      {
        if id in requests && requests[id].phase == phase {
          return Some(id);
        }
        id := id + 1;
      }
      return None;
    }

    method TakeNext()
      requires Valid() && worker == Waiting
      modifies this`requests, this`worker
      ensures Valid() && Model() == Step(old(Model()), Take).0
    {
      var found := FindInOrder(Queued);
      if found.None? {
        if signals.stopping {
          worker := Finished;
        }
        return;
      }
      requests := requests[found.value := requests[found.value].(phase := Running)];
      worker := Holding(found.value);
    }

    // The look at the stop flag, outside the lock.
    method CheckHeld()
      requires Valid() && worker.Holding? && worker.id in requests
      modifies this`requests, this`worker
      ensures Valid() && Model() == Step(old(Model()), Check).0
    {
      var id := worker.id;
      if signals.stopping {
        requests := requests[id := requests[id].(status := Cancelled)];
        worker := Executed(id);
      } else {
        worker := InDriver(id);
      }
    }

    // The driver runs the request outside the lock, and watches the stop flag:
    // stop may come at any moment of it, before or after the driver last looked.
    method RunInDriver() returns (ghost outcome: Driver.Outcome, ghost stopped: bool)
      requires Valid() && worker.InDriver? && worker.id in requests
      modifies this`requests, this`worker, driver, driver.database, signals
      ensures Valid()
      ensures Driver.Legal(old(driver.poisoned), outcome)
      ensures outcome.status == Cancelled ==> signals.stopping || signals.expired
      ensures Model() == Step(if stopped then Step(old(Model()), Stop).0 else old(Model()), Finish(outcome)).0
    {
      var id := worker.id;
      var result;
      result, outcome := driver.Execute(requests[id].statements, signals);
      signals.Advance();
      stopped := signals.stopping;
      requests := requests[id := requests[id].(status := result.status)];
      worker := Executed(id);
    }

    method PublishHeld()
      requires Valid() && worker.Executed? && worker.id in requests
      modifies this`requests, this`worker
      ensures Valid() && Model() == Step(old(Model()), Publish).0
    {
      requests := requests[worker.id := requests[worker.id].(phase := Complete)];
      worker := Waiting;
    }

    method PollNext() returns (reply: Reply)
      requires Valid()
      modifies this`requests
      ensures Valid() && (Model(), reply) == Step(old(Model()), Poll)
    {
      var found := FindInOrder(Complete);
      if found.None? {
        return if worker.Finished? then EmptyAndStopped else TimedOut;
      }
      reply := Completion(found.value, requests[found.value].status);
      requests := requests[found.value := requests[found.value].(phase := Delivered)];
    }

    method ReleaseResult(id: nat) returns (reply: Reply)
      requires Valid()
      modifies this`requests, this`reservedBytes
      ensures Valid() && (Model(), reply) == Step(old(Model()), Release(id))
    {
      if id !in requests || requests[id].phase != Delivered {
        return Refused(InvalidHandle);
      }
      reservedBytes := Lower(reservedBytes, requests[id].reserved);
      requests := requests - {id};
      return Freed;
    }

    method RequestStop()
      requires Valid()
      modifies signals
      ensures Valid() && Model() == Step(old(Model()), Stop).0
    {
      signals.stopping := true;
    }

    // One round of the worker's loop after stop, from wherever the worker is.
    method WorkerStep(ghost before: Run) returns (ghost action: Action)
      requires Valid() && Inv(before) && before.service == Model() && signals.stopping && !worker.Finished?
      modifies this, driver, driver.database, signals
      ensures Valid() && signals.stopping
      ensures Possible(before.service, action) && Model() == Step(before.service, action).0
      ensures Remaining(After(before, action)) < Remaining(before)
    {
      ghost var outcome := Driver.Outcome(Cancelled, false, false);
      action := Take;
      if worker.Waiting? {
        TakeNext();
      } else {
        assert HoldsAt(before.service.requests, before.book, before.book.completed);
        if worker.Holding? {
          action := Check;
          CheckHeld();
        } else if worker.InDriver? {
          ghost var stopped;
          outcome, stopped := RunInDriver();
          action := Finish(outcome);
        } else {
          action := Publish;
          PublishHeld();
        }
      }
      WorkerAdvances(before, outcome);
    }

    /** The worker's loop once stop has been requested: it ends with everything
        accepted complete; the request that was in the driver when stop came may
        have become durable, whole or not at all, and every other one that was not
        executed yet has been cancelled. */
    method RunToEnd(ghost start: Run) returns (ghost end: Run)
      requires Valid() && Inv(start) && start.service == Model() && signals.stopping
      modifies this, driver, driver.database, signals
      ensures Valid() && Inv(end) && end.service == Model() && worker.Finished?
      ensures end.book.completed == |end.book.log| && SinceStop(start, end)
    {
      end := start;
      StopNow(start);
      while !worker.Finished?
        invariant Valid() && Inv(end) && end.service == Model() && signals.stopping
        invariant SinceStop(start, end)
        decreases Remaining(end)
      {
        ghost var action := WorkerStep(end);
        InvKept(end, action);
        SinceStopKept(start, end, action);
        end := After(end, action);
      }
    }
  }
}
