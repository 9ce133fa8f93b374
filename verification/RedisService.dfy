/** The Redis service: one worker takes requests in the order of submission, runs
    each as one command and keeps the results until they are polled
    (src/Data/Redis/Service.cpp). Submit, poll and stop lock the same mutex as the
    worker's critical sections, so a run is any sequence of those sections, of
    executions by the worker, and of commands that a server runs late. */
module RedisService {
  import opened Prelude
  import opened RedisClient

  const ID_RANGE: nat := 0x1_0000_0000_0000_0000
  const MAX_TTL: nat := 0x7FFF_FFFF_FFFF_FFFF

  datatype Options = Options(maxInflight: nat, maxKey: nat, maxValue: nat, maxQueue: nat, maxResult: nat)

  datatype Code = Accepted | InvalidArgument | ServiceStopped | Backpressure | InvalidState | OutOfMemory

  // A request in one of the lists. Key and value are released when it is done, so
  // from then on call is only its history.
  datatype Item = Item(id: nat, call: Call, reservation: nat, completion: Completion)

  datatype Running = Running(item: Item, done: bool)

  // A write the server has run, named by its request. A late one ran after the
  // client had given it up.
  datatype Effect = Effect(id: nat, late: bool)

  // accepted, effects, floating and seen are history: the calls accepted, the writes
  // the server has run and those it may still run, and how many writes it had run
  // when a request was executed.
  datatype State = State(options: Options, pending: seq<Item>, running: Option<Running>, ready: seq<Item>,
                         delivered: seq<Item>, nextId: nat, queueBytes: int, reserved: int, inflight: int,
                         stopping: bool, stopped: bool,
                         accepted: seq<Call>, effects: seq<Effect>, floating: set<nat>, seen: map<nat, nat>)

  function Fresh(options: Options): State
  {
    State(options, [], None, [], [], 1, 0, 0, 0, false, false, [], [], {}, map[])
  }

  datatype Action =
    | Submit(call: Call, allocates: bool)
    | Take
    | Execute(script: Script)
    | Publish
    | StopWorker
    | Poll(capacity: nat)
    | Stop
    | RunLate(id: nat)

  function NextId(id: nat): nat { if id + 1 == ID_RANGE then 0 else id + 1 }

  function Reservation(o: Options, call: Call): nat { if call.op == Get then o.maxValue else 0 }

  function Cost(call: Call): nat { |call.key| + |call.value| }

  predicate ValidCall(o: Options, call: Call)
  {
    0 < |call.key| <= o.maxKey && |call.value| <= o.maxValue && call.ttl <= MAX_TTL
  }

  function Admission(s: State, call: Call, allocates: bool): Code
  {
    if !ValidCall(s.options, call) then InvalidArgument
    else if s.stopping then ServiceStopped
    else if s.inflight >= s.options.maxInflight || Cost(call) > s.options.maxQueue - s.queueBytes
            || Reservation(s.options, call) > s.options.maxResult - s.reserved
    then Backpressure
    else if s.nextId == 0 then InvalidState
    else if !allocates then OutOfMemory
    else Accepted
  }

  function NewItem(s: State, call: Call): Item
  {
    Item(s.nextId, call, Reservation(s.options, call), Completion(Ok, false, 0, []))
  }

  function Enqueued(s: State, call: Call): State
  {
    s.(pending := s.pending + [NewItem(s, call)], nextId := NextId(s.nextId),
       queueBytes := s.queueBytes + Cost(call), reserved := s.reserved + Reservation(s.options, call),
       inflight := s.inflight + 1, accepted := s.accepted + [call])
  }

  // The writes in order, applied to an empty database.
  function Replay(calls: seq<Call>, effects: seq<Effect>): Database
  {
    if effects == [] then map[]
    else
      var id := effects[|effects| - 1].id;
      var before := Replay(calls, effects[..|effects| - 1]);
      if 0 < id <= |calls| then Applied(before, calls[id - 1]) else before
  }

  function Server(s: State): Database { Replay(s.accepted, s.effects) }

  function Cancelled(item: Item): Item { item.(completion := Failed(Stopped)) }

  function CancelAll(items: seq<Item>): seq<Item>
  {
    seq(|items|, i requires 0 <= i < |items| => Cancelled(items[i]))
  }

  // The key and value bytes of requests that have not released them.
  function Costs(items: seq<Item>): nat
  {
    if items == [] then 0 else Costs(items[..|items| - 1]) + Cost(items[|items| - 1].call)
  }

  function Reserved(items: seq<Item>): nat
  {
    if items == [] then 0 else Reserved(items[..|items| - 1]) + items[|items| - 1].reservation
  }

  // What an execution leaves at the server: a write it ran, or one it may yet run.
  function Added(item: Item, script: Script): seq<Effect>
  {
    if Writes(item.call) && Sends(script) && script.fate == Ran then [Effect(item.id, false)] else []
  }

  function AfterRun(s: State, item: Item, script: Script): State
  {
    s.(effects := s.effects + Added(item, script),
       floating := if Writes(item.call) && Sends(script) && script.fate == Floating then s.floating + {item.id}
                   else s.floating,
       seen := s.seen[item.id := |s.effects|])
  }

  function Executed(s: State, item: Item, script: Script): Item
  {
    item.(completion := RedisClient.Execute(s.options.maxValue, item.call, script))
  }

  datatype Reply = Timeout | EndOfResults | BufferTooSmall(item: Item) | Result(item: Item)

  function Polled(s: State, capacity: nat): Reply
  {
    if s.ready == [] then if s.stopped then EndOfResults else Timeout
    else if |s.ready[0].completion.value| > capacity then BufferTooSmall(s.ready[0])
    else Result(s.ready[0])
  }

  // An action whose guard fails changes nothing. An execution is one the
  // assumptions about network and server allow.
  function Step(s: State, a: Action): State
  {
    match a
    case Submit(call, allocates) =>
      if Admission(s, call, allocates) == Accepted then Enqueued(s, call) else s
    case Take =>
      if s.running.Some? || s.stopping || s.pending == [] then s
      else s.(running := Some(Running(s.pending[0], false)), pending := s.pending[1..])
    case Execute(script) =>
      if s.running.None? || s.running.value.done || !Plain(script)
         || !Honest(Server(s), s.running.value.item.call, script)
      then s
      else
        var item := s.running.value.item;
        AfterRun(s, item, script).(running := Some(Running(Executed(s, item, script), true)))
    case Publish =>
      if s.running.None? || !s.running.value.done then s
      else
        var item := s.running.value.item;
        s.(running := None, queueBytes := s.queueBytes - Cost(item.call), ready := s.ready + [item])
    case StopWorker =>
      if !s.stopping || s.stopped || s.running.Some? then s
      else
        s.(ready := s.ready + CancelAll(s.pending), pending := [], queueBytes := s.queueBytes - Costs(s.pending),
           stopped := true)
    case Poll(capacity) =>
      if !Polled(s, capacity).Result? then s
      else
        s.(ready := s.ready[1..], delivered := s.delivered + [s.ready[0]],
           reserved := s.reserved - s.ready[0].reservation, inflight := s.inflight - 1)
    case Stop => s.(stopping := true)
    case RunLate(id) =>
      if id !in s.floating then s
      else s.(floating := s.floating - {id}, effects := s.effects + [Effect(id, true)])
  }

  function Play(options: Options, actions: seq<Action>): State
  {
    if actions == [] then Fresh(options)
    else Step(Play(options, actions[..|actions| - 1]), actions[|actions| - 1])
  }

  // ------------------------------------------------------------ the one line

  function Current(s: State): seq<Item>
  {
    if s.running.Some? then [s.running.value.item] else []
  }

  // Every accepted request, in the order of submission.
  function Line(s: State): seq<Item>
  {
    s.delivered + s.ready + Current(s) + s.pending
  }

  // How many requests of the line have been executed or cancelled.
  function Finished(s: State): nat
  {
    |s.delivered| + |s.ready| + if s.running.Some? && s.running.value.done then 1 else 0
  }

  lemma SubmitLine(s: State, call: Call, allocates: bool)
    requires Admission(s, call, allocates) == Accepted
    ensures Line(Step(s, Submit(call, allocates))) == Line(s) + [NewItem(s, call)]
  {
  }

  lemma TakeLine(s: State)
    ensures Line(Step(s, Take)) == Line(s)
  {
    if s.pending != [] {
      assert s.pending == [s.pending[0]] + s.pending[1..];
    }
  }

  lemma ExecuteLine(s: State, script: Script)
    requires Step(s, Execute(script)) != s
    ensures
      var item := s.running.value.item;
      && Finished(s) < |Line(s)| && Line(s)[Finished(s)] == item
      && Line(Step(s, Execute(script))) == Line(s)[Finished(s) := Executed(s, item, script)]
  {
  }

  lemma PublishLine(s: State)
    ensures Line(Step(s, Publish)) == Line(s)
  {
  }

  lemma PollLine(s: State, capacity: nat)
    ensures Line(Step(s, Poll(capacity))) == Line(s)
  {
    if s.ready != [] {
      assert s.ready == [s.ready[0]] + s.ready[1..];
      assert s.delivered + [s.ready[0]] + s.ready[1..] == s.delivered + s.ready;
    }
  }

  lemma StopWorkerLine(s: State)
    requires Step(s, StopWorker) != s
    ensures
      var line, cut := Line(s), Finished(s);
      && cut <= |line|
      && Line(Step(s, StopWorker)) == line[..cut] + CancelAll(line[cut..])
  {
    assert Line(s)[Finished(s)..] == s.pending;
    assert Line(s)[..Finished(s)] == s.delivered + s.ready;
  }

  // --------------------------------------------------- soundness of the record

  function Times(effects: seq<Effect>, id: nat): nat
  {
    if effects == [] then 0
    else Times(effects[..|effects| - 1], id) + if effects[|effects| - 1].id == id then 1 else 0
  }

  lemma TimesAppend(effects: seq<Effect>, e: Effect, id: nat)
    ensures Times(effects + [e], id) == Times(effects, id) + if e.id == id then 1 else 0
  {
    assert (effects + [e])[..|effects|] == effects;
  }

  ghost predicate RanInTime(effects: seq<Effect>, id: nat)
  {
    Effect(id, false) in effects
  }

  function SeenBy(seen: map<nat, nat>, id: nat): nat { if id in seen then seen[id] else 0 }

  // What a successful read answered is what the server held at that moment.
  predicate ReadSound(item: Item, calls: seq<Call>, effects: seq<Effect>, seen: map<nat, nat>)
  {
    && SeenBy(seen, item.id) <= |effects|
    && var db := Replay(calls, effects[..SeenBy(seen, item.id)]);
       && (item.completion.found <==> item.call.key in db)
       && (item.completion.found ==> item.completion.value == db[item.call.key])
  }

  ghost predicate Settled(item: Item, calls: seq<Call>, effects: seq<Effect>, floating: set<nat>, seen: map<nat, nat>)
  {
    var times, status := Times(effects, item.id), item.completion.status;
    if !Writes(item.call) then
      && times == 0 && item.id !in floating && status != OutcomeUnknown
      && (status == Ok ==> ReadSound(item, calls, effects, seen))
    else if status == Ok then times == 1 && RanInTime(effects, item.id) && item.id !in floating
    else if status == OutcomeUnknown then times + (if item.id in floating then 1 else 0) <= 1
    else times == 0 && item.id !in floating
  }

  ghost predicate Place(item: Item, i: nat, finished: nat, calls: seq<Call>, effects: seq<Effect>, floating: set<nat>,
                        seen: map<nat, nat>)
    requires i < |calls|
  {
    && item.id == i + 1 && item.call == calls[i]
    && if i < finished then Settled(item, calls, effects, floating, seen)
       else Times(effects, item.id) == 0 && item.id !in floating
  }

  ghost predicate Known(effects: seq<Effect>, floating: set<nat>, finished: nat)
  {
    && (forall k :: 0 <= k < |effects| ==> 0 < effects[k].id <= finished)
    && (forall id :: id in floating ==> 0 < id <= finished)
  }

  ghost predicate InOrder(effects: seq<Effect>)
  {
    forall j, k :: 0 <= j < k < |effects| && !effects[j].late && !effects[k].late ==> effects[j].id < effects[k].id
  }

  ghost predicate Sound(line: seq<Item>, finished: nat, calls: seq<Call>, effects: seq<Effect>, floating: set<nat>,
                        seen: map<nat, nat>)
  {
    && |line| == |calls| && finished <= |line|
    && Known(effects, floating, finished)
    && InOrder(effects)
    && forall i :: 0 <= i < |line| ==> Place(line[i], i, finished, calls, effects, floating, seen)
  }

  lemma {:induction false} ReplayIgnoresLaterCalls(calls: seq<Call>, more: seq<Call>, effects: seq<Effect>, n: nat)
    requires n <= |calls| && forall k :: 0 <= k < |effects| ==> 0 < effects[k].id <= n
    ensures Replay(calls + more, effects) == Replay(calls, effects)
  {
    if effects != [] {
      ReplayIgnoresLaterCalls(calls, more, effects[..|effects| - 1], n);
    }
  }

  lemma SubmitSound(line: seq<Item>, finished: nat, calls: seq<Call>, effects: seq<Effect>, floating: set<nat>,
                    seen: map<nat, nat>, item: Item)
    requires Sound(line, finished, calls, effects, floating, seen) && item.id == |calls| + 1
    ensures Sound(line + [item], finished, calls + [item.call], effects, floating, seen)
  {
    forall i | 0 <= i < |line|
      ensures Place(line[i], i, finished, calls + [item.call], effects, floating, seen)
    {
      assert Place(line[i], i, finished, calls, effects, floating, seen);
      PlaceKeptBySubmit(line[i], i, finished, calls, effects, floating, seen, item.call);
    }
    NeverRan(effects, floating, finished, item.id);
  }

  lemma PlaceKeptBySubmit(item: Item, i: nat, finished: nat, calls: seq<Call>, effects: seq<Effect>,
                          floating: set<nat>, seen: map<nat, nat>, call: Call)
    requires i < |calls| && finished <= |calls| && Known(effects, floating, finished)
    requires Place(item, i, finished, calls, effects, floating, seen)
    ensures Place(item, i, finished, calls + [call], effects, floating, seen)
  {
    var n := SeenBy(seen, item.id);
    if n <= |effects| {
      ReplayIgnoresLaterCalls(calls, [call], effects[..n], finished);
    }
  }

  lemma {:induction false} NeverRan(effects: seq<Effect>, floating: set<nat>, finished: nat, id: nat)
    requires Known(effects, floating, finished) && id > finished
    ensures Times(effects, id) == 0 && id !in floating
  {
    if effects != [] {
      NeverRan(effects[..|effects| - 1], floating, finished, id);
    }
  }

  // A step at the server that adds at most one effect keeps the place of every
  // request it does not concern.
  lemma PlaceKeptByEffect(item: Item, i: nat, finished: nat, calls: seq<Call>, effects: seq<Effect>,
                          floating: set<nat>, seen: map<nat, nat>, added: seq<Effect>, floating': set<nat>,
                          seen': map<nat, nat>, finished': nat)
    requires i < |calls| && Place(item, i, finished, calls, effects, floating, seen)
    requires |added| <= 1 && (added != [] ==> added[0].id != item.id)
    requires (item.id in floating' <==> item.id in floating) && SeenBy(seen', item.id) == SeenBy(seen, item.id)
    requires i < finished <==> i < finished'
    ensures Place(item, i, finished', calls, effects + added, floating', seen')
  {
    if added == [] {
      assert effects + added == effects;
    } else {
      assert added == [added[0]];
      TimesAppend(effects, added[0], item.id);
    }
    var n := SeenBy(seen, item.id);
    if n <= |effects| {
      assert (effects + added)[..n] == effects[..n];
    }
  }

  lemma ExecuteSound(line: seq<Item>, cut: nat, calls: seq<Call>, effects: seq<Effect>, floating: set<nat>,
                     seen: map<nat, nat>, item: Item, added: seq<Effect>, floating': set<nat>, seen': map<nat, nat>)
    requires Sound(line, cut, calls, effects, floating, seen) && cut < |line|
    requires item.id == line[cut].id && item.call == line[cut].call
    requires added == [] || added == [Effect(item.id, false)]
    requires floating' == floating || floating' == floating + {item.id}
    requires forall id :: id != item.id ==> SeenBy(seen', id) == SeenBy(seen, id)
    requires Settled(item, calls, effects + added, floating', seen')
    ensures Sound(line[cut := item], cut + 1, calls, effects + added, floating', seen')
  {
    assert Place(line[cut], cut, cut, calls, effects, floating, seen);
    var after, ran := line[cut := item], effects + added;
    forall i | 0 <= i < |after|
      ensures Place(after[i], i, cut + 1, calls, ran, floating', seen')
    {
      assert Place(line[i], i, cut, calls, effects, floating, seen);
      if i != cut {
        PlaceKeptByEffect(line[i], i, cut, calls, effects, floating, seen, added, floating', seen', cut + 1);
      }
    }
    ExtendedInOrder(effects, floating, cut, item.id, added, floating');
  }

  lemma ExtendedInOrder(effects: seq<Effect>, floating: set<nat>, cut: nat, id: nat, added: seq<Effect>,
                        floating': set<nat>)
    requires Known(effects, floating, cut) && InOrder(effects) && id == cut + 1
    requires added == [] || added == [Effect(id, false)]
    requires floating' == floating || floating' == floating + {id}
    ensures Known(effects + added, floating', cut + 1) && InOrder(effects + added)
  {
  }

  lemma CancelSound(line: seq<Item>, cut: nat, calls: seq<Call>, effects: seq<Effect>, floating: set<nat>,
                    seen: map<nat, nat>)
    requires Sound(line, cut, calls, effects, floating, seen)
    ensures Sound(line[..cut] + CancelAll(line[cut..]), |line|, calls, effects, floating, seen)
  {
    var after := line[..cut] + CancelAll(line[cut..]);
    forall i | 0 <= i < |after|
      ensures Place(after[i], i, |line|, calls, effects, floating, seen)
    {
      assert Place(line[i], i, cut, calls, effects, floating, seen);
      assert after[i] == if i < cut then line[i] else Cancelled(line[i]);
    }
  }

  lemma LateSound(line: seq<Item>, finished: nat, calls: seq<Call>, effects: seq<Effect>, floating: set<nat>,
                  seen: map<nat, nat>, id: nat)
    requires Sound(line, finished, calls, effects, floating, seen) && id in floating
    ensures Sound(line, finished, calls, effects + [Effect(id, true)], floating - {id}, seen)
  {
    forall i | 0 <= i < |line|
      ensures Place(line[i], i, finished, calls, effects + [Effect(id, true)], floating - {id}, seen)
    {
      assert Place(line[i], i, finished, calls, effects, floating, seen);
      if line[i].id == id {
        TimesAppend(effects, Effect(id, true), id);
      } else {
        PlaceKeptByEffect(line[i], i, finished, calls, effects, floating, seen, [Effect(id, true)], floating - {id},
                          seen, finished);
      }
    }
    LateInOrder(effects, floating, finished, id);
  }

  lemma LateInOrder(effects: seq<Effect>, floating: set<nat>, finished: nat, id: nat)
    requires Known(effects, floating, finished) && InOrder(effects) && id in floating
    ensures Known(effects + [Effect(id, true)], floating - {id}, finished)
    ensures InOrder(effects + [Effect(id, true)])
  {
  }

  // The execution of a request settles it.
  lemma ExecutionSettles(s: State, item: Item, script: Script)
    requires Plain(script) && Honest(Server(s), item.call, script)
    requires Times(s.effects, item.id) == 0 && item.id !in s.floating
    ensures
      var t := AfterRun(s, item, script);
      Settled(Executed(s, item, script), s.accepted, t.effects, t.floating, t.seen)
  {
    StatusTellsTheFate(s.options.maxValue, Server(s), item.call, script);
    TimesAppend(s.effects, Effect(item.id, false), item.id);
    assert s.effects + [] == s.effects;
    if !Writes(item.call) && Executed(s, item, script).completion.status == Ok {
      AnswersAreTheServers(s.options.maxValue, Server(s), item.call, script);
      assert s.effects[..|s.effects|] == s.effects;
    }
  }

  // ----------------------------------------------------------------- budgets

  lemma {:induction false} CostsAppend(a: seq<Item>, b: seq<Item>)
    ensures Costs(a + b) == Costs(a) + Costs(b)
  {
    if b == [] {
      assert a + b == a;
    } else {
      assert (a + b)[..|a + b| - 1] == a + b[..|b| - 1];
      CostsAppend(a, b[..|b| - 1]);
    }
  }

  lemma {:induction false} ReservedAppend(a: seq<Item>, b: seq<Item>)
    ensures Reserved(a + b) == Reserved(a) + Reserved(b)
  {
    if b == [] {
      assert a + b == a;
    } else {
      assert (a + b)[..|a + b| - 1] == a + b[..|b| - 1];
      ReservedAppend(a, b[..|b| - 1]);
    }
  }

  lemma CostsSnoc(items: seq<Item>, item: Item)
    ensures Costs(items + [item]) == Costs(items) + Cost(item.call)
  {
    assert (items + [item])[..|items|] == items;
  }

  lemma ReservedSnoc(items: seq<Item>, item: Item)
    ensures Reserved(items + [item]) == Reserved(items) + item.reservation
  {
    assert (items + [item])[..|items|] == items;
  }

  // A change of the items that keeps their reservations keeps the sum.
  lemma {:induction false} ReservedSame(a: seq<Item>, b: seq<Item>)
    requires |a| == |b| && forall i :: 0 <= i < |a| ==> a[i].reservation == b[i].reservation
    ensures Reserved(a) == Reserved(b)
  {
    if a != [] {
      ReservedSame(a[..|a| - 1], b[..|b| - 1]);
    }
  }

  function Outstanding(s: State): seq<Item> { s.ready + Current(s) + s.pending }

  // The three counters are the sums they stand for, within their limits.
  ghost predicate Budgets(s: State)
  {
    && s.queueBytes == Costs(Current(s) + s.pending) <= s.options.maxQueue
    && s.reserved == Reserved(Outstanding(s)) <= s.options.maxResult
    && s.inflight == |Outstanding(s)| <= s.options.maxInflight
  }

  // A result holds no more bytes than were reserved for it.
  ghost predicate Fitting(items: seq<Item>)
  {
    forall i :: 0 <= i < |items| ==> |items[i].completion.value| <= items[i].reservation
  }

  ghost predicate Numbered(s: State)
  {
    |s.accepted| < ID_RANGE && s.nextId == NextId(|s.accepted|)
  }

  predicate Halted(s: State)
  {
    s.stopped ==> s.stopping && s.running.None? && s.pending == []
  }

  // Reservations are what was reserved at submission.
  ghost predicate Priced(s: State)
  {
    forall i :: 0 <= i < |Line(s)| ==> Line(s)[i].reservation == Reservation(s.options, Line(s)[i].call)
  }

  ghost predicate Recorded(s: State)
  {
    Sound(Line(s), Finished(s), s.accepted, s.effects, s.floating, s.seen)
  }

  // What a request carries is as it was fixed when the request was accepted, and
  // its record is true.
  ghost predicate Intact(s: State)
  {
    Recorded(s) && Fitting(Line(s)) && Priced(s) && Numbered(s)
  }

  ghost predicate Inv(s: State)
  {
    Intact(s) && Budgets(s) && Halted(s)
  }

  // A step that moves requests between the lists only.
  lemma SameLine(s: State, t: State)
    requires Intact(s) && Line(t) == Line(s) && Finished(t) == Finished(s)
    requires t == s.(pending := t.pending, running := t.running, ready := t.ready, delivered := t.delivered,
                     queueBytes := t.queueBytes, reserved := t.reserved, inflight := t.inflight,
                     stopping := t.stopping, stopped := t.stopped)
    ensures Intact(t)
  {
  }

  lemma SubmitKeeps(s: State, call: Call, allocates: bool)
    requires Inv(s) && Admission(s, call, allocates) == Accepted
    ensures Inv(Step(s, Submit(call, allocates)))
  {
    SubmitBudgets(s, call, allocates);
    SubmitIntact(s, call, allocates);
  }

  lemma SubmitIntact(s: State, call: Call, allocates: bool)
    requires Intact(s) && Admission(s, call, allocates) == Accepted
    ensures Intact(Step(s, Submit(call, allocates)))
  {
    SubmitLine(s, call, allocates);
    SubmitSound(Line(s), Finished(s), s.accepted, s.effects, s.floating, s.seen, NewItem(s, call));
  }

  lemma SubmitBudgets(s: State, call: Call, allocates: bool)
    requires Budgets(s) && Admission(s, call, allocates) == Accepted
    ensures Budgets(Step(s, Submit(call, allocates)))
  {
    var t, item := Step(s, Submit(call, allocates)), NewItem(s, call);
    SubmitLists(s, call, allocates);
    ReservedSnoc(Outstanding(s), item);
    CostsSnoc(Current(s) + s.pending, item);
  }

  lemma SubmitLists(s: State, call: Call, allocates: bool)
    requires Admission(s, call, allocates) == Accepted
    ensures
      var t, item := Step(s, Submit(call, allocates)), NewItem(s, call);
      && Outstanding(t) == Outstanding(s) + [item]
      && Current(t) + t.pending == Current(s) + s.pending + [item]
  {
  }

  lemma TakeKeeps(s: State)
    requires Inv(s) && Step(s, Take) != s
    ensures Inv(Step(s, Take))
  {
    TakeLine(s);
    SameLine(s, Step(s, Take));
    TakeBudgets(s);
  }

  lemma TakeBudgets(s: State)
    requires Budgets(s) && Step(s, Take) != s
    ensures Budgets(Step(s, Take))
  {
    var t := Step(s, Take);
    assert s.pending == [s.pending[0]] + s.pending[1..];
    assert Outstanding(t) == Outstanding(s);
    assert Current(t) + t.pending == Current(s) + s.pending;
  }

  lemma ExecuteKeeps(s: State, script: Script)
    requires Inv(s) && Step(s, Execute(script)) != s
    ensures Inv(Step(s, Execute(script)))
  {
    ExecuteBudgets(s, script);
    ExecuteRecorded(s, script);
    ExecuteFits(s, script);
  }

  lemma ExecuteFits(s: State, script: Script)
    requires Intact(s) && Step(s, Execute(script)) != s
    ensures
      var t := Step(s, Execute(script));
      Fitting(Line(t)) && Priced(t)
  {
    var t, item := Step(s, Execute(script)), s.running.value.item;
    ExecuteLine(s, script);
    HeldBytes(s.options.maxValue, item.call, script);
    var line, k, done := Line(s), Finished(s), Executed(s, item, script);
    assert line[k].reservation == Reservation(s.options, line[k].call);
    assert forall i :: 0 <= i < |line| ==> Line(t)[i] == if i == k then done else line[i];
  }

  lemma ExecuteShape(s: State, script: Script)
    requires Step(s, Execute(script)) != s
    ensures
      var t, item := Step(s, Execute(script)), s.running.value.item;
      && t.effects == s.effects + Added(item, script) && t.floating == AfterRun(s, item, script).floating
      && t.accepted == s.accepted && t.seen == s.seen[item.id := |s.effects|] && Finished(t) == Finished(s) + 1
  {
  }

  lemma RunSettles(s: State, script: Script)
    requires Recorded(s) && Step(s, Execute(script)) != s
    ensures
      var item := s.running.value.item;
      var t := AfterRun(s, item, script);
      Settled(Executed(s, item, script), s.accepted, s.effects + Added(item, script), t.floating, t.seen)
  {
    ExecuteLine(s, script);
    assert Place(Line(s)[Finished(s)], Finished(s), Finished(s), s.accepted, s.effects, s.floating, s.seen);
    ExecutionSettles(s, s.running.value.item, script);
  }

  lemma ExecuteRecorded(s: State, script: Script)
    requires Recorded(s) && Step(s, Execute(script)) != s
    ensures Recorded(Step(s, Execute(script)))
  {
    var item := s.running.value.item;
    ExecuteLine(s, script);
    ExecuteShape(s, script);
    RunSettles(s, script);
    ExecuteSound(Line(s), Finished(s), s.accepted, s.effects, s.floating, s.seen, Executed(s, item, script),
                 Added(item, script), AfterRun(s, item, script).floating, AfterRun(s, item, script).seen);
  }

  lemma ExecuteBudgets(s: State, script: Script)
    requires Budgets(s) && Step(s, Execute(script)) != s
    ensures Budgets(Step(s, Execute(script)))
  {
    var t, item := Step(s, Execute(script)), s.running.value.item;
    var done := Executed(s, item, script);
    ReservedSame(Outstanding(s), Outstanding(t));
    CostsAppend([item], s.pending);
    CostsAppend([done], s.pending);
    assert [item][..0] == [] && [done][..0] == [];
  }

  lemma PublishKeeps(s: State)
    requires Inv(s) && Step(s, Publish) != s
    ensures Inv(Step(s, Publish))
  {
    PublishLine(s);
    SameLine(s, Step(s, Publish));
    PublishBudgets(s);
  }

  lemma PublishBudgets(s: State)
    requires Budgets(s) && Step(s, Publish) != s
    ensures Budgets(Step(s, Publish))
  {
    var t, item := Step(s, Publish), s.running.value.item;
    assert Outstanding(t) == Outstanding(s);
    CostsAppend([item], s.pending);
    assert [item][..0] == [];
    assert Current(t) + t.pending == s.pending;
  }

  lemma StopWorkerKeeps(s: State)
    requires Inv(s) && Step(s, StopWorker) != s
    ensures Inv(Step(s, StopWorker))
  {
    var t, line, cut := Step(s, StopWorker), Line(s), Finished(s);
    StopWorkerLine(s);
    StopWorkerBudgets(s);
    CancelSound(line, cut, s.accepted, s.effects, s.floating, s.seen);
    CancelFits(line, cut, s.options);
    assert Finished(t) == |line|;
    assert Recorded(t);
  }

  lemma StopWorkerBudgets(s: State)
    requires Budgets(s) && Step(s, StopWorker) != s
    ensures Budgets(Step(s, StopWorker))
  {
    var t := Step(s, StopWorker);
    ReservedSame(Outstanding(s), Outstanding(t));
    assert Current(s) + s.pending == s.pending && Current(t) + t.pending == [];
  }

  lemma CancelFits(line: seq<Item>, cut: nat, options: Options)
    requires cut <= |line| && Fitting(line)
    requires forall i :: 0 <= i < |line| ==> line[i].reservation == Reservation(options, line[i].call)
    ensures
      var after := line[..cut] + CancelAll(line[cut..]);
      Fitting(after) && forall i :: 0 <= i < |after| ==> after[i].reservation == Reservation(options, after[i].call)
  {
    var after := line[..cut] + CancelAll(line[cut..]);
    forall i | 0 <= i < |after|
      ensures |after[i].completion.value| <= after[i].reservation == Reservation(options, after[i].call)
    {
      assert after[i] == if i < cut then line[i] else Cancelled(line[i]);
    }
  }

  lemma PollKeeps(s: State, capacity: nat)
    requires Inv(s) && Step(s, Poll(capacity)) != s
    ensures Inv(Step(s, Poll(capacity)))
  {
    PollLine(s, capacity);
    SameLine(s, Step(s, Poll(capacity)));
    PollBudgets(s, capacity);
  }

  lemma PollBudgets(s: State, capacity: nat)
    requires Budgets(s) && Step(s, Poll(capacity)) != s
    ensures Budgets(Step(s, Poll(capacity)))
  {
    var t := Step(s, Poll(capacity));
    assert s.ready == [s.ready[0]] + s.ready[1..];
    assert Outstanding(s) == [s.ready[0]] + Outstanding(t);
    ReservedAppend([s.ready[0]], Outstanding(t));
    assert [s.ready[0]][..0] == [];
    assert Current(t) + t.pending == Current(s) + s.pending;
  }

  lemma RunLateKeeps(s: State, id: nat)
    requires Inv(s) && id in s.floating
    ensures Inv(Step(s, RunLate(id)))
  {
    var t := Step(s, RunLate(id));
    assert Line(t) == Line(s) && Outstanding(t) == Outstanding(s) && Current(t) == Current(s);
    RunLateRecorded(s, id);
  }

  lemma RunLateRecorded(s: State, id: nat)
    requires Recorded(s) && id in s.floating
    ensures Recorded(Step(s, RunLate(id)))
  {
    assert Line(Step(s, RunLate(id))) == Line(s);
    LateSound(Line(s), Finished(s), s.accepted, s.effects, s.floating, s.seen, id);
  }

  lemma StepKeeps(s: State, a: Action)
    requires Inv(s)
    ensures Inv(Step(s, a))
  {
    if Step(s, a) != s {
      match a
      case Submit(call, allocates) => SubmitKeeps(s, call, allocates);
      case Take => TakeKeeps(s);
      case Execute(script) => ExecuteKeeps(s, script);
      case Publish => PublishKeeps(s);
      case StopWorker => StopWorkerKeeps(s);
      case Poll(capacity) => PollKeeps(s, capacity);
      case Stop =>
        SameLine(s, Step(s, a));
        assert Outstanding(Step(s, a)) == Outstanding(s);
      case RunLate(id) => RunLateKeeps(s, id);
    }
  }

  lemma {:induction false} PlayKeeps(options: Options, actions: seq<Action>)
    ensures Inv(Play(options, actions))
  {
    if actions != [] {
      PlayKeeps(options, actions[..|actions| - 1]);
      StepKeeps(Play(options, actions[..|actions| - 1]), actions[|actions| - 1]);
    }
  }

  // ------------------------------------------------------------- main results

  lemma StepKeepsOptions(s: State, a: Action)
    ensures Step(s, a).options == s.options
  {
    match a
    case Submit(_, _) =>
    case Take =>
    case Execute(_) =>
    case Publish =>
    case StopWorker =>
    case Poll(_) =>
    case Stop =>
    case RunLate(_) =>
  }

  lemma {:induction false} OptionsStay(options: Options, actions: seq<Action>)
    ensures Play(options, actions).options == options
  {
    if actions != [] {
      OptionsStay(options, actions[..|actions| - 1]);
      StepKeepsOptions(Play(options, actions[..|actions| - 1]), actions[|actions| - 1]);
    }
  }

  /** Nothing is lost, repeated or reordered: delivered, ready, running and pending
      requests are, in this order, the accepted ones, with the ids 1, 2, 3 and so
      on. A poll that reports the end says that all of them have been delivered. */
  lemma ContiguousIds(options: Options, actions: seq<Action>, capacity: nat)
    ensures
      var s := Play(options, actions);
      && |Line(s)| == |s.accepted|
      && (forall i :: 0 <= i < |Line(s)| ==> Line(s)[i].id == i + 1 && Line(s)[i].call == s.accepted[i])
      && (Polled(s, capacity) == EndOfResults ==> Line(s) == s.delivered)
  {
    PlayKeeps(options, actions);
    var s := Play(options, actions);
    forall i | 0 <= i < |Line(s)|
      ensures Line(s)[i].id == i + 1 && Line(s)[i].call == s.accepted[i]
    {
      assert Place(Line(s)[i], i, Finished(s), s.accepted, s.effects, s.floating, s.seen);
    }
  }

  function Values(items: seq<Item>): nat
  {
    if items == [] then 0 else Values(items[..|items| - 1]) + |items[|items| - 1].completion.value|
  }

  lemma {:induction false} ValuesWithinReserved(items: seq<Item>)
    requires Fitting(items)
    ensures Values(items) <= Reserved(items)
  {
    if items != [] {
      ValuesWithinReserved(items[..|items| - 1]);
    }
  }

  /** In every run the counters are exactly the sums over the requests they stand
      for and never exceed the limits, so the differences taken at admission and
      the decrements never wrap, and the result bytes held for polling are within
      what was reserved. */
  lemma BudgetsAreExact(options: Options, actions: seq<Action>)
    ensures
      var s := Play(options, actions);
      && 0 <= s.queueBytes == Costs(Current(s) + s.pending) <= options.maxQueue
      && 0 <= s.reserved == Reserved(Outstanding(s)) <= options.maxResult
      && 0 <= s.inflight == |Outstanding(s)| <= options.maxInflight
      && Values(Outstanding(s)) <= options.maxResult
  {
    PlayKeeps(options, actions);
    OptionsStay(options, actions);
    OutstandingFits(Play(options, actions));
    ValuesWithinReserved(Outstanding(Play(options, actions)));
  }

  lemma OutstandingFits(s: State)
    requires Fitting(Line(s))
    ensures Fitting(Outstanding(s))
  {
    forall i | 0 <= i < |Outstanding(s)|
      ensures |Outstanding(s)[i].completion.value| <= Outstanding(s)[i].reservation
    {
      assert Outstanding(s)[i] == Line(s)[|s.delivered| + i];
    }
  }

  /** Of every request that has been delivered: a write reported Ok ran at the
      server exactly once, while the client waited; one reported unknown ran at
      most once and can run at most once in all; one with any other status never
      ran and never will. A read reported Ok answers what the server held when it
      was executed. */
  lemma DeliveredStatusIsTrue(options: Options, actions: seq<Action>, i: nat)
    requires i < |Play(options, actions).delivered|
    ensures
      var s := Play(options, actions);
      var item := s.delivered[i];
      && i < |s.accepted| && item.id == i + 1 && item.call == s.accepted[i]
      && Settled(item, s.accepted, s.effects, s.floating, s.seen)
  {
    PlayKeeps(options, actions);
    var s := Play(options, actions);
    assert Line(s)[i] == s.delivered[i];
    assert Place(Line(s)[i], i, Finished(s), s.accepted, s.effects, s.floating, s.seen);
  }

  /** Nothing else ever runs at the server: the database is the replay of accepted
      writes that have been taken up, and those that ran while the client waited
      ran in the order of their ids. Without late writes it is therefore a serial
      execution in id order. */
  lemma ServerRunsInOrder(options: Options, actions: seq<Action>, j: nat, k: nat)
    requires j < k < |Play(options, actions).effects|
    ensures
      var s := Play(options, actions);
      && 0 < s.effects[j].id <= |s.accepted|
      && (!s.effects[j].late && !s.effects[k].late ==> s.effects[j].id < s.effects[k].id)
  {
    PlayKeeps(options, actions);
  }

  // The limits a decoded configuration satisfies.
  predicate ValidOptions(o: Options)
  {
    o.maxInflight > 0 && o.maxQueue >= o.maxKey + o.maxValue && o.maxResult >= o.maxValue
  }

  /** Under validated options a service with nothing outstanding never answers
      backpressure. */
  lemma IdleAdmits(options: Options, actions: seq<Action>, call: Call, allocates: bool)
    requires ValidOptions(options) && Outstanding(Play(options, actions)) == []
    ensures Admission(Play(options, actions), call, allocates) != Backpressure
  {
    PlayKeeps(options, actions);
    OptionsStay(options, actions);
    var s := Play(options, actions);
    assert Current(s) + s.pending == [];
  }

  // -------------------------------------------------- what each step comes to

  lemma {:induction false} StoppingMeansAsked(options: Options, actions: seq<Action>)
    ensures Play(options, actions).stopping <==> Stop in actions
  {
    if actions != [] {
      var front, last := actions[..|actions| - 1], actions[|actions| - 1];
      StoppingMeansAsked(options, front);
      assert actions == front + [last];
      OnlyStopStops(Play(options, front), last);
    }
  }

  lemma OnlyStopStops(s: State, a: Action)
    ensures Step(s, a).stopping <==> s.stopping || a == Stop
    ensures Step(s, a).stopped <==> s.stopped || (a == StopWorker && s.stopping && s.running.None?)
  {
    match a
    case Submit(_, _) =>
    case Take =>
    case Execute(_) =>
    case Publish =>
    case StopWorker =>
    case Poll(_) =>
    case Stop =>
    case RunLate(_) =>
  }

  // A poll of a service that has or has not been asked to stop.
  predicate PollComesTo(s: State, capacity: nat, asked: bool)
  {
    var t, reply := Step(s, Poll(capacity)), Polled(s, capacity);
    if s.ready != [] then
      |s.delivered| < |Line(s)| &&
      var item := Line(s)[|s.delivered|];
      if |item.completion.value| <= capacity
      then reply == Result(item) && t.delivered == s.delivered + [item] && t.ready == s.ready[1..]
      else reply == BufferTooSmall(item) && t == s
    else
      && t == s && (reply == EndOfResults <==> s.stopped) && (reply == Timeout <==> !s.stopped)
      && (s.stopped ==> asked && |s.delivered| == |s.accepted|)
  }

  /** What a poll answers: the first request that is finished, published and not
      delivered goes to any buffer that holds its value; with none of them, the end is
      said exactly when the worker has ended, and then everything accepted has been
      delivered. */
  lemma PollAnswers(options: Options, actions: seq<Action>, capacity: nat)
    ensures PollComesTo(Play(options, actions), capacity, Stop in actions)
  {
    PlayKeeps(options, actions);
    StoppingMeansAsked(options, actions);
    PollFrom(Play(options, actions), capacity);
  }

  lemma PollFrom(s: State, capacity: nat)
    requires Inv(s)
    ensures PollComesTo(s, capacity, s.stopping)
  {
    if s.ready != [] {
      assert Line(s)[|s.delivered|] == s.ready[0];
    }
  }

  /** What a submission answers: a valid call, within what all requests outstanding
      have left of the three limits, is accepted under the next id unless a stop was
      asked for, the ids are used up or there is no memory; it is then the last of the
      line. Every refusal has its own cause. */
  lemma SubmitAnswers(options: Options, actions: seq<Action>, call: Call, allocates: bool)
    ensures
      var s := Play(options, actions);
      var t, code := Step(s, Submit(call, allocates)), Admission(s, call, allocates);
      var fits := |Outstanding(s)| < options.maxInflight
                  && Costs(Current(s) + s.pending) + |call.key| + |call.value| <= options.maxQueue
                  && Reserved(Outstanding(s)) + (if call.op == Get then options.maxValue else 0) <= options.maxResult;
      && (code == InvalidArgument <==> !ValidCall(options, call))
      && (code == ServiceStopped <==> ValidCall(options, call) && Stop in actions)
      && (code == Backpressure <==> ValidCall(options, call) && Stop !in actions && !fits)
      && (code == Accepted ==> allocates && fits && t.accepted == s.accepted + [call]
                               && t.pending == s.pending + [NewItem(s, call)])
      && (code != Accepted ==> t == s)
      && (ValidCall(options, call) && Stop !in actions && fits && allocates && s.nextId != 0 ==> code == Accepted)
  {
    PlayKeeps(options, actions);
    OptionsStay(options, actions);
    StoppingMeansAsked(options, actions);
  }

  /** One round of the worker: as long as no stop was asked for, the first request that
      waits is run, and published with what the command came to, behind everything
      finished before. */
  lemma WorkerRound(options: Options, actions: seq<Action>, script: Script)
    requires
      var s := Play(options, actions);
      && Stop !in actions && s.running.None? && s.pending != []
      && Plain(script) && Honest(Server(s), s.pending[0].call, script)
    ensures
      var s := Play(options, actions);
      var item := s.pending[0];
      var t := Step(Step(Step(s, Take), Execute(script)), Publish);
      && t.running.None? && t.pending == s.pending[1..]
      && t.ready == s.ready + [item.(completion := RedisClient.Execute(options.maxValue, item.call, script))]
  {
    OptionsStay(options, actions);
    StoppingMeansAsked(options, actions);
    RoundFrom(Play(options, actions), script);
  }

  lemma RoundFrom(s: State, script: Script)
    requires !s.stopping && s.running.None? && s.pending != []
    requires Plain(script) && Honest(Server(s), s.pending[0].call, script)
    ensures
      var item := s.pending[0];
      var t := Step(Step(Step(s, Take), Execute(script)), Publish);
      && t.running.None? && t.pending == s.pending[1..]
      && t.ready == s.ready + [item.(completion := RedisClient.Execute(s.options.maxValue, item.call, script))]
  {
    var taken := Step(s, Take);
    assert taken == s.(running := Some(Running(s.pending[0], false)), pending := s.pending[1..]);
    assert Server(taken) == Server(s);
    var ran := Step(taken, Execute(script));
    assert ran.running == Some(Running(Executed(taken, s.pending[0], script), true));
  }

  /** When the worker finds the service stopping it fails every request that waits, and
      has then ended. */
  lemma StopEndsTheWorker(options: Options, actions: seq<Action>)
    requires Stop in actions && Play(options, actions).running.None?
    ensures
      var s := Play(options, actions);
      var t := Step(s, StopWorker);
      && t.stopped && t.pending == []
      && (!s.stopped ==>
            && |t.ready| == |s.ready| + |s.pending| && s.ready <= t.ready
            && forall i :: 0 <= i < |s.pending| ==>
                 t.ready[|s.ready| + i] == s.pending[i].(completion := Failed(Stopped)))
  {
    PlayKeeps(options, actions);
    StoppingMeansAsked(options, actions);
  }

  // ------------------------------------------------------- the imperative form

  class Service {
    const options: Options
    var pending: seq<Item>
    var running: Option<Running>
    var ready: seq<Item>
    var nextId: nat
    var queueBytes: int
    var reservedResultBytes: int
    var inflight: int
    var stopping: bool
    var stopped: bool
    ghost var effects: seq<Effect>
    ghost var delivered: seq<Item>
    ghost var accepted: seq<Call>
    ghost var floating: set<nat>
    ghost var seen: map<nat, nat>

    ghost function Model(): State
      reads this
    {
      State(options, pending, running, ready, delivered, nextId, queueBytes, reservedResultBytes, inflight,
            stopping, stopped, accepted, effects, floating, seen)
    }

    constructor (options: Options)
      ensures Model() == Fresh(options)
    {
      this.options := options;
      pending, running, ready, nextId := [], None, [], 1;
      queueBytes, reservedResultBytes, inflight := 0, 0, 0;
      stopping, stopped := false, false;
      delivered, accepted, effects, floating, seen := [], [], [], {}, map[];
    }

    method Admit(call: Call, allocates: bool) returns (code: Code)
      ensures code == Admission(Model(), call, allocates)
    {
      if |call.key| == 0 || |call.key| > options.maxKey || |call.value| > options.maxValue || call.ttl > MAX_TTL {
        return InvalidArgument;
      }
      if stopping {
        return ServiceStopped;
      }
      var bytes := |call.key| + |call.value|;
      var reservation := if call.op == Get then options.maxValue else 0;
      if inflight >= options.maxInflight || bytes > options.maxQueue - queueBytes
         || reservation > options.maxResult - reservedResultBytes {
        return Backpressure;
      }
      if nextId == 0 {
        return InvalidState;
      }
      return if allocates then Accepted else OutOfMemory;
    }

    method SubmitRequest(call: Call, allocates: bool) returns (code: Code, requestId: nat)
      modifies this
      ensures code == Admission(old(Model()), call, allocates)
      ensures requestId == if code == Accepted then old(nextId) else 0
      ensures Model() == Step(old(Model()), Submit(call, allocates))
    {
      requestId := 0;
      code := Admit(call, allocates);
      if code == Accepted {
        requestId := Enqueue(call);
      }
    }

    method Enqueue(call: Call) returns (requestId: nat)
      modifies this
      ensures requestId == old(nextId) && Model() == Enqueued(old(Model()), call)
    {
      var reservation := if call.op == Get then options.maxValue else 0;
      pending := pending + [Item(nextId, call, reservation, Completion(Ok, false, 0, []))];
      requestId := nextId;
      nextId := if nextId + 1 == ID_RANGE then 0 else nextId + 1;
      queueBytes := queueBytes + |call.key| + |call.value|;
      reservedResultBytes := reservedResultBytes + reservation;
      inflight := inflight + 1;
      accepted := accepted + [call];
    }

    method TakeNext()
      modifies this`pending, this`running
      ensures Model() == Step(old(Model()), Take)
    {
      if running.Some? || stopping || pending == [] {
        return;
      }
      running := Some(Running(pending[0], false));
      pending := pending[1..];
    }

    method ExecuteRunning(script: Script)
      requires running.Some? && !running.value.done
      requires Plain(script) && Honest(Server(Model()), running.value.item.call, script)
      modifies this`running, this`effects, this`floating, this`seen
      ensures Model() == Step(old(Model()), Execute(script))
    {
      var item := running.value.item;
      var request := new Request(item.call);
      request.Run(options.maxValue, script);
      running := Some(Running(item.(completion := request.completion), true));
      floating := AfterRun(old(Model()), item, script).floating;
      seen := seen[item.id := |effects|];
      effects := effects + Added(item, script);
    }

    method PublishDone()
      modifies this`running, this`ready, this`queueBytes
      ensures Model() == Step(old(Model()), Publish)
    {
      if running.None? || !running.value.done {
        return;
      }
      var item := running.value.item;
      queueBytes := queueBytes - (|item.call.key| + |item.call.value|);
      ready := ready + [item];
      running := None;
    }

    // The worker's loop over what is still pending when it finds the service
    // stopping.
    method CancelPending() returns (cancelled: seq<Item>)
      modifies this`queueBytes
      ensures cancelled == CancelAll(pending)
      ensures queueBytes == old(queueBytes) - Costs(pending)
    {
      cancelled := [];
      for i := 0 to |pending|
        invariant cancelled == CancelAll(pending)[..i]
        invariant queueBytes == old(queueBytes) - Costs(pending[..i])
      {
        CostsSnoc(pending[..i], pending[i]);
        assert pending[..i + 1] == pending[..i] + [pending[i]];
        cancelled := cancelled + [pending[i].(completion := Failed(Stopped))];
        queueBytes := queueBytes - (|pending[i].call.key| + |pending[i].call.value|);
      }
      assert pending[..|pending|] == pending;
    }

    method EndWorker()
      modifies this`pending, this`ready, this`queueBytes, this`stopped
      ensures Model() == Step(old(Model()), StopWorker)
    {
      if !stopping || stopped || running.Some? {
        return;
      }
      var cancelled := CancelPending();
      ready := ready + cancelled;
      pending := [];
      stopped := true;
    }

    method PollNext(capacity: nat) returns (reply: Reply)
      modifies this`ready, this`delivered, this`reservedResultBytes, this`inflight
      ensures reply == Polled(old(Model()), capacity)
      ensures Model() == Step(old(Model()), Poll(capacity))
    {
      if ready == [] {
        return if stopped then EndOfResults else Timeout;
      }
      var item := ready[0];
      if |item.completion.value| > capacity {
        return BufferTooSmall(item);
      }
      reservedResultBytes := reservedResultBytes - item.reservation;
      inflight := inflight - 1;
      ready := ready[1..];
      delivered := delivered + [item];
      return Result(item);
    }

    method RequestStop()
      modifies this`stopping
      ensures Model() == Step(old(Model()), Stop)
    {
      stopping := true;
    }
  }
}
