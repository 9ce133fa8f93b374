/** Callback admission and the deferred disconnect notification of one IOCP
    connection (src/Net/Iocp/Connection.cpp, ServerConnections.cpp,
    ServerAccept.cpp, ServerIo.cpp).

    Threads interleave at the granularity of single accesses: closing_ is written
    under one mutex and read under another, so a close may fall between the read
    and the increment of begin_callback. An agent is a thread inside one callback
    scope or one disconnect; a callback that disconnects is two agents. */
module IocpCallbacks {
  import opened Prelude

  type Agent = nat

  // The accept thread, which enters the connected callback before publication.
  const ACCEPT: Agent := 0

  datatype Pc =
    | Idle
    // begin_callback, holding callbacks_mutex_
    | BeginLocked
    | BeginSaw(closing: bool)
    // between begin_callback and end_callback
    | Inside
    // end_callback, holding callbacks_mutex_
    | EndLocked
    // disconnect, holding connections_mutex_
    | Looked
    | Closed
    // disconnect, after erasing the connection from the registry
    | Erased
    | RequestLocked
    // about to call on_disconnected
    | Notifying

  datatype Event = Entered(agent: Agent) | Left(agent: Agent) | Disconnected

  datatype State = State(closing: bool, published: bool, registered: bool,
                         active: int, pending: bool,
                         callbacksLock: Option<Agent>, registryLock: Option<Agent>,
                         pcs: map<Agent, Pc>, log: seq<Event>)

  function Initial(): State
  {
    State(false, false, false, 0, false, None, None, map[], [])
  }

  function PcOf(s: State, a: Agent): Pc
  {
    if a in s.pcs then s.pcs[a] else Idle
  }

  datatype Action =
    | LockBegin | ReadClosing | FinishBegin | Publish | LockEnd | FinishEnd
    | Look | Close | Erase | LockRequest | FinishRequest | Notify

  // The three sections under callbacks_mutex_, also used by the class below.
  function Leave(active: int, pending: bool): (int, bool, bool)
  {
    if active - 1 == 0 && pending then (active - 1, false, true) else (active - 1, pending, false)
  }

  function Request(active: int, pending: bool): (bool, bool)
  {
    if active == 0 then (pending, true) else (true, false)
  }

  // Whether agent a can take the action now.
  predicate Enabled(s: State, a: Agent, action: Action)
  {
    var pc := PcOf(s, a);
    match action
    case LockBegin => pc == Idle && s.callbacksLock.None? && (s.published || a == ACCEPT)
    case ReadClosing => pc == BeginLocked
    case FinishBegin => pc.BeginSaw?
    case Publish => pc == Inside && a == ACCEPT && !s.published && s.registryLock.None?
    case LockEnd => pc == Inside && s.callbacksLock.None? && s.published
    case FinishEnd => pc == EndLocked
    case Look => pc == Idle && s.registryLock.None? && s.registered
    case Close => pc == Looked
    case Erase => pc == Closed
    case LockRequest => pc == Erased && s.callbacksLock.None?
    case FinishRequest => pc == RequestLocked
    case Notify => pc == Notifying
  }

  // Where the action takes agent a.
  function Target(s: State, a: Agent, action: Action): Pc
    requires Enabled(s, a, action)
  {
    match action
    case LockBegin => BeginLocked
    case ReadClosing => BeginSaw(s.closing)
    case FinishBegin => if PcOf(s, a).closing then Idle else Inside
    case Publish => Inside
    case LockEnd => EndLocked
    case FinishEnd => if Leave(s.active, s.pending).2 then Notifying else Idle
    case Look => Looked
    case Close => Closed
    case Erase => Erased
    case LockRequest => RequestLocked
    case FinishRequest => if Request(s.active, s.pending).1 then Notifying else Idle
    case Notify => Idle
  }

  // What it does to the connection and the registry.
  function Effect(s: State, a: Agent, action: Action): State
    requires Enabled(s, a, action)
  {
    match action
    case LockBegin => s.(callbacksLock := Some(a))
    case ReadClosing => s
    case FinishBegin =>
      if PcOf(s, a).closing then s.(callbacksLock := None)
      else s.(callbacksLock := None, active := s.active + 1, log := s.log + [Entered(a)])
    case Publish => s.(published := true, registered := true)
    case LockEnd => s.(callbacksLock := Some(a))
    case FinishEnd =>
      var (active, pending, notify) := Leave(s.active, s.pending);
      s.(callbacksLock := None, active := active, pending := pending, log := s.log + [Left(a)])
    case Look => s.(registryLock := Some(a))
    case Close => s.(closing := true)
    case Erase => s.(registered := false, registryLock := None)
    case LockRequest => s.(callbacksLock := Some(a))
    case FinishRequest => s.(callbacksLock := None, pending := Request(s.active, s.pending).0)
    case Notify => s.(log := s.log + [Disconnected])
  }

  function Step(s: State, a: Agent, action: Action): State
  {
    if Enabled(s, a, action)
    then Effect(s, a, action).(pcs := s.pcs[a := Target(s, a, action)])
    else s
  }

  function Play(steps: seq<(Agent, Action)>): State
  {
    if steps == [] then Initial()
    else
      var (a, action) := steps[|steps| - 1];
      Step(Play(steps[..|steps| - 1]), a, action)
  }

  // ---------------------------------------------------------------- invariant

  predicate Counting(pc: Pc) { pc == Inside || pc == EndLocked }

  predicate Carrying(pc: Pc) { pc == Erased || pc == RequestLocked || pc == Notifying }

  // Agents whose scope is counted in active_callbacks_.
  ghost function Scopes(pcs: map<Agent, Pc>): set<Agent>
  {
    set a | a in pcs && Counting(pcs[a])
  }

  // Agents carrying the obligation to notify.
  ghost function Carriers(pcs: map<Agent, Pc>): set<Agent>
  {
    set a | a in pcs && Carrying(pcs[a])
  }

  // Agents between entering and leaving, according to the log.
  ghost function Open(log: seq<Event>): set<Agent>
  {
    if log == [] then {}
    else
      var before := Open(log[..|log| - 1]);
      match log[|log| - 1]
      case Entered(a) => before + {a}
      case Left(a) => before - {a}
      case Disconnected => before
  }

  function Notices(log: seq<Event>): nat
  {
    if log == [] then 0
    else Notices(log[..|log| - 1]) + (if log[|log| - 1].Disconnected? then 1 else 0)
  }

  // Disconnected comes last, when no callback is open; so it comes at most once.
  ghost predicate Proper(log: seq<Event>)
  {
    forall i :: 0 <= i < |log| && log[i].Disconnected? ==> i == |log| - 1 && Open(log[..i]) == {}
  }

  predicate UnderCallbacksLock(pc: Pc)
  {
    pc == BeginLocked || pc.BeginSaw? || pc == EndLocked || pc == RequestLocked
  }

  predicate UnderRegistryLock(pc: Pc) { pc == Looked || pc == Closed }

  ghost predicate CallbacksLocked(s: State)
  {
    && (forall a :: a in s.pcs && UnderCallbacksLock(s.pcs[a]) ==> s.callbacksLock == Some(a))
    && (s.callbacksLock.Some? ==> UnderCallbacksLock(PcOf(s, s.callbacksLock.value)))
  }

  ghost predicate RegistryLocked(s: State)
  {
    && (forall a :: a in s.pcs && UnderRegistryLock(s.pcs[a]) ==> s.registryLock == Some(a))
    && (s.registryLock.Some? ==> UnderRegistryLock(PcOf(s, s.registryLock.value)))
  }

  ghost predicate Locks(s: State) { CallbacksLocked(s) && RegistryLocked(s) }

  // How far the connection's life has got.
  ghost predicate Stages(s: State)
  {
    && (!s.published ==> !s.closing && !s.registered && forall a :: a in s.pcs && a != ACCEPT ==> s.pcs[a] == Idle)
    && (!s.published ==> PcOf(s, ACCEPT) in {Idle, BeginLocked, BeginSaw(false), Inside})
    && (s.published && !s.registered ==> s.closing)
    && (s.closing && s.registered ==> s.registryLock.Some? && PcOf(s, s.registryLock.value) == Closed)
    && (s.registryLock.Some? ==> s.registered)
    && (forall a :: a in s.pcs && s.pcs[a] == Closed ==> s.closing)
    && (forall a :: a in s.pcs && s.pcs[a] == BeginSaw(true) ==> s.closing)
  }

  // Exactly one notification obligation exists from erasure on, wherever it is:
  // with an agent, deferred to the last callback, or discharged.
  ghost predicate OneNotice(s: State)
  {
    && |Carriers(s.pcs)| + Held(s) + Notices(s.log) == Due(s)
    && (s.pending ==> s.active > 0)
  }

  // No callback is open and none can still open.
  ghost predicate Quiet(s: State)
  {
    && Scopes(s.pcs) == {}
    && forall a :: a in s.pcs ==> s.pcs[a] != BeginSaw(false)
  }

  ghost predicate QuietWhenNotified(s: State)
  {
    Notified(s) ==> Quiet(s)
  }

  ghost predicate Counted(s: State)
  {
    && s.active == |Scopes(s.pcs)|
    && Open(s.log) == Scopes(s.pcs)
  }

  ghost predicate Inv(s: State)
  {
    Locks(s) && Stages(s) && OneNotice(s) && QuietWhenNotified(s) && Counted(s) && Proper(s.log)
  }

  // ------------------------------------------------------------- preservation

  lemma OneMore(before: set<Agent>, a: Agent)
    ensures |before + {a}| == |before| + (if a in before then 0 else 1)
    ensures |before - {a}| == |before| - (if a in before then 1 else 0)
  {
    if a in before {
      assert before + {a} == before;
    }
  }

  lemma ScopesMove(pcs: map<Agent, Pc>, a: Agent, pc: Pc)
    ensures Scopes(pcs[a := pc]) == if Counting(pc) then Scopes(pcs) + {a} else Scopes(pcs) - {a}
    ensures |Scopes(pcs[a := pc])| == |Scopes(pcs)| + (if Counting(pc) then 1 else 0)
                                      - (if a in Scopes(pcs) then 1 else 0)
  {
    OneMore(Scopes(pcs), a);
    assert Scopes(pcs[a := pc]) == if Counting(pc) then Scopes(pcs) + {a} else Scopes(pcs) - {a};
  }

  lemma CarriersMove(pcs: map<Agent, Pc>, a: Agent, pc: Pc)
    ensures Carriers(pcs[a := pc]) == if Carrying(pc) then Carriers(pcs) + {a} else Carriers(pcs) - {a}
    ensures |Carriers(pcs[a := pc])| == |Carriers(pcs)| + (if Carrying(pc) then 1 else 0)
                                        - (if a in Carriers(pcs) then 1 else 0)
  {
    OneMore(Carriers(pcs), a);
    assert Carriers(pcs[a := pc]) == if Carrying(pc) then Carriers(pcs) + {a} else Carriers(pcs) - {a};
  }

  lemma CallbacksLockKept(s: State, a: Agent, action: Action)
    requires CallbacksLocked(s) && Enabled(s, a, action)
    ensures CallbacksLocked(Step(s, a, action))
  {
    match action
    case LockBegin =>
    case ReadClosing =>
    case FinishBegin =>
    case Publish =>
    case LockEnd =>
    case FinishEnd =>
    case Look =>
    case Close =>
    case Erase =>
    case LockRequest =>
    case FinishRequest =>
    case Notify =>
  }

  lemma RegistryLockKept(s: State, a: Agent, action: Action)
    requires RegistryLocked(s) && Enabled(s, a, action)
    ensures RegistryLocked(Step(s, a, action))
  {
    match action
    case LockBegin =>
    case ReadClosing =>
    case FinishBegin =>
    case Publish =>
    case LockEnd =>
    case FinishEnd =>
    case Look =>
    case Close =>
    case Erase =>
    case LockRequest =>
    case FinishRequest =>
    case Notify =>
  }

  lemma StagesKept(s: State, a: Agent, action: Action)
    requires Locks(s) && Stages(s) && Enabled(s, a, action)
    ensures Stages(Step(s, a, action))
  {
    match action
    case LockBegin =>
    case ReadClosing =>
    case FinishBegin =>
    case Publish =>
    case LockEnd =>
    case FinishEnd =>
    case Look =>
    case Close =>
    case Erase =>
    case LockRequest =>
    case FinishRequest =>
    case Notify =>
  }

  lemma ScopeStays(s: State, t: State, a: Agent)
    requires Counted(s) && t.pcs == s.pcs[a := PcOf(t, a)]
    requires a in Scopes(t.pcs) <==> a in Scopes(s.pcs)
    requires t.active == s.active
    requires t.log == s.log || t.log == s.log + [Disconnected]
    ensures Counted(t)
  {
    ScopesMove(s.pcs, a, PcOf(t, a));
    if t.log != s.log {
      assert t.log[..|s.log|] == s.log;
    }
  }

  lemma ScopeEnters(s: State, t: State, a: Agent)
    requires Counted(s) && t.pcs == s.pcs[a := Inside] && a !in Scopes(s.pcs)
    requires t.active == s.active + 1 && t.log == s.log + [Entered(a)]
    ensures Counted(t)
  {
    ScopesMove(s.pcs, a, Inside);
    assert t.log[..|s.log|] == s.log;
  }

  lemma ScopeLeaves(s: State, t: State, a: Agent)
    requires Counted(s) && t.pcs == s.pcs[a := PcOf(t, a)] && a in Scopes(s.pcs) && a !in Scopes(t.pcs)
    requires t.active == s.active - 1 && t.log == s.log + [Left(a)]
    ensures Counted(t)
  {
    ScopesMove(s.pcs, a, PcOf(t, a));
    assert t.log[..|s.log|] == s.log;
  }

  lemma CountedKept(s: State, a: Agent, action: Action)
    requires Counted(s) && Enabled(s, a, action)
    ensures Counted(Step(s, a, action))
  {
    var t := Step(s, a, action);
    match action
    case FinishBegin =>
      if PcOf(s, a).closing {
        ScopeStays(s, t, a);
      } else {
        ScopeEnters(s, t, a);
      }
    case FinishEnd => ScopeLeaves(s, t, a);
    case LockBegin => ScopeStays(s, t, a);
    case ReadClosing => ScopeStays(s, t, a);
    case Publish => ScopeStays(s, t, a);
    case LockEnd => ScopeStays(s, t, a);
    case Look => ScopeStays(s, t, a);
    case Close => ScopeStays(s, t, a);
    case Erase => ScopeStays(s, t, a);
    case LockRequest => ScopeStays(s, t, a);
    case FinishRequest => ScopeStays(s, t, a);
    case Notify => ScopeStays(s, t, a);
  }

  lemma NoticesAppend(log: seq<Event>, event: Event)
    ensures Notices(log + [event]) == Notices(log) + (if event.Disconnected? then 1 else 0)
  {
    assert (log + [event])[..|log|] == log;
  }

  function Held(s: State): nat { if s.pending then 1 else 0 }

  function Due(s: State): nat { if s.published && !s.registered then 1 else 0 }

  // The obligation may move between agent a, the pending flag and the log.
  lemma NoticeMoves(s: State, t: State, a: Agent)
    requires OneNotice(s) && t.pcs == s.pcs[a := PcOf(t, a)]
    requires (if Carrying(PcOf(t, a)) then 1 else 0) + Held(t) + Notices(t.log) + Due(s)
          == (if Carrying(PcOf(s, a)) then 1 else 0) + Held(s) + Notices(s.log) + Due(t)
    requires t.pending ==> t.active > 0
    ensures OneNotice(t)
  {
    CarriersMove(s.pcs, a, PcOf(t, a));
  }

  lemma OneNoticeKept(s: State, a: Agent, action: Action)
    requires RegistryLocked(s) && Stages(s) && Counted(s) && OneNotice(s) && Enabled(s, a, action)
    ensures OneNotice(Step(s, a, action))
  {
    var t := Step(s, a, action);
    match action
    case FinishBegin => BeginKeepsNotice(s, a);
    case FinishEnd => EndKeepsNotice(s, a);
    case FinishRequest => RequestKeepsNotice(s, a);
    case Notify =>
      NoticesAppend(s.log, Disconnected);
      NoticeMoves(s, t, a);
    case Publish => NoticeMoves(s, t, a);
    case LockBegin => NoticeMoves(s, t, a);
    case ReadClosing => NoticeMoves(s, t, a);
    case LockEnd => NoticeMoves(s, t, a);
    case Look => NoticeMoves(s, t, a);
    case Close => NoticeMoves(s, t, a);
    case Erase => NoticeMoves(s, t, a);
    case LockRequest => NoticeMoves(s, t, a);
  }

  lemma BeginKeepsNotice(s: State, a: Agent)
    requires OneNotice(s) && Enabled(s, a, FinishBegin)
    ensures OneNotice(Step(s, a, FinishBegin))
  {
    var t := Step(s, a, FinishBegin);
    if PcOf(s, a).closing {
      NoticeMoves(s, t, a);
    } else {
      NoticesAppend(s.log, Entered(a));
      NoticeMoves(s, t, a);
    }
  }

  // The last callback out takes over a deferred notification.
  lemma EndKeepsNotice(s: State, a: Agent)
    requires Counted(s) && OneNotice(s) && Enabled(s, a, FinishEnd)
    ensures OneNotice(Step(s, a, FinishEnd))
  {
    assert a in Scopes(s.pcs);
    NoticesAppend(s.log, Left(a));
    NoticeMoves(s, Step(s, a, FinishEnd), a);
  }

  lemma RequestKeepsNotice(s: State, a: Agent)
    requires Counted(s) && OneNotice(s) && Enabled(s, a, FinishRequest)
    ensures OneNotice(Step(s, a, FinishRequest))
  {
    CarrierAlone(s, a);
    NoticeMoves(s, Step(s, a, FinishRequest), a);
  }

  // An agent carrying the obligation is the only place it is.
  lemma CarrierAlone(s: State, a: Agent)
    requires OneNotice(s) && a in Carriers(s.pcs)
    ensures !s.pending && Notices(s.log) == 0 && s.published && !s.registered
    ensures forall b :: b in Carriers(s.pcs) ==> b == a
  {
    assert {a} <= Carriers(s.pcs);
    if b :| b in Carriers(s.pcs) && b != a {
      assert |{a, b}| == 2 && {a, b} <= Carriers(s.pcs);
      SubsetSize({a, b}, Carriers(s.pcs));
    }
    SubsetSize({a}, Carriers(s.pcs));
  }

  lemma SubsetSize(a: set<Agent>, b: set<Agent>)
    requires a <= b
    ensures |a| <= |b|
  {
    assert b == a + (b - a);
  }

  lemma ScopeMember(s: State, a: Agent)
    ensures Counting(PcOf(s, a)) <==> a in Scopes(s.pcs)
  {
  }

  // A notification is being made or has been made.
  ghost predicate Notified(s: State)
  {
    Notices(s.log) > 0 || exists a :: a in s.pcs && s.pcs[a] == Notifying
  }

  lemma NotifiedMeansClosing(s: State)
    requires Stages(s) && OneNotice(s) && Notified(s)
    ensures s.closing
  {
    if Notices(s.log) == 0 {
      var a :| a in s.pcs && s.pcs[a] == Notifying;
      CarrierAlone(s, a);
    }
  }

  lemma StaysQuiet(s: State, a: Agent, action: Action)
    requires Inv(s) && Notified(s) && Enabled(s, a, action)
    ensures Quiet(Step(s, a, action))
  {
    NotifiedMeansClosing(s);
    ScopeMember(s, a);
    var t := Step(s, a, action);
    match action
    case LockBegin => QuietMove(s, t, a);
    case ReadClosing => QuietMove(s, t, a);
    case FinishBegin => QuietMove(s, t, a);
    case Publish =>
    case LockEnd =>
    case FinishEnd =>
    case Look => QuietMove(s, t, a);
    case Close => QuietMove(s, t, a);
    case Erase => QuietMove(s, t, a);
    case LockRequest => QuietMove(s, t, a);
    case FinishRequest => QuietMove(s, t, a);
    case Notify => QuietMove(s, t, a);
  }

  lemma QuietMove(s: State, t: State, a: Agent)
    requires Quiet(s) && t.pcs == s.pcs[a := PcOf(t, a)]
    requires PcOf(t, a) !in {Inside, EndLocked, BeginSaw(false)}
    ensures Quiet(t)
  {
    ScopesMove(s.pcs, a, PcOf(t, a));
  }

  // Deciding to notify happens under the callbacks lock with no scope open, so
  // no other agent is between reading closing_ and counting itself.
  lemma BecomesQuiet(s: State, a: Agent, action: Action)
    requires CallbacksLocked(s) && Counted(s) && !Notified(s) && Enabled(s, a, action)
    requires Notified(Step(s, a, action))
    ensures Quiet(Step(s, a, action))
  {
    DeciderHasLock(s, a, action);
    var t := Step(s, a, action);
    CountedKept(s, a, action);
    assert t.active == 0 && Scopes(t.pcs) == {};
  }

  lemma DeciderHasLock(s: State, a: Agent, action: Action)
    requires !Notified(s) && Enabled(s, a, action) && Notified(Step(s, a, action))
    ensures action == FinishEnd || action == FinishRequest
    ensures PcOf(Step(s, a, action), a) == Notifying && UnderCallbacksLock(PcOf(s, a))
  {
    assert action != Notify;
    LogsNoNotice(s, a, action);
    var b :| b in Step(s, a, action).pcs && Step(s, a, action).pcs[b] == Notifying;
    assert b == a;
    OnlyUnderLock(s, a, action);
  }

  lemma LogsNoNotice(s: State, a: Agent, action: Action)
    requires Enabled(s, a, action) && action != Notify
    ensures Notices(Step(s, a, action).log) == Notices(s.log)
  {
    var log := Step(s, a, action).log;
    if log != s.log {
      NoticesAppend(s.log, log[|s.log|]);
    }
  }

  lemma OnlyUnderLock(s: State, a: Agent, action: Action)
    requires Enabled(s, a, action) && Target(s, a, action) == Notifying
    ensures action == FinishEnd || action == FinishRequest
    ensures UnderCallbacksLock(PcOf(s, a))
  {
  }

  lemma QuietKept(s: State, a: Agent, action: Action)
    requires Inv(s) && Enabled(s, a, action)
    ensures QuietWhenNotified(Step(s, a, action))
  {
    if Notified(s) {
      StaysQuiet(s, a, action);
    } else if Notified(Step(s, a, action)) {
      BecomesQuiet(s, a, action);
    }
  }

  lemma ProperKept(s: State, a: Agent, action: Action)
    requires Inv(s) && Enabled(s, a, action)
    ensures Proper(Step(s, a, action).log)
  {
    var t := Step(s, a, action);
    if t.log != s.log {
      NothingAfterNotice(s, a, action);
      assert t.log[..|s.log|] == s.log;
      forall i | 0 <= i < |t.log| && t.log[i].Disconnected?
        ensures i == |t.log| - 1 && Open(t.log[..i]) == {}
      {
        if i < |s.log| {
          NoticeCounted(s.log, i);
          assert false;
        }
      }
    }
  }

  // Nothing is logged once the notification has been: no scope is open or can
  // open, and no other agent carries the obligation.
  lemma NothingAfterNotice(s: State, a: Agent, action: Action)
    requires Inv(s) && Enabled(s, a, action) && Step(s, a, action).log != s.log
    ensures Notices(s.log) == 0
    ensures action == Notify ==> Scopes(s.pcs) == {}
  {
    if action == Notify {
      CarrierAlone(s, a);
    } else if action == FinishEnd {
      assert a in Scopes(s.pcs);
    }
  }

  lemma {:induction false} NoticeCounted(log: seq<Event>, i: nat)
    requires i < |log| && log[i].Disconnected?
    ensures Notices(log) > 0
    decreases |log|
  {
    if i < |log| - 1 {
      NoticeCounted(log[..|log| - 1], i);
    }
  }

  lemma {:induction false} PlayKeeps(steps: seq<(Agent, Action)>)
    ensures Inv(Play(steps))
  {
    if steps == [] {
      assert Scopes(map[]) == {} && Carriers(map[]) == {};
    } else {
      var (a, action) := steps[|steps| - 1];
      var before := Play(steps[..|steps| - 1]);
      PlayKeeps(steps[..|steps| - 1]);
      if Enabled(before, a, action) {
        CallbacksLockKept(before, a, action);
        RegistryLockKept(before, a, action);
        StagesKept(before, a, action);
        CountedKept(before, a, action);
        OneNoticeKept(before, a, action);
        QuietKept(before, a, action);
        ProperKept(before, a, action);
      }
    }
  }

  // ------------------------------------------------------------- main results

  /** In every interleaving on_disconnected is called at most once, never while a
      connected or message callback is open, and nothing follows it. */
  lemma DisconnectedOnceAndLast(steps: seq<(Agent, Action)>, i: nat)
    requires i < |Play(steps).log| && Play(steps).log[i].Disconnected?
    ensures i == |Play(steps).log| - 1
    ensures Open(Play(steps).log[..i]) == {}
  {
    PlayKeeps(steps);
  }

  ghost predicate Quiescent(s: State)
  {
    forall a :: a in s.pcs ==> s.pcs[a] == Idle
  }

  /** Once a published connection is closed and every thread is done with it, the
      notification has been delivered; while it is not closed, it has not been. */
  lemma ClosedAndQuiescentMeansNotified(steps: seq<(Agent, Action)>)
    requires Quiescent(Play(steps))
    ensures
      var s := Play(steps);
      && (s.closing <==> Notices(s.log) == 1)
      && (s.closing ==> s.log != [] && s.log[|s.log| - 1].Disconnected? && !s.registered)
  {
    PlayKeeps(steps);
    var s := Play(steps);
    assert Scopes(s.pcs) == {} && Carriers(s.pcs) == {};
    if s.closing {
      LastNotice(s.log);
    }
  }

  lemma {:induction false} LastNotice(log: seq<Event>)
    requires Proper(log) && Notices(log) > 0
    ensures log[|log| - 1].Disconnected?
  {
    var i := SomeNotice(log);
  }

  lemma {:induction false} SomeNotice(log: seq<Event>) returns (i: nat)
    requires Notices(log) > 0
    ensures i < |log| && log[i].Disconnected?
  {
    if log[|log| - 1].Disconnected? {
      i := |log| - 1;
    } else {
      i := SomeNotice(log[..|log| - 1]);
    }
  }

  /** The connected callback always runs inside a counted scope: nothing can
      close the connection before the accept thread has entered it. */
  lemma ConnectedCallbackAdmitted(steps: seq<(Agent, Action)>)
    requires !Play(steps).published
    ensures !Play(steps).closing && PcOf(Play(steps), ACCEPT) != BeginSaw(true)
    ensures forall i :: 0 <= i < |Play(steps).log| ==> Play(steps).log[i] == Entered(ACCEPT)
  {
    PlayKeeps(steps);
    OnlyAcceptBefore(steps);
  }

  lemma LogBeforePublication(s: State, a: Agent, action: Action)
    requires Stages(s) && !s.published && Enabled(s, a, action)
    ensures Step(s, a, action).log == s.log || Step(s, a, action).log == s.log + [Entered(ACCEPT)]
  {
    assert a == ACCEPT || PcOf(s, a) == Idle;
    match action
    case FinishBegin =>
    case FinishEnd =>
    case Notify =>
    case _ =>
  }

  lemma {:induction false} OnlyAcceptBefore(steps: seq<(Agent, Action)>)
    requires !Play(steps).published
    ensures forall i :: 0 <= i < |Play(steps).log| ==> Play(steps).log[i] == Entered(ACCEPT)
  {
    if steps != [] {
      var (a, action) := steps[|steps| - 1];
      var before := Play(steps[..|steps| - 1]);
      PlayKeeps(steps[..|steps| - 1]);
      OnlyAcceptBefore(steps[..|steps| - 1]);
      if Enabled(before, a, action) {
        LogBeforePublication(before, a, action);
      }
    }
  }

  // ------------------------------------------------------------- what is answered

  lemma {:induction false} PlayMore(steps: seq<(Agent, Action)>, more: seq<(Agent, Action)>, a: Agent)
    requires forall i :: 0 <= i < |more| ==> more[i].0 != a
    ensures PcOf(Play(steps + more), a) == PcOf(Play(steps), a)
  {
    if more == [] {
      assert steps + more == steps;
    } else {
      assert (steps + more)[..|steps + more| - 1] == steps + more[..|more| - 1];
      PlayMore(steps, more[..|more| - 1], a);
    }
  }

  lemma PlaySnoc(steps: seq<(Agent, Action)>, a: Agent, action: Action)
    ensures Play(steps + [(a, action)]) == Step(Play(steps), a, action)
  {
    assert (steps + [(a, action)])[..|steps|] == steps;
  }

  /** A callback that has the lock is admitted exactly if the connection was not
      closing when it looked, whatever other threads do before it goes on; then it is
      entered in the log and counted, and otherwise nothing of it is. */
  lemma AdmittedUnlessClosing(steps: seq<(Agent, Action)>, a: Agent, others: seq<(Agent, Action)>)
    requires PcOf(Play(steps), a) == BeginLocked && forall i :: 0 <= i < |others| ==> others[i].0 != a
    ensures
      var s := Play(steps + [(a, ReadClosing)] + others);
      var t := Step(s, a, FinishBegin);
      && t.callbacksLock.None?
      && (if Play(steps).closing then t.log == s.log && t.active == s.active && PcOf(t, a) == Idle
          else t.log == s.log + [Entered(a)] && t.active == s.active + 1 && PcOf(t, a) == Inside)
  {
    ReadingSees(steps, a);
    PlayMore(steps + [(a, ReadClosing)], others, a);
    FinishAnswers(Play(steps + [(a, ReadClosing)] + others), a, Play(steps).closing);
  }

  lemma ReadingSees(steps: seq<(Agent, Action)>, a: Agent)
    requires PcOf(Play(steps), a) == BeginLocked
    ensures PcOf(Play(steps + [(a, ReadClosing)]), a) == BeginSaw(Play(steps).closing)
  {
    PlaySnoc(steps, a, ReadClosing);
  }

  lemma FinishAnswers(s: State, a: Agent, closing: bool)
    requires PcOf(s, a) == BeginSaw(closing)
    ensures
      var t := Step(s, a, FinishBegin);
      && t.callbacksLock.None?
      && (if closing then t.log == s.log && t.active == s.active && PcOf(t, a) == Idle
          else t.log == s.log + [Entered(a)] && t.active == s.active + 1 && PcOf(t, a) == Inside)
  {
  }

  // A thread that is not idle and can go on.
  ghost predicate CanGoOn(s: State, a: Agent)
  {
    PcOf(s, a) != Idle && exists action :: Enabled(s, a, action)
  }

  lemma HolderGoesOn(s: State, a: Agent)
    requires UnderCallbacksLock(PcOf(s, a)) || UnderRegistryLock(PcOf(s, a))
    ensures CanGoOn(s, a)
  {
    match PcOf(s, a)
    case BeginLocked => assert Enabled(s, a, ReadClosing);
    case BeginSaw(_) => assert Enabled(s, a, FinishBegin);
    case EndLocked => assert Enabled(s, a, FinishEnd);
    case RequestLocked => assert Enabled(s, a, FinishRequest);
    case Looked => assert Enabled(s, a, Close);
    case Closed => assert Enabled(s, a, Erase);
  }

  // Whoever waits, waits for a thread that can go on.
  lemma SomeoneGoesOn(s: State, a: Agent) returns (b: Agent)
    requires Locks(s) && Stages(s) && a in s.pcs && s.pcs[a] != Idle
    ensures CanGoOn(s, b)
  {
    if s.callbacksLock.Some? {
      b := s.callbacksLock.value;
      HolderGoesOn(s, b);
    } else if s.registryLock.Some? {
      b := s.registryLock.value;
      HolderGoesOn(s, b);
    } else {
      b := a;
      match s.pcs[a]
      case Inside => assert Enabled(s, a, LockEnd) || Enabled(s, a, Publish);
      case Erased => assert Enabled(s, a, LockRequest);
      case Notifying => assert Enabled(s, a, Notify);
      case _ =>
    }
  }

  /** The two mutexes never lock everyone out: as long as a thread is inside a
      callback or a disconnect, one of those can go on. */
  lemma NobodyIsStuck(steps: seq<(Agent, Action)>)
    ensures Quiescent(Play(steps)) || exists a :: CanGoOn(Play(steps), a)
  {
    PlayKeeps(steps);
    var s := Play(steps);
    if !Quiescent(s) {
      var a :| a in s.pcs && s.pcs[a] != Idle;
      var b := SomeoneGoesOn(s, a);
    }
  }

  /** A disconnect that is not interrupted closes the connection and takes it out of
      the registry. It notifies itself exactly when no callback is open, and otherwise
      leaves that to the last one. */
  lemma DisconnectAnswers(steps: seq<(Agent, Action)>, a: Agent)
    requires
      var s := Play(steps);
      PcOf(s, a) == Idle && s.registered && s.registryLock.None? && s.callbacksLock.None?
    ensures
      var s := Play(steps);
      var t := Step(Step(Step(Step(Step(s, a, Look), a, Close), a, Erase), a, LockRequest), a, FinishRequest);
      && t.closing && !t.registered && t.registryLock.None? && t.callbacksLock.None?
      && (if Open(s.log) == {} then Step(t, a, Notify).log == s.log + [Disconnected]
          else t.pending && PcOf(t, a) == Idle && t.log == s.log)
  {
    PlayKeeps(steps);
    var s := Play(steps);
    ClosedAndErased(s, a);
    RequestAnswers(Step(Step(Step(s, a, Look), a, Close), a, Erase), a);
  }

  lemma ClosedAndErased(s: State, a: Agent)
    requires PcOf(s, a) == Idle && s.registered && s.registryLock.None?
    ensures
      var t := Step(Step(Step(s, a, Look), a, Close), a, Erase);
      && t.closing && !t.registered && t.registryLock.None? && PcOf(t, a) == Erased
      && t.callbacksLock == s.callbacksLock && t.log == s.log && t.active == s.active && t.pending == s.pending
  {
  }

  lemma RequestAnswers(s: State, a: Agent)
    requires PcOf(s, a) == Erased && s.callbacksLock.None?
    ensures
      var t := Step(Step(s, a, LockRequest), a, FinishRequest);
      && t.closing == s.closing && t.registered == s.registered && t.registryLock == s.registryLock
      && t.callbacksLock.None?
      && (if s.active == 0 then Step(t, a, Notify).log == s.log + [Disconnected]
          else t.pending && PcOf(t, a) == Idle && t.log == s.log)
  {
  }

  /** The last callback to leave brings a notification that was left to it. */
  lemma LastOutNotifies(steps: seq<(Agent, Action)>, a: Agent)
    requires Play(steps).pending && Open(Play(steps).log) == {a} && PcOf(Play(steps), a) == EndLocked
    ensures
      var s := Play(steps);
      Step(Step(s, a, FinishEnd), a, Notify).log == s.log + [Left(a)] + [Disconnected]
  {
    PlayKeeps(steps);
    assert |{a}| == 1;
    LeaveAnswers(Play(steps), a);
  }

  lemma LeaveAnswers(s: State, a: Agent)
    requires s.pending && s.active == 1 && PcOf(s, a) == EndLocked
    ensures Step(Step(s, a, FinishEnd), a, Notify).log == s.log + [Left(a)] + [Disconnected]
  {
  }
}
