/** What may still be said about a connection after its Disconnected event, and when
    that event really is the last one. */
module LifecycleLate {
  import opened Common
  import opened FileTree
  import opened InfoFile
  import opened ConnectionList
  import opened Incarnation
  import opened Lifecycle
  import opened LifecycleInvariant
  import opened LifecycleFrames
  import opened LifecycleSteps
  import opened LifecycleTheorems
  import opened LifecycleLog
  import opened LifecycleHearing
  import Event

  /** An interrupt socket can still be queued for an interrupt handler that has none:
      the connection is in the list (or will be stored there) while main serves, or is
      about to serve again, or at least its accept loop still hears. */
  predicate CanBeHanded(s: State, id: nat)
    requires id < |s.tasks|
  {
    || (Self(s, id) in s.connections
        && (s.main == Serving || s.main == JoiningLoop(false) || (s.main == JoiningLoop(true) && Hearing(s))))
    || AtStoring(s, id)
  }

  predicate AtStoring(s: State, id: nat)
    requires id < |s.tasks|
  {
    s.accepting.Some? && s.accepting.value < |s.loops| && s.loops[s.accepting.value].phase == Storing(Self(s, id))
  }

  /** One of the two handlers of the incarnation can still announce something. */
  predicate MaySpeak(s: State, id: nat)
    requires id < |s.tasks|
  {
    || s.tasks[id].control != ControlFinished
    || match s.tasks[id].interrupt
       case InterruptWaiting => s.tasks[id].slot != [] || CanBeHanded(s, id)
       case InterruptFinished => false
       case _ => true
  }

  predicate Announces(e: LogEntry, id: nat) {
    e.id == id && !e.event.Disconnected?
  }

  /** Along `acts` one of the handlers of `id` announces its socket. */
  ghost predicate SpeaksAgain(s: State, acts: seq<Action>, id: nat) {
    && Valid(s, acts)
    && exists q: nat :: |s.log| <= q < |Run(s, acts).log| && Announces(Run(s, acts).log[q], id)
  }

  /** The log only grew, and not by an announcement of `id`. */
  ghost predicate Silent(log: seq<LogEntry>, log': seq<LogEntry>, id: nat) {
    log <= log' && forall q: nat | |log| <= q < |log'| :: !Announces(log'[q], id)
  }

  // ---- silence is final ---------------------------------------------------

  /** No step of such a task announces anything before it is handed a socket. */
  predicate Mute(t: Task) {
    && t.control == ControlFinished
    && (t.interrupt == InterruptFinished || (t.interrupt == InterruptWaiting && t.slot == []))
  }

  lemma SilentTask(t: Task, step: TaskStep, held: bool)
    requires Can(t, step, held) && Mute(t)
    ensures var t' := Do(t, step, held);
            Mute(t') && t'.address == t.address && (t'.interrupt == InterruptWaiting ==> t.interrupt == InterruptWaiting)
    ensures Emits(t, step).Some? ==> Emits(t, step).value.Disconnected?
  {
  }

  lemma SilentPerform(s: State, id: nat, doer: nat, step: TaskStep)
    requires Inv(s) && Enabled(s, Perform(doer, step)) && id < |s.tasks| && !MaySpeak(s, id)
    ensures var s' := AfterTask(s, doer, step);
            id < |s'.tasks| && !MaySpeak(s', id) && Silent(s.log, s'.log, id)
  {
    MutePerform(s, id, doer, step);
    if s.tasks[id].interrupt == InterruptWaiting {
      PerformHandsNothing(s, id, doer, step);
    }
  }

  lemma MutePerform(s: State, id: nat, doer: nat, step: TaskStep)
    requires MayPerform(s, doer, step) && id < |s.tasks| && Mute(s.tasks[id])
    ensures var s' := AfterTask(s, doer, step);
            && id < |s'.tasks| && Mute(s'.tasks[id]) && Silent(s.log, s'.log, id)
            && (s'.tasks[id].interrupt == InterruptWaiting ==> s.tasks[id].interrupt == InterruptWaiting)
  {
    if doer == id {
      SilentTask(s.tasks[doer], step, Self(s, doer) in Held(s));
    }
  }

  lemma PerformHandsNothing(s: State, id: nat, doer: nat, step: TaskStep)
    requires Inv(s) && Enabled(s, Perform(doer, step)) && id < |s.tasks| && !CanBeHanded(s, id)
    ensures !CanBeHanded(AfterTask(s, doer, step), id)
  {
    var s' := AfterTask(s, doer, step);
    DoKeepsIdentity(s.tasks[doer], step, Self(s, doer) in Held(s));
    PerformAccepting(s, doer, step);
    assert Self(s', id) == Self(s, id) && s'.connections == s.connections;
    if s.main == JoiningLoop(true) && !Hearing(s) {
      DeafStays(s, Perform(doer, step));
    }
  }

  /** No other action touches the handlers, and no hand-off is to `id`. */
  lemma SilentElsewhere(s: State, a: Action, id: nat)
    requires Inv(s) && Enabled(s, a) && !a.Perform? && id < |s.tasks| && !MaySpeak(s, id)
    ensures var s' := Apply(s, a);
            && id < |s'.tasks| && s'.log == s.log && Self(s', id) == Self(s, id)
            && s'.tasks[id].control == s.tasks[id].control && s'.tasks[id].interrupt == s.tasks[id].interrupt
            && (s.tasks[id].interrupt == InterruptWaiting ==> s'.tasks[id].slot == [])
  {
    if IsLoopAction(a) {
      LoopActionFrame(s, a);
    } else {
      MainActionFrame(s, a);
    }
    assert Undisturbed(s.tasks[id], Apply(s, a).tasks[id]);
    if a.HandOff? && s.tasks[id].interrupt == InterruptWaiting {
      RunningLoop(s, a.k);
      TargetIsTask(s, a.k);
      assert s.loops[a.k].phase.target.id != id;
    } else if IsLoopAction(a) && !a.HandOff? {
      LoopKeepsSlot(s, a, id);
    } else if !a.HandOff? {
      MainKeepsSlot(s, a, id);
    }
  }

  lemma LoopKeepsSlot(s: State, a: Action, id: nat)
    requires Enabled(s, a) && IsLoopAction(a) && !a.HandOff? && id < |s.tasks|
    ensures id < |Apply(s, a).tasks| && Apply(s, a).tasks[id].slot == s.tasks[id].slot
  {
    if a.AcceptControl? {
      TakingQuiet(s, a.k, a.address, TakeExisting(s.connections, FinishedIds(s), a.address));
    }
  }

  lemma MainKeepsSlot(s: State, a: Action, id: nat)
    requires Enabled(s, a) && !IsLoopAction(a) && !a.Perform? && id < |s.tasks|
    ensures id < |Apply(s, a).tasks| && Apply(s, a).tasks[id].slot == s.tasks[id].slot
  {
  }

  lemma StillNotHanded(s: State, a: Action, id: nat)
    requires Inv(s) && Enabled(s, a) && !a.Perform? && id < |s.tasks| && !CanBeHanded(s, id)
    requires id < |Apply(s, a).tasks| && Self(Apply(s, a), id) == Self(s, id)
    ensures !CanBeHanded(Apply(s, a), id)
  {
    if IsLoopAction(a) {
      assert s.loops[a.k].phase != Ended by { AbortedHasEnded(s, a); }
      RunningLoop(s, a.k);
      if Hearing(s) {
        ListDistinct(s);
        LoopListsNothing(s, a, id);
      } else {
        DeafStays(s, a);
        DeafStoresNothing(Apply(s, a), id);
      }
    } else {
      MainListsNothing(s, a, id);
    }
  }

  lemma ListDistinct(s: State)
    requires OwnershipInv(s)
    ensures Distinct(s.connections)
  {
    assert forall i: nat | i < |s.connections| :: Held(s)[i] == s.connections[i];
  }

  lemma AbortedHasEnded(s: State, a: Action)
    requires Inv(s) && Enabled(s, a) && IsLoopAction(a)
    ensures s.loops[a.k].phase != Ended
  {
  }

  lemma DeafStoresNothing(s: State, id: nat)
    requires !Hearing(s) && id < |s.tasks|
    ensures !AtStoring(s, id)
  {
  }

  /** A loop lists only the connection it was storing, and stores only new ones. */
  lemma LoopListsNothing(s: State, a: Action, id: nat)
    requires Distinct(s.connections) && MainHeld(s) == [] && Enabled(s, a) && IsLoopAction(a)
    requires s.accepting == Some(a.k) && id < |s.tasks|
    requires Self(s, id) !in s.connections && !AtStoring(s, id)
    requires id < |Apply(s, a).tasks| && Self(Apply(s, a), id) == Self(s, id)
    ensures Self(s, id) !in Apply(s, a).connections && !AtStoring(Apply(s, a), id)
  {
    match a
    case AcceptControl(k, address) => AcceptListsNothing(s, k, address, id);
    case Create(k, built) => CreateListsNothing(s, k, built, id);
    case Store(k) => StoreListsNothing(s, k, id);
    case _ => ListKept(s, a, id);
  }

  lemma AcceptListsNothing(s: State, k: nat, address: Address, id: nat)
    requires Distinct(s.connections) && MainHeld(s) == [] && s.accepting == Some(k) && k < |s.loops|
    requires id < |s.tasks| && Self(s, id) !in s.connections
    ensures var s' := AfterAcceptControl(s, k, address);
            Self(s, id) !in s'.connections && s'.accepting == s.accepting && !s'.loops[k].phase.Storing?
  {
    var taken := TakeExisting(s.connections, FinishedIds(s), address);
    TakeExistingSpec(s.connections, FinishedIds(s), address);
    assert Self(s, id) !in taken.rest;
    TakingHeld(s, k, address, taken);
  }

  lemma CreateListsNothing(s: State, k: nat, built: bool, id: nat)
    requires s.accepting == Some(k) && k < |s.loops| && s.loops[k].phase.Creating? && id < |s.tasks|
    ensures var s' := AfterCreate(s, k, built);
            s'.connections == s.connections && s'.accepting == s.accepting && s'.loops[k].phase != Storing(Self(s, id))
  {
  }

  lemma StoreListsNothing(s: State, k: nat, id: nat)
    requires s.accepting == Some(k) && k < |s.loops| && s.loops[k].phase.Storing? && id < |s.tasks|
    requires Self(s, id) !in s.connections && !AtStoring(s, id)
    ensures var s' := AfterStore(s, k);
            Self(s, id) !in s'.connections && s'.accepting == s.accepting && !s'.loops[k].phase.Storing?
  {
  }

  lemma ListKept(s: State, a: Action, id: nat)
    requires IsLoopAction(a) && !a.AcceptControl? && !a.Create? && !a.Store? && Enabled(s, a) && s.accepting == Some(a.k)
    ensures var s' := Apply(s, a);
            && s'.connections == s.connections && s'.accepting == s.accepting
            && a.k < |s'.loops| && !s'.loops[a.k].phase.Storing?
  {
  }

  lemma MainListsNothing(s: State, a: Action, id: nat)
    requires LoopsInv(s) && Enabled(s, a) && !a.Perform? && !IsLoopAction(a) && id < |s.tasks| && !CanBeHanded(s, id)
    requires id < |Apply(s, a).tasks| && Self(Apply(s, a), id) == Self(s, id)
    ensures !CanBeHanded(Apply(s, a), id)
  {
    match a
    case LoopJoined => JoinedListsNothing(s, id);
    case Up(registration, listens) => UpListsNothing(s, registration, listens, id);
    case _ =>
  }

  lemma JoinedListsNothing(s: State, id: nat)
    requires LoopsInv(s) && Enabled(s, LoopJoined) && id < |s.tasks| && !CanBeHanded(s, id)
    ensures !CanBeHanded(AfterLoopJoined(s), id)
  {
    assert LoopInv(s, s.accepting.value);
  }

  lemma UpListsNothing(s: State, registration: RegistrationInfo, listens: bool, id: nat)
    requires s.main == Serving && id < |s.tasks| && !CanBeHanded(s, id)
    ensures !CanBeHanded(AfterUp(s, registration, listens), id)
  {
  }

  lemma SilentStep(s: State, a: Action, id: nat)
    requires Inv(s) && Enabled(s, a) && id < |s.tasks| && !MaySpeak(s, id)
    ensures var s' := Apply(s, a);
            id < |s'.tasks| && !MaySpeak(s', id) && Silent(s.log, s'.log, id)
  {
    if a.Perform? {
      SilentPerform(s, id, a.id, a.step);
    } else {
      SilentElsewhere(s, a, id);
      if s.tasks[id].interrupt == InterruptWaiting {
        StillNotHanded(s, a, id);
      }
    }
  }

  lemma {:induction false} SilentRun(s: State, acts: seq<Action>, id: nat)
    requires Inv(s) && Valid(s, acts) && id < |s.tasks| && !MaySpeak(s, id)
    ensures Silent(s.log, Run(s, acts).log, id)
    decreases |acts|
  {
    if acts != [] {
      SilentStep(s, acts[0], id);
      StepKeeps(s, acts[0]);
      SilentRun(Apply(s, acts[0]), acts[1..], id);
      SilentAdds(s.log, Apply(s, acts[0]).log, Run(s, acts).log, id);
    }
  }

  lemma SilentAdds(log: seq<LogEntry>, log': seq<LogEntry>, log'': seq<LogEntry>, id: nat)
    requires Silent(log, log', id) && Silent(log', log'', id)
    ensures Silent(log, log'', id)
  {
    assert forall q: nat | |log| <= q < |log'| :: log''[q] == log'[q];
  }

  // ---- a handler that may speak can be made to ----------------------------

  lemma LogGrows(s: State, a: Action)
    requires Enabled(s, a)
    ensures s.log <= Apply(s, a).log
  {
    if IsLoopAction(a) {
      LoopActionFrame(s, a);
    } else if !a.Perform? {
      MainActionFrame(s, a);
    }
  }

  lemma {:induction false} LogGrowsAlong(s: State, acts: seq<Action>)
    requires Valid(s, acts)
    ensures s.log <= Run(s, acts).log
    decreases |acts|
  {
    if acts != [] {
      LogGrows(s, acts[0]);
      LogGrowsAlong(Apply(s, acts[0]), acts[1..]);
    }
  }

  lemma SpeaksLater(s: State, first: seq<Action>, rest: seq<Action>, id: nat)
    requires Valid(s, first) && SpeaksAgain(Run(s, first), rest, id)
    ensures SpeaksAgain(s, first + rest, id)
  {
    Append(s, first, rest);
    LogGrowsAlong(s, first);
  }

  lemma SpeaksAfter(s: State, a: Action, rest: seq<Action>, id: nat)
    requires Enabled(s, a) && SpeaksAgain(Apply(s, a), rest, id)
    ensures SpeaksAgain(s, [a] + rest, id)
  {
    Prepend(s, a, rest);
    LogGrows(s, a);
  }

  lemma SpeakControl(s: State, id: nat)
    requires id < |s.tasks| && s.tasks[id].control != ControlFinished && s.main != Crashed
    ensures SpeaksAgain(s, Nudge(s, id), id)
  {
    NudgeSpeaks(s, id);
    var log := Run(s, Nudge(s, id)).log;
    var q: nat :| |s.log| <= q < |log| && SaysControl(log[q], id);
    assert Announces(log[q], id);
  }

  function NextInterruptStep(t: Task): TaskStep {
    match t.interrupt
    case InterruptWaiting => InterruptReceive
    case InterruptTaken => InterruptClose
    case InterruptReceived => InterruptStart(true)
    case _ => InterruptRestart
  }

  function InterruptDistance(t: Task): nat {
    match t.interrupt
    case InterruptWaiting => 3
    case InterruptTaken => 2
    case InterruptReceived => 1
    case _ => 0
  }

  lemma InterruptTakesStep(s: State, id: nat)
    requires id < |s.tasks| && s.main != Crashed && s.tasks[id].interrupt != InterruptFinished
    requires s.tasks[id].interrupt == InterruptWaiting ==> s.tasks[id].slot != []
    ensures var a := Perform(id, NextInterruptStep(s.tasks[id]));
            && Enabled(s, a)
            && var s1 := Apply(s, a);
               && s1.main == s.main && id < |s1.tasks| && s1.tasks[id].interrupt != InterruptFinished
               && s1.tasks[id].interrupt != InterruptWaiting
               && if InterruptDistance(s.tasks[id]) <= 1 then s1.log == s.log + [LogEntry(id, Event.InterruptListening(s.tasks[id].address))]
                  else InterruptDistance(s1.tasks[id]) < InterruptDistance(s.tasks[id])
  {
  }

  /** A handler that has, or can receive, its socket goes on to announce. */
  lemma {:induction false} SpeakInterrupt(s: State, id: nat) returns (acts: seq<Action>)
    requires id < |s.tasks| && s.main != Crashed && s.tasks[id].interrupt != InterruptFinished
    requires s.tasks[id].interrupt == InterruptWaiting ==> s.tasks[id].slot != []
    ensures SpeaksAgain(s, acts, id)
    decreases InterruptDistance(s.tasks[id])
  {
    var a := Perform(id, NextInterruptStep(s.tasks[id]));
    InterruptTakesStep(s, id);
    if InterruptDistance(s.tasks[id]) <= 1 {
      acts := [a] + [];
      Prepend(s, a, []);
      assert Announces(Run(s, acts).log[|s.log|], id);
    } else {
      var rest := SpeakInterrupt(Apply(s, a), id);
      SpeaksAfter(s, a, rest, id);
      acts := [a] + rest;
    }
  }

  // ---- handing a socket to a listed connection ----------------------------

  lemma OfferedLink(s: State, k: nat, id: nat)
    requires Inv(s) && MayServe(s) && s.accepting == Some(k) && s.loops[k].phase == Accepting
    requires id < |s.tasks| && Self(s, id) in s.connections && s.tasks[id].interrupt == InterruptWaiting && s.tasks[id].slot == []
    ensures var a := AcceptInterrupt(k, s.tasks[id].address, 0);
            && Enabled(s, a) && Enabled(Apply(s, a), HandOff(k))
            && var s2 := Apply(Apply(s, a), HandOff(k));
               && s2.main == s.main && |s2.tasks| == |s.tasks| && s2.tasks[id] == s.tasks[id].(slot := [0], offered := s.tasks[id].offered + [0])
  {
    ListDistinct(s);
    var p := Position(s.connections, s.tasks[id].address);
    var n: nat :| n < |s.connections| && s.connections[n] == Self(s, id);
    assert p == Some(n);
    var s1 := Apply(s, AcceptInterrupt(k, s.tasks[id].address, 0));
    assert s1 == SetPhase(s, k, Handing(Self(s, id), 0));
    assert s.tasks[id].slot + [0] == [0];
  }

  lemma SpeakWhenAccepting(s: State, k: nat, id: nat) returns (acts: seq<Action>)
    requires Inv(s) && MayServe(s) && s.accepting == Some(k) && s.loops[k].phase == Accepting
    requires Listed(s, id) && s.tasks[id].interrupt != InterruptFinished
    ensures SpeaksAgain(s, acts, id)
  {
    if s.tasks[id].interrupt == InterruptWaiting && s.tasks[id].slot == [] {
      OfferedLink(s, k, id);
      var a := AcceptInterrupt(k, s.tasks[id].address, 0);
      var s1 := Apply(s, a);
      var rest := SpeakInterrupt(Apply(s1, HandOff(k)), id);
      SpeaksAfter(s1, HandOff(k), rest, id);
      SpeaksAfter(s, a, [HandOff(k)] + rest, id);
      acts := [a] + ([HandOff(k)] + rest);
    } else {
      acts := SpeakInterrupt(s, id);
    }
  }

  lemma SpeakIfHearing(s: State, id: nat) returns (acts: seq<Action>)
    requires Inv(s) && MayServe(s) && Hearing(s) && Listed(s, id) && s.tasks[id].interrupt != InterruptFinished
    ensures SpeaksAgain(s, acts, id)
  {
    var back := ReachAccepting(s);
    var rest := SpeakWhenAccepting(Run(s, back), s.accepting.value, id);
    SpeaksLater(s, back, rest, id);
    acts := back + rest;
  }

  /** The server is, or will be, back in service, but its loop no longer hears. */
  ghost predicate DeafButServing(s: State, id: nat) {
    && Inv(s) && !Hearing(s) && (s.main == Serving || s.main == JoiningLoop(false))
    && id < |s.tasks| && Self(s, id) in s.connections && s.tasks[id].interrupt == InterruptWaiting
  }

  /** Taking the deaf loop down. */
  function DeafNext(s: State): Action {
    if s.main == Serving then Down
    else if s.accepting.None? || s.accepting.value >= |s.loops| then LoopJoined
    else match s.loops[s.accepting.value].phase
      case Handing(target, _) =>
        if target.id < |s.tasks| && ChannelOpen(s.tasks[target.id]) then Perform(target.id, InterruptClose)
        else HandOff(s.accepting.value)
      case _ => LoopJoined
  }

  function DeafDistance(s: State): nat {
    if s.accepting.None? || s.accepting.value >= |s.loops| then 0
    else
      (if s.main == Serving then 1 else 0)
      + match s.loops[s.accepting.value].phase
        case Handing(target, _) => if target.id < |s.tasks| && ChannelOpen(s.tasks[target.id]) then 3 else 2
        case _ => 1
  }

  lemma DeafMoves(s: State, id: nat)
    requires DeafButServing(s, id) && s.accepting.Some?
    ensures Enabled(s, DeafNext(s))
    ensures DeafButServing(Apply(s, DeafNext(s)), id) && DeafDistance(Apply(s, DeafNext(s))) < DeafDistance(s)
  {
    DeafEnabled(s, id);
    StepKeeps(s, DeafNext(s));
    if DeafNext(s) == LoopJoined {
      LoopJoinedLoops(s);
    } else {
      DeafStays(s, DeafNext(s));
      DeafNearer(s, id);
    }
  }

  ghost predicate Nearer(s: State, s': State, id: nat) {
    && DeafDistance(s') < DeafDistance(s) && (s'.main == Serving || s'.main == JoiningLoop(false))
    && id < |s.tasks| && id < |s'.tasks| && Self(s', id) == Self(s, id) && s'.tasks[id].interrupt == InterruptWaiting
  }

  lemma DeafNearer(s: State, id: nat)
    requires DeafButServing(s, id) && s.accepting.Some? && Enabled(s, DeafNext(s)) && DeafNext(s) != LoopJoined
    ensures Nearer(s, Apply(s, DeafNext(s)), id)
  {
    var k := s.accepting.value;
    TargetIsTask(s, k);
    match DeafNext(s)
    case Down => DeafCancelled(s, k, id);
    case Perform(target, _) => DeafClosed(s, k, id, target);
    case HandOff(_) => DeafEnded(s, k, id);
  }

  lemma DeafCancelled(s: State, k: nat, id: nat)
    requires s.main == Serving && s.accepting == Some(k) && k < |s.loops|
    requires id < |s.tasks| && s.tasks[id].interrupt == InterruptWaiting
    ensures Nearer(s, AfterDown(s, false), id)
  {
  }

  lemma DeafClosed(s: State, k: nat, id: nat, target: nat)
    requires MayPerform(s, target, InterruptClose) && s.main == JoiningLoop(false)
    requires s.accepting == Some(k) && k < |s.loops| && s.loops[k].phase.Handing? && s.loops[k].phase.target.id == target
    requires id < |s.tasks| && s.tasks[id].interrupt == InterruptWaiting
    ensures Nearer(s, AfterTask(s, target, InterruptClose), id)
  {
  }

  lemma DeafEnded(s: State, k: nat, id: nat)
    requires Enabled(s, HandOff(k)) && s.main == JoiningLoop(false) && s.accepting == Some(k)
    requires !ChannelOpen(s.tasks[s.loops[k].phase.target.id])
    requires id < |s.tasks| && s.tasks[id].interrupt == InterruptWaiting
    ensures Nearer(s, AfterHandOff(s, k), id)
  {
  }

  lemma DeafEnabled(s: State, id: nat)
    requires DeafButServing(s, id) && s.accepting.Some?
    ensures Enabled(s, DeafNext(s))
  {
    var k := s.accepting.value;
    assert LoopInv(s, k);
    TargetIsTask(s, k);
  }

  lemma {:induction false} SpeakIfDeaf(s: State, id: nat) returns (acts: seq<Action>)
    requires DeafButServing(s, id)
    ensures SpeaksAgain(s, acts, id)
    decreases DeafDistance(s)
  {
    if s.accepting.None? {
      acts := SpeakAfterUp(s, id);
    } else {
      var a := DeafNext(s);
      DeafMoves(s, id);
      var rest := SpeakIfDeaf(Apply(s, a), id);
      SpeaksAfter(s, a, rest, id);
      acts := [a] + rest;
    }
  }

  lemma SpeakAfterUp(s: State, id: nat) returns (acts: seq<Action>)
    requires DeafButServing(s, id) && s.accepting.None?
    ensures SpeaksAgain(s, acts, id)
  {
    var registration := RegistrationInfo(0, [], Configuration(None, None, None, [], []));
    var a := Up(registration, true);
    StepKeeps(s, a);
    var rest := SpeakIfHearing(Apply(s, a), id);
    SpeaksAfter(s, a, rest, id);
    acts := [a] + rest;
  }

  lemma SpeakWhenHanded(s: State, id: nat) returns (acts: seq<Action>)
    requires Inv(s) && id < |s.tasks| && s.main != Crashed && s.tasks[id].interrupt == InterruptWaiting && CanBeHanded(s, id)
    ensures SpeaksAgain(s, acts, id)
  {
    if Hearing(s) {
      RunningLoop(s, s.accepting.value);
      acts := SpeakIfHearing(s, id);
    } else {
      acts := SpeakIfDeaf(s, id);
    }
  }

  // ---- when Disconnected is the last event --------------------------------

  /** In every reachable state one of the handlers of an incarnation can still announce
      its socket, whatever the wrapper has announced, if and only if MaySpeak: it has
      not ended, and an interrupt handler without a socket can still get one. */
  lemma LateAnnouncement(s: State, id: nat)
    requires Inv(s) && s.main != Crashed && id < |s.tasks|
    ensures (exists acts: seq<Action> :: SpeaksAgain(s, acts, id)) <==> MaySpeak(s, id)
  {
    if MaySpeak(s, id) {
      var t := s.tasks[id];
      if t.control != ControlFinished {
        SpeakControl(s, id);
      } else if t.interrupt == InterruptWaiting && t.slot == [] {
        var acts := SpeakWhenHanded(s, id);
      } else {
        var acts := SpeakInterrupt(s, id);
      }
    } else {
      forall acts: seq<Action> | Valid(s, acts)
        ensures !SpeaksAgain(s, acts, id)
      {
        SilentRun(s, acts, id);
      }
    }
  }

  /** Along `acts` nothing at all is said about incarnation `id`. */
  ghost predicate NothingFollows(s: State, acts: seq<Action>, id: nat)
    requires Valid(s, acts)
  {
    forall q: nat | |s.log| <= q < |Run(s, acts).log| :: Run(s, acts).log[q].id != id
  }

  lemma {:induction false} CountGrows(log: seq<LogEntry>, n: nat, id: nat)
    requires n <= |log|
    ensures CountDisconnected(log, id) >= CountDisconnected(log[..n], id)
    ensures forall q: nat | n <= q < |log| && log[q].id == id && log[q].event.Disconnected? ::
              CountDisconnected(log, id) > CountDisconnected(log[..n], id)
  {
    if n == |log| {
      assert log[..n] == log;
    } else {
      var init := log[..|log| - 1];
      CountGrows(init, n, id);
      assert init[..n] == log[..n];
      forall q: nat | n <= q < |log| && log[q].id == id && log[q].event.Disconnected?
        ensures CountDisconnected(log, id) > CountDisconnected(log[..n], id)
      {
        assert q < |init| ==> init[q] == log[q];
      }
    }
  }

  /** A Disconnected event comes once. */
  lemma NoSecondDisconnected(s: State, acts: seq<Action>, id: nat)
    requires Inv(s) && Valid(s, acts) && id < |s.tasks| && Rank(s.tasks[id].wrapper) >= 2
    ensures forall q: nat | |s.log| <= q < |Run(s, acts).log| && Run(s, acts).log[q].id == id ::
              Announces(Run(s, acts).log[q], id)
  {
    RunKeeps(s, acts);
    LogGrowsAlong(s, acts);
    InterruptRun(s, acts, id);
    SaidOnce(s, Run(s, acts), id);
  }

  lemma SaidOnce(s: State, e: State, id: nat)
    requires LogInv(s) && LogInv(e) && s.log <= e.log && id < |s.tasks| && id < |e.tasks| && Rank(s.tasks[id].wrapper) >= 2
    ensures forall q: nat | |s.log| <= q < |e.log| && e.log[q].id == id :: Announces(e.log[q], id)
  {
    assert e.log[..|s.log|] == s.log;
    CountGrows(e.log, |s.log|, id);
  }

  /** Once announced, Disconnected is the last event of its incarnation on every run from
      here if and only if neither handler can speak any more. */
  lemma DisconnectedIsLast(s: State, id: nat)
    requires Inv(s) && s.main != Crashed && id < |s.tasks| && Rank(s.tasks[id].wrapper) >= 2
    ensures (forall acts: seq<Action> | Valid(s, acts) :: NothingFollows(s, acts, id)) <==> !MaySpeak(s, id)
  {
    LateAnnouncement(s, id);
    if MaySpeak(s, id) {
      var acts: seq<Action> :| SpeaksAgain(s, acts, id);
      assert !NothingFollows(s, acts, id);
    } else {
      forall acts: seq<Action> | Valid(s, acts)
        ensures NothingFollows(s, acts, id)
      {
        NoSecondDisconnected(s, acts, id);
        assert !SpeaksAgain(s, acts, id);
      }
    }
  }

  // ---- it does happen -----------------------------------------------------

  /** Steps of the first connection of the daemon, one after the other. */
  function Performing(steps: seq<TaskStep>): seq<Action> {
    if steps == [] then [] else [Perform(0, steps[0])] + Performing(steps[1..])
  }

  function SaidAll(t: Task, steps: seq<TaskStep>, held: bool): seq<LogEntry>
    requires CanAll(t, steps, held)
    decreases |steps|
  {
    if steps == [] then [] else Said(t, steps[0]) + SaidAll(Do(t, steps[0], held), steps[1..], held)
  }

  function Said(t: Task, step: TaskStep): seq<LogEntry> {
    match Emits(t, step)
    case Some(e) => [LogEntry(0, e)]
    case None => []
  }

  lemma CanFirst(t: Task, step: TaskStep, rest: seq<TaskStep>, held: bool)
    requires Can(t, step, held) && CanAll(Do(t, step, held), rest, held)
    ensures CanAll(t, [step] + rest, held)
    ensures SaidAll(t, [step] + rest, held) == Said(t, step) + SaidAll(Do(t, step, held), rest, held)
  {
    assert ([step] + rest)[1..] == rest;
  }

  predicate Alone(s: State, t: Task, held: bool) {
    s.main != Crashed && s.tasks == [t] && held == (Self(s, 0) in Held(s))
  }

  lemma AlonePerforms(s: State, t: Task, step: TaskStep, held: bool)
    requires Alone(s, t, held) && Can(t, step, held)
    ensures Enabled(s, Perform(0, step))
    ensures Alone(AfterTask(s, 0, step), Do(t, step, held), held) && AfterTask(s, 0, step).log == s.log + Said(t, step)
  {
    DoKeepsIdentity(t, step, held);
    var s1 := AfterTask(s, 0, step);
    assert s1.tasks == [Do(t, step, held)];
    assert Held(s1) == Held(s) && Self(s1, 0) == Self(s, 0);
  }

  /** What a run of these steps adds to the log. */
  ghost predicate Performs(s: State, steps: seq<TaskStep>, said: seq<LogEntry>) {
    Valid(s, Performing(steps)) && Run(s, Performing(steps)).log == s.log + said
  }

  lemma {:induction false} PerformingRun(s: State, t: Task, steps: seq<TaskStep>, held: bool)
    requires Alone(s, t, held) && CanAll(t, steps, held)
    ensures Performs(s, steps, SaidAll(t, steps, held))
    decreases |steps|
  {
    if steps != [] {
      AlonePerforms(s, t, steps[0], held);
      PerformingRun(AfterTask(s, 0, steps[0]), Do(t, steps[0], held), steps[1..], held);
      PerformsMore(s, steps[0], steps[1..], Said(t, steps[0]), SaidAll(Do(t, steps[0], held), steps[1..], held));
      assert [steps[0]] + steps[1..] == steps;
    }
  }

  lemma PerformsMore(s: State, step: TaskStep, rest: seq<TaskStep>, first: seq<LogEntry>, said: seq<LogEntry>)
    requires Enabled(s, Perform(0, step))
    requires AfterTask(s, 0, step).log == s.log + first && Performs(AfterTask(s, 0, step), rest, said)
    ensures Performs(s, [step] + rest, first + said)
  {
    PerformingStep(s, step, rest);
    assert ([step] + rest)[1..] == rest;
    assert s.log + first + said == s.log + (first + said);
  }

  lemma PerformingStep(s: State, step: TaskStep, rest: seq<TaskStep>)
    requires Enabled(s, Perform(0, step)) && Valid(AfterTask(s, 0, step), Performing(rest))
    ensures Valid(s, [Perform(0, step)] + Performing(rest))
    ensures Run(s, [Perform(0, step)] + Performing(rest)) == Run(AfterTask(s, 0, step), Performing(rest))
  {
    Prepend(s, Perform(0, step), Performing(rest));
  }

  /** Both handlers announce; the control handler ends, the wrapper announces the
      disconnection, and the interrupt handler announces again before it is aborted. */
  function LastSteps(): seq<TaskStep> {
    [ControlEnd] + ([SelectControl] + ([Notify] + ([InterruptRestart] + [])))
  }

  function MiddleSteps(): seq<TaskStep> {
    [InterruptStart(true)] + ([ControlListen] + LastSteps())
  }

  function LingeringSteps(): seq<TaskStep> {
    [InterruptReceive] + ([InterruptClose] + MiddleSteps())
  }

  lemma LastWords(t: Task, held: bool)
    requires t.control == ControlAwaiting && t.interrupt == InterruptPiping && t.wrapper == Selecting
    ensures CanAll(t, LastSteps(), held)
    ensures SaidAll(t, LastSteps(), held) ==
            [LogEntry(0, Event.Disconnected(t.address)), LogEntry(0, Event.InterruptListening(t.address))]
  {
    var t1 := Do(t, ControlEnd, held);
    var t2 := Do(t1, SelectControl, held);
    var t3 := Do(t2, Notify, held);
    CanFirst(t3, InterruptRestart, [], held);
    CanFirst(t2, Notify, [InterruptRestart] + [], held);
    CanFirst(t1, SelectControl, [Notify] + ([InterruptRestart] + []), held);
    CanFirst(t, ControlEnd, [SelectControl] + ([Notify] + ([InterruptRestart] + [])), held);
  }

  lemma NextWords(t: Task, held: bool)
    requires t.control == ControlSpawned && t.interrupt == InterruptReceived && t.wrapper == Selecting
    ensures CanAll(t, MiddleSteps(), held)
    ensures SaidAll(t, MiddleSteps(), held) ==
            [LogEntry(0, Event.InterruptListening(t.address)), LogEntry(0, Event.ControlListening(t.address)),
             LogEntry(0, Event.Disconnected(t.address)), LogEntry(0, Event.InterruptListening(t.address))]
  {
    var t1 := Do(t, InterruptStart(true), held);
    var t2 := Do(t1, ControlListen, held);
    LastWords(t2, held);
    CanFirst(t1, ControlListen, LastSteps(), held);
    CanFirst(t, InterruptStart(true), [ControlListen] + LastSteps(), held);
  }

  lemma LingeringWords(t: Task, held: bool)
    requires t.control == ControlSpawned && t.interrupt == InterruptWaiting && t.wrapper == Selecting && |t.slot| > 0
    ensures CanAll(t, LingeringSteps(), held)
    ensures SaidAll(t, LingeringSteps(), held) ==
            [LogEntry(0, Event.InterruptListening(t.address)), LogEntry(0, Event.ControlListening(t.address)),
             LogEntry(0, Event.Disconnected(t.address)), LogEntry(0, Event.InterruptListening(t.address))]
  {
    var t1 := Do(t, InterruptReceive, held);
    var t2 := Do(t1, InterruptClose, held);
    NextWords(t2, held);
    CanFirst(t1, InterruptClose, MiddleSteps(), held);
    CanFirst(t, InterruptReceive, [InterruptClose] + MiddleSteps(), held);
  }

  /** A connected peer sends its interrupt connection, and lingers. */
  function Lingering(a: Address, link: Link): seq<Action> {
    [AcceptInterrupt(0, a, link)] + ([HandOff(0)] + Performing(LingeringSteps()))
  }

  /** On this run InterruptListening follows Disconnected, although the control handler
      has ended and was joined. */
  lemma InterruptAfterDisconnected(root: Path, base: Tree, registration: RegistrationInfo, a: Address, link: Link)
    requires CleanBase(root, base)
    ensures var acts := Connecting(registration, a, Lingering(a, link));
            && Valid(Initial(root, base), acts)
            && Run(Initial(root, base), acts).log ==
               [LogEntry(0, Event.InterruptListening(a)), LogEntry(0, Event.ControlListening(a)),
                LogEntry(0, Event.Disconnected(a)), LogEntry(0, Event.InterruptListening(a))]
  {
    var s0 := Initial(root, base);
    var s1 := Apply(s0, Up(registration, true));
    FirstConnection(s1, a);
    var s2 := Apply(s1, AcceptControl(0, a));
    var s3 := Apply(s2, Create(0, true));
    var s4 := Apply(s3, Store(0));
    LingeringRun(s4, a, registration, link);
    var rest := Lingering(a, link);
    Prepend(s3, Store(0), rest);
    Prepend(s2, Create(0, true), [Store(0)] + rest);
    Prepend(s1, AcceptControl(0, a), [Create(0, true)] + ([Store(0)] + rest));
    Prepend(s0, Up(registration, true), [AcceptControl(0, a)] + ([Create(0, true)] + ([Store(0)] + rest)));
  }

  lemma LingeringRun(s: State, a: Address, registration: RegistrationInfo, link: Link)
    requires LoopIdle(s) && s.connections == [Connection(a, 0)] && s.tasks == [Spawned(a, registration)]
    ensures Valid(s, Lingering(a, link))
    ensures Run(s, Lingering(a, link)).log ==
            [LogEntry(0, Event.InterruptListening(a)), LogEntry(0, Event.ControlListening(a)),
             LogEntry(0, Event.Disconnected(a)), LogEntry(0, Event.InterruptListening(a))]
  {
    var s1 := Apply(s, AcceptInterrupt(0, a, link));
    assert s.connections[..0] == [];
    assert Position(s.connections, a) == Some(0);
    assert s1 == SetPhase(s, 0, Handing(Connection(a, 0), link));
    var s2 := Apply(s1, HandOff(0));
    var t := s.tasks[0].(slot := [] + [link], offered := [] + [link]);
    assert s2.tasks == [t];
    LingeringWords(t, Self(s2, 0) in Held(s2));
    PerformingRun(s2, t, LingeringSteps(), Self(s2, 0) in Held(s2));
    Prepend(s1, HandOff(0), Performing(LingeringSteps()));
    Prepend(s, AcceptInterrupt(0, a, link), [HandOff(0)] + Performing(LingeringSteps()));
  }
}
