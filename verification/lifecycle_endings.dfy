/** A connection whose handler ends by itself comes to its end without being cancelled. */
module LifecycleEndings {
  import opened Common
  import opened FileTree
  import opened ConnectionList
  import opened Incarnation
  import opened Lifecycle
  import opened LifecycleInvariant
  import opened LifecycleSteps
  import opened LifecycleTheorems
  import opened LifecycleCleanup
  import opened LifecycleFrames
  import opened LifecycleLate
  import Event

  /** The wrapper has something to react to, other than a cancel message. */
  predicate Ending(t: Task) {
    t.wrapper != Selecting || t.control == ControlFinished || t.interrupt == InterruptFinished
  }

  /** The next step on the way out, without a cancel. */
  function OwnStep(t: Task): TaskStep {
    if t.wrapper == Selecting then if t.control == ControlFinished then SelectControl else SelectInterrupt
    else NextTaskStep(t)
  }

  lemma OwnStepMoves(t: Task, held: bool)
    requires LocalInv(t) && t.wrapper != Finished && Ending(t)
    ensures Can(t, OwnStep(t), held) && OwnStep(t) != SelectCancel
    ensures var t' := Do(t, OwnStep(t), held);
            && Ending(t') && TaskDistance(t') < TaskDistance(t) && t'.address == t.address && t'.cancels == t.cancels
            && Emits(t, OwnStep(t)) == (if Rank(t.wrapper) == 1 then Some(Event.Disconnected(t.address)) else None)
            && (Rank(t'.wrapper) >= 2 <==> Rank(t.wrapper) >= 1)
  {
    if t.wrapper != Selecting {
      CancelledTaskMoves(t.(cancels := 1), held);
    }
  }

  lemma DistanceBound(t: Task)
    ensures TaskDistance(t) <= 13
  {
  }

  predicate OwnSteps(acts: seq<Action>, id: nat) {
    forall a | a in acts :: a.Perform? && a.id == id && a.step != SelectCancel
  }

  /** From `s`, incarnation `id` alone has come to its end: its Disconnected event has
      been sent, once in all, nobody else has moved. */
  ghost predicate EndedAlone(s: State, e: State, id: nat)
    requires id < |s.tasks|
  {
    && IsFinished(e, id) && |e.tasks| == |s.tasks| && e.tasks[id].cancels == s.tasks[id].cancels
    && e.tasks[id].address == s.tasks[id].address
    && (forall i: nat | i < |s.tasks| && i != id :: e.tasks[i] == s.tasks[i])
    && e.connections == s.connections && e.loops == s.loops && e.accepting == s.accepting && e.main == s.main
    && e.root == s.root
    && e.log == s.log + if Rank(s.tasks[id].wrapper) >= 2 then [] else [LogEntry(id, Event.Disconnected(s.tasks[id].address))]
  }

  lemma OwnStepTaken(s: State, id: nat)
    requires Inv(s) && s.main != Crashed && id < |s.tasks| && s.tasks[id].wrapper != Finished && Ending(s.tasks[id])
    ensures var a := Perform(id, OwnStep(s.tasks[id]));
            && Enabled(s, a) && Inv(Apply(s, a)) && a.step != SelectCancel
            && var s1 := Apply(s, a);
               && s1 == s.(tasks := s.tasks[id := s1.tasks[id]], tree := s1.tree, log := s1.log)
               && Ending(s1.tasks[id]) && TaskDistance(s1.tasks[id]) < TaskDistance(s.tasks[id])
               && s1.tasks[id].address == s.tasks[id].address && s1.tasks[id].cancels == s.tasks[id].cancels
               && (Rank(s1.tasks[id].wrapper) >= 2 <==> Rank(s.tasks[id].wrapper) >= 1)
               && s1.log == s.log + (if Rank(s.tasks[id].wrapper) == 1
                                     then [LogEntry(id, Event.Disconnected(s.tasks[id].address))] else [])
  {
    OwnStepMoves(s.tasks[id], Self(s, id) in Held(s));
    StepKeeps(s, Perform(id, OwnStep(s.tasks[id])));
  }

  ghost predicate EndingRun(s: State, acts: seq<Action>, id: nat)
    requires id < |s.tasks|
  {
    Valid(s, acts) && OwnSteps(acts, id) && Inv(Run(s, acts)) && EndedAlone(s, Run(s, acts), id)
  }

  /** In every reachable state, if a handler of an incarnation has ended (or its wrapper
      has reacted already), a bounded run of its own steps, without a cancel, leads to
      its end. */
  lemma {:induction false} EndsAlone(s: State, id: nat) returns (acts: seq<Action>)
    requires Inv(s) && s.main != Crashed && id < |s.tasks| && Ending(s.tasks[id])
    ensures EndingRun(s, acts, id) && |acts| <= TaskDistance(s.tasks[id])
    decreases TaskDistance(s.tasks[id])
  {
    if s.tasks[id].wrapper == Finished {
      acts := [];
    } else {
      var a := Perform(id, OwnStep(s.tasks[id]));
      OwnStepTaken(s, id);
      var rest := EndsAlone(Apply(s, a), id);
      EndsEarlier(s, a, rest, id);
      acts := [a] + rest;
    }
  }

  lemma EndsEarlier(s: State, a: Action, rest: seq<Action>, id: nat)
    requires id < |s.tasks| && a.Perform? && a.id == id && a.step != SelectCancel && Enabled(s, a)
    requires var s1 := Apply(s, a);
             && EndingRun(s1, rest, id) && s1.tasks[id].cancels == s.tasks[id].cancels
             && s1.tasks[id].address == s.tasks[id].address
             && s1.log == s.log + (if Rank(s.tasks[id].wrapper) == 1
                                   then [LogEntry(id, Event.Disconnected(s.tasks[id].address))] else [])
             && (Rank(s1.tasks[id].wrapper) >= 2 <==> Rank(s.tasks[id].wrapper) >= 1)
    ensures EndingRun(s, [a] + rest, id)
  {
    Prepend(s, a, rest);
  }

  /** Then nothing is left below its directory. */
  lemma EndedLeavesNothing(s: State, e: State, id: nat)
    requires Inv(s) && Inv(e) && id < |s.tasks| && !IsFinished(s, id) && EndedAlone(s, e, id)
    ensures forall p: Path | Under(p, DirectoryOf(s, id)) :: p !in e.tree
  {
    forall j: nat | j < |e.tasks| && e.tasks[j].address == e.tasks[id].address
      ensures IsFinished(e, j)
    {
      assert j < id ==> IsFinished(s, j);
      assert j > id ==> IsFinished(s, id);
    }
    forall p: Path | Under(p, DirectoryOf(s, id))
      ensures p !in e.tree
    {
      FinishedLeavesNothing(e, id, p);
    }
  }

  /** The steps by which a handler that has its socket ends by itself: the remote side
      fails, or for the control handler no further local peer can be accepted, or for
      the interrupt handler the ready file cannot be rewritten. */
  function FailingStep(t: Task, ofControl: bool): TaskStep {
    if ofControl then ControlEnd
    else if t.interrupt == InterruptReceived then InterruptStart(false)
    else InterruptEnd
  }

  predicate CanFail(t: Task, ofControl: bool) {
    if ofControl then t.control == ControlAwaiting || t.control == ControlPiping
    else t.interrupt == InterruptReceived || t.interrupt == InterruptPiping
  }

  lemma FailureIsEnding(s: State, id: nat, ofControl: bool)
    requires Inv(s) && s.main != Crashed && id < |s.tasks| && CanFail(s.tasks[id], ofControl)
    ensures var a := Perform(id, FailingStep(s.tasks[id], ofControl));
            && Enabled(s, a) && Inv(Apply(s, a))
            && var s1 := Apply(s, a);
               && s1 == s.(tasks := s.tasks[id := s1.tasks[id]], tree := s1.tree)
               && Ending(s1.tasks[id]) && s1.tasks[id].wrapper == s.tasks[id].wrapper
               && s1.tasks[id].address == s.tasks[id].address && s1.tasks[id].cancels == s.tasks[id].cancels
  {
    StepKeeps(s, Perform(id, FailingStep(s.tasks[id], ofControl)));
  }

  lemma EndsAfterFailure(s: State, a: Action, rest: seq<Action>, id: nat)
    requires id < |s.tasks| && a.Perform? && a.id == id && a.step != SelectCancel && Enabled(s, a)
    requires var s1 := Apply(s, a);
             && EndingRun(s1, rest, id) && s1 == s.(tasks := s.tasks[id := s1.tasks[id]], tree := s1.tree)
             && s1.tasks[id].wrapper == s.tasks[id].wrapper
             && s1.tasks[id].address == s.tasks[id].address && s1.tasks[id].cancels == s.tasks[id].cancels
    ensures EndingRun(s, [a] + rest, id)
  {
    Prepend(s, a, rest);
  }

  /** A failure of either remote side, at any time, is enough: without a cancel the
      incarnation then comes to its end, says so exactly once, and leaves nothing. */
  lemma FailureEndsConnection(s: State, id: nat, ofControl: bool) returns (acts: seq<Action>)
    requires Inv(s) && s.main != Crashed && id < |s.tasks| && CanFail(s.tasks[id], ofControl) && !IsFinished(s, id)
    ensures acts != [] && acts[0] == Perform(id, FailingStep(s.tasks[id], ofControl))
    ensures EndingRun(s, acts, id) && |acts| <= 15
    ensures forall p: Path | Under(p, DirectoryOf(s, id)) :: p !in Run(s, acts).tree
  {
    var a := Perform(id, FailingStep(s.tasks[id], ofControl));
    FailureIsEnding(s, id, ofControl);
    DistanceBound(Apply(s, a).tasks[id]);
    var rest := EndsAlone(Apply(s, a), id);
    EndsAfterFailure(s, a, rest, id);
    acts := [a] + rest;
    EndedLeavesNothing(s, Run(s, acts), id);
  }

  lemma EndedSaysOnce(s: State, e: State, id: nat)
    requires LogInv(s) && LogInv(e) && id < |s.tasks| && s.tasks[id].wrapper == Selecting && IsFinished(e, id)
    ensures CountDisconnected(s.log, id) == 0 && CountDisconnected(e.log, id) == 1
  {
  }

  /** The same for an incarnation that selects, with a handler that has ended: exactly one
      Disconnected event in all, and nothing below its directory. */
  lemma SelectingEnds(s: State, id: nat) returns (acts: seq<Action>)
    requires Inv(s) && s.main != Crashed && id < |s.tasks| && s.tasks[id].wrapper == Selecting
    requires s.tasks[id].control == ControlFinished || s.tasks[id].interrupt == InterruptFinished
    ensures EndingRun(s, acts, id) && |acts| <= 13
    ensures CountDisconnected(s.log, id) == 0 && CountDisconnected(Run(s, acts).log, id) == 1
    ensures forall p: Path | Under(p, DirectoryOf(s, id)) :: p !in Run(s, acts).tree
  {
    acts := EndsAlone(s, id);
    DistanceBound(s.tasks[id]);
    EndedLeavesNothing(s, Run(s, acts), id);
    EndedSaysOnce(s, Run(s, acts), id);
  }

  // ---- nothing else ends a connection -------------------------------------

  /** What can end incarnation `id` of `peer`: its own handlers fail, its peer connects again, or
      the shutdown sequence. */
  predicate IsCause(a: Action, id: nat, peer: Address) {
    match a
    case Perform(i, step) => i == id && (step == ControlEnd || step == InterruptEnd || step == InterruptStart(false))
    case AcceptControl(_, address) => address == peer
    case StartClear => true
    case _ => false
  }

  predicate Untroubled(t: Task) {
    && t.wrapper == Selecting && t.cancels == 0
    && t.control != ControlFinished && t.interrupt != InterruptFinished
  }

  lemma UntroubledStep(t: Task, step: TaskStep)
    requires LocalInv(t) && Untroubled(t) && Can(t, step, true)
    requires step != ControlEnd && step != InterruptEnd && step != InterruptStart(false)
    ensures Untroubled(Do(t, step, true)) && Do(t, step, true).address == t.address
    ensures Emits(t, step) != Some(Event.Disconnected(t.address))
  {
  }

  /** The incarnation is up, and the shutdown sequence has not got to the connections. */
  predicate Up(s: State, id: nat) {
    id < |s.tasks| && Untroubled(s.tasks[id]) && !s.main.Clearing?
  }

  lemma UpPerform(s: State, doer: nat, step: TaskStep, id: nat)
    requires Inv(s) && Enabled(s, Perform(doer, step)) && Up(s, id) && !IsCause(Perform(doer, step), id, s.tasks[id].address)
    ensures Up(AfterTask(s, doer, step), id) && AfterTask(s, doer, step).tasks[id].address == s.tasks[id].address
  {
    if doer == id {
      RunningIsHeld(s, id);
      UntroubledStep(s.tasks[id], step);
    }
  }

  lemma UpLoop(s: State, a: Action, id: nat)
    requires Inv(s) && Enabled(s, a) && IsLoopAction(a) && Up(s, id) && !IsCause(a, id, s.tasks[id].address)
    ensures Up(Apply(s, a), id) && Apply(s, a).tasks[id].address == s.tasks[id].address
  {
    AbortedHasEnded(s, a);
    RunningLoop(s, a.k);
    LoopActionFrame(s, a);
    assert Undisturbed(s.tasks[id], Apply(s, a).tasks[id]);
    if a.AcceptControl? {
      assert Held(s) == s.connections;
      TakeExistingSpec(s.connections, FinishedIds(s), a.address);
      TakingCancels(s, a.k, a.address, TakeExisting(s.connections, FinishedIds(s), a.address), id);
    } else {
      OtherLoopCancels(s, a, id);
    }
  }

  lemma TakingCancels(s: State, k: nat, address: Address, taken: Taken, id: nat)
    requires OwnershipInv(s) && k < |s.loops| && id < |s.tasks| && s.tasks[id].address != address
    requires forall c :: taken.existing == Some(c) ==> c in Held(s) && c.peerAddress == address
    ensures AfterTaking(s, k, address, taken).tasks[id].cancels == s.tasks[id].cancels
  {
    TakingQuiet(s, k, address, taken);
  }

  lemma OtherLoopCancels(s: State, a: Action, id: nat)
    requires Enabled(s, a) && IsLoopAction(a) && !a.AcceptControl? && id < |s.tasks|
    ensures id < |Apply(s, a).tasks| && Apply(s, a).tasks[id].cancels == s.tasks[id].cancels
  {
  }

  lemma UpMain(s: State, a: Action, id: nat)
    requires Inv(s) && Enabled(s, a) && !IsLoopAction(a) && !a.Perform? && Up(s, id) && !IsCause(a, id, s.tasks[id].address)
    ensures Up(Apply(s, a), id) && Apply(s, a).tasks[id].address == s.tasks[id].address
  {
    MainCancels(s, a, id);
  }

  lemma MainCancels(s: State, a: Action, id: nat)
    requires Enabled(s, a) && !IsLoopAction(a) && !a.Perform? && a != StartClear && Up(s, id)
    ensures Up(Apply(s, a), id) && Apply(s, a).tasks[id].address == s.tasks[id].address
  {
  }

  lemma UpStep(s: State, a: Action, id: nat)
    requires Inv(s) && Enabled(s, a) && Up(s, id) && !IsCause(a, id, s.tasks[id].address)
    ensures Up(Apply(s, a), id) && Apply(s, a).tasks[id].address == s.tasks[id].address
  {
    if a.Perform? {
      UpPerform(s, a.id, a.step, id);
    } else if IsLoopAction(a) {
      UpLoop(s, a, id);
    } else {
      UpMain(s, a, id);
    }
  }

  predicate NoCause(acts: seq<Action>, id: nat, peer: Address) {
    forall a | a in acts :: !IsCause(a, id, peer)
  }

  lemma UpSaysNothing(s: State, id: nat)
    requires LogInv(s) && Up(s, id)
    ensures CountDisconnected(s.log, id) == 0 && s.tasks[id].cancels == 0
  {
  }

  lemma {:induction false} StaysUp(s: State, acts: seq<Action>, id: nat)
    requires Inv(s) && Valid(s, acts) && Up(s, id) && NoCause(acts, id, s.tasks[id].address)
    ensures Up(Run(s, acts), id)
    decreases |acts|
  {
    if acts != [] {
      assert acts[0] in acts;
      UpStep(s, acts[0], id);
      StepKeeps(s, acts[0]);
      assert forall a | a in acts[1..] :: a in acts;
      StaysUp(Apply(s, acts[0]), acts[1..], id);
    }
  }

  /** A connection that is up stays up, whatever else the daemon does, until one of its
      handlers fails, its peer connects again or the daemon shuts down: it is not
      cancelled, and nothing is said of a disconnection. */
  lemma UpUntilCause(s: State, acts: seq<Action>, id: nat)
    requires Inv(s) && Valid(s, acts) && Up(s, id) && NoCause(acts, id, s.tasks[id].address)
    ensures var e := Run(s, acts);
            Up(e, id) && CountDisconnected(e.log, id) == 0 && e.tasks[id].cancels == 0
  {
    StaysUp(s, acts, id);
    RunKeeps(s, acts);
    UpSaysNothing(Run(s, acts), id);
  }
}
