/** What the actions of accept loops and of the main task leave alone. */
module LifecycleFrames {
  import opened Common
  import opened ConnectionList
  import opened Incarnation
  import opened Lifecycle

  predicate IsControlAction(a: Action) {
    a.AcceptControl? || a.JoinExisting? || a.Create? || a.Store?
  }

  /** The actions of an accept loop. */
  predicate IsLoopAction(a: Action) {
    IsControlAction(a) || a.AcceptError? || a.AcceptInterrupt? || a.HandOff? || a.LoopCancelled? || a.LoopAborted?
  }

  /** A task that was at most sent a message. */
  ghost predicate Undisturbed(t: Task, t': Task) {
    && t'.address == t.address && t'.control == t.control && t'.interrupt == t.interrupt
    && t'.wrapper == t.wrapper && t'.used == t.used && t.offered <= t'.offered
  }

  ghost predicate TasksUndisturbed(s: State, s': State) {
    |s.tasks| <= |s'.tasks| && forall i: nat | i < |s.tasks| :: Undisturbed(s.tasks[i], s'.tasks[i])
  }

  ghost predicate LoopFrame(s: State, s': State) {
    && s'.log == s.log && s'.main == s.main && s'.accepting == s.accepting && |s'.loops| == |s.loops|
    && (forall k: nat | k < |s.loops| :: s'.loops[k].registration == s.loops[k].registration)
    && TasksUndisturbed(s, s')
  }

  lemma SetPhaseFrame(s: State, s1: State, k: nat, phase: LoopPhase)
    requires LoopFrame(s, s1) && k < |s1.loops|
    ensures LoopFrame(s, SetPhase(s1, k, phase))
  {
  }

  lemma LoopActionFrame(s: State, a: Action)
    requires IsLoopAction(a) && Enabled(s, a)
    ensures LoopFrame(s, Apply(s, a))
  {
    if IsControlAction(a) {
      ControlActionFrame(s, a);
    } else {
      InterruptActionFrame(s, a);
    }
  }

  lemma ControlActionFrame(s: State, a: Action)
    requires IsControlAction(a) && Enabled(s, a)
    ensures LoopFrame(s, Apply(s, a))
  {
    match a
    case AcceptControl(k, address) => AcceptControlFrame(s, k, address);
    case JoinExisting(k) =>
      var existing := s.loops[k].phase.existing;
      SetPhaseFrame(s, DropHandle(CountJoin(s, existing), existing), k, Creating(existing.peerAddress));
    case Create(k, built) => CreateFrame(s, k, built);
    case Store(k) => StoreFrame(s, k);
  }

  lemma InterruptActionFrame(s: State, a: Action)
    requires IsLoopAction(a) && !IsControlAction(a) && Enabled(s, a)
    ensures LoopFrame(s, Apply(s, a))
  {
    match a
    case AcceptError(k) => SetPhaseFrame(s, s, k, Ended);
    case AcceptInterrupt(k, _, _) => SetPhaseFrame(s, s, k, Apply(s, a).loops[k].phase);
    case HandOff(k) => HandOffFrame(s, k);
    case LoopCancelled(k) => SetPhaseFrame(s, s, k, Ended);
    case LoopAborted(k) =>
      var held := LoopHeld(s.loops[k]);
      SetPhaseFrame(s, if held == [] then s else DropHandle(s, held[0]), k, Ended);
  }

  lemma AcceptControlFrame(s: State, k: nat, address: Address)
    requires k < |s.loops|
    ensures LoopFrame(s, AfterAcceptControl(s, k, address))
  {
    var taken := ConnectionList.TakeExisting(s.connections, FinishedIds(s), address);
    TakingFrame(s, k, address, taken);
  }

  lemma TakingFrame(s: State, k: nat, address: Address, taken: Taken)
    requires k < |s.loops|
    ensures LoopFrame(s, AfterTaking(s, k, address, taken))
  {
  }

  lemma CreateFrame(s: State, k: nat, built: bool)
    requires k < |s.loops| && s.loops[k].phase.Creating?
    ensures LoopFrame(s, AfterCreate(s, k, built))
  {
  }

  lemma StoreFrame(s: State, k: nat)
    requires k < |s.loops| && s.loops[k].phase.Storing?
    ensures LoopFrame(s, AfterStore(s, k))
  {
  }

  lemma HandOffFrame(s: State, k: nat)
    requires Enabled(s, HandOff(k))
    ensures LoopFrame(s, AfterHandOff(s, k))
  {
  }

  lemma MainActionFrame(s: State, a: Action)
    requires !IsLoopAction(a) && !a.Perform? && Enabled(s, a)
    ensures Apply(s, a).log == s.log && TasksUndisturbed(s, Apply(s, a))
  {
  }

  lemma MainActionAccepting(s: State, a: Action)
    requires !IsLoopAction(a) && !a.Perform? && !a.Up? && a != LoopJoined && Enabled(s, a)
    ensures var s' := Apply(s, a);
            && s'.accepting == s.accepting && |s'.loops| == |s.loops| && s'.main != Crashed
            && forall k: nat | k < |s.loops| :: s'.loops[k].registration == s.loops[k].registration
  {
  }

  lemma PerformAccepting(s: State, id: nat, step: TaskStep)
    requires Enabled(s, Perform(id, step))
    ensures var s' := AfterTask(s, id, step);
            s'.accepting == s.accepting && s'.loops == s.loops && s'.main == s.main
  {
  }

  /** Only `up` and the end of `down` change what the server accepts for, or end main. */
  lemma AcceptingKept(s: State, a: Action)
    requires !a.Up? && a != LoopJoined && Enabled(s, a)
    ensures var s' := Apply(s, a);
            && s'.accepting == s.accepting && |s'.loops| >= |s.loops| && s'.main != Crashed
            && forall k: nat | k < |s.loops| :: s'.loops[k].registration == s.loops[k].registration
  {
    if IsLoopAction(a) {
      LoopActionFrame(s, a);
    } else if a.Perform? {
      PerformAccepting(s, a.id, a.step);
    } else {
      MainActionAccepting(s, a);
    }
  }
}
