/** Cleanup never gets stuck: while `down` or the shutdown sequence is under way some
    action that brings its end nearer is always possible. */
module LifecycleCleanup {
  import opened Common
  import opened ConnectionList
  import opened Incarnation
  import opened Lifecycle
  import opened LifecycleInvariant
  import opened LifecycleSteps
  import opened LifecycleTheorems

  /** How far an incarnation is from its end. */
  function TaskDistance(t: Task): nat {
    (8 - Rank(t.wrapper))
    + (if t.control == ControlFinished then 0 else 1)
    + match t.interrupt
      case InterruptWaiting => 4
      case InterruptTaken => 3
      case InterruptReceived => 2
      case InterruptPiping => 1
      case InterruptFinished => 0
  }

  function TotalDistance(tasks: seq<Task>): nat {
    if tasks == [] then 0 else TotalDistance(tasks[..|tasks| - 1]) + TaskDistance(tasks[|tasks| - 1])
  }

  function LoopDistance(s: State): nat {
    if s.accepting.None? || s.accepting.value >= |s.loops| then 0
    else match s.loops[s.accepting.value].phase
      case Accepting => 1
      case Cancelling(_) => 3
      case Creating(_) => 2
      case Storing(_) => 4
      case Handing(_, _) => 2
      case Ended => 0
      case Panicked => 0
  }

  function MainDistance(s: State): nat {
    match s.main
    case JoiningLoop(_) => 3 + 2 * |s.connections|
    case Stopped => 2 + 2 * |s.connections|
    case Clearing(current, rest) => 1 + 2 * |rest| + if current.Some? then 1 else 0
    case _ => 0
  }

  function Distance(s: State): nat {
    TotalDistance(s.tasks) + LoopDistance(s) + MainDistance(s)
  }

  predicate Leaving(s: State) {
    s.main.JoiningLoop? || s.main.Stopped? || s.main.Clearing?
  }

  lemma {:induction false} DistanceUpdate(tasks: seq<Task>, i: nat, t: Task)
    requires i < |tasks|
    ensures TotalDistance(tasks[i := t]) == TotalDistance(tasks) - TaskDistance(tasks[i]) + TaskDistance(t)
  {
    var updated := tasks[i := t];
    if i == |tasks| - 1 {
      assert updated[..|tasks| - 1] == tasks[..|tasks| - 1];
    } else {
      assert updated[..|tasks| - 1] == tasks[..|tasks| - 1][i := t];
      DistanceUpdate(tasks[..|tasks| - 1], i, t);
    }
  }

  /** The step that a cancelled incarnation can always take next. */
  function NextTaskStep(t: Task): TaskStep {
    match t.wrapper
    case Selecting => SelectCancel
    case Notifying => Notify
    case ReapingInterrupt => ReapInterrupt
    case AwaitingInterrupt => if t.interrupt == InterruptFinished then JoinInterrupt else InterruptAbort
    case ReapingControl => ReapControl
    case AwaitingControl => if t.control == ControlFinished then JoinControl else ControlAbort
    case DroppingInfo => DropInfo
    case DroppingDirectory => DropConnectionDirectory
    case Finished => DropConnectionDirectory
  }

  lemma CancelledTaskMoves(t: Task, held: bool)
    requires LocalInv(t) && t.cancels > 0 && t.wrapper != Finished
    ensures Can(t, NextTaskStep(t), held)
    ensures TaskDistance(Do(t, NextTaskStep(t), held)) < TaskDistance(t)
  {
  }

  /** The action that brings the end nearer. */
  function NextAction(s: State): Action
    requires s.main.JoiningLoop? ==> s.accepting.Some? && s.accepting.value < |s.loops|
  {
    match s.main
    case JoiningLoop(_) =>
      var k := s.accepting.value;
      (match s.loops[k].phase
       case Accepting => LoopCancelled(k)
       case Cancelling(existing) =>
         if IsFinished(s, existing.id) || existing.id >= |s.tasks| then JoinExisting(k)
         else Perform(existing.id, NextTaskStep(s.tasks[existing.id]))
       case Creating(_) => Create(k, false)
       case Storing(_) => Store(k)
       case Handing(target, _) =>
         if target.id < |s.tasks| && ChannelOpen(s.tasks[target.id]) && s.tasks[target.id].slot != [] then
           Perform(target.id, if s.tasks[target.id].interrupt == InterruptWaiting then InterruptReceive else InterruptClose)
         else HandOff(k)
       case Ended => LoopJoined
       case Panicked => LoopJoined)
    case Clearing(current, rest) =>
      if current.Some? then
        if IsFinished(s, current.value.id) || current.value.id >= |s.tasks| then JoinCurrent
        else Perform(current.value.id, NextTaskStep(s.tasks[current.value.id]))
      else if rest != [] then CancelNext
      else FinishClear
    case _ => StartClear
  }

  /** A step of a cancelled incarnation, or of an interrupt handler, nearer to its end. */
  lemma TaskMoves(s: State, id: nat, step: TaskStep)
    requires s.main != Crashed && MayPerform(s, id, step)
    requires TaskDistance(Do(s.tasks[id], step, Self(s, id) in Held(s))) < TaskDistance(s.tasks[id])
    ensures Enabled(s, Perform(id, step))
    ensures Distance(Apply(s, Perform(id, step))) < Distance(s) && Apply(s, Perform(id, step)).main == s.main
  {
    DistanceUpdate(s.tasks, id, Do(s.tasks[id], step, Self(s, id) in Held(s)));
  }

  lemma CancelledMoves(s: State, c: Connection)
    requires OwnershipInv(s) && TasksInv(s) && c in Held(s) && InCancel(s, c) && !IsFinished(s, c.id) && s.main != Crashed
    ensures c.id < |s.tasks| && Enabled(s, Perform(c.id, NextTaskStep(s.tasks[c.id])))
    ensures var a := Perform(c.id, NextTaskStep(s.tasks[c.id]));
            Distance(Apply(s, a)) < Distance(s) && Apply(s, a).main == s.main
  {
    assert Self(s, c.id) == c;
    assert CountsInv(s, c.id) && LocalInv(s.tasks[c.id]);
    CancelledTaskMoves(s.tasks[c.id], Self(s, c.id) in Held(s));
    TaskMoves(s, c.id, NextTaskStep(s.tasks[c.id]));
  }

  lemma JoiningMoves(s: State)
    requires Inv(s) && s.main.JoiningLoop?
    ensures Enabled(s, NextAction(s)) && Distance(Apply(s, NextAction(s))) < Distance(s)
    ensures var s' := Apply(s, NextAction(s));
            s'.main == s.main || (s'.main == (if s.main.stopping then Stopped else Serving) && s'.accepting == None)
  {
    var k := s.accepting.value;
    match s.loops[k].phase
    case Cancelling(existing) => CancellingMoves(s, k, existing);
    case Storing(created) => StoreMoves(s, k);
    case Handing(target, link) => HandingMoves(s, k, target);
    case _ => PlainPhaseMoves(s, k);
  }

  lemma PlainPhaseMoves(s: State, k: nat)
    requires LoopsInv(s) && s.main.JoiningLoop? && s.accepting == Some(k)
    requires s.loops[k].phase.Accepting? || s.loops[k].phase.Creating? || s.loops[k].phase.Ended? || s.loops[k].phase.Panicked?
    ensures Enabled(s, NextAction(s)) && Distance(Apply(s, NextAction(s))) < Distance(s)
    ensures var s' := Apply(s, NextAction(s));
            s'.main == s.main || (s'.main == (if s.main.stopping then Stopped else Serving) && s'.accepting == None)
  {
    assert LoopInv(s, k);
  }

  lemma CancellingMoves(s: State, k: nat, existing: Connection)
    requires OwnershipInv(s) && TasksInv(s) && s.main.JoiningLoop?
    requires k < |s.loops| && s.accepting == Some(k) && s.loops[k].phase == Cancelling(existing)
    ensures Enabled(s, NextAction(s)) && Distance(Apply(s, NextAction(s))) < Distance(s)
    ensures Apply(s, NextAction(s)).main == s.main
  {
    assert LoopHeld(s.loops[k])[0] == existing;
    assert existing in CurrentHeld(s) && existing in Held(s);
    if IsFinished(s, existing.id) {
      JoinDistance(s, existing);
    } else {
      CancelledMoves(s, existing);
    }
  }

  lemma JoinDistance(s: State, c: Connection)
    requires c.id < |s.tasks|
    ensures TotalDistance(CountJoin(s, c).tasks) == TotalDistance(s.tasks)
  {
    DistanceUpdate(s.tasks, c.id, s.tasks[c.id].(joins := s.tasks[c.id].joins + 1));
  }

  lemma StoreMoves(s: State, k: nat)
    requires Inv(s) && s.main != Crashed && s.accepting == Some(k) && s.loops[k].phase.Storing?
    ensures Enabled(s, Store(k)) && Distance(Apply(s, Store(k))) < Distance(s) && Apply(s, Store(k)).main == s.main
  {
    var created := s.loops[k].phase.created;
    RunningLoop(s, k);
    assert Held(s) == s.connections + [created];
    AbsentFromRest(s.connections, created);
  }

  lemma HandingMoves(s: State, k: nat, target: Connection)
    requires Inv(s) && s.main.JoiningLoop? && s.accepting == Some(k)
    requires s.loops[k].phase.Handing? && s.loops[k].phase.target == target
    ensures Enabled(s, NextAction(s)) && Distance(Apply(s, NextAction(s))) < Distance(s)
    ensures Apply(s, NextAction(s)).main == s.main
  {
    RunningLoop(s, k);
    assert target in Held(s);
    var t := s.tasks[target.id];
    assert LocalInv(t);
    if ChannelOpen(t) && t.slot != [] {
      ReceiverMoves(s, target.id);
    } else {
      HandOffMoves(s, k);
    }
  }

  /** A full interrupt channel empties: the handler receives, then closes. */
  lemma ReceiverMoves(s: State, id: nat)
    requires s.main != Crashed && id < |s.tasks| && ChannelOpen(s.tasks[id]) && s.tasks[id].slot != []
    ensures var a := Perform(id, if s.tasks[id].interrupt == InterruptWaiting then InterruptReceive else InterruptClose);
            Enabled(s, a) && Distance(Apply(s, a)) < Distance(s) && Apply(s, a).main == s.main
  {
    TaskMoves(s, id, if s.tasks[id].interrupt == InterruptWaiting then InterruptReceive else InterruptClose);
  }

  lemma HandOffMoves(s: State, k: nat)
    requires s.accepting == Some(k) && Enabled(s, HandOff(k))
    ensures Distance(Apply(s, HandOff(k))) < Distance(s) && Apply(s, HandOff(k)).main == s.main
  {
    var id, link := s.loops[k].phase.target.id, s.loops[k].phase.link;
    var t := s.tasks[id];
    DistanceUpdate(s.tasks, id, t.(slot := t.slot + [link], offered := t.offered + [link]));
  }

  lemma ClearingMoves(s: State)
    requires OwnershipInv(s) && TasksInv(s) && s.main.Clearing?
    ensures Enabled(s, NextAction(s)) && Distance(Apply(s, NextAction(s))) < Distance(s)
    ensures var s' := Apply(s, NextAction(s)); s'.main.Clearing? || s'.main == Exited
  {
    if s.main.current.Some? {
      ClearingCurrentMoves(s);
    } else if s.main.rest != [] {
      ClearingNextMoves(s);
    }
  }

  lemma ClearingCurrentMoves(s: State)
    requires OwnershipInv(s) && TasksInv(s) && s.main.Clearing? && s.main.current.Some?
    ensures Enabled(s, NextAction(s)) && Distance(Apply(s, NextAction(s))) < Distance(s)
    ensures Apply(s, NextAction(s)).main.Clearing?
  {
    var current := s.main.current.value;
    assert MainHeld(s)[0] == current;
    assert current in MainHeld(s) && current in Held(s);
    if IsFinished(s, current.id) {
      JoinCurrentMoves(s);
    } else {
      CancelledMoves(s, current);
    }
  }

  lemma JoinCurrentMoves(s: State)
    requires Enabled(s, JoinCurrent)
    ensures Distance(Apply(s, JoinCurrent)) < Distance(s) && Apply(s, JoinCurrent).main.Clearing?
  {
    JoinDistance(s, s.main.current.value);
  }

  lemma ClearingNextMoves(s: State)
    requires OwnershipInv(s) && s.main.Clearing? && s.main.current.None? && s.main.rest != []
    ensures Enabled(s, CancelNext) && Distance(Apply(s, CancelNext)) < Distance(s)
    ensures Apply(s, CancelNext).main.Clearing?
  {
    NextIsTask(s);
    CancelNextDistance(s);
  }

  lemma CancelNextDistance(s: State)
    requires Enabled(s, CancelNext) && s.main.rest[0].id < |s.tasks|
    ensures Distance(Apply(s, CancelNext)) < Distance(s) && Apply(s, CancelNext).main.Clearing?
  {
    SendDistance(s, s.main.rest[0]);
  }

  lemma NextIsTask(s: State)
    requires OwnershipInv(s) && s.main.Clearing? && s.main.current.None? && s.main.rest != []
    ensures s.main.rest[0].id < |s.tasks|
  {
    var next := s.main.rest[0];
    assert MainHeld(s)[0] == next;
    assert next in MainHeld(s) && next in Held(s);
  }

  lemma SendDistance(s: State, c: Connection)
    requires c.id < |s.tasks|
    ensures TotalDistance(SendCancel(s, c).tasks) == TotalDistance(s.tasks)
  {
    DistanceUpdate(s.tasks, c.id, s.tasks[c.id].(cancels := s.tasks[c.id].cancels + 1));
  }

  lemma StoppedMoves(s: State)
    requires s.main == Stopped
    ensures Enabled(s, StartClear) && Distance(Apply(s, StartClear)) < Distance(s)
    ensures Apply(s, StartClear).main.Clearing?
  {
  }

  /** In every reachable state in which the main task is taking the server down, the
      next action is possible and strictly shortens the distance to the end. */
  lemma CleanupMoves(s: State)
    requires Inv(s) && Leaving(s)
    ensures Enabled(s, NextAction(s)) && Distance(Apply(s, NextAction(s))) < Distance(s)
    ensures Progress(s, Apply(s, NextAction(s)))
  {
    match s.main
    case JoiningLoop(_) => JoiningMoves(s);
    case Clearing(_, _) => ClearingMoves(s);
    case _ => StoppedMoves(s);
  }

  /** `down` for a client stays on its way or is back; a shutdown never turns back. */
  predicate Progress(s: State, s': State) {
    if s.main == JoiningLoop(false) then s'.main == s.main || (s'.main == Serving && s'.accepting == None)
    else (Leaving(s') && s'.main != JoiningLoop(false)) || s'.main == Exited
  }

  /** Where a `down` for a client, or else a shutdown, is meant to end. */
  predicate Ends(s: State, e: State) {
    if s.main == JoiningLoop(false) then e.main == Serving && e.accepting == None else e.main == Exited
  }

  /** Neither `down` nor the shutdown sequence can deadlock: from every such reachable
      state a run bounded by the distance ends it. */
  lemma {:induction false} CleanupCompletes(s: State) returns (acts: seq<Action>)
    requires Inv(s) && Leaving(s)
    ensures Valid(s, acts) && |acts| <= Distance(s) && Ends(s, Run(s, acts))
    decreases Distance(s)
  {
    CleanupMoves(s);
    var a := NextAction(s);
    StepKeeps(s, a);
    if Leaving(Apply(s, a)) {
      acts := CleanupCompletes(Apply(s, a));
    } else {
      acts := [];
    }
    Prepend(s, a, acts);
    acts := [a] + acts;
  }

  /** From any reachable state in which the main task serves, a signal can be followed
      by a bounded run to a clean exit. */
  lemma ShutdownCompletes(s: State) returns (acts: seq<Action>)
    requires Inv(s) && s.main == Serving
    ensures acts != [] && acts[0] == Interrupted && Valid(s, acts)
    ensures var e := Run(s, acts);
            && e.main == Exited && e.accepting == None && e.connections == [] && e.tree == e.base
            && forall i: nat | i < |e.tasks| :: IsFinished(e, i)
  {
    StepKeeps(s, Interrupted);
    var rest := CleanupCompletes(Apply(s, Interrupted));
    Prepend(s, Interrupted, rest);
    acts := [Interrupted] + rest;
    RunKeeps(s, acts);
    CleanExit(Run(s, acts));
  }
}
