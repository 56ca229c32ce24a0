/** When a registered server still accepts connections and when it has gone deaf. */
module LifecycleHearing {
  import opened Common
  import opened FileTree
  import opened InfoFile
  import opened ConnectionList
  import opened Incarnation
  import opened Lifecycle
  import opened LifecycleInvariant
  import opened LifecycleFrames
  import opened LifecycleSteps
  import opened LifecycleTheorems
  import opened LifecycleCleanup

  /** The interrupt channel has room, or will have once its only socket is received. */
  predicate Openable(t: Task) {
    t.interrupt == InterruptWaiting || (t.interrupt == InterruptTaken && t.slot == [])
  }

  /** The accept loop has not ended, and is not bound to end because it hands a socket to
      an interrupt handler that takes no further one. */
  predicate Hearing(s: State) {
    && s.accepting.Some? && s.accepting.value < |s.loops|
    && match s.loops[s.accepting.value].phase
       case Handing(target, _) => target.id < |s.tasks| && Openable(s.tasks[target.id])
       case Ended => false
       case Panicked => false
       case _ => true
  }

  predicate MayServe(s: State) {
    s.main == Serving || s.main.JoiningLoop?
  }

  // ---- when a loop ends by itself -----------------------------------------

  /** A loop that has not been cancelled ends by an accept error, by an interrupt
      connection of a peer without a connection, or by a hand-off to a handler whose
      channel is closed, and by nothing else. */
  lemma LoopEndsByItself(s: State, a: Action, k: nat)
    requires Inv(s) && Enabled(s, a) && s.accepting == Some(k) && s.loops[k].phase != Ended && s.loops[k].cancels == 0
    ensures k < |Apply(s, a).loops|
    ensures Apply(s, a).loops[k].phase == Ended <==>
            || a == AcceptError(k)
            || (a.AcceptInterrupt? && a.k == k && Absent(s.connections, a.address))
            || (a == HandOff(k) && !ChannelOpen(s.tasks[s.loops[k].phase.target.id]))
  {
    OthersEnded(s, k);
    if IsLoopAction(a) {
      LoopActionEnds(s, a, k);
    } else {
      OtherActionsEndNothing(s, a, k);
    }
  }

  lemma OthersEnded(s: State, k: nat)
    requires LoopsInv(s) && s.accepting == Some(k)
    ensures k < |s.loops| && !s.loops[k].aborted && !s.loops[k].phase.Panicked?
    ensures forall j: nat | j < |s.loops| && j != k :: s.loops[j].phase == Ended
  {
    forall j: nat | j < |s.loops|
      ensures if j == k then !s.loops[j].aborted && !s.loops[j].phase.Panicked? else s.loops[j].phase == Ended
    {
      assert LoopInv(s, j);
    }
  }

  lemma LoopActionEnds(s: State, a: Action, k: nat)
    requires IsLoopAction(a) && Enabled(s, a) && k < |s.loops| && s.loops[k].phase != Ended && s.loops[k].cancels == 0
    requires !s.loops[k].aborted && forall j: nat | j < |s.loops| && j != k :: s.loops[j].phase == Ended
    ensures k < |Apply(s, a).loops|
    ensures Apply(s, a).loops[k].phase == Ended <==>
            || a == AcceptError(k)
            || (a.AcceptInterrupt? && a.k == k && Absent(s.connections, a.address))
            || (a == HandOff(k) && !ChannelOpen(s.tasks[s.loops[k].phase.target.id]))
  {
    assert a.k == k;
    if a.AcceptInterrupt? {
      var p := Position(s.connections, a.address);
      assert p.Some? ==> s.connections[p.value] in s.connections;
    }
  }

  lemma OtherActionsEndNothing(s: State, a: Action, k: nat)
    requires !IsLoopAction(a) && Enabled(s, a) && k < |s.loops| && s.loops[k].phase != Ended
    ensures k < |Apply(s, a).loops| && Apply(s, a).loops[k].phase == s.loops[k].phase
  {
  }

  /** An accepting loop can always end so: by an accept error, or by any interrupt
      connection of a peer that is not listed. */
  lemma AcceptFailureDeafens(s: State, k: nat, address: Address, link: Link)
    requires s.main != Crashed && s.accepting == Some(k) && k < |s.loops| && s.loops[k].phase == Accepting
    ensures Enabled(s, AcceptError(k)) && !Hearing(Apply(s, AcceptError(k)))
    ensures Enabled(s, AcceptInterrupt(k, address, link))
    ensures Absent(s.connections, address) ==> !Hearing(Apply(s, AcceptInterrupt(k, address, link)))
  {
    var found := Position(s.connections, address);
    assert found.Some? ==> s.connections[found.value] in s.connections;
  }

  /** It does happen: on this run an interrupt connection without a control connection
      leaves the server registered and serving with a loop that has ended. */
  lemma DeafServer(root: Path, base: Tree, registration: RegistrationInfo, a: Address, link: Link)
    requires CleanBase(root, base)
    ensures var acts := [Up(registration, true)] + ([AcceptInterrupt(0, a, link)] + []);
            && Valid(Initial(root, base), acts)
            && var s := Run(Initial(root, base), acts);
               s.main == Serving && s.accepting == Some(0) && |s.loops| == 1 && s.loops[0].phase == Ended && !Hearing(s)
  {
    var s0 := Initial(root, base);
    var s1 := Apply(s0, Up(registration, true));
    Prepend(s1, AcceptInterrupt(0, a, link), []);
    Prepend(s0, Up(registration, true), [AcceptInterrupt(0, a, link)] + []);
  }

  // ---- a deaf server stays deaf -------------------------------------------

  lemma OpenableStep(t: Task, step: TaskStep, held: bool)
    requires LocalInv(t) && Can(t, step, held) && !Openable(t)
    ensures !Openable(Do(t, step, held))
  {
  }

  /** Until its loop is joined, a deaf server stays deaf and its list as it is. */
  lemma DeafStays(s: State, a: Action)
    requires Inv(s) && Enabled(s, a) && s.accepting.Some? && !Hearing(s) && MayServe(s) && a != LoopJoined
    ensures var s' := Apply(s, a);
            && s'.accepting == s.accepting && !Hearing(s') && MayServe(s')
            && |s'.tasks| == |s.tasks| && s'.connections == s.connections
            && (a != Down && a != Interrupted ==> s'.main == s.main)
  {
    var k := s.accepting.value;
    OthersEnded(s, k);
    TargetIsTask(s, k);
    if a.Perform? {
      DeafPerform(s, k, a.id, a.step);
    } else if IsLoopAction(a) {
      DeafLoopAction(s, a, k);
      DeafHandOff(s, k);
    } else {
      DeafMain(s, a);
    }
  }

  lemma TargetIsTask(s: State, k: nat)
    requires Inv(s) && k < |s.loops| && s.accepting == Some(k)
    ensures s.loops[k].phase.Handing? ==>
              && s.loops[k].phase.target in s.connections && s.loops[k].phase.target.id < |s.tasks|
              && Self(s, s.loops[k].phase.target.id) == s.loops[k].phase.target
  {
    if s.loops[k].phase.Handing? {
      RunningLoop(s, k);
      assert s.loops[k].phase.target in Held(s);
    }
  }

  lemma DeafLoopAction(s: State, a: Action, k: nat)
    requires IsLoopAction(a) && Enabled(s, a) && s.accepting == Some(k) && k < |s.loops| && !Hearing(s)
    requires !s.loops[k].aborted && forall j: nat | j < |s.loops| && j != k :: s.loops[j].phase == Ended
    ensures a == HandOff(k)
  {
  }

  lemma DeafPerform(s: State, k: nat, id: nat, step: TaskStep)
    requires TasksInv(s) && Enabled(s, Perform(id, step)) && s.accepting == Some(k) && k < |s.loops| && !Hearing(s)
    requires s.loops[k].phase.Handing? ==> s.loops[k].phase.target.id < |s.tasks|
    ensures var s' := AfterTask(s, id, step);
            && s'.accepting == s.accepting && !Hearing(s') && |s'.tasks| == |s.tasks|
            && s'.connections == s.connections && s'.main == s.main
  {
    assert LocalInv(s.tasks[id]);
    if s.loops[k].phase.Handing? && s.loops[k].phase.target.id == id {
      OpenableStep(s.tasks[id], step, Self(s, id) in Held(s));
    }
  }

  lemma DeafHandOff(s: State, k: nat)
    requires Enabled(s, HandOff(k)) && s.accepting == Some(k) && !Hearing(s)
    ensures var s' := AfterHandOff(s, k);
            && s'.accepting == s.accepting && s'.loops[k].phase == Ended && |s'.tasks| == |s.tasks|
            && s'.connections == s.connections && s'.main == s.main
  {
  }

  lemma DeafMain(s: State, a: Action)
    requires LoopsInv(s) && !IsLoopAction(a) && !a.Perform? && a != LoopJoined
    requires Enabled(s, a) && s.accepting.Some? && !Hearing(s) && MayServe(s)
    ensures var s' := Apply(s, a);
            && s'.accepting == s.accepting && !Hearing(s') && MayServe(s')
            && |s'.tasks| == |s.tasks| && s'.connections == s.connections
            && (a != Down && a != Interrupted ==> s'.main == s.main)
  {
  }

  lemma {:induction false} DeafRun(s: State, acts: seq<Action>)
    requires Inv(s) && Valid(s, acts) && NoDown(acts) && s.main == Serving && s.accepting.Some? && !Hearing(s)
    ensures |Run(s, acts).tasks| == |s.tasks|
    decreases |acts|
  {
    if acts != [] {
      assert acts[0] in acts;
      DeafStays(s, acts[0]);
      StepKeeps(s, acts[0]);
      assert forall b | b in acts[1..] :: b in acts;
      DeafRun(Apply(s, acts[0]), acts[1..]);
    }
  }

  // ---- a hearing server gets back to accepting ----------------------------

  /** Connection `i` is in the list, or about to be stored there. */
  predicate Listed(s: State, i: nat) {
    && i < |s.tasks|
    && (Self(s, i) in s.connections
        || (s.accepting.Some? && s.accepting.value < |s.loops| && s.loops[s.accepting.value].phase == Storing(Self(s, i))))
  }

  /** Listed connections stay so, and their interrupt handlers go on running. */
  ghost predicate KeepsListed(s: State, s': State) {
    && |s'.tasks| == |s.tasks|
    && forall i: nat | Listed(s, i) ::
         Listed(s', i) && (s.tasks[i].interrupt != InterruptFinished ==> s'.tasks[i].interrupt != InterruptFinished)
  }

  /** The next action on the way back to accepting. */
  function Onward(s: State): Action
    requires s.accepting.Some? && s.accepting.value < |s.loops|
  {
    var k := s.accepting.value;
    match s.loops[k].phase
    case Cancelling(existing) =>
      if IsFinished(s, existing.id) || existing.id >= |s.tasks| then JoinExisting(k)
      else Perform(existing.id, NextTaskStep(s.tasks[existing.id]))
    case Creating(_) => Create(k, false)
    case Storing(_) => Store(k)
    case Handing(target, _) =>
      if target.id < |s.tasks| && s.tasks[target.id].slot != [] then Perform(target.id, InterruptReceive) else HandOff(k)
    case _ => LoopCancelled(k)
  }

  ghost predicate OnwardTo(s: State, s': State) {
    && Distance(s') < Distance(s) && s'.main == s.main && s'.accepting == s.accepting
    && Hearing(s') && KeepsListed(s, s')
  }

  lemma OnwardMoves(s: State)
    requires Inv(s) && Hearing(s) && MayServe(s) && s.loops[s.accepting.value].phase != Accepting
    ensures Enabled(s, Onward(s)) && OnwardTo(s, Apply(s, Onward(s)))
  {
    var k := s.accepting.value;
    RunningLoop(s, k);
    match s.loops[k].phase
    case Cancelling(existing) => CancellingOnward(s, k, existing);
    case Creating(_) => CreatingOnward(s, k);
    case Storing(created) => StoringOnward(s, k, created);
    case Handing(target, _) => HandingOnward(s, k, target);
  }

  lemma CreatingOnward(s: State, k: nat)
    requires MayServe(s) && s.accepting == Some(k) && k < |s.loops| && s.loops[k].phase.Creating?
    ensures Enabled(s, Create(k, false)) && OnwardTo(s, Apply(s, Create(k, false)))
  {
  }

  lemma CancellingOnward(s: State, k: nat, existing: Connection)
    requires OwnershipInv(s) && TasksInv(s) && MayServe(s)
    requires s.accepting == Some(k) && k < |s.loops| && s.loops[k].phase == Cancelling(existing)
    requires Held(s) == s.connections + [existing]
    ensures Enabled(s, Onward(s)) && OnwardTo(s, Apply(s, Onward(s)))
  {
    assert Held(s)[|s.connections|] == existing;
    AbsentFromRest(s.connections, existing);
    if IsFinished(s, existing.id) {
      JoiningOnward(s, k, existing);
    } else {
      CancelledMoves(s, existing);
      DoKeepsIdentity(s.tasks[existing.id], NextTaskStep(s.tasks[existing.id]), Self(s, existing.id) in Held(s));
      CancelledOnward(s, k, existing, NextTaskStep(s.tasks[existing.id]));
    }
  }

  lemma JoiningOnward(s: State, k: nat, existing: Connection)
    requires MayServe(s) && s.accepting == Some(k) && k < |s.loops| && s.loops[k].phase == Cancelling(existing)
    requires IsFinished(s, existing.id)
    ensures Enabled(s, JoinExisting(k)) && OnwardTo(s, Apply(s, JoinExisting(k)))
    ensures Apply(s, JoinExisting(k)).loops[k].phase == Creating(existing.peerAddress)
  {
    JoinDistance(s, existing);
  }

  lemma CancelledOnward(s: State, k: nat, existing: Connection, step: TaskStep)
    requires MayPerform(s, existing.id, step) && Absent(s.connections, existing.peerAddress)
    requires s.accepting == Some(k) && k < |s.loops| && s.loops[k].phase == Cancelling(existing)
    requires s.tasks[existing.id].address == existing.peerAddress
    requires Do(s.tasks[existing.id], step, Self(s, existing.id) in Held(s)).address == existing.peerAddress
    ensures Hearing(AfterTask(s, existing.id, step)) && KeepsListed(s, AfterTask(s, existing.id, step))
  {
    var s' := AfterTask(s, existing.id, step);
    forall i: nat | Listed(s, i)
      ensures Listed(s', i) && s'.tasks[i] == s.tasks[i]
    {
      assert i != existing.id;
    }
  }

  lemma StoringOnward(s: State, k: nat, created: Connection)
    requires Inv(s) && MayServe(s) && s.accepting == Some(k) && s.loops[k].phase == Storing(created)
    ensures Enabled(s, Store(k)) && OnwardTo(s, Apply(s, Store(k)))
  {
    RunningLoop(s, k);
    StoreMoves(s, k);
    assert Held(s) == s.connections + [created];
    AbsentFromRest(s.connections, created);
    Stored(s, k, created);
  }

  lemma Stored(s: State, k: nat, created: Connection)
    requires s.accepting == Some(k) && k < |s.loops| && s.loops[k].phase == Storing(created)
    requires Absent(s.connections, created.peerAddress)
    ensures var s' := AfterStore(s, k);
            s'.accepting == s.accepting && Hearing(s') && KeepsListed(s, s')
  {
    var s' := AfterStore(s, k);
    assert Position(s.connections, created.peerAddress).None?;
    assert s'.connections == s.connections + [created];
    assert created in s'.connections;
  }

  lemma HandingOnward(s: State, k: nat, target: Connection)
    requires OwnershipInv(s) && TasksInv(s) && Hearing(s) && MayServe(s)
    requires s.accepting == Some(k) && s.loops[k].phase.Handing? && s.loops[k].phase.target == target
    ensures Enabled(s, Onward(s)) && OnwardTo(s, Apply(s, Onward(s)))
  {
    assert LocalInv(s.tasks[target.id]);
    if s.tasks[target.id].slot != [] {
      ReceiverMoves(s, target.id);
      Receives(s, k, target.id);
    } else {
      HandOffMoves(s, k);
      Hands(s, k, target.id);
    }
  }

  lemma Receives(s: State, k: nat, id: nat)
    requires MayPerform(s, id, InterruptReceive) && |s.tasks[id].slot| == 1
    requires s.accepting == Some(k) && k < |s.loops| && s.loops[k].phase.Handing? && s.loops[k].phase.target.id == id
    ensures var s' := AfterTask(s, id, InterruptReceive);
            s'.accepting == s.accepting && Hearing(s') && KeepsListed(s, s')
  {
    var s' := AfterTask(s, id, InterruptReceive);
    assert s'.tasks[id].slot == [];
    assert forall i: nat | i < |s.tasks| :: Self(s', i) == Self(s, i);
  }

  lemma Hands(s: State, k: nat, id: nat)
    requires Enabled(s, HandOff(k)) && s.accepting == Some(k) && s.loops[k].phase.target.id == id && ChannelOpen(s.tasks[id])
    ensures var s' := AfterHandOff(s, k);
            s'.accepting == s.accepting && Hearing(s') && KeepsListed(s, s')
  {
    var s' := AfterHandOff(s, k);
    assert forall i: nat | i < |s.tasks| :: Self(s', i) == Self(s, i);
  }

  lemma KeepsListedTransitive(s: State, s1: State, s2: State)
    requires KeepsListed(s, s1) && KeepsListed(s1, s2)
    ensures KeepsListed(s, s2)
  {
  }

  /** `e` is `s` once its accept loop has got back to accepting. */
  ghost predicate BackFrom(s: State, e: State) {
    && Inv(e) && e.main == s.main && e.accepting == s.accepting && KeepsListed(s, e)
    && s.accepting.Some? && s.accepting.value < |e.loops| && e.loops[s.accepting.value].phase == Accepting
  }

  /** Without a deregistration, `acts` lead back to accepting. */
  ghost predicate LeadsBack(s: State, acts: seq<Action>) {
    Valid(s, acts) && NoDown(acts) && |acts| <= Distance(s) && BackFrom(s, Run(s, acts))
  }

  /** No interference of the environment keeps a hearing server from accepting again:
      cancel_existing, the storing of a connection and a hand-off can be finished. */
  lemma {:induction false} ReachAccepting(s: State) returns (acts: seq<Action>)
    requires Inv(s) && Hearing(s) && MayServe(s)
    ensures LeadsBack(s, acts)
    decreases Distance(s)
  {
    if s.loops[s.accepting.value].phase == Accepting {
      acts := [];
    } else {
      OnwardMoves(s);
      OnwardKeeps(s);
      var rest := ReachAccepting(Apply(s, Onward(s)));
      LeadsBackEarlier(s, Onward(s), rest);
      acts := [Onward(s)] + rest;
    }
  }

  lemma OnwardKeeps(s: State)
    requires Inv(s) && s.accepting.Some? && s.accepting.value < |s.loops| && Enabled(s, Onward(s))
    ensures Inv(Apply(s, Onward(s))) && Onward(s) != Down && Onward(s) != Interrupted
  {
    StepKeeps(s, Onward(s));
  }

  lemma LeadsBackEarlier(s: State, a: Action, rest: seq<Action>)
    requires Enabled(s, a) && OnwardTo(s, Apply(s, a)) && a != Down && a != Interrupted
    requires LeadsBack(Apply(s, a), rest)
    ensures LeadsBack(s, [a] + rest)
  {
    Prepend(s, a, rest);
    BackFromEarlier(s, Apply(s, a), Run(Apply(s, a), rest));
  }

  lemma BackFromEarlier(s: State, s1: State, e: State)
    requires OnwardTo(s, s1) && BackFrom(s1, e)
    ensures BackFrom(s, e)
  {
    KeepsListedTransitive(s, s1, e);
  }

  // ---- and accepts any peer -----------------------------------------------

  predicate InCancelling(s: State, k: nat, a: Address) {
    k < |s.loops| && s.loops[k].phase.Cancelling? && s.loops[k].phase.existing.peerAddress == a
  }

  ghost predicate CancellingDone(s: State, e: State, k: nat, a: Address) {
    && Inv(e) && e.main == s.main && e.accepting == s.accepting && |e.tasks| == |s.tasks|
    && k < |e.loops| && e.loops[k].phase == Creating(a)
  }

  ghost predicate SameServer(s: State, s1: State) {
    s1.main == s.main && s1.accepting == s.accepting && |s1.tasks| == |s.tasks|
  }

  lemma CancellingStep(s: State, k: nat, a: Address)
    requires Inv(s) && MayServe(s) && s.accepting == Some(k) && InCancelling(s, k, a)
    ensures Enabled(s, Onward(s)) && !Onward(s).Down? && !Onward(s).Interrupted?
    ensures var s1 := Apply(s, Onward(s));
            && Inv(s1) && Distance(s1) < Distance(s) && SameServer(s, s1)
            && if Onward(s).Perform? then InCancelling(s1, k, a) else CancellingDone(s, s1, k, a)
  {
    OnwardMoves(s);
    StepKeeps(s, Onward(s));
    if Onward(s).Perform? {
      PerformAccepting(s, Onward(s).id, Onward(s).step);
    } else {
      JoiningOnward(s, k, s.loops[k].phase.existing);
    }
  }

  ghost predicate FinishesCancelling(s: State, acts: seq<Action>, k: nat, a: Address) {
    Valid(s, acts) && NoDown(acts) && |acts| <= Distance(s) && CancellingDone(s, Run(s, acts), k, a)
  }

  /** cancel_existing comes to its end, and the directory can then be created. */
  lemma {:induction false} FinishCancelling(s: State, k: nat, a: Address) returns (acts: seq<Action>)
    requires Inv(s) && MayServe(s) && s.accepting == Some(k) && InCancelling(s, k, a)
    ensures FinishesCancelling(s, acts, k, a)
    decreases Distance(s)
  {
    CancellingStep(s, k, a);
    var rest: seq<Action> := [];
    if Onward(s).Perform? {
      rest := FinishCancelling(Apply(s, Onward(s)), k, a);
    }
    FinishesEarlier(s, Onward(s), rest, k, a);
    acts := [Onward(s)] + rest;
  }

  lemma FinishesEarlier(s: State, first: Action, rest: seq<Action>, k: nat, a: Address)
    requires Enabled(s, first) && first != Down && first != Interrupted && Valid(Apply(s, first), rest) && NoDown(rest)
    requires Distance(Apply(s, first)) < Distance(s) && SameServer(s, Apply(s, first))
    requires |rest| <= Distance(Apply(s, first)) && CancellingDone(Apply(s, first), Run(Apply(s, first), rest), k, a)
    ensures FinishesCancelling(s, [first] + rest, k, a)
  {
    Prepend(s, first, rest);
  }

  /** Along `acts`, without a deregistration, a connection of peer `a` is spawned. */
  ghost predicate SpawnsFor(s: State, acts: seq<Action>, a: Address) {
    && Valid(s, acts) && NoDown(acts)
    && exists i: nat :: |s.tasks| <= i < |Run(s, acts).tasks| && Run(s, acts).tasks[i].address == a
  }

  lemma CreatesFor(s: State, k: nat, a: Address)
    requires Inv(s) && s.main == Serving && s.accepting == Some(k) && s.loops[k].phase == Creating(a)
    ensures SpawnsFor(s, [Create(k, true)] + [], a)
  {
    ReplacementNeverCollides(s, k);
    Prepend(s, Create(k, true), []);
    assert Run(s, [Create(k, true)] + []).tasks[|s.tasks|].address == a;
  }

  lemma AcceptedFor(s: State, k: nat, a: Address)
    requires Inv(s) && s.main == Serving && s.accepting == Some(k) && s.loops[k].phase == Accepting
    ensures Enabled(s, AcceptControl(k, a))
    ensures var s1 := AfterAcceptControl(s, k, a);
            && s1.main == Serving && s1.accepting == Some(k) && |s1.tasks| == |s.tasks|
            && (InCancelling(s1, k, a) || (k < |s1.loops| && s1.loops[k].phase == Creating(a)))
  {
    RunningLoop(s, k);
    assert Held(s) == s.connections;
    TakeExistingSpec(s.connections, FinishedIds(s), a);
    TakenFor(s, k, a);
  }

  lemma TakenFor(s: State, k: nat, a: Address)
    requires k < |s.loops| && s.accepting == Some(k) && MainHeld(s) == []
    requires var taken := TakeExisting(s.connections, FinishedIds(s), a);
             taken.existing.Some? ==> taken.existing.value.peerAddress == a
    ensures var s1 := AfterAcceptControl(s, k, a);
            && s1.main == s.main && s1.accepting == Some(k) && |s1.tasks| == |s.tasks|
            && (InCancelling(s1, k, a) || (k < |s1.loops| && s1.loops[k].phase == Creating(a)))
  {
    var taken := TakeExisting(s.connections, FinishedIds(s), a);
    TakingHeld(s, k, a, taken);
    TakingQuiet(s, k, a, taken);
  }

  lemma SpawnsAfter(s: State, acts: seq<Action>, rest: seq<Action>, a: Address)
    requires Valid(s, acts) && NoDown(acts) && |Run(s, acts).tasks| == |s.tasks| && SpawnsFor(Run(s, acts), rest, a)
    ensures SpawnsFor(s, acts + rest, a)
  {
    Append(s, acts, rest);
  }

  lemma SpawnsFromAccepting(s: State, k: nat, a: Address) returns (acts: seq<Action>)
    requires Inv(s) && s.main == Serving && s.accepting == Some(k) && s.loops[k].phase == Accepting
    ensures SpawnsFor(s, acts, a)
  {
    AcceptedFor(s, k, a);
    var accept := AcceptControl(k, a);
    var s1 := Apply(s, accept);
    StepKeeps(s, accept);
    var cancelling: seq<Action> := [];
    if s1.loops[k].phase.Cancelling? {
      cancelling := FinishCancelling(s1, k, a);
    }
    CreatesFor(Run(s1, cancelling), k, a);
    SpawnsAfter(s1, cancelling, [Create(k, true)] + [], a);
    Prepend(s, accept, []);
    SpawnsAfter(s, [accept] + [], cancelling + ([Create(k, true)] + []), a);
    acts := [accept] + [] + (cancelling + ([Create(k, true)] + []));
  }

  /** A registered server can still be reached, by any peer, if and only if its accept
      loop hears. Otherwise nothing but a deregistration helps. */
  lemma ReachableIffHearing(s: State, a: Address)
    requires Inv(s) && s.main == Serving && s.accepting.Some?
    ensures (exists acts: seq<Action> :: SpawnsFor(s, acts, a)) <==> Hearing(s)
  {
    if Hearing(s) {
      var back := ReachAccepting(s);
      var rest := SpawnsFromAccepting(Run(s, back), s.accepting.value, a);
      SpawnsAfter(s, back, rest, a);
    } else {
      forall acts: seq<Action> | Valid(s, acts) && NoDown(acts)
        ensures !SpawnsFor(s, acts, a)
      {
        DeafRun(s, acts);
      }
    }
  }
}
