/** What the invariant says about every run of the daemon. */
module LifecycleTheorems {
  import opened Common
  import opened FileTree
  import opened InfoFile
  import opened ConnectionSetup
  import opened AddressName
  import opened ConnectionList
  import opened Incarnation
  import opened Lifecycle
  import opened LifecycleInvariant
  import opened LifecycleSteps
  import opened LifecycleFrames
  import Event

  predicate Alive(s: State, k: nat) {
    k < |s.loops| && !s.loops[k].phase.Ended? && !s.loops[k].phase.Panicked?
  }

  // ---- the panics of the source are unreachable ---------------------------

  /** In every reachable state the list holds one entry per peer at most, no accept
      loop met the "impossible race", no unfinished CancelHandle was dropped, and no
      join handle was awaited twice. */
  lemma NoPanicEver(root: Path, base: Tree, acts: seq<Action>)
    requires CleanBase(root, base) && Valid(Initial(root, base), acts)
    ensures var s := Run(Initial(root, base), acts);
            && Distinct(s.connections)
            && s.badDrops == 0
            && (forall k: nat | k < |s.loops| :: !s.loops[k].phase.Panicked? && s.loops[k].joins <= 1)
            && (forall i: nat | i < |s.tasks| ::
                  s.tasks[i].controlJoins <= 1 && s.tasks[i].interruptJoins <= 1
                  && s.tasks[i].joins <= s.tasks[i].cancels <= 1)
  {
    InitialInv(root, base);
    RunKeeps(Initial(root, base), acts);
    var s := Run(Initial(root, base), acts);
    forall i, j | 0 <= i < j < |s.connections|
      ensures s.connections[i].peerAddress != s.connections[j].peerAddress
    {
      assert Held(s)[i] == s.connections[i] && Held(s)[j] == s.connections[j];
    }
    forall k: nat | k < |s.loops|
      ensures !s.loops[k].phase.Panicked? && s.loops[k].joins <= 1
    {
      assert LoopInv(s, k);
    }
    forall i: nat | i < |s.tasks|
      ensures s.tasks[i].controlJoins <= 1 && s.tasks[i].interruptJoins <= 1
      ensures s.tasks[i].joins <= s.tasks[i].cancels <= 1
    {
      assert LocalInv(s.tasks[i]) && CountsInv(s, i);
    }
  }

  /** The main task only ever crashes because `up` could not listen. */
  lemma {:induction false} CrashNeedsFailedListen(s: State, acts: seq<Action>)
    requires Inv(s) && Valid(s, acts) && s.main != Crashed && Run(s, acts).main == Crashed
    ensures exists n: nat :: n < |acts| && acts[n].Up? && !acts[n].listens
    decreases |acts|
  {
    CrashStep(s, acts[0]);
    StepKeeps(s, acts[0]);
    if Apply(s, acts[0]).main != Crashed {
      CrashNeedsFailedListen(Apply(s, acts[0]), acts[1..]);
      var n: nat :| n < |acts[1..]| && acts[1..][n].Up? && !acts[1..][n].listens;
      assert acts[n + 1] == acts[1..][n];
    }
  }

  lemma CrashStep(s: State, a: Action)
    requires LoopsInv(s) && Enabled(s, a)
    ensures Apply(s, a).main == Crashed <==> a.Up? && !a.listens && s.accepting.None?
  {
    match a
    case LoopJoined => LoopJoinedLoops(s);
    case Up(_, _) =>
    case _ => AcceptingKept(s, a);
  }

  // ---- accept loops -------------------------------------------------------

  /** At most one accept loop is alive, and it is the one the server knows of. */
  lemma OneAcceptLoop(s: State)
    requires Inv(s)
    ensures forall k: nat | Alive(s, k) :: s.accepting == Some(k)
    ensures forall j: nat, k: nat | Alive(s, j) && Alive(s, k) :: j == k
  {
    forall k: nat | Alive(s, k)
      ensures s.accepting == Some(k)
    {
      assert LoopInv(s, k);
    }
  }

  /** When `down` returns, the loop it stopped has ended, was joined exactly once, and
      a later `up` starts a new one. It makes no difference whether the loop had
      already ended by itself. */
  lemma DownThenUp(s: State, registration: RegistrationInfo)
    requires Inv(s) && Enabled(s, LoopJoined)
    ensures var s' := Apply(s, LoopJoined);
            && s'.accepting == None && (forall k: nat :: !Alive(s', k))
            && (forall k: nat | k < |s'.loops| :: s'.loops[k].joins == 1)
            && s'.main == (if s.main.stopping then Stopped else Serving)
            && (s'.main == Serving ==>
                  && Enabled(s', Up(registration, true))
                  && Alive(Apply(s', Up(registration, true)), |s'.loops|))
  {
    var s' := Apply(s, LoopJoined);
    StepKeeps(s, LoopJoined);
    LoopJoinedKeeps(s);
    forall k: nat | k < |s'.loops|
      ensures !Alive(s', k) && s'.loops[k].joins == 1
    {
      assert LoopInv(s', k);
    }
  }

  predicate NoDown(acts: seq<Action>) {
    forall a | a in acts :: a != Down && a != Interrupted
  }

  /** A loop that ended by itself, for instance after a failed interrupt hand-off,
      keeps the server registered but deaf: until the next `down` no action spawns a
      connection or another loop, registering again included. */
  lemma {:induction false} EndedLoopStaysDeaf(s: State, acts: seq<Action>)
    requires Inv(s) && Valid(s, acts) && NoDown(acts)
    requires s.main == Serving && s.accepting.Some? && s.loops[s.accepting.value].phase == Ended
    ensures var s' := Run(s, acts);
            s'.accepting == s.accepting && |s'.tasks| == |s.tasks| && s'.loops == s.loops && s'.main == Serving
    decreases |acts|
  {
    if acts != [] {
      var a := acts[0];
      assert a in acts;
      DeafStep(s, a);
      StepKeeps(s, a);
      assert forall b | b in acts[1..] :: b in acts;
      EndedLoopStaysDeaf(Apply(s, a), acts[1..]);
    }
  }

  lemma DeafStep(s: State, a: Action)
    requires Inv(s) && Enabled(s, a) && a != Down && a != Interrupted
    requires s.main == Serving && s.accepting.Some? && s.loops[s.accepting.value].phase == Ended
    ensures var s' := Apply(s, a);
            s'.accepting == s.accepting && |s'.tasks| == |s.tasks| && s'.loops == s.loops && s'.main == Serving
  {
    AllEnded(s);
    if IsLoopAction(a) {
      EndedLoopsRest(s, a);
    } else if a.Perform? {
      PerformAccepting(s, a.id, a.step);
    }
  }

  lemma AllEnded(s: State)
    requires LoopsInv(s) && s.accepting.Some? && s.loops[s.accepting.value].phase == Ended
    ensures forall k: nat | k < |s.loops| :: s.loops[k].phase == Ended
  {
    forall k: nat | k < |s.loops|
      ensures s.loops[k].phase == Ended
    {
      assert LoopInv(s, k);
    }
  }

  lemma EndedLoopsRest(s: State, a: Action)
    requires IsLoopAction(a) && forall k: nat | k < |s.loops| :: s.loops[k].phase == Ended
    ensures !Enabled(s, a)
  {
  }

  // ---- ownership and the file system --------------------------------------

  /** A running incarnation always has an owner, so neither recv() of its wrapper nor
      of its interrupt handler ever returns None. */
  lemma SendersNeverGone(s: State, id: nat)
    requires OwnershipInv(s) && TasksInv(s) && id < |s.tasks|
    ensures !MayPerform(s, id, InterruptSendersGone)
    ensures MayPerform(s, id, SelectCancel) ==> s.tasks[id].cancels == 1
  {
    RunningIsHeld(s, id);
  }

  lemma RunningIsHeld(s: State, id: nat)
    requires OwnershipInv(s) && TasksInv(s) && id < |s.tasks|
    ensures s.tasks[id].wrapper != Finished ==> Self(s, id) in Held(s)
    ensures s.tasks[id].interrupt != InterruptFinished ==> s.tasks[id].wrapper != Finished
    ensures s.tasks[id].cancels <= 1
  {
    assert LocalInv(s.tasks[id]) && CountsInv(s, id);
    assert IsFinished(s, id) || Self(s, id) in Held(s);
  }

  /** When handle_connection is called, nothing of an earlier incarnation of the peer
      is left, so create_dir finds the place free. */
  lemma ReplacementNeverCollides(s: State, k: nat)
    requires Inv(s) && k < |s.loops| && s.loops[k].phase.Creating?
    ensures var dir := ConnectionDirectory(s.root, s.loops[k].phase.address);
            && CanCreate(s.tree, dir)
            && forall p | Under(p, dir) :: p !in s.tree
  {
    var address := s.loops[k].phase.address;
    var dir := ConnectionDirectory(s.root, address);
    RunningLoop(s, k);
    NoLivePeer(s, address);
    forall p | Under(p, dir)
      ensures p !in s.tree
    {
      NothingLeftBelow(s, address, p);
    }
    assert dir[..|dir| - 1] == s.root;
    assert At(s.tree, s.root) == At(s.base, s.root);
    assert s.root in s.base;
  }

  /** A finished incarnation has removed everything it created, unless a newer one of
      the same peer is using the directory again. */
  lemma FinishedLeavesNothing(s: State, i: nat, p: Path)
    requires Inv(s) && i < |s.tasks|
    requires forall j: nat | j < |s.tasks| && s.tasks[j].address == s.tasks[i].address :: IsFinished(s, j)
    requires Under(p, DirectoryOf(s, i))
    ensures p !in s.tree
  {
    NothingLeftBelow(s, s.tasks[i].address, p);
  }

  /** Once every incarnation has finished, the file system is exactly the one the
      daemon started from. */
  lemma TreeRestored(s: State)
    requires Inv(s) && forall i: nat | i < |s.tasks| :: IsFinished(s, i)
    ensures s.tree == s.base
  {
    forall p
      ensures At(s.tree, p) == At(s.base, p)
    {
      assert p in s.tree && p !in s.base ==> Covered(s, p);
    }
    SameTree(s.tree, s.base);
  }

  /** The tree stays well formed, as handle_connection expects of it. */
  lemma TreeStaysWellFormed(s: State)
    requires Inv(s)
    ensures WellFormed(s.tree)
  {
    forall p | p in s.tree && p != []
      ensures ParentIsDirectory(s.tree, p)
    {
      var up := p[..|p| - 1];
      if p in s.base {
        assert ParentIsDirectory(s.base, p);
        assert At(s.tree, up) == At(s.base, up);
      } else {
        assert Covered(s, p);
        var i: nat :| i < |s.tasks| && !IsFinished(s, i) && Under(p, DirectoryOf(s, i));
        OwnedParent(s, i, p);
      }
    }
  }

  lemma OwnedParent(s: State, i: nat, p: Path)
    requires Inv(s) && i < |s.tasks| && !IsFinished(s, i) && p in s.tree && Under(p, DirectoryOf(s, i))
    ensures ParentIsDirectory(s.tree, p)
  {
    var dir := DirectoryOf(s, i);
    assert Holds(s.tree, dir, s.tasks[i]);
    assert At(s.tree, p) == Owned(dir, s.tasks[i], p);
    if p == dir {
      assert p[..|p| - 1] == s.root;
      assert s.root in s.base && At(s.tree, s.root) == At(s.base, s.root);
    } else {
      assert p[..|p| - 1] == dir;
      assert At(s.tree, dir) == Owned(dir, s.tasks[i], dir);
    }
  }

  // ---- the interrupt channel and the ready file ---------------------------

  /** Every InterruptListening event is sent while the ready file says "1". */
  lemma ReadyWhenAnnounced(s: State, id: nat, step: TaskStep)
    requires Inv(s) && Enabled(s, Perform(id, step))
    requires Emits(s.tasks[id], step) == Some(Event.InterruptListening(s.tasks[id].address))
    ensures At(Apply(s, Perform(id, step)).tree, DirectoryOf(s, id) + [Ready]) == Some(File(ONE))
  {
    var s' := Apply(s, Perform(id, step));
    StepKeeps(s, Perform(id, step));
    assert LocalInv(s.tasks[id]);
    DoKeepsIdentity(s.tasks[id], step, Self(s, id) in Held(s));
    RunningStep(s.tasks[id], step, Self(s, id) in Held(s));
    assert s'.tasks[id].interrupt == InterruptPiping && !IsFinished(s', id);
    ReadyContents(s', id);
  }

  /** While the interrupt handler runs, the ready file says whether it has started. */
  lemma ReadyContents(s: State, id: nat)
    requires Inv(s) && id < |s.tasks| && s.tasks[id].interrupt != InterruptFinished && !IsFinished(s, id)
    ensures At(s.tree, DirectoryOf(s, id) + [Ready])
         == Some(File(if s.tasks[id].interrupt == InterruptPiping then ONE else ZERO))
  {
    var dir := DirectoryOf(s, id);
    assert Holds(s.tree, dir, s.tasks[id]);
    assert Under(dir + [Ready], dir) && (dir + [Ready])[|dir|] == Ready;
  }

  predicate Announced(s: State, id: nat) {
    id < |s.tasks| && (s.tasks[id].interrupt == InterruptPiping || s.tasks[id].interrupt == InterruptFinished)
  }

  /** What an action can do to the interrupt side of one incarnation. */
  ghost predicate InterruptMovesOn(t: Task, t': Task) {
    && t'.address == t.address
    && (t.interrupt == InterruptPiping || t.interrupt == InterruptFinished ==>
          t'.interrupt == InterruptPiping || t'.interrupt == InterruptFinished)
    && (t.used.Some? ==> t'.used == t.used)
    && t.offered <= t'.offered
  }

  lemma DoMovesOn(t: Task, step: TaskStep, held: bool)
    requires LocalInv(t) && Can(t, step, held)
    ensures InterruptMovesOn(t, Do(t, step, held))
  {
    if IsHandlerStep(step) {
      HandlerMovesOn(t, step, held);
    } else {
      WrapperMovesOn(t, step, held);
    }
  }

  lemma HandlerMovesOn(t: Task, step: TaskStep, held: bool)
    requires LocalInv(t) && Can(t, step, held) && IsHandlerStep(step)
    ensures InterruptMovesOn(t, Do(t, step, held))
  {
  }

  lemma WrapperMovesOn(t: Task, step: TaskStep, held: bool)
    requires Can(t, step, held) && !IsHandlerStep(step)
    ensures InterruptMovesOn(t, Do(t, step, held))
  {
  }

  lemma InterruptStep(s: State, a: Action, id: nat)
    requires Inv(s) && Enabled(s, a) && id < |s.tasks|
    ensures id < |Apply(s, a).tasks| && InterruptMovesOn(s.tasks[id], Apply(s, a).tasks[id])
  {
    if a.Perform? {
      assert LocalInv(s.tasks[a.id]);
      DoMovesOn(s.tasks[a.id], a.step, Self(s, a.id) in Held(s));
    } else if IsLoopAction(a) {
      LoopActionFrame(s, a);
      assert Undisturbed(s.tasks[id], Apply(s, a).tasks[id]);
    } else {
      MainActionFrame(s, a);
      assert Undisturbed(s.tasks[id], Apply(s, a).tasks[id]);
    }
  }

  /** The ready file goes from "0" to "1" at most once and never back: it says "1"
      until it is removed. The handler uses one socket only, the first one queued. */
  lemma ReadyNeverBack(s: State, acts: seq<Action>, id: nat)
    requires Inv(s) && Valid(s, acts) && id < |s.tasks|
    ensures var s' := Run(s, acts);
            && id < |s'.tasks|
            && s.tasks[id].offered <= s'.tasks[id].offered
            && (s.tasks[id].used.Some? ==>
                  && s'.tasks[id].used == s.tasks[id].used
                  && |s'.tasks[id].offered| > 0 && s'.tasks[id].used == Some(s'.tasks[id].offered[0]))
            && (Announced(s, id) && s'.tasks[id].interrupt != InterruptFinished && !IsFinished(s', id) ==>
                  At(s'.tree, DirectoryOf(s', id) + [Ready]) == Some(File(ONE)))
  {
    var s' := Run(s, acts);
    InterruptRun(s, acts, id);
    RunKeeps(s, acts);
    assert LocalInv(s'.tasks[id]);
    if s'.tasks[id].interrupt != InterruptFinished && !IsFinished(s', id) {
      ReadyContents(s', id);
    }
  }

  lemma {:induction false} InterruptRun(s: State, acts: seq<Action>, id: nat)
    requires Inv(s) && Valid(s, acts) && id < |s.tasks|
    ensures id < |Run(s, acts).tasks| && InterruptMovesOn(s.tasks[id], Run(s, acts).tasks[id])
    decreases |acts|
  {
    if acts != [] {
      InterruptStep(s, acts[0], id);
      StepKeeps(s, acts[0]);
      InterruptRun(Apply(s, acts[0]), acts[1..], id);
    }
  }

  // ---- shutdown -----------------------------------------------------------

  /** When main returns: no accept loop, an empty list, every incarnation finished,
      each one cancelled at most once and joined as often as cancelled, and the file
      system as it was found. */
  lemma CleanExit(s: State)
    requires Inv(s) && s.main == Exited
    ensures s.accepting == None && s.connections == [] && (forall k: nat :: !Alive(s, k))
    ensures forall i: nat | i < |s.tasks| :: IsFinished(s, i) && s.tasks[i].joins == s.tasks[i].cancels <= 1
    ensures s.tree == s.base
  {
    OneAcceptLoop(s);
    assert Held(s) == [];
    forall i: nat | i < |s.tasks|
      ensures IsFinished(s, i) && s.tasks[i].joins == s.tasks[i].cancels <= 1
    {
      assert CountsInv(s, i);
    }
    TreeRestored(s);
  }
}
