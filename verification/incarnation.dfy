/** One incarnation of a connection (src/connection.rs): the wrapper task spawned by
    handle_connection together with its control and interrupt handler tasks. A step
    is the code between two await points, or less. */
module Incarnation {
  import opened Common
  import opened FileTree
  import opened InfoFile
  import opened ConnectionSetup
  import Event

  /** A remote interrupt socket, by number. */
  type Link = nat

  datatype ControlPhase = ControlSpawned | ControlAwaiting | ControlPiping | ControlFinished

  /** Waiting: nothing received. Taken: the first socket received, the channel still
      open. Received: the channel closed, the ready file not yet rewritten. */
  datatype InterruptPhase =
    | InterruptWaiting | InterruptTaken | InterruptReceived | InterruptPiping | InterruptFinished

  datatype WrapperPhase =
    | Selecting | Notifying
    | ReapingInterrupt | AwaitingInterrupt
    | ReapingControl | AwaitingControl
    | DroppingInfo | DroppingDirectory | Finished

  datatype Task = Task(
    address: Address,
    info: RegistrationInfo,
    control: ControlPhase,
    controlAborted: bool,
    interrupt: InterruptPhase,
    interruptAborted: bool,
    wrapper: WrapperPhase,
    controlAwaited: bool,
    interruptAwaited: bool,
    controlJoins: nat,      // how often the control join handle was awaited to its end
    interruptJoins: nat,
    cancels: nat,           // messages sent on the cancel channel
    joins: nat,             // how often the owner awaited the wrapper's join handle
    slot: seq<Link>,        // contents of the interrupt channel
    offered: seq<Link>,     // everything ever sent on it
    used: Option<Link>)

  /** The state right after the spawns. */
  function Spawned(address: Address, info: RegistrationInfo): Task {
    Task(address, info, ControlSpawned, false, InterruptWaiting, false, Selecting, false, false,
         0, 0, 0, 0, [], [], None)
  }

  datatype TaskStep =
    | ControlListen                   // first ControlListening event
    | ControlAccept                   // a local peer connected
    | ControlRestart                  // the local peer failed: listen again
    | ControlEnd                      // accept error, or the remote peer failed
    | ControlAbort                    // the abort takes effect
    | InterruptReceive
    | InterruptClose                  // the receiver is dropped
    | InterruptStart(written: bool)   // rewrite the ready file, then announce
    | InterruptRestart
    | InterruptEnd
    | InterruptSendersGone            // recv() returned None
    | InterruptAbort
    | SelectControl
    | SelectInterrupt
    | SelectCancel
    | Notify
    | ReapInterrupt
    | JoinInterrupt
    | ReapControl
    | JoinControl
    | DropInfo
    | DropConnectionDirectory

  function Rank(w: WrapperPhase): nat {
    match w
    case Selecting => 0
    case Notifying => 1
    case ReapingInterrupt => 2
    case AwaitingInterrupt => 3
    case ReapingControl => 4
    case AwaitingControl => 5
    case DroppingInfo => 6
    case DroppingDirectory => 7
    case Finished => 8
  }

  predicate ChannelOpen(t: Task) {
    t.interrupt == InterruptWaiting || t.interrupt == InterruptTaken
  }

  /** Whether a step may happen. `held` says that the CancelHandle and the interrupt
      sender of this incarnation are still owned by somebody. */
  predicate Can(t: Task, step: TaskStep, held: bool) {
    match step
    case ControlListen => t.control == ControlSpawned
    case ControlAccept => t.control == ControlAwaiting
    case ControlRestart => t.control == ControlPiping
    case ControlEnd => t.control == ControlAwaiting || t.control == ControlPiping
    case ControlAbort => t.controlAborted && t.control != ControlFinished
    case InterruptReceive => t.interrupt == InterruptWaiting && |t.slot| > 0
    case InterruptClose => t.interrupt == InterruptTaken
    case InterruptStart(_) => t.interrupt == InterruptReceived
    case InterruptRestart => t.interrupt == InterruptPiping
    case InterruptEnd => t.interrupt == InterruptPiping
    case InterruptSendersGone => t.interrupt == InterruptWaiting && t.slot == [] && !held
    case InterruptAbort => t.interruptAborted && t.interrupt != InterruptFinished
    case SelectControl => t.wrapper == Selecting && t.control == ControlFinished
    case SelectInterrupt => t.wrapper == Selecting && t.interrupt == InterruptFinished
    case SelectCancel => t.wrapper == Selecting && (t.cancels > 0 || !held)
    case Notify => t.wrapper == Notifying
    case ReapInterrupt => t.wrapper == ReapingInterrupt
    case JoinInterrupt => t.wrapper == AwaitingInterrupt && t.interrupt == InterruptFinished
    case ReapControl => t.wrapper == ReapingControl
    case JoinControl => t.wrapper == AwaitingControl && t.control == ControlFinished
    case DropInfo => t.wrapper == DroppingInfo
    case DropConnectionDirectory => t.wrapper == DroppingDirectory
  }

  function Do(t: Task, step: TaskStep, held: bool): Task
    requires Can(t, step, held)
  {
    match step
    case ControlListen => t.(control := ControlAwaiting)
    case ControlAccept => t.(control := ControlPiping)
    case ControlRestart => t.(control := ControlAwaiting)
    case ControlEnd => t.(control := ControlFinished)
    case ControlAbort => t.(control := ControlFinished)
    case InterruptReceive => t.(interrupt := InterruptTaken, slot := t.slot[1..], used := Some(t.slot[0]))
    case InterruptClose => t.(interrupt := InterruptReceived)
    case InterruptStart(written) => t.(interrupt := if written then InterruptPiping else InterruptFinished)
    case InterruptRestart => t
    case InterruptEnd => t.(interrupt := InterruptFinished)
    case InterruptSendersGone => t.(interrupt := InterruptFinished)
    case InterruptAbort => t.(interrupt := InterruptFinished)
    case SelectControl => t.(wrapper := Notifying, controlAwaited := true, controlJoins := t.controlJoins + 1)
    case SelectInterrupt => t.(wrapper := Notifying, interruptAwaited := true, interruptJoins := t.interruptJoins + 1)
    case SelectCancel => t.(wrapper := Notifying)
    case Notify => t.(wrapper := ReapingInterrupt)
    case ReapInterrupt =>
      if t.interruptAwaited then t.(wrapper := ReapingControl)
      else t.(wrapper := AwaitingInterrupt, interruptAborted := true)
    case JoinInterrupt => t.(wrapper := ReapingControl, interruptJoins := t.interruptJoins + 1)
    case ReapControl =>
      if t.controlAwaited then t.(wrapper := DroppingInfo)
      else t.(wrapper := AwaitingControl, controlAborted := true)
    case JoinControl => t.(wrapper := DroppingInfo, controlJoins := t.controlJoins + 1)
    case DropInfo => t.(wrapper := DroppingDirectory)
    case DropConnectionDirectory => t.(wrapper := Finished)
  }

  /** Several steps of one incarnation, one after the other. */
  predicate CanAll(t: Task, steps: seq<TaskStep>, held: bool)
    decreases |steps|
  {
    steps == [] || (Can(t, steps[0], held) && CanAll(Do(t, steps[0], held), steps[1..], held))
  }

  function DoAll(t: Task, steps: seq<TaskStep>, held: bool): Task
    requires CanAll(t, steps, held)
    decreases |steps|
  {
    if steps == [] then t else DoAll(Do(t, steps[0], held), steps[1..], held)
  }

  /** The events they send. */
  function EmittedBy(t: Task, steps: seq<TaskStep>, held: bool): seq<Event.ServerEvent>
    requires CanAll(t, steps, held)
    decreases |steps|
  {
    if steps == [] then []
    else
      (if Emits(t, steps[0]).Some? then [Emits(t, steps[0]).value] else [])
      + EmittedBy(Do(t, steps[0], held), steps[1..], held)
  }

  function Emits(t: Task, step: TaskStep): Option<Event.ServerEvent> {
    match step
    case ControlListen => Some(Event.ControlListening(t.address))
    case ControlRestart => Some(Event.ControlListening(t.address))
    case InterruptStart(written) => if written then Some(Event.InterruptListening(t.address)) else None
    case InterruptRestart => Some(Event.InterruptListening(t.address))
    case Notify => Some(Event.Disconnected(t.address))
    case _ => None
  }

  function RemoveInterruptFiles(tree: Tree, dir: Path): Tree {
    RemoveFile(RemoveFile(tree, dir + [Ready]), dir + [Interrupt])
  }

  /** What a step does to the file system: an ending handler drops its sockets (and
      the ready file), the wrapper drops the info files and then the directory. */
  function Touch(tree: Tree, dir: Path, t: Task, step: TaskStep): Tree {
    match step
    case ControlEnd => RemoveFile(tree, dir + [Control])
    case ControlAbort => RemoveFile(tree, dir + [Control])
    case InterruptStart(written) =>
      if !written then RemoveInterruptFiles(tree, dir)
      else if CanWrite(tree, dir + [Ready]) then tree[dir + [Ready] := File(ONE)]
      else tree
    case InterruptEnd => RemoveInterruptFiles(tree, dir)
    case InterruptSendersGone => RemoveInterruptFiles(tree, dir)
    case InterruptAbort => RemoveInterruptFiles(tree, dir)
    case DropInfo => RemoveAll(tree, EntryPaths(dir, InfoPlan(t.info)))
    case DropConnectionDirectory => RemoveDir(tree, dir)
    case _ => tree
  }

  /** What holds of every incarnation by itself, whatever the rest of the daemon does. */
  ghost predicate LocalInv(t: Task) {
    var r := Rank(t.wrapper);
    && !(t.controlAwaited && t.interruptAwaited)
    && (t.controlAwaited || t.interruptAwaited ==> r >= 1)
    && t.controlJoins == (if t.controlAwaited || r >= 6 then 1 else 0)
    && t.interruptJoins == (if t.interruptAwaited || r >= 4 then 1 else 0)
    && (t.controlJoins == 1 ==> t.control == ControlFinished)
    && (t.interruptJoins == 1 ==> t.interrupt == InterruptFinished)
    && (t.controlAborted ==> !t.controlAwaited && r >= 5)
    && (t.interruptAborted ==> !t.interruptAwaited && r >= 3)
    && (r == 3 ==> t.interruptAborted) && (r == 5 ==> t.controlAborted)
    && ChannelInv(t)
  }

  /** The interrupt channel holds one socket, and only the first one is ever used. */
  ghost predicate ChannelInv(t: Task) {
    && |t.slot| <= 1
    && (t.interrupt == InterruptWaiting ==> t.used == None && t.offered == t.slot)
    && (t.interrupt == InterruptTaken ==> t.used.Some? && t.offered == [t.used.value] + t.slot)
    && (t.interrupt == InterruptReceived || t.interrupt == InterruptPiping ==> t.used.Some?)
    && (t.used.Some? ==> |t.offered| > 0 && t.used.value == t.offered[0])
  }

  lemma SpawnedLocal(address: Address, info: RegistrationInfo)
    ensures LocalInv(Spawned(address, info))
  {
  }

  predicate IsHandlerStep(step: TaskStep) {
    step.ControlListen? || step.ControlAccept? || step.ControlRestart? || step.ControlEnd? || step.ControlAbort?
    || step.InterruptReceive? || step.InterruptClose? || step.InterruptStart? || step.InterruptRestart?
    || step.InterruptEnd? || step.InterruptSendersGone? || step.InterruptAbort?
  }

  lemma DoKeepsLocal(t: Task, step: TaskStep, held: bool)
    requires LocalInv(t) && Can(t, step, held)
    ensures LocalInv(Do(t, step, held))
  {
    if IsHandlerStep(step) {
      HandlerKeepsLocal(t, step, held);
    } else {
      WrapperKeepsLocal(t, step, held);
    }
  }

  lemma HandlerKeepsLocal(t: Task, step: TaskStep, held: bool)
    requires LocalInv(t) && Can(t, step, held) && IsHandlerStep(step)
    ensures LocalInv(Do(t, step, held))
  {
    if step == InterruptReceive {
      assert t.slot == [t.slot[0]] + t.slot[1..];
    }
  }

  lemma WrapperKeepsLocal(t: Task, step: TaskStep, held: bool)
    requires LocalInv(t) && Can(t, step, held) && !IsHandlerStep(step)
    ensures LocalInv(Do(t, step, held))
  {
  }

  /** The entry of one path below the connection directory that this incarnation owns. */
  function Owned(dir: Path, t: Task, p: Path): Option<Node> {
    if p == dir then
      if t.wrapper == Finished then None else Some(Directory)
    else if Under(p, dir) && |p| == |dir| + 1 then
      match p[|dir|]
      case Ready =>
        if t.interrupt == InterruptFinished then None
        else Some(File(if t.interrupt == InterruptPiping then ONE else ZERO))
      case Interrupt => if t.interrupt == InterruptFinished then None else Some(Socket)
      case Control => if t.control == ControlFinished then None else Some(Socket)
      case name =>
        if Rank(t.wrapper) <= 6 && Latest(InfoPlan(t.info), name).Some?
        then Some(File(Latest(InfoPlan(t.info), name).value)) else None
    else None
  }

  /** Below `dir` the tree holds exactly what the incarnation owns. */
  ghost predicate Holds(tree: Tree, dir: Path, t: Task) {
    forall p | Under(p, dir) :: At(tree, p) == Owned(dir, t, p)
  }

  /** A fresh connection directory holds what its incarnation starts out owning. */
  lemma SpawnedHolds(tree: Tree, dir: Path, address: Address, info: RegistrationInfo)
    requires forall p | Under(p, dir) :: p !in tree
    ensures Holds(OpenedTree(tree, dir, info), dir, Spawned(address, info))
    ensures forall p | !Under(p, dir) :: At(OpenedTree(tree, dir, info), p) == At(tree, p)
  {
    forall p
      ensures Under(p, dir) ==> At(OpenedTree(tree, dir, info), p) == Owned(dir, Spawned(address, info), p)
      ensures !Under(p, dir) ==> At(OpenedTree(tree, dir, info), p) == At(tree, p)
    {
      OpenedAt(tree, dir, info, p);
      if Under(p, dir) {
        assert |p| == |dir| ==> p == dir;
      }
    }
  }

  /** Agreement is a matter of the direct children when the directory itself stays. */
  lemma ChildrenHold(tree: Tree, dir: Path, t: Task, tree': Tree, t': Task)
    requires Holds(tree, dir, t)
    requires t'.wrapper != Finished && t.wrapper != Finished
    requires forall name :: At(tree', dir + [name]) == Owned(dir, t', dir + [name])
    requires forall p | |p| != |dir| + 1 :: At(tree', p) == At(tree, p)
    ensures Holds(tree', dir, t')
  {
    forall p | Under(p, dir)
      ensures At(tree', p) == Owned(dir, t', p)
    {
      if |p| == |dir| + 1 {
        assert p == dir + [p[|dir|]];
      } else if |p| == |dir| {
        assert p == dir;
      }
    }
  }

  lemma ChildBefore(tree: Tree, dir: Path, t: Task, name: FileName)
    requires Holds(tree, dir, t)
    ensures At(tree, dir + [name]) == Owned(dir, t, dir + [name])
    ensures (dir + [name])[..|dir|] == dir && (dir + [name])[|dir|] == name
  {
    assert Under(dir + [name], dir);
  }

  lemma EndControlHolds(tree: Tree, dir: Path, t: Task)
    requires LocalInv(t) && t.control != ControlFinished && Holds(tree, dir, t)
    ensures Holds(RemoveFile(tree, dir + [Control]), dir, t.(control := ControlFinished))
  {
    var tree', t' := RemoveFile(tree, dir + [Control]), t.(control := ControlFinished);
    forall name
      ensures At(tree', dir + [name]) == Owned(dir, t', dir + [name])
    {
      ChildBefore(tree, dir, t, name);
      ChildBefore(tree, dir, t, Control);
    }
    ChildrenHold(tree, dir, t, tree', t');
  }

  lemma InterruptFilesGone(tree: Tree, dir: Path)
    requires At(tree, dir + [Ready]) != Some(Directory) && At(tree, dir + [Interrupt]) != Some(Directory)
    ensures forall p :: At(RemoveInterruptFiles(tree, dir), p)
                        == if p == dir + [Ready] || p == dir + [Interrupt] then None else At(tree, p)
  {
  }

  lemma EndInterruptHolds(tree: Tree, dir: Path, t: Task)
    requires LocalInv(t) && t.interrupt != InterruptFinished && Holds(tree, dir, t)
    ensures Holds(RemoveInterruptFiles(tree, dir), dir, t.(interrupt := InterruptFinished))
  {
    var tree', t' := RemoveInterruptFiles(tree, dir), t.(interrupt := InterruptFinished);
    ChildBefore(tree, dir, t, Ready);
    ChildBefore(tree, dir, t, Interrupt);
    InterruptFilesGone(tree, dir);
    forall name
      ensures At(tree', dir + [name]) == Owned(dir, t', dir + [name])
    {
      ChildBefore(tree, dir, t, name);
    }
    ChildrenHold(tree, dir, t, tree', t');
  }

  lemma StartInterruptHolds(tree: Tree, dir: Path, t: Task)
    requires LocalInv(t) && t.interrupt == InterruptReceived && Holds(tree, dir, t)
    ensures CanWrite(tree, dir + [Ready])
    ensures Holds(tree[dir + [Ready] := File(ONE)], dir, t.(interrupt := InterruptPiping))
  {
    var tree', t' := tree[dir + [Ready] := File(ONE)], t.(interrupt := InterruptPiping);
    assert At(tree, dir) == Owned(dir, t, dir) == Some(Directory);
    ChildBefore(tree, dir, t, Ready);
    forall name
      ensures At(tree', dir + [name]) == Owned(dir, t', dir + [name])
    {
      ChildBefore(tree, dir, t, name);
    }
    ChildrenHold(tree, dir, t, tree', t');
  }

  lemma SameOwnership(tree: Tree, dir: Path, t: Task, t': Task)
    requires Holds(tree, dir, t)
    requires t'.info == t.info
    requires (t'.control == ControlFinished) == (t.control == ControlFinished)
    requires (t'.interrupt == InterruptFinished) == (t.interrupt == InterruptFinished)
    requires (t'.interrupt == InterruptPiping) == (t.interrupt == InterruptPiping)
    requires t'.wrapper != Finished && t.wrapper != Finished
    requires (Rank(t'.wrapper) <= 6) == (Rank(t.wrapper) <= 6)
    ensures Holds(tree, dir, t')
  {
    forall p
      ensures Owned(dir, t', p) == Owned(dir, t, p)
    {
    }
  }

  /** The steps that write or remove something. */
  predicate IsFileStep(step: TaskStep) {
    step.ControlEnd? || step.ControlAbort? || step.InterruptStart? || step.InterruptEnd?
    || step.InterruptSendersGone? || step.InterruptAbort? || step.DropInfo? || step.DropConnectionDirectory?
  }

  /** A step keeps the tree below its own directory in agreement with ownership. */
  lemma TouchHolds(tree: Tree, dir: Path, t: Task, step: TaskStep, held: bool)
    requires LocalInv(t) && Can(t, step, held) && Holds(tree, dir, t)
    ensures Holds(Touch(tree, dir, t, step), dir, Do(t, step, held))
  {
    if IsFileStep(step) {
      FileStepHolds(tree, dir, t, step, held);
    } else {
      OwnershipUnchanged(t, step, held);
      SameOwnership(tree, dir, t, Do(t, step, held));
    }
  }

  lemma OwnershipUnchanged(t: Task, step: TaskStep, held: bool)
    requires LocalInv(t) && Can(t, step, held) && !IsFileStep(step)
    ensures var t' := Do(t, step, held);
            && t'.info == t.info
            && (t'.control == ControlFinished) == (t.control == ControlFinished)
            && (t'.interrupt == InterruptFinished) == (t.interrupt == InterruptFinished)
            && (t'.interrupt == InterruptPiping) == (t.interrupt == InterruptPiping)
            && t'.wrapper != Finished && t.wrapper != Finished
            && (Rank(t'.wrapper) <= 6) == (Rank(t.wrapper) <= 6)
  {
  }

  lemma FileStepHolds(tree: Tree, dir: Path, t: Task, step: TaskStep, held: bool)
    requires LocalInv(t) && Can(t, step, held) && Holds(tree, dir, t) && IsFileStep(step)
    ensures Holds(Touch(tree, dir, t, step), dir, Do(t, step, held))
  {
    match step
    case ControlEnd => EndControlHolds(tree, dir, t);
    case ControlAbort => EndControlHolds(tree, dir, t);
    case InterruptStart(written) =>
      StartInterruptHolds(tree, dir, t);
      EndInterruptHolds(tree, dir, t);
    case InterruptEnd => EndInterruptHolds(tree, dir, t);
    case InterruptSendersGone => EndInterruptHolds(tree, dir, t);
    case InterruptAbort => EndInterruptHolds(tree, dir, t);
    case DropInfo => DropInfoHolds(tree, dir, t);
    case DropConnectionDirectory => DropDirectoryHolds(tree, dir, t);
  }

  /** A step leaves every path outside its own directory alone. */
  lemma TouchIsLocal(tree: Tree, dir: Path, t: Task, step: TaskStep, p: Path)
    requires !Under(p, dir)
    ensures At(Touch(tree, dir, t, step), p) == At(tree, p)
  {
    assert Under(dir + [Ready], dir) && Under(dir + [Interrupt], dir) && Under(dir + [Control], dir);
    if step == DropInfo {
      RemoveAllAt(tree, EntryPaths(dir, InfoPlan(t.info)), p);
      WriteEntriesAt(tree, dir, InfoPlan(t.info), p);
    }
  }

  lemma DropInfoHolds(tree: Tree, dir: Path, t: Task)
    requires LocalInv(t) && t.wrapper == DroppingInfo && Holds(tree, dir, t)
    ensures Holds(Touch(tree, dir, t, DropInfo), dir, t.(wrapper := DroppingDirectory))
  {
    EndpointNames(t.info, Ready);
    EndpointNames(t.info, Control);
    EndpointNames(t.info, Interrupt);
    forall p | Under(p, dir)
      ensures At(Touch(tree, dir, t, DropInfo), p) == Owned(dir, t.(wrapper := DroppingDirectory), p)
    {
      DropInfoAt(tree, dir, t, p);
    }
  }

  lemma DropInfoAt(tree: Tree, dir: Path, t: Task, p: Path)
    requires t.wrapper == DroppingInfo && Under(p, dir) && At(tree, p) == Owned(dir, t, p)
    requires forall name | name == Ready || name == Control || name == Interrupt :: Latest(InfoPlan(t.info), name).None?
    ensures At(Touch(tree, dir, t, DropInfo), p) == Owned(dir, t.(wrapper := DroppingDirectory), p)
  {
    RemoveAllAt(tree, EntryPaths(dir, InfoPlan(t.info)), p);
    WriteEntriesAt(tree, dir, InfoPlan(t.info), p);
  }

  lemma DropDirectoryHolds(tree: Tree, dir: Path, t: Task)
    requires LocalInv(t) && t.wrapper == DroppingDirectory && Holds(tree, dir, t)
    ensures Holds(Touch(tree, dir, t, DropConnectionDirectory), dir, t.(wrapper := Finished))
  {
    assert At(tree, dir) == Owned(dir, t, dir) == Some(Directory);
    forall p | p in tree && Under(p, dir)
      ensures p == dir
    {
      assert At(tree, p) == Owned(dir, t, p);
    }
    assert Empty(tree, dir);
  }
}
