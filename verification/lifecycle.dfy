/** The concurrent lifecycle of src/connection.rs as a transition system: accept
    loops, connection tasks and the main task, over the shared connection list, the
    file system and the log of broadcast events. */
module Lifecycle {
  import opened Common
  import opened FileTree
  import opened InfoFile
  import opened ConnectionSetup
  import opened AddressName
  import opened ConnectionList
  import opened Incarnation
  import Event

  datatype LogEntry = LogEntry(id: nat, event: Event.ServerEvent)

  /** Where an accept loop is suspended, with the handles its locals own. */
  datatype LoopPhase =
    | Accepting
    | Cancelling(existing: Connection)              // cancel_existing awaits the old connection
    | Creating(address: Address)                    // about to call handle_connection
    | Storing(created: Connection)                  // about to lock the list and push
    | Handing(target: Connection, link: Link)       // awaiting room in the interrupt channel
    | Ended
    | Panicked

  datatype AcceptLoop = AcceptLoop(
    registration: RegistrationInfo,
    phase: LoopPhase,
    cancels: nat,
    joins: nat,
    aborted: bool)

  datatype MainPhase =
    | Serving
    | JoiningLoop(stopping: bool)                   // Server::down awaits the accept loop
    | Stopped                                       // shutdown: down is done, clear is next
    | Clearing(current: Option<Connection>, rest: seq<Connection>)
    | Exited
    | Crashed                                       // an unwrap in the main task failed

  datatype State = State(
    root: Path,
    base: Tree,                                     // the file system the daemon found
    tasks: seq<Task>,                               // every incarnation ever spawned, oldest first
    connections: seq<Connection>,
    loops: seq<AcceptLoop>,                         // every accept loop ever spawned
    accepting: Option<nat>,                         // Server.accepting_server
    main: MainPhase,
    tree: Tree,
    log: seq<LogEntry>,
    badDrops: nat)                                  // "CancelHandle unfinished" panics

  datatype Action =
    | Perform(id: nat, step: TaskStep)
    | AcceptControl(k: nat, address: Address)
    | AcceptError(k: nat)
    | JoinExisting(k: nat)
    | Create(k: nat, built: bool)
    | Store(k: nat)
    | AcceptInterrupt(k: nat, address: Address, link: Link)
    | HandOff(k: nat)
    | LoopCancelled(k: nat)
    | LoopAborted(k: nat)
    | Up(registration: RegistrationInfo, listens: bool)
    | Down
    | Interrupted
    | LoopJoined
    | StartClear
    | CancelNext
    | JoinCurrent
    | FinishClear

  function Initial(root: Path, base: Tree): State {
    State(root, base, [], [], [], None, Serving, base, [], 0)
  }

  function DirectoryOf(s: State, i: nat): Path
    requires i < |s.tasks|
  {
    ConnectionDirectory(s.root, s.tasks[i].address)
  }

  predicate IsFinished(s: State, i: nat) {
    i < |s.tasks| && s.tasks[i].wrapper == Finished
  }

  function FinishedIds(s: State): set<nat> {
    set i: nat | i < |s.tasks| && s.tasks[i].wrapper == Finished
  }

  /** The connections whose handles are locals of an accept loop. */
  function LoopHeld(l: AcceptLoop): seq<Connection> {
    match l.phase
    case Cancelling(existing) => [existing]
    case Storing(created) => [created]
    case _ => []
  }

  function CurrentHeld(s: State): seq<Connection> {
    if s.accepting.Some? && s.accepting.value < |s.loops| then LoopHeld(s.loops[s.accepting.value]) else []
  }

  function MainHeld(s: State): seq<Connection> {
    match s.main
    case Clearing(current, rest) => (if current.Some? then [current.value] else []) + rest
    case _ => []
  }

  /** Every owned CancelHandle, wherever it lives. */
  function Held(s: State): seq<Connection> {
    s.connections + CurrentHeld(s) + MainHeld(s)
  }

  /** The owned handles through which a cancel message has been sent. */
  predicate InCancel(s: State, c: Connection) {
    || (s.accepting.Some? && s.accepting.value < |s.loops| && s.loops[s.accepting.value].phase == Cancelling(c))
    || (s.main.Clearing? && s.main.current == Some(c))
  }

  function Self(s: State, i: nat): Connection
    requires i < |s.tasks|
  {
    Connection(s.tasks[i].address, i)
  }

  /** Dropping a CancelHandle panics while its task runs. */
  function DropHandle(s: State, c: Connection): State {
    if IsFinished(s, c.id) then s else s.(badDrops := s.badDrops + 1)
  }

  function SetPhase(s: State, k: nat, phase: LoopPhase): State
    requires k < |s.loops|
  {
    s.(loops := s.loops[k := s.loops[k].(phase := phase)])
  }

  /** CancelHandle::cancel sends its message before it awaits the task. */
  function SendCancel(s: State, c: Connection): State {
    if c.id < |s.tasks| then s.(tasks := s.tasks[c.id := s.tasks[c.id].(cancels := s.tasks[c.id].cancels + 1)]) else s
  }

  function CountJoin(s: State, c: Connection): State {
    if c.id < |s.tasks| then s.(tasks := s.tasks[c.id := s.tasks[c.id].(joins := s.tasks[c.id].joins + 1)]) else s
  }

  predicate AtPhase(s: State, k: nat, phase: LoopPhase) {
    k < |s.loops| && s.loops[k].phase == phase
  }

  /** The environment decides which enabled action comes next. A crashed process
      takes no further step. */
  predicate Enabled(s: State, a: Action) {
    && s.main != Crashed
    && match a
       case Perform(id, step) => id < |s.tasks| && Can(s.tasks[id], step, Self(s, id) in Held(s))
       case AcceptControl(k, _) => AtPhase(s, k, Accepting)
       case AcceptError(k) => AtPhase(s, k, Accepting)
       case JoinExisting(k) =>
         k < |s.loops| && s.loops[k].phase.Cancelling? && IsFinished(s, s.loops[k].phase.existing.id)
       case Create(k, built) =>
         && k < |s.loops| && s.loops[k].phase.Creating?
         && (built ==> CanCreate(s.tree, ConnectionDirectory(s.root, s.loops[k].phase.address)))
       case Store(k) => k < |s.loops| && s.loops[k].phase.Storing?
       case AcceptInterrupt(k, _, _) => AtPhase(s, k, Accepting)
       case HandOff(k) =>
         && k < |s.loops| && s.loops[k].phase.Handing? && s.loops[k].phase.target.id < |s.tasks|
         && (ChannelOpen(s.tasks[s.loops[k].phase.target.id]) ==> s.tasks[s.loops[k].phase.target.id].slot == [])
       case LoopCancelled(k) => AtPhase(s, k, Accepting) && s.loops[k].cancels > 0
       case LoopAborted(k) => k < |s.loops| && s.loops[k].aborted && !s.loops[k].phase.Ended? && !s.loops[k].phase.Panicked?
       case Up(_, _) => s.main == Serving
       case Down => s.main == Serving
       case Interrupted => s.main == Serving
       case LoopJoined =>
         && s.main.JoiningLoop? && s.accepting.Some? && s.accepting.value < |s.loops|
         && (s.loops[s.accepting.value].phase.Ended? || s.loops[s.accepting.value].phase.Panicked?)
       case StartClear => s.main == Stopped
       case CancelNext => s.main.Clearing? && s.main.current.None? && s.main.rest != []
       case JoinCurrent => s.main.Clearing? && s.main.current.Some? && IsFinished(s, s.main.current.value.id)
       case FinishClear => s.main == Clearing(None, [])
  }

  function AfterTask(s: State, id: nat, step: TaskStep): State
    requires id < |s.tasks| && Can(s.tasks[id], step, Self(s, id) in Held(s))
  {
    var t := s.tasks[id];
    var emitted := Emits(t, step);
    s.(tasks := s.tasks[id := Do(t, step, Self(s, id) in Held(s))],
       tree := Touch(s.tree, DirectoryOf(s, id), t, step),
       log := if emitted.Some? then s.log + [LogEntry(id, emitted.value)] else s.log)
  }

  function AfterAcceptControl(s: State, k: nat, address: Address): State
    requires k < |s.loops|
  {
    AfterTaking(s, k, address, TakeExisting(s.connections, FinishedIds(s), address))
  }

  /** Whatever is not retained has left the list: an old connection of the peer is sent
      its cancel message and becomes a local of the loop, other handles are dropped. */
  function AfterTaking(s: State, k: nat, address: Address, taken: Taken): State
    requires k < |s.loops|
  {
    var s1 := s.(connections := taken.rest,
                 badDrops := s.badDrops + DroppedRunning(s.connections, taken, FinishedIds(s)));
    match taken.existing
    case Some(existing) => SetPhase(SendCancel(s1, existing), k, Cancelling(existing))
    case None => SetPhase(s1, k, Creating(address))
  }

  function AfterCreate(s: State, k: nat, built: bool): State
    requires k < |s.loops| && s.loops[k].phase.Creating?
  {
    var address := s.loops[k].phase.address;
    var info := s.loops[k].registration;
    if built then
      SetPhase(s.(tasks := s.tasks + [Spawned(address, info)],
                  tree := OpenedTree(s.tree, ConnectionDirectory(s.root, address), info)),
               k, Storing(Connection(address, |s.tasks|)))
    else SetPhase(s, k, Accepting)
  }

  function AfterStore(s: State, k: nat): State
    requires k < |s.loops| && s.loops[k].phase.Storing?
  {
    var created := s.loops[k].phase.created;
    if Position(s.connections, created.peerAddress).Some? then
      SetPhase(DropHandle(s, created), k, Panicked)      // "impossible race condition"
    else
      SetPhase(s.(connections := s.connections + [created]), k, Accepting)
  }

  function AfterAcceptInterrupt(s: State, k: nat, address: Address, link: Link): State
    requires k < |s.loops|
  {
    match Position(s.connections, address)
    case Some(p) => SetPhase(s, k, Handing(s.connections[p], link))
    case None => SetPhase(s, k, Ended)                   // dangling interrupt connection
  }

  function AfterHandOff(s: State, k: nat): State
    requires k < |s.loops| && s.loops[k].phase.Handing? && s.loops[k].phase.target.id < |s.tasks|
  {
    var id, link := s.loops[k].phase.target.id, s.loops[k].phase.link;
    var t := s.tasks[id];
    if ChannelOpen(t) then
      SetPhase(s.(tasks := s.tasks[id := t.(slot := t.slot + [link], offered := t.offered + [link])]), k, Accepting)
    else SetPhase(s, k, Ended)                           // the receiver is gone
  }

  /** Aborting a suspended accept loop drops its locals. */
  function AfterLoopAborted(s: State, k: nat): State
    requires k < |s.loops|
  {
    var held := LoopHeld(s.loops[k]);
    SetPhase(if held == [] then s else DropHandle(s, held[0]), k, Ended)
  }

  function AfterUp(s: State, registration: RegistrationInfo, listens: bool): State {
    if s.accepting.Some? then s
    else if listens then
      s.(loops := s.loops + [AcceptLoop(registration, Accepting, 0, 0, false)], accepting := Some(|s.loops|))
    else s.(main := Crashed)
  }

  function AfterDown(s: State, stopping: bool): State {
    if s.accepting.Some? && s.accepting.value < |s.loops| then
      var k := s.accepting.value;
      s.(loops := s.loops[k := s.loops[k].(cancels := s.loops[k].cancels + 1)], main := JoiningLoop(stopping))
    else s.(main := if stopping then Stopped else Serving)
  }

  /** join, then `accepting_server = None`, whose drop aborts the loop. */
  function AfterLoopJoined(s: State): State
    requires s.main.JoiningLoop? && s.accepting.Some? && s.accepting.value < |s.loops|
  {
    var k := s.accepting.value;
    var l := s.loops[k].(joins := s.loops[k].joins + 1);
    if l.phase.Panicked? then s.(loops := s.loops[k := l], main := Crashed)
    else s.(loops := s.loops[k := l.(aborted := true)], accepting := None,
            main := if s.main.stopping then Stopped else Serving)
  }

  function Apply(s: State, a: Action): State
    requires Enabled(s, a)
  {
    match a
    case Perform(id, step) => AfterTask(s, id, step)
    case AcceptControl(k, address) => AfterAcceptControl(s, k, address)
    case AcceptError(k) => SetPhase(s, k, Ended)
    case JoinExisting(k) =>
      var existing := s.loops[k].phase.existing;
      SetPhase(DropHandle(CountJoin(s, existing), existing), k, Creating(existing.peerAddress))
    case Create(k, built) => AfterCreate(s, k, built)
    case Store(k) => AfterStore(s, k)
    case AcceptInterrupt(k, address, link) => AfterAcceptInterrupt(s, k, address, link)
    case HandOff(k) => AfterHandOff(s, k)
    case LoopCancelled(k) => SetPhase(s, k, Ended)
    case LoopAborted(k) => AfterLoopAborted(s, k)
    case Up(registration, listens) => AfterUp(s, registration, listens)
    case Down => AfterDown(s, false)
    case Interrupted => AfterDown(s, true)
    case LoopJoined => AfterLoopJoined(s)
    case StartClear => s.(connections := [], main := Clearing(None, s.connections))
    case CancelNext =>
      SendCancel(s.(main := Clearing(Some(s.main.rest[0]), s.main.rest[1..])), s.main.rest[0])
    case JoinCurrent =>
      var current := s.main.current.value;
      DropHandle(CountJoin(s.(main := Clearing(None, s.main.rest)), current), current)
    case FinishClear => s.(main := Exited)
  }

  predicate Valid(s: State, acts: seq<Action>)
    decreases |acts|
  {
    acts == [] || (Enabled(s, acts[0]) && Valid(Apply(s, acts[0]), acts[1..]))
  }

  function Run(s: State, acts: seq<Action>): State
    requires Valid(s, acts)
    decreases |acts|
  {
    if acts == [] then s else Run(Apply(s, acts[0]), acts[1..])
  }
}
