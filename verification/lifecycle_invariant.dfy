/** The global invariant of the lifecycle, kept by every action. */
module LifecycleInvariant {
  import opened Common
  import opened FileTree
  import opened AddressName
  import opened ConnectionList
  import opened Incarnation
  import opened Lifecycle

  /** The daemon starts in an existing directory without connection directories. */
  ghost predicate CleanBase(root: Path, base: Tree) {
    && WellFormed(base)
    && At(base, root) == Some(Directory)
    && forall p, a: Address | p in base :: !Under(p, ConnectionDirectory(root, a))
  }

  /** Only the loop named by `accepting` can still run; every other one has ended and
      was joined exactly once. */
  ghost predicate LoopsInv(s: State) {
    && (s.accepting.Some? ==> s.accepting.value < |s.loops|)
    && (forall k: nat | k < |s.loops| :: LoopInv(s, k))
    && (s.main.JoiningLoop? ==> s.accepting.Some?)
    && (s.main.Stopped? || s.main.Clearing? || s.main.Exited? ==> s.accepting.None?)
    && (s.main.Clearing? || s.main.Exited? ==> s.connections == [])
    && s.badDrops == 0
  }

  ghost predicate LoopInv(s: State, k: nat)
    requires k < |s.loops|
  {
    var l := s.loops[k];
    if s.accepting == Some(k) then
      l.joins == 0 && !l.aborted && !l.phase.Panicked? && l.cancels == (if s.main.JoiningLoop? then 1 else 0)
    else l.phase == Ended && l.joins == 1 && l.cancels == 1
  }

  /** Handles are owned once, their peers differ, and no running task lacks an owner. */
  ghost predicate OwnershipInv(s: State) {
    && Distinct(Held(s))
    && (forall c | c in Held(s) :: c.id < |s.tasks| && s.tasks[c.id].address == c.peerAddress)
    && (forall i: nat | i < |s.tasks| :: IsFinished(s, i) || Self(s, i) in Held(s))
    && (forall i: nat | i < |s.tasks| :: CountsInv(s, i))
    && (s.accepting.Some? && s.accepting.value < |s.loops| ==> PhaseInv(s, s.loops[s.accepting.value].phase))
  }

  ghost predicate PhaseInv(s: State, phase: LoopPhase) {
    match phase
    case Creating(address) => Absent(Held(s), address)
    case Handing(target, _) => target in s.connections
    case _ => true
  }

  ghost predicate CountsInv(s: State, i: nat)
    requires i < |s.tasks|
  {
    var t := s.tasks[i];
    if InCancel(s, Self(s, i)) then t.cancels == 1 && t.joins == 0
    else if Self(s, i) in Held(s) then t.cancels == 0 && t.joins == 0
    else t.joins == t.cancels <= 1
  }

  /** Incarnations of one peer follow each other without overlap. */
  ghost predicate TasksInv(s: State) {
    && (forall i: nat | i < |s.tasks| :: LocalInv(s.tasks[i]))
    && (forall i: nat, j: nat | i < j < |s.tasks| && s.tasks[i].address == s.tasks[j].address :: IsFinished(s, i))
  }

  /** The tree is the one the daemon found plus what the running incarnations own. */
  ghost predicate TreeInv(s: State) {
    && CleanBase(s.root, s.base)
    && (forall i: nat | i < |s.tasks| && !IsFinished(s, i) :: Holds(s.tree, DirectoryOf(s, i), s.tasks[i]))
    && (forall p | p in s.tree && p !in s.base :: Covered(s, p))
    && (forall p | p in s.base :: At(s.tree, p) == At(s.base, p))
  }

  ghost predicate Covered(s: State, p: Path) {
    exists i: nat :: i < |s.tasks| && !IsFinished(s, i) && Under(p, DirectoryOf(s, i))
  }

  function CountDisconnected(log: seq<LogEntry>, id: nat): nat {
    if log == [] then 0
    else
      var e := log[|log| - 1];
      CountDisconnected(log[..|log| - 1], id) + if e.id == id && e.event.Disconnected? then 1 else 0
  }

  ghost predicate LogInv(s: State) {
    && (forall q: nat | q < |s.log| :: EntryInv(s, s.log[q]))
    && (forall p: nat, q: nat | p < q < |s.log| && s.log[p].event.address == s.log[q].event.address ::
          s.log[p].id <= s.log[q].id)
    && (forall i: nat | i < |s.tasks| ::
          CountDisconnected(s.log, i) == if Rank(s.tasks[i].wrapper) >= 2 then 1 else 0)
  }

  ghost predicate EntryInv(s: State, e: LogEntry) {
    e.id < |s.tasks| && !e.event.Lagged? && e.event.address == s.tasks[e.id].address
  }

  ghost predicate Inv(s: State) {
    LoopsInv(s) && OwnershipInv(s) && TasksInv(s) && TreeInv(s) && LogInv(s)
  }
}
