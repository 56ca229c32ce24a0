/** Every action of the lifecycle keeps the global invariant. */
module LifecycleSteps {
  import opened Common
  import opened FileTree
  import opened InfoFile
  import opened AddressName
  import opened ConnectionList
  import opened Incarnation
  import opened Lifecycle
  import opened LifecycleInvariant
  import opened LifecycleFrames

  lemma InitialInv(root: Path, base: Tree)
    requires CleanBase(root, base)
    ensures Inv(Initial(root, base))
  {
  }

  /** Nothing visible happened to the tasks, the tree or the log. */
  ghost predicate Quiet(s: State, s': State) {
    && s'.root == s.root && s'.base == s.base && s'.tree == s.tree && s'.log == s.log
    && |s'.tasks| == |s.tasks|
    && forall i: nat | i < |s.tasks| :: QuietTask(s.tasks[i], s'.tasks[i])
  }

  ghost predicate QuietTask(t: Task, t': Task) {
    && t'.address == t.address && t'.info == t.info && t'.control == t.control
    && t'.interrupt == t.interrupt && t'.wrapper == t.wrapper
    && (LocalInv(t) ==> LocalInv(t'))
  }

  lemma QuietKeeps(s: State, s': State)
    requires TasksInv(s) && TreeInv(s) && LogInv(s) && Quiet(s, s')
    ensures TasksInv(s') && TreeInv(s') && LogInv(s')
  {
    QuietTasks(s, s');
    QuietTree(s, s');
    QuietLog(s, s');
  }

  lemma QuietTasks(s: State, s': State)
    requires TasksInv(s) && Quiet(s, s')
    ensures TasksInv(s')
  {
    forall i: nat | i < |s'.tasks|
      ensures LocalInv(s'.tasks[i])
    {
      assert LocalInv(s.tasks[i]) && QuietTask(s.tasks[i], s'.tasks[i]);
    }
    forall i: nat, j: nat | i < j < |s'.tasks| && s'.tasks[i].address == s'.tasks[j].address
      ensures IsFinished(s', i)
    {
      assert QuietTask(s.tasks[i], s'.tasks[i]) && QuietTask(s.tasks[j], s'.tasks[j]);
      assert IsFinished(s, i);
    }
  }

  lemma QuietHolds(tree: Tree, dir: Path, t: Task, t': Task)
    requires Holds(tree, dir, t) && QuietTask(t, t')
    ensures Holds(tree, dir, t')
  {
    forall p
      ensures Owned(dir, t', p) == Owned(dir, t, p)
    {
    }
  }

  lemma QuietTree(s: State, s': State)
    requires TreeInv(s) && Quiet(s, s')
    ensures TreeInv(s')
  {
    forall i: nat | i < |s'.tasks| && !IsFinished(s', i)
      ensures Holds(s'.tree, DirectoryOf(s', i), s'.tasks[i])
    {
      assert QuietTask(s.tasks[i], s'.tasks[i]);
      QuietHolds(s.tree, DirectoryOf(s, i), s.tasks[i], s'.tasks[i]);
    }
    forall p | p in s'.tree && p !in s'.base
      ensures Covered(s', p)
    {
      assert Covered(s, p);
      var i: nat :| i < |s.tasks| && !IsFinished(s, i) && Under(p, DirectoryOf(s, i));
      assert QuietTask(s.tasks[i], s'.tasks[i]);
      assert !IsFinished(s', i) && DirectoryOf(s', i) == DirectoryOf(s, i);
    }
  }

  lemma QuietLog(s: State, s': State)
    requires LogInv(s) && Quiet(s, s')
    ensures LogInv(s')
  {
    forall q: nat | q < |s'.log|
      ensures EntryInv(s', s'.log[q])
    {
      assert EntryInv(s, s.log[q]);
      assert QuietTask(s.tasks[s.log[q].id], s'.tasks[s.log[q].id]);
    }
    forall i: nat | i < |s'.tasks|
      ensures CountDisconnected(s'.log, i) == if Rank(s'.tasks[i].wrapper) >= 2 then 1 else 0
    {
      assert QuietTask(s.tasks[i], s'.tasks[i]);
    }
  }

  /** A loop that takes a step is the accepting one, and nothing else owns handles. */
  lemma RunningLoop(s: State, k: nat)
    requires Inv(s) && k < |s.loops| && s.loops[k].phase != Ended
    ensures s.accepting == Some(k) && LoopInv(s, k) && (s.main == Serving || s.main.JoiningLoop? || s.main == Crashed)
    ensures MainHeld(s) == []
    ensures Held(s) == s.connections + LoopHeld(s.loops[k])
    ensures PhaseInv(s, s.loops[k].phase)
  {
    assert LoopInv(s, k);
  }

  /** Only the phase of the running loop changed. */
  lemma LoopsKept(s: State, s': State, k: nat, phase: LoopPhase)
    requires Inv(s) && k < |s.loops| && s.accepting == Some(k) && !phase.Panicked?
    requires s'.loops == s.loops[k := s.loops[k].(phase := phase)]
    requires s'.accepting == s.accepting && s'.main == s.main && s'.badDrops == s.badDrops
    requires s.main == Serving || s.main.JoiningLoop? || s.main == Crashed
    ensures LoopsInv(s')
  {
    forall j: nat | j < |s'.loops|
      ensures LoopInv(s', j)
    {
      assert LoopInv(s, j);
    }
  }

  /** The owned handles may only shrink by finished ones. */
  lemma OwnershipKept(s: State, s': State)
    requires OwnershipInv(s) && |s'.tasks| == |s.tasks|
    requires forall i: nat | i < |s.tasks| :: QuietTask(s.tasks[i], s'.tasks[i]) && CountsInv(s', i)
    requires Distinct(Held(s'))
    requires forall c | c in Held(s') :: c in Held(s)
    requires forall c | c in Held(s) && c !in Held(s') :: IsFinished(s, c.id)
    requires s'.accepting.Some? && s'.accepting.value < |s'.loops| ==> PhaseInv(s', s'.loops[s'.accepting.value].phase)
    ensures OwnershipInv(s')
  {
    forall c | c in Held(s')
      ensures c.id < |s'.tasks| && s'.tasks[c.id].address == c.peerAddress
    {
      assert c in Held(s);
      assert QuietTask(s.tasks[c.id], s'.tasks[c.id]);
    }
    forall i: nat | i < |s'.tasks|
      ensures IsFinished(s', i) || Self(s', i) in Held(s')
    {
      assert QuietTask(s.tasks[i], s'.tasks[i]);
      assert Self(s', i) == Self(s, i);
      assert IsFinished(s, i) || Self(s, i) in Held(s);
    }
  }

  lemma TakingHeld(s: State, k: nat, address: Address, taken: Taken)
    requires k < |s.loops| && s.accepting == Some(k) && MainHeld(s) == []
    ensures var s' := AfterTaking(s, k, address, taken);
            && Held(s') == taken.rest + (if taken.existing.Some? then [taken.existing.value] else [])
            && s'.loops == s.loops[k := s.loops[k].(phase := s'.loops[k].phase)]
            && s'.loops[k].phase == (if taken.existing.Some? then Cancelling(taken.existing.value) else Creating(address))
            && s'.accepting == s.accepting && s'.main == s.main
            && s'.connections == taken.rest
  {
  }

  lemma TakingQuiet(s: State, k: nat, address: Address, taken: Taken)
    requires k < |s.loops|
    ensures var s' := AfterTaking(s, k, address, taken);
            && Quiet(s, s')
            && (forall i: nat | i < |s.tasks| :: s'.tasks[i] ==
                 if taken.existing.Some? && taken.existing.value.id == i
                 then s.tasks[i].(cancels := s.tasks[i].cancels + 1) else s.tasks[i])
  {
  }

  lemma AcceptControlKeeps(s: State, k: nat, address: Address)
    requires Inv(s) && Enabled(s, AcceptControl(k, address))
    ensures Inv(AfterAcceptControl(s, k, address))
  {
    RunningLoop(s, k);
    assert Held(s) == s.connections;
    TakeExistingSpec(s.connections, FinishedIds(s), address);
    var taken := TakeExisting(s.connections, FinishedIds(s), address);
    TakingKeeps(s, k, address, taken);
  }

  lemma TakingKeeps(s: State, k: nat, address: Address, taken: Taken)
    requires Inv(s) && k < |s.loops| && s.loops[k].phase == Accepting
    requires Distinct(taken.rest) && Absent(taken.rest, address)
    requires forall c :: c in taken.rest <==> c in s.connections && c.id !in FinishedIds(s) && c.peerAddress != address
    requires forall c :: taken.existing == Some(c) <==> c in s.connections && c.id !in FinishedIds(s) && c.peerAddress == address
    ensures Inv(AfterTaking(s, k, address, taken))
  {
    var s' := AfterTaking(s, k, address, taken);
    RunningLoop(s, k);
    assert Held(s) == s.connections;
    TakingHeld(s, k, address, taken);
    TakingQuiet(s, k, address, taken);
    QuietKeeps(s, s');
    NoneDroppedRunning(s.connections, taken, FinishedIds(s));
    TakingDrops(s, k, address, taken);
    LoopsKept(s, s', k, s'.loops[k].phase);
    TakingOwnership(s, k, address, taken);
  }

  lemma TakingDrops(s: State, k: nat, address: Address, taken: Taken)
    requires k < |s.loops| && DroppedRunning(s.connections, taken, FinishedIds(s)) == 0
    ensures AfterTaking(s, k, address, taken).badDrops == s.badDrops
  {
  }

  lemma TakingOwnership(s: State, k: nat, address: Address, taken: Taken)
    requires OwnershipInv(s) && k < |s.loops| && s.accepting == Some(k) && s.loops[k].phase == Accepting
    requires Held(s) == s.connections && MainHeld(s) == []
    requires Distinct(taken.rest) && Absent(taken.rest, address)
    requires forall c :: c in taken.rest <==> c in s.connections && c.id !in FinishedIds(s) && c.peerAddress != address
    requires forall c :: taken.existing == Some(c) <==> c in s.connections && c.id !in FinishedIds(s) && c.peerAddress == address
    ensures OwnershipInv(AfterTaking(s, k, address, taken))
  {
    TakingHeld(s, k, address, taken);
    TakingQuiet(s, k, address, taken);
    forall c | c in s.connections && c.id in FinishedIds(s)
      ensures IsFinished(s, c.id)
    {
    }
    TakingCounts(s, k, address, taken);
    OwnershipKept(s, AfterTaking(s, k, address, taken));
  }

  lemma TakingCounts(s: State, k: nat, address: Address, taken: Taken)
    requires OwnershipInv(s) && k < |s.loops| && s.accepting == Some(k) && s.loops[k].phase == Accepting
    requires Held(s) == s.connections && MainHeld(s) == []
    requires forall c | c in taken.rest :: c in s.connections
    requires forall c | c in s.connections && c !in taken.rest && taken.existing != Some(c) :: IsFinished(s, c.id)
    requires forall c | taken.existing == Some(c) :: c in s.connections && c !in taken.rest
    ensures forall i: nat | i < |s.tasks| :: CountsInv(AfterTaking(s, k, address, taken), i)
  {
    var s' := AfterTaking(s, k, address, taken);
    TakingHeld(s, k, address, taken);
    TakingQuiet(s, k, address, taken);
    forall i: nat | i < |s.tasks|
      ensures CountsInv(s', i)
    {
      assert CountsInv(s, i);
      assert QuietTask(s.tasks[i], s'.tasks[i]);
      assert Self(s', i) == Self(s, i);
      assert !InCancel(s, Self(s, i));
      assert InCancel(s', Self(s, i)) <==> taken.existing == Some(Self(s, i));
    }
  }

  /** The loop moved on without touching a handle. */
  lemma PhaseOnlyKeeps(s: State, k: nat, phase: LoopPhase)
    requires Inv(s) && k < |s.loops| && s.loops[k].phase != Ended
    requires LoopHeld(s.loops[k]) == [] && LoopHeld(s.loops[k].(phase := phase)) == []
    requires !phase.Panicked? && PhaseInv(SetPhase(s, k, phase), phase)
    ensures Inv(SetPhase(s, k, phase))
  {
    var s' := SetPhase(s, k, phase);
    RunningLoop(s, k);
    LoopsKept(s, s', k, phase);
    QuietKeeps(s, s');
    assert Held(s') == Held(s);
    forall i: nat | i < |s.tasks|
      ensures CountsInv(s', i)
    {
      assert CountsInv(s, i);
      assert Self(s', i) == Self(s, i);
    }
    OwnershipKept(s, s');
  }

  lemma AcceptInterruptKeeps(s: State, k: nat, address: Address, link: Link)
    requires Inv(s) && Enabled(s, AcceptInterrupt(k, address, link))
    ensures Inv(AfterAcceptInterrupt(s, k, address, link))
  {
    match Position(s.connections, address)
    case Some(p) => PhaseOnlyKeeps(s, k, Handing(s.connections[p], link));
    case None => PhaseOnlyKeeps(s, k, Ended);
  }

  lemma JoinExistingKeeps(s: State, k: nat)
    requires Inv(s) && Enabled(s, JoinExisting(k))
    ensures Inv(Apply(s, JoinExisting(k)))
  {
    var existing := s.loops[k].phase.existing;
    RunningLoop(s, k);
    var s' := AfterJoinExisting(s, k, existing);
    JoinExistingOwnership(s, k, existing);
    LoopsKept(s, s', k, Creating(existing.peerAddress));
    QuietKeeps(s, s');
  }

  function AfterJoinExisting(s: State, k: nat, existing: Connection): State
    requires k < |s.loops|
  {
    SetPhase(CountJoin(s, existing), k, Creating(existing.peerAddress))
  }

  lemma JoinExistingHeld(s: State, k: nat, existing: Connection)
    requires k < |s.loops| && s.accepting == Some(k) && s.loops[k].phase == Cancelling(existing)
    requires MainHeld(s) == [] && !s.main.Clearing? && Distinct(Held(s))
    ensures var s' := AfterJoinExisting(s, k, existing);
            && Distinct(Held(s')) && existing in Held(s) && Absent(Held(s'), existing.peerAddress)
            && (forall c :: c in Held(s') <==> c in Held(s) && c != existing)
            && (forall c :: InCancel(s, c) <==> c == existing) && (forall c :: !InCancel(s', c))
  {
    assert Held(s) == s.connections + [existing];
    assert Held(AfterJoinExisting(s, k, existing)) == s.connections;
    assert Held(s)[|s.connections|] == existing;
    AbsentFromRest(s.connections, existing);
  }

  lemma JoinExistingOwnership(s: State, k: nat, existing: Connection)
    requires OwnershipInv(s) && k < |s.loops| && s.accepting == Some(k) && s.loops[k].phase == Cancelling(existing)
    requires MainHeld(s) == [] && !s.main.Clearing? && IsFinished(s, existing.id)
    ensures OwnershipInv(AfterJoinExisting(s, k, existing)) && Quiet(s, AfterJoinExisting(s, k, existing))
  {
    var s' := AfterJoinExisting(s, k, existing);
    JoinExistingHeld(s, k, existing);
    forall i: nat | i < |s.tasks|
      ensures CountsInv(s', i)
    {
      assert CountsInv(s, i);
      assert QuietTask(s.tasks[i], s'.tasks[i]) && Self(s', i) == Self(s, i);
    }
    OwnershipKept(s, s');
  }

  lemma AbsentFromRest(cs: seq<Connection>, c: Connection)
    requires Distinct(cs + [c])
    ensures Distinct(cs) && Absent(cs, c.peerAddress)
  {
    assert (cs + [c])[|cs|] == c;
    assert forall k: nat | k < |cs| :: (cs + [c])[k] == cs[k];
  }

  lemma StoreKeeps(s: State, k: nat)
    requires Inv(s) && Enabled(s, Store(k))
    ensures Inv(Apply(s, Store(k)))
  {
    var created := s.loops[k].phase.created;
    RunningLoop(s, k);
    assert Held(s) == s.connections + [created];
    AbsentFromRest(s.connections, created);
    var s' := SetPhase(s.(connections := s.connections + [created]), k, Accepting);
    assert AfterStore(s, k) == s';
    LoopsKept(s, s', k, Accepting);
    QuietKeeps(s, s');
    assert Held(s') == Held(s);
    forall i: nat | i < |s.tasks|
      ensures CountsInv(s', i)
    {
      assert CountsInv(s, i);
      assert Self(s', i) == Self(s, i);
    }
    OwnershipKept(s, s');
  }

  lemma HandOffKeeps(s: State, k: nat)
    requires Inv(s) && Enabled(s, HandOff(k))
    ensures Inv(Apply(s, HandOff(k)))
  {
    var target := s.loops[k].phase.target;
    if ChannelOpen(s.tasks[target.id]) {
      var s1 := AfterOffer(s, target.id, s.loops[k].phase.link);
      OfferKeeps(s, target.id, s.loops[k].phase.link);
      PhaseOnlyKeeps(s1, k, Accepting);
    } else {
      PhaseOnlyKeeps(s, k, Ended);
    }
  }

  function AfterOffer(s: State, id: nat, link: Link): State
    requires id < |s.tasks|
  {
    s.(tasks := s.tasks[id := s.tasks[id].(slot := s.tasks[id].slot + [link], offered := s.tasks[id].offered + [link])])
  }

  lemma OfferKeeps(s: State, id: nat, link: Link)
    requires Inv(s) && id < |s.tasks| && ChannelOpen(s.tasks[id]) && s.tasks[id].slot == []
    ensures Inv(AfterOffer(s, id, link))
  {
    var s' := AfterOffer(s, id, link);
    OfferKeepsLocal(s.tasks[id], link);
    QuietKeeps(s, s');
    LoopsUntouched(s, s');
    OfferOwnership(s, id, link);
  }

  lemma OfferOwnership(s: State, id: nat, link: Link)
    requires OwnershipInv(s) && id < |s.tasks| && ChannelOpen(s.tasks[id]) && s.tasks[id].slot == []
    ensures OwnershipInv(AfterOffer(s, id, link))
  {
    var s' := AfterOffer(s, id, link);
    OfferKeepsLocal(s.tasks[id], link);
    assert Held(s') == Held(s);
    forall i: nat | i < |s.tasks|
      ensures QuietTask(s.tasks[i], s'.tasks[i]) && CountsInv(s', i)
    {
      assert CountsInv(s, i);
      assert Self(s', i) == Self(s, i);
    }
    OwnershipKept(s, s');
  }

  lemma OfferKeepsLocal(t: Task, link: Link)
    requires ChannelOpen(t) && t.slot == []
    ensures LocalInv(t) ==> LocalInv(t.(slot := t.slot + [link], offered := t.offered + [link]))
  {
  }

  lemma LoopsUntouched(s: State, s': State)
    requires LoopsInv(s)
    requires s'.loops == s.loops && s'.accepting == s.accepting && s'.main == s.main
    requires s'.connections == s.connections && s'.badDrops == s.badDrops
    ensures LoopsInv(s')
  {
    forall k: nat | k < |s'.loops|
      ensures LoopInv(s', k)
    {
      assert LoopInv(s, k);
    }
  }

  // ---- a new incarnation --------------------------------------------------

  lemma CreateKeeps(s: State, k: nat, built: bool)
    requires Inv(s) && Enabled(s, Create(k, built))
    ensures Inv(AfterCreate(s, k, built))
  {
    RunningLoop(s, k);
    if built {
      var s' := AfterCreate(s, k, built);
      NoLivePeer(s, s.loops[k].phase.address);
      CreateTasks(s, k);
      CreateTree(s, k);
      CreateLog(s, k);
      CreateOwnership(s, k);
      LoopsKept(s, s', k, s'.loops[k].phase);
    } else {
      PhaseOnlyKeeps(s, k, Accepting);
    }
  }

  /** No owner of a handle to a peer, no running incarnation of that peer. */
  lemma NoLivePeer(s: State, address: Address)
    requires OwnershipInv(s) && Absent(Held(s), address)
    ensures forall i: nat | i < |s.tasks| && s.tasks[i].address == address :: IsFinished(s, i)
  {
    forall i: nat | i < |s.tasks| && s.tasks[i].address == address
      ensures IsFinished(s, i)
    {
      assert IsFinished(s, i) || Self(s, i) in Held(s);
    }
  }

  lemma CreateTasks(s: State, k: nat)
    requires TasksInv(s) && k < |s.loops| && s.loops[k].phase.Creating?
    requires forall i: nat | i < |s.tasks| && s.tasks[i].address == s.loops[k].phase.address :: IsFinished(s, i)
    ensures TasksInv(AfterCreate(s, k, true))
  {
    var s' := AfterCreate(s, k, true);
    SpawnedLocal(s.loops[k].phase.address, s.loops[k].registration);
    assert forall i: nat | i < |s.tasks| :: s'.tasks[i] == s.tasks[i];
    assert forall i: nat | i < |s.tasks| :: IsFinished(s, i) ==> IsFinished(s', i);
  }

  lemma PeersApart(root: Path, a: Address, b: Address, p: Path)
    requires a != b && Under(p, ConnectionDirectory(root, a))
    ensures !Under(p, ConnectionDirectory(root, b))
  {
    assert ConnectionDirectory(root, a)[|root|] == PeerDirectory(a);
    assert ConnectionDirectory(root, b)[|root|] == PeerDirectory(b);
  }

  /** With no running incarnation of a peer, nothing lies below its directory: a
      replacement never collides with what its predecessor owned. */
  lemma NothingLeftBelow(s: State, address: Address, p: Path)
    requires TreeInv(s)
    requires forall i: nat | i < |s.tasks| && s.tasks[i].address == address :: IsFinished(s, i)
    requires Under(p, ConnectionDirectory(s.root, address))
    ensures p !in s.tree
  {
    if p in s.tree && p !in s.base {
      assert Covered(s, p);
      var i: nat :| i < |s.tasks| && !IsFinished(s, i) && Under(p, DirectoryOf(s, i));
      PeersApart(s.root, s.tasks[i].address, address, p);
    }
  }

  lemma CreateTree(s: State, k: nat)
    requires TreeInv(s) && k < |s.loops| && s.loops[k].phase.Creating?
    requires forall i: nat | i < |s.tasks| && s.tasks[i].address == s.loops[k].phase.address :: IsFinished(s, i)
    ensures TreeInv(AfterCreate(s, k, true))
  {
    var s' := AfterCreate(s, k, true);
    var address, info := s.loops[k].phase.address, s.loops[k].registration;
    var dir := ConnectionDirectory(s.root, address);
    forall p | Under(p, dir)
      ensures p !in s.tree
    {
      NothingLeftBelow(s, address, p);
    }
    SpawnedHolds(s.tree, dir, address, info);
    forall i: nat | i < |s'.tasks| && !IsFinished(s', i)
      ensures Holds(s'.tree, DirectoryOf(s', i), s'.tasks[i])
    {
      if i < |s.tasks| {
        assert !IsFinished(s, i) && s.tasks[i].address != address;
        ElsewhereHolds(s.tree, s'.tree, s.root, s.tasks[i], address);
      }
    }
    forall p | p in s'.tree && p !in s'.base
      ensures Covered(s', p)
    {
      if Under(p, dir) {
        assert !IsFinished(s', |s.tasks|) && DirectoryOf(s', |s.tasks|) == dir;
      } else {
        assert At(s'.tree, p) == At(s.tree, p);
        assert Covered(s, p);
        var i: nat :| i < |s.tasks| && !IsFinished(s, i) && Under(p, DirectoryOf(s, i));
        assert !IsFinished(s', i) && DirectoryOf(s', i) == DirectoryOf(s, i);
      }
    }
  }

  /** A change below one peer's directory does not disturb another peer's. */
  lemma ElsewhereHolds(tree: Tree, tree': Tree, root: Path, t: Task, other: Address)
    requires Holds(tree, ConnectionDirectory(root, t.address), t) && t.address != other
    requires forall p | !Under(p, ConnectionDirectory(root, other)) :: At(tree', p) == At(tree, p)
    ensures Holds(tree', ConnectionDirectory(root, t.address), t)
  {
    forall p | Under(p, ConnectionDirectory(root, t.address))
      ensures At(tree', p) == Owned(ConnectionDirectory(root, t.address), t, p)
    {
      PeersApart(root, t.address, other, p);
    }
  }

  lemma {:induction false} NothingLoggedYet(log: seq<LogEntry>, id: nat)
    requires forall q: nat | q < |log| :: log[q].id < id
    ensures CountDisconnected(log, id) == 0
  {
    if log != [] {
      NothingLoggedYet(log[..|log| - 1], id);
    }
  }

  lemma CreateLog(s: State, k: nat)
    requires LogInv(s) && k < |s.loops| && s.loops[k].phase.Creating?
    ensures LogInv(AfterCreate(s, k, true))
  {
    var s' := AfterCreate(s, k, true);
    forall q: nat | q < |s'.log|
      ensures EntryInv(s', s'.log[q])
      ensures s.log[q].id < |s.tasks|
    {
      assert EntryInv(s, s.log[q]);
    }
    NothingLoggedYet(s.log, |s.tasks|);
  }

  lemma CreateOwnership(s: State, k: nat)
    requires OwnershipInv(s) && k < |s.loops| && s.loops[k].phase.Creating? && s.accepting == Some(k)
    requires !s.main.Clearing?
    ensures OwnershipInv(AfterCreate(s, k, true))
  {
    var s' := AfterCreate(s, k, true);
    var created := Connection(s.loops[k].phase.address, |s.tasks|);
    assert Held(s) == s.connections && Held(s') == s.connections + [created];
    forall c | c in Held(s')
      ensures c.id < |s'.tasks| && s'.tasks[c.id].address == c.peerAddress
    {
      assert c == created || c in Held(s);
    }
    forall i: nat | i < |s'.tasks|
      ensures IsFinished(s', i) || Self(s', i) in Held(s')
      ensures CountsInv(s', i)
    {
      assert !InCancel(s', Self(s', i));
      if i < |s.tasks| {
        assert Self(s', i) == Self(s, i);
        assert CountsInv(s, i);
        assert IsFinished(s, i) || Self(s, i) in Held(s);
        assert Self(s, i) in Held(s') <==> Self(s, i) in Held(s);
      } else {
        assert Self(s', i) == created;
      }
    }
  }

  // ---- the main task ------------------------------------------------------

  lemma UpKeeps(s: State, registration: RegistrationInfo, listens: bool)
    requires Inv(s) && Enabled(s, Up(registration, listens))
    ensures Inv(AfterUp(s, registration, listens))
  {
    var s' := AfterUp(s, registration, listens);
    MainOnlyKeeps(s, s');
    forall k: nat | k < |s'.loops|
      ensures LoopInv(s', k)
    {
      assert k < |s.loops| ==> LoopInv(s, k);
    }
  }

  /** Tasks, list and handles in the loop are as they were. */
  lemma MainOnlyKeeps(s: State, s': State)
    requires OwnershipInv(s) && TasksInv(s) && TreeInv(s) && LogInv(s)
    requires s'.root == s.root && s'.base == s.base && s'.tree == s.tree && s'.log == s.log && s'.tasks == s.tasks
    requires Held(s') == Held(s)
    requires forall c :: InCancel(s', c) <==> InCancel(s, c)
    requires s'.accepting.Some? && s'.accepting.value < |s'.loops| ==> PhaseInv(s', s'.loops[s'.accepting.value].phase)
    ensures OwnershipInv(s') && TasksInv(s') && TreeInv(s') && LogInv(s')
  {
    QuietKeeps(s, s');
    forall i: nat | i < |s.tasks|
      ensures CountsInv(s', i)
    {
      assert CountsInv(s, i) && Self(s', i) == Self(s, i);
    }
    OwnershipKept(s, s');
  }

  lemma DownKeeps(s: State, stopping: bool)
    requires Inv(s) && s.main == Serving
    ensures Inv(AfterDown(s, stopping))
  {
    var s' := AfterDown(s, stopping);
    forall k: nat | k < |s'.loops|
      ensures LoopInv(s', k)
    {
      assert LoopInv(s, k);
    }
    MainOnlyKeeps(s, s');
  }

  lemma LoopJoinedKeeps(s: State)
    requires Inv(s) && Enabled(s, LoopJoined)
    ensures Inv(Apply(s, LoopJoined)) && Apply(s, LoopJoined).main != Crashed
  {
    LoopJoinedLoops(s);
    MainOnlyKeeps(s, AfterLoopJoined(s));
  }

  lemma LoopJoinedLoops(s: State)
    requires LoopsInv(s) && Enabled(s, LoopJoined)
    ensures LoopsInv(AfterLoopJoined(s)) && AfterLoopJoined(s).main != Crashed
    ensures s.loops[s.accepting.value].phase == Ended
    ensures Held(AfterLoopJoined(s)) == Held(s)
  {
    var s' := AfterLoopJoined(s);
    assert LoopInv(s, s.accepting.value);
    forall k: nat | k < |s'.loops|
      ensures LoopInv(s', k)
    {
      assert LoopInv(s, k);
    }
  }

  lemma StartClearKeeps(s: State)
    requires Inv(s) && Enabled(s, StartClear)
    ensures Inv(Apply(s, StartClear))
  {
    var s' := Apply(s, StartClear);
    StartClearLoops(s, s');
    MainOnlyKeeps(s, s');
  }

  lemma StartClearLoops(s: State, s': State)
    requires LoopsInv(s) && s.main.Stopped?
    requires s'.loops == s.loops && s'.accepting == s.accepting && s'.connections == []
    requires s'.badDrops == s.badDrops && s'.main.Clearing?
    ensures LoopsInv(s')
  {
    forall k: nat | k < |s'.loops|
      ensures LoopInv(s', k)
    {
      assert LoopInv(s, k);
    }
  }

  lemma CancelNextKeeps(s: State)
    requires Inv(s) && Enabled(s, CancelNext)
    ensures Inv(Apply(s, CancelNext))
  {
    CancelNextOwnership(s);
    QuietKeeps(s, Apply(s, CancelNext));
    ClearingLoops(s, Apply(s, CancelNext));
  }

  /** While clearing there is no accept loop left to disturb. */
  lemma ClearingLoops(s: State, s': State)
    requires LoopsInv(s) && s.main.Clearing?
    requires s'.loops == s.loops && s'.accepting == s.accepting && s'.connections == s.connections
    requires s'.badDrops == s.badDrops && (s'.main.Clearing? || s'.main.Exited?)
    ensures LoopsInv(s')
  {
    forall k: nat | k < |s'.loops|
      ensures LoopInv(s', k)
    {
      assert LoopInv(s, k);
    }
  }

  function AfterCancelNext(s: State): State
    requires Enabled(s, CancelNext)
  {
    SendCancel(s.(main := Clearing(Some(s.main.rest[0]), s.main.rest[1..])), s.main.rest[0])
  }

  lemma CancelNextHeld(s: State)
    requires s.accepting.None? && Enabled(s, CancelNext)
    ensures var next, s' := s.main.rest[0], AfterCancelNext(s);
            && Held(s') == Held(s) && next in Held(s)
            && (forall c :: !InCancel(s, c)) && (forall c :: InCancel(s', c) <==> c == next)
  {
    var s' := AfterCancelNext(s);
    assert s.main.rest == [s.main.rest[0]] + s.main.rest[1..];
    assert MainHeld(s) == s.main.rest && MainHeld(s') == s.main.rest;
    assert s.main.rest[0] in MainHeld(s);
  }

  lemma CancelNextCounts(s: State)
    requires Enabled(s, CancelNext)
    ensures var next, s' := s.main.rest[0], AfterCancelNext(s);
            && Quiet(s, s') && s'.accepting == s.accepting
            && (forall i: nat | i < |s.tasks| ::
                  s'.tasks[i] == if i == next.id then s.tasks[i].(cancels := s.tasks[i].cancels + 1) else s.tasks[i])
  {
  }

  lemma CancelNextOwnership(s: State)
    requires OwnershipInv(s) && s.accepting.None? && Enabled(s, CancelNext)
    ensures OwnershipInv(Apply(s, CancelNext)) && Quiet(s, Apply(s, CancelNext))
  {
    var s' := AfterCancelNext(s);
    CancelNextHeld(s);
    CancelNextCounts(s);
    forall i: nat | i < |s.tasks|
      ensures CountsInv(s', i)
    {
      assert CountsInv(s, i);
      assert QuietTask(s.tasks[i], s'.tasks[i]) && Self(s', i) == Self(s, i);
    }
    OwnershipKept(s, s');
  }

  lemma JoinCurrentKeeps(s: State)
    requires Inv(s) && Enabled(s, JoinCurrent)
    ensures Inv(Apply(s, JoinCurrent))
  {
    var s' := AfterJoinCurrent(s);
    JoinCurrentOwnership(s);
    QuietKeeps(s, s');
    ClearingLoops(s, s');
  }

  function AfterJoinCurrent(s: State): State
    requires s.main.Clearing? && s.main.current.Some?
  {
    CountJoin(s.(main := Clearing(None, s.main.rest)), s.main.current.value)
  }

  lemma JoinCurrentSplit(s: State)
    requires s.accepting.None? && s.main.Clearing? && s.main.current.Some? && s.connections == []
    ensures Held(s) == [s.main.current.value] + s.main.rest && Held(AfterJoinCurrent(s)) == s.main.rest
  {
    assert MainHeld(s) == [s.main.current.value] + s.main.rest;
    assert Held(s) == MainHeld(s);
    assert Held(AfterJoinCurrent(s)) == MainHeld(AfterJoinCurrent(s)) == s.main.rest;
  }

  lemma JoinCurrentHeld(s: State)
    requires s.accepting.None? && s.main.Clearing? && s.main.current.Some? && s.connections == []
    requires Distinct(Held(s))
    ensures Distinct(Held(AfterJoinCurrent(s))) && s.main.current.value in Held(s)
    ensures forall c :: c in Held(AfterJoinCurrent(s)) <==> c in Held(s) && c != s.main.current.value
  {
    JoinCurrentSplit(s);
    FirstApart(s.main.current.value, s.main.rest);
  }

  lemma JoinCurrentCancel(s: State)
    requires s.accepting.None? && s.main.Clearing? && s.main.current.Some?
    ensures forall c :: InCancel(s, c) <==> c == s.main.current.value
    ensures forall c :: !InCancel(AfterJoinCurrent(s), c)
  {
  }

  lemma JoinCurrentCounts(s: State)
    requires s.main.Clearing? && s.main.current.Some?
    ensures var current, s' := s.main.current.value, AfterJoinCurrent(s);
            && Quiet(s, s') && s'.accepting == s.accepting
            && (forall i: nat | i < |s.tasks| ::
                  s'.tasks[i] == if i == current.id then s.tasks[i].(joins := s.tasks[i].joins + 1) else s.tasks[i])
  {
  }

  lemma JoinCurrentOwnership(s: State)
    requires OwnershipInv(s) && s.accepting.None? && Enabled(s, JoinCurrent) && s.connections == []
    ensures OwnershipInv(AfterJoinCurrent(s)) && Quiet(s, AfterJoinCurrent(s))
  {
    var s' := AfterJoinCurrent(s);
    JoinCurrentHeld(s);
    JoinCurrentCancel(s);
    JoinCurrentCounts(s);
    forall i: nat | i < |s.tasks|
      ensures CountsInv(s', i)
    {
      assert CountsInv(s, i);
      assert QuietTask(s.tasks[i], s'.tasks[i]) && Self(s', i) == Self(s, i);
    }
    OwnershipKept(s, s');
  }

  lemma FirstApart(c: Connection, cs: seq<Connection>)
    requires Distinct([c] + cs)
    ensures Distinct(cs) && Absent(cs, c.peerAddress)
    ensures forall d :: d in [c] + cs <==> d == c || d in cs
  {
    var all := [c] + cs;
    assert all[0] == c;
    assert forall k: nat | k < |cs| :: all[k + 1] == cs[k];
  }

  lemma FinishClearKeeps(s: State)
    requires Inv(s) && Enabled(s, FinishClear)
    ensures Inv(Apply(s, FinishClear))
  {
    var s' := Apply(s, FinishClear);
    forall k: nat | k < |s'.loops|
      ensures LoopInv(s', k)
    {
      assert LoopInv(s, k);
    }
    MainOnlyKeeps(s, s');
  }

  // ---- one step of one incarnation ----------------------------------------

  lemma PerformKeeps(s: State, id: nat, step: TaskStep)
    requires Inv(s) && Enabled(s, Perform(id, step))
    ensures Inv(AfterTask(s, id, step))
  {
    PerformOwnership(s, id, step);
    PerformTasks(s, id, step);
    PerformTree(s, id, step);
    PerformLog(s, id, step);
    LoopsUntouched(s, AfterTask(s, id, step));
  }

  predicate MayPerform(s: State, id: nat, step: TaskStep) {
    id < |s.tasks| && Can(s.tasks[id], step, Self(s, id) in Held(s))
  }

  ghost predicate SameIdentity(t: Task, t': Task) {
    && t'.address == t.address && t'.info == t.info && t'.cancels == t.cancels && t'.joins == t.joins
    && Rank(t'.wrapper) >= Rank(t.wrapper)
  }

  lemma DoKeepsIdentity(t: Task, step: TaskStep, held: bool)
    requires Can(t, step, held)
    ensures SameIdentity(t, Do(t, step, held))
  {
    if IsHandlerStep(step) {
      HandlerKeepsIdentity(t, step, held);
    } else {
      WrapperKeepsIdentity(t, step, held);
    }
  }

  lemma HandlerKeepsIdentity(t: Task, step: TaskStep, held: bool)
    requires Can(t, step, held) && IsHandlerStep(step)
    ensures SameIdentity(t, Do(t, step, held))
  {
  }

  lemma WrapperKeepsIdentity(t: Task, step: TaskStep, held: bool)
    requires Can(t, step, held) && !IsHandlerStep(step)
    ensures SameIdentity(t, Do(t, step, held))
  {
  }

  lemma PerformOwnership(s: State, id: nat, step: TaskStep)
    requires OwnershipInv(s) && MayPerform(s, id, step)
    ensures OwnershipInv(AfterTask(s, id, step))
  {
    DoKeepsIdentity(s.tasks[id], step, Self(s, id) in Held(s));
    IdentityKeepsOwnership(s, AfterTask(s, id, step), id);
  }

  /** One task moved on, and nobody gained or lost a handle. */
  lemma IdentityKeepsOwnership(s: State, s': State, id: nat)
    requires OwnershipInv(s) && id < |s.tasks| && |s'.tasks| == |s.tasks| && SameIdentity(s.tasks[id], s'.tasks[id])
    requires forall i: nat | i < |s.tasks| && i != id :: s'.tasks[i] == s.tasks[i]
    requires s'.connections == s.connections && s'.loops == s.loops && s'.accepting == s.accepting && s'.main == s.main
    ensures OwnershipInv(s')
  {
    assert Held(s') == Held(s);
    forall c | c in Held(s')
      ensures c.id < |s'.tasks| && s'.tasks[c.id].address == c.peerAddress
    {
      assert c in Held(s);
    }
    forall i: nat | i < |s'.tasks|
      ensures IsFinished(s', i) || Self(s', i) in Held(s')
      ensures CountsInv(s', i)
    {
      assert Self(s', i) == Self(s, i);
      assert CountsInv(s, i);
      assert IsFinished(s, i) || Self(s, i) in Held(s);
      assert InCancel(s', Self(s, i)) <==> InCancel(s, Self(s, i));
    }
  }

  lemma PerformTasks(s: State, id: nat, step: TaskStep)
    requires TasksInv(s) && MayPerform(s, id, step)
    ensures TasksInv(AfterTask(s, id, step))
  {
    var s', held := AfterTask(s, id, step), Self(s, id) in Held(s);
    DoKeepsLocal(s.tasks[id], step, held);
    DoKeepsIdentity(s.tasks[id], step, held);
    forall i: nat, j: nat | i < j < |s'.tasks| && s'.tasks[i].address == s'.tasks[j].address
      ensures IsFinished(s', i)
    {
      assert IsFinished(s, i);
    }
  }

  /** A step needs a part of its incarnation that still runs. */
  lemma RunningStep(t: Task, step: TaskStep, held: bool)
    requires LocalInv(t) && Can(t, step, held)
    ensures t.wrapper != Finished
  {
  }

  lemma PerformTree(s: State, id: nat, step: TaskStep)
    requires TreeInv(s) && TasksInv(s) && MayPerform(s, id, step)
    ensures TreeInv(AfterTask(s, id, step))
  {
    var s' := AfterTask(s, id, step);
    var held := Self(s, id) in Held(s);
    var t, dir := s.tasks[id], DirectoryOf(s, id);
    RunningStep(t, step, held);
    DoKeepsIdentity(t, step, held);
    assert Holds(s.tree, dir, t);
    TouchHolds(s.tree, dir, t, step, held);
    DoKeepsLocal(t, step, held);
    forall p | !Under(p, dir)
      ensures At(s'.tree, p) == At(s.tree, p)
    {
      TouchIsLocal(s.tree, dir, t, step, p);
    }
    forall i: nat | i < |s'.tasks| && !IsFinished(s', i)
      ensures Holds(s'.tree, DirectoryOf(s', i), s'.tasks[i])
    {
      if i != id {
        assert !IsFinished(s, i);
        OneLivePerPeer(s, i, id);
        ElsewhereHolds(s.tree, s'.tree, s.root, s.tasks[i], t.address);
      }
    }
    forall p | p in s'.tree && p !in s'.base
      ensures Covered(s', p)
    {
      PerformCovers(s, id, step, p);
    }
    assert forall p | p in s.base :: !Under(p, ConnectionDirectory(s.root, t.address));
  }

  lemma OneLivePerPeer(s: State, i: nat, j: nat)
    requires TasksInv(s) && i < |s.tasks| && j < |s.tasks| && i != j
    requires !IsFinished(s, i) && !IsFinished(s, j)
    ensures s.tasks[i].address != s.tasks[j].address
  {
    assert i < j || j < i;
  }

  lemma FinishedOwnsNothing(dir: Path, t: Task, p: Path)
    requires LocalInv(t) && t.wrapper == Finished
    ensures Owned(dir, t, p) == None
  {
  }

  lemma PerformCovers(s: State, id: nat, step: TaskStep, p: Path)
    requires TreeInv(s) && MayPerform(s, id, step) && !IsFinished(s, id) && LocalInv(AfterTask(s, id, step).tasks[id])
    requires Holds(AfterTask(s, id, step).tree, DirectoryOf(s, id), AfterTask(s, id, step).tasks[id])
    requires forall q | !Under(q, DirectoryOf(s, id)) :: At(AfterTask(s, id, step).tree, q) == At(s.tree, q)
    requires p in AfterTask(s, id, step).tree && p !in s.base
    ensures Covered(AfterTask(s, id, step), p)
  {
    var s' := AfterTask(s, id, step);
    DoKeepsIdentity(s.tasks[id], step, Self(s, id) in Held(s));
    if Under(p, DirectoryOf(s, id)) {
      assert At(s'.tree, p) == Owned(DirectoryOf(s, id), s'.tasks[id], p);
      if IsFinished(s', id) {
        FinishedOwnsNothing(DirectoryOf(s, id), s'.tasks[id], p);
      }
      assert DirectoryOf(s', id) == DirectoryOf(s, id);
    } else {
      assert At(s'.tree, p) == At(s.tree, p);
      assert Covered(s, p);
      var i: nat :| i < |s.tasks| && !IsFinished(s, i) && Under(p, DirectoryOf(s, i));
      assert i != id && s'.tasks[i] == s.tasks[i] && DirectoryOf(s', i) == DirectoryOf(s, i);
      assert !IsFinished(s', i);
    }
  }

  lemma EmitsOwnPeer(t: Task, step: TaskStep, held: bool)
    requires LocalInv(t) && Can(t, step, held)
    ensures Emits(t, step).Some? ==>
              !Emits(t, step).value.Lagged? && Emits(t, step).value.address == t.address
    ensures (Emits(t, step).Some? && Emits(t, step).value.Disconnected?) <==> step == Notify
    ensures step == Notify ==> Rank(t.wrapper) == 1
    ensures step == Notify || (Rank(t.wrapper) >= 2 <==> Rank(Do(t, step, held).wrapper) >= 2)
    ensures step == Notify ==> Rank(Do(t, step, held).wrapper) == 2
  {
  }

  lemma CountAppended(log: seq<LogEntry>, e: LogEntry, id: nat)
    ensures CountDisconnected(log + [e], id)
         == CountDisconnected(log, id) + if e.id == id && e.event.Disconnected? then 1 else 0
  {
    assert (log + [e])[..|log|] == log;
  }

  /** An emission of a running incarnation comes after everything its predecessors said. */
  lemma EmissionInOrder(s: State, id: nat, q: nat)
    requires TasksInv(s) && LogInv(s) && id < |s.tasks| && !IsFinished(s, id)
    requires q < |s.log| && !s.log[q].event.Lagged? && s.log[q].event.address == s.tasks[id].address
    ensures s.log[q].id <= id
  {
    assert EntryInv(s, s.log[q]);
  }

  lemma PerformEntries(s: State, id: nat, step: TaskStep)
    requires LogInv(s) && MayPerform(s, id, step) && LocalInv(s.tasks[id])
    ensures var s' := AfterTask(s, id, step); forall q: nat | q < |s'.log| :: EntryInv(s', s'.log[q])
  {
    var s' := AfterTask(s, id, step);
    var held := Self(s, id) in Held(s);
    EmitsOwnPeer(s.tasks[id], step, held);
    DoKeepsIdentity(s.tasks[id], step, held);
    forall q: nat | q < |s'.log|
      ensures EntryInv(s', s'.log[q])
    {
      if q < |s.log| {
        assert EntryInv(s, s.log[q]);
      }
    }
  }

  lemma PerformOrder(s: State, id: nat, step: TaskStep)
    requires LogInv(s) && TasksInv(s) && MayPerform(s, id, step) && !IsFinished(s, id) && LocalInv(s.tasks[id])
    ensures var s' := AfterTask(s, id, step);
            forall q: nat | q < |s'.log| :: EntryInv(s', s'.log[q])
    ensures var s' := AfterTask(s, id, step);
            forall p: nat, q: nat | p < q < |s'.log| && s'.log[p].event.address == s'.log[q].event.address ::
              s'.log[p].id <= s'.log[q].id
  {
    var s' := AfterTask(s, id, step);
    PerformEntries(s, id, step);
    EmitsOwnPeer(s.tasks[id], step, Self(s, id) in Held(s));
    forall p: nat, q: nat | p < q < |s'.log| && s'.log[p].event.address == s'.log[q].event.address
      ensures s'.log[p].id <= s'.log[q].id
    {
      assert EntryInv(s', s'.log[p]) && EntryInv(s', s'.log[q]);
      if q == |s.log| {
        EmissionInOrder(s, id, p);
      }
    }
  }

  lemma PerformCounts(s: State, id: nat, step: TaskStep)
    requires MayPerform(s, id, step) && LocalInv(s.tasks[id])
    requires forall i: nat | i < |s.tasks| ::
               CountDisconnected(s.log, i) == if Rank(s.tasks[i].wrapper) >= 2 then 1 else 0
    ensures var s' := AfterTask(s, id, step);
            forall i: nat | i < |s'.tasks| ::
              CountDisconnected(s'.log, i) == if Rank(s'.tasks[i].wrapper) >= 2 then 1 else 0
  {
    var s' := AfterTask(s, id, step);
    var emitted := Emits(s.tasks[id], step);
    EmitsOwnPeer(s.tasks[id], step, Self(s, id) in Held(s));
    forall i: nat | i < |s'.tasks|
      ensures CountDisconnected(s'.log, i) == if Rank(s'.tasks[i].wrapper) >= 2 then 1 else 0
    {
      assert i != id ==> s'.tasks[i] == s.tasks[i];
      if emitted.Some? {
        CountAppended(s.log, LogEntry(id, emitted.value), i);
      }
    }
  }

  lemma PerformLog(s: State, id: nat, step: TaskStep)
    requires LogInv(s) && TasksInv(s) && MayPerform(s, id, step)
    ensures LogInv(AfterTask(s, id, step))
  {
    assert LocalInv(s.tasks[id]);
    RunningStep(s.tasks[id], step, Self(s, id) in Held(s));
    PerformOrder(s, id, step);
    PerformCounts(s, id, step);
  }

  /** AcceptingServer's drop aborts its task, which by then has always ended: no
      handle among the locals of an accept loop is ever dropped by an abort. */
  lemma AbortMeetsEndedLoop(s: State, k: nat)
    requires Inv(s) && k < |s.loops| && s.loops[k].aborted
    ensures s.loops[k].phase == Ended && s.loops[k].joins == 1
  {
    assert LoopInv(s, k);
  }

  // ---- every action, every run --------------------------------------------

  lemma StepKeeps(s: State, a: Action)
    requires Inv(s) && Enabled(s, a)
    ensures Inv(Apply(s, a))
  {
    if IsLoopAction(a) {
      LoopActionKeeps(s, a);
    } else {
      OtherActionKeeps(s, a);
    }
  }

  lemma LoopActionKeeps(s: State, a: Action)
    requires Inv(s) && Enabled(s, a) && IsLoopAction(a)
    ensures Inv(Apply(s, a))
  {
    match a
    case AcceptControl(k, address) => AcceptControlKeeps(s, k, address);
    case AcceptError(k) => PhaseOnlyKeeps(s, k, Ended);
    case JoinExisting(k) => JoinExistingKeeps(s, k);
    case Create(k, built) => CreateKeeps(s, k, built);
    case Store(k) => StoreKeeps(s, k);
    case AcceptInterrupt(k, address, link) => AcceptInterruptKeeps(s, k, address, link);
    case HandOff(k) => HandOffKeeps(s, k);
    case LoopCancelled(k) => PhaseOnlyKeeps(s, k, Ended);
    case LoopAborted(k) => AbortMeetsEndedLoop(s, k);
  }

  lemma OtherActionKeeps(s: State, a: Action)
    requires Inv(s) && Enabled(s, a) && !IsLoopAction(a)
    ensures Inv(Apply(s, a))
  {
    match a
    case Perform(id, step) => PerformKeeps(s, id, step);
    case Up(registration, listens) => UpKeeps(s, registration, listens);
    case Down => DownKeeps(s, false);
    case Interrupted => DownKeeps(s, true);
    case LoopJoined => LoopJoinedKeeps(s);
    case StartClear => StartClearKeeps(s);
    case CancelNext => CancelNextKeeps(s);
    case JoinCurrent => JoinCurrentKeeps(s);
    case FinishClear => FinishClearKeeps(s);
  }

  lemma {:induction false} RunKeeps(s: State, acts: seq<Action>)
    requires Inv(s) && Valid(s, acts)
    ensures Inv(Run(s, acts))
    decreases |acts|
  {
    if acts != [] {
      StepKeeps(s, acts[0]);
      RunKeeps(Apply(s, acts[0]), acts[1..]);
    }
  }

  lemma Prepend(s: State, a: Action, rest: seq<Action>)
    requires Enabled(s, a) && Valid(Apply(s, a), rest)
    ensures Valid(s, [a] + rest) && Run(s, [a] + rest) == Run(Apply(s, a), rest)
  {
    assert ([a] + rest)[1..] == rest;
  }

  lemma {:induction false} Append(s: State, first: seq<Action>, rest: seq<Action>)
    requires Valid(s, first) && Valid(Run(s, first), rest)
    ensures Valid(s, first + rest) && Run(s, first + rest) == Run(Run(s, first), rest)
    decreases |first|
  {
    if first == [] {
      assert first + rest == rest;
    } else {
      Append(Apply(s, first[0]), first[1..], rest);
      AppendStep(s, first[0], first[1..], rest);
      assert [first[0]] + first[1..] == first;
    }
  }

  lemma AppendStep(s: State, a: Action, first: seq<Action>, rest: seq<Action>)
    requires Enabled(s, a) && Valid(Apply(s, a), first + rest)
    ensures Valid(s, [a] + first + rest) && Run(s, [a] + first + rest) == Run(Apply(s, a), first + rest)
  {
    assert [a] + first + rest == [a] + (first + rest);
    Prepend(s, a, first + rest);
  }
}
