/** Which interrupt sockets reach the handler of a connection, and in what order. */
module LifecycleLinks {
  import opened Common
  import opened FileTree
  import opened InfoFile
  import opened ConnectionList
  import opened Incarnation
  import opened Lifecycle
  import opened LifecycleInvariant
  import opened LifecycleFrames
  import opened LifecycleSteps
  import opened LifecycleHearing
  import opened LifecycleLate
  import opened LifecycleDescriptions

  /** The interrupt socket that this action accepts from the peer of incarnation `id`,
      while that incarnation is the listed connection of the peer. */
  function OpenedBy(s: State, a: Action, id: nat): seq<Link> {
    if a.AcceptInterrupt? && id < |s.tasks| && a.address == s.tasks[id].address && Self(s, id) in s.connections
    then [a.link] else []
  }

  /** All of them along a run, in the order in which the peer sockets them. */
  function OpenedAlong(s: State, acts: seq<Action>, id: nat): seq<Link>
    requires Valid(s, acts)
    decreases |acts|
  {
    if acts == [] then [] else OpenedBy(s, acts[0], id) + OpenedAlong(Apply(s, acts[0]), acts[1..], id)
  }

  /** The socket that an accept loop is about to queue for `id`. */
  function InFlight(s: State, id: nat): seq<Link>
    requires id < |s.tasks|
  {
    if s.accepting.Some? && s.accepting.value < |s.loops| then
      match s.loops[s.accepting.value].phase
      case Handing(target, link) => if target == Self(s, id) then [link] else []
      case _ => []
    else []
  }

  /** Of the sockets in `sockets`, those queued so far come first; while the channel is
      open only the one in flight is missing. */
  ghost predicate LinksInv(s: State, id: nat, sockets: seq<Link>) {
    if id < |s.tasks| then
      && s.tasks[id].offered <= sockets
      && (ChannelOpen(s.tasks[id]) ==> s.tasks[id].offered + InFlight(s, id) == sockets)
    else sockets == []
  }

  lemma PerformLinks(s: State, id: nat, doer: nat, step: TaskStep, sockets: seq<Link>)
    requires Enabled(s, Perform(doer, step)) && id < |s.tasks| && LinksInv(s, id, sockets)
    ensures LinksInv(AfterTask(s, doer, step), id, sockets)
  {
    var held := Self(s, doer) in Held(s);
    DoKeepsIdentity(s.tasks[doer], step, held);
    StepOffersNothing(s.tasks[doer], step, held);
  }

  lemma StepOffersNothing(t: Task, step: TaskStep, held: bool)
    requires Can(t, step, held)
    ensures Do(t, step, held).offered == t.offered
    ensures ChannelOpen(Do(t, step, held)) ==> ChannelOpen(t)
  {
    if IsHandlerStep(step) {
      HandlerOffersNothing(t, step, held);
    } else {
      WrapperOffersNothing(t, step, held);
    }
  }

  lemma HandlerOffersNothing(t: Task, step: TaskStep, held: bool)
    requires Can(t, step, held) && IsHandlerStep(step)
    ensures Do(t, step, held).offered == t.offered
    ensures ChannelOpen(Do(t, step, held)) ==> ChannelOpen(t)
  {
  }

  lemma WrapperOffersNothing(t: Task, step: TaskStep, held: bool)
    requires Can(t, step, held) && !IsHandlerStep(step)
    ensures Do(t, step, held).offered == t.offered && Do(t, step, held).interrupt == t.interrupt
  {
  }

  lemma LinkAccepted(s: State, k: nat, address: Address, link: Link, id: nat, sockets: seq<Link>)
    requires Inv(s) && Enabled(s, AcceptInterrupt(k, address, link)) && id < |s.tasks| && LinksInv(s, id, sockets)
    ensures LinksInv(AfterAcceptInterrupt(s, k, address, link), id, sockets + OpenedBy(s, AcceptInterrupt(k, address, link), id))
  {
    RunningLoop(s, k);
    ListDistinct(s);
    if Position(s.connections, address).Some? {
      ListedIsFound(s, Position(s.connections, address).value, id);
    }
    AcceptedLink(s, k, address, link, id, sockets);
  }

  lemma AcceptedLink(s: State, k: nat, address: Address, link: Link, id: nat, sockets: seq<Link>)
    requires k < |s.loops| && s.accepting == Some(k) && s.loops[k].phase == Accepting
    requires id < |s.tasks| && LinksInv(s, id, sockets)
    requires var found := Position(s.connections, address);
             found.Some? && Self(s, id) in s.connections && s.connections[found.value].peerAddress == s.tasks[id].address
             ==> s.connections[found.value] == Self(s, id)
    ensures LinksInv(AfterAcceptInterrupt(s, k, address, link), id, sockets + OpenedBy(s, AcceptInterrupt(k, address, link), id))
  {
    var found := Position(s.connections, address);
    assert found.Some? ==> s.connections[found.value] in s.connections;
  }

  /** The connection found for an address is the only one of its peer. */
  lemma ListedIsFound(s: State, p: nat, id: nat)
    requires Distinct(s.connections) && p < |s.connections| && id < |s.tasks|
    ensures Self(s, id) in s.connections && s.connections[p].peerAddress == s.tasks[id].address
            ==> s.connections[p] == Self(s, id)
  {
    if Self(s, id) in s.connections && s.connections[p].peerAddress == s.tasks[id].address {
      var n: nat :| n < |s.connections| && s.connections[n] == Self(s, id);
      assert n == p;
    }
  }

  lemma LinkHanded(s: State, k: nat, id: nat, sockets: seq<Link>)
    requires k < |s.loops| && s.loops[k].phase.Handing? && s.loops[k].phase.target.id < |s.tasks|
    requires Inv(s) && Enabled(s, HandOff(k)) && id < |s.tasks| && LinksInv(s, id, sockets)
    ensures LinksInv(AfterHandOff(s, k), id, sockets)
  {
    RunningLoop(s, k);
    TargetIsTask(s, k);
    HandedLink(s, k, id, sockets);
  }

  lemma HandedLink(s: State, k: nat, id: nat, sockets: seq<Link>)
    requires k < |s.loops| && s.loops[k].phase.Handing? && s.loops[k].phase.target.id < |s.tasks|
    requires s.accepting == Some(k) && Self(s, s.loops[k].phase.target.id) == s.loops[k].phase.target
    requires id < |s.tasks| && LinksInv(s, id, sockets)
    ensures LinksInv(AfterHandOff(s, k), id, sockets)
  {
  }

  lemma LoopLinks(s: State, a: Action, id: nat, sockets: seq<Link>)
    requires Inv(s) && Enabled(s, a) && IsLoopAction(a) && !a.AcceptInterrupt? && !a.HandOff?
    requires id < |s.tasks| && LinksInv(s, id, sockets)
    ensures LinksInv(Apply(s, a), id, sockets)
  {
    AbortedHasEnded(s, a);
    RunningLoop(s, a.k);
    LoopKeepsChannel(s, a, id);
  }

  lemma LoopKeepsChannel(s: State, a: Action, id: nat)
    requires Enabled(s, a) && IsLoopAction(a) && !a.AcceptInterrupt? && !a.HandOff? && !a.LoopAborted?
    requires id < |s.tasks| && s.accepting == Some(a.k)
    ensures var s' := Apply(s, a);
            && id < |s'.tasks| && s'.tasks[id].offered == s.tasks[id].offered
            && s'.tasks[id].interrupt == s.tasks[id].interrupt && s'.tasks[id].address == s.tasks[id].address
            && InFlight(s, id) == [] && InFlight(s', id) == []
  {
    if a.AcceptControl? {
      var taken := TakeExisting(s.connections, FinishedIds(s), a.address);
      TakingQuiet(s, a.k, a.address, taken);
      AcceptedFlight(s, a.k, a.address, taken);
    }
  }

  lemma AcceptedFlight(s: State, k: nat, address: Address, taken: Taken)
    requires k < |s.loops| && s.accepting == Some(k)
    ensures var s' := AfterTaking(s, k, address, taken);
            s'.accepting == Some(k) && k < |s'.loops| && !s'.loops[k].phase.Handing?
  {
  }

  lemma MainLinks(s: State, a: Action, id: nat, sockets: seq<Link>)
    requires Inv(s) && Enabled(s, a) && !IsLoopAction(a) && !a.Perform? && id < |s.tasks| && LinksInv(s, id, sockets)
    ensures LinksInv(Apply(s, a), id, sockets)
  {
    match a
    case LoopJoined =>
      JoinedFlight(s);
      JoinedLinks(s, id);
    case Up(registration, listens) => UpLinks(s, registration, listens, id);
    case _ => QuietLinks(s, a, id);
  }

  predicate SameLinks(s: State, s': State, id: nat) {
    && id < |s.tasks| && id < |s'.tasks| && s'.tasks[id].offered == s.tasks[id].offered
    && s'.tasks[id].interrupt == s.tasks[id].interrupt && InFlight(s', id) == InFlight(s, id)
  }

  lemma JoinedLinks(s: State, id: nat)
    requires Enabled(s, LoopJoined) && id < |s.tasks| && s.loops[s.accepting.value].phase == Ended
    ensures SameLinks(s, AfterLoopJoined(s), id)
  {
  }

  lemma UpLinks(s: State, registration: RegistrationInfo, listens: bool, id: nat)
    requires id < |s.tasks|
    ensures SameLinks(s, AfterUp(s, registration, listens), id)
  {
  }

  lemma QuietLinks(s: State, a: Action, id: nat)
    requires Enabled(s, a) && !IsLoopAction(a) && !a.Perform? && !a.Up? && a != LoopJoined && id < |s.tasks|
    ensures SameLinks(s, Apply(s, a), id)
  {
  }

  lemma JoinedFlight(s: State)
    requires LoopsInv(s) && Enabled(s, LoopJoined)
    ensures s.loops[s.accepting.value].phase == Ended
  {
    assert LoopInv(s, s.accepting.value);
  }

  lemma LinksStep(s: State, a: Action, id: nat, sockets: seq<Link>)
    requires Inv(s) && Enabled(s, a) && LinksInv(s, id, sockets)
    ensures LinksInv(Apply(s, a), id, sockets + OpenedBy(s, a, id))
  {
    if id >= |s.tasks| {
      NewLinks(s, a, id);
    } else if a.AcceptInterrupt? {
      LinkAccepted(s, a.k, a.address, a.link, id, sockets);
    } else {
      NoneOpened(s, a, id, sockets);
      OldLinks(s, a, id, sockets);
    }
  }

  lemma NoneOpened(s: State, a: Action, id: nat, sockets: seq<Link>)
    requires !a.AcceptInterrupt?
    ensures sockets + OpenedBy(s, a, id) == sockets
  {
  }

  lemma OldLinks(s: State, a: Action, id: nat, sockets: seq<Link>)
    requires Inv(s) && Enabled(s, a) && !a.AcceptInterrupt? && id < |s.tasks| && LinksInv(s, id, sockets)
    ensures LinksInv(Apply(s, a), id, sockets)
  {
    if a.Perform? {
      PerformLinks(s, id, a.id, a.step, sockets);
    } else if a.HandOff? {
      LinkHanded(s, a.k, id, sockets);
    } else if IsLoopAction(a) {
      LoopLinks(s, a, id, sockets);
    } else {
      MainLinks(s, a, id, sockets);
    }
  }

  /** A connection starts out with an empty channel. */
  lemma NewLinks(s: State, a: Action, id: nat)
    requires Inv(s) && Enabled(s, a) && id >= |s.tasks|
    ensures LinksInv(Apply(s, a), id, []) && OpenedBy(s, a, id) == []
  {
    SpawnedByLoop(s, a);
    if a.Create? && a.built && id == |s.tasks| {
      CreatedLinks(s, a.k);
    }
  }

  lemma CreatedLinks(s: State, k: nat)
    requires k < |s.loops| && s.loops[k].phase.Creating? && s.accepting == Some(k)
    ensures LinksInv(AfterCreate(s, k, true), |s.tasks|, [])
  {
  }

  lemma LinksJoined(e: State, id: nat, sockets: seq<Link>, first: seq<Link>, later: seq<Link>)
    requires LinksInv(e, id, sockets + first + later)
    ensures LinksInv(e, id, sockets + (first + later))
  {
    assert sockets + first + later == sockets + (first + later);
  }

  lemma {:induction false} LinksAlong(s: State, acts: seq<Action>, id: nat, sockets: seq<Link>)
    requires Inv(s) && Valid(s, acts) && LinksInv(s, id, sockets)
    ensures LinksInv(Run(s, acts), id, sockets + OpenedAlong(s, acts, id))
    decreases |acts|
  {
    if acts == [] {
      assert sockets + OpenedAlong(s, acts, id) == sockets;
    } else {
      LinksStep(s, acts[0], id, sockets);
      StepKeeps(s, acts[0]);
      var s1, first := Apply(s, acts[0]), OpenedBy(s, acts[0], id);
      LinksAlong(s1, acts[1..], id, sockets + first);
      LinksJoined(Run(s1, acts[1..]), id, sockets, first, OpenedAlong(s1, acts[1..], id));
    }
  }

  /** On every run, what was queued for an incarnation are the sockets that its peer
      sockets while it was the peer's connection, from the first one on, in order and
      without gaps; while the channel is open all but the one in flight have been queued.
      The socket that the handler uses is the very first of them. */
  lemma QueuedAsOpened(root: Path, base: Tree, acts: seq<Action>, id: nat)
    requires CleanBase(root, base) && Valid(Initial(root, base), acts)
    requires id < |Run(Initial(root, base), acts).tasks|
    ensures var s, sockets := Run(Initial(root, base), acts), OpenedAlong(Initial(root, base), acts, id);
            && s.tasks[id].offered <= sockets
            && (ChannelOpen(s.tasks[id]) ==> s.tasks[id].offered + InFlight(s, id) == sockets)
            && (s.tasks[id].used.Some? ==> sockets != [] && s.tasks[id].used.value == sockets[0])
  {
    var s0 := Initial(root, base);
    InitialInv(root, base);
    LinksAlong(s0, acts, id, []);
    RunKeeps(s0, acts);
    assert [] + OpenedAlong(s0, acts, id) == OpenedAlong(s0, acts, id);
    assert LocalInv(Run(s0, acts).tasks[id]);
  }
}
