/** The broadcast log of one peer, read incarnation by incarnation. */
module LifecycleLog {
  import opened Common
  import opened FileTree
  import opened InfoFile
  import opened AddressName
  import opened ConnectionList
  import opened Incarnation
  import opened Lifecycle
  import opened LifecycleInvariant
  import opened LifecycleSteps
  import opened LifecycleFrames
  import Event

  predicate About(e: LogEntry, a: Address) {
    !e.event.Lagged? && e.event.address == a
  }

  /** What a client that watches one peer sees. */
  function Restrict(log: seq<LogEntry>, a: Address): seq<LogEntry> {
    if log == [] then []
    else Restrict(log[..|log| - 1], a) + if About(log[|log| - 1], a) then [log[|log| - 1]] else []
  }

  /** What one incarnation said. */
  function Segment(log: seq<LogEntry>, id: nat): seq<LogEntry> {
    if log == [] then []
    else Segment(log[..|log| - 1], id) + if log[|log| - 1].id == id then [log[|log| - 1]] else []
  }

  /** The segments of the first `n` incarnations that belong to the peer, in order. */
  function Segments(log: seq<LogEntry>, tasks: seq<Task>, a: Address, n: nat): seq<LogEntry>
    requires n <= |tasks|
  {
    if n == 0 then []
    else Segments(log, tasks, a, n - 1) + if tasks[n - 1].address == a then Segment(log, n - 1) else []
  }

  lemma {:induction false} NoSegmentYet(log: seq<LogEntry>, id: nat)
    requires forall q: nat | q < |log| :: log[q].id != id
    ensures Segment(log, id) == []
  {
    if log != [] {
      NoSegmentYet(log[..|log| - 1], id);
    }
  }

  lemma SegmentAppend(log: seq<LogEntry>, e: LogEntry, id: nat)
    ensures Segment(log + [e], id) == Segment(log, id) + if e.id == id then [e] else []
  {
    assert (log + [e])[..|log|] == log;
  }

  /** `e` may come after `log`: its peer has not been spoken for by a later incarnation. */
  ghost predicate Follows(log: seq<LogEntry>, e: LogEntry, tasks: seq<Task>) {
    && e.id < |tasks| && About(e, tasks[e.id].address)
    && (forall q: nat | q < |log| :: log[q].id < |tasks| && About(log[q], tasks[log[q].id].address))
    && (forall q: nat | q < |log| && About(log[q], tasks[e.id].address) :: log[q].id <= e.id)
  }

  /** A later incarnation of the peer of `e` has said nothing yet. */
  lemma LaterSegmentEmpty(log: seq<LogEntry>, e: LogEntry, tasks: seq<Task>, id: nat)
    requires Follows(log, e, tasks) && e.id < id < |tasks| && tasks[id].address == tasks[e.id].address
    ensures Segment(log, id) == []
  {
    forall q: nat | q < |log|
      ensures log[q].id != id
    {
      assert About(log[q], tasks[log[q].id].address);
    }
    NoSegmentYet(log, id);
  }

  /** A new entry lands at the end of the last segment of its peer. */
  lemma {:induction false} SegmentsAppend(log: seq<LogEntry>, e: LogEntry, tasks: seq<Task>, a: Address, n: nat)
    requires n <= |tasks| && Follows(log, e, tasks)
    ensures Segments(log + [e], tasks, a, n)
         == Segments(log, tasks, a, n) + if About(e, a) && e.id < n then [e] else []
  {
    if n > 0 {
      SegmentsAppend(log, e, tasks, a, n - 1);
      SegmentAppend(log, e, n - 1);
      var before := Segments(log, tasks, a, n - 1);
      if tasks[n - 1].address == a {
        if e.id == n - 1 {
          assert before + (Segment(log, n - 1) + [e]) == before + Segment(log, n - 1) + [e];
        } else if e.id < n - 1 && About(e, a) {
          LaterSegmentEmpty(log, e, tasks, n - 1);
        }
      }
    }
  }

  ghost predicate Ordered(log: seq<LogEntry>, tasks: seq<Task>) {
    && (forall q: nat | q < |log| :: log[q].id < |tasks| && About(log[q], tasks[log[q].id].address))
    && (forall p: nat, q: nat | p < q < |log| && log[p].event.address == log[q].event.address :: log[p].id <= log[q].id)
  }

  lemma {:induction false} SegmentsOfOrdered(log: seq<LogEntry>, tasks: seq<Task>, a: Address)
    requires Ordered(log, tasks)
    ensures Restrict(log, a) == Segments(log, tasks, a, |tasks|)
  {
    if log == [] {
      EmptySegments(tasks, a, |tasks|);
    } else {
      var init, e := log[..|log| - 1], log[|log| - 1];
      assert log == init + [e];
      assert Ordered(init, tasks) by {
        assert forall q: nat | q < |init| :: init[q] == log[q];
      }
      SegmentsOfOrdered(init, tasks, a);
      forall q: nat | q < |init| && About(init[q], tasks[e.id].address)
        ensures init[q].id <= e.id
      {
        assert init[q] == log[q] && log[q].event.address == log[|log| - 1].event.address;
      }
      SegmentsAppend(init, e, tasks, a, |tasks|);
    }
  }

  lemma {:induction false} EmptySegments(tasks: seq<Task>, a: Address, n: nat)
    requires n <= |tasks|
    ensures Segments([], tasks, a, n) == []
  {
    if n > 0 {
      EmptySegments(tasks, a, n - 1);
    }
  }

  lemma {:induction false} SegmentCount(log: seq<LogEntry>, id: nat)
    ensures CountDisconnected(Segment(log, id), id) == CountDisconnected(log, id)
  {
    if log != [] {
      var init, e := log[..|log| - 1], log[|log| - 1];
      SegmentCount(init, id);
      if e.id == id {
        assert Segment(log, id) == Segment(init, id) + [e];
        CountAppended(Segment(init, id), e, id);
      } else {
        assert Segment(log, id) == Segment(init, id);
      }
    }
  }

  /** The events about a peer are the segments of its incarnations one after the
      other. A segment holds one Disconnected once its wrapper has announced it, and
      none before; in particular every finished incarnation has exactly one. */
  ghost predicate Segmented(s: State, a: Address) {
    && Restrict(s.log, a) == Segments(s.log, s.tasks, a, |s.tasks|)
    && (forall i: nat | i < |s.tasks| ::
          CountDisconnected(Segment(s.log, i), i) == if Rank(s.tasks[i].wrapper) >= 2 then 1 else 0)
    && (forall i: nat | IsFinished(s, i) :: CountDisconnected(Segment(s.log, i), i) == 1)
  }

  /** This holds on every run and for every peer. */
  lemma LogIsSegmented(root: Path, base: Tree, acts: seq<Action>, a: Address)
    requires CleanBase(root, base) && Valid(Initial(root, base), acts)
    ensures Segmented(Run(Initial(root, base), acts), a)
  {
    InitialInv(root, base);
    RunKeeps(Initial(root, base), acts);
    SegmentedState(Run(Initial(root, base), acts), a);
  }

  lemma LogOrdered(s: State)
    requires LogInv(s)
    ensures Ordered(s.log, s.tasks)
  {
    assert forall q: nat | q < |s.log| :: EntryInv(s, s.log[q]);
  }

  lemma SegmentedState(s: State, a: Address)
    requires LogInv(s)
    ensures Segmented(s, a)
  {
    LogOrdered(s);
    SegmentsOfOrdered(s.log, s.tasks, a);
    forall i: nat | i < |s.tasks|
      ensures CountDisconnected(Segment(s.log, i), i) == if Rank(s.tasks[i].wrapper) >= 2 then 1 else 0
    {
      SegmentCount(s.log, i);
    }
  }

  // ---- what may still follow a Disconnected event -------------------------

  predicate SaysControl(e: LogEntry, id: nat) {
    e.id == id && e.event.ControlListening?
  }

  /** Along `acts` incarnation `id` announces its control socket (again). */
  ghost predicate HeardAgain(s: State, acts: seq<Action>, id: nat) {
    && Valid(s, acts)
    && exists q: nat :: |s.log| <= q < |Run(s, acts).log| && SaysControl(Run(s, acts).log[q], id)
  }

  /** The log only grew, and not by a control announcement of `id`. */
  ghost predicate NothingSaid(log: seq<LogEntry>, log': seq<LogEntry>, id: nat) {
    log <= log' && forall q: nat | |log| <= q < |log'| :: !SaysControl(log'[q], id)
  }

  lemma ControlStep(s: State, a: Action, id: nat)
    requires TasksInv(s) && Enabled(s, a) && id < |s.tasks| && s.tasks[id].control == ControlFinished
    ensures id < |Apply(s, a).tasks| && Apply(s, a).tasks[id].control == ControlFinished
    ensures NothingSaid(s.log, Apply(s, a).log, id)
  {
    if a.Perform? {
      EmitsControl(s.tasks[a.id], a.step, Self(s, a.id) in Held(s));
    } else {
      SilentAction(s, a, id);
    }
  }

  lemma EmitsControl(t: Task, step: TaskStep, held: bool)
    requires Can(t, step, held)
    ensures t.control == ControlFinished ==> Do(t, step, held).control == ControlFinished
    ensures t.control == ControlFinished && Emits(t, step).Some? ==> !Emits(t, step).value.ControlListening?
  {
  }

  lemma SilentAction(s: State, a: Action, id: nat)
    requires !a.Perform? && Enabled(s, a) && id < |s.tasks|
    ensures Apply(s, a).log == s.log && id < |Apply(s, a).tasks|
    ensures Apply(s, a).tasks[id].control == s.tasks[id].control
  {
    if IsLoopAction(a) {
      LoopActionFrame(s, a);
    } else {
      MainActionFrame(s, a);
    }
    assert Undisturbed(s.tasks[id], Apply(s, a).tasks[id]);
  }

  lemma {:induction false} SilentOnceEnded(s: State, acts: seq<Action>, id: nat)
    requires Inv(s) && Valid(s, acts) && id < |s.tasks| && s.tasks[id].control == ControlFinished
    ensures NothingSaid(s.log, Run(s, acts).log, id)
    decreases |acts|
  {
    if acts != [] {
      ControlStep(s, acts[0], id);
      StepKeeps(s, acts[0]);
      SilentOnceEnded(Apply(s, acts[0]), acts[1..], id);
      SilenceAdds(s.log, Apply(s, acts[0]).log, Run(s, acts).log, id);
    }
  }

  lemma SilenceAdds(log: seq<LogEntry>, log': seq<LogEntry>, log'': seq<LogEntry>, id: nat)
    requires NothingSaid(log, log', id) && NothingSaid(log', log'', id)
    ensures NothingSaid(log, log'', id)
  {
    assert forall q: nat | |log| <= q < |log'| :: log''[q] == log'[q];
  }

  /** A run of one or two steps in which an unfinished control handler speaks. */
  function Nudge(s: State, id: nat): seq<Action>
    requires id < |s.tasks|
  {
    match s.tasks[id].control
    case ControlSpawned => [Perform(id, ControlListen)]
    case ControlAwaiting => [Perform(id, ControlAccept), Perform(id, ControlRestart)]
    case ControlPiping => [Perform(id, ControlRestart)]
    case ControlFinished => []
  }

  lemma NudgeSpeaks(s: State, id: nat)
    requires id < |s.tasks| && s.tasks[id].control != ControlFinished && s.main != Crashed
    ensures HeardAgain(s, Nudge(s, id), id)
  {
    var acts := Nudge(s, id);
    var s1 := Apply(s, acts[0]);
    if s.tasks[id].control == ControlAwaiting {
      assert acts[1..] == [Perform(id, ControlRestart)];
      assert Valid(s1, acts[1..]);
      var s2 := Apply(s1, acts[1]);
      assert Run(s1, acts[1..]) == s2 by { assert acts[1..][1..] == []; }
      assert Run(s, acts) == s2;
      assert SaysControl(s2.log[|s.log|], id);
    } else {
      assert acts[1..] == [];
      assert Run(s, acts) == s1;
      assert SaysControl(s1.log[|s.log|], id);
    }
  }

  /** In every reachable state, whatever its wrapper has announced, a control announcement
      of an incarnation can still come if and only if its control handler has not ended.
      Module LifecycleLate deals with both handlers. */
  lemma LateControlEvent(s: State, id: nat)
    requires Inv(s) && s.main != Crashed && id < |s.tasks|
    ensures (exists acts: seq<Action> :: HeardAgain(s, acts, id)) <==> s.tasks[id].control != ControlFinished
  {
    if s.tasks[id].control != ControlFinished {
      NudgeSpeaks(s, id);
    } else {
      forall acts: seq<Action> | Valid(s, acts)
        ensures !HeardAgain(s, acts, id)
      {
        SilentOnceEnded(s, acts, id);
      }
    }
  }

  /** A peer connects, and `rest` follows. */
  function Connecting(registration: RegistrationInfo, a: Address, rest: seq<Action>): seq<Action> {
    [Up(registration, true)] + ([AcceptControl(0, a)] + ([Create(0, true)] + ([Store(0)] + rest)))
  }

  /** The peer connects again, and the wrapper of its first connection, cancelled,
      announces the disconnection before the control handler has said anything. */
  function Overtaking(a: Address): seq<Action> {
    [AcceptControl(0, a)] + ([Perform(0, SelectCancel)] + ([Perform(0, Notify)] + ([Perform(0, ControlListen)] + [])))
  }

  /** So the events of one incarnation do not come in the order their names suggest: on
      this run ControlListening follows Disconnected. */
  lemma DisconnectedNotLast(root: Path, base: Tree, registration: RegistrationInfo, a: Address)
    requires CleanBase(root, base)
    ensures var acts := Connecting(registration, a, Overtaking(a));
            && Valid(Initial(root, base), acts)
            && Run(Initial(root, base), acts).log
               == [LogEntry(0, Event.Disconnected(a)), LogEntry(0, Event.ControlListening(a))]
  {
    var s0 := Initial(root, base);
    var s1 := Apply(s0, Up(registration, true));
    FirstConnection(s1, a);
    var s2 := Apply(s1, AcceptControl(0, a));
    var s3 := Apply(s2, Create(0, true));
    var s4 := Apply(s3, Store(0));
    SecondConnection(s4, a);
    Prepend(s3, Store(0), Overtaking(a));
    Prepend(s2, Create(0, true), [Store(0)] + Overtaking(a));
    Prepend(s1, AcceptControl(0, a), [Create(0, true)] + ([Store(0)] + Overtaking(a)));
    Prepend(s0, Up(registration, true), [AcceptControl(0, a)] + ([Create(0, true)] + ([Store(0)] + Overtaking(a))));
  }

  /** The accept loop runs alone and is idle. */
  predicate LoopIdle(s: State) {
    && s.main == Serving && |s.loops| == 1 && s.accepting == Some(0)
    && s.loops[0].phase == Accepting && s.log == []
  }

  lemma FirstConnection(s: State, a: Address)
    requires LoopIdle(s) && s.tasks == [] && s.connections == [] && s.tree == s.base && CleanBase(s.root, s.base)
    ensures Enabled(s, AcceptControl(0, a))
    ensures var s2 := Apply(s, AcceptControl(0, a)); Enabled(s2, Create(0, true))
    ensures var s3 := Apply(Apply(s, AcceptControl(0, a)), Create(0, true)); Enabled(s3, Store(0))
    ensures var s4 := Apply(Apply(Apply(s, AcceptControl(0, a)), Create(0, true)), Store(0));
            && LoopIdle(s4) && s4.connections == [Connection(a, 0)]
            && s4.tasks == [Spawned(a, s.loops[0].registration)]
  {
    var dir := ConnectionDirectory(s.root, a);
    assert dir[..|dir| - 1] == s.root && Under(dir, dir);
    var s2 := Apply(s, AcceptControl(0, a));
    assert s2 == s.(loops := s2.loops) && s2.loops[0].phase == Creating(a);
    var s3 := Apply(s2, Create(0, true));
    assert s3.connections == [] && s3.loops[0].phase == Storing(Connection(a, 0));
  }

  lemma SecondConnection(s: State, a: Address)
    requires LoopIdle(s) && s.connections == [Connection(a, 0)]
    requires |s.tasks| == 1 && s.tasks[0].address == a && s.tasks[0].wrapper == Selecting
    requires s.tasks[0].control == ControlSpawned
    ensures Valid(s, Overtaking(a))
    ensures Run(s, Overtaking(a)).log == [LogEntry(0, Event.Disconnected(a)), LogEntry(0, Event.ControlListening(a))]
  {
    SecondTaken(s, a);
    var s5 := Apply(s, AcceptControl(0, a));
    var s6 := Apply(s5, Perform(0, SelectCancel));
    assert s6.tasks[0].wrapper == Notifying && s6.tasks[0].control == ControlSpawned && s6.log == [];
    LateAnnouncement(s6, a);
    Prepend(s5, Perform(0, SelectCancel), [Perform(0, Notify)] + ([Perform(0, ControlListen)] + []));
    Prepend(s, AcceptControl(0, a), [Perform(0, SelectCancel)] + ([Perform(0, Notify)] + ([Perform(0, ControlListen)] + [])));
  }

  lemma LateAnnouncement(s: State, a: Address)
    requires s.main != Crashed && |s.tasks| == 1 && s.tasks[0].address == a && s.log == []
    requires s.tasks[0].wrapper == Notifying && s.tasks[0].control == ControlSpawned
    ensures var acts := [Perform(0, Notify)] + ([Perform(0, ControlListen)] + []);
            && Valid(s, acts)
            && Run(s, acts).log == [LogEntry(0, Event.Disconnected(a)), LogEntry(0, Event.ControlListening(a))]
  {
    var s7 := Apply(s, Perform(0, Notify));
    assert s7.tasks[0].control == ControlSpawned && s7.log == [LogEntry(0, Event.Disconnected(a))];
    Prepend(s7, Perform(0, ControlListen), []);
    Prepend(s, Perform(0, Notify), [Perform(0, ControlListen)] + []);
  }

  lemma SecondTaken(s: State, a: Address)
    requires LoopIdle(s) && s.connections == [Connection(a, 0)]
    requires |s.tasks| == 1 && s.tasks[0].address == a && s.tasks[0].wrapper == Selecting
    ensures var s5 := Apply(s, AcceptControl(0, a));
            && s5 == s.(connections := [], loops := s5.loops, tasks := s5.tasks)
            && s5.tasks == [s.tasks[0].(cancels := s.tasks[0].cancels + 1)]
  {
    var init: seq<Connection> := [];
    assert s.connections[..0] == init && s.connections[1..] == init;
    assert Retain(init, FinishedIds(s)) == [] && Position(init, a) == None;
    assert Retain(s.connections, FinishedIds(s)) == s.connections;
    var taken := Taken(init, Some(Connection(a, 0)));
    assert TakeExisting(s.connections, FinishedIds(s), a) == taken;
    NoneDroppedRunning(s.connections, taken, FinishedIds(s));
  }
}
