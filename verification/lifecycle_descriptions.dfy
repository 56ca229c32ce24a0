/** Whose registration a connection is described by, and what its directory holds. */
module LifecycleDescriptions {
  import opened Common
  import opened FileTree
  import opened InfoFile
  import opened ConnectionList
  import opened Incarnation
  import opened Lifecycle
  import opened LifecycleInvariant
  import opened LifecycleFrames
  import opened LifecycleSteps

  /** What is fixed when an incarnation is spawned. */
  predicate SameDescription(t: Task, t': Task) {
    t'.address == t.address && t'.info == t.info
  }

  lemma PerformKeepsDescriptions(s: State, id: nat, step: TaskStep, i: nat)
    requires Enabled(s, Perform(id, step)) && i < |s.tasks|
    ensures |AfterTask(s, id, step).tasks| == |s.tasks| && SameDescription(s.tasks[i], AfterTask(s, id, step).tasks[i])
  {
    DoKeepsIdentity(s.tasks[id], step, Self(s, id) in Held(s));
  }

  lemma LoopKeepsDescriptions(s: State, a: Action, i: nat)
    requires Enabled(s, a) && IsLoopAction(a) && i < |s.tasks|
    ensures i < |Apply(s, a).tasks| && SameDescription(s.tasks[i], Apply(s, a).tasks[i])
    ensures |Apply(s, a).tasks| == if a.Create? && a.built then |s.tasks| + 1 else |s.tasks|
  {
    if a.AcceptControl? {
      TakingQuiet(s, a.k, a.address, TakeExisting(s.connections, FinishedIds(s), a.address));
    }
  }

  lemma MainKeepsDescriptions(s: State, a: Action, i: nat)
    requires Enabled(s, a) && !IsLoopAction(a) && !a.Perform? && i < |s.tasks|
    ensures |Apply(s, a).tasks| == |s.tasks| && SameDescription(s.tasks[i], Apply(s, a).tasks[i])
  {
  }

  lemma DescriptionKept(s: State, a: Action, i: nat)
    requires Enabled(s, a) && i < |s.tasks|
    ensures i < |Apply(s, a).tasks| && SameDescription(s.tasks[i], Apply(s, a).tasks[i])
  {
    if IsLoopAction(a) {
      LoopKeepsDescriptions(s, a, i);
    } else if a.Perform? {
      PerformKeepsDescriptions(s, a.id, a.step, i);
    } else {
      MainKeepsDescriptions(s, a, i);
    }
  }

  lemma {:induction false} DescriptionKeptAlong(s: State, acts: seq<Action>, i: nat)
    requires Valid(s, acts) && i < |s.tasks|
    ensures i < |Run(s, acts).tasks| && SameDescription(s.tasks[i], Run(s, acts).tasks[i])
    decreases |acts|
  {
    if acts != [] {
      DescriptionKept(s, acts[0], i);
      DescriptionKeptAlong(Apply(s, acts[0]), acts[1..], i);
    }
  }

  /** Only the accept loop that the server holds spawns a connection: one, for the peer it
      has accepted, described by the registration that loop was started for. */
  lemma SpawnedByLoop(s: State, a: Action)
    requires Inv(s) && Enabled(s, a)
    ensures |s.tasks| <= |Apply(s, a).tasks| <= |s.tasks| + 1
    ensures |Apply(s, a).tasks| > |s.tasks| ==>
              && a.Create? && a.built && a.k < |s.loops| && s.loops[a.k].phase.Creating? && s.accepting == Some(a.k)
              && Apply(s, a).tasks[|s.tasks|].address == s.loops[a.k].phase.address
              && Apply(s, a).tasks[|s.tasks|].info == s.loops[a.k].registration
  {
    if a.Create? {
      RunningLoop(s, a.k);
    } else {
      NothingSpawned(s, a);
    }
  }

  lemma NothingSpawned(s: State, a: Action)
    requires Enabled(s, a) && !a.Create?
    ensures |Apply(s, a).tasks| == |s.tasks|
  {
    if a.AcceptControl? {
      TakingQuiet(s, a.k, a.address, TakeExisting(s.connections, FinishedIds(s), a.address));
    }
  }

  /** `first` leads to the moment at which accept loop `k` spawns incarnation `i`. */
  ghost predicate SpawnedAfter(s: State, first: seq<Action>, k: nat, i: nat, info: RegistrationInfo) {
    && Valid(s, first) && |Run(s, first).tasks| == i
    && k < |Run(s, first).loops| && Run(s, first).accepting == Some(k) && Run(s, first).loops[k].phase.Creating?
    && Run(s, first).loops[k].registration == info
  }

  ghost predicate SpawnedAlong(s: State, acts: seq<Action>, i: nat, info: RegistrationInfo) {
    exists first: seq<Action>, k: nat, later: seq<Action> ::
      acts == first + [Create(k, true)] + later && SpawnedAfter(s, first, k, i, info)
  }

  lemma SpawnedNow(s: State, k: nat, rest: seq<Action>, info: RegistrationInfo)
    requires s.accepting == Some(k) && k < |s.loops| && s.loops[k].phase.Creating? && s.loops[k].registration == info
    ensures SpawnedAlong(s, [Create(k, true)] + rest, |s.tasks|, info)
  {
    var none: seq<Action> := [];
    assert SpawnedAfter(s, none, k, |s.tasks|, info);
    assert [Create(k, true)] + rest == none + [Create(k, true)] + rest;
  }

  lemma SpawnedAfterMore(s: State, a: Action, first: seq<Action>, k: nat, i: nat, info: RegistrationInfo)
    requires Enabled(s, a) && SpawnedAfter(Apply(s, a), first, k, i, info)
    ensures SpawnedAfter(s, [a] + first, k, i, info)
  {
    Prepend(s, a, first);
  }

  lemma SpawnedLater(s: State, a: Action, rest: seq<Action>, i: nat, info: RegistrationInfo)
    requires Enabled(s, a) && SpawnedAlong(Apply(s, a), rest, i, info)
    ensures SpawnedAlong(s, [a] + rest, i, info)
  {
    var first: seq<Action>, k: nat, later: seq<Action> :|
      rest == first + [Create(k, true)] + later && SpawnedAfter(Apply(s, a), first, k, i, info);
    SpawnedAfterMore(s, a, first, k, i, info);
    SplitLater(a, rest, first, Create(k, true), later);
  }

  lemma SplitLater(a: Action, rest: seq<Action>, first: seq<Action>, create: Action, later: seq<Action>)
    requires rest == first + [create] + later
    ensures [a] + rest == ([a] + first) + [create] + later
  {
  }

  /** The action that spawns incarnation `i`, with whatever follows it. */
  lemma DescribedNow(s: State, a: Action, rest: seq<Action>, i: nat)
    requires Inv(s) && Enabled(s, a) && Valid(Apply(s, a), rest) && |s.tasks| <= i < |Apply(s, a).tasks|
    ensures i < |Run(Apply(s, a), rest).tasks| && SpawnedAlong(s, [a] + rest, i, Run(Apply(s, a), rest).tasks[i].info)
  {
    SpawnedByLoop(s, a);
    DescriptionKeptAlong(Apply(s, a), rest, i);
    SpawnedNow(s, a.k, rest, Run(Apply(s, a), rest).tasks[i].info);
  }

  /** On every run, every incarnation spawned along it is described, now and ever since,
      by the registration of the accept loop that spawned it, the one the server held
      at that moment. */
  lemma {:induction false} DescribedByItsLoop(s: State, acts: seq<Action>, i: nat)
    requires Inv(s) && Valid(s, acts) && |s.tasks| <= i < |Run(s, acts).tasks|
    ensures SpawnedAlong(s, acts, i, Run(s, acts).tasks[i].info)
    decreases |acts|
  {
    var a, rest := acts[0], acts[1..];
    assert acts == [a] + rest;
    if i < |Apply(s, a).tasks| {
      DescribedNow(s, a, rest, i);
    } else {
      StepKeeps(s, a);
      DescribedByItsLoop(Apply(s, a), rest, i);
      SpawnedLater(s, a, rest, i, Run(Apply(s, a), rest).tasks[i].info);
    }
  }

  // ---- what the directory holds -------------------------------------------

  /** As long as its wrapper has not finished, the directory of an incarnation holds: the
      ready file and the interrupt socket while the interrupt handler runs, the control
      socket while the control handler runs, the info files of its registration until
      the wrapper drops them, and nothing else. */
  lemma DirectoryListing(s: State, i: nat, name: FileName)
    requires Inv(s) && i < |s.tasks| && s.tasks[i].wrapper != Finished
    ensures var t, entry := s.tasks[i], At(s.tree, DirectoryOf(s, i) + [name]);
            && At(s.tree, DirectoryOf(s, i)) == Some(Directory)
            && (name == Ready ==>
                  entry == match t.interrupt
                           case InterruptFinished => None
                           case InterruptPiping => Some(File(['1' as int]))
                           case _ => Some(File(['0' as int])))
            && (name == Interrupt ==> entry == if t.interrupt == InterruptFinished then None else Some(Socket))
            && (name == Control ==> entry == if t.control == ControlFinished then None else Some(Socket))
            && (name != Ready && name != Interrupt && name != Control ==>
                  entry == if t.wrapper != DroppingDirectory && InfoContents(t.info, name).Some?
                           then Some(File(InfoContents(t.info, name).value)) else None)
  {
    var dir, t := DirectoryOf(s, i), s.tasks[i];
    assert Holds(s.tree, dir, t);
    assert At(s.tree, dir) == Owned(dir, t, dir);
    ChildBefore(s.tree, dir, t, name);
    LatestOfPlan(t.info, name);
    assert Rank(t.wrapper) <= 6 <==> t.wrapper != DroppingDirectory;
  }
}
