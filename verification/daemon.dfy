/** The whole daemon: the command clients and their queue, the main loop of src/main.rs
    that serves them, and the server with its accept loops and connections. */
module Daemon {
  import opened Common
  import opened FileTree
  import opened InfoFile
  import opened CommandHandling
  import opened Incarnation
  import opened Lifecycle
  import opened LifecycleInvariant
  import opened LifecycleFrames
  import opened LifecycleTheorems
  import opened LifecycleDescriptions
  import opened LifecycleCleanup
  import LifecycleSteps
  import Protocol = CommandProtocol
  import Server

  datatype Whole = Whole(protocol: Protocol.State, life: State)

  datatype Step =
    | ClientStep(step: Protocol.Step)
    | Background(action: Action)                    // accept loops, connections, the shutdown sequence
    | BeginDown                                     // `down` cancels the loop and awaits it
    | Reply(registered: bool, configuration: Configuration, listens: bool)
    | Signal

  function Start(root: Path, base: Tree): Whole {
    Whole(Protocol.Start(), Initial(root, base))
  }

  /** What goes on without a decision of the main loop's command handler. */
  predicate IsBackground(life: State, a: Action) {
    !a.Up? && a != Down && a != Interrupted && (a == LoopJoined ==> life.main != JoiningLoop(false))
  }

  /** The command in service takes the server down, as handle_command decides it: by
      asking the server itself who the registrant is. */
  predicate TakesDown(w: Whole) {
    && w.protocol.serving.Some? && w.protocol.serving.value.body.Deregister?
    && w.life.accepting.Some? && MayChange(Server.ActiveOf(w.life), w.protocol.serving.value.id)
  }

  predicate CanStep(w: Whole, step: Step) {
    match step
    case ClientStep(p) => !p.Finish? && Protocol.Enabled(w.protocol, p) && (p.Take? ==> w.life.main == Serving)
    case Background(a) => IsBackground(w.life, a) && Enabled(w.life, a)
    case BeginDown => w.life.main == Serving && TakesDown(w)
    case Reply(registered, configuration, _) =>
      && Protocol.Enabled(w.protocol, Protocol.Finish(registered, configuration))
      && if TakesDown(w) then w.life.main == JoiningLoop(false) && Enabled(w.life, LoopJoined)
         else w.life.main == Serving
    case Signal => w.life.main == Serving && w.protocol.serving.None?
  }

  /** The server after the command in service; a failed listen ends the process before
      it can reply. */
  function AfterCommand(w: Whole, registered: bool, configuration: Configuration, listens: bool): State
    requires CanStep(w, Reply(registered, configuration, listens))
  {
    var q := Protocol.RequestOf(w.protocol, registered, configuration);
    if TakesDown(w) then Apply(w.life, LoopJoined)
    else if q.body.Register? && registered && MayChange(Server.ActiveOf(w.life), q.id) then
      Apply(w.life, Up(Registration(q), listens))
    else w.life
  }

  function Next(w: Whole, step: Step): Whole
    requires CanStep(w, step)
  {
    match step
    case ClientStep(p) => w.(protocol := Protocol.Apply(w.protocol, p))
    case Background(a) => w.(life := Apply(w.life, a))
    case BeginDown => w.(life := Apply(w.life, Down))
    case Reply(registered, configuration, listens) =>
      var life := AfterCommand(w, registered, configuration, listens);
      if life.main == Crashed then w.(life := life)
      else Whole(Protocol.AfterFinish(w.protocol, registered, configuration), life)
    case Signal => w.(life := Apply(w.life, Interrupted))
  }

  predicate InService(life: State) {
    life.main == Serving || life.main == JoiningLoop(false)
  }

  /** Both halves are in order; while the main loop serves commands, the registration of
      the server is the one that the commands served so far amount to. */
  ghost predicate Coupled(w: Whole) {
    && Protocol.Inv(w.protocol) && Inv(w.life)
    && (InService(w.life) || w.life.main.JoiningLoop? ==> Server.ActiveOf(w.life) == w.protocol.active)
    && (w.life.main == JoiningLoop(false) ==> TakesDown(w))
    && (w.protocol.serving.Some? ==> InService(w.life) || w.life.main == Crashed)
  }

  lemma StartCoupled(root: Path, base: Tree)
    requires CleanBase(root, base)
    ensures Coupled(Start(root, base))
  {
    Protocol.StartInv();
    LifecycleSteps.InitialInv(root, base);
  }

  lemma ClientKeepsCoupled(w: Whole, p: Protocol.Step)
    requires Coupled(w) && CanStep(w, ClientStep(p))
    ensures Coupled(Next(w, ClientStep(p)))
  {
    Protocol.StepKeeps(w.protocol, p);
    assert p.Take? ==> w.life.main == Serving;
    assert Protocol.Apply(w.protocol, p).active == w.protocol.active;
  }

  lemma BackgroundMain(life: State, a: Action)
    requires Inv(life) && Enabled(life, a) && IsBackground(life, a)
    ensures var life' := Apply(life, a);
            && (InService(life') <==> InService(life)) && (InService(life) ==> life'.main == life.main)
            && (life'.main.JoiningLoop? ==> life'.main == life.main && a != LoopJoined)
            && (life.main == Crashed <==> life'.main == Crashed)
            && (InService(life) ==> life'.accepting == life.accepting)
  {
    if IsLoopAction(a) {
      LoopActionFrame(life, a);
    } else if a.Perform? {
      PerformAccepting(life, a.id, a.step);
    } else {
      if a == LoopJoined { LifecycleSteps.LoopJoinedLoops(life); }
      ShutdownMain(life, a);
    }
  }

  /** What is left are the steps of the shutdown sequence. */
  lemma ShutdownMain(life: State, a: Action)
    requires Enabled(life, a) && IsBackground(life, a) && !IsLoopAction(a) && !a.Perform?
    requires a == LoopJoined ==> Apply(life, a).main != Crashed
    ensures !InService(life) && !InService(Apply(life, a)) && life.main != Crashed && Apply(life, a).main != Crashed
    ensures !Apply(life, a).main.JoiningLoop?
  {
  }

  lemma BackgroundKeepsCoupled(w: Whole, a: Action)
    requires Coupled(w) && CanStep(w, Background(a))
    ensures Coupled(Next(w, Background(a)))
  {
    LifecycleSteps.StepKeeps(w.life, a);
    BackgroundMain(w.life, a);
    Server.RegistrationStep(w.life, a);
  }

  /** `down` has begun: the registration stays until the loop is joined. */
  lemma BeginDownKeepsCoupled(w: Whole)
    requires Coupled(w) && CanStep(w, BeginDown)
    ensures Coupled(Next(w, BeginDown))
  {
    LifecycleSteps.StepKeeps(w.life, Down);
    Server.RegistrationStep(w.life, Down);
  }

  lemma SignalKeepsCoupled(w: Whole)
    requires Coupled(w) && CanStep(w, Signal)
    ensures Coupled(Next(w, Signal))
  {
    LifecycleSteps.StepKeeps(w.life, Interrupted);
    Server.RegistrationStep(w.life, Interrupted);
  }

  /** The server holds what serving the command on values gives, unless the process ended. */
  ghost predicate ServesRight(w: Whole, registered: bool, configuration: Configuration, life: State) {
    && w.protocol.serving.Some? && Inv(life) && (life.main == Serving || life.main == Crashed)
    && (life.main == Serving ==>
          Server.ActiveOf(life)
          == Serve(w.protocol.active, Protocol.RequestOf(w.protocol, registered, configuration)).active)
  }

  lemma CommandOutcome(w: Whole, registered: bool, configuration: Configuration, listens: bool)
    requires Coupled(w) && CanStep(w, Reply(registered, configuration, listens))
    ensures ServesRight(w, registered, configuration, AfterCommand(w, registered, configuration, listens))
  {
    if TakesDown(w) {
      JoinServesRight(w, registered, configuration);
    } else {
      var q := Protocol.RequestOf(w.protocol, registered, configuration);
      if q.body.Register? && registered && MayChange(Server.ActiveOf(w.life), q.id) {
        UpServesRight(w, q, registered, configuration, listens);
      }
    }
  }

  lemma JoinServesRight(w: Whole, registered: bool, configuration: Configuration)
    requires Coupled(w) && TakesDown(w) && w.life.main == JoiningLoop(false) && Enabled(w.life, LoopJoined)
    ensures ServesRight(w, registered, configuration, Apply(w.life, LoopJoined))
  {
    LifecycleSteps.StepKeeps(w.life, LoopJoined);
    DownThenUp(w.life, RegistrationInfo(0, [], configuration));
    Server.RegistrationStep(w.life, LoopJoined);
  }

  lemma UpServesRight(w: Whole, q: Request, registered: bool, configuration: Configuration, listens: bool)
    requires Coupled(w) && w.protocol.serving.Some? && q == Protocol.RequestOf(w.protocol, registered, configuration)
    requires q.body.Register? && registered && MayChange(Server.ActiveOf(w.life), q.id) && w.life.main == Serving
    ensures ServesRight(w, registered, configuration, Apply(w.life, Up(Registration(q), listens)))
  {
    var a := Up(Registration(q), listens);
    LifecycleSteps.StepKeeps(w.life, a);
    Server.RegistrationStep(w.life, a);
    CrashStep(w.life, a);
  }

  lemma ReplyKeepsCoupled(w: Whole, registered: bool, configuration: Configuration, listens: bool)
    requires Coupled(w) && CanStep(w, Reply(registered, configuration, listens))
    ensures Coupled(Next(w, Reply(registered, configuration, listens)))
  {
    CommandOutcome(w, registered, configuration, listens);
    Protocol.StepKeeps(w.protocol, Protocol.Finish(registered, configuration));
  }

  lemma NextKeepsCoupled(w: Whole, step: Step)
    requires Coupled(w) && CanStep(w, step)
    ensures Coupled(Next(w, step))
  {
    match step
    case ClientStep(p) => ClientKeepsCoupled(w, p);
    case Background(a) => BackgroundKeepsCoupled(w, a);
    case BeginDown => BeginDownKeepsCoupled(w);
    case Reply(registered, configuration, listens) => ReplyKeepsCoupled(w, registered, configuration, listens);
    case Signal => SignalKeepsCoupled(w);
  }

  predicate CanRun(w: Whole, steps: seq<Step>)
    decreases |steps|
  {
    steps == [] || (CanStep(w, steps[0]) && CanRun(Next(w, steps[0]), steps[1..]))
  }

  function After(w: Whole, steps: seq<Step>): Whole
    requires CanRun(w, steps)
    decreases |steps|
  {
    if steps == [] then w else After(Next(w, steps[0]), steps[1..])
  }

  lemma {:induction false} RunCoupled(w: Whole, steps: seq<Step>)
    requires Coupled(w) && CanRun(w, steps)
    ensures Coupled(After(w, steps))
    decreases |steps|
  {
    if steps != [] {
      NextKeepsCoupled(w, steps[0]);
      RunCoupled(Next(w, steps[0]), steps[1..]);
    }
  }

  /** On every run of the whole daemon, as long as it serves commands, the registration
      for which its server accepts connections is the fold of the commands it has
      served: it belongs to the one winning Register, and never to a closed client. */
  lemma ServerHoldsFold(root: Path, base: Tree, steps: seq<Step>)
    requires CleanBase(root, base) && CanRun(Start(root, base), steps)
    ensures var w := After(Start(root, base), steps);
            var trace := Protocol.Requests(w.protocol.served);
            InService(w.life) ==>
              && Server.ActiveOf(w.life) == Fold(trace)
              && (forall k: nat | Wins(trace, k) :: Server.ActiveOf(w.life) == Some(Registration(trace[k])))
              && (Server.ActiveOf(w.life).Some? ==> exists k: nat :: Wins(trace, k))
              && (forall id: nat | Protocol.InPhase(w.protocol, id, Protocol.Closed) ::
                    Server.ActiveOf(w.life).Some? ==> Server.ActiveOf(w.life).value.registrant != id)
  {
    StartCoupled(root, base);
    RunCoupled(Start(root, base), steps);
    HolderWon(Protocol.Requests(After(Start(root, base), steps).protocol.served));
  }

  /** The reply that follows in `w'` is true of the server as it then is. */
  ghost predicate RepliesTruthfully(w: Whole, w': Whole, registered: bool, configuration: Configuration) {
    var n := |w.protocol.served|;
    && w.protocol.serving.Some? && |w'.protocol.served| == n + 1
    && var r := w'.protocol.served[n];
       && r.request == Protocol.RequestOf(w.protocol, registered, configuration)
       && Truthful(Server.ActiveOf(w.life), r.request, Server.ActiveOf(w'.life), r.reply)
  }

  /** Whatever the main loop replies is true of the server at that moment: a Register was
      answered Okay exactly if it was carried out for its sender, who then holds the
      server's registration, and a Deregister exactly if no registration is left. */
  lemma ReplyIsTrue(w: Whole, registered: bool, configuration: Configuration, listens: bool)
    requires Coupled(w) && CanStep(w, Reply(registered, configuration, listens))
    ensures var w' := Next(w, Reply(registered, configuration, listens));
            w'.life.main != Crashed ==> RepliesTruthfully(w, w', registered, configuration)
  {
    CommandOutcome(w, registered, configuration, listens);
    ServeIsTruthful(w.protocol.active, Protocol.RequestOf(w.protocol, registered, configuration));
  }

  // ---- whose registration a connection is described by --------------------

  function TraceOf(w: Whole): seq<Request> {
    Protocol.Requests(w.protocol.served)
  }

  /** The one winning Register of the commands served so far. */
  ghost predicate WinningInfo(trace: seq<Request>, info: RegistrationInfo) {
    exists k: nat ::
      && Wins(trace, k)
      && info == RegistrationInfo(trace[k].id, trace[k].body.sdpRecord, trace[k].configuration)
  }

  /** At the moment a connection is spawned, it is described by the winning Register of
      the commands served so far, and its directory holds that registration's files. */
  lemma SpawnedForWinner(w: Whole, step: Step)
    requires Coupled(w) && CanStep(w, step) && |Next(w, step).life.tasks| > |w.life.tasks|
    ensures var life, i := Next(w, step).life, |w.life.tasks|;
            && |life.tasks| == i + 1 && WinningInfo(TraceOf(w), life.tasks[i].info)
            && At(life.tree, DirectoryOf(life, i) + [SdpXml]) == Some(File(life.tasks[i].info.sdpRecord))
  {
    SpawningStep(w, step);
    var a := step.action;
    SpawnedByLoop(w.life, a);
    LifecycleSteps.StepKeeps(w.life, a);
    LifecycleSteps.RunningLoop(w.life, a.k);
    HolderWon(TraceOf(w));
    assert Server.ActiveOf(w.life) == Some(w.life.loops[a.k].registration);
    SpawnedIsRunning(w.life, a.k);
    DirectoryListing(Apply(w.life, a), |w.life.tasks|, SdpXml);
  }

  lemma SpawnedIsRunning(life: State, k: nat)
    requires Enabled(life, Create(k, true))
    ensures |Apply(life, Create(k, true)).tasks| == |life.tasks| + 1
    ensures Apply(life, Create(k, true)).tasks[|life.tasks|].wrapper == Selecting
  {
  }

  /** Only an accept loop spawns. */
  lemma SpawningStep(w: Whole, step: Step)
    requires Coupled(w) && CanStep(w, step) && |Next(w, step).life.tasks| > |w.life.tasks|
    ensures step.Background? && step.action.Create? && step.action.built
  {
    match step
    case Background(a) => SpawnedByLoop(w.life, a);
    case BeginDown => SpawnedByLoop(w.life, Down);
    case Signal => SpawnedByLoop(w.life, Interrupted);
    case Reply(registered, configuration, listens) =>
      if TakesDown(w) {
        SpawnedByLoop(w.life, LoopJoined);
      } else {
        CommandSpawnsNothing(w, registered, configuration, listens);
      }
    case _ =>
  }

  lemma CommandSpawnsNothing(w: Whole, registered: bool, configuration: Configuration, listens: bool)
    requires CanStep(w, Reply(registered, configuration, listens)) && !TakesDown(w)
    ensures AfterCommand(w, registered, configuration, listens).tasks == w.life.tasks
  {
  }

  /** Incarnation `i` is described by the Register that was winning after some of the
      commands served so far. */
  ghost predicate DescribedByWinner(w: Whole, i: nat)
    requires i < |w.life.tasks|
  {
    exists m: nat :: m <= |w.protocol.served| && WinningInfo(TraceOf(w)[..m], w.life.tasks[i].info)
  }

  ghost predicate AllDescribed(w: Whole) {
    forall i: nat | i < |w.life.tasks| :: DescribedByWinner(w, i)
  }

  lemma ServedGrows(w: Whole, step: Step)
    requires CanStep(w, step)
    ensures TraceOf(w) <= TraceOf(Next(w, step))
  {
    match step
    case Reply(registered, configuration, _) =>
      var served' := Protocol.AfterFinish(w.protocol, registered, configuration).served;
      assert served' == w.protocol.served + [served'[|w.protocol.served|]];
      Protocol.RequestsAppend(w.protocol.served, served'[|w.protocol.served|]);
    case ClientStep(p) => assert Protocol.Apply(w.protocol, p).served == w.protocol.served;
    case _ =>
  }

  lemma LifeKeepsDescription(w: Whole, step: Step, i: nat)
    requires CanStep(w, step) && i < |w.life.tasks|
    ensures i < |Next(w, step).life.tasks| && Next(w, step).life.tasks[i].info == w.life.tasks[i].info
  {
    match step
    case Background(a) => DescriptionKept(w.life, a, i);
    case BeginDown => DescriptionKept(w.life, Down, i);
    case Signal => DescriptionKept(w.life, Interrupted, i);
    case Reply(registered, configuration, listens) =>
      if TakesDown(w) {
        DescriptionKept(w.life, LoopJoined, i);
      } else {
        CommandSpawnsNothing(w, registered, configuration, listens);
      }
    case _ =>
  }

  lemma StaysDescribed(w: Whole, w': Whole, i: nat, info: RegistrationInfo, m: nat)
    requires i < |w'.life.tasks| && w'.life.tasks[i].info == info && TraceOf(w) <= TraceOf(w')
    requires m <= |w.protocol.served| && WinningInfo(TraceOf(w)[..m], info)
    ensures DescribedByWinner(w', i)
  {
    assert TraceOf(w')[..m] == TraceOf(w)[..m];
    assert |TraceOf(w)| == |w.protocol.served| && |TraceOf(w')| == |w'.protocol.served|;
  }

  lemma OldDescribed(w: Whole, step: Step, i: nat)
    requires CanStep(w, step) && i < |w.life.tasks| && DescribedByWinner(w, i)
    ensures i < |Next(w, step).life.tasks| && DescribedByWinner(Next(w, step), i)
  {
    ServedGrows(w, step);
    LifeKeepsDescription(w, step, i);
    var m: nat :| m <= |w.protocol.served| && WinningInfo(TraceOf(w)[..m], w.life.tasks[i].info);
    StaysDescribed(w, Next(w, step), i, w.life.tasks[i].info, m);
  }

  lemma NewDescribed(w: Whole, step: Step)
    requires Coupled(w) && CanStep(w, step) && |Next(w, step).life.tasks| > |w.life.tasks|
    ensures |Next(w, step).life.tasks| == |w.life.tasks| + 1 && DescribedByWinner(Next(w, step), |w.life.tasks|)
  {
    ServedGrows(w, step);
    SpawnedForWinner(w, step);
    assert TraceOf(w)[..|w.protocol.served|] == TraceOf(w);
    StaysDescribed(w, Next(w, step), |w.life.tasks|, Next(w, step).life.tasks[|w.life.tasks|].info, |w.protocol.served|);
  }

  lemma DescribedNext(w: Whole, step: Step, i: nat)
    requires Coupled(w) && CanStep(w, step) && i < |Next(w, step).life.tasks|
    requires i < |w.life.tasks| ==> DescribedByWinner(w, i)
    ensures DescribedByWinner(Next(w, step), i)
  {
    if i < |w.life.tasks| {
      OldDescribed(w, step, i);
      return;
    }
    NewDescribed(w, step);
    assert i == |w.life.tasks|;
  }

  lemma DescribedStep(w: Whole, step: Step)
    requires Coupled(w) && CanStep(w, step) && AllDescribed(w)
    ensures AllDescribed(Next(w, step))
  {
    forall i: nat | i < |Next(w, step).life.tasks|
      ensures DescribedByWinner(Next(w, step), i)
    {
      DescribedNext(w, step, i);
    }
  }

  lemma {:induction false} DescribedAlong(w: Whole, steps: seq<Step>)
    requires Coupled(w) && CanRun(w, steps) && AllDescribed(w)
    ensures AllDescribed(After(w, steps)) && Coupled(After(w, steps))
    decreases |steps|
  {
    if steps != [] {
      DescribedStep(w, steps[0]);
      NextKeepsCoupled(w, steps[0]);
      DescribedAlong(Next(w, steps[0]), steps[1..]);
    }
  }

  /** On every run of the whole daemon every connection is described by a Register that
      won at some time, and until its wrapper drops them its info files are those of
      that registration. */
  lemma ConnectionsDescribed(root: Path, base: Tree, steps: seq<Step>, i: nat, name: FileName)
    requires CleanBase(root, base) && CanRun(Start(root, base), steps)
    requires i < |After(Start(root, base), steps).life.tasks|
    requires name != Ready && name != Interrupt && name != Control
    ensures var w := After(Start(root, base), steps);
            && DescribedByWinner(w, i)
            && (w.life.tasks[i].wrapper != DroppingDirectory && w.life.tasks[i].wrapper != Finished ==>
                  At(w.life.tree, DirectoryOf(w.life, i) + [name])
                  == match InfoContents(w.life.tasks[i].info, name)
                     case Some(data) => Some(File(data))
                     case None => None)
  {
    StartCoupled(root, base);
    DescribedAlong(Start(root, base), steps);
    var w := After(Start(root, base), steps);
    if w.life.tasks[i].wrapper != Finished {
      DirectoryListing(w.life, i, name);
    }
  }

  // ---- every command in service can be answered ---------------------------

  lemma First(w: Whole, step: Step, rest: seq<Step>)
    requires CanStep(w, step) && CanRun(Next(w, step), rest)
    ensures CanRun(w, [step] + rest) && After(w, [step] + rest) == After(Next(w, step), rest)
  {
    assert ([step] + rest)[1..] == rest;
  }

  const SOME_CONFIGURATION := Configuration(None, None, None, [], [])

  /** Nothing is in the way of a reply. */
  predicate ReadyToReply(w: Whole) {
    if TakesDown(w) then w.life.main == JoiningLoop(false) && Enabled(w.life, LoopJoined) else w.life.main == Serving
  }

  lemma CommandServes(w: Whole, registered: bool, configuration: Configuration)
    requires Coupled(w) && CanStep(w, Reply(registered, configuration, true))
    ensures AfterCommand(w, registered, configuration, true).main == Serving
  {
    CommandOutcome(w, registered, configuration, true);
    if TakesDown(w) {
      CrashStep(w.life, LoopJoined);
    } else {
      var q := Protocol.RequestOf(w.protocol, registered, configuration);
      if q.body.Register? && registered && MayChange(Server.ActiveOf(w.life), q.id) {
        CrashStep(w.life, Up(Registration(q), true));
      }
    }
  }

  lemma ReplyEnabled(w: Whole, registered: bool, configuration: Configuration)
    requires Protocol.QueueInv(w.protocol) && w.protocol.serving.Some? && ReadyToReply(w)
    ensures CanStep(w, Reply(registered, configuration, true))
  {
    Protocol.ServingClient(w.protocol);
  }

  lemma ReplyPossible(w: Whole)
    requires Coupled(w) && w.protocol.serving.Some? && ReadyToReply(w)
    ensures Answers(w, [Reply(true, SOME_CONFIGURATION, true)] + [])
  {
    var reply := Reply(true, SOME_CONFIGURATION, true);
    ReplyEnabled(w, true, SOME_CONFIGURATION);
    CommandServes(w, true, SOME_CONFIGURATION);
    AnswersNow(w, reply);
  }

  lemma DownMoves(life: State)
    requires Inv(life) && life.main == JoiningLoop(false)
    ensures Enabled(life, NextAction(life)) && Distance(Apply(life, NextAction(life))) < Distance(life)
    ensures NextAction(life) == LoopJoined || IsBackground(life, NextAction(life))
  {
    CleanupMoves(life);
  }

  ghost predicate Answers(w: Whole, steps: seq<Step>) {
    && CanRun(w, steps) && Coupled(After(w, steps)) && After(w, steps).life.main == Serving
    && |After(w, steps).protocol.served| == |w.protocol.served| + 1
  }

  lemma AnswersLater(w: Whole, step: Step, rest: seq<Step>)
    requires CanStep(w, step) && Answers(Next(w, step), rest) && Next(w, step).protocol == w.protocol
    ensures Answers(w, [step] + rest)
  {
    First(w, step, rest);
  }

  lemma AnswersNow(w: Whole, step: Step)
    requires Coupled(w) && CanStep(w, step) && Next(w, step).life.main == Serving
    requires |Next(w, step).protocol.served| == |w.protocol.served| + 1
    ensures Answers(w, [step] + [])
  {
    NextKeepsCoupled(w, step);
    First(w, step, []);
  }

  lemma DownStep(w: Whole)
    requires Coupled(w) && w.life.main == JoiningLoop(false) && NextAction(w.life) != LoopJoined
    ensures var next := Background(NextAction(w.life));
            && CanStep(w, next) && Coupled(Next(w, next)) && Next(w, next).protocol == w.protocol
            && Next(w, next).life.main == JoiningLoop(false) && Distance(Next(w, next).life) < Distance(w.life)
  {
    DownMoves(w.life);
    NextKeepsCoupled(w, Background(NextAction(w.life)));
    BackgroundMain(w.life, NextAction(w.life));
  }

  lemma BeginStep(w: Whole)
    requires Coupled(w) && CanStep(w, BeginDown)
    ensures Coupled(Next(w, BeginDown)) && Next(w, BeginDown).protocol == w.protocol
    ensures Next(w, BeginDown).life.main == JoiningLoop(false)
  {
    NextKeepsCoupled(w, BeginDown);
    DownBegins(w.life);
  }

  lemma DownBegins(life: State)
    requires LoopsInv(life) && life.main == Serving && life.accepting.Some?
    ensures Apply(life, Down).main == JoiningLoop(false)
  {
  }

  /** Once the accept loop has been cancelled, the command is answered when it has ended. */
  lemma {:induction false} DownCompletes(w: Whole) returns (steps: seq<Step>)
    requires Coupled(w) && w.protocol.serving.Some? && w.life.main == JoiningLoop(false)
    ensures Answers(w, steps)
    decreases Distance(w.life)
  {
    if NextAction(w.life) == LoopJoined {
      DownMoves(w.life);
      ReplyPossible(w);
      steps := [Reply(true, SOME_CONFIGURATION, true)] + [];
    } else {
      var next := Background(NextAction(w.life));
      DownStep(w);
      var rest := DownCompletes(Next(w, next));
      AnswersLater(w, next, rest);
      steps := [next] + rest;
    }
  }

  /** Whatever command the main loop has taken, and whatever the accept loop is doing, a
      run without further decisions of clients answers it and gets back to serving. */
  lemma CommandCompletes(w: Whole) returns (steps: seq<Step>)
    requires Coupled(w) && w.protocol.serving.Some? && w.life.main != Crashed
    ensures Answers(w, steps)
  {
    if w.life.main == JoiningLoop(false) {
      steps := DownCompletes(w);
    } else if TakesDown(w) {
      BeginStep(w);
      var rest := DownCompletes(Next(w, BeginDown));
      AnswersLater(w, BeginDown, rest);
      steps := [BeginDown] + rest;
    } else {
      ReplyPossible(w);
      steps := [Reply(true, SOME_CONFIGURATION, true)] + [];
    }
  }
}
