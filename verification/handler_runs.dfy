/** The supervisor loops as steps of an incarnation: whatever happens on the sockets, the
    handler task of module Incarnation can do what its loop does, and says the same. */
module HandlerRuns {
  import opened Common
  import opened Pipe
  import opened PipeSession
  import opened Incarnation
  import Event

  /** The steps of the control handler for what happens in its rounds, after it has
      announced its socket. */
  function AfterListening(attempts: seq<Attempt>): seq<TaskStep>
    requires attempts != []
    decreases |attempts|, 0
  {
    match attempts[0]
    case AcceptFails => [ControlEnd]
    case WrapFails => [ControlAccept] + [ControlEnd]
    case Connected(script) =>
      [ControlAccept]
      + if EndsLocally(script) then LaterControlSteps(attempts[1..])
        else if EndsRemotely(script) then [ControlEnd]
        else []
  }

  function LaterControlSteps(attempts: seq<Attempt>): seq<TaskStep>
    decreases |attempts|, 1
  {
    if attempts == [] then [] else [ControlRestart] + AfterListening(attempts)
  }

  /** The steps of an interrupt handler that has announced its socket. */
  function InterruptSteps(scripts: seq<seq<Io>>): seq<TaskStep>
    requires scripts != []
    decreases |scripts|, 0
  {
    if EndsLocally(scripts[0]) then LaterInterruptSteps(scripts[1..])
    else if EndsRemotely(scripts[0]) then [InterruptEnd]
    else []
  }

  function LaterInterruptSteps(scripts: seq<seq<Io>>): seq<TaskStep>
    decreases |scripts|, 1
  {
    if scripts == [] then [] else [InterruptRestart] + InterruptSteps(scripts)
  }

  function Times(n: nat, e: Event.ServerEvent): seq<Event.ServerEvent> {
    if n == 0 then [] else [e] + Times(n - 1, e)
  }

  /** `steps` can be taken from `t`, lead to `e` and send `n` times the event. */
  ghost predicate Does(t: Task, steps: seq<TaskStep>, held: bool, e: Task, n: nat, said: Event.ServerEvent) {
    CanAll(t, steps, held) && DoAll(t, steps, held) == e && EmittedBy(t, steps, held) == Times(n, said)
  }

  lemma DoesFirst(t: Task, step: TaskStep, rest: seq<TaskStep>, held: bool, e: Task, n: nat, said: Event.ServerEvent)
    requires Can(t, step, held) && Does(Do(t, step, held), rest, held, e, n, said)
    requires Emits(t, step).Some? ==> Emits(t, step).value == said
    ensures Does(t, [step] + rest, held, e, if Emits(t, step).Some? then n + 1 else n, said)
  {
    assert ([step] + rest)[1..] == rest;
  }

  /** The control handler after rounds that end with `attempts`. */
  function AfterRounds(t: Task, attempts: seq<Attempt>): Task {
    if GivesUp(attempts) then t.(control := ControlFinished) else t.(control := ControlPiping)
  }

  lemma {:induction false} LaterRounds(t: Task, attempts: seq<Attempt>, held: bool)
    requires attempts != [] && t.control == ControlAwaiting
    ensures Does(t, AfterListening(attempts), held, AfterRounds(t, attempts), Rounds(attempts) - 1, Event.ControlListening(t.address))
    decreases |attempts|, 0
  {
    var said := Event.ControlListening(t.address);
    var piping := t.(control := ControlPiping);
    match attempts[0]
    case AcceptFails => Gives(t, held);
    case WrapFails =>
      Gives(piping, held);
      DoesFirst(t, ControlAccept, [ControlEnd], held, t.(control := ControlFinished), 0, said);
    case Connected(script) =>
      if EndsLocally(script) {
        AcceptedRounds(t, attempts[1..], held);
      } else {
        LastRound(t, script, held);
      }
  }

  lemma {:induction false} AcceptedRounds(t: Task, later: seq<Attempt>, held: bool)
    requires t.control == ControlAwaiting
    ensures Does(t, [ControlAccept] + LaterControlSteps(later), held, AfterRounds(t, later), Rounds(later),
                 Event.ControlListening(t.address))
    decreases |later|, 2
  {
    var piping := t.(control := ControlPiping);
    RestartedRounds(piping, later, held);
    DoesFirst(t, ControlAccept, LaterControlSteps(later), held, AfterRounds(piping, later), Rounds(later),
              Event.ControlListening(t.address));
  }

  lemma Gives(t: Task, held: bool)
    requires t.control == ControlAwaiting || t.control == ControlPiping
    ensures Does(t, [ControlEnd], held, t.(control := ControlFinished), 0, Event.ControlListening(t.address))
  {
    DoesFirst(t, ControlEnd, [], held, t.(control := ControlFinished), 0, Event.ControlListening(t.address));
    assert [ControlEnd] + [] == [ControlEnd];
  }

  lemma LastRound(t: Task, script: seq<Io>, held: bool)
    requires t.control == ControlAwaiting && !EndsLocally(script)
    ensures Does(t, [ControlAccept] + (if EndsRemotely(script) then [ControlEnd] else []), held,
                 t.(control := if EndsRemotely(script) then ControlFinished else ControlPiping), 0,
                 Event.ControlListening(t.address))
  {
    var piping := t.(control := ControlPiping);
    if EndsRemotely(script) {
      Gives(piping, held);
      DoesFirst(t, ControlAccept, [ControlEnd], held, t.(control := ControlFinished), 0, Event.ControlListening(t.address));
    } else {
      DoesFirst(t, ControlAccept, [], held, piping, 0, Event.ControlListening(t.address));
    }
  }

  lemma {:induction false} RestartedRounds(t: Task, attempts: seq<Attempt>, held: bool)
    requires t.control == ControlPiping
    ensures Does(t, LaterControlSteps(attempts), held, AfterRounds(t, attempts), Rounds(attempts), Event.ControlListening(t.address))
    decreases |attempts|, 1
  {
    if attempts != [] {
      var awaiting := t.(control := ControlAwaiting);
      LaterRounds(awaiting, attempts, held);
      DoesFirst(t, ControlRestart, AfterListening(attempts), held, AfterRounds(awaiting, attempts),
                Rounds(attempts) - 1, Event.ControlListening(t.address));
    }
  }

  /** Whatever local peers come and go and whichever side fails, a fresh control handler
      can take the steps of its supervisor loop: it announces its socket exactly as often
      as `HandleControl` counts, and has ended exactly if that loop gives up. */
  lemma ControlSupervisor(t: Task, attempts: seq<Attempt>, held: bool)
    requires t.control == ControlSpawned && attempts != []
    ensures Does(t, [ControlListen] + AfterListening(attempts), held, AfterRounds(t, attempts),
                 Rounds(attempts), Event.ControlListening(t.address))
  {
    var awaiting := t.(control := ControlAwaiting);
    LaterRounds(awaiting, attempts, held);
    DoesFirst(t, ControlListen, AfterListening(attempts), held, AfterRounds(awaiting, attempts),
              Rounds(attempts) - 1, Event.ControlListening(t.address));
  }

  function AfterPipes(t: Task, scripts: seq<seq<Io>>): Task {
    if InterruptGivesUp(scripts) then t.(interrupt := InterruptFinished) else t.(interrupt := InterruptPiping)
  }

  lemma {:induction false} LaterPipes(t: Task, scripts: seq<seq<Io>>, held: bool)
    requires scripts != [] && t.interrupt == InterruptPiping
    ensures Does(t, InterruptSteps(scripts), held, AfterPipes(t, scripts), InterruptRounds(scripts) - 1,
                 Event.InterruptListening(t.address))
    decreases |scripts|, 0
  {
    if EndsLocally(scripts[0]) {
      RestartedPipes(t, scripts[1..], held);
    } else if EndsRemotely(scripts[0]) {
      DoesFirst(t, InterruptEnd, [], held, t.(interrupt := InterruptFinished), 0, Event.InterruptListening(t.address));
      assert [InterruptEnd] + [] == [InterruptEnd];
    }
  }

  lemma {:induction false} RestartedPipes(t: Task, scripts: seq<seq<Io>>, held: bool)
    requires t.interrupt == InterruptPiping
    ensures Does(t, LaterInterruptSteps(scripts), held, AfterPipes(t, scripts), InterruptRounds(scripts),
                 Event.InterruptListening(t.address))
    decreases |scripts|, 1
  {
    if scripts != [] {
      LaterPipes(t, scripts, held);
      DoesFirst(t, InterruptRestart, InterruptSteps(scripts), held, AfterPipes(t, scripts),
                InterruptRounds(scripts) - 1, Event.InterruptListening(t.address));
    }
  }

  /** The same for an interrupt handler that has received its socket and rewritten the
      ready file. */
  lemma InterruptSupervisor(t: Task, scripts: seq<seq<Io>>, held: bool)
    requires t.interrupt == InterruptReceived && scripts != []
    ensures Does(t, [InterruptStart(true)] + InterruptSteps(scripts), held, AfterPipes(t, scripts),
                 InterruptRounds(scripts), Event.InterruptListening(t.address))
  {
    var piping := t.(interrupt := InterruptPiping);
    LaterPipes(piping, scripts, held);
    DoesFirst(t, InterruptStart(true), InterruptSteps(scripts), held, AfterPipes(piping, scripts),
              InterruptRounds(scripts) - 1, Event.InterruptListening(t.address));
  }

  // ---- and nothing else ---------------------------------------------------

  predicate IsControlStep(step: TaskStep) {
    step == ControlAccept || step == ControlRestart || step == ControlEnd
  }

  const LOCAL_FAILURE: seq<Io> := [LocalRecv(Err(Other(0)))]
  const REMOTE_FAILURE: seq<Io> := [RemoteRecv(Err(Other(0)))]

  lemma Failures()
    ensures Feasible(EMPTY, LOCAL_FAILURE) && EndsLocally(LOCAL_FAILURE)
    ensures Feasible(EMPTY, REMOTE_FAILURE) && EndsRemotely(REMOTE_FAILURE)
    ensures Feasible(EMPTY, []) && !EndsLocally([]) && !EndsRemotely([])
  {
    assert LOCAL_FAILURE[1..] == [] && REMOTE_FAILURE[1..] == [];
  }

  lemma EndedTakesNone(t: Task, step: TaskStep, held: bool)
    requires t.control == ControlFinished && IsControlStep(step)
    ensures !Can(t, step, held)
  {
  }

  lemma EndIsLast(t: Task, steps: seq<TaskStep>, held: bool)
    requires steps != [] && steps[0] == ControlEnd && CanAll(t, steps, held)
    requires forall step | step in steps :: IsControlStep(step)
    ensures steps == [ControlEnd]
  {
    var next := if |steps| > 1 then steps[1] else ControlEnd;
    assert next in steps;
    EndedTakesNone(Do(t, ControlEnd, held), next, held);
  }

  ghost predicate Plausible(attempts: seq<Attempt>) {
    attempts != [] && forall k | 0 <= k < |attempts| && attempts[k].Connected? :: Feasible(EMPTY, attempts[k].script)
  }

  /** Whatever steps a listening control handler takes before it is aborted, its
      supervisor loop takes them for some course of events on its sockets. */
  lemma {:induction false} ControlTrace(t: Task, steps: seq<TaskStep>, held: bool) returns (attempts: seq<Attempt>)
    requires t.control == ControlAwaiting && CanAll(t, steps, held)
    requires forall step | step in steps :: IsControlStep(step)
    ensures Plausible(attempts) && steps <= AfterListening(attempts)
    decreases |steps|, 1
  {
    if steps == [] {
      return [AcceptFails];
    }
    assert steps[0] in steps;
    if steps[0] == ControlEnd {
      EndIsLast(t, steps, held);
      return [AcceptFails];
    }
    assert steps == [ControlAccept] + steps[1..];
    assert forall step | step in steps[1..] :: step in steps;
    attempts := PipingTrace(Do(t, ControlAccept, held), steps[1..], held);
  }

  lemma {:induction false} PipingTrace(t: Task, steps: seq<TaskStep>, held: bool) returns (attempts: seq<Attempt>)
    requires t.control == ControlPiping && CanAll(t, steps, held)
    requires forall step | step in steps :: IsControlStep(step)
    ensures Plausible(attempts) && [ControlAccept] + steps <= AfterListening(attempts)
    decreases |steps|, 2
  {
    Failures();
    if steps == [] {
      return [Connected([])];
    }
    assert steps[0] in steps;
    if steps[0] == ControlEnd {
      EndIsLast(t, steps, held);
      return [Connected(REMOTE_FAILURE)];
    }
    assert forall step | step in steps[1..] :: step in steps;
    var more := ControlTrace(Do(t, ControlRestart, held), steps[1..], held);
    attempts := [Connected(LOCAL_FAILURE)] + more;
    RestartedTrace(steps, more);
  }

  lemma RestartedTrace(steps: seq<TaskStep>, more: seq<Attempt>)
    requires steps != [] && steps[0] == ControlRestart && more != [] && steps[1..] <= AfterListening(more)
    ensures [ControlAccept] + steps <= AfterListening([Connected(LOCAL_FAILURE)] + more)
  {
    Failures();
    assert ([Connected(LOCAL_FAILURE)] + more)[1..] == more;
    assert steps == [ControlRestart] + steps[1..];
  }
}
