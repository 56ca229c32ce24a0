/** The life of a command client and of its commands: order of service, what ends a
    client's loop, and that every command can be served. */
module CommandClients {
  import opened Common
  import opened InfoFile
  import opened CommandHandling
  import opened CommandProtocol

  // ---- first in, first out ------------------------------------------------

  function CommandOf(q: Request): Command {
    Command(q.id, q.body)
  }

  function ServedCommands(served: seq<Record>): (cs: seq<Command>)
    ensures |cs| == |served| && forall k | 0 <= k < |cs| :: cs[k] == CommandOf(served[k].request)
  {
    seq(|served|, k requires 0 <= k < |served| => CommandOf(served[k].request))
  }

  /** The commands sent to the main loop along a run, in the order of the sends. */
  function SentAlong(s: State, steps: seq<Step>): seq<Command>
    requires Valid(s, steps)
    decreases |steps|
  {
    if steps == [] then []
    else
      (if steps[0].Enqueue? then [Command(steps[0].id, s.clients[steps[0].id].phase.body)] else [])
      + SentAlong(Apply(s, steps[0]), steps[1..])
  }

  /** What has passed through the queue: served, in service, still queued. */
  function Passed(s: State): seq<Command> {
    ServedCommands(s.served) + Outstanding(s)
  }

  lemma PassedStep(s: State, a: Step)
    requires Enabled(s, a)
    ensures Passed(Apply(s, a)) == Passed(s) + if a.Enqueue? then [Command(a.id, s.clients[a.id].phase.body)] else []
  {
    match a
    case Take => assert s.queue == [s.queue[0]] + s.queue[1..];
    case Finish(registered, configuration) => FinishPasses(s, registered, configuration);
    case _ =>
  }

  lemma FinishPasses(s: State, registered: bool, configuration: Configuration)
    requires Enabled(s, Finish(registered, configuration))
    ensures Passed(AfterFinish(s, registered, configuration)) == Passed(s)
  {
    var s' := AfterFinish(s, registered, configuration);
    assert ServedCommands(s'.served) == ServedCommands(s.served) + [s.serving.value];
  }

  lemma {:induction false} PassedAlong(s: State, steps: seq<Step>)
    requires Valid(s, steps)
    ensures Passed(Run(s, steps)) == Passed(s) + SentAlong(s, steps)
    decreases |steps|
  {
    if steps != [] {
      PassedStep(s, steps[0]);
      PassedAlong(Apply(s, steps[0]), steps[1..]);
    }
  }

  /** The main loop serves commands in the order in which they were sent to it: at any
      time those served, then the one in service, then those queued are all that were
      ever sent, and none was lost or repeated. */
  lemma ServedInOrder(steps: seq<Step>)
    requires Valid(Start(), steps)
    ensures var s := Run(Start(), steps);
            ServedCommands(s.served) + (if s.serving.Some? then [s.serving.value] else []) + s.queue
            == SentAlong(Start(), steps)
  {
    PassedAlong(Start(), steps);
    var s := Run(Start(), steps);
    assert Passed(Start()) == [];
    assert Passed(s) == ServedCommands(s.served) + (if s.serving.Some? then [s.serving.value] else []) + s.queue;
  }

  // ---- when a client's loop goes on ---------------------------------------

  /** A client goes on reading exactly if its reply was delivered and not Disconnected. */
  lemma ReadsOnIff(s: State, id: nat, delivered: bool)
    requires Enabled(s, SendReply(id, delivered))
    ensures Apply(s, SendReply(id, delivered)).clients[id].phase == Reading
            <==> delivered && ReplyBytes(s.clients[id].phase.reply) != [2]
  {
  }

  /** In every reachable state a client goes on reading after a reply exactly if the
      reply could be delivered; otherwise its closing Deregister is next. Either way the
      registration is untouched. */
  lemma ReadsOnIffDelivered(s: State, id: nat, delivered: bool)
    requires Inv(s) && Enabled(s, SendReply(id, delivered))
    ensures var s' := Apply(s, SendReply(id, delivered));
            && s'.active == s.active && s'.queue == s.queue && s'.served == s.served
            && (delivered ==> s'.clients[id].phase == Reading)
            && (!delivered ==> s'.clients[id].phase == Enqueuing(Deregister, true))
  {
    assert ClosingInv(s.clients[id].phase);
  }

  /** Client `id` does nothing along `steps` that could end its registration: it sends no
      DOWN, does not hang up, and its replies are delivered. Its packets may otherwise
      be anything. */
  predicate Loyal(steps: seq<Step>, id: nat) {
    forall a | a in steps ::
      && a != Hangup(id) && a != SendReply(id, false)
      && (a.Packet? && a.id == id ==> |a.buf| > 0 && a.buf[0] != 2)
  }

  /** It holds the registration and no Deregister of its own is on the way. */
  predicate HoldsFirmly(s: State, id: nat) {
    && Holds(s.active, id) && id < |s.clients| && s.clients[id].phase != Closed
    && (s.clients[id].phase.Enqueuing? || s.clients[id].phase.Waiting? ==> s.clients[id].phase.body.Register?)
  }

  lemma LoyalStep(s: State, a: Step, id: nat)
    requires Inv(s) && Enabled(s, a) && HoldsFirmly(s, id) && Loyal([a], id)
    ensures HoldsFirmly(Apply(s, a), id) && Apply(s, a).active == s.active
  {
    assert a in [a];
    match a
    case Packet(j, buf) =>
    case SendReply(j, delivered) => ReadsOnIffDelivered(s, j, delivered);
    case Finish(registered, configuration) => ServingClient(s);
    case _ =>
  }

  /** A registrant that never sends DOWN, does not hang up and gets its replies stays the
      registrant, with the same registration, whatever packets it sends and whatever
      anybody else does. */
  lemma {:induction false} LoyalRegistrantStays(s: State, steps: seq<Step>, id: nat)
    requires Inv(s) && Valid(s, steps) && HoldsFirmly(s, id) && Loyal(steps, id)
    ensures HoldsFirmly(Run(s, steps), id) && Run(s, steps).active == s.active
    decreases |steps|
  {
    if steps != [] {
      assert steps[0] in steps;
      LoyalStep(s, steps[0], id);
      StepKeeps(s, steps[0]);
      assert forall a | a in steps[1..] :: a in steps;
      LoyalRegistrantStays(Apply(s, steps[0]), steps[1..], id);
    }
  }

  // ---- every command can be served ----------------------------------------

  predicate IsService(a: Step) {
    a.Take? || a.Finish?
  }

  function ServiceDistance(s: State): nat {
    2 * |s.queue| + if s.serving.Some? then 1 else 0
  }

  function NextService(s: State): Step {
    if s.serving.Some? then Finish(true, Configuration(None, None, None, [], [])) else Take
  }

  lemma ServiceMoves(s: State)
    requires Inv(s) && Outstanding(s) != []
    ensures Enabled(s, NextService(s)) && ServiceDistance(Apply(s, NextService(s))) < ServiceDistance(s)
  {
    if s.serving.Some? {
      ServingClient(s);
    }
  }

  lemma Prepend(s: State, a: Step, rest: seq<Step>)
    requires Enabled(s, a) && Valid(Apply(s, a), rest)
    ensures Valid(s, [a] + rest) && Run(s, [a] + rest) == Run(Apply(s, a), rest)
  {
    assert ([a] + rest)[1..] == rest;
  }

  /** The main loop cannot get stuck on a command: from every reachable state a bounded
      run of it alone answers all waiting clients. */
  lemma {:induction false} EveryCommandServed(s: State) returns (steps: seq<Step>)
    requires Inv(s)
    ensures Valid(s, steps) && |steps| <= ServiceDistance(s) && forall a | a in steps :: IsService(a)
    ensures Outstanding(Run(s, steps)) == []
    ensures forall id: nat | id < |Run(s, steps).clients| :: !Run(s, steps).clients[id].phase.Waiting?
    decreases ServiceDistance(s)
  {
    if Outstanding(s) == [] {
      steps := [];
      NobodyWaits(s);
    } else {
      var a := NextService(s);
      ServiceMoves(s);
      StepKeeps(s, a);
      var rest := EveryCommandServed(Apply(s, a));
      Prepend(s, a, rest);
      steps := [a] + rest;
    }
  }

  lemma NobodyWaits(s: State)
    requires QueueInv(s) && Outstanding(s) == []
    ensures forall id: nat | id < |s.clients| :: !s.clients[id].phase.Waiting?
  {
  }
}
