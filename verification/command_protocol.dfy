/** N command clients, one bounded FIFO queue and the main loop: handle_connection,
    the client tasks and CommandServer::listen of src/command.rs, and the receiving
    branch of the select loop in src/main.rs. */
module CommandProtocol {
  import opened Common
  import opened InfoFile
  import opened CommandHandling

  const QUEUE_CAPACITY := 16

  /** Where a client task is suspended. `closing` marks the final Deregister. */
  datatype Phase =
    | Reading
    | Enqueuing(body: CommandBody, closing: bool)
    | Waiting(body: CommandBody, closing: bool)
    | Replying(reply: Reply)
    | Closed

  /** `packets` and `answers` record what was received and what was answered. */
  datatype Client = Client(phase: Phase, packets: seq<Bytes>, answers: seq<Reply>)

  datatype Command = Command(id: nat, body: CommandBody)

  datatype Record = Record(request: Request, reply: Reply, closing: bool)

  /** The position of a client in `clients` is its connection id. */
  datatype State = State(
    clients: seq<Client>,
    queue: seq<Command>,
    serving: Option<Command>,
    active: Option<RegistrationInfo>,
    served: seq<Record>)

  datatype Step =
    | Connect
    | Packet(id: nat, buf: Bytes)
    | Hangup(id: nat)
    | Enqueue(id: nat)
    | SendReply(id: nat, delivered: bool)
    | Take
    | Finish(registered: bool, configuration: Configuration)

  function Start(): State {
    State([], [], None, None, [])
  }

  predicate InPhase(s: State, id: nat, phase: Phase) {
    id < |s.clients| && s.clients[id].phase == phase
  }

  predicate Enabled(s: State, a: Step) {
    match a
    case Connect => true
    case Packet(id, buf) => InPhase(s, id, Reading) && |buf| > 0
    case Hangup(id) => InPhase(s, id, Reading)
    case Enqueue(id) => id < |s.clients| && s.clients[id].phase.Enqueuing? && |s.queue| < QUEUE_CAPACITY
    case SendReply(id, _) => id < |s.clients| && s.clients[id].phase.Replying?
    case Take => s.serving.None? && s.queue != []
    case Finish(_, _) =>
      && s.serving.Some? && s.serving.value.id < |s.clients|
      && s.clients[s.serving.value.id].phase.Waiting?
  }

  function SetClient(s: State, id: nat, c: Client): State
    requires id < |s.clients|
  {
    s.(clients := s.clients[id := c])
  }

  function AfterPacket(c: Client, buf: Bytes): Client {
    match Parse(buf)
    case Ok(body) => Client(Enqueuing(body, false), c.packets + [buf], c.answers)
    case Err(_) => Client(Replying(MalformedCommand), c.packets + [buf], c.answers + [MalformedCommand])
  }

  /** The one-shot reply reaches the waiting client; a closing client drops it. */
  function AfterReply(c: Client, reply: Reply): Client
    requires c.phase.Waiting?
  {
    if c.phase.closing then c.(phase := Closed) else Client(Replying(reply), c.packets, c.answers + [reply])
  }

  function RequestOf(s: State, registered: bool, configuration: Configuration): Request
    requires s.serving.Some?
  {
    Request(s.serving.value.id, s.serving.value.body, registered, configuration)
  }

  function AfterFinish(s: State, registered: bool, configuration: Configuration): State
    requires Enabled(s, Finish(registered, configuration))
  {
    var q := RequestOf(s, registered, configuration);
    var outcome := Serve(s.active, q);
    var c := s.clients[q.id];
    s.(clients := s.clients[q.id := AfterReply(c, outcome.reply)],
       serving := None,
       active := outcome.active,
       served := s.served + [Record(q, outcome.reply, c.phase.closing)])
  }

  function Apply(s: State, a: Step): State
    requires Enabled(s, a)
  {
    match a
    case Connect => s.(clients := s.clients + [Client(Reading, [], [])])
    case Packet(id, buf) => SetClient(s, id, AfterPacket(s.clients[id], buf))
    case Hangup(id) => SetClient(s, id, s.clients[id].(phase := Enqueuing(Deregister, true)))
    case Enqueue(id) =>
      var phase := s.clients[id].phase;
      SetClient(s, id, s.clients[id].(phase := Waiting(phase.body, phase.closing)))
        .(queue := s.queue + [Command(id, phase.body)])
    case SendReply(id, delivered) =>
      SetClient(s, id, s.clients[id].(phase :=
        if delivered && !IsFatal(s.clients[id].phase.reply) then Reading else Enqueuing(Deregister, true)))
    case Take => s.(serving := Some(s.queue[0]), queue := s.queue[1..])
    case Finish(registered, configuration) => AfterFinish(s, registered, configuration)
  }

  // ---- the invariant ------------------------------------------------------

  /** The commands between a client and its reply: in service or in the queue. */
  function Outstanding(s: State): seq<Command> {
    (if s.serving.Some? then [s.serving.value] else []) + s.queue
  }

  ghost predicate DistinctIds(cs: seq<Command>) {
    forall i, j | 0 <= i < j < |cs| :: cs[i].id != cs[j].id
  }

  /** Exactly the waiting clients have a command outstanding, one each. */
  ghost predicate QueueInv(s: State) {
    && |s.queue| <= QUEUE_CAPACITY
    && DistinctIds(Outstanding(s))
    && (forall c | c in Outstanding(s) ::
          c.id < |s.clients| && s.clients[c.id].phase.Waiting? && s.clients[c.id].phase.body == c.body)
    && (forall id: nat | id < |s.clients| && s.clients[id].phase.Waiting? ::
          Command(id, s.clients[id].phase.body) in Outstanding(s))
    && (forall id: nat | id < |s.clients| :: ClosingInv(s.clients[id].phase))
  }

  /** Only a Deregister closes, and no reply of the main loop ends a client. */
  ghost predicate ClosingInv(phase: Phase) {
    && ((phase.Enqueuing? || phase.Waiting?) && phase.closing ==> phase.body == Deregister)
    && (phase.Replying? ==> phase.reply != Disconnected)
  }

  /** The registration is what the served trace folds to, no closed client has it, and
      every reply is the one that was due at its time. */
  ghost predicate ActiveInv(s: State) {
    && s.active == Fold(Requests(s.served))
    && (forall k: nat | k < |s.served| ::
          s.served[k].reply == Serve(Fold(Requests(s.served)[..k]), s.served[k].request).reply)
    && (s.active.Some? ==>
          s.active.value.registrant < |s.clients| && s.clients[s.active.value.registrant].phase != Closed)
  }

  function Requests(served: seq<Record>): seq<Request> {
    seq(|served|, k requires 0 <= k < |served| => served[k].request)
  }

  /** What client `id` asked of the main loop, and what it was told, in order. */
  function Asked(served: seq<Record>, id: nat): seq<CommandBody> {
    if served == [] then []
    else
      var r := served[|served| - 1];
      Asked(served[..|served| - 1], id) + if r.request.id == id && !r.closing then [r.request.body] else []
  }

  function Told(served: seq<Record>, id: nat): seq<Reply> {
    if served == [] then []
    else
      var r := served[|served| - 1];
      Told(served[..|served| - 1], id) + if r.request.id == id && !r.closing then [r.reply] else []
  }

  /** The well-formed commands among some packets. */
  function Commands(packets: seq<Bytes>): seq<CommandBody> {
    if packets == [] then []
    else
      Commands(packets[..|packets| - 1])
      + match Parse(packets[|packets| - 1])
        case Ok(body) => [body]
        case Err(_) => []
  }

  /** One answer per packet: MalformedCommand for those that do not parse, the main
      loop's replies, in order, for the others. */
  function Answers(packets: seq<Bytes>, replies: seq<Reply>): seq<Reply> {
    if packets == [] then []
    else
      var init := packets[..|packets| - 1];
      match Parse(packets[|packets| - 1])
      case Err(_) => Answers(init, replies) + [MalformedCommand]
      case Ok(_) =>
        if replies == [] then Answers(init, [])
        else Answers(init, replies[..|replies| - 1]) + [replies[|replies| - 1]]
  }

  predicate Unanswered(phase: Phase) {
    (phase.Enqueuing? || phase.Waiting?) && !phase.closing
  }

  /** Packets and answers of one client agree with what the main loop served. */
  ghost predicate AnswersInv(c: Client, served: seq<Record>, id: nat) {
    var done := if Unanswered(c.phase) && c.packets != [] then c.packets[..|c.packets| - 1] else c.packets;
    && (Unanswered(c.phase) ==> c.packets != [] && Parse(c.packets[|c.packets| - 1]) == Ok(c.phase.body))
    && |c.answers| == |done|
    && c.answers == Answers(done, Told(served, id))
    && Asked(served, id) == Commands(done)
    && |Told(served, id)| == |Asked(served, id)|
  }

  ghost predicate Inv(s: State) {
    && QueueInv(s) && ActiveInv(s)
    && (forall id: nat | id < |s.clients| :: AnswersInv(s.clients[id], s.served, id))
    && (forall k: nat | k < |s.served| :: s.served[k].request.id < |s.clients|)
  }

  lemma StartInv()
    ensures Inv(Start())
  {
  }

  // ---- preservation: queue ------------------------------------------------

  /** A client that is not waiting, before or after, and others as before. */
  lemma IdleKeepsQueue(s: State, id: nat, c: Client)
    requires QueueInv(s) && id < |s.clients|
    requires !s.clients[id].phase.Waiting? && !c.phase.Waiting? && ClosingInv(c.phase)
    ensures QueueInv(SetClient(s, id, c))
  {
    var s' := SetClient(s, id, c);
    assert Outstanding(s') == Outstanding(s);
  }

  lemma EnqueueKeepsQueue(s: State, id: nat)
    requires QueueInv(s) && Enabled(s, Enqueue(id))
    ensures QueueInv(Apply(s, Enqueue(id)))
  {
    var s' := Apply(s, Enqueue(id));
    var added := Command(id, s.clients[id].phase.body);
    assert Outstanding(s') == Outstanding(s) + [added];
    forall c | c in Outstanding(s)
      ensures c.id != id
    {
    }
    OutstandingAppend(Outstanding(s), added);
    assert ClosingInv(s.clients[id].phase);
  }

  lemma OutstandingAppend(cs: seq<Command>, c: Command)
    requires DistinctIds(cs) && forall d | d in cs :: d.id != c.id
    ensures DistinctIds(cs + [c])
    ensures forall d :: d in cs + [c] <==> d == c || d in cs
  {
  }

  lemma TakeKeepsQueue(s: State)
    requires QueueInv(s) && Enabled(s, Take)
    ensures QueueInv(Apply(s, Take))
  {
    assert Outstanding(Apply(s, Take)) == Outstanding(s) by {
      assert s.queue == [s.queue[0]] + s.queue[1..];
    }
  }

  lemma OutstandingFirst(c: Command, cs: seq<Command>)
    requires DistinctIds([c] + cs)
    ensures DistinctIds(cs)
    ensures forall d :: d in [c] + cs <==> d == c || d in cs
    ensures forall d | d in cs :: d.id != c.id
  {
    var all := [c] + cs;
    assert all[0] == c && forall k: nat | k < |cs| :: all[k + 1] == cs[k];
  }

  lemma FinishKeepsQueue(s: State, registered: bool, configuration: Configuration)
    requires QueueInv(s) && Enabled(s, Finish(registered, configuration))
    ensures QueueInv(AfterFinish(s, registered, configuration))
  {
    var s' := AfterFinish(s, registered, configuration);
    assert Outstanding(s) == [s.serving.value] + s.queue && Outstanding(s') == s.queue;
    OutstandingFirst(s.serving.value, s.queue);
    forall c | c in Outstanding(s')
      ensures c.id < |s'.clients| && s'.clients[c.id].phase.Waiting? && s'.clients[c.id].phase.body == c.body
    {
      assert c in Outstanding(s);
    }
    forall id: nat | id < |s'.clients|
      ensures s'.clients[id].phase.Waiting? ==> Command(id, s'.clients[id].phase.body) in Outstanding(s')
      ensures ClosingInv(s'.clients[id].phase)
    {
      if id == s.serving.value.id {
        ReplyCloses(s.clients[id], Serve(s.active, RequestOf(s, registered, configuration)).reply);
      } else {
        assert s'.clients[id] == s.clients[id] && ClosingInv(s.clients[id].phase);
      }
    }
  }

  lemma ReplyCloses(c: Client, reply: Reply)
    requires c.phase.Waiting? && reply != Disconnected
    ensures !AfterReply(c, reply).phase.Waiting? && ClosingInv(AfterReply(c, reply).phase)
  {
  }

  // ---- preservation: registration -----------------------------------------

  lemma RequestsAppend(served: seq<Record>, r: Record)
    ensures Requests(served + [r]) == Requests(served) + [r.request]
    ensures Fold(Requests(served + [r])) == Serve(Fold(Requests(served)), r.request).active
  {
    assert Requests(served + [r]) == Requests(served) + [r.request];
    assert (Requests(served) + [r.request])[..|served|] == Requests(served);
  }

  /** The client in service waits for it, and closes with a Deregister only. */
  lemma ServingClient(s: State)
    requires QueueInv(s) && s.serving.Some?
    ensures var c := s.serving.value;
            && c.id < |s.clients| && s.clients[c.id].phase.Waiting? && s.clients[c.id].phase.body == c.body
            && (s.clients[c.id].phase.closing ==> c.body == Deregister)
  {
    assert Outstanding(s)[0] == s.serving.value;
    assert s.serving.value in Outstanding(s);
    assert ClosingInv(s.clients[s.serving.value.id].phase);
  }

  /** Serving a request leaves its sender as registrant, or nobody new. */
  lemma ServeRegistrant(active: Option<RegistrationInfo>, q: Request)
    ensures var active' := Serve(active, q).active;
            && (active'.Some? ==> active' == active || active'.value.registrant == q.id)
            && (q.body == Deregister && active'.Some? ==> active'.value.registrant != q.id)
  {
  }

  lemma FinishKeepsActive(s: State, registered: bool, configuration: Configuration)
    requires QueueInv(s) && ActiveInv(s) && Enabled(s, Finish(registered, configuration))
    ensures ActiveInv(AfterFinish(s, registered, configuration))
  {
    var q := RequestOf(s, registered, configuration);
    var r := Record(q, Serve(s.active, q).reply, s.clients[q.id].phase.closing);
    RequestsAppend(s.served, r);
    ServingClient(s);
    ServeRegistrant(s.active, q);
    var served' := s.served + [r];
    forall k: nat | k < |served'|
      ensures served'[k].reply == Serve(Fold(Requests(served')[..k]), served'[k].request).reply
    {
      assert Requests(served')[..k] == Requests(s.served)[..k];
      if k == |s.served| {
        assert Requests(s.served)[..k] == Requests(s.served);
      }
    }
  }

  // ---- preservation: answers ----------------------------------------------

  lemma ServedAppend(served: seq<Record>, r: Record, id: nat)
    ensures Asked(served + [r], id) == Asked(served, id) + if r.request.id == id && !r.closing then [r.request.body] else []
    ensures Told(served + [r], id) == Told(served, id) + if r.request.id == id && !r.closing then [r.reply] else []
  {
    assert (served + [r])[..|served|] == served;
  }

  lemma PacketKeepsAnswers(c: Client, buf: Bytes, served: seq<Record>, id: nat)
    requires c.phase == Reading && AnswersInv(c, served, id)
    ensures AnswersInv(AfterPacket(c, buf), served, id)
  {
    assert (c.packets + [buf])[..|c.packets|] == c.packets;
  }

  lemma ReplyKeepsAnswers(c: Client, served: seq<Record>, r: Record, id: nat)
    requires c.phase.Waiting? && AnswersInv(c, served, id) && ClosingInv(c.phase)
    requires r.request.id == id && r.closing == c.phase.closing && r.request.body == c.phase.body
    ensures AnswersInv(AfterReply(c, r.reply), served + [r], id)
  {
    ServedAppend(served, r, id);
    if c.phase.closing {
      assert Told(served + [r], id) == Told(served, id) && Asked(served + [r], id) == Asked(served, id);
    } else {
      AnsweredPacket(c, Told(served, id), r.reply);
    }
  }

  /** The reply answers the newest packet. */
  lemma AnsweredPacket(c: Client, told: seq<Reply>, reply: Reply)
    requires c.packets != [] && Parse(c.packets[|c.packets| - 1]).Ok?
    ensures var init := c.packets[..|c.packets| - 1];
            && Answers(c.packets, told + [reply]) == Answers(init, told) + [reply]
            && Commands(c.packets) == Commands(init) + [Parse(c.packets[|c.packets| - 1]).value]
  {
    assert (told + [reply])[..|told|] == told;
  }

  lemma {:induction false} NeverAsked(served: seq<Record>, id: nat)
    requires forall k: nat | k < |served| :: served[k].request.id != id
    ensures Asked(served, id) == [] && Told(served, id) == []
  {
    if served != [] {
      NeverAsked(served[..|served| - 1], id);
    }
  }

  lemma FinishKeepsAnswers(s: State, registered: bool, configuration: Configuration)
    requires Inv(s) && Enabled(s, Finish(registered, configuration))
    ensures var s' := AfterFinish(s, registered, configuration);
            forall id: nat | id < |s'.clients| :: AnswersInv(s'.clients[id], s'.served, id)
  {
    var s' := AfterFinish(s, registered, configuration);
    var r := s'.served[|s.served|];
    ServingClient(s);
    forall id: nat | id < |s'.clients|
      ensures AnswersInv(s'.clients[id], s'.served, id)
    {
      assert AnswersInv(s.clients[id], s.served, id);
      if id == r.request.id {
        assert ClosingInv(s.clients[id].phase);
        ReplyKeepsAnswers(s.clients[id], s.served, r, id);
      } else {
        ServedAppend(s.served, r, id);
        assert Told(s.served, id) + [] == Told(s.served, id) && Asked(s.served, id) + [] == Asked(s.served, id);
      }
    }
  }

  // ---- preservation: all steps --------------------------------------------

  /** Steps of one client that neither enqueue nor close. */
  lemma ClientKeeps(s: State, id: nat, c: Client)
    requires Inv(s) && id < |s.clients|
    requires !s.clients[id].phase.Waiting? && !c.phase.Waiting? && ClosingInv(c.phase)
    requires c.phase != Closed && AnswersInv(c, s.served, id)
    ensures Inv(SetClient(s, id, c))
  {
    IdleKeepsQueue(s, id, c);
    forall j: nat | j < |s.clients|
      ensures AnswersInv(SetClient(s, id, c).clients[j], s.served, j)
    {
      assert AnswersInv(s.clients[j], s.served, j);
    }
  }

  lemma ConnectKeeps(s: State)
    requires Inv(s)
    ensures Inv(Apply(s, Connect))
  {
    var s' := Apply(s, Connect);
    assert Outstanding(s') == Outstanding(s);
    NeverAsked(s.served, |s.clients|);
    forall id: nat | id < |s'.clients|
      ensures AnswersInv(s'.clients[id], s'.served, id) && ClosingInv(s'.clients[id].phase)
    {
      if id < |s.clients| {
        assert AnswersInv(s.clients[id], s.served, id) && ClosingInv(s.clients[id].phase);
      }
    }
    ConnectKeepsQueue(s);
  }

  lemma ConnectKeepsQueue(s: State)
    requires QueueInv(s)
    ensures QueueInv(Apply(s, Connect))
  {
    var s' := Apply(s, Connect);
    assert Outstanding(s') == Outstanding(s);
    forall id: nat | id < |s'.clients|
      ensures s'.clients[id].phase.Waiting? ==> Command(id, s'.clients[id].phase.body) in Outstanding(s')
      ensures ClosingInv(s'.clients[id].phase)
    {
      if id < |s.clients| {
        assert s'.clients[id] == s.clients[id] && ClosingInv(s.clients[id].phase);
      }
    }
  }

  lemma EnqueueKeeps(s: State, id: nat)
    requires Inv(s) && Enabled(s, Enqueue(id))
    ensures Inv(Apply(s, Enqueue(id)))
  {
    EnqueueKeepsQueue(s, id);
    var s' := Apply(s, Enqueue(id));
    forall j: nat | j < |s.clients|
      ensures AnswersInv(s'.clients[j], s'.served, j)
    {
      assert AnswersInv(s.clients[j], s.served, j);
    }
  }

  lemma TakeKeeps(s: State)
    requires Inv(s) && Enabled(s, Take)
    ensures Inv(Apply(s, Take))
  {
    TakeKeepsQueue(s);
  }

  lemma FinishKeeps(s: State, registered: bool, configuration: Configuration)
    requires Inv(s) && Enabled(s, Finish(registered, configuration))
    ensures Inv(AfterFinish(s, registered, configuration))
  {
    FinishKeepsQueue(s, registered, configuration);
    FinishKeepsActive(s, registered, configuration);
    FinishKeepsAnswers(s, registered, configuration);
  }

  lemma PacketKeeps(s: State, id: nat, buf: Bytes)
    requires Inv(s) && Enabled(s, Packet(id, buf))
    ensures Inv(Apply(s, Packet(id, buf)))
  {
    assert AnswersInv(s.clients[id], s.served, id);
    PacketKeepsAnswers(s.clients[id], buf, s.served, id);
    ClientKeeps(s, id, AfterPacket(s.clients[id], buf));
  }

  lemma SendReplyKeeps(s: State, id: nat, delivered: bool)
    requires Inv(s) && Enabled(s, SendReply(id, delivered))
    ensures Inv(Apply(s, SendReply(id, delivered)))
  {
    assert AnswersInv(s.clients[id], s.served, id);
    ClientKeeps(s, id, Apply(s, SendReply(id, delivered)).clients[id]);
  }

  lemma StepKeeps(s: State, a: Step)
    requires Inv(s) && Enabled(s, a)
    ensures Inv(Apply(s, a))
  {
    match a
    case Connect => ConnectKeeps(s);
    case Packet(id, buf) => PacketKeeps(s, id, buf);
    case Hangup(id) =>
      assert AnswersInv(s.clients[id], s.served, id);
      ClientKeeps(s, id, s.clients[id].(phase := Enqueuing(Deregister, true)));
    case Enqueue(id) => EnqueueKeeps(s, id);
    case SendReply(id, delivered) => SendReplyKeeps(s, id, delivered);
    case Take => TakeKeeps(s);
    case Finish(registered, configuration) => FinishKeeps(s, registered, configuration);
  }

  predicate Valid(s: State, steps: seq<Step>)
    decreases |steps|
  {
    steps == [] || (Enabled(s, steps[0]) && Valid(Apply(s, steps[0]), steps[1..]))
  }

  function Run(s: State, steps: seq<Step>): State
    requires Valid(s, steps)
    decreases |steps|
  {
    if steps == [] then s else Run(Apply(s, steps[0]), steps[1..])
  }

  lemma {:induction false} RunKeeps(s: State, steps: seq<Step>)
    requires Inv(s) && Valid(s, steps)
    ensures Inv(Run(s, steps))
    decreases |steps|
  {
    if steps != [] {
      StepKeeps(s, steps[0]);
      RunKeeps(Apply(s, steps[0]), steps[1..]);
    }
  }

  // ---- what it means ------------------------------------------------------

  /** At any time of any run: per client at most one command is in the queue or in
      service, and exactly one iff the client waits for it. */
  lemma OneCommandEach(steps: seq<Step>)
    requires Valid(Start(), steps)
    ensures var s := Run(Start(), steps);
            && DistinctIds(Outstanding(s))
            && forall id: nat | id < |s.clients| ::
                 s.clients[id].phase.Waiting? <==> exists c :: c in Outstanding(s) && c.id == id
  {
    StartInv();
    RunKeeps(Start(), steps);
    var s := Run(Start(), steps);
    forall id: nat | id < |s.clients| && s.clients[id].phase.Waiting?
      ensures exists c :: c in Outstanding(s) && c.id == id
    {
      assert Command(id, s.clients[id].phase.body) in Outstanding(s);
    }
  }

  /** Every packet is answered once and in order: all packets of a client but possibly
      its newest have their answer. The main loop is asked exactly the well-formed
      ones, and malformed packets never reach it. */
  lemma EveryPacketAnswered(steps: seq<Step>, id: nat)
    requires Valid(Start(), steps) && id < |Run(Start(), steps).clients|
    ensures var s := Run(Start(), steps);
            var c := s.clients[id];
            var n := |c.packets| - if Unanswered(c.phase) then 1 else 0;
            && 0 <= n && |c.answers| == n
            && c.answers == Answers(c.packets[..n], Told(s.served, id))
            && Asked(s.served, id) == Commands(c.packets[..n])
  {
    StartInv();
    RunKeeps(Start(), steps);
    var s := Run(Start(), steps);
    assert AnswersInv(s.clients[id], s.served, id);
    assert s.clients[id].packets[..|s.clients[id].packets|] == s.clients[id].packets;
  }

  /** The registration always is the fold of what was served, from whatever mix of
      clients; module CommandHandling says who that is. */
  lemma RegistrationIsFold(steps: seq<Step>)
    requires Valid(Start(), steps)
    ensures var s := Run(Start(), steps);
            && s.active == Fold(Requests(s.served))
            && (s.active.Some? <==> exists k: nat :: Wins(Requests(s.served), k))
            && forall k: nat | Wins(Requests(s.served), k) :: s.active == Some(Registration(Requests(s.served)[k]))
  {
    StartInv();
    RunKeeps(Start(), steps);
    HolderWon(Requests(Run(Start(), steps).served));
  }

  /** On every run each reply was truthful when it was given: whoever was told Okay on a
      Register was the registrant at that point, and whoever was told Refused on one had
      not become it. */
  lemma RepliesTruthful(steps: seq<Step>, k: nat)
    requires Valid(Start(), steps) && k < |Run(Start(), steps).served|
    ensures var s := Run(Start(), steps);
            var trace := Requests(s.served);
            Truthful(Fold(trace[..k]), trace[k], Fold(trace[..k + 1]), s.served[k].reply)
  {
    StartInv();
    RunKeeps(Start(), steps);
    var trace := Requests(Run(Start(), steps).served);
    assert trace[..k + 1][..k] == trace[..k];
    ServeIsTruthful(Fold(trace[..k]), trace[k]);
  }

  lemma ClosedForGood(s: State, a: Step, id: nat)
    requires Inv(s) && Enabled(s, a) && InPhase(s, id, Closed)
    ensures InPhase(Apply(s, a), id, Closed)
  {
    if a.Finish? {
      ServingClient(s);
    }
  }

  /** Once the closing Deregister of a client has been served, it is never the
      registrant again, whatever happens afterwards. */
  lemma {:induction false} DeadClientNeverHolds(s: State, steps: seq<Step>, id: nat)
    requires Inv(s) && Valid(s, steps) && InPhase(s, id, Closed)
    ensures var s' := Run(s, steps);
            InPhase(s', id, Closed) && (s'.active.Some? ==> s'.active.value.registrant != id)
    decreases |steps|
  {
    if steps != [] {
      ClosedForGood(s, steps[0], id);
      StepKeeps(s, steps[0]);
      DeadClientNeverHolds(Apply(s, steps[0]), steps[1..], id);
    }
  }

  /** A client that hangs up gets there: served, its closing Deregister leaves it closed
      and unregistered, and takes the registration down exactly if it was its own. */
  lemma ClosingDeregisters(s: State, registered: bool, configuration: Configuration)
    requires Inv(s) && Enabled(s, Finish(registered, configuration))
    requires s.clients[s.serving.value.id].phase.closing
    ensures var s', id := Apply(s, Finish(registered, configuration)), s.serving.value.id;
            && InPhase(s', id, Closed)
            && s'.active == if s.active.Some? && s.active.value.registrant != id then s.active else None
  {
    ServingClient(s);
  }
}
