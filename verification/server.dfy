/** The mutable server of src/connection.rs and the command handler that drives it:
    each critical section as the loop or assignment it is, proved against the
    transition system of module Lifecycle. */
module Server {
  import opened Common
  import opened InfoFile
  import opened ConnectionList
  import opened Lifecycle
  import opened LifecycleInvariant
  import opened LifecycleSteps
  import opened LifecycleFrames
  import CommandHandling

  class Server {
    var connections: seq<Connection>
    var loops: seq<AcceptLoop>        // the spawned accept tasks; only the last may run
    var accepting: Option<nat>

    ghost predicate Valid()
      reads this
    {
      accepting.Some? ==> accepting.value < |loops|
    }

    /** The fields are those of `s`. */
    ghost predicate Shows(s: State)
      reads this
    {
      connections == s.connections && loops == s.loops && accepting == s.accepting
    }

    /** The registration whose accept loop the server holds. */
    function Active(): Option<RegistrationInfo>
      reads this
      requires Valid()
    {
      if accepting.Some? then Some(loops[accepting.value].registration) else None
    }

    constructor ()
      ensures Valid() && Active() == None
      ensures forall root, base :: Shows(Initial(root, base))
    {
      connections := [];
      loops := [];
      accepting := None;
    }

    /** `connections.retain(|conn| !conn.is_finished())` */
    method RetainUnfinished(finished: set<nat>)
      modifies this`connections
      ensures connections == Retain(old(connections), finished)
    {
      var kept: seq<Connection> := [];
      var k := 0;
      while k < |connections|
        invariant 0 <= k <= |connections| && connections == old(connections)
        invariant kept == Retain(connections[..k], finished)
      {
        assert connections[..k + 1][..k] == connections[..k];
        if connections[k].id !in finished {
          kept := kept + [connections[k]];
        }
        k := k + 1;
      }
      assert connections[..k] == connections;
      connections := kept;
    }

    /** `iter().position(..)`, also the search of receive_interrupt_connection. */
    method FindPosition(address: Address) returns (r: Option<nat>)
      ensures r == Position(connections, address)
    {
      var k := 0;
      while k < |connections|
        invariant 0 <= k <= |connections|
        invariant Position(connections[..k], address) == None
      {
        assert connections[..k + 1][..k] == connections[..k];
        if connections[k].peerAddress == address {
          PositionExtends(connections, k + 1, address);
          return Some(k);
        }
        k := k + 1;
      }
      assert connections[..k] == connections;
      r := None;
    }

    /** The locked part of cancel_existing. */
    method TakeExisting(finished: set<nat>, address: Address) returns (existing: Option<Connection>)
      modifies this`connections
      ensures Taken(connections, existing) == ConnectionList.TakeExisting(old(connections), finished, address)
      ensures Distinct(old(connections)) ==> Distinct(connections) && Absent(connections, address)
      ensures Distinct(old(connections)) ==>
                forall c :: c in connections <==> c in old(connections) && c.id !in finished && c.peerAddress != address
    {
      RetainUnfinished(finished);
      ghost var before := old(connections);
      if Distinct(before) {
        TakeExistingSpec(before, finished, address);
      }
      var position := FindPosition(address);
      match position
      case Some(p) =>
        existing := Some(connections[p]);
        connections := connections[..p] + connections[p + 1..];
      case None =>
        existing := None;
    }

    /** The end of receive_control_connection: the race check, then the push. */
    method Store(created: Connection, ghost s: State, ghost k: nat) returns (raced: bool)
      requires Shows(s) && k < |s.loops| && s.loops[k].phase == Storing(created)
      modifies this
      ensures raced <==> !Absent(old(connections), created.peerAddress)
      ensures Shows(AfterStore(s, k).(loops := s.loops))
    {
      var position := FindPosition(created.peerAddress);
      raced := position.Some?;
      if !raced {
        connections := connections + [created];
      }
    }

    /** Server::up. `listens` says whether the listening sockets could be bound. */
    method Up(registration: RegistrationInfo, listens: bool, ghost s: State) returns (started: bool)
      requires Valid() && Shows(s)
      modifies this
      ensures Valid() && Shows(AfterUp(s, registration, listens))
      ensures started <==> old(Active()).Some? || listens
      ensures Active() == if old(Active()).Some? then old(Active()) else if listens then Some(registration) else None
    {
      if accepting.Some? {
        return true;
      }
      if !listens {
        return false;
      }
      accepting := Some(|loops|);
      loops := loops + [AcceptLoop(registration, Accepting, 0, 0, false)];
      started := true;
    }

    /** The first half of Server::down, up to awaiting the accept loop. */
    method BeginDown(ghost s: State) returns (waits: bool)
      requires Valid() && Shows(s)
      modifies this
      ensures Valid() && Shows(AfterDown(s, false)) && Active() == old(Active())
      ensures waits <==> accepting.Some?
      ensures connections == old(connections)
    {
      waits := accepting.Some?;
      if waits {
        var k := accepting.value;
        loops := loops[k := loops[k].(cancels := loops[k].cancels + 1)];
      }
    }

    /** While `down` awaits its loop, that loop may still change the list; the await
        returns when it has ended. */
    method AwaitLoop()
      requires Valid() && accepting.Some?
      modifies this
      ensures Valid() && accepting == old(accepting) && Active() == old(Active())
      ensures loops[accepting.value].phase == Ended
      ensures |loops| == |old(loops)| && forall j | 0 <= j < |loops| && j != accepting.value :: loops[j] == old(loops)[j]
    {
      loops := loops[accepting.value := loops[accepting.value].(phase := Ended)];
    }

    /** The second half of Server::down. */
    method FinishDown(ghost s: State)
      requires Valid() && Shows(s) && s.main.JoiningLoop? && accepting.Some? && loops[accepting.value].phase == Ended
      modifies this
      ensures Valid() && Shows(AfterLoopJoined(s)) && Active() == None
    {
      var k := accepting.value;
      var joined := loops[k].(joins := loops[k].joins + 1);
      loops := loops[k := joined.(aborted := true)];
      accepting := None;
    }

    /** The drain at the start of Server::clear. */
    method Drain(ghost s: State) returns (drained: seq<Connection>)
      requires Shows(s) && Enabled(s, StartClear)
      modifies this`connections
      ensures Shows(Apply(s, StartClear)) && Apply(s, StartClear).main == Clearing(None, drained)
    {
      drained := connections;
      connections := [];
    }

    /** CommandServer::handle_command. The reply is absent when the main task dies in
        `up(..).unwrap()`; nothing else can go wrong here. */
    method HandleCommand(q: CommandHandling.Request, listens: bool, ghost s: State) returns (reply: Option<CommandHandling.Reply>)
      requires Valid() && Shows(s)
      modifies this
      ensures Valid()
      ensures reply == None <==> q.body.Register? && q.registered && old(Active()) == None && !listens
      ensures reply.Some? ==> CommandHandling.Served(Active(), reply.value) == CommandHandling.Serve(old(Active()), q)
      ensures reply == None ==> Active() == None
      ensures reply.Some? ==> CommandHandling.Truthful(old(Active()), q, Active(), reply.value)
    {
      CommandHandling.ServeIsTruthful(Active(), q);
      match q.body
      case Register(sdpRecord) =>
        var canRegister := if accepting.Some? then loops[accepting.value].registration.registrant == q.id else true;
        if !canRegister {
          return Some(CommandHandling.Refused);
        }
        if !q.registered {
          return Some(CommandHandling.Refused);
        }
        var started := Up(RegistrationInfo(q.id, sdpRecord, q.configuration), listens, s);
        if !started {
          return None;
        }
        return Some(CommandHandling.Okay);
      case Deregister =>
        var canDeregister := if accepting.Some? then loops[accepting.value].registration.registrant == q.id else true;
        if !canDeregister {
          return Some(CommandHandling.Refused);
        }
        var waits := BeginDown(s);
        if waits {
          AwaitLoop();
          ghost var joining := s.(connections := connections, loops := loops, accepting := accepting, main := JoiningLoop(false));
          FinishDown(joining);
        }
        return Some(CommandHandling.Okay);
    }
  }

  lemma {:induction false} PositionExtends(cs: seq<Connection>, n: nat, address: Address)
    requires n <= |cs| && Position(cs[..n], address).Some?
    ensures Position(cs, address) == Position(cs[..n], address)
    decreases |cs|
  {
    if n < |cs| {
      var init := cs[..|cs| - 1];
      assert init[..n] == cs[..n];
      PositionExtends(init, n, address);
    } else {
      assert cs[..n] == cs;
    }
  }

  function ActiveOf(s: State): Option<RegistrationInfo> {
    if s.accepting.Some? && s.accepting.value < |s.loops| then Some(s.loops[s.accepting.value].registration) else None
  }

  /** In the concurrent system the active registration changes by `up` and `down` only,
      and just as the command handler computes it: whatever accept loops and
      connections do in between leaves it alone. */
  lemma RegistrationStep(s: State, a: Action)
    requires LoopsInv(s) && Enabled(s, a)
    ensures ActiveOf(Apply(s, a)) ==
            match a
            case Up(registration, listens) => if ActiveOf(s).None? && listens then Some(registration) else ActiveOf(s)
            case LoopJoined => None
            case _ => ActiveOf(s)
  {
    match a
    case Up(registration, listens) =>
    case LoopJoined => LoopJoinedLoops(s);
    case _ => AcceptingKept(s, a);
  }
}
