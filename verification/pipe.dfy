/** The bidirectional relay of src/pipe.rs. */
module Pipe {
  import opened Common

  const BUF_SIZE := 1024

  type Buffer = b: Bytes | |b| == BUF_SIZE witness seq(BUF_SIZE, _ => 0)

  datatype Error = NotConnected | MessageSize | Other(code: int)

  datatype FromPipe<+T> = FromRemote(value: T) | FromLocal(value: T)

  function IntoResultError(p: FromPipe<Result<nat, Error>>): Option<FromPipe<Error>> {
    match p
    case FromRemote(Err(e)) => Some(FromRemote(e))
    case FromLocal(Err(e)) => Some(FromLocal(e))
    case _ => None
  }

  datatype Direction = ToLocal | ToRemote

  /** The branch of the select that fires, with the result of its socket call. A
      received packet is given as the peer sent it. */
  datatype Io =
    | RemoteRecv(packet: Result<Bytes, Error>)
    | LocalSend(written: Result<nat, Error>)
    | LocalRecv(packet: Result<Bytes, Error>)
    | RemoteSend(written: Result<nat, Error>)

  /** A receive call cuts a packet off at the size of its buffer. */
  function Truncated(packet: Bytes): Bytes {
    if |packet| <= BUF_SIZE then packet else packet[..BUF_SIZE]
  }

  /** The unsent message of each direction; empty means none. */
  datatype Slots = Slots(toLocal: Bytes, toRemote: Bytes)

  function Slot(s: Slots, d: Direction): Bytes {
    if d == ToLocal then s.toLocal else s.toRemote
  }

  /** The guards of the four select branches. */
  predicate Enabled(s: Slots, io: Io) {
    match io
    case RemoteRecv(_) => s.toLocal == []
    case LocalSend(_) => s.toLocal != []
    case LocalRecv(_) => s.toRemote == []
    case RemoteSend(_) => s.toRemote != []
  }

  datatype Outcome = Outcome(slots: Slots, result: FromPipe<Result<nat, Error>>)

  function Received(packet: Result<Bytes, Error>): Result<nat, Error> {
    match packet
    case Ok(p) => if p == [] then Err(NotConnected) else Ok(|Truncated(p)|)
    case Err(e) => Err(e)
  }

  function Written(written: Result<nat, Error>, pending: Bytes): Result<nat, Error> {
    match written
    case Ok(n) => if n < |pending| then Err(MessageSize) else Ok(n)
    case Err(e) => Err(e)
  }

  /** One call of `work`, on values. */
  function Step(s: Slots, io: Io): Outcome {
    match io
    case RemoteRecv(packet) =>
      Outcome(if Received(packet).Ok? then s.(toLocal := Truncated(packet.value)) else s, FromRemote(Received(packet)))
    case LocalSend(written) =>
      Outcome(if Written(written, s.toLocal).Ok? then s.(toLocal := []) else s, FromLocal(Written(written, s.toLocal)))
    case LocalRecv(packet) =>
      Outcome(if Received(packet).Ok? then s.(toRemote := Truncated(packet.value)) else s, FromLocal(Received(packet)))
    case RemoteSend(written) =>
      Outcome(if Written(written, s.toRemote).Ok? then s.(toRemote := []) else s, FromRemote(Written(written, s.toRemote)))
  }

  predicate Failed(s: Slots, io: Io) {
    IntoResultError(Step(s, io).result).Some?
  }

  /** Every branch was enabled when it fired, and only the last step may have failed. */
  predicate Feasible(s: Slots, ios: seq<Io>)
    decreases |ios|
  {
    ios == [] ||
    (&& Enabled(s, ios[0])
     && (Failed(s, ios[0]) ==> |ios| == 1)
     && Feasible(Step(s, ios[0]).slots, ios[1..]))
  }

  function Final(s: Slots, ios: seq<Io>): Slots
    decreases |ios|
  {
    if ios == [] then s else Final(Step(s, ios[0]).slots, ios[1..])
  }

  /** Message `m` carries packet `p`: all of it, or its first 1024 bytes. */
  predicate Carries(m: Bytes, p: Bytes) {
    m <= p && |m| == if |p| <= 1024 then |p| else 1024
  }

  predicate CarriesAll(ms: seq<Bytes>, ps: seq<Bytes>) {
    |ms| == |ps| && forall i | 0 <= i < |ms| :: Carries(ms[i], ps[i])
  }

  function AsSeq(slot: Bytes): seq<Bytes> {
    if slot == [] then [] else [slot]
  }

  /** The packets that a pipe received in one direction, as their sender sent them. An
      empty one is taken as the end of the connection. */
  function Packets(ios: seq<Io>, d: Direction): seq<Bytes> {
    if ios == [] then []
    else
      (match ios[0]
       case RemoteRecv(Ok(p)) => if d == ToLocal && p != [] then [p] else []
       case LocalRecv(Ok(p)) => if d == ToRemote && p != [] then [p] else []
       case _ => [])
      + Packets(ios[1..], d)
  }

  /** Per direction, the packets received and the buffers handed to send calls that
      took them in full. */
  datatype Traffic = Traffic(
    packetsToLocal: seq<Bytes>, sentToLocal: seq<Bytes>,
    packetsToRemote: seq<Bytes>, sentToRemote: seq<Bytes>)

  function Moved(t: Traffic, s: Slots, io: Io): Traffic {
    match io
    case RemoteRecv(Ok(p)) => if p == [] then t else t.(packetsToLocal := t.packetsToLocal + [p])
    case LocalSend(Ok(n)) => if n < |s.toLocal| then t else t.(sentToLocal := t.sentToLocal + [s.toLocal])
    case LocalRecv(Ok(p)) => if p == [] then t else t.(packetsToRemote := t.packetsToRemote + [p])
    case RemoteSend(Ok(n)) => if n < |s.toRemote| then t else t.(sentToRemote := t.sentToRemote + [s.toRemote])
    case _ => t
  }

  function MovedAll(t: Traffic, s: Slots, ios: seq<Io>): Traffic
    decreases |ios|
  {
    if ios == [] then t else MovedAll(Moved(t, s, ios[0]), Step(s, ios[0]).slots, ios[1..])
  }

  /** In each direction what was sent, then what is pending, carries the packets received,
      in order. */
  predicate InOrder(t: Traffic, s: Slots) {
    && CarriesAll(t.sentToLocal + AsSeq(s.toLocal), t.packetsToLocal)
    && CarriesAll(t.sentToRemote + AsSeq(s.toRemote), t.packetsToRemote)
  }

  lemma StepInOrder(t: Traffic, s: Slots, io: Io)
    requires InOrder(t, s) && Enabled(s, io)
    ensures InOrder(Moved(t, s, io), Step(s, io).slots)
  {
  }

  lemma {:induction false} RunInOrder(t: Traffic, s: Slots, ios: seq<Io>)
    requires InOrder(t, s) && Feasible(s, ios)
    ensures InOrder(MovedAll(t, s, ios), Final(s, ios))
    decreases |ios|
  {
    if ios != [] {
      StepInOrder(t, s, ios[0]);
      RunInOrder(Moved(t, s, ios[0]), Step(s, ios[0]).slots, ios[1..]);
    }
  }

  function PacketsTo(t: Traffic, d: Direction): seq<Bytes> {
    if d == ToLocal then t.packetsToLocal else t.packetsToRemote
  }

  function SentTo(t: Traffic, d: Direction): seq<Bytes> {
    if d == ToLocal then t.sentToLocal else t.sentToRemote
  }

  /** The histories of a pipe are what its script says was received and delivered. */
  lemma {:induction false} TrafficOf(t: Traffic, s: Slots, ios: seq<Io>, d: Direction)
    ensures PacketsTo(MovedAll(t, s, ios), d) == PacketsTo(t, d) + Packets(ios, d)
    ensures SentTo(MovedAll(t, s, ios), d) == SentTo(t, d) + Delivered(s, ios, d)
    decreases |ios|
  {
    if ios != [] {
      TrafficOf(Moved(t, s, ios[0]), Step(s, ios[0]).slots, ios[1..], d);
    }
  }

  class Pipe {
    ghost var traffic: Traffic
    var toLocalMain: array<Byte>
    var toLocalSwap: array<Byte>
    var toLocalLen: nat
    var toRemoteMain: array<Byte>
    var toRemoteSwap: array<Byte>
    var toRemoteLen: nat

    ghost predicate Valid()
      reads this
    {
      && toLocalMain.Length == toLocalSwap.Length == toRemoteMain.Length == toRemoteSwap.Length == BUF_SIZE
      && toLocalMain != toLocalSwap && toLocalMain != toRemoteMain && toLocalMain != toRemoteSwap
      && toLocalSwap != toRemoteMain && toLocalSwap != toRemoteSwap && toRemoteMain != toRemoteSwap
      && toLocalLen <= BUF_SIZE && toRemoteLen <= BUF_SIZE
    }

    ghost function Buffers(): set<object>
      reads this
    {
      {toLocalMain, toLocalSwap, toRemoteMain, toRemoteSwap}
    }

    ghost function Pending(): Slots
      requires Valid()
      reads this, toLocalMain, toRemoteMain
    {
      Slots(toLocalMain[..toLocalLen], toRemoteMain[..toRemoteLen])
    }

    constructor ()
      ensures Valid() && Pending() == Slots([], []) && fresh(Buffers())
      ensures traffic == Traffic([], [], [], [])
    {
      traffic := Traffic([], [], [], []);
      toLocalMain := new Byte[BUF_SIZE](_ => 0);
      toLocalSwap := new Byte[BUF_SIZE](_ => 0);
      toRemoteMain := new Byte[BUF_SIZE](_ => 0);
      toRemoteSwap := new Byte[BUF_SIZE](_ => 0);
      toLocalLen, toRemoteLen := 0, 0;
    }

    method ClearToLocal()
      requires Valid()
      modifies this`toLocalLen
      ensures Valid() && Pending() == old(Pending()).(toLocal := [])
    {
      toLocalLen := 0;
    }

    method ClearToRemote()
      requires Valid()
      modifies this`toRemoteLen
      ensures Valid() && Pending() == old(Pending()).(toRemote := [])
    {
      toRemoteLen := 0;
    }

    /** The branch that reads from the remote socket, into the swap buffer. */
    method ReceiveRemote(packet: Result<Bytes, Error>) returns (r: FromPipe<Result<nat, Error>>)
      requires Valid() && toLocalLen == 0
      modifies this`toLocalMain, this`toLocalSwap, this`toLocalLen, this`traffic, toLocalSwap
      ensures Valid() && Buffers() == old(Buffers())
      ensures Outcome(Pending(), r) == Step(old(Pending()), RemoteRecv(packet))
      ensures traffic == Moved(old(traffic), old(Pending()), RemoteRecv(packet))
    {
      match packet
      case Err(e) => r := FromRemote(Err(e));
      case Ok(p) =>
        var len := Copy(p, toLocalSwap);
        if len == 0 {
          return FromRemote(Err(NotConnected));
        }
        toLocalMain, toLocalSwap := toLocalSwap, toLocalMain;
        toLocalLen := len;
        traffic := traffic.(packetsToLocal := traffic.packetsToLocal + [p]);
        r := FromRemote(Ok(len));
    }

    method ReceiveLocal(packet: Result<Bytes, Error>) returns (r: FromPipe<Result<nat, Error>>)
      requires Valid() && toRemoteLen == 0
      modifies this`toRemoteMain, this`toRemoteSwap, this`toRemoteLen, this`traffic, toRemoteSwap
      ensures Valid() && Buffers() == old(Buffers())
      ensures Outcome(Pending(), r) == Step(old(Pending()), LocalRecv(packet))
      ensures traffic == Moved(old(traffic), old(Pending()), LocalRecv(packet))
    {
      match packet
      case Err(e) => r := FromLocal(Err(e));
      case Ok(p) =>
        var len := Copy(p, toRemoteSwap);
        if len == 0 {
          return FromLocal(Err(NotConnected));
        }
        toRemoteMain, toRemoteSwap := toRemoteSwap, toRemoteMain;
        toRemoteLen := len;
        traffic := traffic.(packetsToRemote := traffic.packetsToRemote + [p]);
        r := FromLocal(Ok(len));
    }

    /** `work`: one iteration of the select. `spill` is whatever receive branches that
        were polled but did not fire left in their (unused) swap buffers. */
    method Work(io: Io, spill: (Buffer, Buffer)) returns (r: FromPipe<Result<nat, Error>>)
      requires Valid() && Enabled(Pending(), io)
      modifies this, Buffers()
      ensures Valid() && Buffers() == old(Buffers())
      ensures Outcome(Pending(), r) == Step(old(Pending()), io)
      ensures traffic == Moved(old(traffic), old(Pending()), io)
      ensures InOrder(old(traffic), old(Pending())) ==> InOrder(traffic, Pending())
    {
      forall i | 0 <= i < BUF_SIZE { toLocalSwap[i] := spill.0[i]; }
      forall i | 0 <= i < BUF_SIZE { toRemoteSwap[i] := spill.1[i]; }
      assert Pending() == old(Pending());
      if InOrder(traffic, Pending()) { StepInOrder(traffic, Pending(), io); }
      match io
      case RemoteRecv(packet) =>
        r := ReceiveRemote(packet);
      case LocalSend(written) =>
        match written {
          case Ok(len) =>
            if len < toLocalLen {
              r := FromLocal(Err(MessageSize));
            } else {
              traffic := traffic.(sentToLocal := traffic.sentToLocal + [toLocalMain[..toLocalLen]]);
              toLocalLen := 0;
              r := FromLocal(Ok(len));
            }
          case Err(e) => r := FromLocal(Err(e));
        }
      case LocalRecv(packet) =>
        r := ReceiveLocal(packet);
      case RemoteSend(written) =>
        match written {
          case Ok(len) =>
            if len < toRemoteLen {
              r := FromRemote(Err(MessageSize));
            } else {
              traffic := traffic.(sentToRemote := traffic.sentToRemote + [toRemoteMain[..toRemoteLen]]);
              toRemoteLen := 0;
              r := FromRemote(Ok(len));
            }
          case Err(e) => r := FromRemote(Err(e));
        }
    }

    /** `work_until_error`, for the events `script` of the sockets: the first error,
        or nothing if the script ends before one. */
    method WorkUntilError(script: seq<Io>, spills: nat -> (Buffer, Buffer))
      returns (r: Option<FromPipe<Error>>)
      requires Valid() && Feasible(Pending(), script)
      modifies this, Buffers()
      ensures Valid() && Buffers() == old(Buffers())
      ensures Pending() == Final(old(Pending()), script)
      ensures r == FirstError(old(Pending()), script)
      ensures traffic == MovedAll(old(traffic), old(Pending()), script)
      ensures InOrder(old(traffic), old(Pending())) ==> InOrder(traffic, Pending())
    {
      var k := 0;
      while k < |script|
        invariant 0 <= k <= |script|
        invariant Valid() && Buffers() == old(Buffers())
        invariant Feasible(Pending(), script[k..])
        invariant Final(Pending(), script[k..]) == Final(old(Pending()), script)
        invariant FirstError(Pending(), script[k..]) == FirstError(old(Pending()), script)
        invariant MovedAll(traffic, Pending(), script[k..]) == MovedAll(old(traffic), old(Pending()), script)
        invariant InOrder(old(traffic), old(Pending())) ==> InOrder(traffic, Pending())
      {
        assert script[k..][0] == script[k] && script[k..][1..] == script[k + 1..];
        var result := Work(script[k], spills(k));
        k := k + 1;
        if IntoResultError(result).Some? {
          assert script[k..] == [];
          return IntoResultError(result);
        }
      }
      assert script[k..] == [];
      r := None;
    }
  }

  /** What recv does to its buffer: the packet, cut off, then whatever was there. */
  method Copy(p: Bytes, a: array<Byte>) returns (len: nat)
    requires a.Length == BUF_SIZE
    modifies a
    ensures len == |Truncated(p)| && a[..len] == Truncated(p)
  {
    len := if |p| <= BUF_SIZE then |p| else BUF_SIZE;
    forall i | 0 <= i < len { a[i] := p[i]; }
  }

  function FirstError(s: Slots, ios: seq<Io>): Option<FromPipe<Error>>
    decreases |ios|
  {
    if ios == [] then None
    else if Failed(s, ios[0]) then IntoResultError(Step(s, ios[0]).result)
    else FirstError(Step(s, ios[0]).slots, ios[1..])
  }

  // ---- the select always has a live branch --------------------------------

  function Towards(io: Io): Direction {
    if io.RemoteRecv? || io.LocalSend? then ToLocal else ToRemote
  }

  predicate IsReceive(io: Io) {
    io.RemoteRecv? || io.LocalRecv?
  }

  /** However a pipe has run without an error, in each direction exactly one branch of
      the next select is enabled: the receiving one if nothing is pending there, else
      the sending one. */
  lemma OneBranchLive(s: Slots, ios: seq<Io>, d: Direction)
    requires Feasible(s, ios) && FirstError(s, ios) == None
    ensures exists io: Io :: Towards(io) == d && Feasible(s, ios + [io])
    ensures forall io: Io | Towards(io) == d ::
              Feasible(s, ios + [io]) <==> (IsReceive(io) <==> Slot(Final(s, ios), d) == [])
  {
    forall io: Io | Towards(io) == d
      ensures Feasible(s, ios + [io]) <==> (IsReceive(io) <==> Slot(Final(s, ios), d) == [])
    {
      FeasibleNext(s, ios, io);
    }
    var receive: Io := if d == ToLocal then RemoteRecv(Err(NotConnected)) else LocalRecv(Err(NotConnected));
    var send: Io := if d == ToLocal then LocalSend(Err(NotConnected)) else RemoteSend(Err(NotConnected));
    assert Towards(receive) == d && Towards(send) == d;
    assert Feasible(s, ios + [receive]) || Feasible(s, ios + [send]);
  }

  lemma {:induction false} FeasibleNext(s: Slots, ios: seq<Io>, io: Io)
    requires Feasible(s, ios) && FirstError(s, ios) == None
    ensures Feasible(s, ios + [io]) <==> Enabled(Final(s, ios), io)
    decreases |ios|
  {
    if ios == [] {
      assert [io][1..] == [];
    } else {
      FeasibleNext(Step(s, ios[0]).slots, ios[1..], io);
      assert (ios + [io])[1..] == ios[1..] + [io];
    }
  }

  // ---- two independent one-slot channels ----------------------------------

  /** The operations of a channel that holds at most one message. */
  datatype Op = Put(m: Bytes) | Get(n: nat) | Fault

  function Ops(io: Io, d: Direction): seq<Op> {
    match io
    case RemoteRecv(packet) => if d == ToLocal then [PutOp(packet)] else []
    case LocalSend(written) => if d == ToLocal then [GetOp(written)] else []
    case LocalRecv(packet) => if d == ToRemote then [PutOp(packet)] else []
    case RemoteSend(written) => if d == ToRemote then [GetOp(written)] else []
  }

  function PutOp(packet: Result<Bytes, Error>): Op {
    if packet.Ok? && packet.value != [] then Put(Truncated(packet.value)) else Fault
  }

  function GetOp(written: Result<nat, Error>): Op {
    if written.Ok? then Get(written.value) else Fault
  }

  /** The part of a script that concerns one direction. */
  function Project(ios: seq<Io>, d: Direction): seq<Op> {
    if ios == [] then [] else Ops(ios[0], d) + Project(ios[1..], d)
  }

  function Channel(slot: Bytes, ops: seq<Op>): Bytes
    decreases |ops|
  {
    if ops == [] then slot
    else match ops[0]
      case Put(m) => Channel(m, ops[1..])
      case Get(n) => Channel(if n < |slot| then slot else [], ops[1..])
      case Fault => Channel(slot, ops[1..])
  }

  function Puts(ops: seq<Op>): seq<Bytes> {
    if ops == [] then []
    else (if ops[0].Put? then [ops[0].m] else []) + Puts(ops[1..])
  }

  /** The messages that left the channel in full. */
  function Gets(slot: Bytes, ops: seq<Op>): seq<Bytes>
    decreases |ops|
  {
    if ops == [] then []
    else match ops[0]
      case Put(m) => Gets(m, ops[1..])
      case Get(n) => if n < |slot| then Gets(slot, ops[1..]) else [slot] + Gets([], ops[1..])
      case Fault => Gets(slot, ops[1..])
  }

  /** The messages a pipe accepted and those it delivered in full, read off its steps. */
  function Accepted(ios: seq<Io>, d: Direction): seq<Bytes> {
    if ios == [] then []
    else
      (match ios[0]
       case RemoteRecv(Ok(p)) => if d == ToLocal && p != [] then [Truncated(p)] else []
       case LocalRecv(Ok(p)) => if d == ToRemote && p != [] then [Truncated(p)] else []
       case _ => [])
      + Accepted(ios[1..], d)
  }

  function Delivered(s: Slots, ios: seq<Io>, d: Direction): seq<Bytes>
    decreases |ios|
  {
    if ios == [] then []
    else
      (match ios[0]
       case LocalSend(Ok(n)) => if d == ToLocal && n >= |s.toLocal| then [s.toLocal] else []
       case RemoteSend(Ok(n)) => if d == ToRemote && n >= |s.toRemote| then [s.toRemote] else []
       case _ => [])
      + Delivered(Step(s, ios[0]).slots, ios[1..], d)
  }

  /** What a pipe accepts are the packets it received, byte for byte up to 1024 bytes. */
  lemma {:induction false} AcceptsPackets(ios: seq<Io>, d: Direction)
    ensures CarriesAll(Accepted(ios, d), Packets(ios, d))
  {
    if ios != [] {
      AcceptsPackets(ios[1..], d);
    }
  }

  /** One step acts on the channel of its own direction as the channel's operation does. */
  lemma RefinesStep(s: Slots, io: Io, d: Direction, later: seq<Op>)
    requires Enabled(s, io)
    ensures Channel(Slot(s, d), Ops(io, d) + later) == Channel(Slot(Step(s, io).slots, d), later)
    ensures |Ops(io, d)| <= 1
  {
    if Ops(io, d) == [] {
      assert Ops(io, d) + later == later;
    } else {
      assert (Ops(io, d) + later)[0] == Ops(io, d)[0] && (Ops(io, d) + later)[1..] == later;
    }
  }

  lemma DeliversStep(s: Slots, ios: seq<Io>, d: Direction)
    requires ios != [] && Enabled(s, ios[0])
    requires var s' := Step(s, ios[0]).slots;
             Delivered(s', ios[1..], d) == Gets(Slot(s', d), Project(ios[1..], d))
    ensures Delivered(s, ios, d) == Gets(Slot(s, d), Project(ios, d))
  {
    var later := Project(ios[1..], d);
    if Ops(ios[0], d) == [] {
      assert Project(ios, d) == later;
      assert Slot(Step(s, ios[0]).slots, d) == Slot(s, d);
    } else {
      assert Project(ios, d)[0] == Ops(ios[0], d)[0] && Project(ios, d)[1..] == later;
    }
  }

  lemma {:induction false} AcceptsPuts(ios: seq<Io>, d: Direction)
    ensures Accepted(ios, d) == Puts(Project(ios, d))
  {
    if ios != [] {
      AcceptsPuts(ios[1..], d);
      var later := Project(ios[1..], d);
      if Ops(ios[0], d) == [] {
        assert Project(ios, d) == later;
      } else {
        assert Project(ios, d)[0] == Ops(ios[0], d)[0] && Project(ios, d)[1..] == later;
      }
    }
  }

  /** Each direction of the pipe is a one-slot channel that sees its own operations
      only: neither the other direction nor the swap buffers matter. */
  lemma {:induction false} RefinesChannel(s: Slots, ios: seq<Io>, d: Direction)
    requires Feasible(s, ios)
    ensures Slot(Final(s, ios), d) == Channel(Slot(s, d), Project(ios, d))
    ensures Accepted(ios, d) == Puts(Project(ios, d))
    ensures Delivered(s, ios, d) == Gets(Slot(s, d), Project(ios, d))
    decreases |ios|
  {
    AcceptsPuts(ios, d);
    if ios != [] {
      RefinesChannel(Step(s, ios[0]).slots, ios[1..], d);
      RefinesStep(s, ios[0], d, Project(ios[1..], d));
      DeliversStep(s, ios, d);
    }
  }

  /** Nothing is lost, repeated or reordered inside a pipe: what it accepted is what
      it delivered followed by the pending message, in each direction. */
  lemma {:induction false} Conservation(s: Slots, ios: seq<Io>, d: Direction)
    requires Feasible(s, ios)
    ensures AsSeq(Slot(s, d)) + Accepted(ios, d) == Delivered(s, ios, d) + AsSeq(Slot(Final(s, ios), d))
    decreases |ios|
  {
    if ios != [] {
      var s', rest := Step(s, ios[0]).slots, ios[1..];
      Conservation(s', rest, d);
      ConservationStep(s, ios, d);
    }
  }

  /** The first step shifts at most one message across the balance. */
  lemma ConservationStep(s: Slots, ios: seq<Io>, d: Direction)
    requires ios != [] && Enabled(s, ios[0])
    ensures var s', rest := Step(s, ios[0]).slots, ios[1..];
            || (&& Accepted(ios, d) == Accepted(rest, d) && Delivered(s, ios, d) == Delivered(s', rest, d)
                && Slot(s', d) == Slot(s, d))
            || (&& Slot(s, d) == [] && Accepted(ios, d) == [Slot(s', d)] + Accepted(rest, d) && Slot(s', d) != []
                && Delivered(s, ios, d) == Delivered(s', rest, d))
            || (&& Slot(s', d) == [] && Delivered(s, ios, d) == [Slot(s, d)] + Delivered(s', rest, d) && Slot(s, d) != []
                && Accepted(ios, d) == Accepted(rest, d))
  {
  }

  /** Receives and sends of a channel take turns; `free` says who is first. */
  ghost predicate Alternates(ops: seq<Op>, free: bool) {
    forall k | 0 <= k < |ops| :: !ops[k].Fault? && (ops[k].Put? <==> (k % 2 == 0) == free)
  }

  lemma AlternatesPrepend(op: Op, ops: seq<Op>, free: bool)
    requires Alternates(ops, !free) && !op.Fault? && (op.Put? <==> free)
    ensures Alternates([op] + ops, free)
  {
    var all := [op] + ops;
    forall k | 0 <= k < |all|
      ensures !all[k].Fault? && (all[k].Put? <==> (k % 2 == 0) == free)
    {
      assert k > 0 ==> all[k] == ops[k - 1];
    }
  }

  /** A successful step fills a free slot or frees a full one, or is not of this direction. */
  lemma TurnTaken(s: Slots, io: Io, d: Direction)
    requires Enabled(s, io) && !Failed(s, io)
    ensures Ops(io, d) == [] ==> Slot(Step(s, io).slots, d) == Slot(s, d)
    ensures Ops(io, d) != [] ==>
              && |Ops(io, d)| == 1 && !Ops(io, d)[0].Fault?
              && (Ops(io, d)[0].Put? <==> Slot(s, d) == [])
              && (Slot(Step(s, io).slots, d) == [] <==> Slot(s, d) != [])
  {
  }

  /** Up to the first error the operations of a direction strictly alternate, a
      receive first when the slot is empty. */
  lemma {:induction false} Alternation(s: Slots, ios: seq<Io>, d: Direction)
    requires Feasible(s, ios) && FirstError(s, ios) == None
    ensures Alternates(Project(ios, d), Slot(s, d) == [])
    decreases |ios|
  {
    if ios != [] {
      Alternation(Step(s, ios[0]).slots, ios[1..], d);
      TurnTaken(s, ios[0], d);
      var later := Project(ios[1..], d);
      if Ops(ios[0], d) == [] {
        assert Project(ios, d) == later;
      } else {
        AlternatesPrepend(Ops(ios[0], d)[0], later, Slot(s, d) == []);
        assert Project(ios, d) == [Ops(ios[0], d)[0]] + later;
      }
    }
  }

  /** An error names the side whose socket call failed, and comes from the last event. */
  lemma {:induction false} ErrorSide(s: Slots, ios: seq<Io>)
    requires Feasible(s, ios) && FirstError(s, ios).Some?
    ensures ios != []
    ensures FirstError(s, ios).value.FromRemote? <==> (ios[|ios| - 1].RemoteRecv? || ios[|ios| - 1].RemoteSend?)
    decreases |ios|
  {
    if !Failed(s, ios[0]) {
      ErrorSide(Step(s, ios[0]).slots, ios[1..]);
    }
  }
}
