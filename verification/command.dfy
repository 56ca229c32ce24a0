/** Commands, replies and their effect on the registration, from src/command.rs. */
module CommandHandling {
  import opened Common
  import opened InfoFile

  datatype ParseError = UnexpectedEnd | UnrecognizedOpcode(code: Byte) | NotUtf8

  datatype CommandBody = Register(sdpRecord: Bytes) | Deregister

  datatype Reply = Okay | MalformedCommand | Disconnected | Refused

  predicate Continues(b: Byte) {
    0x80 <= b <= 0xBF
  }

  /** Well-formed UTF-8 as in the syntax of RFC 3629, section 4. */
  predicate IsUtf8(bs: Bytes) {
    if bs == [] then true
    else if bs[0] <= 0x7F then IsUtf8(bs[1..])
    else if 0xC2 <= bs[0] <= 0xDF then |bs| >= 2 && Continues(bs[1]) && IsUtf8(bs[2..])
    else if 0xE0 <= bs[0] <= 0xEF then
      && |bs| >= 3
      && (if bs[0] == 0xE0 then 0xA0 else 0x80) <= bs[1] <= (if bs[0] == 0xED then 0x9F else 0xBF)
      && Continues(bs[2]) && IsUtf8(bs[3..])
    else if 0xF0 <= bs[0] <= 0xF4 then
      && |bs| >= 4
      && (if bs[0] == 0xF0 then 0x90 else 0x80) <= bs[1] <= (if bs[0] == 0xF4 then 0x8F else 0xBF)
      && Continues(bs[2]) && Continues(bs[3]) && IsUtf8(bs[4..])
    else false
  }

  function Parse(buf: Bytes): Result<CommandBody, ParseError> {
    if |buf| < 1 then Err(UnexpectedEnd)
    else if buf[0] == 1 then
      if IsUtf8(buf[1..]) then Ok(Register(buf[1..])) else Err(NotUtf8)
    else if buf[0] == 2 then Ok(Deregister)
    else Err(UnrecognizedOpcode(buf[0]))
  }

  /** A client's side of the protocol. */
  function Serialize(body: CommandBody): Bytes {
    match body
    case Register(sdpRecord) => [1] + sdpRecord
    case Deregister => [2]
  }

  function ReplyBytes(r: Reply): Bytes {
    match r
    case Okay => [0]
    case MalformedCommand => [1]
    case Disconnected => [2]
    case Refused => [3]
  }

  /** A client's side again: what it makes of an answer. */
  function ReadReply(bs: Bytes): Option<Reply> {
    if |bs| != 1 then None
    else match bs[0]
      case 0 => Some(Okay)
      case 1 => Some(MalformedCommand)
      case 2 => Some(Disconnected)
      case 3 => Some(Refused)
      case _ => None
  }

  predicate IsFatal(r: Reply) {
    r == Disconnected
  }

  /** Parsing inverts serialization on every command a client can state, accepts
      nothing else but trailing data after DOWN, and replies are read back. */
  lemma ParseInvertsSerialize(body: CommandBody, buf: Bytes, r: Reply, q: Reply)
    ensures Parse(Serialize(body)) == Ok(body) <==> (body.Register? ==> IsUtf8(body.sdpRecord))
    ensures Parse(buf).Ok? ==>
              Serialize(Parse(buf).value) == buf
              || (Parse(buf).value == Deregister && Serialize(Deregister) <= buf)
    ensures ReadReply(ReplyBytes(r)) == Some(r)
    ensures ReplyBytes(r) == ReplyBytes(q) <==> r == q
  {
    if body.Register? {
      assert Serialize(body)[1..] == body.sdpRecord;
    }
    if Parse(buf).Ok? {
      assert buf == [buf[0]] + buf[1..];
    }
  }

  // ---- the effect of one command ------------------------------------------

  /** A command as the main loop serves it. `registered` is the outcome of the foreign
      Registration::register with the configuration it read from the record. */
  datatype Request = Request(id: nat, body: CommandBody, registered: bool, configuration: Configuration)

  datatype Served = Served(active: Option<RegistrationInfo>, reply: Reply)

  function Registration(q: Request): RegistrationInfo
    requires q.body.Register?
  {
    RegistrationInfo(q.id, q.body.sdpRecord, q.configuration)
  }

  predicate MayChange(active: Option<RegistrationInfo>, id: nat) {
    active.Some? ==> active.value.registrant == id
  }

  function Serve(active: Option<RegistrationInfo>, q: Request): Served {
    match q.body
    case Register(_) =>
      if !MayChange(active, q.id) || !q.registered then Served(active, Refused)
      else if active.Some? then Served(active, Okay)        // `up` returns early
      else Served(Some(Registration(q)), Okay)
    case Deregister =>
      if MayChange(active, q.id) then Served(None, Okay) else Served(active, Refused)
  }

  predicate Holds(active: Option<RegistrationInfo>, id: nat) {
    active.Some? && active.value.registrant == id
  }

  /** What a reply tells its client, whatever the state before: Okay to a Register that
      the registration is its own now, Okay to a Deregister that there is none now,
      Refused anything else. No other reply comes from the main loop, and nobody but the
      sender of a Register becomes the registrant by it. */
  ghost predicate Truthful(before: Option<RegistrationInfo>, q: Request, after: Option<RegistrationInfo>, reply: Reply) {
    && (reply == Okay || reply == Refused)
    && (q.body.Register? ==>
          && (reply == Okay <==> q.registered && Holds(after, q.id))
          && (reply == Refused ==> after == before)
          && (after != before ==> before == None && after == Some(RegistrationInfo(q.id, q.body.sdpRecord, q.configuration))))
    && (q.body.Deregister? ==>
          && (reply == Okay <==> after == None)
          && (reply == Refused <==> before.Some? && !Holds(before, q.id))
          && (reply == Refused ==> after == before))
  }

  lemma ServeIsTruthful(active: Option<RegistrationInfo>, q: Request)
    ensures Truthful(active, q, Serve(active, q).active, Serve(active, q).reply)
  {
  }

  /** The registration after a whole trace of commands from any mix of clients. */
  function Fold(trace: seq<Request>): Option<RegistrationInfo> {
    if trace == [] then None else Serve(Fold(trace[..|trace| - 1]), trace[|trace| - 1]).active
  }

  predicate Acquires(q: Request) {
    q.body.Register? && q.registered
  }

  predicate Releases(q: Request, id: nat) {
    q.body.Deregister? && q.id == id
  }

  /** `k` is the Register that holds after the trace: successful, made while no earlier
      one held, and not followed by a Deregister of the same client. This speaks of
      requests only and does not follow how the registration is computed. */
  ghost predicate Wins(trace: seq<Request>, k: nat)
    decreases |trace|
  {
    && k < |trace| && Acquires(trace[k])
    && (forall j: nat | k < j < |trace| :: !Releases(trace[j], trace[k].id))
    && (forall j: nat | j < k :: !Wins(trace[..k], j))
  }

  lemma WinsExtend(trace: seq<Request>, q: Request, k: nat)
    requires k < |trace|
    ensures Wins(trace + [q], k) <==> Wins(trace, k) && !Releases(q, trace[k].id)
  {
    var longer := trace + [q];
    assert longer[..k] == trace[..k];
    assert longer[|trace|] == q;
    assert forall j: nat | k <= j < |trace| :: longer[j] == trace[j];
  }

  lemma LastWins(init: seq<Request>, q: Request)
    ensures Wins(init + [q], |init|) <==> Acquires(q) && forall j: nat | j < |init| :: !Wins(init, j)
    ensures Fold(init + [q]) == Serve(Fold(init), q).active
  {
    var longer := init + [q];
    assert longer[..|init|] == init && longer[|init|] == q;
    if Acquires(q) && forall j: nat | j < |init| :: !Wins(init, j) {
      assert forall j: nat | j < |init| :: !Wins(longer[..|init|], j);
    }
    if j: nat :| j < |init| && Wins(init, j) {
      assert Wins(longer[..|init|], j);
    }
  }

  /** Whoever holds the registration holds it by the one winning Register: the first
      success since the registration was last free. Repeats by the holder, requests of
      others and failed registrations leave no mark. */
  lemma {:induction false} HolderWon(trace: seq<Request>)
    ensures forall k: nat | Wins(trace, k) :: Fold(trace) == Some(Registration(trace[k]))
    ensures Fold(trace).Some? ==> exists k: nat :: Wins(trace, k)
    ensures forall j: nat, k: nat | Wins(trace, j) && Wins(trace, k) :: j == k
  {
    if trace != [] {
      var init, q := trace[..|trace| - 1], trace[|trace| - 1];
      assert trace == init + [q];
      HolderWon(init);
      forall k: nat | k < |init|
        ensures Wins(trace, k) <==> Wins(init, k) && !Releases(q, init[k].id)
      {
        WinsExtend(init, q, k);
      }
      LastWins(init, q);
      if Fold(init).Some? {
        var k: nat :| Wins(init, k);
        assert Fold(init) == Some(Registration(init[k]));
        assert trace[k] == init[k];
      }
    }
  }

  /** Registering again from the holder is answered but changes nothing; everything a
      non-holder asks while somebody is registered is refused and changes nothing. */
  lemma OwnershipRules(trace: seq<Request>, q: Request)
    requires Fold(trace).Some?
    ensures q.id != Fold(trace).value.registrant ==>
              Fold(trace + [q]) == Fold(trace) && Serve(Fold(trace), q).reply == Refused
    ensures q.id == Fold(trace).value.registrant && q.body.Register? ==>
              Fold(trace + [q]) == Fold(trace) && Serve(Fold(trace), q).reply == if q.registered then Okay else Refused
    ensures q.id == Fold(trace).value.registrant && q.body.Deregister? ==>
              Fold(trace + [q]) == None && Serve(Fold(trace), q).reply == Okay
  {
    assert (trace + [q])[..|trace|] == trace;
  }

  /** Until its holder deregisters, a registration lasts, whatever anybody asks, and the
      requests of all others are refused. */
  lemma {:induction false} HolderLasts(trace: seq<Request>, more: seq<Request>)
    requires Fold(trace).Some?
    requires forall q | q in more :: !Releases(q, Fold(trace).value.registrant)
    ensures Fold(trace + more) == Fold(trace)
    ensures forall k: nat | k < |more| && more[k].id != Fold(trace).value.registrant ::
              Serve(Fold(trace + more[..k]), more[k]).reply == Refused
  {
    if more == [] {
      assert trace + more == trace;
    } else {
      var init, q := more[..|more| - 1], more[|more| - 1];
      assert q in more && forall r | r in init :: r in more;
      HolderLasts(trace, init);
      assert trace + more == trace + init + [q];
      OwnershipRules(trace + init, q);
      forall k: nat | k < |more| && more[k].id != Fold(trace).value.registrant
        ensures Serve(Fold(trace + more[..k]), more[k]).reply == Refused
      {
        if k < |init| {
          assert init[..k] == more[..k];
        }
      }
    }
  }
}
