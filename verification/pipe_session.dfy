/** The supervisor loops of src/connection.rs, which run one pipe after another over
    the same remote socket until the remote side fails. */
module PipeSession {
  import opened Common
  import opened Pipe

  /** What happens in one round of the control supervisor: whether a local peer is
      accepted and wrapped, and the events its pipe then sees. */
  datatype Attempt = AcceptFails | WrapFails | Connected(script: seq<Io>)

  /** Why a supervisor returned; `StillRunning` when the given events end first. */
  datatype Ending = StillRunning | LocalSetupFailed | RemoteFailed(error: Error) | SessionsOver

  const EMPTY: Slots := Slots([], [])
  const NO_TRAFFIC: Traffic := Traffic([], [], [], [])

  /** The events of each pipe that was built, oldest first. */
  type Sessions = ss: seq<seq<Io>> | forall k | 0 <= k < |ss| :: Feasible(EMPTY, ss[k])

  predicate EndsLocally(script: seq<Io>) {
    FirstError(EMPTY, script).Some? && FirstError(EMPTY, script).value.FromLocal?
  }

  /** Every pipe but the last was given up because of its local side. */
  ghost predicate Restarted(ss: Sessions) {
    forall k | 0 <= k < |ss| - 1 :: EndsLocally(ss[k])
  }

  predicate EndsRemotely(script: seq<Io>) {
    FirstError(EMPTY, script).Some? && FirstError(EMPTY, script).value.FromRemote?
  }

  /** How often the control supervisor gets to announce its socket. */
  function Rounds(attempts: seq<Attempt>): nat {
    if attempts == [] then 0
    else if attempts[0].Connected? && EndsLocally(attempts[0].script) then 1 + Rounds(attempts[1..])
    else 1
  }

  /** Whether one of the attempts makes it give up. */
  predicate GivesUp(attempts: seq<Attempt>) {
    attempts != []
    && match attempts[0]
       case Connected(script) => EndsRemotely(script) || (EndsLocally(script) && GivesUp(attempts[1..]))
       case _ => true
  }

  lemma RoundsFrom(attempts: seq<Attempt>, k: nat)
    requires k < |attempts|
    ensures var goesOn := attempts[k].Connected? && EndsLocally(attempts[k].script);
            && Rounds(attempts[k..]) == (if goesOn then 1 + Rounds(attempts[k + 1..]) else 1)
            && (GivesUp(attempts[k..]) <==>
                  !attempts[k].Connected? || EndsRemotely(attempts[k].script) || (goesOn && GivesUp(attempts[k + 1..])))
  {
    assert attempts[k..][0] == attempts[k] && attempts[k..][1..] == attempts[k + 1..];
  }

  lemma InterruptRoundsFrom(scripts: seq<seq<Io>>, k: nat)
    requires k < |scripts|
    ensures InterruptRounds(scripts[k..]) == if EndsLocally(scripts[k]) then 1 + InterruptRounds(scripts[k + 1..]) else 1
    ensures InterruptGivesUp(scripts[k..]) <==>
            EndsRemotely(scripts[k]) || (EndsLocally(scripts[k]) && InterruptGivesUp(scripts[k + 1..]))
  {
    assert scripts[k..][0] == scripts[k] && scripts[k..][1..] == scripts[k + 1..];
  }

  function InterruptRounds(scripts: seq<seq<Io>>): nat {
    if scripts == [] then 0
    else if EndsLocally(scripts[0]) then 1 + InterruptRounds(scripts[1..])
    else 1
  }

  predicate InterruptGivesUp(scripts: seq<seq<Io>>) {
    scripts != [] && (EndsRemotely(scripts[0]) || (EndsLocally(scripts[0]) && InterruptGivesUp(scripts[1..])))
  }

  /** A new pipe, run until its first error. Its histories are those of the script. */
  method RunPipe(script: seq<Io>, spills: nat -> (Buffer, Buffer)) returns (pipe: Pipe, error: Option<FromPipe<Error>>)
    requires Feasible(EMPTY, script)
    ensures pipe.Valid() && fresh(pipe) && pipe.Pending() == Final(EMPTY, script)
    ensures error == FirstError(EMPTY, script)
    ensures pipe.traffic == MovedAll(NO_TRAFFIC, EMPTY, script)
    ensures InOrder(pipe.traffic, pipe.Pending())
  {
    pipe := new Pipe();
    error := pipe.WorkUntilError(script, spills);
  }

  /** So what it received and sent is what Packets and Delivered read off the script. */
  lemma HistoriesOf(script: seq<Io>, d: Direction)
    ensures PacketsTo(MovedAll(NO_TRAFFIC, EMPTY, script), d) == Packets(script, d)
    ensures SentTo(MovedAll(NO_TRAFFIC, EMPTY, script), d) == Delivered(EMPTY, script, d)
  {
    TrafficOf(NO_TRAFFIC, EMPTY, script, d);
  }

  /** One round of the control supervisor; it goes on if only the local peer failed. */
  method ServeLocalPeer(attempt: Attempt, spills: nat -> (Buffer, Buffer)) returns (stop: Option<Ending>)
    requires attempt.Connected? ==> Feasible(EMPTY, attempt.script)
    ensures stop == if !attempt.Connected? then Some(LocalSetupFailed) else StopAfter(FirstError(EMPTY, attempt.script))
  {
    match attempt
    case Connected(script) =>
      var pipe, error := RunPipe(script, spills);
      stop := StopAfter(error);
    case _ => stop := Some(LocalSetupFailed);
  }

  function StopAfter(error: Option<FromPipe<Error>>): Option<Ending> {
    match error
    case None => Some(StillRunning)
    case Some(FromRemote(e)) => Some(RemoteFailed(e))
    case Some(FromLocal(_)) => None
  }

  /** One round of the interrupt supervisor. */
  method ServeInterruptPipe(script: seq<Io>, spills: nat -> (Buffer, Buffer)) returns (stop: Option<Ending>)
    requires Feasible(EMPTY, script)
    ensures stop == StopAfter(FirstError(EMPTY, script))
  {
    var pipe, error := RunPipe(script, spills);
    stop := StopAfter(error);
    if stop.None? {
      pipe.ClearToLocal();
    }
  }

  /** One more pipe, after one that its local side ended. */
  function Extended(ss: Sessions, script: seq<Io>): (r: Sessions)
    requires Feasible(EMPTY, script) && Restarted(ss) && (ss != [] ==> EndsLocally(ss[|ss| - 1]))
    ensures r == ss + [script] && Restarted(r)
  {
    ss + [script]
  }

  /** handle_control_socket: `listened` counts the ControlListening events, `ss` are the
      scripts of the pipes it ran. */
  method HandleControl(attempts: seq<Attempt>, spills: nat -> (Buffer, Buffer))
    returns (ending: Ending, listened: nat, ss: Sessions)
    requires forall k | 0 <= k < |attempts| && attempts[k].Connected? :: Feasible(EMPTY, attempts[k].script)
    ensures Restarted(ss) && |ss| <= |attempts|
    ensures forall k | 0 <= k < |ss| :: attempts[k] == Connected(ss[k])
    ensures ending.RemoteFailed? ==> ss != [] && FirstError(EMPTY, ss[|ss| - 1]) == Some(FromRemote(ending.error))
    ensures ending == StillRunning ==> ss != [] && FirstError(EMPTY, ss[|ss| - 1]) == None
    ensures ending == LocalSetupFailed ==> |ss| < |attempts| && !attempts[|ss|].Connected?
    ensures ending == LocalSetupFailed || ending == SessionsOver ==> ss != [] ==> EndsLocally(ss[|ss| - 1])
    ensures ending == SessionsOver ==> |ss| == |attempts|
    ensures listened == |ss| + if ending == LocalSetupFailed then 1 else 0
    ensures listened == Rounds(attempts)
    ensures ending == LocalSetupFailed || ending.RemoteFailed? <==> GivesUp(attempts)
  {
    listened := 0;
    ss := [];
    var k := 0;
    while k < |attempts|
      invariant 0 <= k == |ss| == listened <= |attempts|
      invariant Restarted(ss) && (ss != [] ==> EndsLocally(ss[|ss| - 1]))
      invariant forall j | 0 <= j < |ss| :: attempts[j] == Connected(ss[j])
      invariant listened + Rounds(attempts[k..]) == Rounds(attempts) && (GivesUp(attempts[k..]) <==> GivesUp(attempts))
    {
      RoundsFrom(attempts, k);
      listened := listened + 1;
      var stop := ServeLocalPeer(attempts[k], spills);
      if attempts[k].Connected? {
        ss := Extended(ss, attempts[k].script);
      }
      if stop.Some? {
        return stop.value, listened, ss;
      }
      k := k + 1;
    }
    ending := SessionsOver;
  }

  /** handle_interrupt_socket after the socket arrived: the old pipe's message to the
      local side is cleared, then the whole pipe is replaced anyway. */
  method HandleInterrupt(scripts: seq<seq<Io>>, spills: nat -> (Buffer, Buffer))
    returns (ending: Ending, listened: nat, ss: Sessions)
    requires forall k | 0 <= k < |scripts| :: Feasible(EMPTY, scripts[k])
    ensures Restarted(ss) && ss <= scripts && listened == |ss|
    ensures !ending.LocalSetupFailed?
    ensures ending.RemoteFailed? ==> ss != [] && FirstError(EMPTY, ss[|ss| - 1]) == Some(FromRemote(ending.error))
    ensures ending == StillRunning ==> ss != [] && FirstError(EMPTY, ss[|ss| - 1]) == None
    ensures ending == SessionsOver ==> ss == scripts && (ss != [] ==> EndsLocally(ss[|ss| - 1]))
    ensures listened == InterruptRounds(scripts)
    ensures ending.RemoteFailed? <==> InterruptGivesUp(scripts)
  {
    listened := 0;
    ss := [];
    var k := 0;
    while k < |scripts|
      invariant 0 <= k == |ss| == listened <= |scripts| && ss == scripts[..k]
      invariant Restarted(ss) && (ss != [] ==> EndsLocally(ss[|ss| - 1]))
      invariant listened + InterruptRounds(scripts[k..]) == InterruptRounds(scripts)
      invariant InterruptGivesUp(scripts[k..]) <==> InterruptGivesUp(scripts)
    {
      InterruptRoundsFrom(scripts, k);
      listened := listened + 1;
      var stop := ServeInterruptPipe(scripts[k], spills);
      ss := Extended(ss, scripts[k]);
      if stop.Some? {
        return stop.value, listened, ss;
      }
      k := k + 1;
    }
    ending := SessionsOver;
  }

  // ---- a connection as a whole --------------------------------------------

  /** Everything accepted from one side and everything delivered to the other, over
      all pipes of a connection. */
  function AllAccepted(ss: Sessions, d: Direction): seq<Bytes> {
    if ss == [] then [] else AllAccepted(ss[..|ss| - 1], d) + Accepted(ss[|ss| - 1], d)
  }

  function AllDelivered(ss: Sessions, d: Direction): seq<Bytes> {
    if ss == [] then [] else AllDelivered(ss[..|ss| - 1], d) + Delivered(EMPTY, ss[|ss| - 1], d)
  }

  /** All packets received from one side, as they were sent there. */
  function AllPackets(ss: Sessions, d: Direction): seq<Bytes> {
    if ss == [] then [] else AllPackets(ss[..|ss| - 1], d) + Packets(ss[|ss| - 1], d)
  }

  lemma {:induction false} AllAcceptedCarry(ss: Sessions, d: Direction)
    ensures CarriesAll(AllAccepted(ss, d), AllPackets(ss, d))
  {
    if ss != [] {
      AllAcceptedCarry(ss[..|ss| - 1], d);
      AcceptsPackets(ss[|ss| - 1], d);
    }
  }

  /** Where each delivered message stands among the accepted ones. */
  function Origins(ss: Sessions, d: Direction): seq<nat> {
    if ss == [] then []
    else
      var init := ss[..|ss| - 1];
      Origins(init, d) + seq(|Delivered(EMPTY, ss[|ss| - 1], d)|, k requires k >= 0 => |AllAccepted(init, d)| + k)
  }

  /** `from` picks, in order and without repetition, the elements of `sub` out of `all`. */
  ghost predicate Embeds(from: seq<nat>, sub: seq<Bytes>, all: seq<Bytes>) {
    && |from| == |sub|
    && (forall i | 0 <= i < |from| :: from[i] < |all| && all[from[i]] == sub[i])
    && (forall i, j | 0 <= i < j < |from| :: from[i] < from[j])
  }

  /** How many messages a pipe held when it was given up. */
  function Dropped(script: seq<Io>, d: Direction): nat {
    |AsSeq(Slot(Final(EMPTY, script), d))|
  }

  function AllDropped(ss: Sessions, d: Direction): nat {
    if ss == [] then 0 else AllDropped(ss[..|ss| - 1], d) + Dropped(ss[|ss| - 1], d)
  }

  lemma SessionBalance(script: seq<Io>, d: Direction)
    requires Feasible(EMPTY, script)
    ensures Accepted(script, d) == Delivered(EMPTY, script, d) + AsSeq(Slot(Final(EMPTY, script), d))
    ensures Dropped(script, d) <= 1
  {
    Conservation(EMPTY, script, d);
    assert AsSeq(Slot(EMPTY, d)) + Accepted(script, d) == Accepted(script, d);
  }

  /** Over any number of restarts, in each direction: what is delivered in full is an
      order-preserving selection of the packets received, each byte for byte or cut to
      its first 1024 bytes, no packet twice, and exactly the pending ones of the pipes
      are missing, one per pipe at most. */
  lemma RelayOverRestarts(ss: Sessions, d: Direction)
    ensures var origins, delivered, packets := Origins(ss, d), AllDelivered(ss, d), AllPackets(ss, d);
            && |origins| == |delivered| == |packets| - AllDropped(ss, d) && AllDropped(ss, d) <= |ss|
            && (forall i, j | 0 <= i < j < |origins| :: origins[i] < origins[j])
            && (forall i | 0 <= i < |origins| :: origins[i] < |packets| && Carries(delivered[i], packets[origins[i]]))
  {
    SelectionOverRestarts(ss, d);
    AllAcceptedCarry(ss, d);
  }

  lemma {:induction false} SelectionOverRestarts(ss: Sessions, d: Direction)
    ensures Embeds(Origins(ss, d), AllDelivered(ss, d), AllAccepted(ss, d))
    ensures |AllAccepted(ss, d)| == |AllDelivered(ss, d)| + AllDropped(ss, d)
    ensures AllDropped(ss, d) <= |ss|
  {
    if ss != [] {
      var init: Sessions, last := ss[..|ss| - 1], ss[|ss| - 1];
      SelectionOverRestarts(init, d);
      SessionBalance(last, d);
      EmbedsAppend(Origins(init, d), AllDelivered(init, d), AllAccepted(init, d),
                   Delivered(EMPTY, last, d), Accepted(last, d));
    }
  }

  /** Extending both sides, the new part delivered as a prefix of the new part accepted. */
  lemma EmbedsAppend(from: seq<nat>, sub: seq<Bytes>, all: seq<Bytes>, newSub: seq<Bytes>, newAll: seq<Bytes>)
    requires Embeds(from, sub, all) && newSub <= newAll
    ensures Embeds(from + seq(|newSub|, k requires k >= 0 => |all| + k), sub + newSub, all + newAll)
  {
  }

  /** Nothing is missing exactly when every pipe ended with an empty slot. */
  lemma {:induction false} NothingMissingIff(ss: Sessions, d: Direction)
    ensures AllAccepted(ss, d) == AllDelivered(ss, d) <==> forall k | 0 <= k < |ss| :: Slot(Final(EMPTY, ss[k]), d) == []
  {
    SelectionOverRestarts(ss, d);
    if AllAccepted(ss, d) == AllDelivered(ss, d) {
      NoneDropped(ss, d);
    } else if forall k | 0 <= k < |ss| :: Slot(Final(EMPTY, ss[k]), d) == [] {
      AllThrough(ss, d);
    }
  }

  lemma {:induction false} NoneDropped(ss: Sessions, d: Direction)
    requires AllDropped(ss, d) == 0
    ensures forall k | 0 <= k < |ss| :: Slot(Final(EMPTY, ss[k]), d) == []
  {
    if ss != [] {
      var init: Sessions := ss[..|ss| - 1];
      NoneDropped(init, d);
      assert forall k | 0 <= k < |init| :: init[k] == ss[k];
    }
  }

  lemma {:induction false} AllThrough(ss: Sessions, d: Direction)
    requires forall k | 0 <= k < |ss| :: Slot(Final(EMPTY, ss[k]), d) == []
    ensures AllAccepted(ss, d) == AllDelivered(ss, d)
  {
    if ss != [] {
      var init: Sessions := ss[..|ss| - 1];
      assert forall k | 0 <= k < |init| :: init[k] == ss[k];
      AllThrough(init, d);
      SessionBalance(ss[|ss| - 1], d);
    }
  }

  /** The local side fails while a message waits in each direction. */
  const BOTH_PENDING: seq<Io> :=
    [LocalRecv(Ok([7])), RemoteRecv(Ok([1])), LocalSend(Err(Other(0)))]

  /** Although only the message to the local side is cleared on such a failure, the
      message to the remote side is lost as well: a restart loses one each way. */
  lemma RestartLosesBoth()
    ensures Feasible(EMPTY, BOTH_PENDING) && EndsLocally(BOTH_PENDING)
    ensures Dropped(BOTH_PENDING, ToLocal) == 1 && Dropped(BOTH_PENDING, ToRemote) == 1
  {
    var s1 := Step(EMPTY, BOTH_PENDING[0]).slots;
    var s2 := Step(s1, BOTH_PENDING[1]).slots;
    assert s1 == Slots([], [7]) && s2 == Slots([1], [7]);
    assert BOTH_PENDING[1..] == [BOTH_PENDING[1], BOTH_PENDING[2]] && BOTH_PENDING[1..][1..] == [BOTH_PENDING[2]];
    assert Failed(s2, BOTH_PENDING[2]);
    assert [BOTH_PENDING[2]][1..] == [] && Step(s2, BOTH_PENDING[2]).slots == s2;
    assert Feasible(s2, [BOTH_PENDING[2]]) && Final(s2, [BOTH_PENDING[2]]) == s2;
    assert FirstError(s2, [BOTH_PENDING[2]]) == Some(FromLocal(Other(0)));
    assert Feasible(s1, BOTH_PENDING[1..]) && Final(s1, BOTH_PENDING[1..]) == s2;
  }
}
