/** The vector of live connections that the accept loop and `clear` share
    (src/connection.rs), as values: what each critical section does to it. */
module ConnectionList {
  import opened Common

  /** One entry: the peer and the task (by number) behind its CancelHandle. */
  datatype Connection = Connection(peerAddress: Address, id: nat)

  /** No two entries are for the same peer. */
  ghost predicate Distinct(cs: seq<Connection>) {
    forall i, j | 0 <= i < j < |cs| :: cs[i].peerAddress != cs[j].peerAddress
  }

  predicate Absent(cs: seq<Connection>, address: Address) {
    forall c | c in cs :: c.peerAddress != address
  }

  /** `retain(|conn| !conn.is_finished())` */
  function Retain(cs: seq<Connection>, finished: set<nat>): seq<Connection> {
    if cs == [] then []
    else
      var init := Retain(cs[..|cs| - 1], finished);
      if cs[|cs| - 1].id in finished then init else init + [cs[|cs| - 1]]
  }

  /** `iter().position(|conn| conn.peer_address() == address)` */
  function Position(cs: seq<Connection>, address: Address): (r: Option<nat>)
    ensures r.Some? ==> r.value < |cs| && cs[r.value].peerAddress == address
    ensures r.Some? ==> forall k | 0 <= k < r.value :: cs[k].peerAddress != address
    ensures r.None? ==> Absent(cs, address)
  {
    if cs == [] then None
    else
      var found := Position(cs[..|cs| - 1], address);
      if found.Some? then found
      else if cs[|cs| - 1].peerAddress == address then Some(|cs| - 1)
      else
        assert cs == cs[..|cs| - 1] + [cs[|cs| - 1]];
        None
  }

  datatype Taken = Taken(rest: seq<Connection>, existing: Option<Connection>)

  /** The critical section of cancel_existing. */
  function TakeExisting(cs: seq<Connection>, finished: set<nat>, address: Address): Taken {
    var live := Retain(cs, finished);
    match Position(live, address)
    case None => Taken(live, None)
    case Some(p) => Taken(live[..p] + live[p + 1..], Some(live[p]))
  }

  /** How many handles of running tasks the section drops: those of entries that it
      neither keeps in the list nor hands over. */
  function DroppedRunning(cs: seq<Connection>, taken: Taken, finished: set<nat>): nat {
    if cs == [] then 0
    else
      var c := cs[|cs| - 1];
      DroppedRunning(cs[..|cs| - 1], taken, finished)
      + if c !in taken.rest && taken.existing != Some(c) && c.id !in finished then 1 else 0
  }

  lemma {:induction false} NoneDroppedRunning(cs: seq<Connection>, taken: Taken, finished: set<nat>)
    requires forall c | c in cs && c !in taken.rest && taken.existing != Some(c) :: c.id in finished
    ensures DroppedRunning(cs, taken, finished) == 0
  {
    if cs != [] {
      NoneDroppedRunning(cs[..|cs| - 1], taken, finished);
    }
  }

  lemma {:induction false} RetainMembers(cs: seq<Connection>, finished: set<nat>, c: Connection)
    ensures c in Retain(cs, finished) <==> c in cs && c.id !in finished
  {
    if cs != [] {
      RetainMembers(cs[..|cs| - 1], finished, c);
      assert cs == cs[..|cs| - 1] + [cs[|cs| - 1]];
    }
  }

  lemma {:induction false} RetainDistinct(cs: seq<Connection>, finished: set<nat>)
    requires Distinct(cs)
    ensures Distinct(Retain(cs, finished))
  {
    if cs != [] {
      var init := cs[..|cs| - 1];
      RetainDistinct(init, finished);
      forall c | c in Retain(init, finished)
        ensures c.peerAddress != cs[|cs| - 1].peerAddress
      {
        RetainMembers(init, finished, c);
      }
    }
  }

  lemma RemoveOne(live: seq<Connection>, p: nat)
    requires Distinct(live) && p < |live|
    ensures var rest := live[..p] + live[p + 1..];
            && Distinct(rest) && Absent(rest, live[p].peerAddress)
            && forall c :: c in rest <==> c in live && c.peerAddress != live[p].peerAddress
  {
    var rest := live[..p] + live[p + 1..];
    forall k: nat | k < |rest|
      ensures rest[k] == live[if k < p then k else k + 1]
    {
    }
    forall c | c in live && c.peerAddress != live[p].peerAddress
      ensures c in rest
    {
      var k :| 0 <= k < |live| && live[k] == c;
      assert rest[if k < p then k else k - 1] == c;
    }
  }

  /** From a list without duplicate peers, the section takes out every finished
      connection and the one to `address`, and nothing else. */
  lemma TakeExistingSpec(cs: seq<Connection>, finished: set<nat>, address: Address)
    requires Distinct(cs)
    ensures var taken := TakeExisting(cs, finished, address);
            && Distinct(taken.rest) && Absent(taken.rest, address)
            && (forall c :: c in taken.rest <==> c in cs && c.id !in finished && c.peerAddress != address)
            && (forall c :: taken.existing == Some(c) <==> c in cs && c.id !in finished && c.peerAddress == address)
  {
    var live := Retain(cs, finished);
    RetainDistinct(cs, finished);
    forall c
      ensures c in live <==> c in cs && c.id !in finished
    {
      RetainMembers(cs, finished, c);
    }
    match Position(live, address)
    case None =>
    case Some(p) => RemoveOne(live, p);
  }
}
