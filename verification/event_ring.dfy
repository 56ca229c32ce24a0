/** Event delivery to a subscriber: the broadcast ring created in src/main.rs with
    room for 16 events, and the forwarding loop of src/event.rs. */
module EventRing {
  import opened Common
  import opened Event

  const CAPACITY := 16

  /** Everything ever broadcast; positions are u64 counters. */
  type History = h: seq<ServerEvent> | |h| < 0x1_0000_0000_0000_0000

  datatype Received = Nothing | Value(event: ServerEvent) | Behind(skipped: U64)

  datatype Poll = Poll(received: Received, next: nat)

  /** What a receiver at position `next` gets: the next event if it is among the last
      16, otherwise the number of events it has to skip to get there. */
  function PollAt(h: History, next: nat): Poll
    requires next <= |h|
  {
    if next == |h| then Poll(Nothing, next)
    else if |h| - next <= CAPACITY then Poll(Value(h[next]), next + 1)
    else Poll(Behind(|h| - CAPACITY - next), |h| - CAPACITY)
  }

  datatype Slot = Slot(pos: int, event: Option<ServerEvent>)

  /** The ring itself: slot `p % 16` holds event `p` until event `p + 16` takes it. */
  class Broadcast {
    var slots: array<Slot>
    var tail: nat
    ghost var history: History

    ghost predicate Valid()
      reads this, slots
    {
      && slots.Length == CAPACITY && tail == |history|
      && forall i | 0 <= i < CAPACITY :: SlotValid(i)
    }

    ghost predicate SlotValid(i: nat)
      requires slots.Length == CAPACITY && i < CAPACITY
      reads this, slots
    {
      && slots[i].pos % CAPACITY == i
      && tail - CAPACITY <= slots[i].pos < tail
      && (0 <= slots[i].pos < |history| ==> slots[i].event == Some(history[slots[i].pos]))
    }

    constructor ()
      ensures Valid() && history == [] && fresh(slots)
    {
      slots := new Slot[CAPACITY](i => Slot(i - CAPACITY, None));
      tail := 0;
      history := [];
    }

    method Send(e: ServerEvent)
      requires Valid() && |history| + 1 < 0x1_0000_0000_0000_0000
      modifies this, slots
      ensures Valid() && history == old(history) + [e] && slots == old(slots)
    {
      var index := tail % CAPACITY;
      slots[index] := Slot(tail, Some(e));
      tail := tail + 1;
      history := history + [e];
      forall i: nat | i < CAPACITY
        ensures SlotValid(i)
      {
        if i != index {
          assert old(SlotValid(i));
          assert slots[i].pos != tail - 1 - CAPACITY;
        }
      }
    }

    /** Receiver::recv as far as it looks at the ring. */
    method Receive(next: nat) returns (r: Poll)
      requires Valid() && next <= |history|
      ensures r == PollAt(history, next)
    {
      var slot := slots[next % CAPACITY];
      assert SlotValid(next % CAPACITY);
      SamePlace(slot.pos, next, tail);
      if slot.pos == next {
        return Poll(Value(slot.event.value), next + 1);
      }
      if slot.pos + CAPACITY == next {
        return Poll(Nothing, next);
      }
      var jump := tail - CAPACITY;
      r := Poll(Behind(jump - next), jump);
    }
  }

  /** In a window of 16 positions only one shares the slot of `next`. */
  lemma SamePlace(pos: int, next: nat, tail: nat)
    requires pos % CAPACITY == next % CAPACITY && tail - CAPACITY <= pos < tail && next <= tail
    ensures pos == next <==> next < tail && tail - next <= CAPACITY
    ensures pos + CAPACITY == next <==> next == tail
    ensures pos != next && next != tail ==> tail - CAPACITY > next
  {
    assert (pos - next) % CAPACITY == 0;
  }

  // ---- a subscriber among any number of publications ----------------------

  datatype Op = Publish(event: ServerEvent) | Forward

  /** `start` is the tail at subscription time; `sent` went to the client's socket. */
  datatype Client = Client(history: History, start: nat, next: nat, sent: seq<ServerEvent>)

  function Subscribe(h: History): Client {
    Client(h, |h|, |h|, [])
  }

  predicate Enabled(c: Client, op: Op) {
    match op
    case Publish(e) => !e.Lagged? && |c.history| + 1 < 0x1_0000_0000_0000_0000
    case Forward => c.next <= |c.history|
  }

  /** handle_connection forwards an event, or the lag as an event of its own. */
  function Apply(c: Client, op: Op): Client
    requires Enabled(c, op)
  {
    match op
    case Publish(e) => c.(history := c.history + [e])
    case Forward =>
      var poll := PollAt(c.history, c.next);
      match poll.received
      case Nothing => c
      case Value(e) => c.(next := poll.next, sent := c.sent + [e])
      case Behind(skipped) => c.(next := poll.next, sent := c.sent + [Lagged(skipped)])
  }

  predicate Valid(c: Client, ops: seq<Op>)
    decreases |ops|
  {
    ops == [] || (Enabled(c, ops[0]) && Valid(Apply(c, ops[0]), ops[1..]))
  }

  function Run(c: Client, ops: seq<Op>): Client
    requires Valid(c, ops)
    decreases |ops|
  {
    if ops == [] then c else Run(Apply(c, ops[0]), ops[1..])
  }

  /** How far a client gets by counting what it read: one for an event, `k` for a lag. */
  function Cursor(sent: seq<ServerEvent>): nat {
    if sent == [] then 0
    else Cursor(sent[..|sent| - 1]) + if sent[|sent| - 1].Lagged? then sent[|sent| - 1].skipped else 1
  }

  /** Event `i` of `sent` was broadcast at the position that counting assigns to it. */
  ghost predicate Placed(h: seq<ServerEvent>, start: nat, sent: seq<ServerEvent>, i: nat)
    requires i < |sent|
  {
    sent[i].Lagged? || (start + Cursor(sent[..i]) < |h| && h[start + Cursor(sent[..i])] == sent[i])
  }

  /** Everything sent stands at its position. */
  ghost predicate Positioned(c: Client) {
    && c.next == c.start + Cursor(c.sent) <= |c.history|
    && (forall i: nat | i < |c.sent| :: Placed(c.history, c.start, c.sent, i))
    && (forall q | c.start <= q < |c.history| :: !c.history[q].Lagged?)
  }

  lemma CursorAppend(sent: seq<ServerEvent>, e: ServerEvent)
    ensures Cursor(sent + [e]) == Cursor(sent) + if e.Lagged? then e.skipped else 1
  {
    assert (sent + [e])[..|sent|] == sent;
  }

  lemma ForwardKeepsPosition(c: Client, e: ServerEvent, next: nat)
    requires Positioned(c) && next == c.next + (if e.Lagged? then e.skipped else 1) && next <= |c.history|
    requires !e.Lagged? ==> c.next < |c.history| && c.history[c.next] == e
    ensures Positioned(c.(next := next, sent := c.sent + [e]))
  {
    var sent := c.sent + [e];
    CursorAppend(c.sent, e);
    forall i: nat | i < |sent|
      ensures Placed(c.history, c.start, sent, i)
    {
      assert sent[..i] == c.sent[..i];
      if i == |c.sent| {
        assert c.sent[..i] == c.sent;
      } else {
        assert Placed(c.history, c.start, c.sent, i);
      }
    }
  }

  lemma PublishKeepsPosition(c: Client, e: ServerEvent)
    requires Positioned(c) && Enabled(c, Publish(e))
    ensures Positioned(Apply(c, Publish(e)))
  {
    var longer := c.history + [e];
    forall i: nat | i < |c.sent|
      ensures Placed(longer, c.start, c.sent, i)
    {
      assert Placed(c.history, c.start, c.sent, i);
    }
  }

  lemma PollKeepsPosition(c: Client)
    requires Positioned(c)
    ensures Positioned(Apply(c, Forward))
  {
    var poll := PollAt(c.history, c.next);
    match poll.received
    case Nothing =>
    case Value(e) => ForwardKeepsPosition(c, e, poll.next);
    case Behind(skipped) => ForwardKeepsPosition(c, Lagged(skipped), poll.next);
  }

  lemma StepKeepsPosition(c: Client, op: Op)
    requires Positioned(c) && Enabled(c, op)
    ensures Positioned(Apply(c, op)) && Apply(c, op).start == c.start && c.history <= Apply(c, op).history
  {
    match op
    case Publish(e) => PublishKeepsPosition(c, e);
    case Forward => PollKeepsPosition(c);
  }

  /** For every subscriber and every interleaving of publications and forwards: the
      forwarded events plus the sum of the forwarded lags is the subscriber's cursor,
      and each forwarded event is the one broadcast at the position so counted. */
  lemma {:induction false} ClientCanCount(c: Client, ops: seq<Op>)
    requires Positioned(c) && Valid(c, ops)
    ensures var c' := Run(c, ops);
            Positioned(c') && c'.start == c.start && c.history <= c'.history
    decreases |ops|
  {
    if ops != [] {
      StepKeepsPosition(c, ops[0]);
      ClientCanCount(Apply(c, ops[0]), ops[1..]);
    }
  }

  lemma SubscribedCanCount(h: History, ops: seq<Op>)
    requires Valid(Subscribe(h), ops)
    ensures Positioned(Run(Subscribe(h), ops)) && Run(Subscribe(h), ops).start == |h|
  {
    ClientCanCount(Subscribe(h), ops);
  }

  lemma {:induction false} CursorWithoutLag(sent: seq<ServerEvent>)
    requires forall i | 0 <= i < |sent| :: !sent[i].Lagged?
    ensures Cursor(sent) == |sent|
  {
    if sent != [] {
      CursorWithoutLag(sent[..|sent| - 1]);
    }
  }

  lemma EventWithoutLag(c: Client, i: nat)
    requires Positioned(c) && i < |c.sent| && forall k | 0 <= k < |c.sent| :: !c.sent[k].Lagged?
    ensures c.start + i < |c.history| && c.history[c.start + i] == c.sent[i]
  {
    CursorWithoutLag(c.sent[..i]);
    assert Placed(c.history, c.start, c.sent, i);
  }

  /** A client that was never told of a lag has been sent every event, in order. */
  lemma NoLagNoGap(c: Client)
    requires Positioned(c) && forall i | 0 <= i < |c.sent| :: !c.sent[i].Lagged?
    ensures c.next == c.start + |c.sent| <= |c.history|
    ensures c.sent == c.history[c.start..c.start + |c.sent|]
  {
    CursorWithoutLag(c.sent);
    var window := c.history[c.start..c.start + |c.sent|];
    forall i: nat | i < |c.sent|
      ensures c.sent[i] == window[i]
    {
      EventWithoutLag(c, i);
    }
  }

  /** The same from the bytes on the socket: one packet per event, each decodable. */
  lemma BytesSuffice(c: Client, packets: seq<Bytes>, i: nat)
    requires Positioned(c) && |packets| == |c.sent| && i < |packets|
    requires forall k | 0 <= k < |packets| :: packets[k] == AsBytes(c.sent[k])
    ensures Decode(packets[i]) == Some(c.sent[i])
    ensures !c.sent[i].Lagged? ==>
              c.start + Cursor(c.sent[..i]) < |c.history|
              && AsBytes(c.history[c.start + Cursor(c.sent[..i])]) == packets[i]
  {
    RoundTrip(c.sent[i], packets[i]);
    assert Placed(c.history, c.start, c.sent, i);
  }

  /** One client task of the event server: its receiver and what it wrote to its socket. */
  class Subscriber {
    var next: nat
    var sent: seq<ServerEvent>
    ghost const start: nat

    /** `subscribe` starts at the tail of the ring. */
    constructor (ring: Broadcast)
      requires ring.Valid()
      ensures View(ring.history) == Subscribe(ring.history)
    {
      start := ring.tail;
      next := ring.tail;
      sent := [];
    }

    ghost function View(h: History): Client
      reads this
    {
      Client(h, start, next, sent)
    }

    /** One round of handle_connection's loop, or nothing if it would have to wait. */
    method ForwardOne(ring: Broadcast) returns (waits: bool)
      requires ring.Valid() && next <= |ring.history|
      modifies this
      ensures View(ring.history) == Apply(old(View(ring.history)), Forward)
      ensures waits <==> old(next) == |ring.history|
    {
      var poll := ring.Receive(next);
      waits := poll.received.Nothing?;
      next := poll.next;
      match poll.received
      case Nothing =>
      case Value(event) => sent := sent + [event];
      case Behind(skipped) => sent := sent + [Lagged(skipped)];
    }

    /** The loop up to the point where it waits for the next publication: the client
        is level with the ring, everything it was sent can be placed, and it was sent
        every event, or if it had fallen too far behind one lag and then all 16 events
        that the ring still had. */
    method ForwardPending(ring: Broadcast)
      requires ring.Valid() && Positioned(View(ring.history))
      modifies this
      ensures Positioned(View(ring.history)) && next == |ring.history|
      ensures |ring.history| - old(next) <= 16 ==> sent == old(sent) + ring.history[old(next)..]
      ensures |ring.history| - old(next) > 16 ==>
                sent == old(sent) + [Lagged(|ring.history| - 16 - old(next))] + ring.history[|ring.history| - 16..]
    {
      var waits := false;
      ghost var before := View(ring.history);
      while !waits
        invariant waits ==> next == |ring.history|
        invariant CaughtUpFrom(before, View(ring.history))
        decreases !waits, |ring.history| - next
      {
        CatchUpStep(before, View(ring.history));
        waits := ForwardOne(ring);
      }
      LevelWith(before, View(ring.history));
    }
  }

  /** `c` came from `before` by forwarding: every event if it was not too far behind,
      else the lag and then every event that the ring still had. */
  ghost predicate CaughtUpFrom(before: Client, c: Client) {
    && Positioned(c) && c.history == before.history && before.next <= c.next
    && (|c.history| - before.next <= CAPACITY ==> c.sent == before.sent + c.history[before.next..c.next])
    && (|c.history| - before.next > CAPACITY ==> c == before || CaughtUpAfterLag(before, c))
  }

  ghost predicate CaughtUpAfterLag(before: Client, c: Client)
    requires c.next <= |c.history| && |c.history| - before.next > CAPACITY
  {
    var oldest := |c.history| - CAPACITY;
    c.next >= oldest && c.sent == before.sent + [Lagged(oldest - before.next)] + c.history[oldest..c.next]
  }

  lemma LevelWith(before: Client, c: Client)
    requires CaughtUpFrom(before, c) && c.next == |c.history|
    ensures |c.history| - before.next <= CAPACITY ==> c.sent == before.sent + c.history[before.next..]
    ensures |c.history| - before.next > CAPACITY ==>
              var oldest := |c.history| - CAPACITY;
              c.sent == before.sent + [Lagged(oldest - before.next)] + c.history[oldest..]
  {
    assert c.history[before.next..c.next] == c.history[before.next..];
    if |c.history| - before.next > CAPACITY {
      assert c.history[|c.history| - CAPACITY..c.next] == c.history[|c.history| - CAPACITY..];
    }
  }

  lemma CatchUpStep(before: Client, c: Client)
    requires CaughtUpFrom(before, c)
    ensures CaughtUpFrom(before, Apply(c, Forward))
    ensures c.next < |c.history| ==> Apply(c, Forward).next > c.next
    ensures c.next == |c.history| ==> Apply(c, Forward) == c
  {
    PollKeepsPosition(c);
    if c.next == |c.history| {
    } else if |c.history| - c.next <= CAPACITY {
      NearCatchUp(before, c);
    } else {
      LagCatchUp(before, c);
    }
  }

  lemma NearCatchUp(before: Client, c: Client)
    requires CaughtUpFrom(before, c) && c.next < |c.history| && |c.history| - c.next <= CAPACITY
    requires Positioned(Apply(c, Forward))
    ensures CaughtUpFrom(before, Apply(c, Forward)) && Apply(c, Forward).next > c.next
  {
    NearStep(c);
    SentMore(before, c);
  }

  lemma LagCatchUp(before: Client, c: Client)
    requires CaughtUpFrom(before, c) && |c.history| - c.next > CAPACITY && Positioned(Apply(c, Forward))
    ensures CaughtUpFrom(before, Apply(c, Forward)) && Apply(c, Forward).next > c.next
  {
    OldestRetained(c);
    var oldest := |c.history| - CAPACITY;
    assert c.history[oldest..oldest] == [];
  }

  lemma SentMore(before: Client, c: Client)
    requires CaughtUpFrom(before, c) && c.next < |c.history| && |c.history| - c.next <= CAPACITY
    ensures var sent := c.sent + [c.history[c.next]];
            && (|c.history| - before.next <= CAPACITY ==> sent == before.sent + c.history[before.next..c.next + 1])
            && (|c.history| - before.next > CAPACITY ==>
                  var oldest := |c.history| - CAPACITY;
                  sent == before.sent + [Lagged(oldest - before.next)] + c.history[oldest..c.next + 1])
  {
    if |c.history| - before.next <= CAPACITY {
      SliceGrows(c.history, before.next, c.next);
    } else {
      SliceGrows(c.history, |c.history| - CAPACITY, c.next);
    }
  }

  /** Not too far behind, the next event is sent. */
  lemma NearStep(c: Client)
    requires c.next < |c.history| && |c.history| - c.next <= CAPACITY
    ensures Apply(c, Forward) == c.(next := c.next + 1, sent := c.sent + [c.history[c.next]])
  {
  }

  lemma SliceGrows(h: seq<ServerEvent>, from: nat, to: nat)
    requires from <= to < |h|
    ensures h[from..to + 1] == h[from..to] + [h[to]]
  {
  }

  /** A subscriber is told of a lag exactly if it is more than 16 events behind, and then
      stands at the oldest event the ring retains: the 16 after it are still sent. */
  lemma OldestRetained(c: Client)
    requires c.next <= |c.history|
    ensures PollAt(c.history, c.next).received.Behind? <==> |c.history| - c.next > 16
    ensures |c.history| - c.next > 16 ==>
              Apply(c, Forward) == c.(next := |c.history| - 16, sent := c.sent + [Lagged(|c.history| - 16 - c.next)])
  {
  }
}
