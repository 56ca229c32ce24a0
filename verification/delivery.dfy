/** From the connection tasks to a client's socket: what a subscriber of the broadcast
    ring sees of the log that the daemon's tasks write. */
module Delivery {
  import opened Common
  import opened FileTree
  import opened Lifecycle
  import opened LifecycleInvariant
  import opened LifecycleLog
  import Event
  import EventRing

  /** The events as they are broadcast, without the incarnation that sent them. */
  function EventsOf(log: seq<LogEntry>): (es: seq<Event.ServerEvent>)
    ensures |es| == |log| && forall k | 0 <= k < |log| :: es[k] == log[k].event
  {
    seq(|log|, k requires 0 <= k < |log| => log[k].event)
  }

  /** The events about one peer. */
  function AboutPeer(es: seq<Event.ServerEvent>, a: Address): seq<Event.ServerEvent> {
    if es == [] then []
    else
      var e := es[|es| - 1];
      AboutPeer(es[..|es| - 1], a) + if !e.Lagged? && e.address == a then [e] else []
  }

  lemma {:induction false} RestrictedEvents(log: seq<LogEntry>, a: Address)
    ensures AboutPeer(EventsOf(log), a) == EventsOf(Restrict(log, a))
  {
    if log != [] {
      var init := log[..|log| - 1];
      RestrictedEvents(init, a);
      assert EventsOf(log)[..|log| - 1] == EventsOf(init);
    }
  }

  lemma {:induction false} AboutPeerConcat(es: seq<Event.ServerEvent>, fs: seq<Event.ServerEvent>, a: Address)
    ensures AboutPeer(es + fs, a) == AboutPeer(es, a) + AboutPeer(fs, a)
  {
    if fs == [] {
      assert es + fs == es;
    } else {
      assert (es + fs)[..|es + fs| - 1] == es + fs[..|fs| - 1];
      AboutPeerConcat(es, fs[..|fs| - 1], a);
    }
  }

  /** A client that is level with the ring and was never told of a lag has seen, of every
      peer, the segments of its incarnations one after the other, oldest first: all of
      them but for what had been said when it subscribed. */
  lemma ClientSeesSegments(root: Path, base: Tree, acts: seq<Action>, c: EventRing.Client, a: Address)
    requires CleanBase(root, base) && Valid(Initial(root, base), acts)
    requires c.history == EventsOf(Run(Initial(root, base), acts).log)
    requires EventRing.Positioned(c) && c.next == |c.history|
    requires forall i | 0 <= i < |c.sent| :: !c.sent[i].Lagged?
    ensures var s := Run(Initial(root, base), acts);
            && Segmented(s, a)
            && AboutPeer(c.history[..c.start], a) + AboutPeer(c.sent, a)
               == EventsOf(Segments(s.log, s.tasks, a, |s.tasks|))
  {
    var s := Run(Initial(root, base), acts);
    LogIsSegmented(root, base, acts, a);
    EventRing.NoLagNoGap(c);
    RestrictedEvents(s.log, a);
    AboutPeerConcat(c.history[..c.start], c.sent, a);
    assert c.history[..c.start] + c.sent == c.history;
  }
}
