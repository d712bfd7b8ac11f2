/**
 What the protocol does not promise: a receiver moves on only by the very next packet of its peer. A
 keepalive is sent once, so when that datagram is lost nothing the peer sends later is ever accepted.
 */
module Progress {
  import opened Endpoints
  import opened EndpointFacts
  import opened Deliveries
  import opened Disciplines
  import opened Connections
  import opened Acknowledgements
  import opened ConnectionRuns

  /** The event brings a side the packet that follows the last one it accepted. */
  ghost predicate BringsNext(s: System, event: Event, side: Side)
    requires Enabled(s, event)
  {
    && event.Deliver? && event.to == side
    && End(s, Other(side)).log.sent[event.datagram].index == |End(s, side).log.accepted|
  }

  lemma RegisteredAcceptsNext(s: System, event: Event)
    requires Invariant(s) && Enabled(s, event) && event.Deliver? && !BringsNext(s, event, event.to)
    requires End(s, event.to).remote && Handshakes(s, event.to) > 0
    requires !End(s, Other(event.to)).log.sent[event.datagram].content.Handshake?
    ensures End(Step(s, event), event.to).log.accepted == End(s, event.to).log.accepted
  {
    RegisteredDispatch(s, event);
  }

  lemma GreetingAcceptsNext(s: System, event: Event)
    requires Invariant(s) && Enabled(s, event) && event.Deliver? && event.to.Listener?
    requires !BringsNext(s, event, Listener) && !s.listener.remote
    requires s.connector.log.sent[event.datagram].content.Keepalive?
    ensures Step(s, event).listener.log.accepted == s.listener.log.accepted
  {
    DatagramFacts(s, Connector, event.datagram);
    LaterDatagramsNeedHandshakes(s, Connector, event.datagram);
    ListenerMeetsKeepalive(RoleOf(s, Listener), s.listener, s.connector.log.sent[event.datagram],
                           event.calls, event.ackCalls);
  }

  lemma DeliveryAcceptsNext(s: System, event: Event)
    requires Invariant(s) && Enabled(s, event) && event.Deliver? && !BringsNext(s, event, event.to)
    ensures End(Step(s, event), event.to).log.accepted == End(s, event.to).log.accepted
  {
    var p := End(s, Other(event.to)).log.sent[event.datagram];
    DatagramFacts(s, Other(event.to), event.datagram);
    LaterDatagramsNeedHandshakes(s, Other(event.to), event.datagram);
    if !p.content.Handshake? && End(s, event.to).remote {
      RegisteredAcceptsNext(s, event);
    } else if p.content.Keepalive? {
      GreetingAcceptsNext(s, event);
    }
  }

  /** Nothing but the next packet is accepted. */
  lemma OnlyNextIsAccepted(s: System, event: Event, side: Side)
    requires Invariant(s) && Enabled(s, event) && !BringsNext(s, event, side)
    ensures End(Step(s, event), side).log.accepted == End(s, side).log.accepted
  {
    if Actor(event) != side {
      OthersStay(s, event, side);
    } else if event.Deliver? {
      DeliveryAcceptsNext(s, event);
    } else {
      OwnStepIsQuiet(s, event);
    }
  }

  /** No event of the run brings a side its next packet. */
  ghost predicate NeverBringsNext(s: System, run: seq<Event>, side: Side)
    requires IsRun(s, run)
    decreases |run|
  {
    run == [] || (!BringsNext(s, run[0], side) && NeverBringsNext(Step(s, run[0]), run[1..], side))
  }

  /** A side accepts nothing at all for as long as its next packet does not arrive. */
  lemma {:induction false} StuckUntilNextArrives(s: System, run: seq<Event>, side: Side)
    requires Safe(s) && IsRun(s, run) && NeverBringsNext(s, run, side)
    ensures End(Reached(s, run), side).log.accepted == End(s, side).log.accepted
    decreases |run|
  {
    if run != [] {
      OnlyNextIsAccepted(s, run[0], side);
      NextSafe(s, run[0]);
      StuckUntilNextArrives(Step(s, run[0]), run[1..], side);
    }
  }

  /** A keepalive is handed to the network once, and is never queued to be sent again. */
  lemma KeepaliveIsSentOnce(connectorBase: nat, listenerBase: nat, run: seq<Event>, s: System,
                            side: Side, i: nat, j: nat)
    requires Reaches(connectorBase, listenerBase, run, s)
    requires i < |End(s, side).log.sent| && j < |End(s, side).log.sent|
    requires End(s, side).log.sent[i].content.Keepalive?
    requires End(s, side).log.sent[i].index == End(s, side).log.sent[j].index
    ensures i == j && End(s, side).log.sent[i].index !in PendingIndices(End(s, side).queue.entries)
  {
    ReachedSafe(connectorBase, listenerBase, run, s);
    SafeSide(s, side);
    KeepaliveNotPending(RoleOf(s, side), End(s, side), i);
    OneOfEach(End(s, side).log.sent, i, j);
  }

  lemma OneOfEach(sent: seq<Packet>, i: nat, j: nat)
    requires KeepalivesOnce(sent) && i < |sent| && j < |sent|
    requires sent[i].content.Keepalive? && sent[i].index == sent[j].index
    ensures i == j
  {
  }

  lemma KeepaliveNotPending(r: Role, e: Endpoint, i: nat)
    requires PacketsOk(r, e) && i < |e.log.sent| && e.log.sent[i].content.Keepalive?
    ensures e.log.sent[i].index !in PendingIndices(e.queue.entries)
  {
    assert PacketOk(r, e.log.issued, |e.log.accepted|, e.log.sent[i]);
    forall k | k in e.queue.entries
      ensures e.queue.entries[k].job.index != e.log.sent[i].index
    {
      assert JobOk(r, e.log.issued, |e.log.accepted|, e.queue.entries[k].job);
    }
  }

  /** The peer's datagram j is a keepalive, and the next packet this side could accept. */
  ghost predicate AwaitsKeepalive(s: System, to: Side, j: nat) {
    && j < |End(s, Other(to)).log.sent| && End(s, Other(to)).log.sent[j].content.Keepalive?
    && End(s, Other(to)).log.sent[j].index == |End(s, to).log.accepted|
  }

  /** The network loses the datagram: no event of the run delivers it. */
  predicate Loses(run: seq<Event>, to: Side, j: nat) {
    forall n :: 0 <= n < |run| && run[n].Deliver? && run[n].to == to ==> run[n].datagram != j
  }

  lemma StillAwaits(s: System, event: Event, to: Side, j: nat)
    requires Invariant(s) && KeepalivesOnce(End(s, Other(to)).log.sent) && Enabled(s, event)
    requires AwaitsKeepalive(s, to, j) && (event.Deliver? && event.to == to ==> event.datagram != j)
    ensures AwaitsKeepalive(Step(s, event), to, j)
    ensures End(Step(s, event), to).log.accepted == End(s, to).log.accepted
  {
    OnlyNextIsAccepted(s, event, to);
    LogsGrow(s, event, Other(to));
    assert End(Step(s, event), Other(to)).log.sent[j] == End(s, Other(to)).log.sent[j];
  }

  lemma SafeKeepalives(s: System, side: Side)
    requires Safe(s)
    ensures Invariant(s) && KeepalivesOnce(End(s, side).log.sent)
  {
  }

  /**
   A lost keepalive blocks its receiver for good: in no continuation without that one datagram does the
   receiver accept anything again.
   */
  lemma {:induction false} LostKeepaliveBlocks(s: System, run: seq<Event>, to: Side, j: nat)
    requires Safe(s) && IsRun(s, run) && AwaitsKeepalive(s, to, j) && Loses(run, to, j)
    ensures End(Reached(s, run), to).log.accepted == End(s, to).log.accepted
    decreases |run|
  {
    if run != [] {
      SafeKeepalives(s, Other(to));
      StillAwaits(s, run[0], to, j);
      NextSafe(s, run[0]);
      LostKeepaliveBlocks(Step(s, run[0]), run[1..], to, j);
    }
  }
}
