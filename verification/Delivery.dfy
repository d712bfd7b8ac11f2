/**
 What the arrival of one datagram does to an endpoint, in each phase of the connection.
 */
module Deliveries {
  import opened Wrappers
  import opened TransmitQueues
  import opened Endpoints
  import opened EndpointFacts

  /** A packet of the peer that is less than a whole circle away from the next expected one. */
  ghost predicate FreshPacket(r: Role, e: Endpoint, p: Packet) {
    && p.number <= MAX && p.number == Raw(r.peer + p.index)
    && p.index < |e.log.accepted| + MAX + 1 && |e.log.accepted| < p.index + MAX + 1
  }

  /** The part of a delivery that concerns the peer. */
  ghost predicate DeliveryStep(e: Endpoint, f: Endpoint, p: Packet) {
    && (f.log.accepted == e.log.accepted
        || (p.index == |e.log.accepted| && f.log.accepted == e.log.accepted + [p.content]))
    && e.log.issued <= f.log.issued
    && e.log.sent <= f.log.sent
  }

  function DispatchPacket(e: Endpoint, p: Packet, calls: seq<UserCall>, ackCalls: seq<UserCall>): Endpoint
    requires p.number <= MAX
  {
    Dispatch(e, p.content, p.number, p.ack, calls, ackCalls)
  }

  function ProcessedPacket(e: Endpoint, p: Packet, calls: seq<UserCall>): Endpoint
    requires p.number <= MAX
  {
    Processed(e, p.content, p.number, calls)
  }

  lemma ProcessedKeeps(r: Role, e: Endpoint, p: Packet, calls: seq<UserCall>)
    requires Ok(r, e) && e.log.accepted != [] && FreshPacket(r, e, p) && !p.content.Handshake?
    ensures var f := ProcessedPacket(e, p, calls);
            && Ok(r, f) && PacketStep(e, f) && DeliveryStep(e, f, p)
            && (f.log.accepted != e.log.accepted <==> p.index == |e.log.accepted|)
            && (p.content.Keepalive? ==> f.log.issued == e.log.issued && f.queue == e.queue)
  {
    ExpectedIsNext(r, e, p.number, p.index);
    match p.content
    case Keepalive => ProcessKeepaliveKeeps(r, e, p.number);
    case Data(payload) => ProcessDataKeeps(r, e, p.number, payload, calls);
  }

  lemma DeliveryThenAck(r: Role, e: Endpoint, f: Endpoint, g: Endpoint, p: Packet)
    requires DeliveryStep(e, f, p) && p.ack.Some? && AckStep(r, f, g, p.ack.value)
    ensures DeliveryStep(e, g, p)
  {
  }

  lemma FaultKeeps(r: Role, e: Endpoint, ack: nat, calls: seq<UserCall>)
    requires Ok(r, e) && !e.fault && e.state.Closed?
    ensures ProcessAcknowledgement(e, ack, calls) == e.(fault := true)
    ensures Ok(r, e.(fault := true))
  {
  }

  /** The facts about a registered endpoint that a delivery keeps. */
  ghost predicate StaysRegistered(e: Endpoint, f: Endpoint, p: Packet) {
    && NoHandshakes(e.log.issued, f.log.issued)
    && f.open == e.open && f.remote && f.state == e.state
    && (f.fault <==> p.ack.Some? && e.state.Closed?)
    && (f.log.accepted != e.log.accepted <==> p.index == |e.log.accepted|)
  }

  lemma AcknowledgedStaysRegistered(r: Role, e: Endpoint, f: Endpoint, g: Endpoint, p: Packet)
    requires !e.fault && e.remote && e.state.Established? && PacketStep(e, f) && p.ack.Some?
    requires f.log.accepted != e.log.accepted <==> p.index == |e.log.accepted|
    requires AckStep(r, f, g, p.ack.value)
    ensures StaysRegistered(e, g, p)
  {
  }

  lemma AcknowledgeRegistered(r: Role, e: Endpoint, f: Endpoint, p: Packet, ackCalls: seq<UserCall>)
    requires Ok(r, f) && !e.fault && e.remote && e.state.Established?
    requires PacketStep(e, f) && DeliveryStep(e, f, p)
    requires f.log.accepted != e.log.accepted <==> p.index == |e.log.accepted|
    requires p.ack.Some?
    ensures var g := ProcessAcknowledgement(f, p.ack.value, ackCalls);
            Ok(r, g) && DeliveryStep(e, g, p) && StaysRegistered(e, g, p)
  {
    var g := ProcessAcknowledgement(f, p.ack.value, ackCalls);
    ProcessAcknowledgementKeeps(r, f, p.ack.value, ackCalls);
    DeliveryThenAck(r, e, f, g, p);
    AcknowledgedStaysRegistered(r, e, f, g, p);
  }

  /** A registered endpoint takes data and keepalives; in a failed connection an acknowledgement asserts. */
  lemma DispatchRegistered(r: Role, e: Endpoint, p: Packet, calls: seq<UserCall>, ackCalls: seq<UserCall>)
    requires Ok(r, e) && e.log.accepted != [] && FreshPacket(r, e, p) && !p.content.Handshake?
    requires !e.fault && e.remote && (e.state.Established? || e.state.Closed?)
    ensures var f := DispatchPacket(e, p, calls, ackCalls);
            Ok(r, f) && DeliveryStep(e, f, p) && StaysRegistered(e, f, p)
  {
    ProcessedKeeps(r, e, p, calls);
    var processed := ProcessedPacket(e, p, calls);
    if p.ack.Some? {
      if e.state.Closed? {
        FaultKeeps(r, processed, p.ack.value, ackCalls);
      } else {
        AcknowledgeRegistered(r, e, processed, p, ackCalls);
      }
    }
  }

  /** The first datagram sent in this step is the packet that was numbered first in it. */
  ghost predicate SentNext(e: Endpoint, f: Endpoint, content: Content) {
    && |f.log.sent| > |e.log.sent|
    && f.log.sent[|e.log.sent|].content == content && f.log.sent[|e.log.sent|].index == |e.log.issued|
  }

  /** The connector accepts the listener's handshake and numbers a keepalive that answers it. */
  lemma Greets(r: Role, e: Endpoint, p: Packet)
    requires Ok(r, e) && e.log.accepted == [] && FreshPacket(r, e, p)
    requires p.content.Handshake? && p.index == 0
    requires !e.fault && e.state.Connecting?
    ensures var f := ProcessHandshake(e, p.number);
            && Ok(r, f) && DeliveryStep(e, f, p)
            && f.open == e.open && f.remote == e.remote && f.state.Handshaking? && !f.fault
            && f.log.accepted == [Handshake] && f.log.issued == e.log.issued + [Keepalive]
            && f.log.handled == e.log.handled && SentNext(e, f, Keepalive)
  {
    var seen := Remember(PacketArrived(e), p.number, Handshake);
    RememberKeeps(r, PacketArrived(e), p.number, Handshake);
    SendKeepaliveKeeps(r, seen.(state := Handshaking), Some(p.number));
  }

  /** How the connector looks right after the listener's handshake, with its acknowledgement, arrived. */
  ghost predicate Connected(e: Endpoint, f: Endpoint) {
    && OnlyData(e.log.issued + [Keepalive], f.log.issued)
    && f.open == e.open && f.remote == e.remote && f.state.Established? && !f.fault
    && f.log.accepted == [Handshake] && SentNext(e, f, Keepalive)
  }

  lemma AcknowledgeGreeted(r: Role, e: Endpoint, f: Endpoint, p: Packet, ackCalls: seq<UserCall>)
    requires Ok(r, f) && DeliveryStep(e, f, p) && !r.reply
    requires f.open == e.open && f.remote == e.remote && f.state.Handshaking? && !f.fault
    requires f.log.accepted == [Handshake] && f.log.issued == e.log.issued + [Keepalive]
    requires f.log.handled == e.log.handled && SentNext(e, f, Keepalive)
    requires p.ack.Some?
    ensures var g := ProcessAcknowledgement(f, p.ack.value, ackCalls);
            Ok(r, g) && DeliveryStep(e, g, p) && Connected(e, g)
  {
    ProcessAcknowledgementKeeps(r, f, p.ack.value, ackCalls);
    DeliveryThenAck(r, e, f, ProcessAcknowledgement(f, p.ack.value, ackCalls), p);
  }

  /** The connector meets the listener's handshake: it answers, and its own handshake may be acknowledged. */
  lemma ConnectorMeetsHandshake(r: Role, e: Endpoint, p: Packet, calls: seq<UserCall>, ackCalls: seq<UserCall>)
    requires Ok(r, e) && e.log.accepted == [] && FreshPacket(r, e, p)
    requires p.content.Handshake? && p.index == 0 && p.ack.Some? && !r.reply
    requires !e.fault && e.state.Connecting?
    ensures var f := DispatchPacket(e, p, calls, ackCalls);
            Ok(r, f) && DeliveryStep(e, f, p) && Connected(e, f)
  {
    Greets(r, e, p);
    AcknowledgeGreeted(r, e, ProcessHandshake(e, p.number), p, ackCalls);
  }

  /** The listener's own handshake is queued and not acknowledged yet. */
  ghost predicate ReplyPending(r: Role, e: Endpoint) {
    && e.log.issued == [Handshake]
    && NamesHandshake(e, Raw(r.base))
  }

  /** The listener meets the connector's handshake: it queues its own as a reply. */
  lemma ListenerMeetsHandshake(r: Role, e: Endpoint, p: Packet, calls: seq<UserCall>, ackCalls: seq<UserCall>)
    requires Ok(r, e) && e.log.accepted == [] && FreshPacket(r, e, p)
    requires p.content.Handshake? && p.index == 0 && p.ack.None? && r.reply
    requires !e.fault && e.state.Listening? && e.log.issued == []
    ensures var f := DispatchPacket(e, p, calls, ackCalls);
            && Ok(r, f) && DeliveryStep(e, f, p)
            && f.open == e.open && f.remote == e.remote && f.state.Listening? && !f.fault
            && f.log.accepted == [Handshake] && ReplyPending(r, f) && SentNext(e, f, Handshake)
  {
    var seen := Remember(PacketArrived(e), p.number, Handshake);
    RememberKeeps(r, PacketArrived(e), p.number, Handshake);
    SendHandshakeKeeps(r, seen, Some(p.number));
    var job := Job(Handshake, seen.next, Some(p.number), 0, 0);
    NothingPending(r, seen);
    var fx := Pushed(seen.queue, job.number, Entry(0, job));
    assert DispatchPacket(e, p, calls, ackCalls) == Enqueue(StartReceive(Issue(seen, Handshake)), job, 0);
    OneHandler(ApplyEffect(StartReceive(Issue(seen, Handshake)), fx), fx.calls);
  }

  lemma NothingPending(r: Role, e: Endpoint)
    requires Ok(r, e) && e.log.issued == []
    ensures e.queue.entries.Keys == {}
  {
    if k :| k in e.queue.entries.Keys {
      assert JobOk(r, e.log.issued, |e.log.accepted|, e.queue.entries[k].job);
    }
  }

  /** The listener meets the connector's keepalive, which acknowledges its handshake. */
  lemma ListenerMeetsKeepalive(r: Role, e: Endpoint, p: Packet, calls: seq<UserCall>, ackCalls: seq<UserCall>)
    requires Ok(r, e) && e.log.accepted != [] && FreshPacket(r, e, p)
    requires p.content.Keepalive? && p.ack == Some(Raw(r.base)) && r.reply
    requires !e.fault && !e.remote && ReplyPending(r, e)
    requires e.state.Listening? || e.state.Closed?
    ensures var f := DispatchPacket(e, p, calls, ackCalls);
            && Ok(r, f) && DeliveryStep(e, f, p) && f.open == e.open
            && (f.log.accepted != e.log.accepted <==> p.index == |e.log.accepted|)
            && (e.state.Closed? ==> f.fault && !f.remote && f.log.issued == e.log.issued && f.state.Closed?)
            && (e.state.Listening? ==>
                  !f.fault && f.remote && f.state.Established? && NoHandshakes(e.log.issued, f.log.issued))
  {
    ProcessedKeeps(r, e, p, calls);
    var processed := ProcessedPacket(e, p, calls);
    if e.state.Closed? {
      assert ProcessAcknowledgement(processed, p.ack.value, ackCalls) == processed.(fault := true);
    } else {
      ProcessAcknowledgementKeeps(r, processed, p.ack.value, ackCalls);
      DeliveryThenAck(r, e, processed, DispatchPacket(e, p, calls, ackCalls), p);
    }
  }
}
