/**
 One event of a connection: what it leaves alone, and which packets it completes. Before the sender's
 numbers wrap, and after that as long as acknowledgements are timely, a completed packet was accepted.
 */
module Acknowledgements {
  import opened Wrappers
  import Timers
  import opened TransmitQueues
  import opened Endpoints
  import opened EndpointFacts
  import opened Deliveries
  import opened Disciplines
  import opened Abortings
  import opened Completions
  import opened ReceiveFacts
  import opened Connections

  lemma OthersStay(s: System, event: Event, side: Side)
    requires Enabled(s, event) && Actor(event) != side
    ensures End(Step(s, event), side) == End(s, side)
  {
  }

  lemma BasesStay(s: System, event: Event)
    requires Enabled(s, event)
    ensures Step(s, event).connectorBase == s.connectorBase && Step(s, event).listenerBase == s.listenerBase
  {
  }

  // Steps that no datagram causes.

  lemma EndsAreOk(s: System, side: Side)
    requires Invariant(s) && side !in s.closed
    ensures Ok(RoleOf(s, side), End(s, side))
  {
  }

  /** Nothing was accepted or completed. */
  ghost predicate Quiet(e: Endpoint, f: Endpoint) {
    && f.log.accepted == e.log.accepted && Continues(e, f)
    && AckedIndices(f.log.handled) == AckedIndices(e.log.handled)
  }

  lemma ConnectIsQuiet(e: Endpoint)
    ensures Quiet(e, Connect(e))
  {
    ConnectSame(e);
    if e.open && e.state.Closed? {
      EnqueueEffect(StartReceive(Issue(e.(state := Connecting, remote := true), Handshake)),
                    Job(Handshake, e.next, None, |e.log.issued|, LastAccepted(e)), 0);
    }
  }

  lemma CallIsQuiet(r: Role, e: Endpoint, call: UserCall)
    requires Ok(r, e)
    ensures Quiet(e, RunCall(e, call))
  {
    RunCallKeeps(r, e, call);
  }

  lemma TickIsQuiet(r: Role, e: Endpoint)
    requires Ok(r, e) && e.queue.timer.waits > 0
    ensures Quiet(e, QueueWait(e))
  {
    QueueWaitKeeps(r, e);
  }

  lemma CompletionIsQuiet(r: Role, e: Endpoint, entry: Entry<Job>, error: bool, bytes: nat)
    requires Ok(r, e)
    ensures Quiet(e, StepCompleted(e, entry, error, bytes))
  {
    StepCompletedKeeps(r, e, entry, error, bytes);
  }

  lemma EndedIsQuiet(r: Role, e: Endpoint, f: Endpoint)
    requires PacketsOk(r, e) && Ended(e, f)
    ensures Quiet(e, f)
  {
    PendingAreDistinct(r, e);
    EndedIndices(e, f);
  }

  lemma KeepaliveTickIsQuiet(r: Role, e: Endpoint)
    requires PacketsOk(r, e) && e.open && e.rx.keepalive.waits > 0
    ensures Quiet(e, KeepaliveWait(e))
  {
    if Timers.Fires(e.rx.keepalive) {
      KeepaliveEnds(e);
      EndedIsQuiet(r, e, KeepaliveWait(e));
    }
  }

  lemma OwnStepIsQuiet(s: System, event: Event)
    requires Ok(RoleOf(s, Actor(event)), End(s, Actor(event))) && Enabled(s, event) && !event.Deliver?
    ensures Quiet(End(s, Actor(event)), End(Step(s, event), Actor(event)))
  {
    match event
    case CallConnect => ConnectIsQuiet(s.connector);
    case Call(side, call) => CallIsQuiet(RoleOf(s, side), End(s, side), call);
    case Tick(side) => TickIsQuiet(RoleOf(s, side), End(s, side));
    case Completed(side, step, error, bytes) =>
      CompletionIsQuiet(RoleOf(s, side), End(s, side), End(s, side).log.steps[step], error, bytes);
    case CloseSocket(side) =>
      CloseEnds(End(s, side));
      EndedIsQuiet(RoleOf(s, side), End(s, side), Close(End(s, side)));
    case KeepaliveTick(side) => KeepaliveTickIsQuiet(RoleOf(s, side), End(s, side));
    case _ =>
  }

  // Deliveries.

  /** After the message itself the receiver's packets are still in order, ready for the acknowledgement. */
  lemma ProcessedOk(s: System, event: Event)
    requires Invariant(s) && Enabled(s, event) && event.Deliver?
    requires !Dropped(End(s, event.to), End(s, Other(event.to)).log.sent[event.datagram])
    ensures var e, p := End(s, event.to), End(s, Other(event.to)).log.sent[event.datagram];
            && (p.content.Handshake? ==> e.log.accepted == [] && p.index == 0)
            && (p.content.Handshake? && e.state.Listening? ==> RoleOf(s, event.to).reply)
            && Processable(RoleOf(s, event.to), e, p, event.calls)
  {
    var to, r, e := event.to, RoleOf(s, event.to), End(s, event.to);
    var p := End(s, Other(to)).log.sent[event.datagram];
    DatagramFacts(s, Other(to), event.datagram);
    LaterDatagramsNeedHandshakes(s, Other(to), event.datagram);
    if !p.content.Handshake? {
      ProcessedKeeps(r, e, p, event.calls);
    } else if to.Connector? {
      Greets(r, e, p);
    }
  }

  // What acknowledgements complete.

  /** Every completed packet was accepted. */
  ghost predicate AcksSound(sender: Log, receiver: Log) {
    forall i :: i in AckedIndices(sender.handled) ==> i < |receiver.accepted|
  }

  ghost predicate BothSoundBeforeWrap(s: System) {
    forall side :: Unwrapped(RoleOf(s, side), End(s, side).log.issued) ==>
      AcksSound(End(s, side).log, End(s, Other(side)).log)
  }

  /** The delivery carries no acknowledgement for a packet a whole circle away from a pending one. */
  ghost predicate AckTimely(s: System, event: Event)
    requires Enabled(s, event) && event.Deliver?
  {
    var e, p := End(s, event.to), End(s, Other(event.to)).log.sent[event.datagram];
    p.ack.Some? && !Dropped(e, p) ==> FreshAck(ProcessedPacket(e, p, event.calls), p.ackIndex)
  }

  lemma AcknowledgementFacts(s: System, to: Side, j: nat)
    requires Invariant(s) && j < |End(s, Other(to)).log.sent| && End(s, Other(to)).log.sent[j].ack.Some?
    ensures var p := End(s, Other(to)).log.sent[j];
            && p.ack.value == Raw(RoleOf(s, to).base + p.ackIndex)
            && p.ackIndex < |End(s, to).log.issued| && p.ackIndex < |End(s, Other(to)).log.accepted|
  {
    DatagramFacts(s, Other(to), j);
  }

  lemma DeliveryIsFresh(s: System, event: Event)
    requires Enabled(s, event) && event.Deliver?
    ensures FreshPacket(RoleOf(s, event.to), End(s, event.to), End(s, Other(event.to)).log.sent[event.datagram])
  {
  }

  /** The same, for an acknowledgement if there is one. */
  lemma AcknowledgementNamesOwn(s: System, to: Side, j: nat)
    requires Invariant(s) && j < |End(s, Other(to)).log.sent|
    ensures NamesOwn(RoleOf(s, to), End(s, Other(to)).log.sent[j])
  {
    if End(s, Other(to)).log.sent[j].ack.Some? {
      AcknowledgementFacts(s, to, j);
    }
  }

  lemma DeliveryIsDispatchable(s: System, event: Event)
    requires Invariant(s) && Enabled(s, event) && event.Deliver?
    requires !Dropped(End(s, event.to), End(s, Other(event.to)).log.sent[event.datagram])
    ensures Dispatchable(RoleOf(s, event.to), End(s, event.to), End(s, Other(event.to)).log.sent[event.datagram],
                         event.calls)
  {
    DeliveryIsFresh(s, event);
    EndsAreOk(s, event.to);
    ProcessedOk(s, event);
    AcknowledgementNamesOwn(s, event.to, event.datagram);
  }

  lemma DeliveredEnd(s: System, event: Event)
    requires Enabled(s, event) && event.Deliver?
    requires !Dropped(End(s, event.to), End(s, Other(event.to)).log.sent[event.datagram])
    ensures var e, p := End(s, event.to), End(s, Other(event.to)).log.sent[event.datagram];
            End(Step(s, event), event.to) == DispatchPacket(e, p, event.calls, event.ackCalls)
  {
  }

  /** The numbers have not wrapped when the acknowledgement is processed if they have not wrapped after it. */
  lemma UnwrappedDelivery(r: Role, e: Endpoint, p: Packet, calls: seq<UserCall>, ackCalls: seq<UserCall>)
    requires Dispatchable(r, e, p, calls) && p.ack.Some? && p.ackIndex < |e.log.issued|
    requires Unwrapped(r, DispatchPacket(e, p, calls, ackCalls).log.issued)
    ensures FreshAck(ProcessedPacket(e, p, calls), p.ackIndex)
  {
    ProcessedContinues(r, e, p, calls);
    DispatchCompletes(r, e, p, calls, ackCalls);
    UnwrappedIsFresh(r, ProcessedPacket(e, p, calls), p.ackIndex);
  }

  /** Before the sender's numbers wrap every acknowledgement it gets is timely. */
  lemma UnwrappedIsTimely(s: System, event: Event)
    requires Invariant(s) && Enabled(s, event) && event.Deliver?
    requires Unwrapped(RoleOf(s, event.to), End(Step(s, event), event.to).log.issued)
    ensures AckTimely(s, event)
  {
    var to, e := event.to, End(s, event.to);
    var p := End(s, Other(to)).log.sent[event.datagram];
    if p.ack.Some? && !Dropped(e, p) {
      AcknowledgementFacts(s, to, event.datagram);
      DeliveryIsDispatchable(s, event);
      DeliveredEnd(s, event);
      UnwrappedDelivery(RoleOf(s, to), e, p, event.calls, event.ackCalls);
    }
  }

  /** A delivery only adds to what was numbered, sent and accepted. */
  lemma DeliveryGrows(s: System, event: Event)
    requires Invariant(s) && Enabled(s, event) && event.Deliver?
    ensures var e, f := End(s, event.to), End(Step(s, event), event.to);
            e.log.accepted <= f.log.accepted && Continues(e, f)
  {
    var e, p := End(s, event.to), End(s, Other(event.to)).log.sent[event.datagram];
    if !Dropped(e, p) {
      DispatchAccepts(e, p.content, p.number, p.ack, event.calls, event.ackCalls);
      DispatchContinues(s, event);
    }
  }

  lemma DispatchContinues(s: System, event: Event)
    requires Invariant(s) && Enabled(s, event) && event.Deliver?
    requires !Dropped(End(s, event.to), End(s, Other(event.to)).log.sent[event.datagram])
    ensures var e, p := End(s, event.to), End(s, Other(event.to)).log.sent[event.datagram];
            Continues(e, DispatchPacket(e, p, event.calls, event.ackCalls))
  {
    var e, p := End(s, event.to), End(s, Other(event.to)).log.sent[event.datagram];
    DeliveryIsDispatchable(s, event);
    ProcessedContinues(RoleOf(s, event.to), e, p, event.calls);
    DispatchCompletes(RoleOf(s, event.to), e, p, event.calls, event.ackCalls);
  }

  /** Every event only adds to what a side numbered, sent and accepted. */
  lemma LogsGrow(s: System, event: Event, side: Side)
    requires Invariant(s) && Enabled(s, event)
    ensures var e, f := End(s, side), End(Step(s, event), side);
            e.log.accepted <= f.log.accepted && Continues(e, f)
  {
    if Actor(event) != side {
      OthersStay(s, event, side);
    } else if event.Deliver? {
      DeliveryGrows(s, event);
    } else {
      EndsAreOk(s, Actor(event));
      OwnStepIsQuiet(s, event);
    }
  }

  lemma DeliveryStaysSound(s: System, event: Event)
    requires Invariant(s) && Enabled(s, event) && event.Deliver? && AckTimely(s, event)
    requires AcksSound(End(s, event.to).log, End(s, Other(event.to)).log)
    ensures AcksSound(End(Step(s, event), event.to).log, End(s, Other(event.to)).log)
  {
    var e, p := End(s, event.to), End(s, Other(event.to)).log.sent[event.datagram];
    if !Dropped(e, p) {
      DeliveryIsDispatchable(s, event);
      DispatchCompletes(RoleOf(s, event.to), e, p, event.calls, event.ackCalls);
      if p.ack.Some? {
        TimelyNamesMeant(RoleOf(s, event.to), e, p, event.calls);
        AcknowledgementFacts(s, event.to, event.datagram);
      }
    }
  }

  lemma AcksStaySound(s: System, event: Event, side: Side)
    requires Invariant(s) && Enabled(s, event) && AcksSound(End(s, side).log, End(s, Other(side)).log)
    requires event.Deliver? && event.to == side ==> AckTimely(s, event)
    ensures AcksSound(End(Step(s, event), side).log, End(Step(s, event), Other(side)).log)
  {
    LogsGrow(s, event, Other(side));
    if Actor(event) != side {
      OthersStay(s, event, side);
    } else if event.Deliver? {
      DeliveryStaysSound(s, event);
    } else {
      EndsAreOk(s, Actor(event));
      OwnStepIsQuiet(s, event);
    }
  }

  lemma NextSoundBeforeWrap(s: System, event: Event)
    requires Invariant(s) && BothSoundBeforeWrap(s) && Enabled(s, event)
    ensures BothSoundBeforeWrap(Step(s, event))
  {
    BasesStay(s, event);
    forall side | Unwrapped(RoleOf(Step(s, event), side), End(Step(s, event), side).log.issued)
      ensures AcksSound(End(Step(s, event), side).log, End(Step(s, event), Other(side)).log)
    {
      LogsGrow(s, event, side);
      if event.Deliver? && event.to == side {
        UnwrappedIsTimely(s, event);
      }
      AcksStaySound(s, event, side);
    }
  }
}
