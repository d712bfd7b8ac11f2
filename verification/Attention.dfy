/**
 When a socket that still needs datagrams is waiting for one: always while packets are pending, but not
 always while a receive is. A keepalive that empties the transmit queue leaves a waiting receive deaf.
 */
module Attentions {
  import opened Wrappers
  import Timers
  import opened TransmitQueues
  import opened Endpoints
  import opened EndpointFacts
  import opened Deliveries
  import opened Abortings
  import opened ReceiveFacts
  import opened Peeks
  import opened Connections
  import opened Acknowledgements
  import opened ConnectionRuns

  /** A receive waits, and the socket does not wait for datagrams. */
  predicate Stalled(e: Endpoint) {
    e.input != [] && !e.rx.receiving
  }

  /** The packet accepted last was no data. */
  predicate AcceptedSignalLast(log: Log) {
    log.accepted != [] && !log.accepted[|log.accepted| - 1].Data?
  }

  predicate ReceiveHeard(e: Endpoint) {
    Stalled(e) ==> AcceptedSignalLast(e.log)
  }

  predicate Attentive(e: Endpoint) {
    !e.fault ==> (e.queue.entries.Keys != {} ==> e.rx.receiving) && ReceiveHeard(e)
  }

  // Calls of the user.

  lemma EnqueueStays(e: Endpoint, job: Job, size: nat)
    ensures var f := Enqueue(e, job, size);
            f.rx == e.rx && SameReceives(e, f) && f.log.accepted == e.log.accepted
  {
    EnqueueReception(e, job, size);
    EnqueueSame(e, job, size);
  }

  /** A call on an open socket makes it receive, unless it is a receive that finds data. */
  lemma CallReceives(e: Endpoint, call: UserCall)
    ensures var f := RunCall(e, call);
            && (e.rx.receiving ==> f.rx.receiving)
            && (e.open && (call.Send? || e.output == []) ==> f.rx.receiving)
            && (f.rx.receiving || (f.input == e.input && f.queue == e.queue))
            && f.log.accepted == e.log.accepted && f.output == e.output && f.open == e.open
  {
    if call.Send? && e.open {
      EnqueueStays(StartReceive(Issue(e, Data(call.payload))),
                   Job(Data(call.payload), e.next, None, |e.log.issued|, 0), |call.payload|);
    }
  }

  lemma {:induction false} CallsReceive(e: Endpoint, calls: seq<UserCall>)
    ensures var f := RunCalls(e, calls);
            && (e.rx.receiving ==> f.rx.receiving)
            && (e.open && e.output == [] && calls != [] ==> f.rx.receiving)
            && (f.rx.receiving || (f.input == e.input && f.queue == e.queue))
            && f.log.accepted == e.log.accepted && f.output == e.output && f.open == e.open
  {
    if calls != [] {
      var front := calls[..|calls| - 1];
      CallsReceive(e, front);
      CallReceives(RunCalls(e, front), calls[|calls| - 1]);
    }
  }

  // Datagrams.

  lemma ApplyAckReception(e: Endpoint, ack: nat)
    ensures ApplyAck(e, ack).rx == e.rx && ApplyAck(e, ack).queue.entries == e.queue.entries - {ack}
    ensures SameReceives(e, ApplyAck(e, ack)) && ApplyAck(e, ack).log.accepted == e.log.accepted
  {
    ApplyAckChanges(e, ack);
  }

  /** The user's reaction to an acknowledgement, and receiving goes on while packets are pending. */
  lemma ReactionAttentive(acked: Endpoint, named: bool, calls: seq<UserCall>, f: Endpoint)
    requires ReceiveHeard(acked)
    requires f == var after := if named then RunCalls(acked, calls) else acked;
                  if after.queue.entries.Keys != {} then StartReceive(after) else after
    ensures Attentive(f)
  {
    CallsReceive(acked, calls);
  }

  lemma AppliedAckHeard(e: Endpoint, ack: nat)
    requires ReceiveHeard(e)
    ensures ReceiveHeard(ApplyAck(Acknowledge(e), ack))
  {
    AcknowledgeChanges(e);
    ApplyAckReception(Acknowledge(e), ack);
  }

  lemma AcknowledgementAttentive(e: Endpoint, ack: nat, calls: seq<UserCall>)
    requires ReceiveHeard(e)
    ensures Attentive(ProcessAcknowledgement(e, ack, calls))
  {
    var seen := Acknowledge(e);
    if !seen.fault {
      AppliedAckHeard(e, ack);
      ReactionAttentive(ApplyAck(seen, ack), ack in e.queue.entries, calls, ProcessAcknowledgement(e, ack, calls));
    }
  }

  lemma ProcessDataAttentive(e: Endpoint, number: nat, payload: Payload, calls: seq<UserCall>)
    requires number <= MAX
    ensures Attentive(ProcessData(e, number, payload, calls)) && ReceiveHeard(ProcessData(e, number, payload, calls))
  {
  }

  lemma ProcessHandshakeAttentive(e: Endpoint, number: nat)
    requires number <= MAX
    ensures ReceiveHeard(ProcessHandshake(e, number))
    ensures e.state.Listening? ==> Attentive(ProcessHandshake(e, number))
  {
    HandshakeSame(e, number);
    if e.state.Listening? {
      var seen := Remember(PacketArrived(e), number, Handshake);
      EnqueueReception(StartReceive(Issue(seen, Handshake)),
                       Job(Handshake, seen.next, Some(number), |seen.log.issued|, LastAccepted(seen)), 0);
    }
  }

  lemma ProcessedAttentive(e: Endpoint, p: Packet, calls: seq<UserCall>)
    requires p.number <= MAX
    ensures ReceiveHeard(ProcessedPacket(e, p, calls))
    ensures p.content.Data? || (p.content.Handshake? && e.state.Listening?) ==> Attentive(ProcessedPacket(e, p, calls))
  {
    match p.content
    case Handshake => ProcessHandshakeAttentive(e, p.number);
    case Keepalive =>
    case Data(payload) => ProcessDataAttentive(e, p.number, payload, calls);
  }

  /** Whatever arrives: a keepalive always carries an acknowledgement, and so does a handshake that is a reply. */
  lemma DispatchAttentive(e: Endpoint, p: Packet, calls: seq<UserCall>, ackCalls: seq<UserCall>)
    requires p.number <= MAX
    requires p.content.Keepalive? || (p.content.Handshake? && !e.state.Listening?) ==> p.ack.Some?
    ensures Attentive(DispatchPacket(e, p, calls, ackCalls))
  {
    ProcessedAttentive(e, p, calls);
    if p.ack.Some? {
      AcknowledgementAttentive(ProcessedPacket(e, p, calls), p.ack.value, ackCalls);
    }
  }

  // Runs of a connection.

  lemma StepCompletedAttentive(e: Endpoint, entry: Entry<Job>, error: bool, bytes: nat)
    requires Attentive(e) && !e.fault
    ensures Attentive(StepCompleted(e, entry, error, bytes))
  {
    var fx := StepDone(e.queue, entry, error, bytes);
    StepCompletedSame(e, entry, error, bytes);
    OneHandler(e.(queue := fx.queue), fx.calls);
  }

  lemma ConnectAttentive(e: Endpoint)
    requires Attentive(e)
    ensures Attentive(Connect(e))
  {
    if e.open && e.state.Closed? {
      EnqueueStays(StartReceive(Issue(e.(state := Connecting, remote := true), Handshake)),
                   Job(Handshake, e.next, None, |e.log.issued|, LastAccepted(e)), 0);
    }
  }

  lemma ClosingAttentive(e: Endpoint)
    requires Attentive(e) && e.open
    ensures Attentive(Close(e))
    ensures e.rx.keepalive.waits > 0 ==> Attentive(KeepaliveWait(e))
  {
    CloseEnds(e);
    if e.rx.keepalive.waits > 0 && Timers.Fires(e.rx.keepalive) {
      KeepaliveEnds(e);
    }
  }

  lemma QueueWaitAttentive(e: Endpoint)
    requires Attentive(e) && e.queue.timer.waits > 0
    ensures Attentive(QueueWait(e))
  {
    EffectChanges(e, WaitArrived(e.queue));
  }

  lemma CallAttentive(e: Endpoint, call: UserCall)
    requires Attentive(e)
    ensures e.fault || Attentive(RunCall(e, call))
  {
    CallReceives(e, call);
  }

  lemma RestAttentive(s: System, event: Event)
    requires Enabled(s, event) && (event.CallAccept? || event.Claim? || event.GreetingDone?)
    requires Attentive(End(s, Actor(event)))
    ensures Attentive(End(Step(s, event), Actor(event)))
  {
  }

  lemma OwnStepAttentive(s: System, event: Event)
    requires Enabled(s, event) && !event.Deliver? && Attentive(End(s, Actor(event)))
    ensures Attentive(End(Step(s, event), Actor(event)))
  {
    var e := End(s, Actor(event));
    match event
    case CallConnect => ConnectAttentive(e);
    case Call(_, call) => CallAttentive(e, call);
    case Tick(_) => QueueWaitAttentive(e);
    case Completed(_, step, error, bytes) => StepCompletedAttentive(e, e.log.steps[step], error, bytes);
    case CloseSocket(_) => ClosingAttentive(e);
    case KeepaliveTick(_) => ClosingAttentive(e);
    case _ => RestAttentive(s, event);
  }

  lemma SignalsCarryAcks(s: System, event: Event)
    requires Invariant(s) && Enabled(s, event) && event.Deliver?
    ensures var e, p := End(s, event.to), End(s, Other(event.to)).log.sent[event.datagram];
            p.content.Keepalive? || (p.content.Handshake? && !e.state.Listening?) ==> p.ack.Some?
  {
    DatagramFacts(s, Other(event.to), event.datagram);
  }

  lemma NextAttentive(s: System, event: Event, side: Side)
    requires Invariant(s) && Enabled(s, event) && Attentive(End(s, side))
    ensures Attentive(End(Step(s, event), side))
  {
    if Actor(event) != side {
      OthersStay(s, event, side);
    } else if event.Deliver? {
      var p := End(s, Other(side)).log.sent[event.datagram];
      if !Dropped(End(s, side), p) {
        SignalsCarryAcks(s, event);
        DispatchAttentive(End(s, side), p, event.calls, event.ackCalls);
      }
    } else {
      OwnStepAttentive(s, event);
    }
  }

  lemma {:induction false} StaysAttentive(s: System, run: seq<Event>, side: Side)
    requires Safe(s) && IsRun(s, run) && Attentive(End(s, side))
    ensures Attentive(End(Reached(s, run), side))
    decreases |run|
  {
    if run != [] {
      NextSafe(s, run[0]);
      NextAttentive(s, run[0], side);
      StaysAttentive(Step(s, run[0]), run[1..], side);
    }
  }

  /**
   In every reachable state, short of a failed assertion: a side with pending packets waits for
   datagrams, and so does one with a waiting receive, unless what it accepted last was no data.
   */
  lemma PendingPacketsAreHeard(connectorBase: nat, listenerBase: nat, run: seq<Event>, s: System, side: Side)
    requires Reaches(connectorBase, listenerBase, run, s) && !End(s, side).fault
    ensures var e := End(s, side);
            && (e.queue.entries.Keys != {} ==> e.rx.receiving)
            && (e.input != [] && !e.rx.receiving ==>
                  e.log.accepted != [] && !e.log.accepted[|e.log.accepted| - 1].Data?)
  {
    StartSafe(connectorBase, listenerBase);
    StaysAttentive(Start(connectorBase, listenerBase), run, side);
  }

  // The exception.

  lemma KeepaliveProcessed(e: Endpoint, number: nat)
    requires number <= MAX
    ensures var f := ProcessKeepalive(e, number);
            && f.rx.receiving == !IsExpected(e, number) && f.input == e.input && f.output == e.output
            && f.queue == e.queue && f.open == e.open && f.fault == e.fault && f.state == e.state
  {
  }

  lemma HandshakeProcessed(e: Endpoint, number: nat)
    requires number <= MAX && e.state.Connecting?
    ensures var f := ProcessHandshake(e, number);
            && !f.rx.receiving && f.input == e.input && f.output == e.output
            && f.queue == e.queue && f.open == e.open && f.fault == e.fault && f.state.Handshaking?
  {
  }

  lemma ReactionStallsIff(acked: Endpoint, named: bool, calls: seq<UserCall>, f: Endpoint)
    requires acked.open && (acked.input == [] || acked.output == [])
    requires f == var after := if named then RunCalls(acked, calls) else acked;
                  if after.queue.entries.Keys != {} then StartReceive(after) else after
    ensures Stalled(f) <==> Stalled(acked) && acked.queue.entries.Keys == {} && (!named || calls == [])
  {
    CallsReceive(acked, calls);
  }

  /** When an acknowledgement leaves a receive waiting that nothing else made the socket receive for. */
  lemma AcknowledgementStallsIff(e: Endpoint, ack: nat, calls: seq<UserCall>)
    requires e.open && !e.fault && !Acknowledge(e).fault && (e.input == [] || e.output == [])
    ensures Stalled(ProcessAcknowledgement(e, ack, calls)) <==>
            Stalled(e) && (e.queue.entries - {ack}).Keys == {} && (ack !in e.queue.entries || calls == [])
  {
    var seen := Acknowledge(e);
    AcknowledgeChanges(e);
    ApplyAckReception(seen, ack);
    ReactionStallsIff(ApplyAck(seen, ack), ack in e.queue.entries, calls, ProcessAcknowledgement(e, ack, calls));
  }

  /**
   Exactly when a keepalive leaves a waiting receive without a datagram to wait for, in any state that
   does not assert: it is the expected one, its acknowledgement leaves no packet pending, and no handler
   of the user makes a call.
   */
  lemma KeepaliveStallsIff(e: Endpoint, number: nat, ack: nat, calls: seq<UserCall>, ackCalls: seq<UserCall>)
    requires number <= MAX && e.open && !e.fault && (e.input == [] || e.output == [])
    requires !e.state.Closed? && !e.state.Connecting?
    ensures Stalled(Dispatch(e, Keepalive, number, Some(ack), calls, ackCalls)) <==>
            && e.input != [] && IsExpected(e, number)
            && (e.queue.entries - {ack}).Keys == {} && (ack !in e.queue.entries || ackCalls == [])
  {
    KeepaliveProcessed(e, number);
    AcknowledgementStallsIff(ProcessKeepalive(e, number), ack, ackCalls);
  }

  /** Exactly when the handshake that a connector waits for does so: it is never followed by a new request. */
  lemma HandshakeStallsIff(e: Endpoint, number: nat, ack: nat, calls: seq<UserCall>, ackCalls: seq<UserCall>)
    requires number <= MAX && e.open && !e.fault && (e.input == [] || e.output == [])
    requires e.state.Connecting?
    ensures Stalled(Dispatch(e, Handshake, number, Some(ack), calls, ackCalls)) <==>
            && e.input != []
            && (e.queue.entries - {ack}).Keys == {} && (ack !in e.queue.entries || ackCalls == [])
  {
    HandshakeProcessed(e, number);
    AcknowledgementStallsIff(ProcessHandshake(e, number), ack, ackCalls);
  }

  /** Data never does: the socket looks at its waiting receives again. */
  lemma DataNeverStalls(e: Endpoint, number: nat, payload: Payload, ack: Option<nat>,
                        calls: seq<UserCall>, ackCalls: seq<UserCall>)
    requires number <= MAX && !e.fault
    ensures var f := Dispatch(e, Data(payload), number, ack, calls, ackCalls);
            !f.fault ==> !Stalled(f)
  {
    ProcessDataHears(e, number, payload, calls);
    if ack.Some? {
      AcknowledgementHears(ProcessData(e, number, payload, calls), ack.value, ackCalls);
    }
  }

  lemma ProcessDataHears(e: Endpoint, number: nat, payload: Payload, calls: seq<UserCall>)
    requires number <= MAX
    ensures !Stalled(ProcessData(e, number, payload, calls))
  {
  }

  lemma AcknowledgementHears(e: Endpoint, ack: nat, calls: seq<UserCall>)
    requires !Stalled(e)
    ensures !Stalled(ProcessAcknowledgement(e, ack, calls))
  {
    var seen := Acknowledge(e);
    AcknowledgeChanges(e);
    if !seen.fault {
      ApplyAckReception(seen, ack);
      CallsReceive(ApplyAck(seen, ack), calls);
    }
  }
}
