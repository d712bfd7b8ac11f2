/**
 Which acknowledgement a datagram carries: data and keepalives that of the packet their sender accepted
 last, at the moment they are sent, and none only as long as nothing was accepted.
 */
module Answers {
  import opened CumulativeSets
  import opened Wrappers
  import Timers
  import opened TransmitQueues
  import opened Endpoints
  import opened EndpointFacts
  import opened Deliveries
  import opened Abortings
  import opened Connections
  import opened Acknowledgements
  import opened ConnectionRuns

  /** Keepalives are never queued. */
  ghost predicate NoneQueued(entries: map<nat, Entry<Job>>) {
    forall k :: k in entries ==> !entries[k].job.content.Keepalive?
  }

  /** Every data packet and keepalive sent between e and f carries what f accepted last. */
  ghost predicate SendsLast(e: Endpoint, f: Endpoint) {
    && NoneQueued(f.queue.entries) && e.log.sent <= f.log.sent
    && forall j :: |e.log.sent| <= j < |f.log.sent| && !f.log.sent[j].content.Handshake? ==>
         f.log.sent[j].ack == Front(f.history) && f.log.sent[j].ackIndex == LastAccepted(f)
  }

  /** Nothing was accepted in between. */
  ghost predicate Answering(e: Endpoint, f: Endpoint) {
    f.history == e.history && f.log.accepted == e.log.accepted && SendsLast(e, f)
  }

  lemma ThenAnswering(e: Endpoint, f: Endpoint, g: Endpoint)
    requires SendsLast(e, f) && Answering(f, g)
    ensures SendsLast(e, g)
  {
  }

  /** Nothing was sent. */
  lemma SilentAnswers(e: Endpoint, f: Endpoint)
    requires NoneQueued(e.queue.entries) && f.queue.entries == e.queue.entries
    requires f.history == e.history && f.log.accepted == e.log.accepted && f.log.sent == e.log.sent
    ensures Answering(e, f)
  {
  }

  lemma EffectAnswers(e: Endpoint, fx: Effect<Job>)
    requires NoneQueued(fx.queue.entries)
    requires fx.started.Some? ==> fx.started.value in fx.queue.entries
    ensures Answering(e, ApplyEffect(e, fx))
  {
  }

  lemma HandlerAnswers(e: Endpoint, f: Endpoint, calls: seq<HandlerCall<Job>>)
    requires Answering(e, f) && |calls| <= 1
    ensures Answering(e, RunHandlers(f, calls))
  {
    OneHandler(f, calls);
    if calls != [] {
      HandlerChanges(f, calls[0]);
    }
  }

  lemma EnqueueAnswers(e: Endpoint, job: Job, size: nat)
    requires NoneQueued(e.queue.entries) && !job.content.Keepalive?
    ensures Answering(e, Enqueue(e, job, size))
  {
    var fx := Pushed(e.queue, job.number, Entry(size, job));
    EffectAnswers(e, fx);
    HandlerAnswers(e, ApplyEffect(e, fx), fx.calls);
  }

  lemma SendHandshakeAnswers(e: Endpoint, ack: Option<nat>)
    requires NoneQueued(e.queue.entries)
    ensures Answering(e, SendHandshake(e, ack))
  {
    EnqueueAnswers(StartReceive(Issue(e, Handshake)),
                   Job(Handshake, e.next, ack, |e.log.issued|, LastAccepted(e)), 0);
  }

  lemma SendKeepaliveAnswers(e: Endpoint)
    requires NoneQueued(e.queue.entries)
    ensures Answering(e, SendKeepalive(e, Front(e.history)))
  {
  }

  lemma RunCallAnswers(e: Endpoint, call: UserCall)
    requires NoneQueued(e.queue.entries)
    ensures Answering(e, RunCall(e, call))
  {
    match call
    case Send(payload) =>
      EnqueueAnswers(StartReceive(Issue(e, Data(payload))),
                     Job(Data(payload), e.next, None, |e.log.issued|, 0), |payload|);
    case Receive(receive) => AsyncReceiveChanges(e, receive);
  }

  lemma {:induction false} RunCallsAnswer(e: Endpoint, calls: seq<UserCall>)
    requires NoneQueued(e.queue.entries)
    ensures Answering(e, RunCalls(e, calls))
  {
    if calls != [] {
      var front := calls[..|calls| - 1];
      RunCallsAnswer(e, front);
      RunCallAnswers(RunCalls(e, front), calls[|calls| - 1]);
    }
  }

  // Deliveries.

  /** A message is accepted before anything is sent in answer to it. */
  lemma HandshakeAnswers(e: Endpoint, number: nat)
    requires NoneQueued(e.queue.entries) && number <= MAX && e.history == []
    ensures SendsLast(e, ProcessHandshake(e, number))
  {
    var seen := Remember(PacketArrived(e), number, Handshake);
    assert Inserted(MAX, [], number) == [number];
    if e.state.Listening? {
      SendHandshakeAnswers(seen, Some(number));
    } else if e.state.Connecting? {
      SendKeepaliveAnswers(seen.(state := Handshaking));
    }
  }

  lemma TakeDataAnswers(e: Endpoint, number: nat, payload: Payload)
    requires NoneQueued(e.queue.entries) && number <= MAX
    ensures SendsLast(e, TakeData(e, number, payload))
  {
    var seen := Remember(PacketArrived(e), number, Data(payload));
    if e.input != [] {
      SendKeepaliveAnswers(
        seen.(input := e.input[1..],
              log := seen.log.(delivered := e.log.delivered + [Delivery(e.input[0], payload)])));
    }
  }

  lemma ProcessDataAnswers(e: Endpoint, number: nat, payload: Payload, calls: seq<UserCall>)
    requires NoneQueued(e.queue.entries) && number <= MAX
    ensures SendsLast(e, ProcessData(e, number, payload, calls))
  {
    if IsExpected(e, number) {
      var taken := TakeData(e, number, payload);
      TakeDataAnswers(e, number, payload);
      RunCallsAnswer(taken, calls);
      if e.input != [] {
        ThenAnswering(e, taken, RunCalls(taken, calls));
      }
    }
  }

  lemma ProcessedAnswers(e: Endpoint, content: Content, number: nat, calls: seq<UserCall>)
    requires NoneQueued(e.queue.entries) && number <= MAX && (content.Handshake? ==> e.history == [])
    ensures SendsLast(e, Processed(e, content, number, calls))
  {
    match content
    case Handshake => HandshakeAnswers(e, number);
    case Keepalive =>
    case Data(payload) => ProcessDataAnswers(e, number, payload, calls);
  }

  lemma ApplyAckAnswers(e: Endpoint, ack: nat)
    requires NoneQueued(e.queue.entries)
    ensures Answering(e, ApplyAck(e, ack))
  {
    var fx := Acked(e.queue, ack);
    EffectAnswers(e, fx);
    HandlerAnswers(e, ApplyEffect(e, fx), fx.calls);
  }

  lemma AcknowledgementAnswers(e: Endpoint, ack: nat, calls: seq<UserCall>)
    requires NoneQueued(e.queue.entries)
    ensures Answering(e, ProcessAcknowledgement(e, ack, calls))
  {
    var seen := Acknowledge(e);
    AcknowledgeChanges(e);
    if !seen.fault {
      var acked := ApplyAck(seen, ack);
      ApplyAckAnswers(seen, ack);
      RunCallsAnswer(acked, calls);
      var after := if ack in e.queue.entries then RunCalls(acked, calls) else acked;
      ThenAnswering(e, acked, after);
    }
  }

  lemma DispatchAnswers(e: Endpoint, p: Packet, calls: seq<UserCall>, ackCalls: seq<UserCall>)
    requires NoneQueued(e.queue.entries) && p.number <= MAX && (p.content.Handshake? ==> e.history == [])
    ensures SendsLast(e, DispatchPacket(e, p, calls, ackCalls))
  {
    var processed := ProcessedPacket(e, p, calls);
    ProcessedAnswers(e, p.content, p.number, calls);
    if p.ack.Some? && !processed.fault {
      AcknowledgementAnswers(processed, p.ack.value, ackCalls);
      ThenAnswering(e, processed, DispatchPacket(e, p, calls, ackCalls));
    }
  }

  // All events.

  lemma ConnectAnswers(e: Endpoint)
    requires NoneQueued(e.queue.entries)
    ensures Answering(e, Connect(e))
  {
    SendHandshakeAnswers(e.(state := Connecting, remote := true), None);
  }

  lemma StepCompletedAnswers(e: Endpoint, entry: Entry<Job>, error: bool, bytes: nat)
    requires NoneQueued(e.queue.entries)
    ensures Answering(e, StepCompleted(e, entry, error, bytes))
  {
    var fx := StepDone(e.queue, entry, error, bytes);
    HandlerAnswers(e, e.(queue := fx.queue), fx.calls);
  }

  lemma EndedAnswers(e: Endpoint, f: Endpoint)
    requires Ended(e, f)
    ensures Answering(e, f)
  {
  }

  lemma KeepaliveWaitAnswers(e: Endpoint)
    requires NoneQueued(e.queue.entries) && e.open && e.rx.keepalive.waits > 0
    ensures Answering(e, KeepaliveWait(e))
  {
    if Timers.Fires(e.rx.keepalive) {
      KeepaliveEnds(e);
      EndedAnswers(e, KeepaliveWait(e));
    }
  }

  lemma OwnStepAnswers(s: System, event: Event)
    requires Enabled(s, event) && !event.Deliver? && NoneQueued(End(s, Actor(event)).queue.entries)
    ensures SendsLast(End(s, Actor(event)), End(Step(s, event), Actor(event)))
  {
    var e := End(s, Actor(event));
    match event
    case CallConnect => ConnectAnswers(e);
    case CallAccept => SilentAnswers(e, Listen(e));
    case Call(_, call) => RunCallAnswers(e, call);
    case Claim(_) => SilentAnswers(e, RunClaim(e));
    case Tick(_) => EffectAnswers(e, WaitArrived(e.queue));
    case Completed(_, step, error, bytes) => StepCompletedAnswers(e, e.log.steps[step], error, bytes);
    case GreetingDone(error) => SilentAnswers(e, GreetingSent(e, error));
    case CloseSocket(_) =>
      CloseEnds(e);
      EndedAnswers(e, Close(e));
    case KeepaliveTick(_) => KeepaliveWaitAnswers(e);
  }

  lemma DeliverAnswers(s: System, event: Event)
    requires Enabled(s, event) && event.Deliver? && NoneQueued(End(s, event.to).queue.entries)
    requires End(s, Other(event.to)).log.sent[event.datagram].content.Handshake? ==> End(s, event.to).history == []
    ensures SendsLast(End(s, event.to), End(Step(s, event), event.to))
  {
    var e, p := End(s, event.to), End(s, Other(event.to)).log.sent[event.datagram];
    if !Dropped(e, p) {
      DeliveredEnd(s, event);
      DispatchAnswers(e, p, event.calls, event.ackCalls);
    }
  }

  lemma QueuedAt(s: System, side: Side)
    requires Invariant(s)
    ensures NoneQueued(End(s, side).queue.entries)
  {
    var r, e := RoleOf(s, side), End(s, side);
    forall k | k in e.queue.entries
      ensures !e.queue.entries[k].job.content.Keepalive?
    {
      assert JobOk(r, e.log.issued, |e.log.accepted|, e.queue.entries[k].job);
    }
  }

  lemma HandshakeIsFirst(s: System, to: Side, datagram: nat)
    requires Invariant(s) && MayDeliver(s, to, datagram)
    requires End(s, Other(to)).log.sent[datagram].content.Handshake?
    ensures End(s, to).history == []
  {
    HistoriesFollow(s);
  }

  lemma NextAnswers(s: System, event: Event, side: Side)
    requires Invariant(s) && Enabled(s, event)
    ensures SendsLast(End(s, side), End(Step(s, event), side))
  {
    QueuedAt(s, side);
    if Actor(event) != side {
      OthersStay(s, event, side);
    } else if event.Deliver? {
      if End(s, Other(event.to)).log.sent[event.datagram].content.Handshake? {
        HandshakeIsFirst(s, event.to, event.datagram);
      }
      DeliverAnswers(s, event);
    } else {
      OwnStepAnswers(s, event);
    }
  }

  lemma FrontOfSeen(peer: nat, n: nat)
    ensures Front(Seen(peer, n)) == if n == 0 then None else Some(Raw(peer + n - 1))
  {
  }

  lemma HistoryAfter(s: System, event: Event, side: Side)
    requires Invariant(s) && Enabled(s, event)
    ensures End(Step(s, event), side).history
         == Seen(RoleOf(s, side).peer, |End(Step(s, event), side).log.accepted|)
  {
    StepHistories(s, event);
  }

  /**
   In every run, every data packet or keepalive that an event sends carries the number of the packet that
   its sender accepted last, the n-th of its peer, and carries none if and only if nothing was accepted. A
   message is accepted before it is answered, so n counts the packet that the event itself delivered.
   */
  lemma DatagramsCarryLastAccepted(connectorBase: nat, listenerBase: nat, run: seq<Event>, s: System,
                                   event: Event, side: Side, j: nat)
    requires Reaches(connectorBase, listenerBase, run, s) && Enabled(s, event)
    requires |End(s, side).log.sent| <= j < |End(Step(s, event), side).log.sent|
    requires !End(Step(s, event), side).log.sent[j].content.Handshake?
    ensures var p, n := End(Step(s, event), side).log.sent[j], |End(Step(s, event), side).log.accepted|;
            if n == 0 then p.ack == None
            else p.ack == Some(Raw(RoleOf(s, side).peer + n - 1)) && p.ackIndex == n - 1
  {
    ReachedSafe(connectorBase, listenerBase, run, s);
    NextAnswers(s, event, side);
    HistoryAfter(s, event, side);
    FrontOfSeen(RoleOf(s, side).peer, |End(Step(s, event), side).log.accepted|);
  }
}
