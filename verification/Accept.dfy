/**
 The request counter while an accept is pending. The acceptor's own request is one more than the
 socket's; the account stays exact for just those datagrams that end the right one of the two.
 */
module Accepts {
  import opened Wrappers
  import opened Timers
  import opened TimerRuns
  import opened TransmitQueues
  import opened Endpoints
  import opened EndpointFacts
  import opened Peeks
  import opened EndpointRuns
  import Wire

  /** An acceptor waits for this socket. */
  predicate AcceptPending(e: Endpoint) {
    e.open && !e.remote
  }

  /** Requests and peeks agree with what waits: the socket itself, the acceptor, or both. */
  ghost predicate AccountExact(rx: Reception, pending: bool) {
    && rx.calls == (if rx.receiving then 1 else 0) + (if pending then 1 else 0)
    && rx.peeks == (if rx.receiving || pending then 1 else 0)
    && WaitInvariant(rx.keepalive) && !rx.keepalive.state.Executing?
    && Abstract(rx.keepalive) == (if rx.receiving then Armed else Idle)
  }

  /**
   While an accept is pending: the datagram is a handshake or keepalive, and it establishes the socket
   if and only if the socket was receiving itself.
   */
  predicate EndsRightRequest(e: Endpoint, f: Endpoint, frame: seq<Wire.byte>)
    requires |frame| >= Wire.HEADER_SIZE
  {
    var h := Wire.Decoded(frame[..Wire.HEADER_SIZE]);
    h.Some? && !h.value.kind.Data? && (f.state.Established? <==> e.rx.receiving)
  }

  lemma ArrivedWhilePending(e: Endpoint)
    requires AccountExact(e.rx, true)
    ensures Accounted(PacketArrived(PeekTaken(e)).rx, if e.rx.receiving then 2 else 1)
  {
  }

  lemma EstablishedCount(e: Endpoint, f: Endpoint)
    requires AccountExact(e.rx, true) && Accounted(f.rx, if e.rx.receiving then 2 else 1)
    ensures AccountExact(PeekDone(CountEstablished(f)).rx, !f.state.Established?) <==>
            (f.state.Established? <==> e.rx.receiving)
  {
  }

  lemma IgnoredCount(e: Endpoint)
    requires AccountExact(e.rx, true)
    ensures !AccountExact(PeekDone(PeekTaken(e)).rx, true)
  {
  }

  /** Exactly which datagrams keep the account while an accept is pending. */
  lemma AccountKeptIff(e: Endpoint, frame: seq<Wire.byte>, calls: seq<UserCall>, ackCalls: seq<UserCall>)
    requires AcceptPending(e) && !e.state.Established? && AccountExact(e.rx, true)
    requires |frame| >= Wire.HEADER_SIZE
    ensures var f := Peeked(e, true, frame, calls, ackCalls);
            AccountExact(f.rx, !f.state.Established?) <==> EndsRightRequest(e, f, frame)
  {
    var h := Wire.Decoded(frame[..Wire.HEADER_SIZE]);
    if h.None? || h.value.kind.Data? {
      IgnoredCount(e);
    } else {
      var payload := frame[Wire.HEADER_SIZE..];
      ArrivedWhilePending(e);
      DispatchAccounted(PeekTaken(e), h.value, payload, calls, ackCalls, if e.rx.receiving then 2 else 1);
      EstablishedCount(e, DispatchHeader(PeekTaken(e), h.value, payload, calls, ackCalls));
    }
  }

  /** Data that comes before the connection stands uses up the acceptor's request: it never hears a handshake. */
  lemma DataDeafensAcceptor(initial: nat, frame: seq<Wire.byte>, calls: seq<UserCall>, ackCalls: seq<UserCall>)
    requires initial <= MAX && |frame| >= Wire.HEADER_SIZE
    requires Wire.Decoded(frame[..Wire.HEADER_SIZE]).Some? && Wire.Decoded(frame[..Wire.HEADER_SIZE]).value.kind.Data?
    ensures var f := Peeked(Listen(New(false, initial)), true, frame, calls, ackCalls);
            f.state.Listening? && !f.rx.receiving && f.rx.calls == 0 && f.rx.peeks == 0
  {
  }

  // Whole runs of a socket that an acceptor hands out.

  lemma CallSettlesNothing(e: Endpoint, call: UserCall)
    ensures var f := RunCall(e, call);
            f.state == e.state && f.remote == e.remote && f.open == e.open
  {
    if call.Send? && e.open {
      var issued := StartReceive(Issue(e, Data(call.payload)));
      var job := Job(Data(call.payload), e.next, None, |e.log.issued|, 0);
      var fx := Pushed(issued.queue, e.next, Entry(|call.payload|, job));
      OneHandler(ApplyEffect(issued, fx), fx.calls);
    }
  }

  lemma {:induction false} CallsSettleNothing(e: Endpoint, calls: seq<UserCall>)
    ensures var f := RunCalls(e, calls);
            f.state == e.state && f.remote == e.remote && f.open == e.open
  {
    if calls != [] {
      CallsSettleNothing(e, calls[..|calls| - 1]);
      CallSettlesNothing(RunCalls(e, calls[..|calls| - 1]), calls[|calls| - 1]);
    }
  }

  /** A socket that was not connected is registered if and only if it is established. */
  ghost predicate Unconnected(e: Endpoint) {
    e.open && !e.remote && (e.state.Listening? || e.state.Closed?)
  }

  ghost predicate RegisteredIffEstablished(f: Endpoint) {
    f.open && (f.remote <==> f.state.Established?) && (!f.remote ==> f.state.Listening? || f.state.Closed?)
  }

  lemma HandlerRegisters(e: Endpoint, call: HandlerCall<Job>)
    requires RegisteredIffEstablished(e) && !e.remote
    ensures RegisteredIffEstablished(RunHandler(e, call))
  {
  }

  lemma HandshakeSettles(e: Endpoint, number: nat)
    requires Unconnected(e) && number <= MAX
    ensures Unconnected(ProcessHandshake(e, number))
  {
    if e.state.Listening? {
      var seen := Remember(PacketArrived(e), number, Handshake);
      var issued := StartReceive(Issue(seen, Handshake));
      var job := Job(Handshake, seen.next, Some(number), |seen.log.issued|, LastAccepted(seen));
      var fx := Pushed(issued.queue, job.number, Entry(0, job));
      OneHandler(ApplyEffect(issued, fx), fx.calls);
    }
  }

  lemma AppliedAckRegisters(e: Endpoint, ack: nat)
    requires Unconnected(e)
    ensures RegisteredIffEstablished(ApplyAck(e, ack))
  {
    var fx := Acked(e.queue, ack);
    EffectChanges(e, fx);
    OneHandler(ApplyEffect(e, fx), fx.calls);
    if fx.calls != [] {
      HandlerRegisters(ApplyEffect(e, fx), fx.calls[0]);
    }
  }

  lemma AcknowledgementRegisters(e: Endpoint, ack: nat, calls: seq<UserCall>)
    requires Unconnected(e)
    ensures RegisteredIffEstablished(ProcessAcknowledgement(e, ack, calls))
  {
    if e.state.Listening? {
      AppliedAckRegisters(e, ack);
      CallsSettleNothing(ApplyAck(e, ack), calls);
    }
  }

  lemma DispatchRegisters(e: Endpoint, h: Wire.Header, payload: Payload, calls: seq<UserCall>, ackCalls: seq<UserCall>)
    requires Unconnected(e) && !h.kind.Data?
    ensures RegisteredIffEstablished(DispatchHeader(e, h, payload, calls, ackCalls))
  {
    var processed := Processed(e, ContentOf(h, payload), NumberOf(h.sequence), calls);
    if h.kind.Handshake? {
      HandshakeSettles(e, NumberOf(h.sequence));
    }
    if h.ack.Some? && !processed.fault {
      AcknowledgementRegisters(processed, NumberOf(h.ack.value), ackCalls);
    }
  }

  /** What may happen to a socket that is accepted once and stays open, for its account to stay exact. */
  predicate AcceptedOnce(e: Endpoint, h: Happening) {
    match h
    case Connects => false
    case GreetingEnds(_) => false
    case Listens => !e.open
    case StepEnds(_, _, _) => e.queue.alive
    case Peeks(readable, frame, calls, ackCalls) =>
      readable && |frame| >= Wire.HEADER_SIZE ==>
        && Wire.Decoded(frame[..Wire.HEADER_SIZE]).Some?
        && (e.rx.peeks > 0 && !e.remote ==> EndsRightRequest(e, Peeked(e, readable, frame, calls, ackCalls), frame))
    case _ => true
  }

  /** Not accepted yet, waiting for a peer, or registered. */
  ghost predicate AcceptedState(e: Endpoint) {
    if !e.open then !e.remote && e.state.Closed? && e.rx == New(false, 0).rx
    else if !e.remote then (e.state.Listening? || e.state.Closed?) && AccountExact(e.rx, true)
    else AccountExact(e.rx, false)
  }

  lemma CallKeepsAccepted(e: Endpoint, call: UserCall)
    requires AcceptedState(e)
    ensures AcceptedState(RunCall(e, call))
  {
    CallSettlesNothing(e, call);
    if e.open {
      CallCounts(e, call);
    }
  }

  lemma CallCounts(e: Endpoint, call: UserCall)
    requires e.open && AccountExact(e.rx, !e.remote)
    ensures AccountExact(RunCall(e, call).rx, !e.remote)
  {
    match call
    case Send(payload) =>
      EnqueueReception(StartReceive(Issue(e, Data(payload))),
                       Job(Data(payload), e.next, None, |e.log.issued|, 0), |payload|);
    case Receive(_) =>
  }

  // A registered socket stays registered.

  ghost predicate StaysKnown(e: Endpoint, f: Endpoint) {
    f.open == e.open && (e.remote ==> f.remote)
  }

  lemma HandlerStaysKnown(e: Endpoint, call: HandlerCall<Job>)
    ensures StaysKnown(e, RunHandler(e, call))
  {
  }

  lemma HandshakeStaysKnown(e: Endpoint, number: nat)
    requires number <= MAX
    ensures StaysKnown(e, ProcessHandshake(e, number))
  {
    if e.state.Listening? {
      var seen := Remember(PacketArrived(e), number, Handshake);
      var issued := StartReceive(Issue(seen, Handshake));
      var job := Job(Handshake, seen.next, Some(number), |seen.log.issued|, LastAccepted(seen));
      var fx := Pushed(issued.queue, job.number, Entry(0, job));
      OneHandler(ApplyEffect(issued, fx), fx.calls);
    }
  }

  lemma ProcessedStaysKnown(e: Endpoint, content: Content, number: nat, calls: seq<UserCall>)
    requires number <= MAX
    ensures StaysKnown(e, Processed(e, content, number, calls))
  {
    match content
    case Handshake => HandshakeStaysKnown(e, number);
    case Keepalive =>
    case Data(payload) =>
      if IsExpected(e, number) {
        CallsSettleNothing(TakeData(e, number, payload), calls);
      }
  }

  lemma AppliedAckStaysKnown(e: Endpoint, ack: nat)
    ensures StaysKnown(e, ApplyAck(e, ack))
  {
    var fx := Acked(e.queue, ack);
    EffectChanges(e, fx);
    OneHandler(ApplyEffect(e, fx), fx.calls);
    if fx.calls != [] {
      HandlerStaysKnown(ApplyEffect(e, fx), fx.calls[0]);
    }
  }

  lemma AcknowledgementStaysKnown(e: Endpoint, ack: nat, calls: seq<UserCall>)
    ensures StaysKnown(e, ProcessAcknowledgement(e, ack, calls))
  {
    var seen := Acknowledge(e);
    AcknowledgeChanges(e);
    if !seen.fault {
      AppliedAckStaysKnown(seen, ack);
      CallsSettleNothing(ApplyAck(seen, ack), calls);
    }
  }

  lemma DispatchStaysKnown(e: Endpoint, h: Wire.Header, payload: Payload, calls: seq<UserCall>, ackCalls: seq<UserCall>)
    ensures StaysKnown(e, DispatchHeader(e, h, payload, calls, ackCalls))
  {
    ProcessedStaysKnown(e, ContentOf(h, payload), NumberOf(h.sequence), calls);
    if h.ack.Some? {
      AcknowledgementStaysKnown(Processed(e, ContentOf(h, payload), NumberOf(h.sequence), calls),
                                NumberOf(h.ack.value), ackCalls);
    }
  }

  lemma PeekedStaysRegistered(e: Endpoint, h: Happening)
    requires e.remote && h.Peeks? && Possible(e, h) && AcceptedOnce(e, h)
    ensures StaysKnown(e, Following(e, h))
  {
    if e.rx.calls != 0 && h.readable && |h.frame| >= Wire.HEADER_SIZE {
      var header := Wire.Decoded(h.frame[..Wire.HEADER_SIZE]).value;
      DispatchStaysKnown(PeekTaken(e), header, h.frame[Wire.HEADER_SIZE..], h.calls, h.ackCalls);
    }
  }

  // Runs.

  lemma PeekKeepsAccepted(e: Endpoint, h: Happening)
    requires AcceptedState(e) && h.Peeks? && Possible(e, h) && AcceptedOnce(e, h)
    ensures AcceptedState(Following(e, h))
  {
    if h.readable && |h.frame| >= Wire.HEADER_SIZE {
      if e.remote {
        PeekedAccounted(e, h.readable, h.frame, h.calls, h.ackCalls);
        PeekedStaysRegistered(e, h);
      } else {
        AccountKeptIff(e, h.frame, h.calls, h.ackCalls);
        PendingPeekSettles(e, h);
      }
    }
  }

  lemma PendingPeekSettles(e: Endpoint, h: Happening)
    requires e.open && AcceptedState(e) && !e.remote && h.Peeks? && Possible(e, h) && AcceptedOnce(e, h)
    requires h.readable && |h.frame| >= Wire.HEADER_SIZE
    ensures RegisteredIffEstablished(Following(e, h))
  {
    var header := Wire.Decoded(h.frame[..Wire.HEADER_SIZE]);
    DispatchRegisters(PeekTaken(e), header.value, h.frame[Wire.HEADER_SIZE..], h.calls, h.ackCalls);
  }

  lemma StepEndKeepsAccepted(e: Endpoint, entry: Entry<Job>, error: bool, bytes: nat)
    requires AcceptedState(e) && e.queue.alive
    ensures AcceptedState(StepCompleted(e, entry, error, bytes))
  {
    var fx := StepDone(e.queue, entry, error, bytes);
    OneHandler(e.(queue := fx.queue), fx.calls);
  }

  lemma StepKeepsAccepted(e: Endpoint, h: Happening)
    requires AcceptedState(e) && Possible(e, h) && AcceptedOnce(e, h)
    ensures AcceptedState(Following(e, h))
  {
    match h
    case Calls(call) => CallKeepsAccepted(e, call);
    case Peeks(_, _, _, _) => PeekKeepsAccepted(e, h);
    case QueueWaits => EffectChanges(e, WaitArrived(e.queue));
    case StepEnds(entry, error, bytes) => StepEndKeepsAccepted(e, entry, error, bytes);
    case _ =>
  }

  lemma {:induction false} StaysAccepted(e: Endpoint, run: seq<Happening>)
    requires AcceptedState(e) && Unfolds(e, run, AcceptedOnce)
    ensures AcceptedState(Unfolded(e, run, AcceptedOnce))
    decreases |run|
  {
    if run != [] {
      StepKeepsAccepted(e, run[0]);
      StaysAccepted(Following(e, run[0]), run[1..]);
    }
  }

  /**
   Over all runs of a socket that an acceptor hands out, from before the accept to any point after the
   connection stands: one request for the socket while it is receiving, one for the acceptor while it waits.
   */
  lemma AcceptAccounting(initial: nat, run: seq<Happening>)
    requires initial <= MAX && Unfolds(New(false, initial), run, AcceptedOnce)
    ensures var e := Unfolded(New(false, initial), run, AcceptedOnce);
            && e.rx.calls == (if e.rx.receiving then 1 else 0) + (if AcceptPending(e) then 1 else 0)
            && e.rx.peeks == (if e.rx.receiving || AcceptPending(e) then 1 else 0)
            && (Abstract(e.rx.keepalive) == Armed <==> e.rx.receiving)
  {
    StaysAccepted(New(false, initial), run);
  }
}
