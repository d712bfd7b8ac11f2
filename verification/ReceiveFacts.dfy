/**
 Matching receives with data: the two receive queues, and the posted receives between them.
 */
module ReceiveFacts {
  import opened Wrappers
  import opened TransmitQueues
  import opened Endpoints
  import opened EndpointFacts

  /** The payloads of the data packets among some contents. */
  function Payloads(contents: seq<Content>): seq<Payload> {
    if contents == [] then []
    else
      var last := contents[|contents| - 1];
      Payloads(contents[..|contents| - 1]) + if last.Data? then [last.payload] else []
  }

  function PayloadsOf(delivered: seq<Delivery>): (r: seq<Payload>)
    ensures |r| == |delivered| && forall i :: 0 <= i < |r| ==> r[i] == delivered[i].payload
  {
    seq(|delivered|, i requires 0 <= i < |delivered| => delivered[i].payload)
  }

  function ReceivesOf(delivered: seq<Delivery>): (r: seq<nat>)
    ensures |r| == |delivered| && forall i :: 0 <= i < |r| ==> r[i] == delivered[i].receive
  {
    seq(|delivered|, i requires 0 <= i < |delivered| => delivered[i].receive)
  }

  lemma PayloadsAppend(contents: seq<Content>, c: Content)
    ensures Payloads(contents + [c]) == Payloads(contents) + if c.Data? then [c.payload] else []
  {
    assert (contents + [c])[..|contents|] == contents;
  }

  lemma {:induction false} PayloadsPrefix(a: seq<Content>, b: seq<Content>)
    requires a <= b
    ensures Payloads(a) <= Payloads(b)
  {
    if |a| < |b| {
      PayloadsPrefix(a, b[..|b| - 1]);
    } else {
      assert a == b;
    }
  }

  /** Accepted data was handed out in order of acceptance, or waits for a receive; never both queues wait. */
  ghost predicate HandedOutInOrder(e: Endpoint) {
    && Payloads(e.log.accepted) == PayloadsOf(e.log.delivered) + e.output
    && (e.input == [] || e.output == [])
  }

  /** Issued receives were completed in order of issue, or are posted, or wait; each posted one has data. */
  ghost predicate ServedInOrder(e: Endpoint) {
    && e.log.receives == ReceivesOf(e.log.delivered) + e.claims + e.input
    && |e.claims| <= |e.output|
  }

  /** A receive may be issued when no data waits, or when some waiting data is not claimed yet. */
  predicate MayReceive(e: Endpoint) {
    e.output == [] || |e.claims| < |e.output|
  }

  predicate MayCall(e: Endpoint, call: UserCall) {
    call.Receive? && e.open ==> MayReceive(e)
  }

  predicate MayCalls(e: Endpoint, calls: seq<UserCall>) {
    calls == []
    || (MayCalls(e, calls[..|calls| - 1]) && MayCall(RunCalls(e, calls[..|calls| - 1]), calls[|calls| - 1]))
  }

  /** The part of an endpoint that concerns receives, except for what was accepted. */
  ghost predicate SameReceives(e: Endpoint, f: Endpoint) {
    && f.input == e.input && f.output == e.output && f.claims == e.claims && f.open == e.open
    && f.log.receives == e.log.receives && f.log.delivered == e.log.delivered
  }

  lemma RunHandlerSame(e: Endpoint, call: HandlerCall<Job>)
    ensures SameReceives(e, RunHandler(e, call)) && RunHandler(e, call).log.accepted == e.log.accepted
  {
  }

  lemma {:induction false} RunHandlersSame(e: Endpoint, calls: seq<HandlerCall<Job>>)
    ensures SameReceives(e, RunHandlers(e, calls)) && RunHandlers(e, calls).log.accepted == e.log.accepted
  {
    if calls != [] {
      RunHandlersSame(e, calls[..|calls| - 1]);
      RunHandlerSame(RunHandlers(e, calls[..|calls| - 1]), calls[|calls| - 1]);
    }
  }

  lemma EnqueueSame(e: Endpoint, job: Job, size: nat)
    ensures SameReceives(e, Enqueue(e, job, size)) && Enqueue(e, job, size).log.accepted == e.log.accepted
  {
    var fx := Pushed(e.queue, job.number, Entry(size, job));
    RunHandlersSame(ApplyEffect(e, fx), fx.calls);
  }

  lemma SendDataSame(e: Endpoint, payload: Payload)
    ensures SameReceives(e, SendData(e, payload))
    ensures SendData(e, payload).log.accepted == e.log.accepted
  {
    EnqueueSame(StartReceive(Issue(e, Data(payload))),
                Job(Data(payload), e.next, None, |e.log.issued|, 0), |payload|);
  }

  lemma SameReceivesHandsOut(e: Endpoint, f: Endpoint)
    requires SameReceives(e, f)
    requires f.log.accepted == e.log.accepted
             || exists c: Content :: !c.Data? && f.log.accepted == e.log.accepted + [c]
    ensures HandedOutInOrder(e) ==> HandedOutInOrder(f)
    ensures ServedInOrder(e) ==> ServedInOrder(f)
  {
    if f.log.accepted != e.log.accepted {
      var c: Content :| !c.Data? && f.log.accepted == e.log.accepted + [c];
      PayloadsAppend(e.log.accepted, c);
    }
  }

  lemma AsyncReceiveHandsOut(e: Endpoint, receive: nat)
    requires HandedOutInOrder(e)
    ensures HandedOutInOrder(AsyncReceive(e, receive))
    ensures ServedInOrder(e) && (e.open ==> MayReceive(e)) ==> ServedInOrder(AsyncReceive(e, receive))
  {
    if e.open && ServedInOrder(e) {
      AsyncReceiveServes(e, AsyncReceive(e, receive), receive);
    }
  }

  lemma AsyncReceiveServes(e: Endpoint, f: Endpoint, receive: nat)
    requires f.log.receives == e.log.receives + [receive] && f.log.delivered == e.log.delivered
    requires f.output == e.output
    requires if e.output == [] then f.input == e.input + [receive] && f.claims == e.claims
             else f.claims == e.claims + [receive] && f.input == e.input && e.input == []
    ensures ServedInOrder(e) && MayReceive(e) ==> ServedInOrder(f)
  {
    if ServedInOrder(e) && MayReceive(e) && e.output == [] {
      assert e.claims == [];
    }
  }

  lemma RunCallHandsOut(e: Endpoint, call: UserCall)
    requires HandedOutInOrder(e)
    ensures HandedOutInOrder(RunCall(e, call))
    ensures ServedInOrder(e) && MayCall(e, call) ==> ServedInOrder(RunCall(e, call))
  {
    match call
    case Send(payload) =>
      SendDataSame(e, payload);
      SameReceivesHandsOut(e, AsyncSend(e, payload));
    case Receive(receive) => AsyncReceiveHandsOut(e, receive);
  }

  lemma {:induction false} RunCallsHandOut(e: Endpoint, calls: seq<UserCall>)
    requires HandedOutInOrder(e)
    ensures HandedOutInOrder(RunCalls(e, calls))
    ensures ServedInOrder(e) && MayCalls(e, calls) ==> ServedInOrder(RunCalls(e, calls))
  {
    if calls != [] {
      RunCallsHandOut(e, calls[..|calls| - 1]);
      RunCallHandsOut(RunCalls(e, calls[..|calls| - 1]), calls[|calls| - 1]);
    }
  }

  /** With every receive issued as allowed a posted receive always finds its data. */
  lemma RunClaimHandsOut(e: Endpoint)
    requires HandedOutInOrder(e) && e.claims != []
    ensures HandedOutInOrder(RunClaim(e))
    ensures ServedInOrder(e) ==> ServedInOrder(RunClaim(e)) && RunClaim(e).fault == e.fault
  {
    if e.output != [] {
      PayloadsOfAppend(e.log.delivered, Delivery(e.claims[0], e.output[0]));
    }
  }

  lemma PayloadsOfAppend(delivered: seq<Delivery>, d: Delivery)
    ensures PayloadsOf(delivered + [d]) == PayloadsOf(delivered) + [d.payload]
    ensures ReceivesOf(delivered + [d]) == ReceivesOf(delivered) + [d.receive]
  {
  }

  /** Data that finds no waiting receive is queued. */
  lemma QueueDataHandsOut(e: Endpoint, f: Endpoint, payload: Payload)
    requires HandedOutInOrder(e) && e.input == []
    requires SameReceives(e, f.(output := e.output)) && f.output == e.output + [payload]
    requires f.log.accepted == e.log.accepted + [Data(payload)]
    ensures HandedOutInOrder(f)
    ensures ServedInOrder(e) ==> ServedInOrder(f)
  {
    PayloadsAppend(e.log.accepted, Data(payload));
  }

  /** Data that finds a waiting receive completes the first one. */
  lemma ServeDataHandsOut(e: Endpoint, f: Endpoint, payload: Payload)
    requires HandedOutInOrder(e) && e.input != []
    requires f.input == e.input[1..] && f.output == e.output && f.claims == e.claims
    requires f.log.receives == e.log.receives
    requires f.log.delivered == e.log.delivered + [Delivery(e.input[0], payload)]
    requires f.log.accepted == e.log.accepted + [Data(payload)]
    ensures HandedOutInOrder(f)
    ensures ServedInOrder(e) ==> ServedInOrder(f)
  {
    PayloadsAppend(e.log.accepted, Data(payload));
    PayloadsOfAppend(e.log.delivered, Delivery(e.input[0], payload));
    if ServedInOrder(e) {
      assert e.claims == [] && e.input == [e.input[0]] + e.input[1..];
    }
  }

  lemma TakeDataHandsOut(e: Endpoint, number: nat, payload: Payload)
    requires HandedOutInOrder(e) && number <= MAX
    ensures HandedOutInOrder(TakeData(e, number, payload))
    ensures ServedInOrder(e) ==> ServedInOrder(TakeData(e, number, payload))
  {
    if e.input == [] {
      QueueDataHandsOut(e, TakeData(e, number, payload), payload);
    } else {
      ServeDataHandsOut(e, TakeData(e, number, payload), payload);
    }
  }

  /** The reaction of the user's receive handler may only issue allowed receives. */
  predicate MayReact(e: Endpoint, content: Content, number: nat, calls: seq<UserCall>)
    requires number <= MAX
  {
    content.Data? && IsExpected(e, number) && e.input != [] ==> MayCalls(TakeData(e, number, content.payload), calls)
  }

  /** The receive handler's reaction to data, and the receive request that may follow it. */
  lemma DataReactionHandsOut(taken: Endpoint, served: bool, calls: seq<UserCall>, f: Endpoint)
    requires HandedOutInOrder(taken)
    requires f == var after := if served then RunCalls(taken, calls) else taken;
                  if after.input != [] || after.queue.entries.Keys != {} then StartReceive(after) else after
    ensures HandedOutInOrder(f)
    ensures ServedInOrder(taken) && (served ==> MayCalls(taken, calls)) ==> ServedInOrder(f)
  {
    RunCallsHandOut(taken, calls);
    SameReceivesHandsOut(if served then RunCalls(taken, calls) else taken, f);
  }

  lemma ProcessDataHandsOut(e: Endpoint, number: nat, payload: Payload, calls: seq<UserCall>)
    requires HandedOutInOrder(e) && number <= MAX
    ensures HandedOutInOrder(ProcessData(e, number, payload, calls))
    ensures ServedInOrder(e) && MayReact(e, Data(payload), number, calls) ==>
              ServedInOrder(ProcessData(e, number, payload, calls))
  {
    if IsExpected(e, number) {
      TakeDataHandsOut(e, number, payload);
      DataReactionHandsOut(TakeData(e, number, payload), e.input != [], calls, ProcessData(e, number, payload, calls));
    } else {
      SameReceivesHandsOut(e, ProcessData(e, number, payload, calls));
    }
  }

  lemma ProcessKeepaliveHandsOut(e: Endpoint, number: nat)
    requires HandedOutInOrder(e) && number <= MAX
    ensures HandedOutInOrder(ProcessKeepalive(e, number))
    ensures ServedInOrder(e) ==> ServedInOrder(ProcessKeepalive(e, number))
  {
    SameReceivesHandsOut(e, ProcessKeepalive(e, number));
  }

  lemma ProcessedHandsOut(e: Endpoint, content: Content, number: nat, calls: seq<UserCall>)
    requires HandedOutInOrder(e) && number <= MAX
    ensures HandedOutInOrder(Processed(e, content, number, calls))
    ensures ServedInOrder(e) && MayReact(e, content, number, calls) ==>
              ServedInOrder(Processed(e, content, number, calls))
  {
    match content
    case Handshake =>
      HandshakeSame(e, number);
      SameReceivesHandsOut(e, ProcessHandshake(e, number));
    case Keepalive => ProcessKeepaliveHandsOut(e, number);
    case Data(payload) => ProcessDataHandsOut(e, number, payload, calls);
  }

  lemma HandshakeSame(e: Endpoint, number: nat)
    requires number <= MAX
    ensures SameReceives(e, ProcessHandshake(e, number))
    ensures ProcessHandshake(e, number).log.accepted == e.log.accepted + [Handshake]
  {
    if e.state.Listening? {
      SendHandshakeSame(Remember(PacketArrived(e), number, Handshake), Some(number));
    }
  }

  lemma ApplyAckSame(e: Endpoint, ack: nat)
    ensures SameReceives(e, ApplyAck(e, ack)) && ApplyAck(e, ack).log.accepted == e.log.accepted
  {
    ApplyAckChanges(e, ack);
  }

  lemma ApplyAckHandsOut(e: Endpoint, ack: nat)
    ensures HandedOutInOrder(e) ==> HandedOutInOrder(ApplyAck(Acknowledge(e), ack))
    ensures ServedInOrder(e) ==> ServedInOrder(ApplyAck(Acknowledge(e), ack))
  {
    var seen := Acknowledge(e);
    AcknowledgeChanges(e);
    SameReceivesHandsOut(e, seen);
    ApplyAckSame(seen, ack);
    SameReceivesHandsOut(seen, ApplyAck(seen, ack));
  }

  /** The user's reaction to an acknowledgement, and the receive request that may follow it. */
  lemma ReactionHandsOut(acked: Endpoint, named: bool, calls: seq<UserCall>, f: Endpoint)
    requires HandedOutInOrder(acked)
    requires f == var after := if named then RunCalls(acked, calls) else acked;
                  if after.queue.entries.Keys != {} then StartReceive(after) else after
    ensures HandedOutInOrder(f)
    ensures ServedInOrder(acked) && MayCalls(acked, calls) ==> ServedInOrder(f)
  {
    RunCallsHandOut(acked, calls);
    SameReceivesHandsOut(if named then RunCalls(acked, calls) else acked, f);
  }

  lemma AcknowledgementHandsOut(e: Endpoint, ack: nat, calls: seq<UserCall>)
    requires HandedOutInOrder(e)
    ensures HandedOutInOrder(ProcessAcknowledgement(e, ack, calls))
    ensures ServedInOrder(e) && MayCalls(ApplyAck(Acknowledge(e), ack), calls) ==>
              ServedInOrder(ProcessAcknowledgement(e, ack, calls))
  {
    var seen, f := Acknowledge(e), ProcessAcknowledgement(e, ack, calls);
    if seen.fault {
      AcknowledgeChanges(e);
      SameReceivesHandsOut(e, seen);
    } else {
      ApplyAckHandsOut(e, ack);
      ReactionHandsOut(ApplyAck(seen, ack), ack in e.queue.entries, calls, f);
    }
  }

  lemma StepCompletedSame(e: Endpoint, entry: Entry<Job>, error: bool, bytes: nat)
    ensures SameReceives(e, StepCompleted(e, entry, error, bytes))
    ensures StepCompleted(e, entry, error, bytes).log.accepted == e.log.accepted
  {
    var fx := StepDone(e.queue, entry, error, bytes);
    RunHandlersSame(e.(queue := fx.queue), fx.calls);
  }

  lemma SendHandshakeSame(e: Endpoint, ack: Option<nat>)
    ensures SameReceives(e, SendHandshake(e, ack)) && SendHandshake(e, ack).log.accepted == e.log.accepted
  {
    EnqueueSame(StartReceive(Issue(e, Handshake)),
                Job(Handshake, e.next, ack, |e.log.issued|, LastAccepted(e)), 0);
  }

  lemma ConnectSame(e: Endpoint)
    ensures SameReceives(e, Connect(e)) && Connect(e).log.accepted == e.log.accepted
  {
    SendHandshakeSame(e.(state := Connecting, remote := true), None);
  }

  /** The user's reactions to a message and to its acknowledgement only issue allowed receives. */
  predicate MayReactTo(e: Endpoint, content: Content, number: nat, ack: Option<nat>,
                       calls: seq<UserCall>, ackCalls: seq<UserCall>)
    requires number <= MAX
  {
    && MayReact(e, content, number, calls)
    && (ack.Some? ==> MayCalls(ApplyAck(Acknowledge(Processed(e, content, number, calls)), ack.value), ackCalls))
  }

  lemma DispatchHandsOut(e: Endpoint, content: Content, number: nat, ack: Option<nat>,
                         calls: seq<UserCall>, ackCalls: seq<UserCall>)
    requires HandedOutInOrder(e) && number <= MAX
    ensures HandedOutInOrder(Dispatch(e, content, number, ack, calls, ackCalls))
    ensures ServedInOrder(e) && MayReactTo(e, content, number, ack, calls, ackCalls) ==>
              ServedInOrder(Dispatch(e, content, number, ack, calls, ackCalls))
  {
    var processed := Processed(e, content, number, calls);
    ProcessedHandsOut(e, content, number, calls);
    if ack.Some? && !processed.fault {
      AcknowledgementHandsOut(processed, ack.value, ackCalls);
    }
  }

  lemma RunCallSame(e: Endpoint, call: UserCall)
    ensures RunCall(e, call).log.accepted == e.log.accepted
  {
    if call.Send? && e.open {
      SendDataSame(e, call.payload);
    }
  }

  lemma {:induction false} RunCallsAccept(e: Endpoint, calls: seq<UserCall>)
    ensures RunCalls(e, calls).log.accepted == e.log.accepted
  {
    if calls != [] {
      RunCallsAccept(e, calls[..|calls| - 1]);
      RunCallSame(RunCalls(e, calls[..|calls| - 1]), calls[|calls| - 1]);
    }
  }

  lemma TakeDataAccepts(e: Endpoint, number: nat, payload: Payload)
    requires number <= MAX
    ensures TakeData(e, number, payload).log.accepted == e.log.accepted + [Data(payload)]
  {
  }

  lemma ProcessDataAccepts(e: Endpoint, number: nat, payload: Payload, calls: seq<UserCall>)
    requires number <= MAX
    ensures e.log.accepted <= ProcessData(e, number, payload, calls).log.accepted
  {
    if IsExpected(e, number) {
      TakeDataAccepts(e, number, payload);
      RunCallsAccept(TakeData(e, number, payload), calls);
    }
  }

  lemma ProcessedAccepts(e: Endpoint, content: Content, number: nat, calls: seq<UserCall>)
    requires number <= MAX
    ensures e.log.accepted <= Processed(e, content, number, calls).log.accepted
  {
    match content
    case Handshake => HandshakeSame(e, number);
    case Keepalive =>
    case Data(payload) => ProcessDataAccepts(e, number, payload, calls);
  }

  lemma AcknowledgementAccepts(e: Endpoint, ack: nat, calls: seq<UserCall>)
    ensures ProcessAcknowledgement(e, ack, calls).log.accepted == e.log.accepted
  {
    var seen := Acknowledge(e);
    AcknowledgeChanges(e);
    if !seen.fault {
      ApplyAckSame(seen, ack);
      RunCallsAccept(ApplyAck(seen, ack), calls);
    }
  }

  /** What was accepted stays accepted, in any state and whatever arrives. */
  lemma DispatchAccepts(e: Endpoint, content: Content, number: nat, ack: Option<nat>,
                        calls: seq<UserCall>, ackCalls: seq<UserCall>)
    requires number <= MAX
    ensures e.log.accepted <= Dispatch(e, content, number, ack, calls, ackCalls).log.accepted
  {
    ProcessedAccepts(e, content, number, calls);
    if ack.Some? {
      AcknowledgementAccepts(Processed(e, content, number, calls), ack.value, ackCalls);
    }
  }

  /** The first n posted receives run, as far as they find data. */
  function RunClaims(e: Endpoint, n: nat): Endpoint
    requires n <= |e.claims|
    decreases n
  {
    if n == 0 || e.output == [] then (if n == 0 then e else RunClaim(e)) else RunClaims(RunClaim(e), n - 1)
  }

  /** Running all posted receives pops an empty queue exactly when there are more of them than data. */
  lemma {:induction false} ClaimsFail(e: Endpoint, n: nat)
    requires n <= |e.claims| && !e.fault
    ensures RunClaims(e, n).fault <==> n > |e.output|
    decreases n
  {
    if n > 0 && e.output != [] {
      ClaimsFail(RunClaim(e), n - 1);
    }
  }

  /** So a receive keeps every posted receive served exactly when it is issued as allowed. */
  lemma ReceiveIsSafeIffAllowed(e: Endpoint, receive: nat)
    requires e.open && !e.fault && |e.claims| <= |e.output|
    ensures var f := AsyncReceive(e, receive);
            !RunClaims(f, |f.claims|).fault <==> MayReceive(e)
  {
    var f := AsyncReceive(e, receive);
    ClaimsFail(f, |f.claims|);
  }

  /** Two receives issued while one packet waits: the second one pops an empty queue. */
  lemma TwoReceivesOnePacket(e: Endpoint)
    requires e.open && !e.fault && |e.output| == 1 && e.claims == []
    ensures var f := RunCalls(e, [Receive(1), Receive(2)]);
            |f.claims| == 2 && RunClaims(f, 2).fault
  {
    var calls := [Receive(1), Receive(2)];
    assert calls[..1] == [Receive(1)] && calls[..1][..0] == [];
    var f := RunCall(RunCall(e, calls[0]), calls[1]);
    assert RunCalls(e, calls[..1]) == RunCall(e, calls[0]);
    ClaimsFail(f, 2);
  }
}
