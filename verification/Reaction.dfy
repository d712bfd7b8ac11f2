/**
 How a socket reacts in every state it can be in, reachable or not: when handlers of its user run, when it
 asks for datagrams, what it sends, when it asserts, and which calls it ignores.
 */
module Reactions {
  import opened Wrappers
  import Timers
  import TimerRuns
  import opened TransmitQueues
  import opened Endpoints
  import opened EndpointFacts
  import opened ReceiveFacts
  import opened Peeks
  import opened Attentions
  import Abortings
  import Wire

  // Calls that are ignored.

  /** Without a multiplexer every call of the user, and closing, leaves the socket as it is. */
  lemma {:induction false} DetachedIsInert(e: Endpoint, calls: seq<UserCall>)
    requires !e.open
    ensures RunCalls(e, calls) == e && Connect(e) == e && Close(e) == e
  {
    if calls != [] {
      DetachedIsInert(e, calls[..|calls| - 1]);
    }
  }

  lemma ConnectMoves(e: Endpoint)
    requires e.open && e.state.Closed?
    ensures Connect(e).state.Connecting?
  {
    var called := e.(state := Connecting, remote := true);
    var issued := StartReceive(Issue(called, Handshake));
    var fx := Pushed(issued.queue, e.next, Entry(0, Job(Handshake, e.next, None, |e.log.issued|, LastAccepted(e))));
    OneHandler(ApplyEffect(issued, fx), fx.calls);
  }

  /** A socket that connects or listens already ignores a further connect and a further accept. */
  lemma BusyIsRefused(e: Endpoint)
    requires e.open
    ensures Connect(Connect(e)) == Connect(e) == Listen(Connect(e))
    ensures Listen(Listen(e)) == Listen(e) == Connect(Listen(e))
    ensures !e.state.Closed? ==> Connect(e) == e == Listen(e)
  {
    if e.state.Closed? {
      ConnectMoves(e);
    }
  }

  // The user's handlers.

  function ReceivesIn(calls: seq<UserCall>): seq<nat> {
    if calls == [] then []
    else
      var last := calls[|calls| - 1];
      ReceivesIn(calls[..|calls| - 1]) + if last.Receive? then [last.receive] else []
  }

  function SendsIn(calls: seq<UserCall>): seq<Content> {
    if calls == [] then []
    else
      var last := calls[|calls| - 1];
      SendsIn(calls[..|calls| - 1]) + if last.Send? then [Data(last.payload)] else []
  }

  /** Between e and f the user issued the receives and the sends, in this order each. */
  ghost predicate Made(e: Endpoint, f: Endpoint, receives: seq<nat>, sends: seq<Content>) {
    f.log.receives == e.log.receives + receives && f.log.issued == e.log.issued + sends
  }

  lemma CallIsMade(e: Endpoint, call: UserCall)
    requires e.open
    ensures var f := RunCall(e, call);
            && Made(e, f, if call.Receive? then [call.receive] else [], if call.Send? then [Data(call.payload)] else [])
            && f.open && f.fault == e.fault
  {
    if call.Send? {
      SendDataSame(e, call.payload);
      SendDataIsUserStep(e, call.payload);
      EnqueueChanges(StartReceive(Issue(e, Data(call.payload))),
                     Job(Data(call.payload), e.next, None, |e.log.issued|, 0), |call.payload|);
    }
  }

  lemma MadeThen(e: Endpoint, f: Endpoint, g: Endpoint, receives: seq<nat>, sends: seq<Content>,
                 moreReceives: seq<nat>, moreSends: seq<Content>)
    requires Made(e, f, receives, sends) && Made(f, g, moreReceives, moreSends)
    ensures Made(e, g, receives + moreReceives, sends + moreSends)
  {
  }

  lemma {:induction false} CallsAreMade(e: Endpoint, calls: seq<UserCall>)
    requires e.open
    ensures var f := RunCalls(e, calls);
            Made(e, f, ReceivesIn(calls), SendsIn(calls)) && f.open && f.fault == e.fault
  {
    if calls != [] {
      var front, last := calls[..|calls| - 1], calls[|calls| - 1];
      CallsAreMade(e, front);
      CallIsMade(RunCalls(e, front), last);
      MadeThen(e, RunCalls(e, front), RunCalls(e, calls), ReceivesIn(front), SendsIn(front),
               if last.Receive? then [last.receive] else [], if last.Send? then [Data(last.payload)] else []);
    }
  }

  /**
   The receive handler runs, and a keepalive is numbered before it does, if and only if the data is expected
   and a receive waits for it.
   */
  lemma DataHandlerRunsIff(e: Endpoint, number: nat, payload: Payload, calls: seq<UserCall>)
    requires number <= MAX && e.open
    ensures var f := ProcessData(e, number, payload, calls);
            if IsExpected(e, number) && e.input != [] then Made(e, f, ReceivesIn(calls), [Keepalive] + SendsIn(calls))
            else Made(e, f, [], [])
  {
    if IsExpected(e, number) && e.input != [] {
      var taken := TakeData(e, number, payload);
      CallsAreMade(taken, calls);
      assert Made(e, taken, [], [Keepalive]);
      MadeThen(e, taken, RunCalls(taken, calls), [], [Keepalive], ReceivesIn(calls), SendsIn(calls));
      assert [] + ReceivesIn(calls) == ReceivesIn(calls);
    }
  }

  /** The handler of a send runs if and only if the acknowledgement names a pending packet. */
  lemma AcknowledgementHandlerRunsIff(e: Endpoint, ack: nat, calls: seq<UserCall>)
    requires e.open && !e.fault && !e.state.Closed? && !e.state.Connecting?
    ensures var f := ProcessAcknowledgement(e, ack, calls);
            if ack in e.queue.entries then Made(e, f, ReceivesIn(calls), SendsIn(calls)) else Made(e, f, [], [])
  {
    var seen := Acknowledge(e);
    AcknowledgeChanges(e);
    ApplyAckChanges(seen, ack);
    CallsAreMade(ApplyAck(seen, ack), calls);
  }

  // Asking for datagrams.

  /** A call asks for datagrams only if it leaves a packet pending or a receive waiting. */
  lemma CallRequestsIff(e: Endpoint, call: UserCall)
    requires e.open
    ensures var f := RunCall(e, call);
            && f.rx.receiving == (e.rx.receiving || call.Send? || e.output == [])
            && f.input == (if call.Receive? && e.output == [] then e.input + [call.receive] else e.input)
            && (call.Send? ==> f.queue.entries.Keys != {})
            && (e.queue.entries.Keys != {} ==> f.queue.entries.Keys != {}) && f.output == e.output && f.open
  {
    if call.Send? {
      var issued := StartReceive(Issue(e, Data(call.payload)));
      var job := Job(Data(call.payload), e.next, None, |e.log.issued|, 0);
      EnqueueStays(issued, job, |call.payload|);
      EnqueueChanges(issued, job, |call.payload|);
      assert e.next in Enqueue(issued, job, |call.payload|).queue.entries;
    }
  }

  lemma {:induction false} CallsRequestIff(e: Endpoint, calls: seq<UserCall>)
    requires e.open
    ensures var f := RunCalls(e, calls);
            && (e.rx.receiving ==> f.rx.receiving)
            && (f.rx.receiving && !e.rx.receiving ==> |f.input| > |e.input| || f.queue.entries.Keys != {})
            && (|f.input| > |e.input| ==> f.rx.receiving) && |f.input| >= |e.input|
            && (e.queue.entries.Keys != {} ==> f.queue.entries.Keys != {}) && f.output == e.output && f.open
  {
    if calls != [] {
      CallsRequestIff(e, calls[..|calls| - 1]);
      CallRequestsIff(RunCalls(e, calls[..|calls| - 1]), calls[|calls| - 1]);
    }
  }

  /** After data the socket asks for datagrams if and only if it is not the expected data or something waits. */
  lemma DataRequestsIff(e: Endpoint, number: nat, payload: Payload, calls: seq<UserCall>)
    requires number <= MAX && e.open
    ensures var f := ProcessData(e, number, payload, calls);
            f.rx.receiving <==> !IsExpected(e, number) || f.input != [] || f.queue.entries.Keys != {}
  {
    if IsExpected(e, number) {
      CallsRequestIff(TakeData(e, number, payload), calls);
    }
  }

  /** And after an acknowledgement if it did before, or a packet is pending, or the handler left a receive waiting. */
  lemma AcknowledgementRequestsIff(e: Endpoint, ack: nat, calls: seq<UserCall>)
    requires e.open && !e.fault && !e.state.Closed? && !e.state.Connecting?
    ensures var f := ProcessAcknowledgement(e, ack, calls);
            f.rx.receiving <==> e.rx.receiving || f.queue.entries.Keys != {} || |f.input| > |e.input|
  {
    var seen := Acknowledge(e);
    AcknowledgeChanges(e);
    ApplyAckReception(seen, ack);
    CallsRequestIff(ApplyAck(seen, ack), calls);
  }

  // Transmission.

  /** Exactly the packet of this entry was sent. */
  ghost predicate Sends(e: Endpoint, f: Endpoint, entry: Entry<Job>) {
    && f.log.steps == e.log.steps + [entry]
    && e.log.sent <= f.log.sent && |f.log.sent| == |e.log.sent| + 1
    && var p, job := f.log.sent[|e.log.sent|], entry.job;
    && p.content == job.content && p.number == job.number && p.index == job.index
  }

  ghost predicate SendsNothing(e: Endpoint, f: Endpoint) {
    f.log.steps == e.log.steps && f.log.sent == e.log.sent
  }

  /** A wait callback of the queue's timer sends the first pending packet again if and only if it fires. */
  lemma TickResendsIff(e: Endpoint)
    requires e.queue.timer.waits > 0
    ensures var f := QueueWait(e);
            if Timers.Fires(e.queue.timer) && e.queue.entries.Keys != {} then
              Sends(e, f, e.queue.entries[First(e.queue.entries)])
            else SendsNothing(e, f)
  {
  }

  /** An acknowledgement sends the next pending packet if and only if it completes the first one. */
  lemma AcknowledgementSendsIff(e: Endpoint, ack: nat)
    ensures var f, rest := ApplyAck(e, ack), e.queue.entries - {ack};
            if ack in e.queue.entries && ack == First(e.queue.entries) && rest.Keys != {} then
              Sends(e, f, rest[First(rest)])
            else SendsNothing(e, f)
  {
    var fx := Acked(e.queue, ack);
    OneHandler(ApplyEffect(e, fx), fx.calls);
    if fx.calls != [] {
      HandlerChanges(ApplyEffect(e, fx), fx.calls[0]);
    }
  }

  /** A new packet is sent at once if and only if no other is pending. */
  lemma PushSendsIff(e: Endpoint, job: Job, size: nat)
    ensures var f := Enqueue(e, job, size);
            if e.queue.entries.Keys == {} then Sends(e, f, Entry(size, job)) else SendsNothing(e, f)
  {
    var fx := Pushed(e.queue, job.number, Entry(size, job));
    assert job.number in e.queue.entries ==> e.queue.entries.Keys != {};
    OneHandler(ApplyEffect(e, fx), fx.calls);
    if fx.calls != [] {
      HandlerChanges(ApplyEffect(e, fx), fx.calls[0]);
    }
  }

  lemma CompletionArms(e: Endpoint, entry: Entry<Job>, bytes: nat)
    requires e.queue.alive
    ensures var f := StepCompleted(e, entry, false, bytes);
            f == e.(queue := e.queue.(timer := f.queue.timer)) && TimerRuns.Abstract(f.queue.timer) == TimerRuns.Armed
  {
  }

  /**
   The retransmission cycle: once a step completed without error, the first wait callback, or the second if
   the first one only renews the wait, sends the first pending packet again, and until then nothing is sent.
   */
  lemma CompletionIsFollowedByResend(e: Endpoint, entry: Entry<Job>, bytes: nat)
    requires e.queue.alive && e.queue.entries.Keys != {}
    requires Timers.WaitInvariant(e.queue.timer) && !e.queue.timer.state.Executing?
    ensures var f, first := StepCompleted(e, entry, false, bytes), e.queue.entries[First(e.queue.entries)];
            && SendsNothing(e, f) && f.queue.timer.waits > 0
            && var g := QueueWait(f);
            && (Sends(e, g, first)
                || (SendsNothing(e, g) && g.queue.timer.waits > 0 && Sends(e, QueueWait(g), first)))
  {
    var f := StepCompleted(e, entry, false, bytes);
    CompletionArms(e, entry, bytes);
    TickResendsIff(f);
    if !Timers.Fires(f.queue.timer) {
      TickResendsIff(QueueWait(f));
    }
  }

  // Assertions.

  /** The acknowledgement names the handshake of a connector. */
  predicate NamesRequest(e: Endpoint, ack: nat) {
    NamesHandshake(e, ack) && e.queue.entries[ack].job.ack.None?
  }

  lemma AckHandlerAssertsIff(e: Endpoint, ack: nat)
    requires !e.fault && (e.state.Established? || e.state.Listening?)
    ensures ApplyAck(e, ack).fault <==> e.state.Listening? && NamesRequest(e, ack)
  {
    var fx := Acked(e.queue, ack);
    OneHandler(ApplyEffect(e, fx), fx.calls);
  }

  /**
   An acknowledgement is asserted not to come before the connection is, nor after it failed, and the
   handler of async_connect is asserted not to run in a listening socket.
   */
  lemma AcknowledgementAssertsIff(e: Endpoint, ack: nat, calls: seq<UserCall>)
    requires e.open && !e.fault
    ensures ProcessAcknowledgement(e, ack, calls).fault <==>
            e.state.Closed? || e.state.Connecting? || (e.state.Listening? && NamesRequest(e, ack))
  {
    var seen := Acknowledge(e);
    if !seen.fault {
      AckHandlerAssertsIff(seen, ack);
      ApplyAckReception(seen, ack);
      CallsAreMade(ApplyAck(seen, ack), calls);
    }
  }

  // The connector's last step.

  /**
   A connector that answered the handshake becomes established by an acknowledgement or by the keepalive
   leaving, in any order; if the keepalive fails to leave, it is closed, and an acknowledgement asserts.
   */
  lemma EitherEstablishes(e: Endpoint, number: nat)
    requires number <= MAX && !e.fault && e.state.Connecting?
    ensures var greeted := ProcessHandshake(e, number);
            && greeted.state.Handshaking? && !greeted.fault
            && GreetingSent(greeted, false) == Acknowledge(greeted) == greeted.(state := Established)
            && Acknowledge(GreetingSent(greeted, false)) == GreetingSent(Acknowledge(greeted), false)
            && GreetingSent(greeted, true).state.Closed? && GreetingSent(Acknowledge(greeted), true).state.Closed?
            && Acknowledge(GreetingSent(greeted, true)).fault
  {
  }

  // The listener's reply.

  lemma RefusedReplyCloses(e: Endpoint, number: nat, ack: nat, index: nat, ackIndex: nat)
    requires number in e.queue.entries
    ensures Enqueue(e, Job(Handshake, number, Some(ack), index, ackIndex), 0).state.Closed?
  {
    var job := Job(Handshake, number, Some(ack), index, ackIndex);
    var fx := Pushed(e.queue, number, Entry(0, job));
    OneHandler(ApplyEffect(e, fx), fx.calls);
  }

  /** A step that fails closes the connection if and only if it is one of the reply; so does a reply that is refused. */
  lemma UnsentReplyCloses(e: Endpoint, entry: Entry<Job>, bytes: nat, ack: nat)
    ensures StepCompleted(e, entry, true, bytes).state == if Abortings.IsReply(entry.job) then Closed else e.state
    ensures e.next in e.queue.entries ==> SendHandshake(e, Some(ack)).state.Closed?
  {
    var fx := StepDone(e.queue, entry, true, bytes);
    OneHandler(e.(queue := fx.queue), fx.calls);
    if e.next in e.queue.entries {
      RefusedReplyCloses(StartReceive(Issue(e, Handshake)), e.next, ack, |e.log.issued|, LastAccepted(e));
    }
  }

  // The first packet.

  /** A socket that accepted nothing yet takes any packet for the next one. */
  lemma FirstIsExpected(e: Endpoint, number: nat, payload: Payload, calls: seq<UserCall>)
    requires e.history == [] && e.log.accepted == [] && number <= MAX
    ensures ProcessKeepalive(e, number).log.accepted == [Keepalive]
    ensures ProcessData(e, number, payload, calls).log.accepted == [Data(payload)]
  {
    TakeDataAccepts(e, number, payload);
    CallsReceive(TakeData(e, number, payload), calls);
  }

  // Peeks.

  /** A datagram of no known kind is asserted not to come from a known sender, and ignored from another. */
  lemma UnknownKind(e: Endpoint, frame: seq<bv8>, calls: seq<UserCall>, ackCalls: seq<UserCall>)
    requires |frame| >= 12 && frame[0] & 0xF8 != 0xC8 && frame[0] & 0xF8 != 0xD8 && frame[0] & 0xF8 != 0xC0
    ensures Registered(e, frame, calls, ackCalls) == e.(fault := true)
    ensures Establish(e, frame, calls, ackCalls) == e
  {
    Wire.DecodedKind(frame[..12]);
  }

  lemma CloseLeavesPeek(e: Endpoint)
    requires e.open && Accounted(e.rx, 0)
    ensures var f := Close(e);
            && f.rx.calls == 0 && f.rx.peeks == e.rx.peeks && Accounted(f.rx.(peeks := 0), 0)
  {
    var fx := ShutDown(e.queue);
    var stopped := e.(rx := e.rx.(keepalive := Timers.After(e.rx.keepalive, Timers.Call.Stop)),
                      queue := fx.queue, input := []);
    RunHandlersSame(stopped, fx.calls);
    Abortings.AbortedHandlers(stopped, fx.calls);
  }

  /**
   A socket that closes while it waits leaves one peek behind. The next datagram ends that peek, whatever
   it is, without being looked at, and then the accounts are exact again.
   */
  lemma LeftoverPeekEnds(e: Endpoint, readable: bool, frame: seq<bv8>, calls: seq<UserCall>, ackCalls: seq<UserCall>)
    requires e.open && Accounted(e.rx, 0) && e.rx.receiving
    ensures Close(e).rx.peeks == 1
    ensures var f := Peeked(Close(e), readable, frame, calls, ackCalls);
            f == Close(e).(rx := f.rx) && Accounted(f.rx, 0) && !f.rx.receiving
  {
    CloseLeavesPeek(e);
  }
}
