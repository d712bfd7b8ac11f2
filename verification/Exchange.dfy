/**
 One exchange over a connection that stands: the connector sends data, the listener's receive takes it,
 and the keepalive that acknowledges it is on its way back. What becomes of that keepalive decides.
 */
module Exchanges {
  import opened CumulativeSets
  import opened Wrappers
  import opened TransmitQueues
  import opened Endpoints
  import opened EndpointFacts
  import opened Deliveries
  import opened Attentions
  import opened Connections
  import opened Acknowledgements
  import opened ConnectionRuns
  import opened Establishments
  import opened Progress

  // The steps of one endpoint.

  lemma ReceiveWaits(e: Endpoint, receive: nat)
    requires e.open && e.output == []
    ensures var f := RunCall(e, Receive(receive));
            && f == e.(input := e.input + [receive], rx := f.rx, log := f.log) && f.rx.receiving
            && f.log == e.log.(receives := f.log.receives)
  {
  }

  /** Data sent while nothing is pending leaves at once, and is all that is pending. */
  lemma SendAlone(e: Endpoint, payload: Payload)
    requires e.open && e.queue.entries.Keys == {}
    ensures var f := RunCall(e, Send(payload));
            && f == e.(next := f.next, rx := f.rx, queue := f.queue, log := f.log) && f.rx.receiving
            && f.queue.entries.Keys == {e.next} && f.queue.entries[e.next].job.index == |e.log.issued|
            && f.log == e.log.(issued := e.log.issued + [Data(payload)], ordered := f.log.ordered,
                               sent := f.log.sent, steps := f.log.steps)
            && |f.log.sent| == |e.log.sent| + 1 && e.log.sent <= f.log.sent
            && f.log.sent[|e.log.sent|].content == Data(payload) && f.log.sent[|e.log.sent|].index == |e.log.issued|
  {
    var issued := StartReceive(Issue(e, Data(payload)));
    var job := Job(Data(payload), e.next, None, |e.log.issued|, 0);
    OneHandler(ApplyEffect(issued, Pushed(issued.queue, e.next, Entry(|payload|, job))), []);
  }

  /** Expected data completes the waiting receive, and the keepalive that acknowledges it is sent. */
  ghost predicate Answered(e: Endpoint, f: Endpoint, payload: Payload) {
    && f.open && !f.fault && f.remote && f.state.Established?
    && f.queue.entries.Keys == {} && NothingWaits(f)
    && f.log.issued == e.log.issued + [Keepalive] && f.log.accepted == e.log.accepted + [Data(payload)]
    && |f.log.sent| == |e.log.sent| + 1 && e.log.sent <= f.log.sent
    && f.log.sent[|e.log.sent|].content.Keepalive?
    && f.log.sent[|e.log.sent|].index == |e.log.issued| && f.log.sent[|e.log.sent|].ackIndex == |e.log.accepted|
    && f.log.sent[|e.log.sent|].ack.Some?
  }

  lemma DataAnswered(e: Endpoint, number: nat, payload: Payload)
    requires e.open && !e.fault && e.remote && e.state.Established? && e.queue.entries.Keys == {}
    requires |e.input| == 1 && e.output == [] && e.claims == []
    requires number <= MAX && IsExpected(e, number)
    ensures Answered(e, ProcessData(e, number, payload, []), payload)
  {
    FrontAfterAccept(e.history, number);
  }

  lemma FrontAfterAccept(history: seq<nat>, number: nat)
    requires OnCircle(MAX, history) && number <= MAX
    ensures Accept(MAX, history, number) != []
  {
  }

  lemma NothingToAcknowledge(e: Endpoint, ack: nat)
    requires e.state.Established? && e.queue.entries.Keys == {}
    ensures ProcessAcknowledgement(e, ack, []) == e
  {
    var fx := Acked(e.queue, ack);
    assert ack !in e.queue.entries;
    OneHandler(ApplyEffect(e, fx), fx.calls);
  }

  lemma DataDispatched(e: Endpoint, p: Packet)
    requires e.open && !e.fault && e.remote && e.state.Established? && e.queue.entries.Keys == {}
    requires |e.input| == 1 && e.output == [] && e.claims == []
    requires p.number <= MAX && IsExpected(e, p.number) && p.content.Data?
    ensures Answered(e, DispatchPacket(e, p, [], []), p.content.payload)
  {
    DataAnswered(e, p.number, p.content.payload);
    if p.ack.Some? {
      NothingToAcknowledge(ProcessData(e, p.number, p.content.payload, []), p.ack.value);
    }
  }

  // The exchange.

  /** The listener got the data; its keepalive, which is its last datagram so far, acknowledges it. */
  ghost predicate Exchanged(s: System, payload: Payload) {
    && Intact(s)
    && s.connector.open && s.connector.remote && s.connector.state.Established? && s.connector.rx.receiving
    && s.connector.input == [0] && s.connector.output == []
    && s.connector.log.issued == [Handshake, Keepalive, Data(payload)] && s.connector.log.accepted == [Handshake]
    && (forall k :: k in s.connector.queue.entries ==> s.connector.queue.entries[k].job.index == 2)
    && s.listener.open && s.listener.remote && s.listener.state.Established?
    && s.listener.queue.entries.Keys == {}
    && s.listener.log.issued == [Handshake, Keepalive]
    && s.listener.log.accepted == [Handshake, Keepalive, Data(payload)]
    && |s.listener.log.sent| > 0
    && var p := s.listener.log.sent[|s.listener.log.sent| - 1];
    p.content.Keepalive? && p.index == 1 && p.ackIndex == 2 && p.ack.Some?
  }

  /** The connector waits for data. */
  ghost predicate Asked(s: System) {
    && Intact(s) && Idle(s.connector.(input := [])) && s.connector.input == [0] && Idle(s.listener)
    && s.connector.log.issued == [Handshake, Keepalive] && s.connector.log.accepted == [Handshake]
    && s.listener.log.issued == [Handshake] && s.listener.log.accepted == [Handshake, Keepalive]
  }

  lemma ConnectorAsks(s: System)
    requires Standing(s)
    ensures var event := Event.Call(Connector, Receive(0));
            Enabled(s, event) && Asked(Step(s, event))
  {
    ReceiveWaits(s.connector, 0);
    NextSafe(s, Event.Call(Connector, Receive(0)));
  }

  /** Its own data is on its way, though the listener does not wait for it yet. */
  ghost predicate Sending(s: System, payload: Payload) {
    && Intact(s)
    && s.connector.open && s.connector.remote && s.connector.state.Established? && s.connector.rx.receiving
    && s.connector.input == [0] && s.connector.output == []
    && s.connector.log.issued == [Handshake, Keepalive, Data(payload)] && s.connector.log.accepted == [Handshake]
    && (forall k :: k in s.connector.queue.entries ==> s.connector.queue.entries[k].job.index == 2)
    && |s.connector.log.sent| > 0
    && s.connector.log.sent[|s.connector.log.sent| - 1].content == Data(payload)
    && s.connector.log.sent[|s.connector.log.sent| - 1].index == 2
    && Idle(s.listener.(input := [])) && s.listener.log.issued == [Handshake]
    && s.listener.log.accepted == [Handshake, Keepalive]
  }

  /** The connector waits for data, and its own data is on its way to a listener that waits for it. */
  ghost predicate Underway(s: System, payload: Payload) {
    Sending(s, payload) && s.listener.input == [0] && s.listener.rx.receiving
  }

  lemma ConnectorSends(s: System, payload: Payload)
    requires Asked(s)
    ensures var event := Event.Call(Connector, Send(payload));
            Enabled(s, event) && Sending(Step(s, event), payload)
            && Step(s, event).listener == s.listener
  {
    SendAlone(s.connector, payload);
    NextSafe(s, Event.Call(Connector, Send(payload)));
  }

  lemma ListenerAsks(s: System, payload: Payload)
    requires Sending(s, payload) && s.listener.input == []
    ensures var event := Event.Call(Listener, Receive(0));
            Enabled(s, event) && Underway(Step(s, event), payload)
  {
    ReceiveWaits(s.listener, 0);
    NextSafe(s, Event.Call(Listener, Receive(0)));
  }

  /** Both sides ask for data, and the connector sends some. */
  lemma Asks(connectorBase: nat, listenerBase: nat, run: seq<Event>, s: System, payload: Payload)
    returns (longer: seq<Event>, t: System)
    requires Attained(connectorBase, listenerBase, run, s) && Standing(s)
    ensures Attained(connectorBase, listenerBase, longer, t) && Underway(t, payload)
  {
    var ask, send, wait := Event.Call(Connector, Receive(0)), Event.Call(Connector, Send(payload)),
                           Event.Call(Listener, Receive(0));
    ConnectorAsks(s);
    Continue(connectorBase, listenerBase, run, s, ask);
    longer, t := run + [ask], Step(s, ask);
    ConnectorSends(t, payload);
    Continue(connectorBase, listenerBase, longer, t, send);
    longer, t := longer + [send], Step(t, send);
    ListenerAsks(t, payload);
    Continue(connectorBase, listenerBase, longer, t, wait);
    longer, t := longer + [wait], Step(t, wait);
  }

  lemma DataIsNext(s: System, payload: Payload)
    requires Underway(s, payload)
    ensures var event := Deliver(Listener, |s.connector.log.sent| - 1, [], []);
            Enabled(s, event) && Meets(WhileReceiving, s, event)
    ensures IsExpected(s.listener, s.connector.log.sent[|s.connector.log.sent| - 1].number)
  {
    var p := s.connector.log.sent[|s.connector.log.sent| - 1];
    DatagramFacts(s, Connector, |s.connector.log.sent| - 1);
    ExpectedIsNext(RoleOf(s, Listener), s.listener, p.number, 2);
  }

  lemma AnsweredIsExchanged(s: System, f: Endpoint, payload: Payload)
    requires Underway(s, payload) && Answered(s.listener, f, payload) && Safe(With(s, Listener, f))
    ensures Exchanged(With(s, Listener, f), payload)
  {
  }

  lemma DataStep(s: System, payload: Payload)
    requires Underway(s, payload) && Enabled(s, Deliver(Listener, |s.connector.log.sent| - 1, [], []))
    ensures var p := s.connector.log.sent[|s.connector.log.sent| - 1];
            && p.number <= MAX
            && Step(s, Deliver(Listener, |s.connector.log.sent| - 1, [], []))
               == With(s, Listener, DispatchPacket(s.listener, p, [], []))
  {
  }

  lemma DataArrives(s: System, payload: Payload)
    requires Underway(s, payload)
    ensures var event := Deliver(Listener, |s.connector.log.sent| - 1, [], []);
            Enabled(s, event) && Meets(WhileReceiving, s, event) && Exchanged(Step(s, event), payload)
  {
    DataIsNext(s, payload);
    DataStep(s, payload);
    var p := s.connector.log.sent[|s.connector.log.sent| - 1];
    DataDispatched(s.listener, p);
    NextSafe(s, Deliver(Listener, |s.connector.log.sent| - 1, [], []));
    AnsweredIsExchanged(s, DispatchPacket(s.listener, p, [], []), payload);
  }

  /** From any initial numbers a connection comes to this point. */
  lemma CanExchange(connectorBase: nat, listenerBase: nat, payload: Payload) returns (run: seq<Event>, s: System)
    requires connectorBase <= MAX && listenerBase <= MAX
    ensures Attained(connectorBase, listenerBase, run, s) && Exchanged(s, payload)
  {
    run, s := BothCanEstablish(connectorBase, listenerBase);
    run, s := Asks(connectorBase, listenerBase, run, s, payload);
    var event := Deliver(Listener, |s.connector.log.sent| - 1, [], []);
    DataArrives(s, payload);
    Continue(connectorBase, listenerBase, run, s, event);
    run, s := run + [event], Step(s, event);
  }

  // The keepalive is lost.

  /** Whatever happens from here on without the listener's datagram j, the connector accepts nothing more. */
  ghost predicate BlockedWithout(s: System, j: nat) {
    forall run :: IsRun(s, run) && Loses(run, Connector, j) ==>
      Reached(s, run).connector.log.accepted == s.connector.log.accepted
  }

  /**
   A connection that stands, and is stuck if one datagram is lost: the listener's keepalive j is in the
   network and the next packet for the connector, data that the listener sent later is there too, and
   without the keepalive that data is never accepted.
   */
  ghost predicate StuckWithout(s: System, j: nat, k: nat) {
    && s.connector.state.Established? && s.listener.state.Established? && !s.failed
    && AwaitsKeepalive(s, Connector, j)
    && j < k < |s.listener.log.sent| && s.listener.log.sent[k].content.Data?
    && s.listener.log.sent[k].index > s.listener.log.sent[j].index
    && BlockedWithout(s, j)
  }

  lemma AlwaysBlocks(s: System, j: nat)
    requires Safe(s) && AwaitsKeepalive(s, Connector, j)
    ensures BlockedWithout(s, j)
  {
    forall run | IsRun(s, run) && Loses(run, Connector, j)
      ensures Reached(s, run).connector.log.accepted == s.connector.log.accepted
    {
      LostKeepaliveBlocks(s, run, Connector, j);
    }
  }

  lemma SendsAfterKeepalive(s: System, data: Payload, payload: Payload)
    requires Exchanged(s, data)
    ensures var event, j := Event.Call(Listener, Send(payload)), |s.listener.log.sent| - 1;
            Enabled(s, event) && StuckWithout(Step(s, event), j, j + 1)
  {
    var event := Event.Call(Listener, Send(payload));
    SendAlone(s.listener, payload);
    NextSafe(s, event);
    AlwaysBlocks(Step(s, event), |s.listener.log.sent| - 1);
  }

  lemma SendStep(connectorBase: nat, listenerBase: nat, run: seq<Event>, s: System, payload: Payload)
    requires Attained(connectorBase, listenerBase, run, s) && Enabled(s, Event.Call(Listener, Send(payload)))
    ensures var event := Event.Call(Listener, Send(payload));
            Attained(connectorBase, listenerBase, run + [event], Step(s, event))
  {
    Continue(connectorBase, listenerBase, run, s, Event.Call(Listener, Send(payload)));
  }

  /** From any initial numbers a connection can get stuck. */
  lemma OneLossCanBlock(connectorBase: nat, listenerBase: nat, payload: Payload)
    returns (run: seq<Event>, s: System, j: nat, k: nat)
    requires connectorBase <= MAX && listenerBase <= MAX
    ensures Attained(connectorBase, listenerBase, run, s) && StuckWithout(s, j, k)
  {
    run, s := CanExchange(connectorBase, listenerBase, payload);
    SendsAfterKeepalive(s, payload, payload);
    SendStep(connectorBase, listenerBase, run, s, payload);
    var event := Event.Call(Listener, Send(payload));
    j, k := |s.listener.log.sent| - 1, |s.listener.log.sent|;
    run, s := run + [event], Step(s, event);
  }

  // The keepalive arrives.

  lemma KeepaliveIsNext(s: System, data: Payload)
    requires Exchanged(s, data)
    ensures var event := Deliver(Connector, |s.listener.log.sent| - 1, [], []);
            Enabled(s, event) && Meets(WhileReceiving, s, event)
    ensures IsExpected(s.connector, s.listener.log.sent[|s.listener.log.sent| - 1].number)
  {
    var p := s.listener.log.sent[|s.listener.log.sent| - 1];
    DatagramFacts(s, Listener, |s.listener.log.sent| - 1);
    ExpectedIsNext(RoleOf(s, Connector), s.connector, p.number, 1);
  }

  lemma KeepaliveNamesData(s: System, data: Payload)
    requires Exchanged(s, data)
    ensures s.listener.log.sent[|s.listener.log.sent| - 1].number <= MAX
    ensures var ack := s.listener.log.sent[|s.listener.log.sent| - 1].ack.value;
            (s.connector.queue.entries - {ack}).Keys == {}
  {
    DatagramFacts(s, Listener, |s.listener.log.sent| - 1);
    forall k | k in s.connector.queue.entries
      ensures k == s.listener.log.sent[|s.listener.log.sent| - 1].ack.value
    {
      assert JobOk(RoleOf(s, Connector), s.connector.log.issued, |s.connector.log.accepted|,
                   s.connector.queue.entries[k].job);
    }
  }

  /** A signal that acknowledges all that is pending, with nobody reacting, leaves a waiting receive stalled. */
  lemma SignalStalls(e: Endpoint, p: Packet)
    requires p.number <= MAX && p.ack.Some? && e.open && !e.fault && e.input != [] && e.output == []
    requires (e.queue.entries - {p.ack.value}).Keys == {}
    requires || (p.content.Keepalive? && IsExpected(e, p.number) && !e.state.Closed? && !e.state.Connecting?)
             || (p.content.Handshake? && e.state.Connecting?)
    ensures Stalled(DispatchPacket(e, p, [], []))
  {
    if p.content.Keepalive? {
      KeepaliveStallsIff(e, p.number, p.ack.value, [], []);
    } else {
      HandshakeStallsIff(e, p.number, p.ack.value, [], []);
    }
  }

  lemma KeepaliveStalls(s: System, data: Payload)
    requires Exchanged(s, data) && Enabled(s, Deliver(Connector, |s.listener.log.sent| - 1, [], []))
    requires IsExpected(s.connector, s.listener.log.sent[|s.listener.log.sent| - 1].number)
    ensures Stalled(Step(s, Deliver(Connector, |s.listener.log.sent| - 1, [], [])).connector)
  {
    KeepaliveNamesData(s, data);
    DeliveredEnd(s, Deliver(Connector, |s.listener.log.sent| - 1, [], []));
    SignalStalls(s.connector, s.listener.log.sent[|s.listener.log.sent| - 1]);
  }

  /** From any initial numbers a connection can leave a waiting receive without a datagram to wait for. */
  lemma ReceiveCanStall(connectorBase: nat, listenerBase: nat, payload: Payload) returns (run: seq<Event>, s: System)
    requires connectorBase <= MAX && listenerBase <= MAX
    ensures Attained(connectorBase, listenerBase, run, s) && Stalled(s.connector)
    ensures !s.failed && !s.connector.fault && !s.listener.fault
  {
    run, s := CanExchange(connectorBase, listenerBase, payload);
    var event := Deliver(Connector, |s.listener.log.sent| - 1, [], []);
    KeepaliveIsNext(s, payload);
    KeepaliveStalls(s, payload);
    Continue(connectorBase, listenerBase, run, s, event);
    run, s := run + [event], Step(s, event);
    HandshakeAgreement(connectorBase, listenerBase, run, s);
  }

  // Receives issued before the connection stands.

  /** The reply is on its way to a connector that waits for data already. */
  ghost predicate AskedEarly(s: System) {
    && Intact(s) && s.toConnector == 0
    && s.connector.open && s.connector.remote && s.connector.rx.receiving && s.connector.state.Connecting?
    && s.connector.log.issued == [Handshake] && s.connector.log.accepted == []
    && s.connector.input == [0] && s.connector.output == []
    && |s.listener.log.sent| > 0 && s.listener.log.sent[0].content.Handshake?
  }

  lemma ConnectorAsksEarly(s: System)
    requires Replied(s, [])
    ensures var event := Event.Call(Connector, Receive(0));
            Enabled(s, event) && AskedEarly(Step(s, event))
  {
    NothingAcceptedYet(s);
    ReceiveWaits(s.connector, 0);
    NextSafe(s, Event.Call(Connector, Receive(0)));
  }

  lemma EarlyReplyArrives(s: System)
    requires AskedEarly(s)
    ensures Enabled(s, Deliver(Connector, 0, [], [])) && Meets(WhileReceiving, s, Deliver(Connector, 0, [], []))
  {
    FirstIsFresh(s, Listener, 0);
  }

  lemma ReplyNames(s: System)
    requires AskedEarly(s)
    ensures s.listener.log.sent[0].number <= MAX
    ensures s.listener.log.sent[0].ack == Some(Raw(RoleOf(s, Connector).base))
  {
    DatagramFacts(s, Listener, 0);
  }

  lemma ReplyNamesOnly(s: System)
    requires AskedEarly(s)
    ensures var p := s.listener.log.sent[0];
            && p.number <= MAX && p.ack.Some? && (s.connector.queue.entries - {p.ack.value}).Keys == {}
  {
    ReplyNames(s);
    EndsAreOk(s, Connector);
    OnlyHandshakePending(RoleOf(s, Connector), s.connector);
  }

  lemma HandshakeStalls(s: System)
    requires AskedEarly(s) && Enabled(s, Deliver(Connector, 0, [], []))
    ensures Stalled(Step(s, Deliver(Connector, 0, [], [])).connector)
  {
    ReplyNamesOnly(s);
    DeliveredEnd(s, Deliver(Connector, 0, [], []));
    SignalStalls(s.connector, s.listener.log.sent[0]);
  }

  /** The handshake that establishes a connector can leave its waiting receive without a datagram to wait for. */
  lemma ConnectorCanStall(connectorBase: nat, listenerBase: nat) returns (run: seq<Event>, s: System)
    requires connectorBase <= MAX && listenerBase <= MAX
    ensures Attained(connectorBase, listenerBase, run, s) && Stalled(s.connector)
    ensures !s.failed && !s.connector.fault && !s.listener.fault
  {
    run, s := BothCalled(connectorBase, listenerBase);
    HandshakeArrives(s, []);
    ListenerReplies(s, []);
    Continue(connectorBase, listenerBase, run, s, Deliver(Listener, 0, [], []));
    run, s := run + [Deliver(Listener, 0, [], [])], Step(s, Deliver(Listener, 0, [], []));
    ConnectorAsksEarly(s);
    Continue(connectorBase, listenerBase, run, s, Event.Call(Connector, Receive(0)));
    run, s := run + [Event.Call(Connector, Receive(0))], Step(s, Event.Call(Connector, Receive(0)));
    EarlyReplyArrives(s);
    HandshakeStalls(s);
    Continue(connectorBase, listenerBase, run, s, Deliver(Connector, 0, [], []));
    run, s := run + [Deliver(Connector, 0, [], [])], Step(s, Deliver(Connector, 0, [], []));
    HandshakeAgreement(connectorBase, listenerBase, run, s);
  }

  /** The keepalive that completes its handshake is on its way to a listener that waits for data already. */
  ghost predicate ListenerAskedEarly(s: System) {
    && Intact(s)
    && s.listener.open && !s.listener.remote && s.listener.state.Listening?
    && s.listener.input == [0] && s.listener.output == []
    && s.listener.log.issued == [Handshake] && s.listener.log.accepted == [Handshake]
    && |s.connector.log.sent| > 1 && s.connector.log.sent[1].content.Keepalive? && s.connector.log.sent[1].index == 1
  }

  lemma GreetedListener(s: System)
    requires Greeted(s, [])
    ensures var e := s.listener;
            && e.open && e.state.Listening? && e.log.issued == [Handshake] && e.log.accepted == [Handshake]
  {
    GreetingArrives(s, []);
    GreetingNamesHandshake(s);
  }

  lemma ListenerAsksEarly(s: System)
    requires Greeted(s, [])
    ensures var event := Event.Call(Listener, Receive(0));
            Enabled(s, event) && ListenerAskedEarly(Step(s, event))
  {
    GreetedListener(s);
    ReceiveWaits(s.listener, 0);
    NextSafe(s, Event.Call(Listener, Receive(0)));
  }

  lemma EarlyGreetingArrives(s: System)
    requires ListenerAskedEarly(s)
    ensures Enabled(s, Deliver(Listener, 1, [], [])) && Meets(WhileReceiving, s, Deliver(Listener, 1, [], []))
  {
    DatagramFacts(s, Connector, 1);
  }

  lemma GreetingNames(s: System)
    requires ListenerAskedEarly(s)
    ensures var p := s.connector.log.sent[1];
            p.number == Raw(RoleOf(s, Listener).peer + 1) && p.ack == Some(Raw(RoleOf(s, Listener).base))
  {
    DatagramFacts(s, Connector, 1);
  }

  lemma GreetingNamesOnly(s: System)
    requires ListenerAskedEarly(s)
    ensures var p := s.connector.log.sent[1];
            && p.number <= MAX && p.ack.Some? && (s.listener.queue.entries - {p.ack.value}).Keys == {}
            && IsExpected(s.listener, p.number)
  {
    GreetingNames(s);
    EndsAreOk(s, Listener);
    OnlyHandshakePending(RoleOf(s, Listener), s.listener);
    ExpectedIsNext(RoleOf(s, Listener), s.listener, s.connector.log.sent[1].number, 1);
  }

  lemma GreetingStalls(s: System)
    requires ListenerAskedEarly(s) && Enabled(s, Deliver(Listener, 1, [], []))
    ensures Stalled(Step(s, Deliver(Listener, 1, [], [])).listener)
  {
    GreetingNamesOnly(s);
    DeliveredEnd(s, Deliver(Listener, 1, [], []));
    SignalStalls(s.listener, s.connector.log.sent[1]);
  }

  /** The keepalive that establishes a listener can do the same. */
  lemma ListenerCanStall(connectorBase: nat, listenerBase: nat) returns (run: seq<Event>, s: System)
    requires connectorBase <= MAX && listenerBase <= MAX
    ensures Attained(connectorBase, listenerBase, run, s) && Stalled(s.listener)
    ensures !s.failed && !s.connector.fault && !s.listener.fault
  {
    run, s := BothCalled(connectorBase, listenerBase);
    run, s := Shakes(connectorBase, listenerBase, run, s, []);
    ListenerAsksEarly(s);
    Continue(connectorBase, listenerBase, run, s, Event.Call(Listener, Receive(0)));
    run, s := run + [Event.Call(Listener, Receive(0))], Step(s, Event.Call(Listener, Receive(0)));
    EarlyGreetingArrives(s);
    GreetingStalls(s);
    Continue(connectorBase, listenerBase, run, s, Deliver(Listener, 1, [], []));
    run, s := run + [Deliver(Listener, 1, [], [])], Step(s, Deliver(Listener, 1, [], []));
    HandshakeAgreement(connectorBase, listenerBase, run, s);
  }
}
