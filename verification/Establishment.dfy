/**
 The promises about runs are not empty: from any initial numbers a run that delivers datagrams only where
 they are waited for establishes both sides, with or without data sent before the connection stands.
 */
module Establishments {
  import opened Wrappers
  import opened TransmitQueues
  import opened Endpoints
  import opened EndpointFacts
  import opened Deliveries
  import opened Disciplines
  import opened ReceiveFacts
  import opened Connections
  import opened ConnectionRuns

  lemma {:induction false} RunExtends(s: System, run: seq<Event>, event: Event)
    requires IsRun(s, run) && Enabled(Reached(s, run), event)
    ensures IsRun(s, run + [event]) && Reached(s, run + [event]) == Step(Reached(s, run), event)
    decreases |run|
  {
    var longer := run + [event];
    if run == [] {
      assert longer[1..] == [];
    } else {
      assert longer[1..] == run[1..] + [event];
      RunExtends(Step(s, run[0]), run[1..], event);
    }
  }

  lemma {:induction false} ConditionExtends(c: Condition, s: System, run: seq<Event>, event: Event)
    requires IsRun(s, run) && Enabled(Reached(s, run), event) && IsRun(s, run + [event])
    requires Throughout(c, s, run) && Meets(c, Reached(s, run), event)
    ensures Throughout(c, s, run + [event])
    decreases |run|
  {
    var longer := run + [event];
    if run == [] {
      assert longer[1..] == [];
    } else {
      assert longer[1..] == run[1..] + [event];
      ConditionExtends(c, Step(s, run[0]), run[1..], event);
    }
  }

  /** A state reached by a run in which no datagram comes unawaited. */
  ghost predicate Attained(connectorBase: nat, listenerBase: nat, run: seq<Event>, s: System) {
    && Reaches(connectorBase, listenerBase, run, s)
    && Throughout(WhileReceiving, Start(connectorBase, listenerBase), run)
  }

  lemma Continue(connectorBase: nat, listenerBase: nat, run: seq<Event>, s: System, event: Event)
    requires Attained(connectorBase, listenerBase, run, s)
    requires Enabled(s, event) && Meets(WhileReceiving, s, event)
    ensures Attained(connectorBase, listenerBase, run + [event], Step(s, event))
  {
    RunExtends(Start(connectorBase, listenerBase), run, event);
    ConditionExtends(WhileReceiving, Start(connectorBase, listenerBase), run, event);
  }

  ghost predicate Intact(s: System) {
    Safe(s) && !s.failed && s.closed == {} && !s.connector.fault && !s.listener.fault
  }

  /** No receive and no data waits. */
  predicate NothingWaits(e: Endpoint) {
    e.input == [] && e.output == [] && e.claims == []
  }

  ghost predicate Unused(s: System) {
    NothingWaits(s.connector) && NothingWaits(s.listener)
  }

  /** An acknowledgement that nobody reacts to: the queue's reaction, and receiving goes on if packets are pending. */
  lemma NoReaction(e: Endpoint, ack: nat)
    requires !Acknowledge(e).fault
    ensures var acked := ApplyAck(Acknowledge(e), ack);
            ProcessAcknowledgement(e, ack, []) == if acked.queue.entries.Keys != {} then StartReceive(acked) else acked
  {
  }

  lemma AcknowledgementSame(e: Endpoint, ack: nat)
    requires !Acknowledge(e).fault
    ensures SameReceives(e, ProcessAcknowledgement(e, ack, []))
  {
    NoReaction(e, ack);
    AcknowledgeChanges(e);
    ApplyAckChanges(Acknowledge(e), ack);
  }

  lemma ProcessedSame(e: Endpoint, p: Packet)
    requires p.number <= MAX && !p.content.Data?
    ensures SameReceives(e, ProcessedPacket(e, p, []))
  {
    if p.content.Handshake? {
      HandshakeSame(e, p.number);
    }
  }

  /** A handshake or keepalive, with nobody reacting to its acknowledgement, leaves the receives alone. */
  lemma MessageSame(e: Endpoint, p: Packet)
    requires p.number <= MAX && !p.content.Data?
    ensures SameReceives(e, DispatchPacket(e, p, [], []))
  {
    ProcessedSame(e, p);
    AnsweredSame(ProcessedPacket(e, p, []), p.ack);
  }

  lemma AnsweredSame(processed: Endpoint, ack: Option<nat>)
    ensures SameReceives(processed, if ack.None? || processed.fault then processed
                                    else ProcessAcknowledgement(processed, ack.value, []))
  {
    if ack.Some? && !Acknowledge(processed).fault {
      AcknowledgementSame(processed, ack.value);
    }
  }

  /** The queue and the numbers after an acknowledgement that nobody reacts to. */
  lemma AcknowledgedQuietly(e: Endpoint, ack: nat)
    requires !Acknowledge(e).fault
    ensures var f := ProcessAcknowledgement(e, ack, []);
            && f.log.issued == e.log.issued && f.log.accepted == e.log.accepted
            && f.queue.entries == e.queue.entries - {ack}
            && (f.queue.entries.Keys == {} ==> f.rx == e.rx)
  {
    NoReaction(e, ack);
    AcknowledgeChanges(e);
    ApplyAckChanges(Acknowledge(e), ack);
  }

  /** An endpoint that numbered nothing but its handshake has nothing else pending. */
  lemma OnlyHandshakePending(r: Role, e: Endpoint)
    requires Ok(r, e) && |e.log.issued| == 1
    ensures (e.queue.entries - {Raw(r.base)}).Keys == {}
  {
    forall k | k in e.queue.entries
      ensures k == Raw(r.base)
    {
      assert JobOk(r, e.log.issued, |e.log.accepted|, e.queue.entries[k].job);
    }
  }

  /** Pushed into an empty queue, a packet is transmitted and no handler runs. */
  lemma EnqueueAlone(e: Endpoint, job: Job, size: nat)
    requires e.queue.entries.Keys == {}
    ensures var f := Enqueue(e, job, size);
            && f == e.(queue := f.queue, log := f.log) && f.queue.entries.Keys == {job.number}
            && f.log == e.log.(sent := f.log.sent, steps := f.log.steps)
            && |f.log.sent| == |e.log.sent| + 1 && f.log.sent[|e.log.sent|].content == job.content
  {
    OneHandler(ApplyEffect(e, Pushed(e.queue, job.number, Entry(size, job))), []);
  }

  lemma ConnectSendsHandshake(e: Endpoint)
    requires e.open && e.state.Closed? && e.queue.entries.Keys == {}
    ensures var f := Connect(e);
            && f.remote && f.open && f.rx.receiving && f.fault == e.fault && f.queue.entries.Keys == {e.next}
            && f.log.issued == e.log.issued + [Handshake]
            && |f.log.sent| == |e.log.sent| + 1 && f.log.sent[|e.log.sent|].content.Handshake?
            && SameReceives(e, f)
  {
    ConnectSame(e);
    var issued := StartReceive(Issue(e.(state := Connecting, remote := true), Handshake));
    EnqueueAlone(issued, Job(Handshake, e.next, None, |e.log.issued|, LastAccepted(e)), 0);
  }

  /** With another packet pending new data is only queued. */
  lemma SendBehindOthers(e: Endpoint, payload: Payload)
    requires e.open && e.queue.entries.Keys != {}
    ensures var f := RunCall(e, Send(payload));
            && f.remote == e.remote && f.open && f.rx.receiving && f.fault == e.fault
            && f.log.sent == e.log.sent && f.log.issued == e.log.issued + [Data(payload)]
            && SameReceives(e, f)
  {
    SendDataSame(e, payload);
    var issued := StartReceive(Issue(e, Data(payload)));
    var job := Job(Data(payload), e.next, None, |e.log.issued|, 0);
    var fx := Pushed(issued.queue, e.next, Entry(|payload|, job));
    OneHandler(ApplyEffect(issued, fx), fx.calls);
  }

  /** Both sides are called, and the connector may have sent something already: its handshake is in the network. */
  ghost predicate Called(s: System, early: seq<Payload>) {
    && Intact(s) && Unused(s)
    && s.toListener == 0 && s.toConnector == 0 && s.listener.open
    && s.connector.remote && s.connector.rx.receiving
    && s.connector.log.issued == [Handshake] + Contents(early)
    && |s.connector.log.sent| == 1 && s.connector.log.sent[0].content.Handshake?
  }

  function Contents(payloads: seq<Payload>): (r: seq<Content>)
    ensures |r| == |payloads| && forall i :: 0 <= i < |r| ==> r[i] == Data(payloads[i])
  {
    seq(|payloads|, i requires 0 <= i < |payloads| => Data(payloads[i]))
  }

  /** The listener accepted, and nothing else happened yet. */
  ghost predicate Accepting(s: System) {
    && Intact(s) && Unused(s) && s.listener.open && s.toListener == 0 && s.toConnector == 0
    && s.connector.open && s.connector.state.Closed? && s.connector.queue.entries.Keys == {}
    && s.connector.log.issued == [] && s.connector.log.sent == []
  }

  lemma StartIsIntact(connectorBase: nat, listenerBase: nat)
    requires connectorBase <= MAX && listenerBase <= MAX
    ensures var start := Start(connectorBase, listenerBase);
            Enabled(start, CallAccept) && Accepting(Step(start, CallAccept))
  {
    StartSafe(connectorBase, listenerBase);
    NextSafe(Start(connectorBase, listenerBase), CallAccept);
  }

  lemma StartIsAttained(connectorBase: nat, listenerBase: nat)
    requires connectorBase <= MAX && listenerBase <= MAX
    ensures Attained(connectorBase, listenerBase, [], Start(connectorBase, listenerBase))
  {
  }

  lemma CalledAfterConnect(s: System)
    requires Accepting(s)
    ensures Enabled(s, CallConnect)
    ensures Called(Step(s, CallConnect), []) && Step(s, CallConnect).connector.queue.entries.Keys != {}
  {
    ConnectSendsHandshake(s.connector);
    NextSafe(s, CallConnect);
  }

  /** The listener accepts; then the connector connects. */
  lemma BothCalled(connectorBase: nat, listenerBase: nat) returns (run: seq<Event>, s: System)
    requires connectorBase <= MAX && listenerBase <= MAX
    ensures Attained(connectorBase, listenerBase, run, s) && Called(s, []) && s.connector.queue.entries.Keys != {}
  {
    run, s := ListenerAccepts(connectorBase, listenerBase);
    CalledAfterConnect(s);
    Continue(connectorBase, listenerBase, run, s, CallConnect);
    run, s := run + [CallConnect], Step(s, CallConnect);
  }

  lemma ListenerAccepts(connectorBase: nat, listenerBase: nat) returns (run: seq<Event>, s: System)
    requires connectorBase <= MAX && listenerBase <= MAX
    ensures Attained(connectorBase, listenerBase, run, s) && Accepting(s)
  {
    var start := Start(connectorBase, listenerBase);
    StartIsIntact(connectorBase, listenerBase);
    StartIsAttained(connectorBase, listenerBase);
    Continue(connectorBase, listenerBase, [], start, CallAccept);
    run, s := [] + [CallAccept], Step(start, CallAccept);
  }

  /** The connector sends before it is connected. */
  lemma SendsEarly(s: System, payload: Payload)
    requires Called(s, []) && s.connector.queue.entries.Keys != {}
    ensures Enabled(s, Event.Call(Connector, Send(payload)))
    ensures Called(Step(s, Event.Call(Connector, Send(payload))), [payload])
  {
    var event := Event.Call(Connector, Send(payload));
    SendBehindOthers(s.connector, payload);
    NextSafe(s, event);
    CalledEarly(s, Step(s, event), payload);
  }

  lemma CalledEarly(s: System, t: System, payload: Payload)
    requires Called(s, []) && Safe(t) && t == s.(connector := t.connector)
    requires var e, f := s.connector, t.connector;
             && f.remote == e.remote && f.open && f.rx.receiving && f.fault == e.fault
             && f.log.sent == e.log.sent && f.log.issued == e.log.issued + [Data(payload)]
             && SameReceives(e, f)
    ensures Called(t, [payload])
  {
  }

  /** The listener got the handshake and replied. */
  ghost predicate Replied(s: System, early: seq<Payload>) {
    && Intact(s) && Unused(s)
    && s.toListener == 1 && s.toConnector == 0 && !s.listener.remote
    && s.connector.remote && s.connector.rx.receiving
    && s.connector.log.issued == [Handshake] + Contents(early) && |s.connector.log.sent| == 1
    && |s.listener.log.sent| > 0 && s.listener.log.sent[0].content.Handshake?
  }

  lemma HandshakeArrives(s: System, early: seq<Payload>)
    requires Called(s, early)
    ensures Enabled(s, Deliver(Listener, 0, [], [])) && Meets(WhileReceiving, s, Deliver(Listener, 0, [], []))
  {
    DatagramFacts(s, Connector, 0);
  }

  lemma NothingSent(s: System)
    requires Invariant(s) && s.toListener == 0
    ensures s.listener.log.sent == []
  {
    if s.listener.log.sent != [] {
      DatagramFacts(s, Listener, 0);
    }
  }

  lemma ListenerReplies(s: System, early: seq<Payload>)
    requires Called(s, early) && Enabled(s, Deliver(Listener, 0, [], []))
    ensures Replied(Step(s, Deliver(Listener, 0, [], [])), early)
  {
    DatagramFacts(s, Connector, 0);
    NothingSent(s);
    MessageSame(s.listener, s.connector.log.sent[0]);
    ListenerMeetsHandshake(RoleOf(s, Listener), s.listener, s.connector.log.sent[0], [], []);
    NextSafe(s, Deliver(Listener, 0, [], []));
  }

  /** The connector got the reply, is established, and sent its keepalive. */
  ghost predicate Greeted(s: System, early: seq<Payload>) {
    && Intact(s) && Unused(s)
    && s.toListener == 1 && s.toConnector == 1 && !s.listener.remote
    && |s.connector.log.issued| > 1
    && s.connector.log.issued[1] == (if early == [] then Keepalive else Data(early[0]))
    && |s.connector.log.sent| > 1 && s.connector.log.sent[1].content.Keepalive?
    && s.connector.log.sent[1].index == 1 + |early|
    && (early == [] ==> s.connector.log.issued == [Handshake, Keepalive] && s.connector.queue.entries.Keys == {})
  }

  lemma NothingAcceptedYet(s: System)
    requires Invariant(s) && s.toConnector == 0
    ensures s.connector.log.accepted == []
  {
  }

  lemma ReplyArrives(s: System, early: seq<Payload>)
    requires Replied(s, early)
    ensures Enabled(s, Deliver(Connector, 0, [], [])) && Meets(WhileReceiving, s, Deliver(Connector, 0, [], []))
  {
    NothingAcceptedYet(s);
    FirstIsFresh(s, Listener, 0);
  }

  /** The first packet of a side is fresh for a peer that accepted nothing. */
  lemma FirstIsFresh(s: System, from: Side, j: nat)
    requires Invariant(s) && j < |End(s, from).log.sent| && End(s, from).log.sent[j].content.Handshake?
    requires End(s, Other(from)).log.accepted == []
    ensures FreshPacket(RoleOf(s, Other(from)), End(s, Other(from)), End(s, from).log.sent[j])
  {
    DatagramFacts(s, from, j);
  }

  /** The reply acknowledges the connector's handshake, which is all it has pending if it sent nothing early. */
  lemma ReplyCompletesHandshake(r: Role, e: Endpoint, p: Packet)
    requires Ok(r, e) && e.log.issued == [Handshake] && e.state.Connecting? && !e.fault
    requires p.number <= MAX && p.content.Handshake? && p.ack == Some(Raw(r.base))
    ensures var f := DispatchPacket(e, p, [], []);
            f.log.issued == [Handshake, Keepalive] && f.queue.entries.Keys == {}
  {
    OnlyHandshakePending(r, e);
    AcknowledgedQuietly(ProcessHandshake(e, p.number), Raw(r.base));
  }

  lemma StillConnecting(s: System)
    requires Replied(s, [])
    ensures s.connector.state.Connecting? && s.connector.log.issued == [Handshake]
    ensures Ok(RoleOf(s, Connector), s.connector)
  {
  }

  lemma ReplyNamesHandshake(s: System)
    requires Replied(s, [])
    ensures s.listener.log.sent[0].ack == Some(Raw(RoleOf(s, Connector).base))
    ensures s.listener.log.sent[0].number <= MAX
  {
    StillConnecting(s);
    DatagramFacts(s, Listener, 0);
  }

  lemma ReplyDispatched(s: System, early: seq<Payload>)
    requires Replied(s, early) && Enabled(s, Deliver(Connector, 0, [], []))
    ensures Connected(s.connector, DispatchPacket(s.connector, s.listener.log.sent[0], [], []))
  {
    DatagramFacts(s, Listener, 0);
    ConnectorMeetsHandshake(RoleOf(s, Connector), s.connector, s.listener.log.sent[0], [], []);
  }

  lemma ReplyStep(s: System, early: seq<Payload>)
    requires Replied(s, early) && Enabled(s, Deliver(Connector, 0, [], []))
    ensures s.listener.log.sent[0].number <= MAX
    ensures var f := DispatchPacket(s.connector, s.listener.log.sent[0], [], []);
            Step(s, Deliver(Connector, 0, [], [])) == s.(connector := f, toConnector := 1)
  {
  }

  /** The connector right after the reply. */
  ghost predicate AnswersReply(e: Endpoint, f: Endpoint, early: seq<Payload>) {
    && Connected(e, f) && SameReceives(e, f)
    && (early == [] ==> f.log.issued == [Handshake, Keepalive] && f.queue.entries.Keys == {})
  }

  lemma ConnectorGreeted(s: System, f: Endpoint, early: seq<Payload>)
    requires Replied(s, early) && AnswersReply(s.connector, f, early) && Safe(s.(connector := f, toConnector := 1))
    ensures Greeted(s.(connector := f, toConnector := 1), early)
  {
  }

  lemma ConnectorGreets(s: System, early: seq<Payload>)
    requires Replied(s, early) && Enabled(s, Deliver(Connector, 0, [], []))
    ensures Greeted(Step(s, Deliver(Connector, 0, [], [])), early)
  {
    ReplyStep(s, early);
    ReplyDispatched(s, early);
    MessageSame(s.connector, s.listener.log.sent[0]);
    if early == [] {
      StillConnecting(s);
      ReplyNamesHandshake(s);
      ReplyCompletesHandshake(RoleOf(s, Connector), s.connector, s.listener.log.sent[0]);
    }
    NextSafe(s, Deliver(Connector, 0, [], []));
    ConnectorGreeted(s, DispatchPacket(s.connector, s.listener.log.sent[0], [], []), early);
  }

  lemma GreetingArrives(s: System, early: seq<Payload>)
    requires Greeted(s, early) && |early| <= 1
    ensures Enabled(s, Deliver(Listener, 1, [], [])) && Meets(WhileReceiving, s, Deliver(Listener, 1, [], []))
  {
    DatagramFacts(s, Connector, 1);
    LaterDatagramsNeedHandshakes(s, Connector, 1);
  }

  lemma ListenerRegisters(s: System, early: seq<Payload>)
    requires Greeted(s, early) && Enabled(s, Deliver(Listener, 1, [], []))
    ensures var t := Step(s, Deliver(Listener, 1, [], []));
            && t.listener.state.Established? && t.connector.state.Established? && !t.failed
            && !s.listener.remote && t.listener.remote && t.connector == s.connector
  {
    DatagramFacts(s, Connector, 1);
    LaterDatagramsNeedHandshakes(s, Connector, 1);
    ListenerMeetsKeepalive(RoleOf(s, Listener), s.listener, s.connector.log.sent[1], [], []);
  }

  ghost predicate Idle(e: Endpoint) {
    && e.open && !e.fault && e.remote && e.state.Established?
    && e.queue.entries.Keys == {} && NothingWaits(e)
  }

  /** The connection stands, and nothing else happened yet. */
  ghost predicate Standing(s: System) {
    && Intact(s) && Idle(s.connector) && Idle(s.listener)
    && s.connector.log.issued == [Handshake, Keepalive] && s.connector.log.accepted == [Handshake]
    && s.listener.log.issued == [Handshake] && s.listener.log.accepted == [Handshake, Keepalive]
  }

  lemma GreetingNamesHandshake(s: System)
    requires Greeted(s, []) && Enabled(s, Deliver(Listener, 1, [], []))
    ensures var e, p := s.listener, s.connector.log.sent[1];
            && Ok(RoleOf(s, Listener), e) && e.log.issued == [Handshake] && e.log.accepted == [Handshake]
            && e.state.Listening? && !e.fault && e.open && IsExpected(e, p.number)
            && p.number <= MAX && p.ack == Some(Raw(RoleOf(s, Listener).base))
    ensures s.connector.open && s.connector.remote && s.connector.log.accepted == [Handshake]
    ensures s.connector.state.Established?
  {
    DatagramFacts(s, Connector, 1);
    LaterDatagramsNeedHandshakes(s, Connector, 1);
    ExpectedIsNext(RoleOf(s, Listener), s.listener, s.connector.log.sent[1].number, 1);
  }

  lemma GreetingCompletesHandshake(r: Role, e: Endpoint, p: Packet)
    requires Ok(r, e) && e.log.issued == [Handshake] && e.log.accepted == [Handshake]
    requires e.state.Listening? && !e.fault && IsExpected(e, p.number)
    requires p.number <= MAX && p.content.Keepalive? && p.ack == Some(Raw(r.base))
    ensures var f := DispatchPacket(e, p, [], []);
            && f.log.issued == [Handshake] && f.log.accepted == [Handshake, Keepalive]
            && f.queue.entries.Keys == {}
  {
    OnlyHandshakePending(r, e);
    AcknowledgedQuietly(ProcessKeepalive(e, p.number), Raw(r.base));
  }

  lemma ListenerStands(s: System)
    requires Greeted(s, []) && Enabled(s, Deliver(Listener, 1, [], []))
    ensures Standing(Step(s, Deliver(Listener, 1, [], [])))
  {
    GreetingNamesHandshake(s);
    GreetingCompletesHandshake(RoleOf(s, Listener), s.listener, s.connector.log.sent[1]);
    MessageSame(s.listener, s.connector.log.sent[1]);
    ListenerRegisters(s, []);
    GreetingFaultsNothing(s);
    NextSafe(s, Deliver(Listener, 1, [], []));
  }

  lemma GreetingFaultsNothing(s: System)
    requires Greeted(s, []) && Enabled(s, Deliver(Listener, 1, [], []))
    ensures var f := Step(s, Deliver(Listener, 1, [], [])).listener;
            !f.fault && f.open
  {
    DatagramFacts(s, Connector, 1);
    LaterDatagramsNeedHandshakes(s, Connector, 1);
    ListenerMeetsKeepalive(RoleOf(s, Listener), s.listener, s.connector.log.sent[1], [], []);
  }

  /** From the calls on: the handshake, the reply and the keepalive arrive, each one once. */
  lemma Shakes(connectorBase: nat, listenerBase: nat, run: seq<Event>, s: System, early: seq<Payload>)
    returns (longer: seq<Event>, t: System)
    requires Attained(connectorBase, listenerBase, run, s) && Called(s, early)
    ensures Attained(connectorBase, listenerBase, longer, t) && Greeted(t, early)
  {
    HandshakeArrives(s, early);
    ListenerReplies(s, early);
    Continue(connectorBase, listenerBase, run, s, Deliver(Listener, 0, [], []));
    longer, t := run + [Deliver(Listener, 0, [], [])], Step(s, Deliver(Listener, 0, [], []));
    ReplyArrives(t, early);
    ConnectorGreets(t, early);
    Continue(connectorBase, listenerBase, longer, t, Deliver(Connector, 0, [], []));
    longer, t := longer + [Deliver(Connector, 0, [], [])], Step(t, Deliver(Connector, 0, [], []));
  }

  /** From any initial numbers some run without failures establishes both sides. */
  lemma BothCanEstablish(connectorBase: nat, listenerBase: nat) returns (run: seq<Event>, s: System)
    requires connectorBase <= MAX && listenerBase <= MAX
    ensures Attained(connectorBase, listenerBase, run, s) && !s.failed
    ensures s.connector.state.Established? && s.listener.state.Established? && Standing(s)
  {
    run, s := BothCalled(connectorBase, listenerBase);
    run, s := Shakes(connectorBase, listenerBase, run, s, []);
    GreetingArrives(s, []);
    ListenerStands(s);
    Continue(connectorBase, listenerBase, run, s, Deliver(Listener, 1, [], []));
    run, s := run + [Deliver(Listener, 1, [], [])], Step(s, Deliver(Listener, 1, [], []));
  }

  lemma HandshakeInFront(t: System, keepalive: Packet, second: Content)
    requires EstablishedAs(t, keepalive, second) && second.Data? && t.connectorBase <= MAX
    ensures t.listener.history == [t.connectorBase] && t.listener.log.accepted == [Handshake]
  {
    RawUnwrapped(t.connectorBase);
  }

  /** The connector's second packet is data, so its keepalive comes too early for the listener. */
  lemma LateGreeting(connectorBase: nat, listenerBase: nat, run: seq<Event>, s: System)
    requires Reaches(connectorBase, listenerBase, run, s) && |s.connector.log.issued| > 1
    requires Enabled(s, Deliver(Listener, 1, [], []))
    requires !s.listener.remote && Step(s, Deliver(Listener, 1, [], [])).listener.remote
    requires s.connector.log.issued[1].Data?
    ensures var t := Step(s, Deliver(Listener, 1, [], []));
            t.listener.history == [connectorBase] && t.listener.log.accepted == [Handshake]
  {
    var event := Deliver(Listener, 1, [], []);
    ListenerEstablishes(connectorBase, listenerBase, run, s, event);
    BaseStays(Start(connectorBase, listenerBase), run);
    HandshakeInFront(Step(s, event), s.connector.log.sent[1], s.connector.log.issued[1]);
  }

  /**
   The exception to the agreement of the two histories does occur: a connector that sends before it is
   connected leaves its handshake's number, not its keepalive's, at the front of the listener's history.
   */
  lemma EarlyDataLeavesHandshakeInFront(connectorBase: nat, listenerBase: nat, payload: Payload)
    returns (run: seq<Event>, s: System)
    requires connectorBase <= MAX && listenerBase <= MAX
    ensures Attained(connectorBase, listenerBase, run, s) && !s.failed
    ensures s.connector.state.Established? && s.listener.state.Established?
    ensures s.listener.history == [connectorBase] && s.listener.log.accepted == [Handshake]
  {
    run, s := BothCalled(connectorBase, listenerBase);
    SendsEarly(s, payload);
    Continue(connectorBase, listenerBase, run, s, Event.Call(Connector, Send(payload)));
    run, s := run + [Event.Call(Connector, Send(payload))], Step(s, Event.Call(Connector, Send(payload)));
    run, s := Shakes(connectorBase, listenerBase, run, s, [payload]);
    GreetingArrives(s, [payload]);
    ListenerRegisters(s, [payload]);
    LateGreeting(connectorBase, listenerBase, run, s);
    Continue(connectorBase, listenerBase, run, s, Deliver(Listener, 1, [], []));
    run, s := run + [Deliver(Listener, 1, [], [])], Step(s, Deliver(Listener, 1, [], []));
  }
}
