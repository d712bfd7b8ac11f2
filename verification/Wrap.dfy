/**
 What goes wrong when a packet is numbered below a pending one. The transmit queue is ordered by raw
 numbers, so the newer packet comes first, and a connector whose first number is the largest one
 retransmits data instead of the handshake that its peer waits for.
 */
module Wraps {
  import opened Wrappers
  import Timers
  import opened TransmitQueues
  import opened Endpoints
  import opened EndpointFacts
  import opened Deliveries
  import opened Disciplines
  import opened Abortings
  import opened ReceiveFacts
  import opened Connections
  import opened Acknowledgements
  import opened ConnectionRuns
  import opened Establishments
  import opened Progress

  /** The handshake left once, is still pending, and data with the number 0 is before it in the queue. */
  ghost predicate Overtaken(s: System) {
    && s.toListener == 0 && s.toConnector == 0
    && (Connector !in s.closed ==>
          0 in s.connector.queue.entries && s.connector.queue.entries[0].job.content.Data?)
    && |s.connector.log.sent| > 0 && s.connector.log.sent[0].content.Handshake?
    && forall j :: 0 < j < |s.connector.log.sent| ==> !s.connector.log.sent[j].content.Handshake?
  }

  lemma SendOvertakes(e: Endpoint, payload: Payload)
    requires e.open && e.queue.entries.Keys == {MAX} && e.next == 0
    ensures var f := RunCall(e, Send(payload));
            && f.queue.entries.Keys == {MAX, 0} && f.queue.entries[0].job.content == Data(payload)
            && !f.log.ordered && f.log.sent == e.log.sent
  {
    SendBehindOthers(e, payload);
    var issued := StartReceive(Issue(e, Data(payload)));
    var job := Job(Data(payload), e.next, None, |e.log.issued|, 0);
    EnqueueEffect(issued, job, |payload|);
    assert MAX in e.queue.entries.Keys;
  }

  lemma OnlyNumberIsMax(r: Role, e: Endpoint)
    requires Ok(r, e) && r.base == MAX && |e.log.issued| == 1 && e.queue.entries.Keys != {}
    ensures e.queue.entries.Keys == {MAX} && e.next == 0
  {
    forall k | k in e.queue.entries.Keys
      ensures k == MAX
    {
      assert JobOk(r, e.log.issued, |e.log.accepted|, e.queue.entries[k].job);
    }
  }

  lemma ConnectorWraps(s: System)
    requires Called(s, []) && s.connectorBase == MAX
    ensures Ok(RoleOf(s, Connector), s.connector) && RoleOf(s, Connector).base == MAX
    ensures |s.connector.log.issued| == 1 && s.connector.open
  {
  }

  lemma OvertakesAfterCall(s: System, payload: Payload)
    requires Called(s, []) && s.connectorBase == MAX && s.connector.queue.entries.Keys != {}
    ensures var event := Event.Call(Connector, Send(payload));
            && Enabled(s, event) && Overtaken(Step(s, event)) && !Step(s, event).connector.log.ordered
            && Step(s, event).connector.queue.entries.Keys == {MAX, 0}
            && Step(s, event).connector.log.issued == [Handshake, Data(payload)]
            && |Step(s, event).connector.log.sent| == 1
  {
    ConnectorWraps(s);
    OnlyNumberIsMax(RoleOf(s, Connector), s.connector);
    SendOvertakes(s.connector, payload);
    SendBehindOthers(s.connector, payload);
  }

  lemma ZeroIsFirst(entries: map<nat, Entry<Job>>)
    requires entries.Keys == {MAX, 0}
    ensures First(entries) == 0
  {
    assert 0 in entries.Keys;
    FirstIs(entries, 0);
  }

  /** It happens: the second packet of such a connector overtakes its first in the queue. */
  lemma DataCanOvertake(listenerBase: nat, payload: Payload) returns (run: seq<Event>, s: System)
    requires listenerBase <= MAX
    ensures Attained(MAX, listenerBase, run, s) && Overtaken(s) && !s.connector.log.ordered
    ensures s.connector.queue.entries.Keys == {MAX, 0} && First(s.connector.queue.entries) == 0
    ensures s.connector.log.issued == [Handshake, Data(payload)] && |s.connector.log.sent| == 1
  {
    run, s := BothCalled(MAX, listenerBase);
    BaseStays(Start(MAX, listenerBase), run);
    OvertakesAfterCall(s, payload);
    var event := Event.Call(Connector, Send(payload));
    Continue(MAX, listenerBase, run, s, event);
    run, s := run + [event], Step(s, event);
    ZeroIsFirst(s.connector.queue.entries);
  }

  // What follows from it.

  lemma TickSendsData(e: Endpoint)
    requires 0 in e.queue.entries && e.queue.entries[0].job.content.Data? && e.queue.timer.waits > 0
    ensures var f := QueueWait(e);
            && f.queue.entries == e.queue.entries && e.log.sent <= f.log.sent && |f.log.sent| <= |e.log.sent| + 1
            && (|f.log.sent| > |e.log.sent| ==> f.log.sent[|e.log.sent|].content.Data?)
  {
    assert 0 in e.queue.entries.Keys;
    FirstIs(e.queue.entries, 0);
  }

  lemma CallSendsNothing(r: Role, e: Endpoint, call: UserCall)
    requires Ok(r, e) && 0 in e.queue.entries
    ensures var f := RunCall(e, call);
            && f.log.sent == e.log.sent && 0 in f.queue.entries && f.queue.entries[0] == e.queue.entries[0]
  {
    assert 0 in e.queue.entries.Keys;
    RunCallKeeps(r, e, call);
    if call.Send? && e.open {
      SendBehindOthers(e, call.payload);
    }
  }

  lemma CompletionSendsNothing(e: Endpoint, entry: Entry<Job>, error: bool, bytes: nat)
    ensures var f := StepCompleted(e, entry, error, bytes);
            f.log.sent == e.log.sent && f.queue.entries == e.queue.entries
  {
    var fx := StepDone(e.queue, entry, error, bytes);
    OneHandler(e.(queue := fx.queue), fx.calls);
  }

  lemma NothingFromListener(s: System)
    requires Invariant(s) && Overtaken(s)
    ensures s.listener.log.sent == [] && s.listener.log.accepted == [] && !s.listener.remote
    ensures s.connector.log.issued != [] && s.connector.remote
  {
    NothingSent(s);
    DatagramFacts(s, Connector, 0);
  }

  lemma OvertakenDelivery(s: System, event: Event)
    requires Invariant(s) && Overtaken(s) && Enabled(s, event) && event.Deliver?
    requires event.to.Listener? ==> event.datagram != 0
    ensures Step(s, event) == s
  {
    NothingFromListener(s);
    LaterDatagramsNeedHandshakes(s, Connector, event.datagram);
  }

  lemma OvertakenOwnStep(s: System, event: Event)
    requires Invariant(s) && Overtaken(s) && Enabled(s, event) && !event.Deliver? && Actor(event).Connector?
    ensures Overtaken(Step(s, event))
  {
    NothingFromListener(s);
    match event
    case Call(_, call) => CallSendsNothing(RoleOf(s, Connector), s.connector, call);
    case Tick(_) => TickSendsData(s.connector);
    case Completed(_, step, error, bytes) =>
      CompletionSendsNothing(s.connector, s.connector.log.steps[step], error, bytes);
    case CloseSocket(_) => CloseEnds(s.connector);
    case KeepaliveTick(_) =>
      if Timers.Fires(s.connector.rx.keepalive) {
        KeepaliveEnds(s.connector);
      }
    case _ =>
  }

  lemma StaysOvertaken(s: System, event: Event)
    requires Invariant(s) && Overtaken(s) && Enabled(s, event)
    requires event.Deliver? && event.to.Listener? ==> event.datagram != 0
    ensures Overtaken(Step(s, event))
  {
    if event.Deliver? {
      OvertakenDelivery(s, event);
    } else if Actor(event).Connector? {
      OvertakenOwnStep(s, event);
    } else {
      OthersStay(s, event, Connector);
    }
  }

  /**
   The handshake is never sent again: in every continuation that loses its one datagram the connector
   transmits data that the listener drops, and the listener accepts nothing, ever.
   */
  lemma {:induction false} HandshakeIsNeverRepeated(s: System, run: seq<Event>)
    requires Safe(s) && Overtaken(s) && IsRun(s, run) && Loses(run, Listener, 0)
    ensures Overtaken(Reached(s, run)) && Reached(s, run).listener.log.accepted == []
    decreases |run|
  {
    if run == [] {
      NothingFromListener(s);
    } else {
      StaysOvertaken(s, run[0]);
      NextSafe(s, run[0]);
      HandshakeIsNeverRepeated(Step(s, run[0]), run[1..]);
    }
  }
}
