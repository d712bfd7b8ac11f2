/**
 Two endpoints, a connector and a listener, over a network that loses, duplicates and reorders.
 Every datagram ever sent may arrive any number of times, or never, in any order; only a handshake
 arrives at most once, and no datagram arrives when it is a whole circle of numbers away.
 */
module Connections {
  import opened Wrappers
  import Timers
  import opened TransmitQueues
  import opened Endpoints
  import opened EndpointFacts
  import opened Deliveries
  import opened Disciplines
  import opened Abortings

  datatype Side = Connector | Listener

  datatype System = System(
    connector: Endpoint,
    listener: Endpoint,
    connectorBase: nat,           // the numbers they start with
    listenerBase: nat,
    toConnector: nat,             // handshakes that arrived
    toListener: nat,
    failed: bool,                 // some datagram could not be sent
    closed: set<Side>)            // whose socket was closed

  function Start(connectorBase: nat, listenerBase: nat): System
    requires connectorBase <= MAX && listenerBase <= MAX
  {
    System(New(true, connectorBase), New(false, listenerBase), connectorBase, listenerBase, 0, 0, false, {})
  }

  function End(s: System, side: Side): Endpoint {
    if side.Connector? then s.connector else s.listener
  }

  function Other(side: Side): Side {
    if side.Connector? then Listener else Connector
  }

  function RoleOf(s: System, side: Side): Role {
    if side.Connector? then Role(s.connectorBase, s.listenerBase, false)
    else Role(s.listenerBase, s.connectorBase, true)
  }

  function With(s: System, side: Side, e: Endpoint): System {
    if side.Connector? then s.(connector := e) else s.(listener := e)
  }

  function Handshakes(s: System, side: Side): nat {
    if side.Connector? then s.toConnector else s.toListener
  }

  datatype Event =
    | CallConnect
    | CallAccept
    | Call(side: Side, call: UserCall)
    | Claim(side: Side)
    | Deliver(to: Side, datagram: nat, calls: seq<UserCall>, ackCalls: seq<UserCall>)
    | Tick(side: Side)
    | Completed(side: Side, step: nat, error: bool, bytes: nat)
    | GreetingDone(error: bool)
    | CloseSocket(side: Side)
    | KeepaliveTick(side: Side)

  /** The side at which an event happens. */
  function Actor(event: Event): Side {
    match event
    case CallConnect => Connector
    case CallAccept => Listener
    case Call(side, _) => side
    case Claim(side) => side
    case Deliver(to, _, _, _) => to
    case Tick(side) => side
    case Completed(side, _, _, _) => side
    case GreetingDone(_) => Connector
    case CloseSocket(side) => side
    case KeepaliveTick(side) => side
  }

  /** Datagrams reach a connector that registered its peer, and a listener that is listening at least. */
  predicate Reachable(e: Endpoint, side: Side) {
    if side.Connector? then e.remote else e.open
  }

  /** Data for a socket that is not registered yet is dropped. */
  predicate Dropped(e: Endpoint, p: Packet) {
    p.content.Data? && !e.remote
  }

  ghost predicate MayDeliver(s: System, to: Side, datagram: nat) {
    var e, sent := End(s, to), End(s, Other(to)).log.sent;
    && Reachable(e, to) && datagram < |sent|
    && var p := sent[datagram];
    && (p.content.Handshake? ==> Handshakes(s, to) == 0)
    && FreshPacket(RoleOf(s, to), e, p)
  }

  /** Nothing happens at a closed side any more: its datagrams find no socket, its user's calls are refused. */
  ghost predicate Enabled(s: System, event: Event) {
    Actor(event) !in s.closed && Possible(s, event)
  }

  ghost predicate Possible(s: System, event: Event) {
    match event
    case CallConnect => s.connector.state.Closed? && s.connector.log.issued == []
    case CallAccept => !s.listener.open
    case Call(side, call) => !End(s, side).fault && (call.Send? ==> End(s, side).remote)
    case Claim(side) => !End(s, side).fault && End(s, side).claims != [] && End(s, side).output != []
    case Deliver(to, datagram, _, _) => !End(s, to).fault && MayDeliver(s, to, datagram)
    case Tick(side) => !End(s, side).fault && End(s, side).queue.timer.waits > 0
    case Completed(side, step, _, _) => !End(s, side).fault && step < |End(s, side).log.steps|
    case GreetingDone(_) => !s.connector.fault && s.toConnector > 0
    case CloseSocket(side) => !End(s, side).fault && End(s, side).open
    case KeepaliveTick(side) => !End(s, side).fault && End(s, side).open && End(s, side).rx.keepalive.waits > 0
  }

  function Delivered(s: System, to: Side, p: Packet, calls: seq<UserCall>, ackCalls: seq<UserCall>): System
    requires p.number <= MAX
  {
    var e := End(s, to);
    if Dropped(e, p) then s
    else
      var t := With(s, to, DispatchPacket(e, p, calls, ackCalls));
      if !p.content.Handshake? then t
      else if to.Connector? then t.(toConnector := s.toConnector + 1)
      else t.(toListener := s.toListener + 1)
  }

  function Ending(s: System, side: Side, e: Endpoint): System {
    With(s, side, e).(closed := s.closed + {side})
  }

  ghost function Step(s: System, event: Event): System
    requires Enabled(s, event)
  {
    match event
    case CallConnect => s.(connector := Connect(s.connector))
    case CallAccept => s.(listener := Listen(s.listener))
    case Call(side, call) => With(s, side, RunCall(End(s, side), call))
    case Claim(side) => With(s, side, RunClaim(End(s, side)))
    case Deliver(to, datagram, calls, ackCalls) =>
      Delivered(s, to, End(s, Other(to)).log.sent[datagram], calls, ackCalls)
    case Tick(side) => With(s, side, QueueWait(End(s, side)))
    case Completed(side, step, error, bytes) =>
      With(s, side, StepCompleted(End(s, side), End(s, side).log.steps[step], error, bytes))
      .(failed := s.failed || error)
    case GreetingDone(error) =>
      s.(connector := GreetingSent(s.connector, error), failed := s.failed || error)
    case CloseSocket(side) => Ending(s, side, Close(End(s, side)))
    case KeepaliveTick(side) =>
      var f := KeepaliveWait(End(s, side));
      if Timers.Fires(End(s, side).rx.keepalive) then Ending(s, side, f) else With(s, side, f)
  }

  // What every reachable state satisfies.

  ghost predicate Transmitted(sent: seq<Packet>, index: nat) {
    exists j :: 0 <= j < |sent| && sent[j].index == index
  }

  /** One direction: the receiver accepted a prefix of what the sender numbered, and all of it was sent. */
  ghost predicate Linked(sender: Log, receiver: Log) {
    && receiver.accepted <= sender.issued
    && (forall i: nat :: i < |receiver.accepted| ==> Transmitted(sender.sent, i))
  }

  ghost predicate BothLinked(s: System) {
    Linked(s.connector.log, s.listener.log) && Linked(s.listener.log, s.connector.log)
  }

  ghost predicate HandshakeFirst(issued: seq<Content>) {
    forall i :: 0 <= i < |issued| ==> (issued[i].Handshake? <==> i == 0)
  }

  ghost predicate ConnectorOk(s: System) {
    var c := s.connector;
    && (Connector !in s.closed ==> c.open)
    && HandshakeFirst(c.log.issued)
    && (c.remote <==> c.log.issued != [])
    && (s.toConnector == 0 <==> c.log.accepted == [])
    && (s.toConnector == 0 ==> OnlyData([Handshake], c.log.issued) || c.log.issued == [])
    && (s.toConnector == 0 ==> c.state == if c.remote then Connecting else Closed)
    && (s.toConnector > 0 ==> c.remote && (c.state.Established? || (s.failed && c.state.Closed?)))
    && (c.fault ==> s.failed)
  }

  ghost predicate ListenerOk(s: System) {
    var l := s.listener;
    && HandshakeFirst(l.log.issued)
    && (s.toListener == 0 <==> l.log.accepted == [])
    && (s.toListener == 0 <==> l.log.issued == [])
    && (s.toListener == 0 ==> !l.remote)
    && (l.remote ==> s.toListener > 0 && s.toConnector > 0)
    && (!l.remote ==> |l.log.issued| <= 1)
    && (Listener !in s.closed ==> ListenerStateOk(s))
    && (l.state.Established? && !s.failed ==> l.remote)
    && (l.fault ==> s.failed)
  }

  ghost predicate ListenerStateOk(s: System) {
    var l := s.listener;
    && (s.toListener == 0 ==> l.state == if l.open then Listening else Closed)
    && (s.toListener > 0 ==> l.open)
    && (l.remote ==> l.state.Established? || (s.failed && l.state.Closed?))
    && (!l.remote && s.toListener > 0 && !l.fault ==>
          && l.log.accepted == [Handshake] && ReplyPending(RoleOf(s, Listener), l)
          && (l.state.Listening? || (s.failed && l.state.Closed?)))
  }

  ghost predicate OneKeepalive(issued: seq<Content>) {
    forall i, j :: 0 <= i < j < |issued| ==> !(issued[i].Keepalive? && issued[j].Keepalive?)
  }

  /** Until the listener is registered the connector's only keepalive is the one that answers the handshake. */
  ghost predicate GreetsOnce(s: System) {
    !s.listener.remote ==> OneKeepalive(s.connector.log.issued)
  }

  /** A side's packets are in order, and its queue is alive unless the socket was closed. */
  ghost predicate SideOk(s: System, side: Side) {
    PacketsOk(RoleOf(s, side), End(s, side)) && (side !in s.closed ==> End(s, side).queue.alive)
  }

  ghost predicate Invariant(s: System) {
    && SideOk(s, Connector) && SideOk(s, Listener)
    && BothLinked(s)
    && ConnectorOk(s) && ListenerOk(s) && GreetsOnce(s)
  }

  lemma StartHolds(connectorBase: nat, listenerBase: nat)
    requires connectorBase <= MAX && listenerBase <= MAX
    ensures Invariant(Start(connectorBase, listenerBase))
  {
  }

  lemma TransmittedGrows(before: seq<Packet>, after: seq<Packet>, index: nat)
    requires before <= after && Transmitted(before, index)
    ensures Transmitted(after, index)
  {
    var j :| 0 <= j < |before| && before[j].index == index;
    assert after[j] == before[j];
  }

  /** The links survive whatever numbers, sends and accepts nothing the peer did not send. */
  lemma LinksGrow(e: Log, f: Log, peer: Log)
    requires Linked(e, peer) && Linked(peer, e)
    requires e.issued <= f.issued && e.sent <= f.sent && f.accepted == e.accepted
    ensures Linked(f, peer) && Linked(peer, f)
  {
    forall i: nat | i < |peer.accepted|
      ensures Transmitted(f.sent, i)
    {
      TransmittedGrows(e.sent, f.sent, i);
    }
  }

  /** The links survive a delivery of one of the peer's datagrams. */
  lemma LinksDeliver(e: Endpoint, f: Endpoint, peer: Endpoint, r: Role, j: nat)
    requires Linked(e.log, peer.log) && Linked(peer.log, e.log) && PacketsOk(r, peer)
    requires j < |peer.log.sent| && DeliveryStep(e, f, peer.log.sent[j])
    ensures Linked(f.log, peer.log) && Linked(peer.log, f.log)
  {
    var p := peer.log.sent[j];
    assert PacketOk(r, peer.log.issued, |peer.log.accepted|, p);
    forall i: nat | i < |peer.log.accepted|
      ensures Transmitted(f.log.sent, i)
    {
      TransmittedGrows(e.log.sent, f.log.sent, i);
    }
    forall i: nat | i < |f.log.accepted|
      ensures Transmitted(peer.log.sent, i)
    {
      assert i >= |e.log.accepted| ==> p.index == i;
    }
  }

  lemma UserStepAtConnector(s: System, f: Endpoint)
    requires Invariant(s) && UserStep(s.connector, f) && Connector !in s.closed
    requires f.log.issued == s.connector.log.issued || s.connector.remote
    ensures ConnectorOk(s.(connector := f)) && ListenerOk(s.(connector := f)) && GreetsOnce(s.(connector := f))
  {
  }

  lemma UserStepAtListener(s: System, f: Endpoint)
    requires Invariant(s) && UserStep(s.listener, f) && Listener !in s.closed
    requires f.log.issued == s.listener.log.issued || s.listener.remote
    ensures ConnectorOk(s.(listener := f)) && ListenerOk(s.(listener := f)) && GreetsOnce(s.(listener := f))
  {
  }

  /** A step caused by a user or a timer at one side. */
  lemma UserStepHolds(s: System, side: Side, f: Endpoint)
    requires Invariant(s) && Ok(RoleOf(s, side), f) && UserStep(End(s, side), f)
    requires f.log.issued == End(s, side).log.issued || End(s, side).remote
    requires side !in s.closed
    ensures Invariant(With(s, side, f))
  {
    LinksGrow(End(s, side).log, f.log, End(s, Other(side)).log);
    if side.Connector? {
      UserStepAtConnector(s, f);
    } else {
      UserStepAtListener(s, f);
    }
  }

  lemma CallHolds(s: System, side: Side, call: UserCall)
    requires Invariant(s) && Enabled(s, Call(side, call))
    ensures Invariant(Step(s, Call(side, call)))
  {
    RunCallKeeps(RoleOf(s, side), End(s, side), call);
    UserStepHolds(s, side, RunCall(End(s, side), call));
  }

  lemma ClaimHolds(s: System, side: Side)
    requires Invariant(s) && Enabled(s, Claim(side))
    ensures Invariant(Step(s, Claim(side)))
  {
    RunClaimKeeps(RoleOf(s, side), End(s, side));
    UserStepHolds(s, side, RunClaim(End(s, side)));
  }

  lemma TickHolds(s: System, side: Side)
    requires Invariant(s) && Enabled(s, Tick(side))
    ensures Invariant(Step(s, Tick(side)))
  {
    QueueWaitKeeps(RoleOf(s, side), End(s, side));
    UserStepHolds(s, side, QueueWait(End(s, side)));
  }

  /** A failure closes at most the connection state of one side. */
  lemma FailureHolds(s: System, side: Side, error: bool)
    requires Invariant(s)
    ensures Invariant(s.(failed := s.failed || error))
    ensures error && side.Listener? && s.toListener > 0 && Listener !in s.closed ==>
              Invariant(With(s, side, End(s, side).(state := Closed)).(failed := true))
  {
  }

  /** Only the listener's reply closes its side when it fails. */
  lemma FailedStepIsReply(s: System, side: Side, step: nat)
    requires Invariant(s) && step < |End(s, side).log.steps|
    ensures var job := End(s, side).log.steps[step].job;
            job.content.Handshake? && job.ack.Some? ==> side.Listener? && s.toListener > 0
  {
    var e := End(s, side);
    assert JobOk(RoleOf(s, side), e.log.issued, |e.log.accepted|, e.log.steps[step].job);
  }

  lemma CompletionHolds(s: System, side: Side, step: nat, error: bool, bytes: nat)
    requires Invariant(s) && side !in s.closed && step < |End(s, side).log.steps|
    ensures var e := End(s, side);
            var f := StepCompleted(e, e.log.steps[step], error, bytes);
            && Invariant(With(s, side, f.(state := e.state)))
            && (f.state == e.state || (error && f.state.Closed? && side.Listener? && s.toListener > 0))
  {
    var e := End(s, side);
    var f := StepCompleted(e, e.log.steps[step], error, bytes);
    StepCompletedKeeps(RoleOf(s, side), e, e.log.steps[step], error, bytes);
    FailedStepIsReply(s, side, step);
    UserStepHolds(s, side, f.(state := e.state));
  }

  lemma StepDoneHolds(s: System, event: Event)
    requires Invariant(s) && Enabled(s, event) && event.Completed?
    ensures Invariant(Step(s, event))
  {
    var e := End(s, event.side);
    var f := StepCompleted(e, e.log.steps[event.step], event.error, event.bytes);
    CompletionHolds(s, event.side, event.step, event.error, event.bytes);
    FailureHolds(With(s, event.side, f.(state := e.state)), event.side, event.error);
    StepDoneResult(s, event, f);
  }

  lemma StepDoneResult(s: System, event: Event, f: Endpoint)
    requires event.Completed? && Enabled(s, event)
    requires f == StepCompleted(End(s, event.side), End(s, event.side).log.steps[event.step], event.error, event.bytes)
    ensures var t := With(s, event.side, f.(state := End(s, event.side).state));
            && (f.state == End(s, event.side).state ==> Step(s, event) == t.(failed := s.failed || event.error))
            && (event.error && f.state.Closed? ==>
                  Step(s, event) == With(t, event.side, End(t, event.side).(state := Closed)).(failed := true))
  {
  }

  lemma GreetingDoneHolds(s: System, error: bool)
    requires Invariant(s) && Enabled(s, GreetingDone(error))
    ensures Invariant(Step(s, GreetingDone(error)))
  {
  }

  lemma AcceptHolds(s: System)
    requires Invariant(s) && Enabled(s, CallAccept)
    ensures Invariant(Step(s, CallAccept))
  {
  }

  /** The connector numbered its handshake and waits for the peer's. */
  ghost predicate Calling(e: Endpoint, f: Endpoint) {
    && f.open == e.open && f.remote && f.state.Connecting? && f.fault == e.fault
    && f.log.issued == e.log.issued + [Handshake] && f.log.accepted == e.log.accepted && e.log.sent <= f.log.sent
  }

  lemma ConnectCalls(r: Role, e: Endpoint)
    requires Ok(r, e) && e.open && e.state.Closed? && !r.reply && e.log.issued == []
    ensures Ok(r, Connect(e)) && Calling(e, Connect(e))
  {
    var called := e.(state := Connecting, remote := true);
    SamePacketsOk(r, e, called);
    SendHandshakeKeeps(r, called, None);
    NothingPending(r, e);
    EnqueueChanges(StartReceive(Issue(called, Handshake)), Job(Handshake, e.next, None, 0, LastAccepted(e)), 0);
    OneHandler(ApplyEffect(StartReceive(Issue(called, Handshake)),
                           Pushed(e.queue, e.next, Entry(0, Job(Handshake, e.next, None, 0, LastAccepted(e))))), []);
  }

  lemma CalledHolds(s: System, f: Endpoint)
    requires Invariant(s) && Ok(RoleOf(s, Connector), f) && Calling(s.connector, f) && s.connector.log.issued == []
    requires Connector !in s.closed && !s.connector.remote
    ensures Invariant(s.(connector := f))
  {
    LinksGrow(s.connector.log, f.log, s.listener.log);
  }

  lemma ConnectHolds(s: System)
    requires Invariant(s) && Enabled(s, CallConnect)
    ensures Invariant(Step(s, CallConnect))
  {
    ConnectCalls(RoleOf(s, Connector), s.connector);
    CalledHolds(s, Connect(s.connector));
  }

  /** What is known of any datagram in the network. */
  lemma DatagramFacts(s: System, from: Side, j: nat)
    requires Invariant(s) && j < |End(s, from).log.sent|
    ensures PacketOk(RoleOf(s, from), End(s, from).log.issued, |End(s, from).log.accepted|, End(s, from).log.sent[j])
    ensures var p := End(s, from).log.sent[j];
            && (p.content.Handshake? <==> p.index == 0)
            && (p.ack.Some? ==> |End(s, Other(from)).log.issued| > p.ackIndex
                                && p.ack.value == Raw(RoleOf(s, Other(from)).base + p.ackIndex))
  {
    var e := End(s, from);
    assert PacketOk(RoleOf(s, from), e.log.issued, |e.log.accepted|, e.log.sent[j]);
  }

  /** Anything but the handshake of the listener means that the connector accepted that handshake. */
  lemma LaterDatagramsNeedHandshakes(s: System, from: Side, j: nat)
    requires Invariant(s) && j < |End(s, from).log.sent|
    ensures var p := End(s, from).log.sent[j];
            && (from.Listener? ==> s.connector.remote)
            && (from.Listener? && !p.content.Handshake? ==> s.toConnector > 0 && s.listener.remote)
            && (from.Connector? && p.content.Keepalive? ==> s.toConnector > 0 && s.toListener > 0)
  {
    var p := End(s, from).log.sent[j];
    DatagramFacts(s, from, j);
  }

  lemma RegisteredDispatch(s: System, event: Event)
    requires Invariant(s) && Enabled(s, event) && event.Deliver? && End(s, event.to).remote
    requires !End(s, Other(event.to)).log.sent[event.datagram].content.Handshake?
    requires Handshakes(s, event.to) > 0
    ensures var e, p := End(s, event.to), End(s, Other(event.to)).log.sent[event.datagram];
            var f := DispatchPacket(e, p, event.calls, event.ackCalls);
            Ok(RoleOf(s, event.to), f) && DeliveryStep(e, f, p) && StaysRegistered(e, f, p)
  {
    var e, p := End(s, event.to), End(s, Other(event.to)).log.sent[event.datagram];
    DispatchRegistered(RoleOf(s, event.to), e, p, event.calls, event.ackCalls);
  }

  /** A registered endpoint receives data or a keepalive. */
  lemma DeliverRegistered(s: System, event: Event)
    requires Invariant(s) && Enabled(s, event) && event.Deliver? && End(s, event.to).remote
    requires !End(s, Other(event.to)).log.sent[event.datagram].content.Handshake?
    requires Handshakes(s, event.to) > 0 && s.listener.remote
    ensures Invariant(Step(s, event))
  {
    var to, e, peer := event.to, End(s, event.to), End(s, Other(event.to));
    var f := DispatchPacket(e, peer.log.sent[event.datagram], event.calls, event.ackCalls);
    RegisteredDispatch(s, event);
    LinksDeliver(e, f, peer, RoleOf(s, Other(to)), event.datagram);
    RegisteredHolds(s, to, f, peer.log.sent[event.datagram]);
  }

  lemma RegisteredHolds(s: System, to: Side, f: Endpoint, p: Packet)
    requires Invariant(s) && Ok(RoleOf(s, to), f) && BothLinked(With(s, to, f))
    requires End(s, to).remote && s.listener.remote && Handshakes(s, to) > 0 && to !in s.closed
    requires StaysRegistered(End(s, to), f, p) && DeliveryStep(End(s, to), f, p)
    ensures Invariant(With(s, to, f))
  {
  }

  lemma HandshakeDispatch(s: System, event: Event)
    requires Invariant(s) && Enabled(s, event) && event.Deliver? && event.to.Connector?
    requires s.listener.log.sent[event.datagram].content.Handshake?
    ensures s.toConnector == 0 && s.connector.remote
    ensures var p := s.listener.log.sent[event.datagram];
            var f := DispatchPacket(s.connector, p, event.calls, event.ackCalls);
            Ok(RoleOf(s, Connector), f) && DeliveryStep(s.connector, f, p) && Connected(s.connector, f)
  {
    var p := s.listener.log.sent[event.datagram];
    DatagramFacts(s, Listener, event.datagram);
    ConnectorMeetsHandshake(RoleOf(s, Connector), s.connector, p, event.calls, event.ackCalls);
  }

  /** The connector receives the listener's handshake. */
  lemma DeliverToConnector(s: System, event: Event)
    requires Invariant(s) && Enabled(s, event) && event.Deliver? && event.to.Connector?
    requires s.listener.log.sent[event.datagram].content.Handshake?
    ensures Invariant(Step(s, event))
  {
    var f := DispatchPacket(s.connector, s.listener.log.sent[event.datagram], event.calls, event.ackCalls);
    HandshakeDispatch(s, event);
    LinksDeliver(s.connector, f, s.listener, RoleOf(s, Listener), event.datagram);
    ConnectedHolds(s, f);
  }

  lemma ConnectedHolds(s: System, f: Endpoint)
    requires Invariant(s) && s.toConnector == 0 && s.connector.remote
    requires Ok(RoleOf(s, Connector), f) && BothLinked(With(s, Connector, f)) && Connected(s.connector, f)
    ensures Invariant(With(s, Connector, f).(toConnector := 1))
  {
  }

  /** The listener receives the connector's handshake. */
  lemma DeliverToListener(s: System, event: Event)
    requires Invariant(s) && Enabled(s, event) && event.Deliver? && event.to.Listener?
    requires s.connector.log.sent[event.datagram].content.Handshake?
    ensures Invariant(Step(s, event))
  {
    var e, peer := s.listener, s.connector;
    var p := peer.log.sent[event.datagram];
    DatagramFacts(s, Connector, event.datagram);
    ListenerMeetsHandshake(RoleOf(s, Listener), e, p, event.calls, event.ackCalls);
    var f := DispatchPacket(e, p, event.calls, event.ackCalls);
    LinksDeliver(e, f, peer, RoleOf(s, Connector), event.datagram);
    RepliedHolds(s, f);
  }

  lemma RepliedHolds(s: System, f: Endpoint)
    requires Invariant(s) && s.toListener == 0 && s.listener.open
    requires Ok(RoleOf(s, Listener), f) && BothLinked(With(s, Listener, f))
    requires f.open && !f.remote && f.state.Listening? && !f.fault
    requires f.log.accepted == [Handshake] && ReplyPending(RoleOf(s, Listener), f)
    ensures Invariant(With(s, Listener, f).(toListener := 1))
  {
  }

  /** The listener receives the connector's keepalive before it is registered. */
  lemma DeliverGreeting(s: System, event: Event)
    requires Invariant(s) && Enabled(s, event) && event.Deliver? && event.to.Listener? && !s.listener.remote
    requires s.connector.log.sent[event.datagram].content.Keepalive?
    ensures Invariant(Step(s, event))
  {
    var e, peer := s.listener, s.connector;
    var p := peer.log.sent[event.datagram];
    DatagramFacts(s, Connector, event.datagram);
    LaterDatagramsNeedHandshakes(s, Connector, event.datagram);
    ListenerMeetsKeepalive(RoleOf(s, Listener), e, p, event.calls, event.ackCalls);
    var f := DispatchPacket(e, p, event.calls, event.ackCalls);
    LinksDeliver(e, f, peer, RoleOf(s, Connector), event.datagram);
    GreetedHolds(s, f);
  }

  lemma GreetedHolds(s: System, f: Endpoint)
    requires Invariant(s) && s.toListener > 0 && s.toConnector > 0 && !s.listener.remote && !s.listener.fault
    requires Ok(RoleOf(s, Listener), f) && BothLinked(With(s, Listener, f))
    requires f.open && f.log.accepted != [] && Listener !in s.closed
    requires s.listener.state.Closed? ==>
               f.fault && !f.remote && f.log.issued == s.listener.log.issued && f.state.Closed?
    requires s.listener.state.Listening? ==>
               !f.fault && f.remote && f.state.Established? && NoHandshakes(s.listener.log.issued, f.log.issued)
    ensures Invariant(With(s, Listener, f))
  {
  }

  lemma DeliverHolds(s: System, event: Event)
    requires Invariant(s) && Enabled(s, event) && event.Deliver?
    ensures Invariant(Step(s, event))
  {
    var e, p := End(s, event.to), End(s, Other(event.to)).log.sent[event.datagram];
    LaterDatagramsNeedHandshakes(s, Other(event.to), event.datagram);
    if p.content.Handshake? {
      if event.to.Connector? {
        DeliverToConnector(s, event);
      } else {
        DeliverToListener(s, event);
      }
    } else if e.remote {
      DeliverRegistered(s, event);
    } else if p.content.Keepalive? {
      DeliverGreeting(s, event);
    }
  }

  // Closing.

  lemma ConnectorHasNoReply(r: Role, e: Endpoint)
    requires PacketsOk(r, e) && !r.reply
    ensures forall k :: k in e.queue.entries ==> !IsReply(e.queue.entries[k].job)
  {
    forall k | k in e.queue.entries
      ensures !IsReply(e.queue.entries[k].job)
    {
      assert JobOk(r, e.log.issued, |e.log.accepted|, e.queue.entries[k].job);
    }
  }

  lemma EndedAtConnector(s: System, f: Endpoint)
    requires Invariant(s) && Ended(s.connector, f)
    ensures var t := Ending(s, Connector, f);
            ConnectorOk(t) && ListenerOk(t) && GreetsOnce(t)
  {
    ConnectorHasNoReply(RoleOf(s, Connector), s.connector);
  }

  lemma EndedAtListener(s: System, f: Endpoint)
    requires Invariant(s) && Ended(s.listener, f)
    ensures var t := Ending(s, Listener, f);
            ConnectorOk(t) && ListenerOk(t) && GreetsOnce(t)
  {
  }

  /** Whatever ends a side keeps everything that concerns the packets of both. */
  lemma EndedHolds(s: System, side: Side, f: Endpoint)
    requires Invariant(s) && Ended(End(s, side), f)
    ensures Invariant(Ending(s, side, f))
  {
    EndedKeeps(RoleOf(s, side), End(s, side), f);
    LinksGrow(End(s, side).log, f.log, End(s, Other(side)).log);
    if side.Connector? {
      EndedAtConnector(s, f);
    } else {
      EndedAtListener(s, f);
    }
  }

  lemma CloseStep(s: System, side: Side)
    requires Enabled(s, CloseSocket(side))
    ensures Step(s, CloseSocket(side)) == Ending(s, side, Close(End(s, side)))
    ensures Ended(End(s, side), Close(End(s, side)))
  {
    CloseEnds(End(s, side));
  }

  lemma CloseHolds(s: System, side: Side)
    requires Invariant(s) && Enabled(s, CloseSocket(side))
    ensures Invariant(Step(s, CloseSocket(side)))
  {
    CloseStep(s, side);
    EndedHolds(s, side, Close(End(s, side)));
  }

  lemma KeepaliveTickHolds(s: System, side: Side)
    requires Invariant(s) && Enabled(s, KeepaliveTick(side))
    ensures Invariant(Step(s, KeepaliveTick(side)))
  {
    var e := End(s, side);
    if Timers.Fires(e.rx.keepalive) {
      KeepaliveEnds(e);
      EndedHolds(s, side, KeepaliveWait(e));
    } else {
      ReceptionIsUserStep(RoleOf(s, side), e, KeepaliveWait(e));
      UserStepHolds(s, side, KeepaliveWait(e));
    }
  }

  lemma NextHolds(s: System, event: Event)
    requires Invariant(s) && Enabled(s, event)
    ensures Invariant(Step(s, event))
  {
    match event
    case CallConnect => ConnectHolds(s);
    case CallAccept => AcceptHolds(s);
    case Call(side, call) => CallHolds(s, side, call);
    case Claim(side) => ClaimHolds(s, side);
    case Deliver(_, _, _, _) => DeliverHolds(s, event);
    case Tick(side) => TickHolds(s, side);
    case Completed(_, _, _, _) => StepDoneHolds(s, event);
    case GreetingDone(error) => GreetingDoneHolds(s, error);
    case CloseSocket(side) => CloseHolds(s, side);
    case KeepaliveTick(side) => KeepaliveTickHolds(s, side);
  }
}
