/**
 What holds in every reachable state of a connection: the promises of the protocol.
 */
module ConnectionRuns {
  import opened CumulativeSets
  import opened Wrappers
  import Timers
  import opened TransmitQueues
  import opened Endpoints
  import opened EndpointFacts
  import opened Deliveries
  import opened Disciplines
  import opened Abortings
  import opened ReceiveFacts
  import opened Connections
  import opened Acknowledgements

  ghost predicate BothDisciplined(s: System) {
    Disciplined(RoleOf(s, Connector), s.connector) && Disciplined(RoleOf(s, Listener), s.listener)
  }

  ghost predicate BothHandOut(s: System) {
    HandedOutInOrder(s.connector) && HandedOutInOrder(s.listener)
  }

  lemma DeliverDisciplined(s: System, event: Event)
    requires Invariant(s) && BothDisciplined(s) && Enabled(s, event) && event.Deliver?
    ensures BothDisciplined(Step(s, event))
  {
    var e, p := End(s, event.to), End(s, Other(event.to)).log.sent[event.datagram];
    if !Dropped(e, p) {
      ProcessedOk(s, event);
      DispatchDisciplined(RoleOf(s, event.to), e, p, event.calls, event.ackCalls);
    }
  }

  lemma ConnectDisciplined(s: System)
    requires Invariant(s) && BothDisciplined(s) && Enabled(s, CallConnect)
    ensures BothDisciplined(Step(s, CallConnect))
  {
    var r, e := RoleOf(s, Connector), s.connector.(state := Connecting, remote := true);
    DisciplineOnly(r, s.connector, e);
    SendHandshakeDisciplined(r, e, None);
  }

  lemma KeepaliveTickDisciplined(r: Role, e: Endpoint)
    requires Ok(r, e) && Disciplined(r, e) && e.open && e.rx.keepalive.waits > 0
    ensures Disciplined(r, KeepaliveWait(e))
  {
    if Timers.Fires(e.rx.keepalive) {
      KeepaliveEnds(e);
      EndedDisciplined(r, e, KeepaliveWait(e));
    } else {
      DisciplineOnly(r, e, KeepaliveWait(e));
    }
  }

  lemma CloseDisciplined(r: Role, e: Endpoint)
    requires Ok(r, e) && Disciplined(r, e) && e.open
    ensures Disciplined(r, Close(e))
  {
    CloseEnds(e);
    EndedDisciplined(r, e, Close(e));
  }

  lemma ReceivesDisciplined(r: Role, e: Endpoint, f: Endpoint)
    requires Disciplined(r, e)
    requires f == e.(open := f.open, state := f.state, input := f.input, output := f.output, claims := f.claims,
                     rx := f.rx, log := f.log)
    requires f.log == e.log.(receives := f.log.receives, delivered := f.log.delivered)
    ensures Disciplined(r, f)
  {
    DisciplineOnly(r, e, f);
  }

  /** Steps that no datagram causes, except for the connector's call. */
  lemma OwnStepDisciplined(s: System, event: Event)
    requires Ok(RoleOf(s, Actor(event)), End(s, Actor(event)))
    requires Disciplined(RoleOf(s, Actor(event)), End(s, Actor(event)))
    requires Enabled(s, event) && !event.Deliver? && !event.CallConnect?
    ensures Disciplined(RoleOf(s, Actor(event)), End(Step(s, event), Actor(event)))
  {
    var r, e := RoleOf(s, Actor(event)), End(s, Actor(event));
    match event
    case CallAccept => ReceivesDisciplined(r, e, Listen(e));
    case Call(_, call) => RunCallDisciplined(r, e, call);
    case Claim(_) => ReceivesDisciplined(r, e, RunClaim(e));
    case Tick(_) => QueueWaitDisciplined(r, e);
    case Completed(_, step, error, bytes) => StepCompletedDisciplined(r, e, e.log.steps[step], error, bytes);
    case GreetingDone(error) => ReceivesDisciplined(r, e, GreetingSent(e, error));
    case CloseSocket(_) => CloseDisciplined(r, e);
    case KeepaliveTick(_) => KeepaliveTickDisciplined(r, e);
  }

  lemma OneSideDisciplined(s: System, t: System, side: Side)
    requires BothDisciplined(s)
    requires RoleOf(t, side) == RoleOf(s, side) && RoleOf(t, Other(side)) == RoleOf(s, Other(side))
    requires End(t, Other(side)) == End(s, Other(side)) && Disciplined(RoleOf(s, side), End(t, side))
    ensures BothDisciplined(t)
  {
  }

  lemma NextDisciplined(s: System, event: Event)
    requires Invariant(s) && BothDisciplined(s) && Enabled(s, event)
    ensures BothDisciplined(Step(s, event))
  {
    if event.CallConnect? {
      ConnectDisciplined(s);
    } else if event.Deliver? {
      DeliverDisciplined(s, event);
    } else {
      EndsAreOk(s, Actor(event));
      OwnStepDisciplined(s, event);
      OthersStay(s, event, Other(Actor(event)));
      BasesStay(s, event);
      OneSideDisciplined(s, Step(s, event), Actor(event));
    }
  }

  /** The receives that an event issues at a side are issued as allowed. */
  ghost predicate ReceivesAllowed(s: System, event: Event, side: Side)
    requires Enabled(s, event)
  {
    match event
    case Call(at, call) => at == side ==> MayCall(End(s, at), call)
    case Deliver(to, datagram, calls, ackCalls) =>
      var e, p := End(s, to), End(s, Other(to)).log.sent[datagram];
      to == side && !Dropped(e, p) ==> MayReactTo(e, p.content, p.number, p.ack, calls, ackCalls)
    case _ => true
  }

  /** A step keeps the order of receives, and their matching with data as long as receives are allowed. */
  ghost predicate KeepsReceives(e: Endpoint, f: Endpoint, allowed: bool) {
    HandedOutInOrder(e) ==> HandedOutInOrder(f) && (ServedInOrder(e) && allowed ==> ServedInOrder(f))
  }

  lemma StepCompletedKeepsReceives(e: Endpoint, entry: Entry<Job>, error: bool, bytes: nat)
    ensures KeepsReceives(e, StepCompleted(e, entry, error, bytes), true)
  {
    StepCompletedSame(e, entry, error, bytes);
    SameReceivesHandsOut(e, StepCompleted(e, entry, error, bytes));
  }

  lemma ConnectKeepsReceives(e: Endpoint)
    ensures KeepsReceives(e, Connect(e), true)
  {
    ConnectSame(e);
    SameReceivesHandsOut(e, Connect(e));
  }

  lemma QueueWaitKeepsReceives(e: Endpoint)
    requires e.queue.timer.waits > 0
    ensures KeepsReceives(e, QueueWait(e), true)
  {
    EffectChanges(e, WaitArrived(e.queue));
    SameReceivesHandsOut(e, QueueWait(e));
  }

  lemma CallKeepsReceives(e: Endpoint, call: UserCall)
    ensures KeepsReceives(e, RunCall(e, call), MayCall(e, call))
  {
    if HandedOutInOrder(e) {
      RunCallHandsOut(e, call);
    }
  }

  lemma ClaimKeepsReceives(e: Endpoint)
    requires e.claims != []
    ensures KeepsReceives(e, RunClaim(e), true)
  {
    if HandedOutInOrder(e) {
      RunClaimHandsOut(e);
    }
  }

  lemma DispatchKeepsReceives(e: Endpoint, p: Packet, calls: seq<UserCall>, ackCalls: seq<UserCall>)
    requires p.number <= MAX
    ensures KeepsReceives(e, DispatchPacket(e, p, calls, ackCalls),
                          MayReactTo(e, p.content, p.number, p.ack, calls, ackCalls))
  {
    if HandedOutInOrder(e) {
      DispatchHandsOut(e, p.content, p.number, p.ack, calls, ackCalls);
    }
  }

  /** A closed side was handed nothing more, and its waiting receives were aborted. */
  lemma EndedReceives(e: Endpoint, f: Endpoint)
    requires Ended(e, f)
    ensures HandedOutInOrder(e) ==> HandedOutInOrder(f)
    ensures f.log.receives == e.log.receives && f.log.delivered == e.log.delivered
  {
  }

  /** Of an ended side only the order of what it was handed out stays. */
  ghost predicate EndsOrKeeps(s: System, event: Event)
    requires Enabled(s, event)
  {
    var e, f := End(s, Actor(event)), End(Step(s, event), Actor(event));
    if Actor(event) in Step(s, event).closed then Ended(e, f)
    else KeepsReceives(e, f, ReceivesAllowed(s, event, Actor(event)))
  }

  lemma KeepaliveTickReceives(s: System, side: Side)
    requires Enabled(s, KeepaliveTick(side))
    ensures EndsOrKeeps(s, KeepaliveTick(side))
  {
    var e := End(s, side);
    if Timers.Fires(e.rx.keepalive) {
      KeepaliveEnds(e);
    } else {
      SameReceivesHandsOut(e, KeepaliveWait(e));
    }
  }

  lemma ListenKeepsReceives(e: Endpoint)
    ensures KeepsReceives(e, Listen(e), true)
  {
    SameReceivesHandsOut(e, Listen(e).(open := e.open));
  }

  lemma DeliveryKeepsReceives(s: System, event: Event)
    requires Enabled(s, event) && event.Deliver?
    ensures EndsOrKeeps(s, event)
  {
    var e, p := End(s, event.to), End(s, Other(event.to)).log.sent[event.datagram];
    if !Dropped(e, p) {
      DispatchKeepsReceives(e, p, event.calls, event.ackCalls);
    }
  }

  lemma ActorKeepsReceives(s: System, event: Event)
    requires Enabled(s, event)
    ensures EndsOrKeeps(s, event)
  {
    var e := End(s, Actor(event));
    match event
    case CallConnect => ConnectKeepsReceives(e);
    case CallAccept => ListenKeepsReceives(e);
    case Call(_, call) => CallKeepsReceives(e, call);
    case Claim(_) => ClaimKeepsReceives(e);
    case Deliver(_, _, _, _) => DeliveryKeepsReceives(s, event);
    case Tick(_) => QueueWaitKeepsReceives(e);
    case Completed(_, step, error, bytes) => StepCompletedKeepsReceives(e, e.log.steps[step], error, bytes);
    case GreetingDone(error) => SameReceivesHandsOut(e, GreetingSent(e, error));
    case CloseSocket(_) => CloseEnds(e);
    case KeepaliveTick(side) => KeepaliveTickReceives(s, side);
  }

  /** Receives are matched in order; after closing, those that were completed. */
  ghost predicate Served(s: System, side: Side) {
    var e := End(s, side);
    && ReceivesOf(e.log.delivered) <= e.log.receives
    && (side !in s.closed ==> ServedInOrder(e))
  }

  lemma ServedPrefix(e: Endpoint)
    requires ServedInOrder(e)
    ensures ReceivesOf(e.log.delivered) <= e.log.receives
  {
  }

  lemma NextKeepsReceives(s: System, event: Event, side: Side)
    requires Enabled(s, event) && HandedOutInOrder(End(s, side))
    ensures HandedOutInOrder(End(Step(s, event), side))
    ensures Served(s, side) && ReceivesAllowed(s, event, side) ==> Served(Step(s, event), side)
  {
    var e, f := End(s, side), End(Step(s, event), side);
    if Actor(event) != side {
      OthersStay(s, event, side);
    } else {
      ActorKeepsReceives(s, event);
      if side in Step(s, event).closed {
        EndedReceives(e, f);
      } else if ServedInOrder(f) {
        ServedPrefix(f);
      }
    }
  }

  lemma NextHandsOut(s: System, event: Event)
    requires BothHandOut(s) && Enabled(s, event)
    ensures BothHandOut(Step(s, event))
  {
    NextKeepsReceives(s, event, Connector);
    NextKeepsReceives(s, event, Listener);
  }

  ghost predicate Safe(s: System) {
    Invariant(s) && BothDisciplined(s) && BothHandOut(s) && BothSoundBeforeWrap(s)
  }

  ghost predicate IsRun(s: System, run: seq<Event>)
    decreases |run|
  {
    run == [] || (Enabled(s, run[0]) && IsRun(Step(s, run[0]), run[1..]))
  }

  ghost function Reached(s: System, run: seq<Event>): System
    requires IsRun(s, run)
    decreases |run|
  {
    if run == [] then s else Reached(Step(s, run[0]), run[1..])
  }

  lemma NextSafe(s: System, event: Event)
    requires Safe(s) && Enabled(s, event)
    ensures Safe(Step(s, event))
  {
    NextHolds(s, event);
    NextDisciplined(s, event);
    NextHandsOut(s, event);
    NextSoundBeforeWrap(s, event);
  }

  lemma {:induction false} StaysSafe(s: System, run: seq<Event>)
    requires Safe(s) && IsRun(s, run)
    ensures Safe(Reached(s, run))
    decreases |run|
  {
    if run != [] {
      NextSafe(s, run[0]);
      StaysSafe(Step(s, run[0]), run[1..]);
    }
  }

  lemma StartSafe(connectorBase: nat, listenerBase: nat)
    requires connectorBase <= MAX && listenerBase <= MAX
    ensures Safe(Start(connectorBase, listenerBase))
  {
    StartHolds(connectorBase, listenerBase);
  }

  /** A state that some run reaches from some initial numbers. */
  ghost predicate Reaches(connectorBase: nat, listenerBase: nat, run: seq<Event>, s: System) {
    && connectorBase <= MAX && listenerBase <= MAX
    && IsRun(Start(connectorBase, listenerBase), run)
    && s == Reached(Start(connectorBase, listenerBase), run)
  }

  lemma ReachedSafe(connectorBase: nat, listenerBase: nat, run: seq<Event>, s: System)
    requires Reaches(connectorBase, listenerBase, run, s)
    ensures Safe(s)
  {
    StartSafe(connectorBase, listenerBase);
    StaysSafe(Start(connectorBase, listenerBase), run);
  }

  /**
   In-order, exactly-once acceptance, across any number of wraps: what a side accepted is a prefix of
   what the peer numbered, its data is a prefix of the data the peer sent, and so is what its receives got.
   */
  lemma PrefixSafety(connectorBase: nat, listenerBase: nat, run: seq<Event>, s: System, side: Side)
    requires Reaches(connectorBase, listenerBase, run, s)
    ensures var me, peer := End(s, side).log, End(s, Other(side)).log;
            && me.accepted <= peer.issued
            && Payloads(me.accepted) <= Payloads(peer.issued)
            && PayloadsOf(me.delivered) <= Payloads(peer.issued)
  {
    ReachedSafe(connectorBase, listenerBase, run, s);
    PayloadsPrefix(End(s, side).log.accepted, End(s, Other(side)).log.issued);
  }

  // Conditions on every event of a run.

  datatype Condition =
    | TimelyAcks(side: Side)            // every acknowledgement that reaches this side is timely
    | AllowedReceives(side: Side)       // this side's receives are issued as allowed
    | WhileReceiving                    // datagrams arrive only where they are waited for

  /** A socket waits for datagrams itself, or an acceptor waits for it. */
  predicate Hears(e: Endpoint, side: Side) {
    e.rx.receiving || (side.Listener? && e.open && !e.remote)
  }

  ghost predicate Meets(c: Condition, s: System, event: Event)
    requires Enabled(s, event)
  {
    match c
    case TimelyAcks(side) => event.Deliver? && event.to == side ==> AckTimely(s, event)
    case AllowedReceives(side) => ReceivesAllowed(s, event, side)
    case WhileReceiving => event.Deliver? ==> Hears(End(s, event.to), event.to)
  }

  ghost predicate Throughout(c: Condition, s: System, run: seq<Event>)
    requires IsRun(s, run)
    decreases |run|
  {
    run == [] || (Meets(c, s, run[0]) && Throughout(c, Step(s, run[0]), run[1..]))
  }

  lemma {:induction false} StaysSound(s: System, run: seq<Event>, side: Side)
    requires Safe(s) && IsRun(s, run) && Throughout(TimelyAcks(side), s, run)
    requires AcksSound(End(s, side).log, End(s, Other(side)).log)
    ensures AcksSound(End(Reached(s, run), side).log, End(Reached(s, run), Other(side)).log)
    decreases |run|
  {
    if run != [] {
      NextSafe(s, run[0]);
      AcksStaySound(s, run[0], side);
      StaysSound(Step(s, run[0]), run[1..], side);
    }
  }

  /**
   A send handler runs with success only after the peer accepted that very packet, as long as the
   sender's numbers have not wrapped or every acknowledgement it got was timely.
   */
  lemma SuccessMeansAccepted(connectorBase: nat, listenerBase: nat, run: seq<Event>, s: System, side: Side, i: nat)
    requires Reaches(connectorBase, listenerBase, run, s)
    requires || Unwrapped(RoleOf(s, side), End(s, side).log.issued)
             || Throughout(TimelyAcks(side), Start(connectorBase, listenerBase), run)
    requires i < |End(s, side).log.handled| && End(s, side).log.handled[i].outcome.Success?
    ensures End(s, side).log.handled[i].entry.job.index < |End(s, Other(side)).log.accepted|
  {
    CompletedAreAccepted(connectorBase, listenerBase, run, s, side);
    assert End(s, side).log.handled[i].entry.job.index in AckedIndices(End(s, side).log.handled);
  }

  // Receives.

  lemma SafeHandsOut(s: System, side: Side)
    requires Safe(s)
    ensures HandedOutInOrder(End(s, side))
  {
  }

  lemma {:induction false} StaysServed(s: System, run: seq<Event>, side: Side)
    requires Safe(s) && IsRun(s, run) && Throughout(AllowedReceives(side), s, run) && Served(s, side)
    ensures Served(Reached(s, run), side)
    decreases |run|
  {
    if run != [] {
      NextSafe(s, run[0]);
      SafeHandsOut(s, side);
      NextKeepsReceives(s, run[0], side);
      StaysServed(Step(s, run[0]), run[1..], side);
    }
  }

  /** The k-th receive of a side that issues its receives as allowed gets the k-th data its peer sent. */
  lemma ReceivesGetWhatWasSent(connectorBase: nat, listenerBase: nat, run: seq<Event>, s: System, side: Side, k: nat)
    requires Reaches(connectorBase, listenerBase, run, s)
    requires Throughout(AllowedReceives(side), Start(connectorBase, listenerBase), run)
    requires k < |End(s, side).log.delivered|
    ensures var me, peer := End(s, side).log, End(s, Other(side)).log;
            && k < |me.receives| && me.delivered[k].receive == me.receives[k]
            && k < |Payloads(peer.issued)| && me.delivered[k].payload == Payloads(peer.issued)[k]
  {
    StartSafe(connectorBase, listenerBase);
    StaysServed(Start(connectorBase, listenerBase), run, side);
    PrefixSafety(connectorBase, listenerBase, run, s, side);
    var me := End(s, side).log;
    assert ReceivesOf(me.delivered)[k] == me.delivered[k].receive;
    assert PayloadsOf(me.delivered)[k] == me.delivered[k].payload;
  }

  // How far the two sides are apart.

  lemma NamesAccepted(s: System, side: Side, j: nat)
    requires Invariant(s) && j < |End(s, side).log.sent| && End(s, side).log.sent[j].ack.Some?
    ensures var p := End(s, side).log.sent[j];
            p.ackIndex < |End(s, side).log.accepted| && p.ack.value == Raw(RoleOf(s, side).peer + p.ackIndex)
  {
    DatagramFacts(s, side, j);
  }

  /** Every acknowledgement in the network names a packet that the side which sent it has accepted. */
  lemma AcknowledgementNamesAccepted(connectorBase: nat, listenerBase: nat, run: seq<Event>, s: System,
                                     side: Side, j: nat)
    requires Reaches(connectorBase, listenerBase, run, s)
    requires j < |End(s, side).log.sent| && End(s, side).log.sent[j].ack.Some?
    ensures var p := End(s, side).log.sent[j];
            p.ackIndex < |End(s, side).log.accepted| && p.ack.value == Raw(RoleOf(s, side).peer + p.ackIndex)
  {
    ReachedSafe(connectorBase, listenerBase, run, s);
    NamesAccepted(s, side, j);
  }

  /** The packets that were neither completed nor refused: they are pending, or were when their socket closed. */
  function Uncompleted(e: Endpoint): set<nat> {
    PendingIndices(e.queue.entries) + AbortedIndices(e.log.handled)
  }

  /** The oldest of them, if any. */
  function FirstUncompleted(e: Endpoint): set<nat> {
    set x | x in Uncompleted(e) && forall y :: y in Uncompleted(e) ==> x <= y
  }

  lemma FirstIsOne(e: Endpoint)
    ensures |FirstUncompleted(e)| <= 1
  {
    var first := FirstUncompleted(e);
    if x :| x in first {
      assert forall y :: y in first ==> y == x;
      assert first == {x};
    }
  }

  /** On an open side it is the packet at the head of the transmit queue. */
  lemma FirstIsHead(e: Endpoint)
    requires KeysInOrder(e.queue.entries) && AbortedIndices(e.log.handled) == {} && e.queue.entries.Keys != {}
    ensures FirstUncompleted(e) == {e.queue.entries[First(e.queue.entries)].job.index}
  {
    var first := First(e.queue.entries);
    var head := e.queue.entries[first].job.index;
    assert head in PendingIndices(e.queue.entries);
    forall y | y in Uncompleted(e)
      ensures head <= y
    {
      var k :| k in e.queue.entries && e.queue.entries[k].job.index == y;
      assert first < k ==> e.queue.entries[first].job.index < e.queue.entries[k].job.index;
    }
    assert forall x :: x in FirstUncompleted(e) ==> x == head;
  }

  /** Of the packets that are not completed only the first can have been transmitted. */
  lemma TransmittedIsFirst(e: Endpoint, j: nat)
    requires SentUpToFirst(e.log.sent, e.queue.entries) && SentUpTo(e.log.sent, AbortedIndices(e.log.handled))
    requires j < |e.log.sent| && !e.log.sent[j].content.Keepalive? && e.log.sent[j].index in Uncompleted(e)
    ensures e.log.sent[j].index in FirstUncompleted(e)
  {
    forall y | y in Uncompleted(e)
      ensures e.log.sent[j].index <= y
    {
    }
  }

  /** As long as packets are pushed in order none is refused. */
  lemma AckedOrUncompleted(e: Endpoint, i: nat)
    requires Settled(e.log.issued, e.queue.entries, e.log.handled) && RefusedIndices(e.log.handled) == {}
    requires i < |e.log.issued| && !e.log.issued[i].Keepalive?
    ensures i in AckedIndices(e.log.handled) || i in Uncompleted(e)
  {
    assert i in QueuedUpTo(e.log.issued, |e.log.issued|);
  }

  /** A transmitted packet is acknowledged, or is the first that is not. */
  lemma TransmittedIsAckedOrFirst(r: Role, e: Endpoint, i: nat, j: nat)
    requires PacketsOk(r, e) && Disciplined(r, e) && e.log.ordered
    requires j < |e.log.sent| && e.log.sent[j].index == i
    requires i < |e.log.issued| && !e.log.issued[i].Keepalive?
    ensures i in AckedIndices(e.log.handled) || i in FirstUncompleted(e)
  {
    assert PacketOk(r, e.log.issued, |e.log.accepted|, e.log.sent[j]);
    AckedOrUncompleted(e, i);
    if i in Uncompleted(e) {
      TransmittedIsFirst(e, j);
    }
  }

  /** Of the n packets the peer accepted, all but the first pending one were acknowledged. */
  lemma AcceptedIsAckedOrFirst(r: Role, e: Endpoint, n: nat)
    requires PacketsOk(r, e) && Disciplined(r, e) && e.log.ordered && n <= |e.log.issued|
    requires forall i: nat :: i < n ==> Transmitted(e.log.sent, i)
    ensures QueuedUpTo(e.log.issued, n) <= AckedIndices(e.log.handled) + FirstUncompleted(e)
  {
    forall i | i in QueuedUpTo(e.log.issued, n)
      ensures i in AckedIndices(e.log.handled) + FirstUncompleted(e)
    {
      assert Transmitted(e.log.sent, i);
      var j :| 0 <= j < |e.log.sent| && e.log.sent[j].index == i;
      TransmittedIsAckedOrFirst(r, e, i, j);
    }
  }

  lemma AckedIsAccepted(r: Role, e: Endpoint, n: nat)
    requires Disciplined(r, e) && n <= |e.log.issued|
    requires forall i :: i in AckedIndices(e.log.handled) ==> i < n
    ensures AckedIndices(e.log.handled) <= QueuedUpTo(e.log.issued, n)
  {
  }

  lemma SizesApart(completed: set<nat>, accepted: set<nat>, first: set<nat>)
    requires completed <= accepted <= completed + first && |first| <= 1
    ensures |completed| <= |accepted| <= |completed| + 1
  {
    SubsetSize(completed, accepted);
    SubsetSize(accepted, completed + first);
  }

  /** Every completed packet was accepted, before the wrap and as long as acknowledgements are timely. */
  lemma CompletedAreAccepted(connectorBase: nat, listenerBase: nat, run: seq<Event>, s: System, side: Side)
    requires Reaches(connectorBase, listenerBase, run, s)
    requires || Unwrapped(RoleOf(s, side), End(s, side).log.issued)
             || Throughout(TimelyAcks(side), Start(connectorBase, listenerBase), run)
    ensures AcksSound(End(s, side).log, End(s, Other(side)).log)
  {
    var start := Start(connectorBase, listenerBase);
    ReachedSafe(connectorBase, listenerBase, run, s);
    if Throughout(TimelyAcks(side), start, run) {
      StartSafe(connectorBase, listenerBase);
      StaysSound(start, run, side);
    }
  }

  lemma SafeSide(s: System, side: Side)
    requires Safe(s)
    ensures PacketsOk(RoleOf(s, side), End(s, side)) && Disciplined(RoleOf(s, side), End(s, side))
    ensures Linked(End(s, side).log, End(s, Other(side)).log)
  {
  }

  /** Before the numbers wrap packets are pushed in order. */
  lemma UnwrappedIsOrdered(connectorBase: nat, listenerBase: nat, run: seq<Event>, s: System, side: Side)
    requires Reaches(connectorBase, listenerBase, run, s) && Unwrapped(RoleOf(s, side), End(s, side).log.issued)
    ensures End(s, side).log.ordered
  {
    ReachedSafe(connectorBase, listenerBase, run, s);
    SafeSide(s, side);
  }

  /**
   Sender and receiver differ by at most one: the queued packets that the sender has seen acknowledged
   were all accepted, and of the others at most the first was too. This holds as long as the sender
   numbered no packet below a pending one, which is so before the wrap, and after it every acknowledgement
   it got was timely.
   */
  lemma AtMostOneAhead(connectorBase: nat, listenerBase: nat, run: seq<Event>, s: System, side: Side)
    requires Reaches(connectorBase, listenerBase, run, s)
    requires || Unwrapped(RoleOf(s, side), End(s, side).log.issued)
             || (End(s, side).log.ordered && Throughout(TimelyAcks(side), Start(connectorBase, listenerBase), run))
    ensures |End(s, Other(side)).log.accepted| <= |End(s, side).log.issued|
    ensures var completed := AckedIndices(End(s, side).log.handled);
            var accepted := QueuedUpTo(End(s, side).log.issued, |End(s, Other(side)).log.accepted|);
            && completed <= accepted <= completed + FirstUncompleted(End(s, side))
            && |completed| <= |accepted| <= |completed| + 1
  {
    var e, n := End(s, side), |End(s, Other(side)).log.accepted|;
    ReachedSafe(connectorBase, listenerBase, run, s);
    SafeSide(s, side);
    CompletedAreAccepted(connectorBase, listenerBase, run, s, side);
    AcceptedIsAckedOrFirst(RoleOf(s, side), e, n);
    AckedIsAccepted(RoleOf(s, side), e, n);
    FirstIsOne(e);
    SizesApart(AckedIndices(e.log.handled), QueuedUpTo(e.log.issued, n), FirstUncompleted(e));
  }

  /** As long as nothing failed to be sent no assertion is reachable, and the listener comes second. */
  lemma HandshakeAgreement(connectorBase: nat, listenerBase: nat, run: seq<Event>, s: System)
    requires Reaches(connectorBase, listenerBase, run, s) && !s.failed
    ensures !s.connector.fault && !s.listener.fault
    ensures s.listener.state.Established? ==> s.connector.state.Established?
  {
    ReachedSafe(connectorBase, listenerBase, run, s);
  }

  /** The listener's view when it becomes established, depending on the connector's second packet. */
  ghost predicate EstablishedAs(t: System, keepalive: Packet, second: Content) {
    && (t.listener.log.accepted == [Handshake, Keepalive] <==> second.Keepalive?)
    && (t.listener.log.accepted == [Handshake] <==> !second.Keepalive?)
    && t.listener.history == [if second.Keepalive? then keepalive.number else Raw(t.connectorBase)]
  }

  /**
   The listener becomes established by a keepalive that reaches it. At that moment the connector has
   accepted just the listener's handshake, and the front of the listener's history is that keepalive
   if the keepalive is the connector's first packet after the handshake; a connector that sent data
   before it was connected leaves its handshake there instead.
   */
  lemma ListenerEstablishes(connectorBase: nat, listenerBase: nat, run: seq<Event>, s: System, event: Event)
    requires Reaches(connectorBase, listenerBase, run, s)
    requires Enabled(s, event) && !s.listener.remote && Step(s, event).listener.remote
    ensures event.Deliver? && event.to.Listener?
    ensures var t, p := Step(s, event), s.connector.log.sent[event.datagram];
            && p.content.Keepalive? && t.listener.state.Established?
            && t.connector == s.connector && t.connector.history == [Raw(listenerBase)]
            && |t.connector.log.issued| > 1
            && EstablishedAs(t, p, t.connector.log.issued[1])
  {
    ReachedSafe(connectorBase, listenerBase, run, s);
    BaseStays(Start(connectorBase, listenerBase), run);
    OnlyKeepaliveRegisters(s, event);
    EstablishedFront(s, event);
  }

  lemma {:induction false} BaseStays(s: System, run: seq<Event>)
    requires IsRun(s, run)
    ensures Reached(s, run).connectorBase == s.connectorBase && Reached(s, run).listenerBase == s.listenerBase
    decreases |run|
  {
    if run != [] {
      BaseStays(Step(s, run[0]), run[1..]);
    }
  }

  lemma HandshakeRegistersNobody(s: System, j: nat, calls: seq<UserCall>, ackCalls: seq<UserCall>)
    requires Invariant(s) && MayDeliver(s, Listener, j) && !s.listener.fault && Listener !in s.closed
    requires s.connector.log.sent[j].content.Handshake?
    ensures DispatchPacket(s.listener, s.connector.log.sent[j], calls, ackCalls).remote == s.listener.remote
  {
    DatagramFacts(s, Connector, j);
    ListenerMeetsHandshake(RoleOf(s, Listener), s.listener, s.connector.log.sent[j], calls, ackCalls);
  }

  lemma UserStepsRegisterNobody(s: System, event: Event)
    requires Invariant(s) && Enabled(s, event) && (event.Call? || event.Tick? || event.Completed?)
    ensures Step(s, event).listener.remote == s.listener.remote
  {
    var side, e := event.side, End(s, event.side);
    match event
    case Call(_, call) => RunCallKeeps(RoleOf(s, side), e, call);
    case Tick(_) => QueueWaitKeeps(RoleOf(s, side), e);
    case Completed(_, step, error, bytes) => StepCompletedKeeps(RoleOf(s, side), e, e.log.steps[step], error, bytes);
  }

  lemma EndingRegistersNobody(s: System, event: Event)
    requires Enabled(s, event) && (event.CloseSocket? || event.KeepaliveTick?)
    ensures Step(s, event).listener.remote == s.listener.remote
  {
    var e := End(s, event.side);
    if event.CloseSocket? {
      CloseEnds(e);
    } else if Timers.Fires(e.rx.keepalive) {
      KeepaliveEnds(e);
    }
  }

  /** Nothing but a keepalive to the listener sets its remote endpoint. */
  lemma OnlyKeepaliveRegisters(s: System, event: Event)
    requires Invariant(s) && Enabled(s, event) && !s.listener.remote && Step(s, event).listener.remote
    ensures event.Deliver? && event.to.Listener?
    ensures s.connector.log.sent[event.datagram].content.Keepalive?
  {
    if event.Call? || event.Tick? || event.Completed? {
      UserStepsRegisterNobody(s, event);
    } else if event.CloseSocket? || event.KeepaliveTick? {
      EndingRegistersNobody(s, event);
    } else if event.Deliver? && event.to.Listener? && s.connector.log.sent[event.datagram].content.Handshake? {
      HandshakeRegistersNobody(s, event.datagram, event.calls, event.ackCalls);
    }
  }

  lemma GreetingIndex(s: System, j: nat)
    requires Invariant(s) && !s.listener.remote && j < |s.connector.log.sent|
    requires s.connector.log.sent[j].content.Keepalive?
    ensures var p := s.connector.log.sent[j];
            && 0 < p.index < |s.connector.log.issued| && p.number == Raw(s.connectorBase + p.index)
            && (p.index == 1 <==> s.connector.log.issued[1].Keepalive?)
  {
    DatagramFacts(s, Connector, j);
  }

  lemma EstablishedFront(s: System, event: Event)
    requires Invariant(s) && Enabled(s, event) && !s.listener.remote && Step(s, event).listener.remote
    requires event.Deliver? && event.to.Listener? && s.connector.log.sent[event.datagram].content.Keepalive?
    ensures var t, p := Step(s, event), s.connector.log.sent[event.datagram];
            && t.listener.state.Established?
            && t.connector == s.connector && t.connector.history == [Raw(s.listenerBase)]
            && |t.connector.log.issued| > 1
            && EstablishedAs(t, p, t.connector.log.issued[1])
  {
    var p := s.connector.log.sent[event.datagram];
    GreetingIndex(s, event.datagram);
    EstablishedAccepted(s, event);
    EstablishedListener(s, event, p.index == 1);
    ConnectorFront(s, event);
  }

  lemma GreetingDispatched(s: System, j: nat, calls: seq<UserCall>, ackCalls: seq<UserCall>)
    requires Invariant(s) && MayDeliver(s, Listener, j) && !s.listener.remote && !s.listener.fault
    requires Listener !in s.closed
    requires s.connector.log.sent[j].content.Keepalive?
    ensures var p := s.connector.log.sent[j];
            var f := DispatchPacket(s.listener, p, calls, ackCalls);
            && (f.remote ==> f.state.Established?)
            && f.log.accepted == if p.index == 1 then [Handshake, Keepalive] else [Handshake]
  {
    DatagramFacts(s, Connector, j);
    LaterDatagramsNeedHandshakes(s, Connector, j);
    ListenerMeetsKeepalive(RoleOf(s, Listener), s.listener, s.connector.log.sent[j], calls, ackCalls);
  }

  lemma EstablishedAccepted(s: System, event: Event)
    requires Invariant(s) && Enabled(s, event) && !s.listener.remote && Step(s, event).listener.remote
    requires event.Deliver? && event.to.Listener? && s.connector.log.sent[event.datagram].content.Keepalive?
    ensures var t, p := Step(s, event), s.connector.log.sent[event.datagram];
            && t.listener.state.Established? && t.connector == s.connector
            && t.listener.log.accepted == if p.index == 1 then [Handshake, Keepalive] else [Handshake]
  {
    GreetingDispatched(s, event.datagram, event.calls, event.ackCalls);
  }

  lemma StepHistories(s: System, event: Event)
    requires Invariant(s) && Enabled(s, event)
    ensures var t := Step(s, event);
            && t.connector.history == Seen(s.listenerBase, |t.connector.log.accepted|)
            && t.listener.history == Seen(s.connectorBase, |t.listener.log.accepted|)
  {
    NextHolds(s, event);
    BasesStay(s, event);
    HistoriesFollow(Step(s, event));
  }

  lemma SeenAfterAccept(base: nat, second: bool)
    ensures var accepted := if second then [Handshake, Keepalive] else [Handshake];
            Seen(base, |accepted|) == [Raw(base + if second then 1 else 0)]
  {
  }

  lemma SeenOne(base: nat, accepted: seq<Content>)
    requires |accepted| == 1
    ensures Seen(base, |accepted|) == [Raw(base)]
  {
  }

  lemma ConnectorFront(s: System, event: Event)
    requires Invariant(s) && Enabled(s, event) && !s.listener.remote && event.Deliver? && event.to.Listener?
    requires s.connector.log.sent[event.datagram].content.Keepalive?
    ensures s.connector.history == [Raw(s.listenerBase)]
  {
    HistoriesFollow(s);
    ConnectorAcceptedOne(s, event.datagram);
    SeenOne(s.listenerBase, s.connector.log.accepted);
  }

  lemma ListenerFront(t: System, base: nat, second: bool)
    requires t.listener.history == Seen(base, |t.listener.log.accepted|)
    requires t.listener.log.accepted == if second then [Handshake, Keepalive] else [Handshake]
    ensures t.listener.history == [Raw(base + if second then 1 else 0)]
  {
    SeenAfterAccept(base, second);
  }

  /** What the listener's history starts with when it becomes established. */
  lemma EstablishedListener(s: System, event: Event, second: bool)
    requires Invariant(s) && Enabled(s, event)
    requires Step(s, event).listener.log.accepted == if second then [Handshake, Keepalive] else [Handshake]
    ensures Step(s, event).listener.history == [Raw(s.connectorBase + if second then 1 else 0)]
  {
    StepHistories(s, event);
    ListenerFront(Step(s, event), s.connectorBase, second);
  }

  lemma HistoriesFollow(s: System)
    requires Invariant(s)
    ensures s.connector.history == Seen(s.listenerBase, |s.connector.log.accepted|)
    ensures s.listener.history == Seen(s.connectorBase, |s.listener.log.accepted|)
  {
  }

  lemma ConnectorAcceptedOne(s: System, j: nat)
    requires Invariant(s) && !s.listener.remote && j < |s.connector.log.sent|
    requires s.connector.log.sent[j].content.Keepalive?
    ensures |s.connector.log.accepted| == 1
  {
    LaterDatagramsNeedHandshakes(s, Connector, j);
  }
}
