/**
 Which number of bytes a connection reports to the handlers of its packets.
 */
module Reports {
  import opened Wrappers
  import Timers
  import opened TransmitQueues
  import opened Endpoints
  import opened EndpointFacts
  import opened Deliveries
  import opened Abortings
  import opened Connections
  import opened Acknowledgements
  import opened ConnectionRuns

  function SizeOf(content: Content): nat {
    if content.Data? then |content.payload| else 0
  }

  ghost predicate Sized(entries: map<nat, Entry<Job>>) {
    forall k :: k in entries ==> entries[k].size == SizeOf(entries[k].job.content)
  }

  /** Acknowledged and aborted packets report the size of their payload, refused ones nothing. */
  predicate RightlyTold(call: HandlerCall<Job>) {
    match call.outcome
    case Success => call.size == SizeOf(call.entry.job.content)
    case OperationAborted => call.size == SizeOf(call.entry.job.content)
    case AlreadyStarted => call.size == 0
    case StepFailed => true
  }

  ghost predicate AllTold(handled: seq<HandlerCall<Job>>) {
    forall i :: 0 <= i < |handled| ==> RightlyTold(handled[i])
  }

  ghost predicate Told(e: Endpoint) {
    Sized(e.queue.entries) && AllTold(e.log.handled)
  }

  lemma HandlerTells(e: Endpoint, calls: seq<HandlerCall<Job>>)
    requires Told(e) && |calls| <= 1 && AllTold(calls)
    ensures Told(RunHandlers(e, calls))
  {
    OneHandler(e, calls);
    if calls != [] {
      HandlerChanges(e, calls[0]);
    }
  }

  lemma EffectTells(e: Endpoint, fx: Effect<Job>)
    requires Told(e) && Sized(fx.queue.entries)
    requires fx.started.Some? ==> fx.started.value in fx.queue.entries
    ensures Told(ApplyEffect(e, fx))
  {
    EffectChanges(e, fx);
  }

  lemma EnqueueTells(e: Endpoint, job: Job)
    requires Told(e)
    ensures Told(Enqueue(e, job, SizeOf(job.content)))
  {
    var fx := Pushed(e.queue, job.number, Entry(SizeOf(job.content), job));
    EffectTells(e, fx);
    HandlerTells(ApplyEffect(e, fx), fx.calls);
  }

  lemma SendHandshakeTells(e: Endpoint, ack: Option<nat>)
    requires Told(e)
    ensures Told(SendHandshake(e, ack))
  {
    EnqueueTells(StartReceive(Issue(e, Handshake)), Job(Handshake, e.next, ack, |e.log.issued|, LastAccepted(e)));
  }

  lemma RunCallTells(e: Endpoint, call: UserCall)
    requires Told(e)
    ensures Told(RunCall(e, call))
  {
    match call
    case Send(payload) =>
      EnqueueTells(StartReceive(Issue(e, Data(payload))), Job(Data(payload), e.next, None, |e.log.issued|, 0));
    case Receive(receive) => AsyncReceiveChanges(e, receive);
  }

  lemma {:induction false} RunCallsTell(e: Endpoint, calls: seq<UserCall>)
    requires Told(e)
    ensures Told(RunCalls(e, calls))
  {
    if calls != [] {
      RunCallsTell(e, calls[..|calls| - 1]);
      RunCallTells(RunCalls(e, calls[..|calls| - 1]), calls[|calls| - 1]);
    }
  }

  lemma ProcessHandshakeTells(e: Endpoint, number: nat)
    requires Told(e) && number <= MAX
    ensures Told(ProcessHandshake(e, number))
  {
    if e.state.Listening? {
      SendHandshakeTells(Remember(PacketArrived(e), number, Handshake), Some(number));
    }
  }

  lemma ProcessDataTells(e: Endpoint, number: nat, payload: Payload, calls: seq<UserCall>)
    requires Told(e) && number <= MAX
    ensures Told(ProcessData(e, number, payload, calls))
  {
    if IsExpected(e, number) {
      RunCallsTell(TakeData(e, number, payload), calls);
    }
  }

  lemma AcknowledgementTells(e: Endpoint, ack: nat, calls: seq<UserCall>)
    requires Told(e)
    ensures Told(ProcessAcknowledgement(e, ack, calls))
  {
    var seen := Acknowledge(e);
    AcknowledgeChanges(e);
    if !seen.fault {
      var fx := Acked(seen.queue, ack);
      EffectTells(seen, fx);
      HandlerTells(ApplyEffect(seen, fx), fx.calls);
      RunCallsTell(ApplyAck(seen, ack), calls);
    }
  }

  lemma DispatchTells(e: Endpoint, p: Packet, calls: seq<UserCall>, ackCalls: seq<UserCall>)
    requires Told(e) && p.number <= MAX
    ensures Told(DispatchPacket(e, p, calls, ackCalls))
  {
    match p.content {
      case Handshake => ProcessHandshakeTells(e, p.number);
      case Keepalive =>
      case Data(payload) => ProcessDataTells(e, p.number, payload, calls);
    }
    if p.ack.Some? {
      AcknowledgementTells(ProcessedPacket(e, p, calls), p.ack.value, ackCalls);
    }
  }

  lemma ConnectTells(e: Endpoint)
    requires Told(e)
    ensures Told(Connect(e))
  {
    SendHandshakeTells(e.(state := Connecting, remote := true), None);
  }

  /** On an open side a step that completed without error is not reported. */
  lemma StepCompletedTells(e: Endpoint, entry: Entry<Job>, error: bool, bytes: nat)
    requires Told(e) && e.queue.alive
    ensures Told(StepCompleted(e, entry, error, bytes))
  {
    var fx := StepDone(e.queue, entry, error, bytes);
    HandlerTells(e.(queue := fx.queue), fx.calls);
  }

  lemma AbortsTell(entries: map<nat, Entry<Job>>)
    requires Sized(entries)
    ensures AllTold(Aborted(InOrder(entries)))
  {
    forall i | 0 <= i < |InOrder(entries)|
      ensures RightlyTold(Aborted(InOrder(entries))[i])
    {
      InOrderAre(entries, i);
    }
  }

  lemma EndedTells(e: Endpoint, f: Endpoint)
    requires Told(e) && Ended(e, f)
    ensures Told(f)
  {
    AbortsTell(e.queue.entries);
  }

  lemma KeepaliveWaitTells(e: Endpoint)
    requires Told(e) && e.open && e.rx.keepalive.waits > 0
    ensures Told(KeepaliveWait(e))
  {
    if Timers.Fires(e.rx.keepalive) {
      KeepaliveEnds(e);
      EndedTells(e, KeepaliveWait(e));
    }
  }

  lemma OwnStepTells(s: System, event: Event)
    requires Enabled(s, event) && !event.Deliver? && Told(End(s, Actor(event)))
    requires End(s, Actor(event)).queue.alive
    ensures Told(End(Step(s, event), Actor(event)))
  {
    var e := End(s, Actor(event));
    match event
    case CallConnect => ConnectTells(e);
    case Call(_, call) => RunCallTells(e, call);
    case Tick(_) => EffectTells(e, WaitArrived(e.queue));
    case Completed(_, step, error, bytes) => StepCompletedTells(e, e.log.steps[step], error, bytes);
    case CloseSocket(_) =>
      CloseEnds(e);
      EndedTells(e, Close(e));
    case KeepaliveTick(_) => KeepaliveWaitTells(e);
    case _ =>
  }

  lemma NextTells(s: System, event: Event, side: Side)
    requires Invariant(s) && Enabled(s, event) && Told(End(s, side))
    ensures Told(End(Step(s, event), side))
  {
    if Actor(event) != side {
      OthersStay(s, event, side);
    } else if event.Deliver? {
      var p := End(s, Other(side)).log.sent[event.datagram];
      if !Dropped(End(s, side), p) {
        DeliveredEnd(s, event);
        DispatchTells(End(s, side), p, event.calls, event.ackCalls);
      }
    } else {
      EndsAreOk(s, side);
      OwnStepTells(s, event);
    }
  }

  lemma {:induction false} StaysTold(s: System, run: seq<Event>, side: Side)
    requires Safe(s) && IsRun(s, run) && Told(End(s, side))
    ensures Told(End(Reached(s, run), side))
    decreases |run|
  {
    if run != [] {
      NextSafe(s, run[0]);
      NextTells(s, run[0], side);
      StaysTold(Step(s, run[0]), run[1..], side);
    }
  }

  /**
   In every run, each handler of a packet that was called with success or an abort was told the size of its
   payload, nothing for a handshake, and each handler of a refused packet was told 0.
   */
  lemma SizesAreReported(connectorBase: nat, listenerBase: nat, run: seq<Event>, s: System, side: Side, i: nat)
    requires Reaches(connectorBase, listenerBase, run, s) && i < |End(s, side).log.handled|
    ensures var call := End(s, side).log.handled[i];
            && (call.outcome.Success? || call.outcome.OperationAborted? ==>
                  call.size == if call.entry.job.content.Data? then |call.entry.job.content.payload| else 0)
            && (call.outcome.AlreadyStarted? ==> call.size == 0)
  {
    StartSafe(connectorBase, listenerBase);
    StaysTold(Start(connectorBase, listenerBase), run, side);
  }
}
