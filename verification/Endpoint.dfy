/**
 One end of a connection as a value: what every operation of a socket does to its state, to the
 receive accounting of its multiplexer, and which datagrams it sends.

 A packet carries an index that is not on the wire: the position of the packet among all packets
 its sender ever numbered. It names packets in the proofs; no operation here reads it.
 */
module Endpoints {
  import opened SequenceNumbers
  import opened CumulativeSets
  import opened Wrappers
  import opened Timers
  import opened TransmitQueues
  import Wire

  const MAX: nat := 0xFFFF_FFFF

  datatype Connectivity = Closed | Listening | Connecting | Handshaking | Established

  type Payload = seq<Wire.byte>

  datatype Content = Handshake | Keepalive | Data(payload: Payload)

  datatype Packet = Packet(content: Content, number: nat, ack: Option<nat>, index: nat, ackIndex: nat)

  /** What a transmit queue entry sends; a handshake captured its acknowledgement when it was queued. */
  datatype Job = Job(content: Content, number: nat, ack: Option<nat>, index: nat, ackIndex: nat)

  /** The receive requests a socket has with its multiplexer, and the keepalive timer that guards them. */
  datatype Reception = Reception(receiving: bool, keepalive: Timer, calls: int, peeks: nat)

  datatype Delivery = Delivery(receive: nat, payload: Payload)

  /** Everything that happened at this end, for stating properties of whole runs. */
  datatype Log = Log(
    issued: seq<Content>,               // contents of the packets numbered so far
    accepted: seq<Content>,             // contents of the packets put in the history
    sent: seq<Packet>,                  // every datagram handed to the network
    steps: seq<Entry<Job>>,             // every step of the transmit queue
    handled: seq<HandlerCall<Job>>,     // every handler of a queue entry that was called
    receives: seq<nat>,                 // receives issued by the user
    delivered: seq<Delivery>,           // receives completed with a packet
    ordered: bool)                      // no packet was numbered below a pending one

  datatype State = State(
    open: bool,                         // a multiplexer is attached
    state: Connectivity,
    remote: bool,                       // the remote endpoint is known and registered
    next: nat,
    history: seq<nat>,
    queue: Queue<Job>,
    input: seq<nat>,                    // receives waiting for data
    output: seq<Payload>,                   // data waiting for receives
    claims: seq<nat>,                   // receives posted to take data from the output queue
    rx: Reception,
    fault: bool,                        // a failed assertion or an empty queue was popped
    log: Log)

  predicate WellFormed(e: State) {
    e.next <= MAX && OnCircle(MAX, e.history)
  }

  /** Raw sequence numbers lie on the circle. */
  type Endpoint = e: State | WellFormed(e)
    witness State(false, Closed, false, 0, [], Queue(map[], FRESH, true), [], [], [],
                  Reception(false, FRESH, 0, 0), false, Log([], [], [], [], [], [], [], true))

  datatype UserCall = Send(payload: Payload) | Receive(receive: nat)

  function New(open: bool, initial: nat): Endpoint
    requires initial <= MAX
  {
    State(open, Closed, false, initial, [], Queue(map[], FRESH, true), [], [], [],
          Reception(false, FRESH, 0, 0), false, Log([], [], [], [], [], [], [], true))
  }

  // Receive accounting.

  function MultiplexerStart(rx: Reception): Reception {
    rx.(calls := rx.calls + 1, peeks := if rx.calls == 0 then rx.peeks + 1 else rx.peeks)
  }

  function StartReceive(e: Endpoint): Endpoint {
    if e.rx.receiving then e
    else e.(rx := MultiplexerStart(e.rx).(receiving := true, keepalive := After(e.rx.keepalive, Call.Start)))
  }

  function StopReceive(e: Endpoint): Endpoint {
    if !e.rx.receiving then e else e.(rx := e.rx.(receiving := false, calls := e.rx.calls - 1))
  }

  function PacketArrived(e: Endpoint): Endpoint {
    e.(rx := e.rx.(receiving := false, keepalive := After(e.rx.keepalive, Call.Stop)))
  }

  // Sending.

  /** The index, among the peer's packets, of the last one accepted. */
  function LastAccepted(e: Endpoint): nat {
    if e.log.accepted == [] then 0 else |e.log.accepted| - 1
  }

  /** The number comes behind those of all pending packets. */
  predicate Behind(entries: map<nat, Entry<Job>>, number: nat) {
    forall k :: k in entries ==> k < number
  }

  function Issue(e: Endpoint, content: Content): Endpoint
  {
    e.(next := Next(MAX, e.next),
       log := e.log.(issued := e.log.issued + [content],
                     ordered := e.log.ordered && (content.Keepalive? || Behind(e.queue.entries, e.next))))
  }

  /** A step of a queue entry: data acknowledges whatever was accepted by now. */
  function Transmit(e: Endpoint, entry: Entry<Job>): Endpoint {
    var job := entry.job;
    var packet :=
      if job.content.Data? then Packet(job.content, job.number, Front(e.history), job.index, LastAccepted(e))
      else Packet(job.content, job.number, job.ack, job.index, job.ackIndex);
    e.(log := e.log.(sent := e.log.sent + [packet], steps := e.log.steps + [entry]))
  }

  /** The new queue is in place and the step it started was transmitted. */
  function ApplyEffect(e: Endpoint, fx: Effect<Job>): Endpoint
    requires fx.started.Some? ==> fx.started.value in fx.queue.entries
  {
    var moved := e.(queue := fx.queue);
    if fx.started.None? then moved else Transmit(moved, fx.queue.entries[fx.started.value])
  }

  /** The handler of a queue entry: the listener's reply, the connector's request, or the user's data. */
  function RunHandler(e: Endpoint, call: HandlerCall<Job>): Endpoint {
    var logged := e.(log := e.log.(handled := e.log.handled + [call]));
    var job := call.entry.job;
    if !job.content.Handshake? then logged
    else if job.ack.Some? then
      if call.outcome.Success? then logged.(state := Established, remote := true) else logged.(state := Closed)
    else if call.outcome.Success? then ProcessConnect(logged)
    else logged
  }

  function ProcessConnect(e: Endpoint): Endpoint {
    if e.state.Listening? || e.state.Handshaking? then e.(fault := true) else e
  }

  function RunHandlers(e: Endpoint, calls: seq<HandlerCall<Job>>): Endpoint {
    if calls == [] then e else RunHandler(RunHandlers(e, calls[..|calls| - 1]), calls[|calls| - 1])
  }

  function Enqueue(e: Endpoint, job: Job, size: nat): Endpoint {
    var fx := Pushed(e.queue, job.number, Entry(size, job));
    RunHandlers(ApplyEffect(e, fx), fx.calls)
  }

  function SendHandshake(e: Endpoint, ack: Option<nat>): Endpoint
  {
    var job := Job(Handshake, e.next, ack, |e.log.issued|, LastAccepted(e));
    Enqueue(StartReceive(Issue(e, Handshake)), job, 0)
  }

  function SendKeepalive(e: Endpoint, ack: Option<nat>): Endpoint
  {
    var packet := Packet(Keepalive, e.next, ack, |e.log.issued|, LastAccepted(e));
    var issued := Issue(e, Keepalive);
    issued.(log := issued.log.(sent := issued.log.sent + [packet]))
  }

  function SendData(e: Endpoint, payload: Payload): Endpoint
  {
    var job := Job(Data(payload), e.next, None, |e.log.issued|, 0);
    Enqueue(StartReceive(Issue(e, Data(payload))), job, |payload|)
  }

  // Calls made by the user, from outside or from inside a handler.

  function AsyncSend(e: Endpoint, payload: Payload): Endpoint
  {
    if !e.open then e else SendData(e, payload)
  }

  function AsyncReceive(e: Endpoint, receive: nat): Endpoint {
    if !e.open then e
    else
      var issued := e.(log := e.log.(receives := e.log.receives + [receive]));
      if e.output == [] then StartReceive(issued.(input := e.input + [receive]))
      else issued.(claims := e.claims + [receive])
  }

  /** The next posted receive runs; with no data left it would pop an empty queue. */
  function RunClaim(e: Endpoint): Endpoint
    requires e.claims != []
  {
    if e.output == [] then e.(fault := true)
    else
      e.(claims := e.claims[1..], output := e.output[1..],
         log := e.log.(delivered := e.log.delivered + [Delivery(e.claims[0], e.output[0])]))
  }

  function RunCall(e: Endpoint, call: UserCall): Endpoint {
    match call
    case Send(payload) => AsyncSend(e, payload)
    case Receive(receive) => AsyncReceive(e, receive)
  }

  function RunCalls(e: Endpoint, calls: seq<UserCall>): Endpoint {
    if calls == [] then e else RunCall(RunCalls(e, calls[..|calls| - 1]), calls[|calls| - 1])
  }

  function Connect(e: Endpoint): Endpoint
  {
    if !e.open || !e.state.Closed? then e
    else SendHandshake(e.(state := Connecting, remote := true), None)
  }

  /** An acceptor takes the socket: it attaches its multiplexer and requests a receive of its own. */
  function Listen(e: Endpoint): Endpoint {
    if !e.state.Closed? then e else e.(state := Listening, open := true, rx := MultiplexerStart(e.rx))
  }

  // Receiving.

  predicate IsExpected(e: Endpoint, number: nat) {
    e.history == [] || Next(MAX, e.history[0]) == number
  }

  function Remember(e: Endpoint, number: nat, content: Content): Endpoint
    requires number <= MAX
  {
    e.(history := Accept(MAX, e.history, number), log := e.log.(accepted := e.log.accepted + [content]))
  }

  function ProcessHandshake(e: Endpoint, initial: nat): Endpoint
    requires initial <= MAX
  {
    var seen := Remember(PacketArrived(e), initial, Handshake);
    match e.state
    case Listening => SendHandshake(seen, Some(initial))
    case Connecting => SendKeepalive(seen.(state := Handshaking), Some(initial))
    case _ => seen.(fault := true)
  }

  /** The keepalive that answers a handshake left the socket, or failed to. */
  function GreetingSent(e: Endpoint, error: bool): Endpoint {
    e.(state := if error then Closed else Established)
  }

  function ProcessKeepalive(e: Endpoint, number: nat): Endpoint
    requires number <= MAX
  {
    var arrived := PacketArrived(e);
    if !IsExpected(e, number) then StartReceive(arrived) else Remember(arrived, number, Keepalive)
  }

  /** What an accepted data packet does before the user's receive handler runs. */
  function TakeData(e: Endpoint, number: nat, payload: Payload): Endpoint
    requires number <= MAX
  {
    var seen := Remember(PacketArrived(e), number, Data(payload));
    if e.input == [] then seen.(output := e.output + [payload])
    else
      SendKeepalive(seen.(input := e.input[1..],
                          log := seen.log.(delivered := e.log.delivered + [Delivery(e.input[0], payload)])),
                    Front(seen.history))
  }

  function ProcessData(e: Endpoint, number: nat, payload: Payload, calls: seq<UserCall>): Endpoint
    requires number <= MAX
  {
    if !IsExpected(e, number) then StartReceive(PacketArrived(e))
    else
      var taken := TakeData(e, number, payload);
      var after := if e.input == [] then taken else RunCalls(taken, calls);
      if after.input != [] || after.queue.entries.Keys != {} then StartReceive(after) else after
  }

  function Acknowledge(e: Endpoint): Endpoint {
    match e.state
    case Established => e
    case Handshaking => e.(state := Established)
    case Listening => e
    case _ => e.(fault := true)
  }

  /** The queue's reaction to an acknowledgement, and the handler of the entry it names. */
  function ApplyAck(e: Endpoint, ack: nat): Endpoint {
    var fx := Acked(e.queue, ack);
    RunHandlers(ApplyEffect(e, fx), fx.calls)
  }

  function ProcessAcknowledgement(e: Endpoint, ack: nat, calls: seq<UserCall>): Endpoint
  {
    var seen := Acknowledge(e);
    if seen.fault then seen
    else
      var acked := ApplyAck(seen, ack);
      var after := if ack in e.queue.entries then RunCalls(acked, calls) else acked;
      if after.queue.entries.Keys != {} then StartReceive(after) else after
  }

  /** A message from the remote endpoint: the message itself first, then the acknowledgement it carries. */
  function Dispatch(e: Endpoint, content: Content, number: nat, ack: Option<nat>,
                    calls: seq<UserCall>, ackCalls: seq<UserCall>): Endpoint
    requires number <= MAX
  {
    var processed := Processed(e, content, number, calls);
    if ack.None? || processed.fault then processed
    else ProcessAcknowledgement(processed, ack.value, ackCalls)
  }

  function Processed(e: Endpoint, content: Content, number: nat, calls: seq<UserCall>): Endpoint
    requires number <= MAX
  {
    match content
    case Handshake => ProcessHandshake(e, number)
    case Keepalive => ProcessKeepalive(e, number)
    case Data(payload) => ProcessData(e, number, payload, calls)
  }

  // Asynchronous completions.

  function QueueWait(e: Endpoint): Endpoint
    requires e.queue.timer.waits > 0
  {
    ApplyEffect(e, WaitArrived(e.queue))
  }

  function StepCompleted(e: Endpoint, entry: Entry<Job>, error: bool, bytes: nat): Endpoint {
    var fx := StepDone(e.queue, entry, error, bytes);
    RunHandlers(e.(queue := fx.queue), fx.calls)
  }

  function Close(e: Endpoint): Endpoint {
    if !e.open then e
    else
      var fx := ShutDown(e.queue);
      var stopped := e.(rx := e.rx.(keepalive := After(e.rx.keepalive, Call.Stop)), queue := fx.queue, input := []);
      StopReceive(RunHandlers(stopped, fx.calls)).(open := false)
  }

  /** The keepalive timer's wait callback; when it fires the socket closes itself. */
  function KeepaliveWait(e: Endpoint): Endpoint
    requires e.rx.keepalive.waits > 0
  {
    var ticked := e.(rx := e.rx.(keepalive := Ticked(e.rx.keepalive)));
    if !Fires(e.rx.keepalive) then ticked
    else
      var closed := Close(ticked);
      closed.(rx := closed.rx.(keepalive := Returned(closed.rx.keepalive)))
  }
}
