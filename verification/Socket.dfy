/**
 The socket and its multiplexer as objects. Every method is proved to do to the object what the
 operation of the same name does to an endpoint value; the properties are proved of those values.
 */
module Sockets {
  import opened SequenceNumbers
  import opened CumulativeSets
  import opened Wrappers
  import opened Timers
  import opened TransmitQueues
  import E = Endpoints
  import P = Peeks
  import Wire
  import Concatenation

  type Job = E.Job

  /** The receive requests made of the shared UDP socket, and the peeks that were started for them. */
  class Multiplexer {
    var receiveCalls: int
    var peeks: nat

    constructor ()
      ensures receiveCalls == 0 && peeks == 0
    {
      receiveCalls, peeks := 0, 0;
    }

    method StartReceive()
      modifies this
      ensures receiveCalls == old(receiveCalls) + 1
      ensures peeks == if old(receiveCalls) == 0 then old(peeks) + 1 else old(peeks)
    {
      receiveCalls := receiveCalls + 1;
      if receiveCalls == 1 {
        DoStartReceive();
      }
    }

    /** With no request left the socket sends itself an empty packet, which ends the outstanding peek. */
    method StopReceive()
      modifies this
      ensures receiveCalls == old(receiveCalls) - 1 && peeks == old(peeks)
    {
      receiveCalls := receiveCalls - 1;
    }

    method DoStartReceive()
      modifies this
      ensures peeks == old(peeks) + 1 && receiveCalls == old(receiveCalls)
    {
      peeks := peeks + 1;
    }

    /**
     A peek completed for the socket that the sender's address belongs to, or that waits at the head of
     the acceptor's queue. A handshake's number must fit the order of the history it is inserted in.
     */
    method ProcessPeek(socket: Socket, readable: bool, frame: seq<Wire.byte>,
                       calls: seq<E.UserCall>, ackCalls: seq<E.UserCall>)
      requires socket.Valid() && socket.multiplexer == this && peeks > 0
      requires |frame| >= Wire.HEADER_SIZE ==> FitsHistory(socket, Wire.Decoded(frame[..Wire.HEADER_SIZE]))
      modifies socket.Parts()
      ensures socket.Valid() && socket.View() == P.Peeked(old(socket.View()), readable, frame, calls, ackCalls)
    {
      peeks := peeks - 1;
      if receiveCalls == 0 {
        return;
      }
      if !readable || |frame| < Wire.HEADER_SIZE {
        DoStartReceive();
        return;
      }
      assert socket.View() == P.PeekTaken(old(socket.View()));
      ProcessDatagram(socket, frame, calls, ackCalls);
      FinishPeek(socket);
    }

    /** The request that the datagram answered is counted off; another peek starts if one is left. */
    method FinishPeek(ghost socket: Socket)
      requires socket.Valid() && socket.multiplexer == this
      modifies this
      ensures socket.Valid() && socket.View() == P.PeekDone(old(socket.View()))
    {
      receiveCalls := receiveCalls - 1;
      if receiveCalls > 0 {
        DoStartReceive();
      }
    }

    /** The datagram is read and decoded; an unknown message type for a registered socket is an assertion. */
    method ProcessDatagram(socket: Socket, frame: seq<Wire.byte>, calls: seq<E.UserCall>, ackCalls: seq<E.UserCall>)
      requires socket.Valid() && socket.multiplexer == this && |frame| >= Wire.HEADER_SIZE
      requires FitsHistory(socket, Wire.Decoded(frame[..Wire.HEADER_SIZE]))
      modifies socket.Parts()
      ensures socket.Valid()
      ensures socket.View() == if old(socket.remote) then P.Registered(old(socket.View()), frame, calls, ackCalls)
                               else P.Establish(old(socket.View()), frame, calls, ackCalls)
    {
      var header, payload := Concatenation.Unframe(frame);
      if !socket.remote {
        EstablishConnection(socket, header, payload, calls, ackCalls);
      } else if header.None? {
        socket.fault := true;
      } else {
        Dispatch(socket, header.value, payload, calls, ackCalls);
      }
    }

    ghost predicate FitsHistory(socket: Socket, header: Option<Wire.Header>)
      reads socket, socket.sequenceHistory
    {
      header.Some? && header.value.kind.Handshake? ==>
        Sorted(E.MAX, Inserted(E.MAX, socket.sequenceHistory.container, P.NumberOf(header.value.sequence)))
    }

    /** The message first, then the acknowledgement it carries. */
    method Dispatch(socket: Socket, header: Wire.Header, payload: E.Payload,
                    calls: seq<E.UserCall>, ackCalls: seq<E.UserCall>)
      requires socket.Valid() && socket.multiplexer == this && FitsHistory(socket, Some(header))
      modifies socket.Parts()
      ensures socket.Valid() && socket.View() == P.DispatchHeader(old(socket.View()), header, payload, calls, ackCalls)
    {
      var number := P.NumberOf(header.sequence);
      match header.kind {
        case Handshake => socket.ProcessHandshake(number);
        case Keepalive => socket.ProcessKeepalive(number);
        case Data =>
          var pending := socket.GetRecvBuffers();
          socket.ProcessData(number, payload, !pending, calls);
      }
      if header.ack.Some? && !socket.fault {
        socket.ProcessAcknowledgement(P.NumberOf(header.ack.value), ackCalls);
      }
    }

    /** Data from an unknown sender is dropped; an established socket leaves the acceptor's queue. */
    method EstablishConnection(socket: Socket, header: Option<Wire.Header>, payload: E.Payload,
                               calls: seq<E.UserCall>, ackCalls: seq<E.UserCall>)
      requires socket.Valid() && socket.multiplexer == this && FitsHistory(socket, header)
      modifies socket.Parts()
      ensures socket.Valid()
      ensures socket.View() ==
              if header.None? || header.value.kind.Data? then old(socket.View())
              else
                P.CountEstablished(P.DispatchHeader(old(socket.View()), header.value, payload, calls, ackCalls))
    {
      if header.None? || header.value.kind.Data? {
        return;
      }
      Dispatch(socket, header.value, payload, calls, ackCalls);
      if socket.state == E.Established {
        receiveCalls := receiveCalls - 1;
      } else {
        receiveCalls := receiveCalls + 1;
      }
    }
  }

  datatype AcceptResult = Accepting | NotBound | AlreadyConnected | AlreadyStarted

  /** The listening end: it hands sockets to its multiplexer, to be established by a peer. */
  class Acceptor {
    const multiplexer: Multiplexer
    const bound: bool

    constructor (multiplexer: Multiplexer, bound: bool)
      ensures this.multiplexer == multiplexer && this.bound == bound
    {
      this.multiplexer, this.bound := multiplexer, bound;
    }

    method AsyncAccept(socket: Socket) returns (result: AcceptResult)
      requires socket.Valid() && socket.multiplexer == multiplexer
      modifies socket, multiplexer
      ensures socket.Valid()
      ensures socket.View() == if bound then E.Listen(old(socket.View())) else old(socket.View())
      ensures result == if !bound then NotBound
                        else if old(socket.state).Closed? then Accepting
                        else if old(socket.state).Established? then AcceptResult.AlreadyConnected
                        else AcceptResult.AlreadyStarted
    {
      if !bound {
        return NotBound;
      }
      match socket.state {
        case Closed =>
          socket.state, socket.open := E.Listening, true;
          multiplexer.StartReceive();
          result := Accepting;
        case Established => result := AcceptResult.AlreadyConnected;
        case _ => result := AcceptResult.AlreadyStarted;
      }
    }
  }

  /**
   A socket. Attaching and detaching its multiplexer is the flag open; the log is the record of what
   happened so far, and handing a datagram to the network is an entry in it.
   */
  class Socket {
    const multiplexer: Multiplexer
    const nextSequence: SequenceNumber
    const sequenceHistory: CumulativeSet
    const transmitQueue: TransmitQueue<Job>
    const keepaliveTimer: TimerObject
    var open: bool
    var state: E.Connectivity
    var remote: bool
    var input: seq<nat>
    var output: seq<E.Payload>
    var claims: seq<nat>
    var receiving: bool
    var fault: bool
    var log: E.Log

    ghost function Parts(): set<object>
      reads this
    {
      {this, multiplexer, nextSequence, sequenceHistory, transmitQueue, transmitQueue.timer, keepaliveTimer}
    }

    ghost predicate Valid()
      reads Parts()
    {
      && nextSequence.Valid() && nextSequence.max == E.MAX
      && sequenceHistory.Valid() && sequenceHistory.max == E.MAX
      && transmitQueue.Valid()
      && keepaliveTimer.Valid() && keepaliveTimer != transmitQueue.timer
    }

    ghost function View(): E.Endpoint
      requires Valid()
      reads Parts()
    {
      E.State(open, state, remote, nextSequence.n, sequenceHistory.container, transmitQueue.View(),
              input, output, claims,
              E.Reception(receiving, keepaliveTimer.View(), multiplexer.receiveCalls, multiplexer.peeks),
              fault, log)
    }

    constructor (multiplexer: Multiplexer, attached: bool, initial: nat)
      requires initial <= E.MAX
      ensures Valid() && this.multiplexer == multiplexer && fresh(Parts() - {multiplexer})
      ensures View() == E.New(attached, initial)
                        .(rx := E.Reception(false, FRESH, multiplexer.receiveCalls, multiplexer.peeks))
    {
      this.multiplexer := multiplexer;
      nextSequence := new SequenceNumber(E.MAX, initial);
      sequenceHistory := new CumulativeSet(E.MAX);
      transmitQueue := new TransmitQueue();
      keepaliveTimer := new TimerObject();
      open, state, remote := attached, E.Closed, false;
      input, output, claims := [], [], [];
      receiving, fault := false, false;
      log := E.Log([], [], [], [], [], [], [], true);
    }

    // Receive accounting.

    method IdempotentStartReceive()
      requires Valid()
      modifies Parts()
      ensures Valid() && View() == E.StartReceive(old(View()))
    {
      if receiving {
        return;
      }
      receiving := true;
      multiplexer.StartReceive();
      keepaliveTimer.Start();
    }

    method IdempotentStopReceive()
      requires Valid()
      modifies Parts()
      ensures Valid() && View() == E.StopReceive(old(View()))
    {
      if !receiving {
        return;
      }
      receiving := false;
      multiplexer.StopReceive();
    }

    method OnAnyPacketReceived()
      requires Valid()
      modifies Parts()
      ensures Valid() && View() == E.PacketArrived(old(View()))
    {
      receiving := false;
      keepaliveTimer.Stop();
    }

    // Sending.

    method LastAccepted() returns (r: nat)
      requires Valid()
      ensures r == E.LastAccepted(View())
    {
      r := if log.accepted == [] then 0 else |log.accepted| - 1;
    }

    /** Numbers the next packet. */
    method Issue(content: E.Content) returns (number: nat)
      requires Valid()
      modifies Parts()
      ensures Valid() && number == old(nextSequence.n) && View() == E.Issue(old(View()), content)
    {
      number := nextSequence.PostIncrement();
      log := log.(issued := log.issued + [content],
                  ordered := log.ordered && (content.Keepalive? || E.Behind(transmitQueue.entries, number)));
    }

    /** The step of a queue entry: data picks up the current acknowledgement. */
    method Transmit(entry: Entry<Job>)
      requires Valid()
      modifies this
      ensures Valid() && View() == E.Transmit(old(View()), entry)
    {
      var job := entry.job;
      var ack, ackIndex := job.ack, job.ackIndex;
      if job.content.Data? {
        ack := sequenceHistory.FrontElement();
        ackIndex := LastAccepted();
      }
      var packet := E.Packet(job.content, job.number, ack, job.index, ackIndex);
      log := log.(sent := log.sent + [packet], steps := log.steps + [entry]);
    }

    /** Transmits the entry whose step the queue started, if it started one. */
    method TransmitStarted(started: Option<nat>)
      requires Valid() && (started.Some? ==> started.value in transmitQueue.entries)
      modifies this
      ensures Valid()
      ensures View() == if started.None? then old(View())
                        else E.Transmit(old(View()), transmitQueue.entries[started.value])
    {
      if started.Some? {
        Transmit(transmitQueue.entries[started.value]);
      }
    }

    method RunHandler(call: HandlerCall<Job>)
      requires Valid()
      modifies this
      ensures Valid() && View() == E.RunHandler(old(View()), call)
    {
      log := log.(handled := log.handled + [call]);
      var job := call.entry.job;
      if job.content.Handshake? {
        if job.ack.Some? {
          if call.outcome.Success? {
            state, remote := E.Established, true;
          } else {
            state := E.Closed;
          }
        } else if call.outcome.Success? {
          var _ := ProcessConnect();
        }
      }
    }

    /** The handler of async_connect is called in three of the states; the other two are asserted not to occur. */
    method ProcessConnect() returns (result: Option<ConnectCompletion>)
      requires Valid()
      modifies this
      ensures Valid() && View() == E.ProcessConnect(old(View()))
      ensures result == if old(state).Closed? then Some(ConnectAborted)
                        else if old(state).Listening? || old(state).Handshaking? then None
                        else Some(ConnectSucceeded)
    {
      match state
      case Connecting => result := Some(ConnectSucceeded);
      case Established => result := Some(ConnectSucceeded);
      case Listening => fault, result := true, None;
      case Handshaking => fault, result := true, None;
      case Closed => result := Some(ConnectAborted);
    }

    method RunHandlers(calls: seq<HandlerCall<Job>>)
      requires Valid()
      modifies this
      ensures Valid() && View() == E.RunHandlers(old(View()), calls)
    {
      for i := 0 to |calls|
        invariant Valid() && View() == E.RunHandlers(old(View()), calls[..i])
      {
        assert calls[..i + 1][..i] == calls[..i];
        RunHandler(calls[i]);
      }
      assert calls[..|calls|] == calls;
    }

    method Enqueue(job: Job, size: nat)
      requires Valid()
      modifies Parts()
      ensures Valid() && View() == E.Enqueue(old(View()), job, size)
    {
      ghost var fx := Pushed(transmitQueue.View(), job.number, Entry(size, job));
      var started, calls := transmitQueue.Push(job.number, Entry(size, job));
      TransmitStarted(started);
      assert View() == E.ApplyEffect(old(View()), fx);
      RunHandlers(calls);
    }

    method SendHandshake(ack: Option<nat>)
      requires Valid()
      modifies Parts()
      ensures Valid() && View() == E.SendHandshake(old(View()), ack)
    {
      var index := |log.issued|;
      var ackIndex := LastAccepted();
      var number := Issue(E.Handshake);
      IdempotentStartReceive();
      Enqueue(E.Job(E.Handshake, number, ack, index, ackIndex), 0);
    }

    method SendKeepalive(ack: Option<nat>)
      requires Valid()
      modifies Parts()
      ensures Valid() && View() == E.SendKeepalive(old(View()), ack)
    {
      var index := |log.issued|;
      var ackIndex := LastAccepted();
      var number := Issue(E.Keepalive);
      log := log.(sent := log.sent + [E.Packet(E.Keepalive, number, ack, index, ackIndex)]);
    }

    method SendData(payload: E.Payload)
      requires Valid()
      modifies Parts()
      ensures Valid() && View() == E.SendData(old(View()), payload)
    {
      var index := |log.issued|;
      var number := Issue(E.Data(payload));
      IdempotentStartReceive();
      Enqueue(E.Job(E.Data(payload), number, None, index, 0), |payload|);
    }

    // Calls made by the user.

    /** On a socket without a multiplexer the handler is posted with not_connected. */
    method AsyncSend(payload: E.Payload) returns (connected: bool)
      requires Valid()
      modifies Parts()
      ensures Valid() && connected == old(open) && View() == E.AsyncSend(old(View()), payload)
    {
      connected := open;
      if open {
        SendData(payload);
      }
    }

    method AsyncReceive(receive: nat) returns (connected: bool)
      requires Valid()
      modifies Parts()
      ensures Valid() && connected == old(open) && View() == E.AsyncReceive(old(View()), receive)
    {
      connected := open;
      if open {
        log := log.(receives := log.receives + [receive]);
        if output == [] {
          input := input + [receive];
          IdempotentStartReceive();
        } else {
          claims := claims + [receive];
        }
      }
    }

    /** The oldest posted receive runs. */
    method RunClaim()
      requires Valid() && claims != []
      modifies this
      ensures Valid() && View() == E.RunClaim(old(View()))
    {
      if output == [] {
        fault := true;
        return;
      }
      var receive, payload := claims[0], output[0];
      claims, output := claims[1..], output[1..];
      log := log.(delivered := log.delivered + [E.Delivery(receive, payload)]);
    }

    /** A handler of the user, which makes the given calls. */
    method RunCalls(calls: seq<E.UserCall>)
      requires Valid()
      modifies Parts()
      ensures Valid() && View() == E.RunCalls(old(View()), calls)
    {
      for i := 0 to |calls|
        invariant Valid() && View() == E.RunCalls(old(View()), calls[..i])
      {
        assert calls[..i + 1][..i] == calls[..i];
        match calls[i] {
          case Send(payload) => var _ := AsyncSend(payload);
          case Receive(receive) => var _ := AsyncReceive(receive);
        }
      }
      assert calls[..|calls|] == calls;
    }

    /** The socket must be bound, and neither connected nor on its way to be. */
    method AsyncConnect() returns (result: ConnectResult)
      requires Valid()
      modifies Parts()
      ensures Valid() && View() == E.Connect(old(View()))
      ensures result == if !old(open) then InvalidArgument
                        else if old(state).Closed? then InProgress
                        else if old(state).Established? then ConnectResult.AlreadyConnected
                        else ConnectResult.AlreadyStarted
    {
      if !open {
        return InvalidArgument;
      }
      match state {
        case Closed =>
          state, remote := E.Connecting, true;
          SendHandshake(None);
          result := InProgress;
        case Established => result := ConnectResult.AlreadyConnected;
        case _ => result := ConnectResult.AlreadyStarted;
      }
    }

    // Receiving.

    /** Are there buffers of a pending receive to read a payload into? */
    method GetRecvBuffers() returns (pending: bool)
      ensures pending <==> input != []
    {
      pending := input != [];
    }

    method IsExpectedPacket(number: nat) returns (r: bool)
      requires Valid()
      ensures r <==> E.IsExpected(View(), number)
    {
      var lastSeen := sequenceHistory.FrontElement();
      if lastSeen.Some? {
        if Next(E.MAX, lastSeen.value) != number {
          return false;
        }
      }
      r := true;
    }

    /** Puts a number in the history; the ordered set demands that its keys stay in order. */
    method Remember(number: nat, content: E.Content)
      requires Valid() && number <= E.MAX
      requires Sorted(E.MAX, Inserted(E.MAX, sequenceHistory.container, number))
      modifies Parts()
      ensures Valid() && View() == E.Remember(old(View()), number, content)
    {
      sequenceHistory.Insert(number);
      log := log.(accepted := log.accepted + [content]);
    }

    /** The same for a number that is expected: it is the first one, or the successor of the front. */
    method RememberExpected(number: nat, content: E.Content)
      requires Valid() && number <= E.MAX && E.IsExpected(View(), number)
      modifies Parts()
      ensures Valid() && View() == E.Remember(old(View()), number, content)
    {
      if sequenceHistory.container != [] {
        SuccessorKeepsOrder(E.MAX, sequenceHistory.container);
      }
      Remember(number, content);
    }

    method ProcessHandshake(initial: nat)
      requires Valid() && initial <= E.MAX
      requires Sorted(E.MAX, Inserted(E.MAX, sequenceHistory.container, initial))
      modifies Parts()
      ensures Valid() && View() == E.ProcessHandshake(old(View()), initial)
    {
      OnAnyPacketReceived();
      Remember(initial, E.Handshake);
      match state
      case Listening => SendHandshake(Some(initial));
      case Connecting =>
        state := E.Handshaking;
        SendKeepalive(Some(initial));
      case _ => fault := true;
    }

    method OnGreetingSent(error: bool)
      requires Valid()
      modifies this
      ensures Valid() && View() == E.GreetingSent(old(View()), error)
    {
      state := if error then E.Closed else E.Established;
    }

    method ProcessKeepalive(number: nat)
      requires Valid() && number <= E.MAX
      modifies Parts()
      ensures Valid() && View() == E.ProcessKeepalive(old(View()), number)
    {
      OnAnyPacketReceived();
      var expected := IsExpectedPacket(number);
      if !expected {
        IdempotentStartReceive();
        return;
      }
      RememberExpected(number, E.Keepalive);
    }

    /** An expected data packet, after its arrival was noted, up to the user's handler. */
    method TakeData(number: nat, payload: E.Payload)
      requires Valid() && number <= E.MAX && E.IsExpected(View(), number)
      requires E.PacketArrived(View()) == View()
      modifies Parts()
      ensures Valid() && View() == E.TakeData(old(View()), number, payload)
    {
      RememberExpected(number, E.Data(payload));
      if input == [] {
        output := output + [payload];
      } else {
        var receive := input[0];
        input := input[1..];
        log := log.(delivered := log.delivered + [E.Delivery(receive, payload)]);
        var ack := sequenceHistory.FrontElement();
        SendKeepalive(ack);
      }
    }

    /**
     The payload was read into a fresh buffer exactly when no receive is pending, as both of the
     assertions in the two branches demand. The user's handler makes the given calls.
     */
    method ProcessData(number: nat, payload: E.Payload, buffered: bool, calls: seq<E.UserCall>)
      requires Valid() && number <= E.MAX && (buffered <==> input == [])
      modifies Parts()
      ensures Valid() && View() == E.ProcessData(old(View()), number, payload, calls)
    {
      OnAnyPacketReceived();
      var expected := IsExpectedPacket(number);
      if !expected {
        IdempotentStartReceive();
        return;
      }
      TakeData(number, payload);
      if !buffered {
        RunCalls(calls);
      }
      if input != [] || transmitQueue.entries.Keys != {} {
        IdempotentStartReceive();
      }
    }

    method ProcessAcknowledgement(ack: nat, calls: seq<E.UserCall>)
      requires Valid()
      modifies Parts()
      ensures Valid() && View() == E.ProcessAcknowledgement(old(View()), ack, calls)
    {
      match state {
        case Established =>
        case Handshaking => state := E.Established;
        case Listening =>
        case _ => fault := true;
      }
      if fault {
        return;
      }
      var named := ack in transmitQueue.entries;
      ApplyAck(ack);
      if named {
        RunCalls(calls);
      }
      if transmitQueue.entries.Keys != {} {
        IdempotentStartReceive();
      }
    }

    method ApplyAck(ack: nat)
      requires Valid()
      modifies Parts()
      ensures Valid() && View() == E.ApplyAck(old(View()), ack)
    {
      ghost var fx := Acked(transmitQueue.View(), ack);
      var started, calls := transmitQueue.ApplyAck(ack);
      TransmitStarted(started);
      assert View() == E.ApplyEffect(old(View()), fx);
      RunHandlers(calls);
    }

    // Asynchronous completions.

    method OnQueueWait()
      requires Valid() && transmitQueue.timer.waits > 0
      modifies Parts()
      ensures Valid() && View() == E.QueueWait(old(View()))
    {
      var started := transmitQueue.OnWait();
      TransmitStarted(started);
    }

    method OnStepDone(entry: Entry<Job>, error: bool, bytes: nat)
      requires Valid()
      modifies Parts()
      ensures Valid() && View() == E.StepCompleted(old(View()), entry, error, bytes)
    {
      var calls := transmitQueue.OnStepDone(entry, error, bytes);
      RunHandlers(calls);
    }

    method Close()
      requires Valid()
      modifies Parts()
      ensures Valid() && View() == E.Close(old(View()))
    {
      if !open {
        return;
      }
      keepaliveTimer.Stop();
      var calls := transmitQueue.Shutdown();
      AbortReceives();
      RunHandlers(calls);
      IdempotentStopReceive();
      open := false;
    }

    /** The handlers of waiting receives are posted with operation_aborted. */
    method AbortReceives()
      requires Valid()
      modifies this`input
      ensures Valid() && View() == old(View()).(input := [])
    {
      while input != []
        invariant Valid() && View() == old(View()).(input := input)
        decreases |input|
      {
        input := input[1..];
      }
    }

    /** A wait callback of the keepalive timer, whose handler closes the socket. */
    method OnKeepaliveWait()
      requires Valid() && keepaliveTimer.waits > 0
      modifies Parts()
      ensures Valid() && View() == E.KeepaliveWait(old(View()))
    {
      var fires := keepaliveTimer.BeginTick();
      if fires {
        Close();
        keepaliveTimer.EndTick();
      }
    }
  }

  datatype ConnectCompletion = ConnectSucceeded | ConnectAborted

  datatype ConnectResult = InProgress | InvalidArgument | AlreadyConnected | AlreadyStarted
}
