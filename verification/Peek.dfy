/**
 What the multiplexer does when its peek finds a datagram: for a registered socket every message is
 dispatched, for one that is waiting in an acceptor only handshakes and keepalives are.
 */
module Peeks {
  import opened Wrappers
  import opened Timers
  import opened TimerRuns
  import opened TransmitQueues
  import opened Endpoints
  import opened EndpointFacts
  import Wire

  function ContentOf(h: Wire.Header, payload: Payload): Content {
    match h.kind
    case Handshake => Handshake
    case Keepalive => Keepalive
    case Data => Data(payload)
  }

  function NumberOf(v: bv32): (r: nat)
    ensures r <= MAX
  {
    v as nat
  }

  function AckOf(h: Wire.Header): Option<nat> {
    if h.ack.Some? then Some(NumberOf(h.ack.value)) else None
  }

  function DispatchHeader(e: Endpoint, h: Wire.Header, payload: Payload,
                          calls: seq<UserCall>, ackCalls: seq<UserCall>): Endpoint
  {
    Dispatch(e, ContentOf(h, payload), NumberOf(h.sequence), AckOf(h), calls, ackCalls)
  }

  /** A datagram for a registered socket; an unknown message type is an assertion. */
  function Registered(e: Endpoint, frame: seq<Wire.byte>, calls: seq<UserCall>, ackCalls: seq<UserCall>): Endpoint
    requires |frame| >= Wire.HEADER_SIZE
  {
    var h := Wire.Decoded(frame[..Wire.HEADER_SIZE]);
    if h.None? then e.(fault := true)
    else DispatchHeader(e, h.value, frame[Wire.HEADER_SIZE..], calls, ackCalls)
  }

  /** A datagram from an unknown endpoint, for the socket at the head of the acceptor's queue. */
  function Establish(e: Endpoint, frame: seq<Wire.byte>, calls: seq<UserCall>, ackCalls: seq<UserCall>): Endpoint
    requires |frame| >= Wire.HEADER_SIZE
  {
    var h := Wire.Decoded(frame[..Wire.HEADER_SIZE]);
    if h.None? || h.value.kind.Data? then e
    else
      CountEstablished(DispatchHeader(e, h.value, frame[Wire.HEADER_SIZE..], calls, ackCalls))
  }

  /** The acceptor's own request is used up by an established socket, and renewed otherwise. */
  function CountEstablished(e: Endpoint): Endpoint {
    e.(rx := e.rx.(calls := if e.state.Established? then e.rx.calls - 1 else e.rx.calls + 1))
  }

  function PeekDone(e: Endpoint): Endpoint {
    e.(rx := e.rx.(calls := e.rx.calls - 1, peeks := if e.rx.calls - 1 > 0 then e.rx.peeks + 1 else e.rx.peeks))
  }

  function PeekTaken(e: Endpoint): Endpoint
    requires e.rx.peeks > 0
  {
    e.(rx := e.rx.(peeks := e.rx.peeks - 1))
  }

  /** A peek completed: the datagram is consumed, and another peek is started if a request is left. */
  function Peeked(e: Endpoint, readable: bool, frame: seq<Wire.byte>,
                  calls: seq<UserCall>, ackCalls: seq<UserCall>): Endpoint
    requires e.rx.peeks > 0
  {
    if e.rx.calls == 0 then PeekTaken(e)
    else if !readable || |frame| < Wire.HEADER_SIZE then e
    else if e.remote then PeekDone(Registered(PeekTaken(e), frame, calls, ackCalls))
    else PeekDone(Establish(PeekTaken(e), frame, calls, ackCalls))
  }

  /** The packet's numbers fit a header. */
  predicate Sendable(p: Packet) {
    p.number <= MAX && (p.ack.Some? ==> p.ack.value <= MAX)
  }

  /** The header that a socket sends a packet with; count and extra are its remaining two fields. */
  function HeaderOf(p: Packet, count: nat, extra: bv16): Wire.Header
    requires Sendable(p)
  {
    var kind := match p.content
                case Handshake => Wire.Handshake
                case Keepalive => Wire.Keepalive
                case Data(_) => Wire.Data;
    Wire.Header(kind, count, extra, Wire.WordOf(p.number),
                if p.ack.Some? then Some(Wire.WordOf(p.ack.value)) else None)
  }

  /** The datagram of a packet: only data has a payload. */
  function FrameOf(p: Packet, count: nat, extra: bv16): (frame: seq<Wire.byte>)
    requires Sendable(p)
    ensures |frame| >= Wire.HEADER_SIZE
  {
    Wire.Encoded(HeaderOf(p, count, extra)) + if p.content.Data? then p.content.payload else []
  }

  lemma HeaderReadsBack(p: Packet, count: nat, extra: bv16)
    requires Sendable(p)
    ensures var h := Wire.Normalized(HeaderOf(p, count, extra));
            && p.content == ContentOf(h, if p.content.Data? then p.content.payload else [])
            && p.number == NumberOf(h.sequence) && p.ack == AckOf(h)
  {
  }

  lemma FrameDecodes(p: Packet, count: nat, extra: bv16)
    requires Sendable(p)
    ensures var frame := FrameOf(p, count, extra);
            && Wire.Decoded(frame[..Wire.HEADER_SIZE]) == Some(Wire.Normalized(HeaderOf(p, count, extra)))
            && frame[Wire.HEADER_SIZE..] == if p.content.Data? then p.content.payload else []
  {
    var h := HeaderOf(p, count, extra);
    var payload := if p.content.Data? then p.content.payload else [];
    assert FrameOf(p, count, extra) == Wire.Encoded(h) + payload;
    assert (Wire.Encoded(h) + payload)[..Wire.HEADER_SIZE] == Wire.Encoded(h);
    Wire.HeaderRoundTrip(h);
  }

  /**
   The bytes of a packet, sent by one socket and peeked at by the other, are dispatched as that packet,
   with its content, its number, and its acknowledgement if and only if it has one.
   */
  lemma FrameIsDispatched(e: Endpoint, p: Packet, count: nat, extra: bv16,
                          calls: seq<UserCall>, ackCalls: seq<UserCall>)
    requires Sendable(p)
    ensures Registered(e, FrameOf(p, count, extra), calls, ackCalls)
         == Dispatch(e, p.content, p.number, p.ack, calls, ackCalls)
    ensures Establish(e, FrameOf(p, count, extra), calls, ackCalls)
         == if p.content.Data? then e
            else CountEstablished(Dispatch(e, p.content, p.number, p.ack, calls, ackCalls))
  {
    FrameDecodes(p, count, extra);
    HeaderReadsBack(p, count, extra);
  }

  /** The whole peek: the registered socket, or the one that waits in the acceptor's queue, gets the packet. */
  lemma PeekDispatches(e: Endpoint, p: Packet, count: nat, extra: bv16, calls: seq<UserCall>, ackCalls: seq<UserCall>)
    requires Sendable(p) && e.rx.peeks > 0 && e.rx.calls != 0
    ensures var f := Dispatch(PeekTaken(e), p.content, p.number, p.ack, calls, ackCalls);
            Peeked(e, true, FrameOf(p, count, extra), calls, ackCalls)
            == PeekDone(if e.remote then f else if p.content.Data? then PeekTaken(e) else CountEstablished(f))
  {
    FrameIsDispatched(PeekTaken(e), p, count, extra, calls, ackCalls);
  }

  // Receive accounting.

  /**
   Requests, peeks and the keepalive timer agree with the socket's own flag; requests beside the
   socket's own are extra: a datagram in process is one, a pending accept is another.
   */
  ghost predicate Accounted(rx: Reception, extra: nat) {
    && rx.calls == (if rx.receiving then 1 else 0) + extra
    && rx.peeks == (if rx.receiving && extra == 0 then 1 else 0)
    && WaitInvariant(rx.keepalive) && !rx.keepalive.state.Executing?
    && Abstract(rx.keepalive) == (if rx.receiving then Armed else Idle)
  }

  lemma StartReceiveAccounted(e: Endpoint, extra: nat)
    requires Accounted(e.rx, extra)
    ensures Accounted(StartReceive(e).rx, extra)
  {
  }

  /** A datagram that ends the socket's request leaves the request to be counted off by the multiplexer. */
  lemma PacketArrivedAccounted(e: Endpoint)
    requires Accounted(e.rx, 0) && e.rx.receiving
    ensures Accounted(PacketArrived(PeekTaken(e)).rx, 1)
  {
  }

  lemma PeekDoneAccounted(e: Endpoint)
    requires Accounted(e.rx, 1)
    ensures Accounted(PeekDone(e).rx, 0)
  {
  }

  /**
   With one socket, registered or in the acceptor's queue, exact accounts imply the multiplexer's own
   assertions: on starting a request, on withdrawing one, and when a peek completes.
   */
  lemma CounterAssertionsHold(rx: Reception, extra: nat)
    requires Accounted(rx, extra) && extra <= 2
    ensures !rx.receiving ==> 0 <= rx.calls < 1 + 2
    ensures rx.receiving && extra <= 1 ==> 0 < rx.calls <= 1 + 1
    ensures rx.peeks > 0 ==> rx.calls == 1
  {
  }

  lemma RunHandlerReception(e: Endpoint, call: HandlerCall<Job>)
    ensures RunHandler(e, call).rx == e.rx
  {
  }

  lemma {:induction false} RunHandlersReception(e: Endpoint, calls: seq<HandlerCall<Job>>)
    ensures RunHandlers(e, calls).rx == e.rx
  {
    if calls != [] {
      RunHandlersReception(e, calls[..|calls| - 1]);
      RunHandlerReception(RunHandlers(e, calls[..|calls| - 1]), calls[|calls| - 1]);
    }
  }

  lemma EnqueueReception(e: Endpoint, job: Job, size: nat)
    ensures Enqueue(e, job, size).rx == e.rx
  {
    var fx := Pushed(e.queue, job.number, Entry(size, job));
    RunHandlersReception(ApplyEffect(e, fx), fx.calls);
  }

  lemma SendHandshakeAccounted(e: Endpoint, ack: Option<nat>, extra: nat)
    requires Accounted(e.rx, extra)
    ensures Accounted(SendHandshake(e, ack).rx, extra)
  {
    StartReceiveAccounted(Issue(e, Handshake), extra);
    EnqueueReception(StartReceive(Issue(e, Handshake)),
                     Job(Handshake, e.next, ack, |e.log.issued|, LastAccepted(e)), 0);
  }

  lemma RunCallAccounted(e: Endpoint, call: UserCall, extra: nat)
    requires Accounted(e.rx, extra)
    ensures Accounted(RunCall(e, call).rx, extra)
  {
    match call
    case Send(payload) =>
      StartReceiveAccounted(Issue(e, Data(payload)), extra);
      EnqueueReception(StartReceive(Issue(e, Data(payload))),
                       Job(Data(payload), e.next, None, |e.log.issued|, 0), |payload|);
    case Receive(_) =>
  }

  lemma {:induction false} RunCallsAccounted(e: Endpoint, calls: seq<UserCall>, extra: nat)
    requires Accounted(e.rx, extra)
    ensures Accounted(RunCalls(e, calls).rx, extra)
  {
    if calls != [] {
      RunCallsAccounted(e, calls[..|calls| - 1], extra);
      RunCallAccounted(RunCalls(e, calls[..|calls| - 1]), calls[|calls| - 1], extra);
    }
  }

  lemma ProcessDataAccounted(e: Endpoint, number: nat, payload: Payload, calls: seq<UserCall>, extra: nat)
    requires number <= MAX && Accounted(PacketArrived(e).rx, extra)
    ensures Accounted(ProcessData(e, number, payload, calls).rx, extra)
  {
    if IsExpected(e, number) {
      var taken := TakeData(e, number, payload);
      assert taken.rx == PacketArrived(e).rx;
      RunCallsAccounted(taken, calls, extra);
      StartReceiveAccounted(if e.input == [] then taken else RunCalls(taken, calls), extra);
    } else {
      StartReceiveAccounted(PacketArrived(e), extra);
    }
  }

  lemma ProcessHandshakeAccounted(e: Endpoint, number: nat, extra: nat)
    requires number <= MAX && Accounted(PacketArrived(e).rx, extra)
    ensures Accounted(ProcessHandshake(e, number).rx, extra)
  {
    if e.state.Listening? {
      SendHandshakeAccounted(Remember(PacketArrived(e), number, Handshake), Some(number), extra);
    }
  }

  lemma ProcessedAccounted(e: Endpoint, content: Content, number: nat, calls: seq<UserCall>, extra: nat)
    requires number <= MAX && Accounted(PacketArrived(e).rx, extra)
    ensures Accounted(Processed(e, content, number, calls).rx, extra)
  {
    match content
    case Handshake => ProcessHandshakeAccounted(e, number, extra);
    case Keepalive => StartReceiveAccounted(PacketArrived(e), extra);
    case Data(payload) => ProcessDataAccounted(e, number, payload, calls, extra);
  }

  lemma AcknowledgementAccounted(e: Endpoint, ack: nat, calls: seq<UserCall>, extra: nat)
    requires Accounted(e.rx, extra)
    ensures Accounted(ProcessAcknowledgement(e, ack, calls).rx, extra)
  {
    var seen := Acknowledge(e);
    if !seen.fault {
      AcknowledgeChanges(e);
      ApplyAckChanges(seen, ack);
      RunCallsAccounted(ApplyAck(seen, ack), calls, extra);
    }
  }

  lemma DispatchAccounted(e: Endpoint, h: Wire.Header, payload: Payload,
                          calls: seq<UserCall>, ackCalls: seq<UserCall>, extra: nat)
    requires Accounted(PacketArrived(e).rx, extra)
    ensures Accounted(DispatchHeader(e, h, payload, calls, ackCalls).rx, extra)
  {
    var processed := Processed(e, ContentOf(h, payload), NumberOf(h.sequence), calls);
    ProcessedAccounted(e, ContentOf(h, payload), NumberOf(h.sequence), calls, extra);
    if h.ack.Some? && !processed.fault {
      AcknowledgementAccounted(processed, NumberOf(h.ack.value), ackCalls, extra);
    }
  }

  /** A peek for a registered socket keeps the accounts, whatever the datagram and the user's handlers do. */
  lemma PeekedAccounted(e: Endpoint, readable: bool, frame: seq<Wire.byte>,
                        calls: seq<UserCall>, ackCalls: seq<UserCall>)
    requires Accounted(e.rx, 0) && e.rx.peeks > 0 && e.remote
    requires |frame| >= Wire.HEADER_SIZE ==> Wire.Decoded(frame[..Wire.HEADER_SIZE]).Some?
    ensures Accounted(Peeked(e, readable, frame, calls, ackCalls).rx, 0)
  {
    if readable && |frame| >= Wire.HEADER_SIZE {
      PacketArrivedAccounted(e);
      var h := Wire.Decoded(frame[..Wire.HEADER_SIZE]).value;
      DispatchAccounted(PeekTaken(e), h, frame[Wire.HEADER_SIZE..], calls, ackCalls, 1);
      PeekDoneAccounted(Registered(PeekTaken(e), frame, calls, ackCalls));
    }
  }
}
