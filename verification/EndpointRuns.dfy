/**
 Whole runs of one socket, before it closes, against a peer that may send anything: its receive
 accounting stays exact, and the k-th receive it was given is completed by the k-th data it accepted.
 */
module EndpointRuns {
  import opened Wrappers
  import opened Timers
  import opened TimerRuns
  import opened TransmitQueues
  import opened Endpoints
  import opened ReceiveFacts
  import opened Peeks
  import Wire

  datatype Happening =
    | Connects
    | Listens
    | Calls(call: UserCall)
    | Claims
    | Peeks(readable: bool, frame: seq<Wire.byte>, calls: seq<UserCall>, ackCalls: seq<UserCall>)
    | QueueWaits
    | StepEnds(entry: Entry<Job>, error: bool, bytes: nat)
    | GreetingEnds(error: bool)
    | KeepaliveWaits

  /** The keepalive timer does not fire: it would close the socket. */
  predicate Possible(e: Endpoint, h: Happening) {
    match h
    case Claims => e.claims != []
    case Peeks(_, _, _, _) => e.rx.peeks > 0
    case QueueWaits => e.queue.timer.waits > 0
    case KeepaliveWaits => e.rx.keepalive.waits > 0 && !Fires(e.rx.keepalive)
    case _ => true
  }

  function Following(e: Endpoint, h: Happening): Endpoint
    requires Possible(e, h)
  {
    match h
    case Connects => Connect(e)
    case Listens => Listen(e)
    case Calls(call) => RunCall(e, call)
    case Claims => RunClaim(e)
    case Peeks(readable, frame, calls, ackCalls) => Peeked(e, readable, frame, calls, ackCalls)
    case QueueWaits => QueueWait(e)
    case StepEnds(entry, error, bytes) => StepCompleted(e, entry, error, bytes)
    case GreetingEnds(error) => GreetingSent(e, error)
    case KeepaliveWaits => KeepaliveWait(e)
  }

  /** Every happening is possible and meets a condition of its own. */
  ghost predicate Unfolds(e: Endpoint, run: seq<Happening>, meets: (Endpoint, Happening) -> bool)
    decreases |run|
  {
    run == [] || (Possible(e, run[0]) && meets(e, run[0]) && Unfolds(Following(e, run[0]), run[1..], meets))
  }

  ghost function Unfolded(e: Endpoint, run: seq<Happening>, meets: (Endpoint, Happening) -> bool): Endpoint
    requires Unfolds(e, run, meets)
    decreases |run|
  {
    if run == [] then e else Unfolded(Following(e, run[0]), run[1..], meets)
  }

  // Receive accounting.

  /** No accept is pending, datagrams come from the registered peer and carry a known message type. */
  predicate FromPeer(e: Endpoint, h: Happening) {
    && !h.Listens?
    && (h.Peeks? ==>
          && e.remote
          && (|h.frame| >= Wire.HEADER_SIZE ==> Wire.Decoded(h.frame[..Wire.HEADER_SIZE]).Some?))
  }

  lemma StepAccounted(e: Endpoint, h: Happening)
    requires Accounted(e.rx, 0) && Possible(e, h) && FromPeer(e, h)
    ensures Accounted(Following(e, h).rx, 0)
  {
    match h
    case Connects =>
      if e.open && e.state.Closed? {
        SendHandshakeAccounted(e.(state := Connecting, remote := true), None, 0);
      }
    case Calls(call) => RunCallAccounted(e, call, 0);
    case Claims =>
    case Peeks(readable, frame, calls, ackCalls) => PeekedAccounted(e, readable, frame, calls, ackCalls);
    case QueueWaits =>
    case StepEnds(entry, error, bytes) =>
      var fx := StepDone(e.queue, entry, error, bytes);
      RunHandlersReception(e.(queue := fx.queue), fx.calls);
    case GreetingEnds(_) =>
    case KeepaliveWaits =>
  }

  lemma {:induction false} StaysAccounted(e: Endpoint, run: seq<Happening>)
    requires Accounted(e.rx, 0) && Unfolds(e, run, FromPeer)
    ensures Accounted(Unfolded(e, run, FromPeer).rx, 0)
    decreases |run|
  {
    if run != [] {
      StepAccounted(e, run[0]);
      StaysAccounted(Following(e, run[0]), run[1..]);
    }
  }

  /**
   Between events a socket that is receiving has exactly one request and one peek outstanding, and its
   keepalive timer armed; one that is not receiving has none of them.
   */
  lemma ReceiveAccounting(initial: nat, run: seq<Happening>)
    requires initial <= MAX && Unfolds(New(true, initial), run, FromPeer)
    ensures var rx := Unfolded(New(true, initial), run, FromPeer).rx;
            && rx.calls == (if rx.receiving then 1 else 0)
            && rx.peeks == (if rx.receiving then 1 else 0)
            && (Abstract(rx.keepalive) == Armed <==> rx.receiving)
  {
    StaysAccounted(New(true, initial), run);
  }

  // Receive matching.

  /** Receives are issued, from outside and by handlers, only when allowed. */
  predicate ReceivesAllowed(e: Endpoint, h: Happening) {
    match h
    case Calls(call) => MayCall(e, call)
    case Peeks(readable, frame, calls, ackCalls) =>
      e.rx.peeks > 0 && |frame| >= Wire.HEADER_SIZE ==>
        var header := Wire.Decoded(frame[..Wire.HEADER_SIZE]);
        header.Some? ==> ReactionsAllowed(PeekTaken(e), header.value, frame[Wire.HEADER_SIZE..], calls, ackCalls)
    case _ => true
  }

  predicate ReactionsAllowed(e: Endpoint, h: Wire.Header, payload: Payload,
                             calls: seq<UserCall>, ackCalls: seq<UserCall>) {
    MayReactTo(e, ContentOf(h, payload), NumberOf(h.sequence), AckOf(h), calls, ackCalls)
  }

  ghost predicate Matched(e: Endpoint) {
    HandedOutInOrder(e) && ServedInOrder(e)
  }

  lemma DispatchMatched(e: Endpoint, h: Wire.Header, payload: Payload, calls: seq<UserCall>, ackCalls: seq<UserCall>)
    requires Matched(e) && ReactionsAllowed(e, h, payload, calls, ackCalls)
    ensures Matched(DispatchHeader(e, h, payload, calls, ackCalls))
  {
    DispatchHandsOut(e, ContentOf(h, payload), NumberOf(h.sequence), AckOf(h), calls, ackCalls);
  }

  lemma SameMatched(e: Endpoint, f: Endpoint)
    requires Matched(e) && SameReceives(e, f) && f.log.accepted == e.log.accepted
    ensures Matched(f)
  {
    SameReceivesHandsOut(e, f);
  }

  lemma PeekedMatched(e: Endpoint, h: Happening)
    requires Matched(e) && h.Peeks? && Possible(e, h) && ReceivesAllowed(e, h)
    ensures Matched(Following(e, h))
  {
    var taken, f := PeekTaken(e), Following(e, h);
    SameMatched(e, taken);
    if e.rx.calls == 0 || !h.readable || |h.frame| < Wire.HEADER_SIZE {
      SameMatched(e, f);
    } else {
      var header := Wire.Decoded(h.frame[..Wire.HEADER_SIZE]);
      if header.None? || (!e.remote && header.value.kind.Data?) {
        SameMatched(taken, f);
      } else {
        var payload := h.frame[Wire.HEADER_SIZE..];
        DispatchMatched(taken, header.value, payload, h.calls, h.ackCalls);
        SameMatched(DispatchHeader(taken, header.value, payload, h.calls, h.ackCalls), f);
      }
    }
  }

  lemma StepMatched(e: Endpoint, h: Happening)
    requires Matched(e) && Possible(e, h) && ReceivesAllowed(e, h)
    ensures Matched(Following(e, h))
  {
    match h
    case Connects =>
      ConnectSame(e);
      SameMatched(e, Connect(e));
    case Listens => SameMatched(e, Listen(e).(open := e.open));
    case Calls(call) => RunCallHandsOut(e, call);
    case Claims => RunClaimHandsOut(e);
    case Peeks(_, _, _, _) => PeekedMatched(e, h);
    case QueueWaits => SameMatched(e, QueueWait(e));
    case StepEnds(entry, error, bytes) =>
      StepCompletedSame(e, entry, error, bytes);
      SameMatched(e, StepCompleted(e, entry, error, bytes));
    case GreetingEnds(error) => SameMatched(e, GreetingSent(e, error));
    case KeepaliveWaits => SameMatched(e, KeepaliveWait(e));
  }

  lemma {:induction false} StaysMatched(e: Endpoint, run: seq<Happening>)
    requires Matched(e) && Unfolds(e, run, ReceivesAllowed)
    ensures Matched(Unfolded(e, run, ReceivesAllowed))
    decreases |run|
  {
    if run != [] {
      StepMatched(e, run[0]);
      StaysMatched(Following(e, run[0]), run[1..]);
    }
  }

  /**
   Of a socket that connects, or that an acceptor hands out: the k-th receive that was issued is completed
   by the k-th data packet that was accepted; receives and data never wait at the same time, and every
   posted receive will find its data.
   */
  lemma ReceiveMatching(open: bool, initial: nat, run: seq<Happening>)
    requires initial <= MAX && Unfolds(New(open, initial), run, ReceivesAllowed)
    ensures var e := Unfolded(New(open, initial), run, ReceivesAllowed);
            && (forall k :: 0 <= k < |e.log.delivered| ==>
                  && k < |e.log.receives| && e.log.delivered[k].receive == e.log.receives[k]
                  && k < |Payloads(e.log.accepted)| && e.log.delivered[k].payload == Payloads(e.log.accepted)[k])
            && (e.input == [] || e.output == [])
            && |e.claims| <= |e.output|
  {
    StaysMatched(New(open, initial), run);
    var e := Unfolded(New(open, initial), run, ReceivesAllowed);
    forall k | 0 <= k < |e.log.delivered|
      ensures k < |e.log.receives| && e.log.delivered[k].receive == e.log.receives[k]
      ensures k < |Payloads(e.log.accepted)| && e.log.delivered[k].payload == Payloads(e.log.accepted)[k]
    {
      assert ReceivesOf(e.log.delivered)[k] == e.log.delivered[k].receive;
      assert PayloadsOf(e.log.delivered)[k] == e.log.delivered[k].payload;
    }
  }
}
