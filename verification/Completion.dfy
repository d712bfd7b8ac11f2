/**
 Which packets the arrival of a datagram completes: none but the pending one its acknowledgement names,
 and that is the one it is meant for unless a pending packet is a whole circle away from it.
 */
module Completions {
  import opened Wrappers
  import opened TransmitQueues
  import opened Endpoints
  import opened EndpointFacts
  import opened Deliveries
  import opened Disciplines

  /** More was numbered and sent. */
  ghost predicate Continues(e: Endpoint, f: Endpoint) {
    e.log.issued <= f.log.issued && e.log.sent <= f.log.sent
  }

  lemma ReplyCompletesNothing(e: Endpoint, ack: Option<nat>)
    ensures AckedIndices(SendHandshake(e, ack).log.handled) == AckedIndices(e.log.handled)
    ensures Continues(e, SendHandshake(e, ack))
  {
    EnqueueEffect(StartReceive(Issue(e, Handshake)),
                  Job(Handshake, e.next, ack, |e.log.issued|, LastAccepted(e)), 0);
  }

  lemma OtherHandshakeCompletesNothing(e: Endpoint, number: nat)
    requires number <= MAX && !e.state.Listening?
    ensures ProcessHandshake(e, number).log.handled == e.log.handled
    ensures Continues(e, ProcessHandshake(e, number))
  {
  }

  lemma HandshakeCompletesNothing(e: Endpoint, number: nat)
    requires number <= MAX
    ensures AckedIndices(ProcessHandshake(e, number).log.handled) == AckedIndices(e.log.handled)
    ensures Continues(e, ProcessHandshake(e, number))
  {
    if e.state.Listening? {
      ReplyCompletesNothing(Remember(PacketArrived(e), number, Handshake), Some(number));
    } else {
      OtherHandshakeCompletesNothing(e, number);
    }
  }

  lemma ProcessedContinues(r: Role, e: Endpoint, p: Packet, calls: seq<UserCall>)
    requires Ok(r, e) && FreshPacket(r, e, p)
    requires !p.content.Handshake? ==> e.log.accepted != []
    ensures Continues(e, ProcessedPacket(e, p, calls))
  {
    if p.content.Handshake? {
      HandshakeCompletesNothing(e, p.number);
    } else {
      ProcessedKeeps(r, e, p, calls);
    }
  }

  lemma ProcessedCompletesNothing(r: Role, e: Endpoint, p: Packet, calls: seq<UserCall>)
    requires Ok(r, e) && FreshPacket(r, e, p)
    requires !p.content.Handshake? ==> e.log.accepted != []
    ensures AckedIndices(ProcessedPacket(e, p, calls).log.handled) == AckedIndices(e.log.handled)
  {
    if p.content.Handshake? {
      HandshakeCompletesNothing(e, p.number);
    } else {
      ProcessedKeeps(r, e, p, calls);
    }
  }

  lemma ReactionCompletesNothing(r: Role, acked: Endpoint, named: bool, calls: seq<UserCall>)
    requires Ok(r, acked)
    ensures var after := if named then RunCalls(acked, calls) else acked;
            AckedIndices(after.log.handled) == AckedIndices(acked.log.handled) && Continues(acked, after)
  {
    RunCallsKeeps(r, acked, calls);
  }

  /** The state of the connection is one that expects acknowledgements. */
  predicate Expects(e: Endpoint) {
    !e.fault && !e.state.Closed? && !e.state.Connecting?
  }

  lemma AcknowledgeOnlyMoves(r: Role, e: Endpoint)
    requires Ok(r, e)
    ensures var seen := Acknowledge(e);
            Ok(r, seen) && seen.log == e.log && seen.queue == e.queue
  {
  }

  /** After the user's calls an acknowledgement at most asks for datagrams. */
  lemma ReactionLog(e: Endpoint, ack: nat, calls: seq<UserCall>)
    requires Expects(e)
    ensures var acked := ApplyAck(Acknowledge(e), ack);
            ProcessAcknowledgement(e, ack, calls).log
            == (if ack in e.queue.entries then RunCalls(acked, calls) else acked).log
  {
  }

  lemma ExpectedCompletes(r: Role, e: Endpoint, ack: nat, calls: seq<UserCall>)
    requires Ok(r, e) && Expects(e)
    ensures var f := ProcessAcknowledgement(e, ack, calls);
            && AckedIndices(f.log.handled) == AckedIndices(e.log.handled) + Named(e.queue.entries, ack)
            && Continues(e, f)
  {
    var seen := Acknowledge(e);
    AcknowledgeOnlyMoves(r, e);
    ApplyAckKeeps(r, seen, ack);
    ReactionCompletesNothing(r, ApplyAck(seen, ack), ack in e.queue.entries, calls);
    ReactionLog(e, ack, calls);
  }

  /** In any state that expects one, an acknowledgement completes just the pending packet it names, if any. */
  lemma AcknowledgementCompletes(r: Role, e: Endpoint, ack: nat, calls: seq<UserCall>)
    requires Ok(r, e)
    ensures var f := ProcessAcknowledgement(e, ack, calls);
            && AckedIndices(f.log.handled)
               == AckedIndices(e.log.handled) + (if Expects(e) then Named(e.queue.entries, ack) else {})
            && Continues(e, f)
  {
    if Expects(e) {
      ExpectedCompletes(r, e, ack, calls);
    } else {
      AcknowledgeOnlyMoves(r, e);
    }
  }

  /** The message can be processed, and the acknowledgement after it. */
  ghost predicate Processable(r: Role, e: Endpoint, p: Packet, calls: seq<UserCall>)
    requires p.number <= MAX
  {
    && (!p.content.Handshake? ==> e.log.accepted != [])
    && (p.ack.Some? ==> Ok(r, ProcessedPacket(e, p, calls)))
  }

  predicate NamesOwn(r: Role, p: Packet) {
    p.ack.Some? ==> p.ack.value == Raw(r.base + p.ackIndex)
  }

  /** A datagram of the peer may be dispatched, and its acknowledgement names one of this endpoint's packets. */
  ghost predicate Dispatchable(r: Role, e: Endpoint, p: Packet, calls: seq<UserCall>) {
    Ok(r, e) && FreshPacket(r, e, p) && Processable(r, e, p, calls) && NamesOwn(r, p)
  }

  /** The pending packets when the acknowledgement of a datagram is processed. */
  function PendingAt(e: Endpoint, p: Packet, calls: seq<UserCall>): map<nat, Entry<Job>>
    requires p.number <= MAX
  {
    ProcessedPacket(e, p, calls).queue.entries
  }

  /** The packet that a delivery completes: the pending one its acknowledgement names, if that is expected. */
  function CompletedBy(e: Endpoint, p: Packet, calls: seq<UserCall>): set<nat>
    requires p.number <= MAX
  {
    if p.ack.Some? && Expects(ProcessedPacket(e, p, calls)) then Named(PendingAt(e, p, calls), p.ack.value) else {}
  }

  lemma DispatchCompletes(r: Role, e: Endpoint, p: Packet, calls: seq<UserCall>, ackCalls: seq<UserCall>)
    requires Dispatchable(r, e, p, calls)
    ensures var f := DispatchPacket(e, p, calls, ackCalls);
            && AckedIndices(f.log.handled) == AckedIndices(e.log.handled) + CompletedBy(e, p, calls)
            && (p.ack.Some? ==> Continues(ProcessedPacket(e, p, calls), f))
  {
    ProcessedCompletesNothing(r, e, p, calls);
    if p.ack.Some? && !ProcessedPacket(e, p, calls).fault {
      AcknowledgementCompletes(r, ProcessedPacket(e, p, calls), p.ack.value, ackCalls);
    }
  }

  /** A timely acknowledgement names the packet it is meant for, or none. */
  lemma TimelyNamesMeant(r: Role, e: Endpoint, p: Packet, calls: seq<UserCall>)
    requires Dispatchable(r, e, p, calls) && p.ack.Some? && FreshAck(ProcessedPacket(e, p, calls), p.ackIndex)
    ensures Named(PendingAt(e, p, calls), p.ack.value) <= {p.ackIndex}
  {
    FreshAckNames(r, ProcessedPacket(e, p, calls), p.ackIndex);
  }

  /** Before the numbers wrap no pending packet is a circle away from another. */
  lemma UnwrappedIsFresh(r: Role, e: Endpoint, ackIndex: nat)
    requires Ok(r, e) && Unwrapped(r, e.log.issued) && ackIndex < |e.log.issued|
    ensures FreshAck(e, ackIndex)
  {
    forall k | k in e.queue.entries
      ensures e.queue.entries[k].job.index < |e.log.issued|
    {
      assert JobOk(r, e.log.issued, |e.log.accepted|, e.queue.entries[k].job);
    }
  }
}
