/**
 What the operations of one endpoint keep true of its packets, whatever the peer does: every number
 it uses is the right one for the packet's index, and every acknowledgement names an accepted packet.
 */
module EndpointFacts {
  import opened SequenceNumbers
  import opened CumulativeSets
  import opened Wrappers
  import opened TransmitQueues
  import opened Endpoints

  /** The raw number of an index counted without wrapping. */
  function Raw(i: nat): (r: nat)
    ensures r <= MAX
  {
    i % (MAX + 1)
  }

  lemma RawNext(i: nat)
    ensures Next(MAX, Raw(i)) == Raw(i + 1)
  {
  }

  lemma RawInjective(b: nat, i: nat, j: nat)
    requires Raw(b + i) == Raw(b + j) && i < j + MAX + 1 && j < i + MAX + 1
    ensures i == j
  {
  }

  /** Where an endpoint and its peer started to number, and whether its handshake is a reply. */
  datatype Role = Role(base: nat, peer: nat, reply: bool)

  /** The acknowledgement names the packet of the peer with the given index, one of the n accepted. */
  predicate AckOk(r: Role, n: nat, ack: Option<nat>, ackIndex: nat) {
    ack.Some? ==> ackIndex < n && ack.value == Raw(r.peer + ackIndex)
  }

  predicate PacketOk(r: Role, issued: seq<Content>, n: nat, p: Packet) {
    && p.index < |issued| && issued[p.index] == p.content
    && p.number == Raw(r.base + p.index)
    && AckOk(r, n, p.ack, p.ackIndex)
    && (p.content.Handshake? ==> (p.ack.Some? <==> r.reply))
    && (p.content.Keepalive? ==> p.ack.Some?)
  }

  predicate JobOk(r: Role, issued: seq<Content>, n: nat, job: Job) {
    && job.index < |issued| && issued[job.index] == job.content
    && job.number == Raw(r.base + job.index)
    && !job.content.Keepalive?
    && (job.content.Handshake? ==> (job.ack.Some? <==> r.reply) && AckOk(r, n, job.ack, job.ackIndex))
  }

  ghost predicate SentOk(r: Role, issued: seq<Content>, n: nat, sent: seq<Packet>) {
    forall i :: 0 <= i < |sent| ==> PacketOk(r, issued, n, sent[i])
  }

  ghost predicate EntriesOk(r: Role, issued: seq<Content>, n: nat, entries: map<nat, Entry<Job>>) {
    forall k :: k in entries ==> entries[k].job.number == k && JobOk(r, issued, n, entries[k].job)
  }

  ghost predicate StepsOk(r: Role, issued: seq<Content>, n: nat, steps: seq<Entry<Job>>) {
    forall i :: 0 <= i < |steps| ==> JobOk(r, issued, n, steps[i].job)
  }

  function Seen(peer: nat, n: nat): seq<nat> {
    if n == 0 then [] else [Raw(peer + n - 1)]
  }

  ghost predicate LogOk(r: Role, log: Log) {
    SentOk(r, log.issued, |log.accepted|, log.sent) && StepsOk(r, log.issued, |log.accepted|, log.steps)
  }

  ghost predicate PacketsOk(r: Role, e: Endpoint) {
    && e.next == Raw(r.base + |e.log.issued|)
    && e.history == Seen(r.peer, |e.log.accepted|)
    && LogOk(r, e.log)
    && EntriesOk(r, e.log.issued, |e.log.accepted|, e.queue.entries)
  }

  /** The same of an endpoint that was not closed. */
  ghost predicate Ok(r: Role, e: Endpoint) {
    PacketsOk(r, e) && e.queue.alive
  }

  /** Numbering a packet or accepting one more keeps everything said about earlier packets. */
  lemma PacketsStayOk(r: Role, e: Endpoint, issued: seq<Content>, n: nat)
    requires Ok(r, e) && e.log.issued <= issued && |e.log.accepted| <= n
    ensures SentOk(r, issued, n, e.log.sent) && StepsOk(r, issued, n, e.log.steps)
    ensures EntriesOk(r, issued, n, e.queue.entries)
  {
  }

  lemma IssueKeeps(r: Role, e: Endpoint, content: Content)
    requires Ok(r, e)
    ensures Ok(r, Issue(e, content))
  {
    PacketsStayOk(r, e, e.log.issued + [content], |e.log.accepted|);
    RawNext(r.base + |e.log.issued|);
  }

  lemma HistoryMovesOn(peer: nat, n: nat)
    ensures Accept(MAX, Seen(peer, n), Raw(peer + n)) == Seen(peer, n + 1)
  {
    if n > 0 {
      RawNext(peer + n - 1);
      SuccessorReplaces(MAX, Raw(peer + n - 1));
    } else {
      assert Inserted(MAX, [], Raw(peer)) == [Raw(peer)];
    }
  }

  lemma RememberKeeps(r: Role, e: Endpoint, number: nat, content: Content)
    requires Ok(r, e) && number == Raw(r.peer + |e.log.accepted|)
    ensures Ok(r, Remember(e, number, content))
  {
    PacketsStayOk(r, e, e.log.issued, |e.log.accepted| + 1);
    HistoryMovesOn(r.peer, |e.log.accepted|);
  }

  lemma TransmitKeeps(r: Role, e: Endpoint, entry: Entry<Job>)
    requires Ok(r, e) && JobOk(r, e.log.issued, |e.log.accepted|, entry.job)
    ensures Ok(r, Transmit(e, entry))
  {
  }

  /** All that a reaction of the queue changes. */
  lemma EffectChanges(e: Endpoint, fx: Effect<Job>)
    requires fx.started.Some? ==> fx.started.value in fx.queue.entries
    ensures var f := ApplyEffect(e, fx);
            && f == e.(queue := fx.queue, log := f.log)
            && f.log == e.log.(sent := f.log.sent, steps := f.log.steps)
            && e.log.sent <= f.log.sent && |f.log.sent| <= |e.log.sent| + 1
  {
  }

  lemma EffectKeeps(r: Role, e: Endpoint, fx: Effect<Job>)
    requires Ok(r, e) && EntriesOk(r, e.log.issued, |e.log.accepted|, fx.queue.entries) && fx.queue.alive
    requires fx.started.Some? ==> fx.started.value in fx.queue.entries
    ensures Ok(r, ApplyEffect(e, fx))
  {
    if fx.started.Some? {
      TransmitKeeps(r, e.(queue := fx.queue), fx.queue.entries[fx.started.value]);
    }
  }

  /** What is known of an endpoint's packets depends on a few of its fields only. */
  lemma SamePacketsOk(r: Role, e: Endpoint, f: Endpoint)
    requires Ok(r, e) && f.next == e.next && f.history == e.history && f.queue == e.queue
    requires f.log.issued == e.log.issued && f.log.accepted == e.log.accepted
    requires f.log.sent == e.log.sent && f.log.steps == e.log.steps
    ensures Ok(r, f)
  {
  }

  lemma OneHandler(e: Endpoint, calls: seq<HandlerCall<Job>>)
    requires |calls| <= 1
    ensures RunHandlers(e, calls) == if calls == [] then e else RunHandler(e, calls[0])
  {
    if calls != [] {
      assert calls[..|calls| - 1] == [];
    }
  }

  lemma RunHandlersKeeps(r: Role, e: Endpoint, calls: seq<HandlerCall<Job>>)
    requires Ok(r, e) && |calls| <= 1
    ensures Ok(r, RunHandlers(e, calls))
  {
    OneHandler(e, calls);
    if calls != [] {
      HandlerChanges(e, calls[0]);
      SamePacketsOk(r, e, RunHandler(e, calls[0]));
    }
  }

  /** All that queueing a packet changes. */
  lemma EnqueueChanges(e: Endpoint, job: Job, size: nat)
    ensures var f, fx := Enqueue(e, job, size), Pushed(e.queue, job.number, Entry(size, job));
            && f == e.(state := f.state, remote := f.remote, fault := f.fault, queue := fx.queue, log := f.log)
            && f.log == e.log.(sent := f.log.sent, steps := f.log.steps, handled := e.log.handled + fx.calls)
            && e.log.sent <= f.log.sent == ApplyEffect(e, fx).log.sent
  {
    var fx := Pushed(e.queue, job.number, Entry(size, job));
    EffectChanges(e, fx);
    OneHandler(ApplyEffect(e, fx), fx.calls);
    if fx.calls != [] {
      HandlerChanges(ApplyEffect(e, fx), fx.calls[0]);
    }
  }

  lemma EnqueueKeeps(r: Role, e: Endpoint, job: Job, size: nat)
    requires Ok(r, e) && JobOk(r, e.log.issued, |e.log.accepted|, job)
    ensures Ok(r, Enqueue(e, job, size))
  {
    var fx := Pushed(e.queue, job.number, Entry(size, job));
    EffectKeeps(r, e, fx);
    RunHandlersKeeps(r, ApplyEffect(e, fx), fx.calls);
  }

  lemma SendHandshakeKeeps(r: Role, e: Endpoint, ack: Option<nat>)
    requires Ok(r, e) && (ack.Some? <==> r.reply) && AckOk(r, |e.log.accepted|, ack, LastAccepted(e))
    ensures Ok(r, SendHandshake(e, ack))
  {
    IssueKeeps(r, e, Handshake);
    EnqueueKeeps(r, StartReceive(Issue(e, Handshake)),
                 Job(Handshake, e.next, ack, |e.log.issued|, LastAccepted(e)), 0);
  }

  lemma SendKeepaliveKeeps(r: Role, e: Endpoint, ack: Option<nat>)
    requires Ok(r, e) && ack.Some? && AckOk(r, |e.log.accepted|, ack, LastAccepted(e))
    ensures Ok(r, SendKeepalive(e, ack))
  {
    IssueKeeps(r, e, Keepalive);
  }

  lemma SendDataKeeps(r: Role, e: Endpoint, payload: Payload)
    requires Ok(r, e)
    ensures Ok(r, SendData(e, payload))
  {
    IssueKeeps(r, e, Data(payload));
    EnqueueKeeps(r, StartReceive(Issue(e, Data(payload))),
                 Job(Data(payload), e.next, None, |e.log.issued|, 0), |payload|);
  }

  /** The indices of the packets whose handlers ran with success. */
  function AckedIndices(handled: seq<HandlerCall<Job>>): set<nat> {
    set i | 0 <= i < |handled| && handled[i].outcome.Success? :: handled[i].entry.job.index
  }

  lemma AckedIndicesAppend(handled: seq<HandlerCall<Job>>, call: HandlerCall<Job>)
    ensures AckedIndices(handled + [call])
         == AckedIndices(handled) + if call.outcome.Success? then {call.entry.job.index} else {}
  {
    var all := handled + [call];
    forall x | x in AckedIndices(handled)
      ensures x in AckedIndices(all)
    {
      var i :| 0 <= i < |handled| && handled[i].outcome.Success? && handled[i].entry.job.index == x;
      assert all[i] == handled[i];
    }
    assert all[|handled|] == call;
  }

  ghost predicate OnlyData(before: seq<Content>, after: seq<Content>) {
    before <= after && forall i :: |before| <= i < |after| ==> after[i].Data?
  }

  ghost predicate KeepsEntries(before: map<nat, Entry<Job>>, after: map<nat, Entry<Job>>) {
    forall k :: k in before ==> k in after && after[k] == before[k]
  }

  /** A step that the user can cause: it numbers and sends data, and changes nothing the peer relies on. */
  ghost predicate UserStep(e: Endpoint, f: Endpoint) {
    && f.open == e.open && f.state == e.state && f.remote == e.remote && f.fault == e.fault
    && f.log.accepted == e.log.accepted
    && OnlyData(e.log.issued, f.log.issued)
    && e.log.sent <= f.log.sent
    && AckedIndices(f.log.handled) == AckedIndices(e.log.handled)
    && KeepsEntries(e.queue.entries, f.queue.entries)
  }

  lemma UserStepTransitive(e: Endpoint, f: Endpoint, g: Endpoint)
    requires UserStep(e, f) && UserStep(f, g)
    ensures UserStep(e, g)
  {
  }

  lemma RefusalIsUserStep(e: Endpoint, f: Endpoint, call: HandlerCall<Job>)
    requires UserStep(e, f) && call.entry.job.content.Data? && !call.outcome.Success?
    ensures UserStep(e, RunHandler(f, call))
  {
    AckedIndicesAppend(f.log.handled, call);
  }

  lemma QueueingIsUserStep(e: Endpoint, job: Job, size: nat)
    requires job.content.Data?
    ensures var issued := StartReceive(Issue(e, job.content));
            UserStep(e, ApplyEffect(issued, Pushed(issued.queue, job.number, Entry(size, job))))
  {
    var issued := StartReceive(Issue(e, job.content));
    EffectChanges(issued, Pushed(issued.queue, job.number, Entry(size, job)));
  }

  lemma SendDataIsUserStep(e: Endpoint, payload: Payload)
    ensures UserStep(e, SendData(e, payload))
  {
    var issued := StartReceive(Issue(e, Data(payload)));
    var job := Job(Data(payload), e.next, None, |e.log.issued|, 0);
    var fx := Pushed(issued.queue, job.number, Entry(|payload|, job));
    var moved := ApplyEffect(issued, fx);
    QueueingIsUserStep(e, job, |payload|);
    OneHandler(moved, fx.calls);
    if fx.calls != [] {
      RefusalIsUserStep(e, moved, fx.calls[0]);
    }
  }

  /** Whatever only concerns receives is a step of the user. */
  lemma ReceivesAreUserStep(r: Role, e: Endpoint, f: Endpoint)
    requires Ok(r, e)
    requires f == e.(input := f.input, output := f.output, claims := f.claims, rx := f.rx, log := f.log)
    requires f.log == e.log.(receives := f.log.receives, delivered := f.log.delivered)
    ensures Ok(r, f) && UserStep(e, f)
  {
    SamePacketsOk(r, e, f);
  }

  lemma AsyncReceiveChanges(e: Endpoint, receive: nat)
    ensures var f := AsyncReceive(e, receive);
            && f == e.(input := f.input, output := f.output, claims := f.claims, rx := f.rx, log := f.log)
            && f.log == e.log.(receives := f.log.receives, delivered := f.log.delivered)
  {
  }

  lemma AsyncReceiveKeeps(r: Role, e: Endpoint, receive: nat)
    requires Ok(r, e)
    ensures Ok(r, AsyncReceive(e, receive)) && UserStep(e, AsyncReceive(e, receive))
  {
    AsyncReceiveChanges(e, receive);
    ReceivesAreUserStep(r, e, AsyncReceive(e, receive));
  }

  lemma AsyncSendKeeps(r: Role, e: Endpoint, payload: Payload)
    requires Ok(r, e)
    ensures Ok(r, AsyncSend(e, payload)) && UserStep(e, AsyncSend(e, payload))
  {
    SendDataKeeps(r, e, payload);
    SendDataIsUserStep(e, payload);
  }

  lemma RunClaimKeeps(r: Role, e: Endpoint)
    requires Ok(r, e) && e.claims != [] && e.output != []
    ensures Ok(r, RunClaim(e)) && UserStep(e, RunClaim(e))
    ensures RunClaim(e).log.issued == e.log.issued
  {
    ReceivesAreUserStep(r, e, RunClaim(e));
  }

  lemma RunCallKeeps(r: Role, e: Endpoint, call: UserCall)
    requires Ok(r, e)
    ensures Ok(r, RunCall(e, call)) && UserStep(e, RunCall(e, call))
  {
    match call
    case Send(payload) => AsyncSendKeeps(r, e, payload);
    case Receive(receive) => AsyncReceiveKeeps(r, e, receive);
  }

  lemma {:induction false} RunCallsKeeps(r: Role, e: Endpoint, calls: seq<UserCall>)
    requires Ok(r, e)
    ensures Ok(r, RunCalls(e, calls)) && UserStep(e, RunCalls(e, calls))
  {
    if calls != [] {
      var front := calls[..|calls| - 1];
      RunCallsKeeps(r, e, front);
      RunCallKeeps(r, RunCalls(e, front), calls[|calls| - 1]);
      UserStepTransitive(e, RunCalls(e, front), RunCalls(e, calls));
    }
  }

  /** Sending a pending packet again is a step of the user. */
  lemma EffectIsUserStep(e: Endpoint, fx: Effect<Job>)
    requires fx.started.Some? ==> fx.started.value in fx.queue.entries
    requires KeepsEntries(e.queue.entries, fx.queue.entries)
    ensures UserStep(e, ApplyEffect(e, fx))
    ensures ApplyEffect(e, fx).log.issued == e.log.issued
  {
    EffectChanges(e, fx);
  }

  lemma QueueWaitKeeps(r: Role, e: Endpoint)
    requires Ok(r, e) && e.queue.timer.waits > 0
    ensures Ok(r, QueueWait(e)) && UserStep(e, QueueWait(e))
    ensures QueueWait(e).log.issued == e.log.issued
  {
    EffectKeeps(r, e, WaitArrived(e.queue));
    EffectIsUserStep(e, WaitArrived(e.queue));
  }

  /** A completed step restarts the timer or reports a failure; it never acknowledges anything. */
  lemma StepCompletedKeeps(r: Role, e: Endpoint, entry: Entry<Job>, error: bool, bytes: nat)
    requires Ok(r, e)
    ensures Ok(r, StepCompleted(e, entry, error, bytes))
    ensures var f := StepCompleted(e, entry, error, bytes);
            && Ok(r, f.(state := e.state)) && UserStep(e, f.(state := e.state))
            && f.log.issued == e.log.issued
            && (f.state == e.state || (error && f.state.Closed? && entry.job.content.Handshake? && entry.job.ack.Some?))
  {
    var fx := StepDone(e.queue, entry, error, bytes);
    OneHandler(e.(queue := fx.queue), fx.calls);
    if fx.calls != [] {
      AckedIndicesAppend(e.log.handled, fx.calls[0]);
    }
  }

  ghost predicate NoHandshakes(before: seq<Content>, after: seq<Content>) {
    before <= after && forall i :: |before| <= i < |after| ==> !after[i].Handshake?
  }

  /** What a data packet or keepalive does, apart from being accepted. */
  ghost predicate PacketStep(e: Endpoint, f: Endpoint) {
    && f.open == e.open && f.state == e.state && f.remote == e.remote && f.fault == e.fault
    && NoHandshakes(e.log.issued, f.log.issued)
    && e.log.sent <= f.log.sent
    && AckedIndices(f.log.handled) == AckedIndices(e.log.handled)
    && KeepsEntries(e.queue.entries, f.queue.entries)
  }

  /** Only the packet right after the last accepted one is expected, if it is not a whole circle away. */
  lemma ExpectedIsNext(r: Role, e: Endpoint, number: nat, index: nat)
    requires Ok(r, e) && e.log.accepted != [] && number == Raw(r.peer + index)
    requires index < |e.log.accepted| + MAX + 1 && |e.log.accepted| < index + MAX + 1
    ensures IsExpected(e, number) <==> index == |e.log.accepted|
  {
    var n := |e.log.accepted|;
    RawNext(r.peer + n - 1);
    if IsExpected(e, number) {
      RawInjective(r.peer, index, n);
    }
  }

  lemma TakeForReceiveKeeps(r: Role, e: Endpoint, seen: Endpoint, payload: Payload)
    requires Ok(r, seen) && PacketStep(e, seen) && seen.log.accepted != []
    requires e.input != [] && seen.input == e.input
    ensures var ready := seen.(input := e.input[1..],
                               log := seen.log.(delivered := e.log.delivered + [Delivery(e.input[0], payload)]));
            var f := SendKeepalive(ready, Front(seen.history));
            Ok(r, f) && PacketStep(e, f) && f.log.accepted == seen.log.accepted
  {
    var ready := seen.(input := e.input[1..],
                       log := seen.log.(delivered := e.log.delivered + [Delivery(e.input[0], payload)]));
    SendKeepaliveKeeps(r, ready, Front(seen.history));
  }

  lemma TakeDataKeeps(r: Role, e: Endpoint, number: nat, payload: Payload)
    requires Ok(r, e) && number == Raw(r.peer + |e.log.accepted|)
    ensures Ok(r, TakeData(e, number, payload)) && PacketStep(e, TakeData(e, number, payload))
    ensures TakeData(e, number, payload).log.accepted == e.log.accepted + [Data(payload)]
  {
    var seen := Remember(PacketArrived(e), number, Data(payload));
    RememberKeeps(r, PacketArrived(e), number, Data(payload));
    if e.input != [] {
      TakeForReceiveKeeps(r, e, seen, payload);
    }
  }

  lemma PacketThenUserStep(e: Endpoint, f: Endpoint, g: Endpoint)
    requires PacketStep(e, f) && UserStep(f, g)
    ensures PacketStep(e, g) && g.log.accepted == f.log.accepted
  {
  }

  lemma ReceptionIsUserStep(r: Role, e: Endpoint, f: Endpoint)
    requires Ok(r, e) && f == e.(rx := f.rx)
    ensures Ok(r, f) && UserStep(e, f)
  {
  }

  lemma ProcessDataKeeps(r: Role, e: Endpoint, number: nat, payload: Payload, calls: seq<UserCall>)
    requires Ok(r, e)
    requires IsExpected(e, number) ==> number == Raw(r.peer + |e.log.accepted|)
    requires number <= MAX
    ensures var f := ProcessData(e, number, payload, calls);
            && Ok(r, f) && PacketStep(e, f)
            && f.log.accepted == if IsExpected(e, number) then e.log.accepted + [Data(payload)] else e.log.accepted
  {
    var f := ProcessData(e, number, payload, calls);
    if IsExpected(e, number) {
      var taken := TakeData(e, number, payload);
      TakeDataKeeps(r, e, number, payload);
      RunCallsKeeps(r, taken, calls);
      var after := if e.input == [] then taken else RunCalls(taken, calls);
      PacketThenUserStep(e, taken, after);
      ReceptionIsUserStep(r, after, f);
      PacketThenUserStep(e, after, f);
    } else {
      ReceptionIsUserStep(r, e, f);
    }
  }

  lemma ProcessKeepaliveKeeps(r: Role, e: Endpoint, number: nat)
    requires Ok(r, e)
    requires IsExpected(e, number) ==> number == Raw(r.peer + |e.log.accepted|)
    requires number <= MAX
    ensures var f := ProcessKeepalive(e, number);
            && Ok(r, f) && PacketStep(e, f) && f.log.issued == e.log.issued && f.queue == e.queue
            && f.log.accepted == if IsExpected(e, number) then e.log.accepted + [Keepalive] else e.log.accepted
  {
    if IsExpected(e, number) {
      RememberKeeps(r, PacketArrived(e), number, Keepalive);
    }
  }

  /** The pending packet that an acknowledgement completes, if any. */
  function Named(entries: map<nat, Entry<Job>>, ack: nat): set<nat> {
    if ack in entries then {entries[ack].job.index} else {}
  }

  lemma AckedKeeps(r: Role, e: Endpoint, ack: nat)
    requires Ok(r, e)
    ensures Ok(r, ApplyEffect(e, Acked(e.queue, ack)))
  {
    EffectKeeps(r, e, Acked(e.queue, ack));
  }

  lemma HandlerChanges(e: Endpoint, call: HandlerCall<Job>)
    ensures var f := RunHandler(e, call);
            && f == e.(state := f.state, remote := f.remote, fault := f.fault, log := f.log)
            && f.log == e.log.(handled := e.log.handled + [call])
  {
  }

  /** All that the queue's reaction to an acknowledgement and the handler of the named packet change. */
  lemma ApplyAckChanges(e: Endpoint, ack: nat)
    ensures var f, fx := ApplyAck(e, ack), Acked(e.queue, ack);
            && f == e.(state := f.state, remote := f.remote, fault := f.fault, queue := fx.queue, log := f.log)
            && f.log == e.log.(sent := f.log.sent, steps := f.log.steps, handled := e.log.handled + fx.calls)
            && e.log.sent <= f.log.sent == ApplyEffect(e, fx).log.sent
            && f.queue.entries == e.queue.entries - {ack}
  {
    var fx := Acked(e.queue, ack);
    var moved := ApplyEffect(e, fx);
    EffectChanges(e, fx);
    OneHandler(moved, fx.calls);
    if fx.calls != [] {
      HandlerChanges(moved, fx.calls[0]);
    }
    if ack !in e.queue.entries {
      assert e.queue.entries - {ack} == e.queue.entries;
    }
  }

  lemma AcknowledgeChanges(e: Endpoint)
    ensures Acknowledge(e) == e.(state := Acknowledge(e).state, fault := Acknowledge(e).fault)
  {
  }

  lemma ApplyAckKeepsOk(r: Role, e: Endpoint, ack: nat)
    requires Ok(r, ApplyEffect(e, Acked(e.queue, ack)))
    ensures Ok(r, ApplyAck(e, ack))
  {
    RunHandlersKeeps(r, ApplyEffect(e, Acked(e.queue, ack)), Acked(e.queue, ack).calls);
  }

  lemma ApplyAckKeeps(r: Role, e: Endpoint, ack: nat)
    requires Ok(r, e)
    ensures Ok(r, ApplyAck(e, ack))
    ensures var f := ApplyAck(e, ack);
            && f.open == e.open
            && f.log.accepted == e.log.accepted && f.log.issued == e.log.issued
            && e.log.sent <= f.log.sent
            && f.queue.entries == e.queue.entries - {ack}
            && AckedIndices(f.log.handled) == AckedIndices(e.log.handled) + Named(e.queue.entries, ack)
  {
    AckedKeeps(r, e, ack);
    ApplyAckChanges(e, ack);
    ApplyAckKeepsOk(r, e, ack);
    if ack in e.queue.entries {
      AckedIndicesAppend(e.log.handled, Acked(e.queue, ack).calls[0]);
    }
  }

  /** The acknowledgement names a pending handshake. */
  predicate NamesHandshake(e: Endpoint, ack: nat) {
    ack in e.queue.entries && e.queue.entries[ack].job.content.Handshake?
  }

  ghost predicate KeepsOthers(before: map<nat, Entry<Job>>, after: map<nat, Entry<Job>>, ack: nat) {
    forall k :: k in before && k != ack ==> k in after && after[k] == before[k]
  }

  /** What an acknowledgement does, when the endpoint is in a state that expects one. */
  ghost predicate AckStep(r: Role, e: Endpoint, f: Endpoint, ack: nat) {
    && f.open == e.open && !f.fault
    && f.log.accepted == e.log.accepted
    && OnlyData(e.log.issued, f.log.issued)
    && (ack !in e.queue.entries ==> f.log.issued == e.log.issued)
    && e.log.sent <= f.log.sent
    && KeepsOthers(e.queue.entries, f.queue.entries, ack)
    && AckedIndices(f.log.handled) == AckedIndices(e.log.handled) + Named(e.queue.entries, ack)
    && f.state == (if e.state.Listening? && !NamesHandshake(e, ack) then Listening else Established)
    && f.remote == (e.remote || (NamesHandshake(e, ack) && r.reply))
  }

  /** How an acknowledgement moves the connection state: only a handshake's handler changes it. */
  lemma AckMovesState(r: Role, seen: Endpoint, ack: nat)
    requires NamesHandshake(seen, ack) ==> (seen.queue.entries[ack].job.ack.Some? <==> r.reply)
    requires !seen.fault && (seen.state.Established? || (seen.state.Listening? && r.reply))
    ensures var f := ApplyAck(seen, ack);
            && !f.fault
            && f.state == (if NamesHandshake(seen, ack) then Established else seen.state)
            && f.remote == (seen.remote || (NamesHandshake(seen, ack) && r.reply))
  {
    var fx := Acked(seen.queue, ack);
    OneHandler(ApplyEffect(seen, fx), fx.calls);
  }

  lemma AcknowledgeKeeps(r: Role, e: Endpoint, ack: nat)
    requires Ok(r, e)
    requires !e.fault && !e.state.Closed? && !e.state.Connecting?
    requires e.state.Listening? ==> r.reply
    ensures var f := ApplyAck(Acknowledge(e), ack);
            Ok(r, f) && AckStep(r, e, f, ack)
  {
    var seen := Acknowledge(e);
    assert seen == e.(state := seen.state);
    assert Ok(r, seen);
    ApplyAckKeeps(r, seen, ack);
    if ack in e.queue.entries {
      assert JobOk(r, e.log.issued, |e.log.accepted|, e.queue.entries[ack].job);
    }
    AckMovesState(r, seen, ack);
  }

  lemma AckThenUserStep(r: Role, e: Endpoint, f: Endpoint, g: Endpoint, ack: nat)
    requires AckStep(r, e, f, ack) && UserStep(f, g)
    requires ack in e.queue.entries || g.log.issued == f.log.issued
    ensures AckStep(r, e, g, ack)
  {
  }

  /** What follows the queue's reaction: the user's calls if a packet was named, and receiving goes on. */
  lemma ReactionKeeps(r: Role, e: Endpoint, acked: Endpoint, ack: nat, calls: seq<UserCall>)
    requires Ok(r, acked) && AckStep(r, e, acked, ack)
    ensures var after := if ack in e.queue.entries then RunCalls(acked, calls) else acked;
            var f := if after.queue.entries.Keys != {} then StartReceive(after) else after;
            Ok(r, f) && AckStep(r, e, f, ack)
  {
    var after := if ack in e.queue.entries then RunCalls(acked, calls) else acked;
    if ack in e.queue.entries {
      RunCallsKeeps(r, acked, calls);
      AckThenUserStep(r, e, acked, after, ack);
    }
    var f := if after.queue.entries.Keys != {} then StartReceive(after) else after;
    ReceptionIsUserStep(r, after, f);
    AckThenUserStep(r, e, after, f, ack);
  }

  lemma ProcessAcknowledgementKeeps(r: Role, e: Endpoint, ack: nat, calls: seq<UserCall>)
    requires Ok(r, e)
    requires !e.fault && !e.state.Closed? && !e.state.Connecting?
    requires e.state.Listening? ==> r.reply
    ensures var f := ProcessAcknowledgement(e, ack, calls);
            Ok(r, f) && AckStep(r, e, f, ack)
  {
    AcknowledgeKeeps(r, e, ack);
    ReactionKeeps(r, e, ApplyAck(Acknowledge(e), ack), ack, calls);
  }

  // Why the network may not deliver just anything.

  lemma SameRaw(b: nat, i: nat, j: nat)
    ensures Raw(b + i) == Raw(b + j) <==> (i - j) % (MAX + 1) == 0
  {
  }

  /** On the whole line, a packet is taken for the next one exactly every full circle. */
  lemma ExpectedEveryCircle(r: Role, e: Endpoint, index: nat)
    requires Ok(r, e) && e.log.accepted != []
    ensures IsExpected(e, Raw(r.peer + index)) <==> (index - |e.log.accepted|) % (MAX + 1) == 0
  {
    var n := |e.log.accepted|;
    RawNext(r.peer + n - 1);
    SameRaw(r.peer, n, index);
    SameRaw(r.peer, index, n);
  }

  /** An acknowledgement completes the pending packet whose index it names, or one full circles away. */
  lemma AcknowledgedEveryCircle(r: Role, e: Endpoint, ackIndex: nat, k: nat)
    requires Ok(r, e) && k in e.queue.entries
    ensures var fx := Acked(e.queue, Raw(r.base + ackIndex));
            k !in fx.queue.entries <==> (e.queue.entries[k].job.index - ackIndex) % (MAX + 1) == 0
    ensures var fx := Acked(e.queue, Raw(r.base + ackIndex));
            k !in fx.queue.entries ==>
              fx.calls == [HandlerCall(e.queue.entries[k], Success, e.queue.entries[k].size)]
  {
    var job := e.queue.entries[k].job;
    assert JobOk(r, e.log.issued, |e.log.accepted|, job);
    SameRaw(r.base, job.index, ackIndex);
  }

  /** No pending packet is a whole circle away from the one that the acknowledgement is meant for. */
  ghost predicate FreshAck(e: Endpoint, ackIndex: nat) {
    forall k :: k in e.queue.entries ==>
      && e.queue.entries[k].job.index < ackIndex + MAX + 1
      && ackIndex < e.queue.entries[k].job.index + MAX + 1
  }

  lemma FreshAckNames(r: Role, e: Endpoint, ackIndex: nat)
    requires Ok(r, e) && FreshAck(e, ackIndex)
    ensures Named(e.queue.entries, Raw(r.base + ackIndex)) <= {ackIndex}
  {
    var ack := Raw(r.base + ackIndex);
    if ack in e.queue.entries {
      assert JobOk(r, e.log.issued, |e.log.accepted|, e.queue.entries[ack].job);
      RawInjective(r.base, e.queue.entries[ack].job.index, ackIndex);
    }
  }

  /** A handshake is asserted to come in just the two states that wait for one. */
  lemma HandshakeAsserts(e: Endpoint, number: nat)
    requires number <= MAX && !e.fault
    ensures ProcessHandshake(e, number).fault <==> !e.state.Listening? && !e.state.Connecting?
  {
    if e.state.Listening? {
      var seen := Remember(PacketArrived(e), number, Handshake);
      var issued := StartReceive(Issue(seen, Handshake));
      var job := Job(Handshake, seen.next, Some(number), |seen.log.issued|, LastAccepted(seen));
      var fx := Pushed(issued.queue, job.number, Entry(0, job));
      OneHandler(ApplyEffect(issued, fx), fx.calls);
    }
  }
}
