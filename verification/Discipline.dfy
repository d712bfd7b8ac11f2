/**
 What stop-and-wait means for an endpoint. Every packet it queued is pending, acknowledged or refused,
 and a keepalive is sent once. Before its numbers wrap around, only the first pending packet was ever
 sent and none was refused.
 */
module Disciplines {
  import opened CumulativeSets
  import opened Wrappers
  import opened TransmitQueues
  import opened Endpoints
  import opened EndpointFacts
  import opened Deliveries

  ghost predicate Unwrapped(r: Role, issued: seq<Content>) {
    r.base + |issued| <= MAX + 1
  }

  /** The handshakes and data packets among the first n numbered ones: those that are queued until acknowledged. */
  function QueuedUpTo(issued: seq<Content>, n: nat): set<nat>
    requires n <= |issued|
  {
    set i | 0 <= i < n && !issued[i].Keepalive?
  }

  function PendingIndices(entries: map<nat, Entry<Job>>): set<nat> {
    set k | k in entries :: entries[k].job.index
  }

  /** The packets whose handlers were called with an outcome. */
  function IndicesWith(handled: seq<HandlerCall<Job>>, outcome: Outcome): set<nat> {
    set i | 0 <= i < |handled| && handled[i].outcome == outcome :: handled[i].entry.job.index
  }

  lemma IndicesWithAppend(handled: seq<HandlerCall<Job>>, call: HandlerCall<Job>, outcome: Outcome)
    ensures IndicesWith(handled + [call], outcome)
         == IndicesWith(handled, outcome) + if call.outcome == outcome then {call.entry.job.index} else {}
  {
    var all := handled + [call];
    forall x | x in IndicesWith(handled, outcome)
      ensures x in IndicesWith(all, outcome)
    {
      var i :| 0 <= i < |handled| && handled[i].outcome == outcome && handled[i].entry.job.index == x;
      assert all[i] == handled[i];
    }
    assert all[|handled|] == call;
  }

  /** The packets whose number was still in use in the queue when they were pushed. */
  function RefusedIndices(handled: seq<HandlerCall<Job>>): set<nat> {
    IndicesWith(handled, AlreadyStarted)
  }

  /** The packets that were pending when their socket closed. */
  function AbortedIndices(handled: seq<HandlerCall<Job>>): set<nat> {
    IndicesWith(handled, OperationAborted)
  }

  ghost predicate Partition(all: set<nat>, acked: set<nat>, pending: set<nat>, refused: set<nat>, aborted: set<nat>) {
    && acked + pending + refused + aborted == all
    && acked !! pending && (acked + pending) !! refused && (acked + pending + refused) !! aborted
  }

  /** Every packet that was to be queued is acknowledged, pending, refused or aborted, and just one of them. */
  ghost predicate Settled(issued: seq<Content>, entries: map<nat, Entry<Job>>, handled: seq<HandlerCall<Job>>) {
    Partition(QueuedUpTo(issued, |issued|), AckedIndices(handled), PendingIndices(entries),
              RefusedIndices(handled), AbortedIndices(handled))
  }

  /** No datagram repeats a keepalive. */
  ghost predicate KeepalivesOnce(sent: seq<Packet>) {
    forall i, j ::
      0 <= i < |sent| && 0 <= j < |sent| && sent[i].content.Keepalive? && sent[i].index == sent[j].index ==> i == j
  }

  /** No queued packet that was sent is newer than a pending one. */
  ghost predicate SentUpToFirst(sent: seq<Packet>, entries: map<nat, Entry<Job>>) {
    forall i, k :: 0 <= i < |sent| && !sent[i].content.Keepalive? && k in entries ==>
      sent[i].index <= entries[k].job.index
  }

  /** No queued packet that was sent is newer than one of these. */
  ghost predicate SentUpTo(sent: seq<Packet>, indices: set<nat>) {
    forall i, x :: 0 <= i < |sent| && !sent[i].content.Keepalive? && x in indices ==> sent[i].index <= x
  }

  /** The numbers order the pending packets as their indices do. */
  ghost predicate KeysInOrder(entries: map<nat, Entry<Job>>) {
    forall k, l :: k in entries && l in entries && k < l ==> entries[k].job.index < entries[l].job.index
  }

  /** What holds as long as no packet was numbered below a pending one. */
  ghost predicate InOrderSoFar(e: Endpoint) {
    && SentUpToFirst(e.log.sent, e.queue.entries) && KeysInOrder(e.queue.entries)
    && RefusedIndices(e.log.handled) == {}
    && SentUpTo(e.log.sent, AbortedIndices(e.log.handled))
  }

  ghost predicate Disciplined(r: Role, e: Endpoint) {
    && Settled(e.log.issued, e.queue.entries, e.log.handled)
    && KeepalivesOnce(e.log.sent)
    && (e.queue.alive ==> AbortedIndices(e.log.handled) == {})
    && (e.log.ordered ==> InOrderSoFar(e))
    && (Unwrapped(r, e.log.issued) ==> e.log.ordered)
  }

  lemma DisciplineOnly(r: Role, e: Endpoint, f: Endpoint)
    requires Disciplined(r, e)
    requires f.log.issued == e.log.issued && f.log.sent == e.log.sent && f.queue.entries == e.queue.entries
    requires f.queue.alive ==> e.queue.alive
    requires AckedIndices(f.log.handled) == AckedIndices(e.log.handled)
    requires RefusedIndices(f.log.handled) == RefusedIndices(e.log.handled)
    requires AbortedIndices(f.log.handled) == AbortedIndices(e.log.handled) && f.log.ordered == e.log.ordered
    ensures Disciplined(r, f)
  {
  }

  lemma ReceptionDisciplined(r: Role, e: Endpoint, f: Endpoint)
    requires Disciplined(r, e) && f == e.(rx := f.rx)
    ensures Disciplined(r, f)
  {
    DisciplineOnly(r, e, f);
  }

  lemma RawUnwrapped(i: nat)
    requires i <= MAX
    ensures Raw(i) == i
  {
  }

  /** Before the wrap every new number comes behind all pending ones. */
  lemma UnwrappedIsBehind(r: Role, e: Endpoint)
    requires Ok(r, e) && r.base + |e.log.issued| <= MAX
    ensures Behind(e.queue.entries, e.next)
  {
    forall k | k in e.queue.entries
      ensures k < r.base + |e.log.issued|
    {
      var job := e.queue.entries[k].job;
      assert JobOk(r, e.log.issued, |e.log.accepted|, job);
      RawUnwrapped(r.base + job.index);
    }
    RawUnwrapped(r.base + |e.log.issued|);
  }

  // Numbering one more packet.

  lemma QueuedGrows(issued: seq<Content>, content: Content)
    ensures QueuedUpTo(issued + [content], |issued| + 1)
         == QueuedUpTo(issued, |issued|) + if content.Keepalive? then {} else {|issued|}
  {
    var more := issued + [content];
    assert forall i :: 0 <= i < |issued| ==> more[i] == issued[i];
  }

  lemma PendingGrows(entries: map<nat, Entry<Job>>, number: nat, entry: Entry<Job>)
    requires number !in entries
    ensures PendingIndices(entries[number := entry]) == PendingIndices(entries) + {entry.job.index}
  {
    var more := entries[number := entry];
    assert more[number] == entry;
    forall k | k in entries
      ensures entries[k].job.index in PendingIndices(more)
    {
      assert more[k] == entries[k];
    }
  }

  /** A pushed packet joins the pending ones, or is refused when its number is taken. */
  lemma EnqueueEffect(e: Endpoint, job: Job, size: nat)
    ensures var f, entry := Enqueue(e, job, size), Entry(size, job);
            && f.log.issued == e.log.issued && f.log.ordered == e.log.ordered && e.log.sent <= f.log.sent
            && AckedIndices(f.log.handled) == AckedIndices(e.log.handled)
            && AbortedIndices(f.log.handled) == AbortedIndices(e.log.handled)
            && (job.number in e.queue.entries ==>
                  && f.queue.entries == e.queue.entries && f.log.sent == e.log.sent
                  && RefusedIndices(f.log.handled) == RefusedIndices(e.log.handled) + {job.index})
            && (job.number !in e.queue.entries ==>
                  && f.queue.entries == e.queue.entries[job.number := entry]
                  && RefusedIndices(f.log.handled) == RefusedIndices(e.log.handled))
  {
    var fx := Pushed(e.queue, job.number, Entry(size, job));
    EnqueueChanges(e, job, size);
    if fx.calls != [] {
      AckedIndicesAppend(e.log.handled, fx.calls[0]);
      IndicesWithAppend(e.log.handled, fx.calls[0], AlreadyStarted);
      IndicesWithAppend(e.log.handled, fx.calls[0], OperationAborted);
    }
  }

  lemma EnqueueSends(e: Endpoint, job: Job, size: nat)
    requires job.number !in e.queue.entries
    ensures var f := Enqueue(e, job, size);
            && f.queue.entries == e.queue.entries[job.number := Entry(size, job)]
            && e.log.sent <= f.log.sent && |f.log.sent| <= |e.log.sent| + 1
            && (|f.log.sent| > |e.log.sent| ==>
                  && e.queue.entries.Keys == {}
                  && f.log.sent[|e.log.sent|].index == job.index && f.log.sent[|e.log.sent|].content == job.content)
  {
    OneHandler(ApplyEffect(e, Pushed(e.queue, job.number, Entry(size, job))), []);
  }

  lemma EnqueueSettles(e: Endpoint, issued: Endpoint, job: Job, size: nat)
    requires Settled(e.log.issued, e.queue.entries, e.log.handled)
    requires job.index == |e.log.issued| && !job.content.Keepalive?
    requires issued.queue == e.queue
    requires issued.log == e.log.(issued := e.log.issued + [job.content], ordered := issued.log.ordered)
    ensures var f := Enqueue(issued, job, size);
            Settled(f.log.issued, f.queue.entries, f.log.handled)
  {
    EnqueueEffect(issued, job, size);
    QueuedGrows(e.log.issued, job.content);
    if job.number !in e.queue.entries {
      PendingGrows(e.queue.entries, job.number, Entry(size, job));
    }
    assert |e.log.issued| !in QueuedUpTo(e.log.issued, |e.log.issued|);
  }

  /** A datagram that is no keepalive repeats none. */
  lemma KeepalivesStayOnce(r: Role, issued: seq<Content>, n: nat, before: seq<Packet>, after: seq<Packet>)
    requires KeepalivesOnce(before) && SentOk(r, issued, n, after)
    requires before <= after && |after| <= |before| + 1
    requires |after| > |before| ==> !after[|before|].content.Keepalive?
    ensures KeepalivesOnce(after)
  {
    forall i, j |
      0 <= i < |after| && 0 <= j < |after| && after[i].content.Keepalive? && after[i].index == after[j].index
      ensures i == j
    {
      assert PacketOk(r, issued, n, after[i]) && PacketOk(r, issued, n, after[j]);
      assert after[i] == before[i] && after[j] == before[j];
    }
  }

  lemma EnqueueKeepalivesOnce(r: Role, e: Endpoint, job: Job, size: nat)
    requires Ok(r, e) && JobOk(r, e.log.issued, |e.log.accepted|, job) && KeepalivesOnce(e.log.sent)
    ensures KeepalivesOnce(Enqueue(e, job, size).log.sent)
  {
    var f := Enqueue(e, job, size);
    if job.number in e.queue.entries {
      EnqueueEffect(e, job, size);
    } else {
      EnqueueKeeps(r, e, job, size);
      EnqueueSends(e, job, size);
      KeepalivesStayOnce(r, f.log.issued, |f.log.accepted|, e.log.sent, f.log.sent);
    }
  }

  lemma SentUpToFirstGrows(e: Endpoint, f: Endpoint, number: nat, entry: Entry<Job>)
    requires SentUpToFirst(e.log.sent, e.queue.entries)
    requires forall i :: 0 <= i < |e.log.sent| ==> e.log.sent[i].index < entry.job.index
    requires e.log.sent <= f.log.sent && |f.log.sent| <= |e.log.sent| + 1
    requires |f.log.sent| > |e.log.sent| ==>
               e.queue.entries.Keys == {} && f.log.sent[|e.log.sent|].index == entry.job.index
    ensures SentUpToFirst(f.log.sent, e.queue.entries[number := entry])
  {
    var entries := e.queue.entries[number := entry];
    forall i, k | 0 <= i < |f.log.sent| && !f.log.sent[i].content.Keepalive? && k in entries
      ensures f.log.sent[i].index <= entries[k].job.index
    {
      assert i < |e.log.sent| ==> f.log.sent[i] == e.log.sent[i];
      assert k != number ==> k in e.queue.entries.Keys;
    }
  }

  lemma SentIndicesBelow(r: Role, e: Endpoint)
    requires Ok(r, e)
    ensures forall i :: 0 <= i < |e.log.sent| ==> e.log.sent[i].index < |e.log.issued|
    ensures forall k :: k in e.queue.entries ==> e.queue.entries[k].job.index < |e.log.issued|
  {
    forall i | 0 <= i < |e.log.sent|
      ensures e.log.sent[i].index < |e.log.issued|
    {
      assert PacketOk(r, e.log.issued, |e.log.accepted|, e.log.sent[i]);
    }
    forall k | k in e.queue.entries
      ensures e.queue.entries[k].job.index < |e.log.issued|
    {
      assert JobOk(r, e.log.issued, |e.log.accepted|, e.queue.entries[k].job);
    }
  }

  lemma KeysStayInOrder(entries: map<nat, Entry<Job>>, number: nat, entry: Entry<Job>)
    requires KeysInOrder(entries) && Behind(entries, number)
    requires forall k :: k in entries ==> entries[k].job.index < entry.job.index
    ensures KeysInOrder(entries[number := entry])
  {
  }

  lemma EnqueueInOrder(r: Role, e: Endpoint, issued: Endpoint, job: Job, size: nat)
    requires Ok(r, e) && job.number == e.next && job.index == |e.log.issued|
    requires InOrderSoFar(e) && Behind(e.queue.entries, e.next) && AbortedIndices(e.log.handled) == {}
    requires issued.queue == e.queue
    requires issued.log == e.log.(issued := e.log.issued + [job.content], ordered := issued.log.ordered)
    ensures InOrderSoFar(Enqueue(issued, job, size))
  {
    SentIndicesBelow(r, e);
    EnqueueEffect(issued, job, size);
    EnqueueSends(issued, job, size);
    SentUpToFirstGrows(e, Enqueue(issued, job, size), job.number, Entry(size, job));
    KeysStayInOrder(e.queue.entries, job.number, Entry(size, job));
  }

  /** A newly numbered packet is queued behind all others, and sent at once only if it is alone. */
  lemma EnqueueDisciplined(r: Role, e: Endpoint, issued: Endpoint, job: Job, size: nat)
    requires Ok(r, e) && Disciplined(r, e) && Ok(r, issued)
    requires job.number == e.next && job.index == |e.log.issued|
    requires JobOk(r, issued.log.issued, |issued.log.accepted|, job)
    requires issued.queue == e.queue
    requires issued.log == e.log.(issued := e.log.issued + [job.content],
                                  ordered := e.log.ordered && Behind(e.queue.entries, e.next))
    ensures Disciplined(r, Enqueue(issued, job, size))
  {
    EnqueueEffect(issued, job, size);
    EnqueueSettles(e, issued, job, size);
    EnqueueKeepalivesOnce(r, issued, job, size);
    if Unwrapped(r, issued.log.issued) {
      UnwrappedIsBehind(r, e);
    }
    if issued.log.ordered {
      EnqueueInOrder(r, e, issued, job, size);
    }
  }

  lemma SendDataDisciplined(r: Role, e: Endpoint, payload: Payload)
    requires Ok(r, e) && Disciplined(r, e)
    ensures Disciplined(r, SendData(e, payload))
  {
    IssueKeeps(r, e, Data(payload));
    EnqueueDisciplined(r, e, StartReceive(Issue(e, Data(payload))),
                       Job(Data(payload), e.next, None, |e.log.issued|, 0), |payload|);
  }

  lemma SendHandshakeDisciplined(r: Role, e: Endpoint, ack: Option<nat>)
    requires Ok(r, e) && Disciplined(r, e)
    requires (ack.Some? <==> r.reply) && AckOk(r, |e.log.accepted|, ack, LastAccepted(e))
    ensures Disciplined(r, SendHandshake(e, ack))
  {
    IssueKeeps(r, e, Handshake);
    EnqueueDisciplined(r, e, StartReceive(Issue(e, Handshake)),
                       Job(Handshake, e.next, ack, |e.log.issued|, LastAccepted(e)), 0);
  }

  /** A keepalive is sent with an index of its own, and is not queued. */
  lemma SendKeepaliveDisciplined(r: Role, e: Endpoint, ack: Option<nat>)
    requires Ok(r, e) && Disciplined(r, e)
    ensures Disciplined(r, SendKeepalive(e, ack))
  {
    QueuedGrows(e.log.issued, Keepalive);
    var sent := SendKeepalive(e, ack).log.sent;
    forall i | 0 <= i < |e.log.sent|
      ensures sent[i] == e.log.sent[i] && sent[i].index < |e.log.issued|
    {
      assert PacketOk(r, e.log.issued, |e.log.accepted|, e.log.sent[i]);
    }
  }

  lemma RunCallDisciplined(r: Role, e: Endpoint, call: UserCall)
    requires Ok(r, e) && Disciplined(r, e)
    ensures Disciplined(r, RunCall(e, call))
  {
    match call
    case Send(payload) => SendDataDisciplined(r, e, payload);
    case Receive(_) => DisciplineOnly(r, e, RunCall(e, call));
  }

  lemma {:induction false} RunCallsDisciplined(r: Role, e: Endpoint, calls: seq<UserCall>)
    requires Ok(r, e) && Disciplined(r, e)
    ensures Disciplined(r, RunCalls(e, calls))
  {
    if calls != [] {
      var front := calls[..|calls| - 1];
      RunCallsKeeps(r, e, front);
      RunCallsDisciplined(r, e, front);
      RunCallDisciplined(r, RunCalls(e, front), calls[|calls| - 1]);
    }
  }

  // Sending again, and acknowledgements.

  /** What the queue sends is a pending packet, never a keepalive. */
  lemma EffectKeepalivesOnce(r: Role, e: Endpoint, fx: Effect<Job>)
    requires Ok(r, e) && KeepalivesOnce(e.log.sent)
    requires EntriesOk(r, e.log.issued, |e.log.accepted|, fx.queue.entries) && fx.queue.alive
    requires fx.started.Some? ==> fx.started.value in fx.queue.entries
    ensures KeepalivesOnce(ApplyEffect(e, fx).log.sent)
  {
    var f := ApplyEffect(e, fx);
    EffectKeeps(r, e, fx);
    KeepalivesStayOnce(r, f.log.issued, |f.log.accepted|, e.log.sent, f.log.sent);
  }

  /** Sending the first entry again, or for the first time, keeps the discipline. */
  lemma EffectInOrder(e: Endpoint, fx: Effect<Job>)
    requires fx.queue.entries.Keys <= e.queue.entries.Keys
    requires forall k :: k in fx.queue.entries ==> fx.queue.entries[k] == e.queue.entries[k]
    requires fx.started.Some? ==> fx.queue.entries.Keys != {} && fx.started.value == First(fx.queue.entries)
    requires SentUpToFirst(e.log.sent, e.queue.entries) && KeysInOrder(e.queue.entries)
    ensures SentUpToFirst(ApplyEffect(e, fx).log.sent, fx.queue.entries) && KeysInOrder(fx.queue.entries)
  {
    var f := ApplyEffect(e, fx);
    assert forall k :: k in fx.queue.entries ==> k in e.queue.entries.Keys;
    forall i, k | 0 <= i < |f.log.sent| && !f.log.sent[i].content.Keepalive? && k in fx.queue.entries
      ensures f.log.sent[i].index <= fx.queue.entries[k].job.index
    {
      if i == |e.log.sent| {
        var first := First(fx.queue.entries);
        assert first < k ==> fx.queue.entries[first].job.index < fx.queue.entries[k].job.index;
      } else {
        assert f.log.sent[i] == e.log.sent[i];
      }
    }
  }

  lemma QueueWaitDisciplined(r: Role, e: Endpoint)
    requires Ok(r, e) && Disciplined(r, e) && e.queue.timer.waits > 0
    ensures Disciplined(r, QueueWait(e))
  {
    EffectChanges(e, WaitArrived(e.queue));
    EffectKeepalivesOnce(r, e, WaitArrived(e.queue));
    if e.log.ordered {
      EffectInOrder(e, WaitArrived(e.queue));
    }
  }

  ghost predicate DistinctIndices(entries: map<nat, Entry<Job>>) {
    forall k, l :: k in entries && l in entries && k != l ==> entries[k].job.index != entries[l].job.index
  }

  lemma PendingAreDistinct(r: Role, e: Endpoint)
    requires PacketsOk(r, e)
    ensures DistinctIndices(e.queue.entries)
  {
    forall k, l | k in e.queue.entries && l in e.queue.entries && k != l
      ensures e.queue.entries[k].job.index != e.queue.entries[l].job.index
    {
      assert JobOk(r, e.log.issued, |e.log.accepted|, e.queue.entries[k].job);
      assert JobOk(r, e.log.issued, |e.log.accepted|, e.queue.entries[l].job);
    }
  }

  lemma PendingWithout(entries: map<nat, Entry<Job>>, k: nat)
    requires k in entries && DistinctIndices(entries)
    ensures var index, rest := entries[k].job.index, PendingIndices(entries - {k});
            PendingIndices(entries) == {index} + rest && index !in rest
  {
    var rest := entries - {k};
    assert forall l :: l in entries ==> l == k || l in rest;
    forall l | l in rest
      ensures entries[l] == rest[l] && entries[l].job.index in PendingIndices(entries)
    {
    }
  }

  /** The handler of the named packet runs with success; nothing else is completed. */
  lemma ApplyAckHandled(e: Endpoint, ack: nat)
    ensures RefusedIndices(ApplyAck(e, ack).log.handled) == RefusedIndices(e.log.handled)
    ensures AbortedIndices(ApplyAck(e, ack).log.handled) == AbortedIndices(e.log.handled)
  {
    ApplyAckChanges(e, ack);
    if ack in e.queue.entries {
      IndicesWithAppend(e.log.handled, Acked(e.queue, ack).calls[0], AlreadyStarted);
      IndicesWithAppend(e.log.handled, Acked(e.queue, ack).calls[0], OperationAborted);
    }
  }

  /** An acknowledged packet leaves the pending ones. */
  lemma ApplyAckSettles(r: Role, e: Endpoint, ack: nat)
    requires Ok(r, e) && Settled(e.log.issued, e.queue.entries, e.log.handled)
    ensures var f := ApplyAck(e, ack);
            Settled(f.log.issued, f.queue.entries, f.log.handled)
  {
    ApplyAckKeeps(r, e, ack);
    ApplyAckHandled(e, ack);
    PendingAreDistinct(r, e);
    if ack in e.queue.entries {
      PendingWithout(e.queue.entries, ack);
    } else {
      assert e.queue.entries - {ack} == e.queue.entries;
    }
  }

  lemma ApplyAckDisciplined(r: Role, e: Endpoint, ack: nat)
    requires Ok(r, e) && Disciplined(r, e)
    ensures Disciplined(r, ApplyAck(e, ack))
  {
    ApplyAckKeeps(r, e, ack);
    ApplyAckSettles(r, e, ack);
    ApplyAckHandled(e, ack);
    ApplyAckChanges(e, ack);
    EffectKeepalivesOnce(r, e, Acked(e.queue, ack));
    if e.log.ordered {
      EffectInOrder(e, Acked(e.queue, ack));
    }
  }

  lemma StepCompletedDisciplined(r: Role, e: Endpoint, entry: Entry<Job>, error: bool, bytes: nat)
    requires Ok(r, e) && Disciplined(r, e)
    ensures Disciplined(r, StepCompleted(e, entry, error, bytes))
  {
    var fx := StepDone(e.queue, entry, error, bytes);
    OneHandler(e.(queue := fx.queue), fx.calls);
    if fx.calls != [] {
      AckedIndicesAppend(e.log.handled, fx.calls[0]);
      IndicesWithAppend(e.log.handled, fx.calls[0], AlreadyStarted);
      IndicesWithAppend(e.log.handled, fx.calls[0], OperationAborted);
    }
    DisciplineOnly(r, e, StepCompleted(e, entry, error, bytes));
  }

  lemma ReactionDisciplined(r: Role, acked: Endpoint, named: bool, calls: seq<UserCall>, f: Endpoint)
    requires Ok(r, acked) && Disciplined(r, acked)
    requires f == var after := if named then RunCalls(acked, calls) else acked;
                  if after.queue.entries.Keys != {} then StartReceive(after) else after
    ensures Disciplined(r, f)
  {
    RunCallsDisciplined(r, acked, calls);
    ReceptionDisciplined(r, if named then RunCalls(acked, calls) else acked, f);
  }

  lemma AcknowledgeOnly(r: Role, e: Endpoint)
    requires Ok(r, e) && Disciplined(r, e)
    ensures Ok(r, Acknowledge(e)) && Disciplined(r, Acknowledge(e))
  {
    DisciplineOnly(r, e, Acknowledge(e));
  }

  lemma AppliedAckFacts(r: Role, e: Endpoint, ack: nat)
    requires Ok(r, e) && Disciplined(r, e)
    ensures Ok(r, ApplyAck(e, ack)) && Disciplined(r, ApplyAck(e, ack))
  {
    ApplyAckDisciplined(r, e, ack);
    ApplyAckKeeps(r, e, ack);
  }

  lemma AcknowledgementDisciplined(r: Role, e: Endpoint, ack: nat, calls: seq<UserCall>)
    requires Ok(r, e) && Disciplined(r, e)
    ensures Disciplined(r, ProcessAcknowledgement(e, ack, calls))
  {
    var seen, f := Acknowledge(e), ProcessAcknowledgement(e, ack, calls);
    AcknowledgeOnly(r, e);
    if !seen.fault {
      AppliedAckFacts(r, seen, ack);
      ReactionDisciplined(r, ApplyAck(seen, ack), ack in e.queue.entries, calls, f);
    }
  }

  // Messages.

  lemma TakeDataDisciplined(r: Role, e: Endpoint, number: nat, payload: Payload)
    requires Ok(r, e) && Disciplined(r, e) && number == Raw(r.peer + |e.log.accepted|)
    ensures Disciplined(r, TakeData(e, number, payload))
  {
    var seen := Remember(PacketArrived(e), number, Data(payload));
    RememberKeeps(r, PacketArrived(e), number, Data(payload));
    DisciplineOnly(r, e, seen);
    if e.input == [] {
      DisciplineOnly(r, e, TakeData(e, number, payload));
    } else {
      var ready := seen.(input := e.input[1..],
                         log := seen.log.(delivered := e.log.delivered + [Delivery(e.input[0], payload)]));
      DisciplineOnly(r, e, ready);
      SendKeepaliveDisciplined(r, ready, Front(seen.history));
    }
  }

  lemma DataReactionDisciplined(r: Role, taken: Endpoint, served: bool, calls: seq<UserCall>, f: Endpoint)
    requires Ok(r, taken) && Disciplined(r, taken)
    requires f == var after := if served then RunCalls(taken, calls) else taken;
                  if after.input != [] || after.queue.entries.Keys != {} then StartReceive(after) else after
    ensures Disciplined(r, f)
  {
    RunCallsDisciplined(r, taken, calls);
    ReceptionDisciplined(r, if served then RunCalls(taken, calls) else taken, f);
  }

  lemma ProcessDataDisciplined(r: Role, e: Endpoint, number: nat, payload: Payload, calls: seq<UserCall>)
    requires Ok(r, e) && Disciplined(r, e) && number <= MAX
    requires IsExpected(e, number) ==> number == Raw(r.peer + |e.log.accepted|)
    ensures Disciplined(r, ProcessData(e, number, payload, calls))
  {
    var f := ProcessData(e, number, payload, calls);
    if IsExpected(e, number) {
      TakeDataDisciplined(r, e, number, payload);
      TakeDataKeeps(r, e, number, payload);
      DataReactionDisciplined(r, TakeData(e, number, payload), e.input != [], calls, f);
    } else {
      DisciplineOnly(r, e, f);
    }
  }

  lemma ProcessHandshakeDisciplined(r: Role, e: Endpoint, number: nat)
    requires Ok(r, e) && Disciplined(r, e) && number == Raw(r.peer + |e.log.accepted|)
    requires e.state.Listening? ==> r.reply
    ensures Disciplined(r, ProcessHandshake(e, number))
  {
    var seen := Remember(PacketArrived(e), number, Handshake);
    RememberKeeps(r, PacketArrived(e), number, Handshake);
    DisciplineOnly(r, e, seen);
    match e.state
    case Listening => SendHandshakeDisciplined(r, seen, Some(number));
    case Connecting =>
      DisciplineOnly(r, e, seen.(state := Handshaking));
      SendKeepaliveDisciplined(r, seen.(state := Handshaking), Some(number));
    case _ => DisciplineOnly(r, e, ProcessHandshake(e, number));
  }

  lemma DataDisciplined(r: Role, e: Endpoint, p: Packet, calls: seq<UserCall>)
    requires Ok(r, e) && Disciplined(r, e) && FreshPacket(r, e, p) && e.log.accepted != [] && p.content.Data?
    ensures Disciplined(r, ProcessData(e, p.number, p.content.payload, calls))
  {
    ExpectedIsNext(r, e, p.number, p.index);
    ProcessDataDisciplined(r, e, p.number, p.content.payload, calls);
  }

  lemma KeepaliveChanges(e: Endpoint, number: nat)
    requires number <= MAX
    ensures var f := ProcessKeepalive(e, number);
            f == e.(history := f.history, rx := f.rx, log := e.log.(accepted := f.log.accepted))
  {
  }

  lemma ProcessedDisciplined(r: Role, e: Endpoint, p: Packet, calls: seq<UserCall>)
    requires Ok(r, e) && Disciplined(r, e) && FreshPacket(r, e, p)
    requires p.content.Handshake? ==> e.log.accepted == [] && p.index == 0 && (e.state.Listening? ==> r.reply)
    requires !p.content.Handshake? ==> e.log.accepted != []
    ensures Disciplined(r, ProcessedPacket(e, p, calls))
  {
    match p.content
    case Handshake => ProcessHandshakeDisciplined(r, e, p.number);
    case Keepalive =>
      KeepaliveChanges(e, p.number);
      DisciplineOnly(r, e, ProcessKeepalive(e, p.number));
    case Data(_) => DataDisciplined(r, e, p, calls);
  }

  /** The arrival of any datagram keeps the discipline of its receiver. */
  lemma DispatchDisciplined(r: Role, e: Endpoint, p: Packet, calls: seq<UserCall>, ackCalls: seq<UserCall>)
    requires Ok(r, e) && Disciplined(r, e) && FreshPacket(r, e, p)
    requires p.content.Handshake? ==> e.log.accepted == [] && p.index == 0 && (e.state.Listening? ==> r.reply)
    requires !p.content.Handshake? ==> e.log.accepted != []
    requires p.ack.Some? ==> Ok(r, ProcessedPacket(e, p, calls))
    ensures Disciplined(r, DispatchPacket(e, p, calls, ackCalls))
  {
    var processed := ProcessedPacket(e, p, calls);
    ProcessedDisciplined(r, e, p, calls);
    if p.ack.Some? && !processed.fault {
      AcknowledgementDisciplined(r, processed, p.ack.value, ackCalls);
    }
  }
}
