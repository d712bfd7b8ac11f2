/**
 Closing one endpoint: every pending packet is aborted, and nothing else changes that its peer could see.
 */
module Abortings {
  import opened Wrappers
  import Timers
  import opened TransmitQueues
  import opened Endpoints
  import opened EndpointFacts
  import opened Disciplines

  function CallIndices(calls: seq<HandlerCall<Job>>): set<nat> {
    set k | 0 <= k < |calls| :: calls[k].entry.job.index
  }

  /** The listener's reply: aborting it closes the state of its connection. */
  predicate IsReply(job: Job) {
    job.content.Handshake? && job.ack.Some?
  }

  lemma AbortedHandler(e: Endpoint, call: HandlerCall<Job>)
    requires call.outcome.OperationAborted?
    ensures var f := RunHandler(e, call);
            && f == e.(state := f.state, log := e.log.(handled := e.log.handled + [call]))
            && f.state == if IsReply(call.entry.job) then Closed else e.state
  {
  }

  /** Handlers of aborted entries only take note, or close the listening side. */
  lemma {:induction false} AbortedHandlers(e: Endpoint, calls: seq<HandlerCall<Job>>)
    requires forall i :: 0 <= i < |calls| ==> calls[i].outcome.OperationAborted?
    ensures var f := RunHandlers(e, calls);
            && f == e.(state := f.state, log := e.log.(handled := e.log.handled + calls))
            && (f.state == e.state || f.state.Closed?)
            && ((forall i :: 0 <= i < |calls| ==> !IsReply(calls[i].entry.job)) ==> f.state == e.state)
  {
    if calls == [] {
      assert e.log.handled + calls == e.log.handled;
    } else {
      var last := |calls| - 1;
      AbortedHandlers(e, calls[..last]);
      AbortedHandler(RunHandlers(e, calls[..last]), calls[last]);
      assert e.log.handled + calls == (e.log.handled + calls[..last]) + [calls[last]];
    }
  }

  /** Aborting the entries in order calls each one's handler once. */
  lemma {:induction false} AllInOrder(entries: map<nat, Entry<Job>>)
    requires DistinctIndices(entries)
    ensures CallIndices(Aborted(InOrder(entries))) == PendingIndices(entries)
    ensures |Aborted(InOrder(entries))| == |PendingIndices(entries)|
    decreases entries.Keys
  {
    if entries.Keys != {} {
      var first := First(entries);
      var rest := entries - {first};
      AllInOrder(rest);
      AbortedFirst(entries);
      FirstIndex(HandlerCall(entries[first], OperationAborted, entries[first].size), Aborted(InOrder(rest)));
      PendingWithout(entries, first);
    }
  }

  lemma FirstIndex(call: HandlerCall<Job>, calls: seq<HandlerCall<Job>>)
    ensures CallIndices([call] + calls) == {call.entry.job.index} + CallIndices(calls)
  {
    var all := [call] + calls;
    assert all[0] == call;
    forall k | 0 <= k < |calls|
      ensures calls[k].entry.job.index in CallIndices(all)
    {
      assert all[k + 1] == calls[k];
    }
  }

  lemma {:induction false} InOrderAre(entries: map<nat, Entry<Job>>, i: nat)
    requires i < |InOrder(entries)|
    ensures exists k :: k in entries && entries[k] == InOrder(entries)[i]
    decreases entries.Keys
  {
    var first := First(entries);
    if i > 0 {
      InOrderAre(entries - {first}, i - 1);
      var k :| k in entries - {first} && (entries - {first})[k] == InOrder(entries - {first})[i - 1];
      assert entries[k] == InOrder(entries)[i];
    } else {
      assert first in entries;
    }
  }

  /** The endpoint was closed, by its user or by its keepalive timer. */
  ghost predicate Ended(e: Endpoint, f: Endpoint) {
    && f == e.(open := false, state := f.state, queue := f.queue, input := [], rx := f.rx, log := f.log)
    && f.log == e.log.(handled := e.log.handled + Aborted(InOrder(e.queue.entries)))
    && f.queue.entries == map[] && !f.queue.alive && !f.rx.receiving && f.fault == e.fault
    && (f.state == e.state || f.state.Closed?)
    && ((forall k :: k in e.queue.entries ==> !IsReply(e.queue.entries[k].job)) ==> f.state == e.state)
  }

  lemma AbortedAreNoReplies(entries: map<nat, Entry<Job>>)
    requires forall k :: k in entries ==> !IsReply(entries[k].job)
    ensures forall i :: 0 <= i < |InOrder(entries)| ==> !IsReply(Aborted(InOrder(entries))[i].entry.job)
  {
    forall i | 0 <= i < |InOrder(entries)|
      ensures !IsReply(InOrder(entries)[i].job)
    {
      InOrderAre(entries, i);
    }
  }

  lemma CloseEnds(e: Endpoint)
    requires e.open
    ensures Ended(e, Close(e))
  {
    var fx := ShutDown(e.queue);
    var timer := Timers.After(e.rx.keepalive, Timers.Call.Stop);
    AbortedHandlers(e.(rx := e.rx.(keepalive := timer), queue := fx.queue, input := []), fx.calls);
    if forall k :: k in e.queue.entries ==> !IsReply(e.queue.entries[k].job) {
      AbortedAreNoReplies(e.queue.entries);
    }
  }

  /** A firing keepalive timer ends the endpoint in the same way. */
  lemma KeepaliveEnds(e: Endpoint)
    requires e.open && e.rx.keepalive.waits > 0 && Timers.Fires(e.rx.keepalive)
    ensures Ended(e, KeepaliveWait(e))
  {
    CloseEnds(e.(rx := e.rx.(keepalive := Timers.Ticked(e.rx.keepalive))));
  }

  // What an ended endpoint keeps.

  lemma EndedKeeps(r: Role, e: Endpoint, f: Endpoint)
    requires PacketsOk(r, e) && Ended(e, f)
    ensures PacketsOk(r, f)
  {
  }

  lemma {:induction false} IndicesOf(handled: seq<HandlerCall<Job>>, calls: seq<HandlerCall<Job>>, outcome: Outcome)
    requires forall i :: 0 <= i < |calls| ==> calls[i].outcome.OperationAborted?
    ensures IndicesWith(handled + calls, outcome)
         == IndicesWith(handled, outcome) + if outcome.OperationAborted? then CallIndices(calls) else {}
  {
    if calls == [] {
      assert handled + calls == handled;
    } else {
      var last := |calls| - 1;
      IndicesOf(handled, calls[..last], outcome);
      IndicesWithAppend(handled + calls[..last], calls[last], outcome);
      assert handled + calls == (handled + calls[..last]) + [calls[last]];
      CallIndicesAppend(calls[..last], calls[last]);
      assert calls[..last] + [calls[last]] == calls;
    }
  }

  lemma CallIndicesAppend(calls: seq<HandlerCall<Job>>, call: HandlerCall<Job>)
    ensures CallIndices(calls + [call]) == CallIndices(calls) + {call.entry.job.index}
  {
    var all := calls + [call];
    assert all[|calls|] == call;
    forall k | 0 <= k < |calls|
      ensures calls[k].entry.job.index in CallIndices(all)
    {
      assert all[k] == calls[k];
    }
  }

  lemma AckedAre(handled: seq<HandlerCall<Job>>)
    ensures AckedIndices(handled) == IndicesWith(handled, Success)
  {
  }

  lemma AbortedIndicesOf(handled: seq<HandlerCall<Job>>, entries: map<nat, Entry<Job>>, outcome: Outcome)
    requires DistinctIndices(entries)
    ensures IndicesWith(handled + Aborted(InOrder(entries)), outcome)
         == IndicesWith(handled, outcome) + if outcome.OperationAborted? then PendingIndices(entries) else {}
  {
    AllInOrder(entries);
    IndicesOf(handled, Aborted(InOrder(entries)), outcome);
  }

  lemma AckedIndicesOf(handled: seq<HandlerCall<Job>>, entries: map<nat, Entry<Job>>)
    requires DistinctIndices(entries)
    ensures AckedIndices(handled + Aborted(InOrder(entries))) == AckedIndices(handled)
  {
    AbortedIndicesOf(handled, entries, Success);
    AckedAre(handled);
    AckedAre(handled + Aborted(InOrder(entries)));
  }

  /** Closing completes, refuses, numbers, sends and accepts nothing; it aborts what is pending. */
  lemma EndedIndices(e: Endpoint, f: Endpoint)
    requires Ended(e, f) && DistinctIndices(e.queue.entries)
    ensures AckedIndices(f.log.handled) == AckedIndices(e.log.handled)
    ensures RefusedIndices(f.log.handled) == RefusedIndices(e.log.handled)
    ensures AbortedIndices(f.log.handled) == AbortedIndices(e.log.handled) + PendingIndices(e.queue.entries)
    ensures PendingIndices(f.queue.entries) == {}
  {
    AckedIndicesOf(e.log.handled, e.queue.entries);
    AbortedIndicesOf(e.log.handled, e.queue.entries, AlreadyStarted);
    AbortedIndicesOf(e.log.handled, e.queue.entries, OperationAborted);
  }

  lemma SentUpToPending(sent: seq<Packet>, entries: map<nat, Entry<Job>>)
    requires SentUpToFirst(sent, entries)
    ensures SentUpTo(sent, PendingIndices(entries))
  {
  }

  lemma EndedDisciplined(r: Role, e: Endpoint, f: Endpoint)
    requires Ok(r, e) && Disciplined(r, e) && Ended(e, f)
    ensures Disciplined(r, f)
  {
    PendingAreDistinct(r, e);
    EndedIndices(e, f);
    if e.log.ordered {
      SentUpToPending(e.log.sent, e.queue.entries);
    }
  }

  /** Completions that come after the closing only call handlers. */
  lemma LateCompletionOnlyReports(e: Endpoint, entry: Entry<Job>, error: bool, bytes: nat)
    requires !e.queue.alive
    ensures var f := StepCompleted(e, entry, error, bytes);
            && f == e.(state := f.state, remote := f.remote, fault := f.fault, log := f.log)
            && f.log == e.log.(handled := f.log.handled)
            && f.log.handled == e.log.handled + [HandlerCall(entry, if error then StepFailed else Success, bytes)]
  {
    var fx := StepDone(e.queue, entry, error, bytes);
    OneHandler(e.(queue := fx.queue), fx.calls);
    HandlerChanges(e, fx.calls[0]);
  }
}
