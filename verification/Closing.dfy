/**
 How the sends of a connection end: each queued packet is pending, acknowledged or refused, and just one
 of these, and closing a socket aborts exactly the pending ones.
 */
module Closings {
  import opened Wrappers
  import opened TransmitQueues
  import opened Endpoints
  import opened EndpointFacts
  import opened Disciplines
  import opened Abortings
  import opened Connections
  import opened Acknowledgements
  import opened ConnectionRuns

  /**
   In every reachable state, however often the numbers wrapped and whoever closed, each handshake and data
   packet is acknowledged, pending, refused or aborted, and just one of these. None is aborted before its
   side closes and none is pending after it. None is refused while no packet is numbered below a pending
   one, and so none before the first wrap.
   */
  lemma SendsAreSettled(connectorBase: nat, listenerBase: nat, run: seq<Event>, s: System, side: Side)
    requires Reaches(connectorBase, listenerBase, run, s)
    ensures var e := End(s, side);
            && Partition(QueuedUpTo(e.log.issued, |e.log.issued|), AckedIndices(e.log.handled),
                         PendingIndices(e.queue.entries), RefusedIndices(e.log.handled), AbortedIndices(e.log.handled))
            && (side !in s.closed ==> AbortedIndices(e.log.handled) == {})
            && (side in s.closed ==> PendingIndices(e.queue.entries) == {})
            && (e.log.ordered ==> RefusedIndices(e.log.handled) == {})
            && (Unwrapped(RoleOf(s, side), e.log.issued) ==> e.log.ordered)
  {
    ReachedSafe(connectorBase, listenerBase, run, s);
    ClosedIsEmpty(Start(connectorBase, listenerBase), run, side);
  }

  lemma EndingEmpties(s: System, event: Event)
    requires Enabled(s, event) && Actor(event) in Step(s, event).closed
    ensures End(Step(s, event), Actor(event)).queue.entries == map[]
  {
    if event.CloseSocket? {
      CloseEnds(End(s, event.side));
    } else {
      KeepaliveEnds(End(s, event.side));
    }
  }

  lemma {:induction false} ClosedIsEmpty(s: System, run: seq<Event>, side: Side)
    requires IsRun(s, run) && (side in s.closed ==> End(s, side).queue.entries == map[])
    ensures side in Reached(s, run).closed ==> End(Reached(s, run), side).queue.entries == map[]
    decreases |run|
  {
    if run != [] {
      if Actor(run[0]) != side {
        OthersStay(s, run[0], side);
      } else if side in Step(s, run[0]).closed {
        EndingEmpties(s, run[0]);
      }
      ClosedIsEmpty(Step(s, run[0]), run[1..], side);
    }
  }

  /** A number is taken in the queue if and only if a pending packet is a multiple of a whole circle away. */
  lemma TakenEveryCircle(r: Role, e: Endpoint)
    requires Ok(r, e)
    ensures e.next in e.queue.entries <==>
            exists i :: i in PendingIndices(e.queue.entries) && (|e.log.issued| - i) % (MAX + 1) == 0
  {
    var n := |e.log.issued|;
    forall k | k in e.queue.entries
      ensures k == e.next <==> (n - e.queue.entries[k].job.index) % (MAX + 1) == 0
      ensures e.queue.entries[k].job.index in PendingIndices(e.queue.entries)
    {
      assert JobOk(r, e.log.issued, |e.log.accepted|, e.queue.entries[k].job);
      SameRaw(r.base, n, e.queue.entries[k].job.index);
    }
  }

  lemma NewIsNotRefusedYet(e: Endpoint)
    requires Settled(e.log.issued, e.queue.entries, e.log.handled)
    ensures |e.log.issued| !in RefusedIndices(e.log.handled)
  {
    assert |e.log.issued| !in QueuedUpTo(e.log.issued, |e.log.issued|);
  }

  /** A send is refused if and only if a pending packet is a multiple of a whole circle away from it. */
  lemma RefusedEveryCircle(r: Role, e: Endpoint, payload: Payload)
    requires Ok(r, e) && Settled(e.log.issued, e.queue.entries, e.log.handled)
    ensures |e.log.issued| in RefusedIndices(SendData(e, payload).log.handled) <==>
            exists i :: i in PendingIndices(e.queue.entries) && (|e.log.issued| - i) % (MAX + 1) == 0
  {
    EnqueueEffect(StartReceive(Issue(e, Data(payload))),
                  Job(Data(payload), e.next, None, |e.log.issued|, 0), |payload|);
    NewIsNotRefusedYet(e);
    TakenEveryCircle(r, e);
  }

  /** What closing does to the log of an endpoint: the pending packets are aborted, each one once. */
  ghost predicate AbortsPending(e: Endpoint, f: Endpoint) {
    && f.log == e.log.(handled := f.log.handled) && e.log.handled <= f.log.handled
    && var calls := f.log.handled[|e.log.handled|..];
    && (forall k :: 0 <= k < |calls| ==> calls[k].outcome.OperationAborted?)
    && |calls| == |CallIndices(calls)|
    && CallIndices(calls) == PendingIndices(e.queue.entries)
  }

  lemma EndedAbortsPending(e: Endpoint, f: Endpoint)
    requires Ended(e, f) && DistinctIndices(e.queue.entries)
    ensures AbortsPending(e, f)
  {
    AllInOrder(e.queue.entries);
    assert f.log.handled[|e.log.handled|..] == Aborted(InOrder(e.queue.entries));
  }

  lemma ReachedAreDistinct(connectorBase: nat, listenerBase: nat, run: seq<Event>, s: System, side: Side)
    requires Reaches(connectorBase, listenerBase, run, s)
    ensures DistinctIndices(End(s, side).queue.entries)
  {
    ReachedSafe(connectorBase, listenerBase, run, s);
    PendingAreDistinct(RoleOf(s, side), End(s, side));
  }

  lemma PendingIsTheRest(all: set<nat>, acked: set<nat>, pending: set<nat>, refused: set<nat>)
    requires Partition(all, acked, pending, refused, {})
    ensures pending == all - acked - refused
  {
  }

  /**
   However a side is closed, by its user or by its keepalive timer, in any reachable state: it numbers,
   sends and accepts nothing more, and the handlers it calls are those of the pending packets, each one
   once and with an abort. These are the packets that were neither acknowledged nor refused.
   */
  lemma CloseAbortsTheRest(connectorBase: nat, listenerBase: nat, run: seq<Event>, s: System, side: Side, f: Endpoint)
    requires Reaches(connectorBase, listenerBase, run, s) && side !in s.closed && Ended(End(s, side), f)
    ensures var e := End(s, side);
            && AbortsPending(e, f)
            && PendingIndices(e.queue.entries)
               == QueuedUpTo(e.log.issued, |e.log.issued|) - AckedIndices(e.log.handled) - RefusedIndices(e.log.handled)
            && f.queue.entries == map[] && f.input == [] && !f.rx.receiving && f.fault == e.fault
  {
    var e := End(s, side);
    ReachedAreDistinct(connectorBase, listenerBase, run, s, side);
    EndedAbortsPending(e, f);
    SendsAreSettled(connectorBase, listenerBase, run, s, side);
    PendingIsTheRest(QueuedUpTo(e.log.issued, |e.log.issued|), AckedIndices(e.log.handled),
                     PendingIndices(e.queue.entries), RefusedIndices(e.log.handled));
  }

  /** The two ways to close a side are the ones that the previous result is about. */
  lemma BothWaysEnd(s: System, event: Event)
    requires Enabled(s, event) && Step(s, event).closed != s.closed
    ensures Ended(End(s, Actor(event)), End(Step(s, event), Actor(event)))
    ensures Step(s, event).closed == s.closed + {Actor(event)}
  {
    if event.CloseSocket? {
      CloseEnds(End(s, event.side));
    } else {
      KeepaliveEnds(End(s, event.side));
    }
  }
}
