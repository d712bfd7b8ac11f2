/**
 The stop-and-wait retransmission queue: entries ordered by their raw index, of which only the
 first is transmitted, again on every timer tick, until it is acknowledged.

 An entry's step is a request to transmit. Boost.Asio never completes a request from inside the call
 that makes it, so the completions arrive later, as events of their own. A handler run by an
 acknowledgement is the last thing that happens in it; what the handler does to the queue is
 therefore a later event too.
 */
module TransmitQueues {
  import opened Timers
  import opened Wrappers

  datatype Entry<T> = Entry(size: nat, job: T)

  datatype Outcome = Success | OperationAborted | AlreadyStarted | StepFailed

  datatype HandlerCall<T> = HandlerCall(entry: Entry<T>, outcome: Outcome, size: nat)

  datatype Queue<T> = Queue(entries: map<nat, Entry<T>>, timer: Timer, alive: bool)

  /** The new queue, the index of the entry whose step was started, and the handlers called or posted. */
  datatype Effect<T> = Effect(queue: Queue<T>, started: Option<nat>, calls: seq<HandlerCall<T>>)

  lemma {:induction false} Least(s: set<nat>) returns (k: nat)
    requires s != {}
    ensures k in s && forall x :: x in s ==> k <= x
  {
    k :| k in s;
    if s != {k} {
      var least := Least(s - {k});
      assert forall x :: x in s ==> x == k || x in s - {k};
      k := if least < k then least else k;
    }
  }

  /** The first key in the iteration order of the map. */
  function First<T>(m: map<nat, Entry<T>>): (k: nat)
    requires m.Keys != {}
    ensures k in m && forall x :: x in m ==> k <= x
  {
    assert exists k :: k in m.Keys && forall x :: x in m.Keys ==> k <= x by {
      var k := Least(m.Keys);
    }
    var k :| k in m.Keys && forall x :: x in m.Keys ==> k <= x;
    k
  }

  lemma FirstIs<T>(m: map<nat, Entry<T>>, k: nat)
    requires k in m && forall x :: x in m ==> k <= x
    ensures m.Keys != {} && First(m) == k
  {
    assert k in m.Keys;
  }

  function InOrder<T>(m: map<nat, Entry<T>>): seq<Entry<T>> {
    if m.Keys == {} then [] else [m[First(m)]] + InOrder(m - {First(m)})
  }

  /** The indices below k. */
  function Below<T>(m: map<nat, Entry<T>>, k: nat): set<nat> {
    set x | x in m && x < k
  }

  lemma BelowWithoutFirst<T>(m: map<nat, Entry<T>>, k: nat)
    requires k in m && k != First(m)
    ensures |Below(m, k)| == |Below(m - {First(m)}, k)| + 1
  {
    var first := First(m);
    assert first < k;
    assert Below(m, k) == {first} + Below(m - {first}, k);
    assert first !in Below(m - {first}, k);
  }

  /** Each entry has as many others before it as there are smaller indices. */
  lemma {:induction false} InOrderByIndex<T>(m: map<nat, Entry<T>>, k: nat)
    requires k in m
    ensures |Below(m, k)| < |InOrder(m)| && InOrder(m)[|Below(m, k)|] == m[k]
    decreases m.Keys
  {
    var first := First(m);
    if k == first {
      assert Below(m, k) == {};
    } else {
      var i := |Below(m - {first}, k)|;
      InOrderByIndex(m - {first}, k);
      BelowWithoutFirst(m, k);
      assert InOrder(m)[i + 1] == InOrder(m - {first})[i];
    }
  }

  function Aborted<T>(entries: seq<Entry<T>>): (r: seq<HandlerCall<T>>)
    ensures |r| == |entries|
    ensures forall i :: 0 <= i < |r| ==> r[i] == HandlerCall(entries[i], OperationAborted, entries[i].size)
  {
    seq(|entries|, i requires 0 <= i < |entries| => HandlerCall(entries[i], OperationAborted, entries[i].size))
  }

  lemma AbortedFirst<T>(m: map<nat, Entry<T>>)
    requires m.Keys != {}
    ensures var entry := m[First(m)];
            Aborted(InOrder(m)) == [HandlerCall(entry, OperationAborted, entry.size)] + Aborted(InOrder(m - {First(m)}))
  {
  }

  /** The handlers called so far, followed by those still to be called, are all of them. */
  ghost predicate AbortsSoFar<T>(calls: seq<HandlerCall<T>>, left: map<nat, Entry<T>>, all: seq<HandlerCall<T>>) {
    calls + Aborted(InOrder(left)) == all
  }

  lemma AbortsOneMore<T>(calls: seq<HandlerCall<T>>, left: map<nat, Entry<T>>, all: seq<HandlerCall<T>>)
    requires AbortsSoFar(calls, left, all) && left.Keys != {}
    ensures var entry := left[First(left)];
            AbortsSoFar(calls + [HandlerCall(entry, OperationAborted, entry.size)], left - {First(left)}, all)
  {
    AbortedFirst(left);
    var entry := left[First(left)];
    Regrouped(calls, HandlerCall(entry, OperationAborted, entry.size), Aborted(InOrder(left - {First(left)})));
  }

  lemma Regrouped<A>(front: seq<A>, middle: A, back: seq<A>)
    ensures front + ([middle] + back) == (front + [middle]) + back
  {
  }

  method AbortAll<T>(entries: map<nat, Entry<T>>) returns (calls: seq<HandlerCall<T>>)
    ensures calls == Aborted(InOrder(entries))
  {
    var moved := entries;
    ghost var all := Aborted(InOrder(entries));
    calls := [];
    while moved.Keys != {}
      invariant AbortsSoFar(calls, moved, all)
      decreases moved.Keys
    {
      AbortsOneMore(calls, moved, all);
      var entry := moved[First(moved)];
      calls := calls + [HandlerCall(entry, OperationAborted, entry.size)];
      moved := moved - {First(moved)};
    }
  }

  function Pushed<T>(q: Queue<T>, index: nat, entry: Entry<T>): (r: Effect<T>)
    ensures r.started.Some? ==> r.started.value in r.queue.entries
  {
    if index in q.entries then Effect(q, None, [HandlerCall(entry, AlreadyStarted, 0)])
    else Effect(q.(entries := q.entries[index := entry]), if q.entries.Keys == {} then Some(index) else None, [])
  }

  function Acked<T>(q: Queue<T>, index: nat): (r: Effect<T>)
    ensures r.started.Some? ==> r.started.value in r.queue.entries
  {
    if index !in q.entries then Effect(q, None, [])
    else
      var entry, rest := q.entries[index], q.entries - {index};
      var call := HandlerCall(entry, Success, entry.size);
      if index != First(q.entries) then Effect(q.(entries := rest), None, [call])
      else
        Effect(q.(entries := rest, timer := After(q.timer, Call.Stop)),
               if rest.Keys == {} then None else Some(First(rest)),
               [call])
  }

  function ShutDown<T>(q: Queue<T>): (r: Effect<T>)
    ensures r.started.None?
  {
    Effect(Queue(map[], After(q.timer, Call.Stop), false), None, Aborted(InOrder(q.entries)))
  }

  /** A wait callback of the queue's timer. */
  function WaitArrived<T>(q: Queue<T>): (r: Effect<T>)
    requires q.timer.waits > 0
    ensures r.started.Some? ==> r.started.value in r.queue.entries
  {
    if !Fires(q.timer) then Effect(q.(timer := Ticked(q.timer)), None, [])
    else
      Effect(q.(timer := Returned(Ticked(q.timer))), if q.entries.Keys == {} then None else Some(First(q.entries)), [])
  }

  /** A started step of the entry completed; a success is reported too once the queue was shut down. */
  function StepDone<T>(q: Queue<T>, entry: Entry<T>, error: bool, bytes: nat): (r: Effect<T>)
    ensures r.started.None?
  {
    if !q.alive || error then
      Effect(q, None, [HandlerCall(entry, if error then StepFailed else Success, bytes)])
    else Effect(q.(timer := After(q.timer, Call.Start)), None, [])
  }

  class TransmitQueue<T> {
    var entries: map<nat, Entry<T>>
    const timer: TimerObject
    var alive: bool

    ghost function View(): Queue<T>
      reads this, timer
    {
      Queue(entries, timer.View(), alive)
    }

    ghost predicate Valid()
      reads this, timer
    {
      timer.Valid()
    }

    constructor ()
      ensures Valid() && fresh(timer) && View() == Queue(map[], FRESH, true)
    {
      entries, alive := map[], true;
      timer := new TimerObject();
    }

    method Empty() returns (r: bool)
      ensures r <==> entries.Keys == {}
    {
      r := entries.Keys == {};
    }

    method Push(index: nat, entry: Entry<T>) returns (started: Option<nat>, calls: seq<HandlerCall<T>>)
      requires Valid()
      modifies this
      ensures Valid() && Effect(View(), started, calls) == Pushed(old(View()), index, entry)
    {
      var wasEmpty := entries.Keys == {};
      if index in entries {
        return None, [HandlerCall(entry, AlreadyStarted, 0)];
      }
      entries := entries[index := entry];
      started, calls := None, [];
      if wasEmpty {
        started := Some(index);
      }
    }

    method ApplyAck(index: nat) returns (started: Option<nat>, calls: seq<HandlerCall<T>>)
      requires Valid()
      modifies this, timer
      ensures Valid() && Effect(View(), started, calls) == Acked(old(View()), index)
    {
      started, calls := None, [];
      if index !in entries {
        return;
      }
      var isActive := index == First(entries);
      var entry := entries[index];
      entries := entries - {index};
      if isActive {
        timer.Stop();
        if entries.Keys != {} {
          started := Some(First(entries));
        }
      }
      calls := [HandlerCall(entry, Success, entry.size)];
    }

    method Shutdown() returns (calls: seq<HandlerCall<T>>)
      requires Valid()
      modifies this, timer
      ensures Valid() && Effect(View(), None, calls) == ShutDown(old(View()))
    {
      alive := false;
      timer.Stop();
      var moved := entries;
      entries := map[];
      calls := AbortAll(moved);
    }

    method OnTimerTick() returns (started: Option<nat>)
      ensures started == if entries.Keys == {} then None else Some(First(entries))
    {
      if entries.Keys == {} {
        return None;
      }
      started := Some(First(entries));
    }

    method OnWait() returns (started: Option<nat>)
      requires Valid() && timer.waits > 0
      modifies timer
      ensures Valid() && Effect(View(), started, []) == WaitArrived(old(View()))
    {
      started := None;
      var runs := timer.BeginTick();
      if runs {
        started := OnTimerTick();
        timer.EndTick();
      }
    }

    method OnStepDone(entry: Entry<T>, error: bool, bytes: nat) returns (calls: seq<HandlerCall<T>>)
      requires Valid()
      modifies timer
      ensures Valid() && Effect(View(), None, calls) == StepDone(old(View()), entry, error, bytes)
    {
      if !alive || error {
        return [HandlerCall(entry, if error then StepFailed else Success, bytes)];
      }
      calls := [];
      timer.Start();
    }
  }
}
