/**
 Whole runs of a transmit queue: no lost wakeup, stop-and-wait, and conservation of handlers.
 */
module TransmitQueueRuns {
  import opened Wrappers
  import opened Timers
  import opened TimerRuns
  import opened TransmitQueues

  // Runs of the queue. The steps in flight belong to the environment, which completes each once.

  datatype Event<T> =
    | Push(index: nat, entry: Entry<T>)
    | Ack(index: nat)
    | Shutdown
    | Wait
    | Done(entry: Entry<T>, error: bool, bytes: nat)

  /** The queue, the steps in flight, and what happened so far. */
  datatype World<T(==)> = World(
    queue: Queue<T>,
    inFlight: multiset<Entry<T>>,
    indices: seq<nat>,              // of all pushes, in order
    pushed: seq<Entry<T>>,
    steps: seq<nat>,                // the index of every step started
    settled: seq<HandlerCall<T>>,   // handlers called by push, acknowledgement and shutdown
    reported: seq<HandlerCall<T>>)  // handlers called by a failed or late step

  function Initial<T(==)>(): World<T> {
    World(Queue(map[], FRESH, true), multiset{}, [], [], [], [], [])
  }

  predicate Possible<T(==)>(w: World<T>, e: Event<T>) {
    match e
    case Wait => w.queue.timer.waits > 0
    case Done(entry, _, _) => entry in w.inFlight
    case _ => true
  }

  function Outcomes<T(==)>(w: World<T>, fx: Effect<T>): World<T>
    requires fx.started.Some? ==> fx.started.value in fx.queue.entries
  {
    var next := w.(queue := fx.queue, settled := w.settled + fx.calls);
    if fx.started.None? then next
    else next.(inFlight := w.inFlight + multiset{fx.queue.entries[fx.started.value]},
               steps := w.steps + [fx.started.value])
  }

  function Next<T(==)>(w: World<T>, e: Event<T>): World<T>
    requires Possible(w, e)
  {
    match e
    case Push(index, entry) =>
      Outcomes(w.(indices := w.indices + [index], pushed := w.pushed + [entry]), Pushed(w.queue, index, entry))
    case Ack(index) => Outcomes(w, Acked(w.queue, index))
    case Shutdown => Outcomes(w, ShutDown(w.queue))
    case Wait => Outcomes(w, WaitArrived(w.queue))
    case Done(entry, error, bytes) =>
      var fx := StepDone(w.queue, entry, error, bytes);
      w.(queue := fx.queue, inFlight := w.inFlight - multiset{entry}, reported := w.reported + fx.calls)
  }

  predicate IsTrace<T(==)>(w: World<T>, run: seq<Event<T>>)
    decreases |run|
  {
    run == [] || (Possible(w, run[0]) && IsTrace(Next(w, run[0]), run[1..]))
  }

  function Final<T(==)>(w: World<T>, run: seq<Event<T>>): World<T>
    requires IsTrace(w, run)
    decreases |run|
  {
    if run == [] then w else Final(Next(w, run[0]), run[1..])
  }

  // No lost wakeup.

  ghost predicate Awake<T>(w: World<T>) {
    && WaitInvariant(w.queue.timer) && !w.queue.timer.state.Executing?
    && (w.queue.alive && w.reported == [] && w.queue.entries.Keys != {} ==>
          |w.inFlight| > 0 || Abstract(w.queue.timer) != Idle)
  }

  lemma AwakeAfter<T>(w: World<T>, fx: Effect<T>)
    requires fx.started.Some? ==> fx.started.value in fx.queue.entries
    requires WaitInvariant(fx.queue.timer) && !fx.queue.timer.state.Executing?
    requires fx.queue.alive && w.reported == [] && fx.queue.entries.Keys != {} ==>
               fx.started.Some? || |w.inFlight| > 0 || Abstract(fx.queue.timer) != Idle
    ensures Awake(Outcomes(w, fx))
  {
    if fx.started.Some? {
      assert fx.queue.entries[fx.started.value] in Outcomes(w, fx).inFlight;
    }
  }

  lemma AwakeAck<T>(w: World<T>, index: nat)
    requires Awake(w)
    ensures Awake(Next(w, Ack(index)))
  {
    assert index in w.queue.entries ==> index in w.queue.entries.Keys;
    AwakeAfter(w, Acked(w.queue, index));
  }

  lemma AwakeDone<T>(w: World<T>, e: Event<T>)
    requires Awake(w) && Possible(w, e) && e.Done?
    ensures Awake(Next(w, e))
  {
  }

  lemma AwakeStep<T>(w: World<T>, e: Event<T>)
    requires Awake(w) && Possible(w, e)
    ensures Awake(Next(w, e))
  {
    match e
    case Push(index, entry) =>
      AwakeAfter(w.(indices := w.indices + [index], pushed := w.pushed + [entry]), Pushed(w.queue, index, entry));
    case Ack(index) => AwakeAck(w, index);
    case Shutdown => AwakeAfter(w, ShutDown(w.queue));
    case Wait => AwakeAfter(w, WaitArrived(w.queue));
    case Done(_, _, _) => AwakeDone(w, e);
  }

  lemma {:induction false} AwakeAlways<T>(w: World<T>, run: seq<Event<T>>)
    requires Awake(w) && IsTrace(w, run)
    ensures Awake(Final(w, run))
    decreases |run|
  {
    if run != [] {
      AwakeStep(w, run[0]);
      AwakeAlways(Next(w, run[0]), run[1..]);
    }
  }

  /**
   As long as no step failed and the queue was not shut down, a non-empty queue has a step
   completion or an armed timer ahead of it, so its first entry will be transmitted again.
   */
  lemma NoLostWakeup<T>(run: seq<Event<T>>)
    requires IsTrace(Initial(), run)
    ensures Awake(Final(Initial(), run))
  {
    AwakeAlways(Initial(), run);
  }

  /** What each of the two wakeups leads to: a completion arms the timer, a firing tick transmits the first. */
  lemma WakeupTransmitsFirst<T>(q: Queue<T>, entry: Entry<T>, bytes: nat)
    requires q.alive && q.entries.Keys != {} && WaitInvariant(q.timer)
    ensures Abstract(StepDone(q, entry, false, bytes).queue.timer) == Armed
    ensures Fires(q.timer) ==> q.timer.waits > 0 && WaitArrived(q).started == Some(First(q.entries))
  {
  }

  // Failed steps.

  ghost predicate TimerSettled<T>(w: World<T>) {
    WaitInvariant(w.queue.timer) && !w.queue.timer.state.Executing?
  }

  /** Something is ahead that will transmit the first entry: the completion of a step, or the timer. */
  predicate Outstanding<T(==)>(w: World<T>) {
    |w.inFlight| > 0 || Abstract(w.queue.timer) != Idle
  }

  predicate Waiting<T(==)>(w: World<T>) {
    w.queue.alive && w.queue.entries.Keys != {}
  }

  /** The only step in flight fails, and the timer is not armed. */
  predicate LosesWakeup<T(==)>(w: World<T>, e: Event<T>) {
    e.Done? && e.error && |w.inFlight| == 1 && Abstract(w.queue.timer) == Idle
  }

  lemma TimersStaySettled(t: Timer)
    requires WaitInvariant(t) && !t.state.Executing?
    ensures forall call :: WaitInvariant(After(t, call)) && !After(t, call).state.Executing?
    ensures t.waits > 0 && !Fires(t) ==> WaitInvariant(Ticked(t)) && !Ticked(t).state.Executing?
    ensures t.waits > 0 && Fires(t) ==> WaitInvariant(Returned(Ticked(t))) && !Returned(Ticked(t)).state.Executing?
  {
  }

  lemma NextTimer<T>(w: World<T>, e: Event<T>)
    requires Possible(w, e)
    ensures var t, u := w.queue.timer, Next(w, e).queue.timer;
            || u == t || (exists call :: u == After(t, call))
            || (t.waits > 0 && !Fires(t) && u == Ticked(t)) || (t.waits > 0 && Fires(t) && u == Returned(Ticked(t)))
  {
  }

  lemma TimerStaysSettled<T>(w: World<T>, e: Event<T>)
    requires TimerSettled(w) && Possible(w, e)
    ensures TimerSettled(Next(w, e))
  {
    TimersStaySettled(w.queue.timer);
    NextTimer(w, e);
  }

  lemma OutcomesOutstanding<T>(w: World<T>, fx: Effect<T>)
    requires fx.started.Some? ==> fx.started.value in fx.queue.entries
    ensures Outstanding(Outcomes(w, fx)) <==>
            fx.started.Some? || |w.inFlight| > 0 || Abstract(fx.queue.timer) != Idle
  {
    if fx.started.Some? {
      assert fx.queue.entries[fx.started.value] in Outcomes(w, fx).inFlight;
    }
  }

  lemma AckOutstanding<T>(w: World<T>, index: nat)
    requires w.queue.entries.Keys != {} && (w.queue.entries - {index}).Keys != {}
    ensures Outstanding(Next(w, Ack(index))) <==>
            Outstanding(w) || (index in w.queue.entries && index == First(w.queue.entries))
  {
    OutcomesOutstanding(w, Acked(w.queue, index));
    if index !in w.queue.entries {
      assert w.queue.entries - {index} == w.queue.entries;
    }
  }

  lemma DoneOutstanding<T>(w: World<T>, e: Event<T>)
    requires e.Done? && Possible(w, e) && w.queue.alive && TimerSettled(w)
    ensures Outstanding(Next(w, e)) <==> !LosesWakeup(w, e)
  {
    assert |w.inFlight - multiset{e.entry}| == |w.inFlight| - 1;
  }

  lemma OtherOutstanding<T>(w: World<T>, e: Event<T>)
    requires Possible(w, e) && (e.Push? || e.Wait?) && Waiting(w) && TimerSettled(w)
    ensures Outstanding(Next(w, e)) <==> Outstanding(w)
  {
    if e.Push? {
      OutcomesOutstanding(w.(indices := w.indices + [e.index], pushed := w.pushed + [e.entry]),
                          Pushed(w.queue, e.index, e.entry));
    } else {
      OutcomesOutstanding(w, WaitArrived(w.queue));
    }
  }

  /** Exactly when a waiting queue loses its wakeup: its only step in flight fails while the timer is not armed. */
  lemma WakeupLostIff<T>(w: World<T>, e: Event<T>)
    requires TimerSettled(w) && Possible(w, e) && Waiting(w) && Waiting(Next(w, e))
    requires Outstanding(w)
    ensures !Outstanding(Next(w, e)) <==> LosesWakeup(w, e)
  {
    match e
    case Push(_, _) => OtherOutstanding(w, e);
    case Wait => OtherOutstanding(w, e);
    case Ack(index) =>
      AckKeepsOthers(w, index);
      AckOutstanding(w, index);
    case Done(_, _, _) => DoneOutstanding(w, e);
    case Shutdown =>
  }

  lemma DoneIsOutstanding<T>(w: World<T>, e: Event<T>)
    requires Possible(w, e)
    ensures e.Done? ==> Outstanding(w)
  {
    if e.Done? {
      assert e.entry in w.inFlight;
    }
  }

  /** And exactly when a stalled queue gets going again: its first entry is acknowledged, and another follows it. */
  lemma StallEndsIff<T>(w: World<T>, e: Event<T>)
    requires TimerSettled(w) && Possible(w, e) && Waiting(w) && Waiting(Next(w, e))
    requires !Outstanding(w)
    ensures Outstanding(Next(w, e)) <==> e == Ack(First(w.queue.entries))
  {
    DoneIsOutstanding(w, e);
    match e
    case Push(_, _) => OtherOutstanding(w, e);
    case Wait => OtherOutstanding(w, e);
    case Ack(index) =>
      AckKeepsOthers(w, index);
      AckOutstanding(w, index);
    case _ =>
  }

  lemma AckKeepsOthers<T>(w: World<T>, index: nat)
    ensures Next(w, Ack(index)).queue.entries == w.queue.entries - {index}
  {
    if index !in w.queue.entries {
      assert w.queue.entries - {index} == w.queue.entries;
    }
  }

  /** No failed step of the run is one that loses the wakeup. */
  predicate KeepsWakeups<T(==)>(w: World<T>, run: seq<Event<T>>)
    requires IsTrace(w, run)
    decreases |run|
  {
    run == [] || (!LosesWakeup(w, run[0]) && KeepsWakeups(Next(w, run[0]), run[1..]))
  }

  lemma EmptyGetsGoing<T>(w: World<T>, e: Event<T>)
    requires TimerSettled(w) && Possible(w, e) && !Waiting(w) && Waiting(Next(w, e))
    ensures Outstanding(Next(w, e))
  {
    match e
    case Push(index, entry) =>
      OutcomesOutstanding(w.(indices := w.indices + [index], pushed := w.pushed + [entry]),
                          Pushed(w.queue, index, entry));
    case Ack(index) => AckKeepsOthers(w, index);
    case _ =>
  }

  lemma {:induction false} OutstandingAlways<T>(w: World<T>, run: seq<Event<T>>)
    requires IsTrace(w, run) && KeepsWakeups(w, run)
    requires TimerSettled(w) && (Waiting(w) ==> Outstanding(w))
    ensures Waiting(Final(w, run)) ==> Outstanding(Final(w, run))
    decreases |run|
  {
    if run != [] {
      var next := Next(w, run[0]);
      TimerStaysSettled(w, run[0]);
      if Waiting(next) {
        if Waiting(w) {
          WakeupLostIff(w, run[0]);
        } else {
          EmptyGetsGoing(w, run[0]);
        }
      }
      OutstandingAlways(next, run[1..]);
    }
  }

  /** Over all runs, failed steps included, no wakeup is lost except by the failures that are named above. */
  lemma OnlyThoseFailuresStall<T>(run: seq<Event<T>>)
    requires IsTrace(Initial(), run) && KeepsWakeups(Initial(), run)
    ensures Waiting(Final(Initial(), run)) ==> Outstanding(Final(Initial(), run))
  {
    OutstandingAlways(Initial(), run);
  }

  /** Such a failure occurs: nothing is outstanding, yet the entry stays. */
  lemma FailedStepStalls<T>(entry: Entry<T>)
    ensures var run := [Push(7, entry), Done(entry, true, 0)];
            && IsTrace(Initial(), run)
            && Final(Initial(), run).queue.entries == map[7 := entry]
            && |Final(Initial(), run).inFlight| == 0
            && Final(Initial(), run).queue.timer == FRESH
  {
    var run := [Push(7, entry), Done(entry, true, 0)];
    var pushed := Next(Initial(), run[0]);
    assert pushed.inFlight == multiset{entry};
    var failed := Next(pushed, run[1]);
    assert run[1..] == [run[1]] && run[1..][1..] == [];
    assert Final(failed, []) == failed;
    assert Final(pushed, run[1..]) == failed;
  }

  // Stop and wait.

  predicate Ascending(s: seq<nat>) {
    forall i, j :: 0 <= i < j < |s| ==> s[i] < s[j]
  }

  predicate NeverDescends(s: seq<nat>) {
    forall i, j :: 0 <= i < j < |s| ==> s[i] <= s[j]
  }

  ghost predicate StopAndWait<T>(w: World<T>) {
    && (forall k :: k in w.queue.entries ==> k in w.indices)
    && (forall k :: k in w.steps ==> k in w.indices)
    && (Ascending(w.indices) ==> NeverDescends(w.steps) && LastStepIsFirst(w))
  }

  /** The latest step was one of the first entry. */
  ghost predicate LastStepIsFirst<T>(w: World<T>) {
    w.queue.entries.Keys != {} ==> w.steps != [] && w.steps[|w.steps| - 1] == First(w.queue.entries)
  }

  lemma FirstOnly<T>(w: World<T>)
    requires NeverDescends(w.steps) && LastStepIsFirst(w)
    ensures forall k :: k in w.queue.entries ==> (k in w.steps <==> k == First(w.queue.entries))
  {
    forall k | k in w.queue.entries
      ensures k in w.steps <==> k == First(w.queue.entries)
    {
      assert k in w.queue.entries.Keys;
    }
  }

  lemma FirstOfLarger<T>(m: map<nat, Entry<T>>, index: nat, entry: Entry<T>)
    requires m.Keys != {} && forall k :: k in m ==> k < index
    ensures First(m[index := entry]) == First(m)
  {
    FirstIs(m[index := entry], First(m));
  }

  lemma FirstAfterRemoval<T>(m: map<nat, Entry<T>>, index: nat)
    requires index in m && (m - {index}).Keys != {}
    ensures First(m) <= First(m - {index})
    ensures index != First(m) ==> First(m - {index}) == First(m)
  {
    assert First(m - {index}) in m.Keys;
    if index != First(m) {
      FirstIs(m - {index}, First(m));
    }
  }

  lemma AscendingInit(s: seq<nat>, x: nat)
    requires Ascending(s + [x])
    ensures Ascending(s) && forall y :: y in s ==> y < x
  {
    var t := s + [x];
    forall i, j | 0 <= i < j < |s| ensures s[i] < s[j] {
      assert t[i] < t[j];
    }
    forall y | y in s ensures y < x {
      var i :| 0 <= i < |s| && s[i] == y;
      assert t[i] < t[|s|];
    }
  }

  lemma NeverDescendsAppend(s: seq<nat>, x: nat)
    requires NeverDescends(s) && forall y :: y in s ==> y <= x
    ensures NeverDescends(s + [x])
  {
    var t := s + [x];
    forall i, j | 0 <= i < j < |t| ensures t[i] <= t[j] {
      assert j == |s| ==> t[i] in s;
    }
  }

  /** A push behind all earlier ones. */
  lemma PushBehind<T>(w: World<T>, index: nat, entry: Entry<T>)
    requires NeverDescends(w.steps) && LastStepIsFirst(w)
    requires forall k :: k in w.queue.entries || k in w.steps ==> k < index
    ensures NeverDescends(Next(w, Push(index, entry)).steps) && LastStepIsFirst(Next(w, Push(index, entry)))
  {
    var m := w.queue.entries;
    if m.Keys == {} {
      NeverDescendsAppend(w.steps, index);
      FirstIs(m[index := entry], index);
    } else {
      FirstOfLarger(m, index, entry);
    }
  }

  lemma StopAndWaitPush<T>(w: World<T>, index: nat, entry: Entry<T>)
    requires StopAndWait(w)
    ensures StopAndWait(Next(w, Push(index, entry)))
  {
    if Ascending(w.indices + [index]) {
      AscendingInit(w.indices, index);
      PushBehind(w, index, entry);
    }
  }

  lemma StopAndWaitAck<T>(w: World<T>, index: nat)
    requires StopAndWait(w)
    ensures StopAndWait(Next(w, Ack(index)))
  {
    var m := w.queue.entries;
    if index in m {
      assert index in m.Keys;
      if (m - {index}).Keys != {} {
        FirstAfterRemoval(m, index);
      }
    }
  }

  lemma StopAndWaitWait<T>(w: World<T>)
    requires StopAndWait(w) && w.queue.timer.waits > 0
    ensures StopAndWait(Next(w, Wait))
  {
    var m := w.queue.entries;
    if Fires(w.queue.timer) && m.Keys != {} {
      assert First(m) in m.Keys;
      if Ascending(w.indices) {
        var last := w.steps[|w.steps| - 1];
        forall y | y in w.steps ensures y <= First(m) {
          var i :| 0 <= i < |w.steps| && w.steps[i] == y;
        }
        NeverDescendsAppend(w.steps, First(m));
      }
    }
  }

  lemma StopAndWaitStep<T>(w: World<T>, e: Event<T>)
    requires StopAndWait(w) && Possible(w, e)
    ensures StopAndWait(Next(w, e))
  {
    match e
    case Push(index, entry) => StopAndWaitPush(w, index, entry);
    case Ack(index) => StopAndWaitAck(w, index);
    case Wait => StopAndWaitWait(w);
    case _ =>
  }

  lemma {:induction false} StopAndWaitAlways<T>(w: World<T>, run: seq<Event<T>>)
    requires StopAndWait(w) && IsTrace(w, run)
    ensures StopAndWait(Final(w, run))
    decreases |run|
  {
    if run != [] {
      StopAndWaitStep(w, run[0]);
      StopAndWaitAlways(Next(w, run[0]), run[1..]);
    }
  }

  /**
   When indices are pushed in increasing order: the first entry of a non-empty queue has been
   stepped, no other pending entry ever has, and entries are first stepped in push order.
   */
  lemma StopAndWaitDiscipline<T>(run: seq<Event<T>>)
    requires IsTrace(Initial(), run) && Ascending(Final(Initial(), run).indices)
    ensures var w := Final(Initial(), run);
            && (forall k :: k in w.queue.entries ==> (k in w.steps <==> k == First(w.queue.entries)))
            && NeverDescends(w.steps)
  {
    StopAndWaitAlways(Initial(), run);
    FirstOnly(Final(Initial(), run));
  }

  // Conservation of handlers.

  /** How often the handler of an entry was called with the given outcome. */
  function Count<T(==)>(calls: seq<HandlerCall<T>>, outcome: Outcome, entry: Entry<T>): nat {
    if calls == [] then 0
    else
      var last := calls[|calls| - 1];
      Count(calls[..|calls| - 1], outcome, entry) + if last.outcome == outcome && last.entry == entry then 1 else 0
  }

  /** How often an entry occurs in a sequence. */
  function Occurrences<T(==)>(entries: seq<Entry<T>>, entry: Entry<T>): nat {
    if entries == [] then 0
    else Occurrences(entries[1..], entry) + if entries[0] == entry then 1 else 0
  }

  /** As often as it was pushed, an entry is pending, acknowledged, aborted or rejected. */
  ghost predicate Conserved<T>(w: World<T>, entry: Entry<T>) {
    Occurrences(w.pushed, entry) == Occurrences(InOrder(w.queue.entries), entry)
                                    + Count(w.settled, Success, entry)
                                    + Count(w.settled, OperationAborted, entry)
                                    + Count(w.settled, AlreadyStarted, entry)
  }

  /** Handlers receive the size their entry was pushed with, or 0 for a rejected push. */
  ghost predicate SizesMatch<T>(calls: seq<HandlerCall<T>>) {
    forall i :: 0 <= i < |calls| ==>
      && !calls[i].outcome.StepFailed?
      && calls[i].size == if calls[i].outcome.AlreadyStarted? then 0 else calls[i].entry.size
  }

  lemma {:induction false} OccurrencesAppend<T>(a: seq<Entry<T>>, b: seq<Entry<T>>, x: Entry<T>)
    ensures Occurrences(a + b, x) == Occurrences(a, x) + Occurrences(b, x)
  {
    if a == [] {
      assert a + b == b;
    } else {
      assert (a + b)[1..] == a[1..] + b;
      OccurrencesAppend(a[1..], b, x);
    }
  }

  lemma InOrderFrom<T>(m: map<nat, Entry<T>>, f: nat, x: Entry<T>)
    requires f in m && forall k :: k in m ==> f <= k
    ensures Occurrences(InOrder(m), x)
         == Occurrences(InOrder(m - {f}), x) + if m[f] == x then 1 else 0
  {
    FirstIs(m, f);
    assert InOrder(m)[1..] == InOrder(m - {f});
  }

  lemma {:induction false} InOrderInsert<T>(m: map<nat, Entry<T>>, k: nat, e: Entry<T>, x: Entry<T>)
    requires k !in m
    ensures Occurrences(InOrder(m[k := e]), x) == Occurrences(InOrder(m), x) + if e == x then 1 else 0
    decreases m.Keys
  {
    var grown := m[k := e];
    assert k in grown.Keys;
    var f := First(grown);
    InOrderFrom(grown, f, x);
    if f == k {
      assert grown - {k} == m;
    } else {
      assert forall y :: y in m ==> y in grown;
      InOrderFrom(m, f, x);
      InOrderInsert(m - {f}, k, e, x);
      assert grown - {f} == (m - {f})[k := e];
    }
  }

  lemma InOrderRemove<T>(m: map<nat, Entry<T>>, k: nat, x: Entry<T>)
    requires k in m
    ensures Occurrences(InOrder(m), x) == Occurrences(InOrder(m - {k}), x) + if m[k] == x then 1 else 0
  {
    InOrderInsert(m - {k}, k, m[k], x);
    assert (m - {k})[k := m[k]] == m;
  }

  lemma {:induction false} CountAppend<T>(a: seq<HandlerCall<T>>, b: seq<HandlerCall<T>>, o: Outcome, x: Entry<T>)
    ensures Count(a + b, o, x) == Count(a, o, x) + Count(b, o, x)
  {
    if b == [] {
      assert a + b == a;
    } else {
      var front := b[..|b| - 1];
      CountAppend(a, front, o, x);
      assert (a + b)[..|a + b| - 1] == a + front;
    }
  }

  lemma {:induction false} CountAborted<T>(entries: seq<Entry<T>>, x: Entry<T>)
    ensures Count(Aborted(entries), OperationAborted, x) == Occurrences(entries, x)
    ensures Count(Aborted(entries), Success, x) == Count(Aborted(entries), AlreadyStarted, x) == 0
  {
    if entries != [] {
      var front, last := entries[..|entries| - 1], entries[|entries| - 1];
      CountAborted(front, x);
      assert entries == front + [last];
      OccurrencesAppend(front, [last], x);
      assert Aborted(entries)[..|entries| - 1] == Aborted(front);
    }
  }

  lemma CountGrows<T>(a: seq<HandlerCall<T>>, b: seq<HandlerCall<T>>, x: Entry<T>)
    ensures Count(a + b, Success, x) == Count(a, Success, x) + Count(b, Success, x)
    ensures Count(a + b, OperationAborted, x) == Count(a, OperationAborted, x) + Count(b, OperationAborted, x)
    ensures Count(a + b, AlreadyStarted, x) == Count(a, AlreadyStarted, x) + Count(b, AlreadyStarted, x)
  {
    CountAppend(a, b, Success, x);
    CountAppend(a, b, OperationAborted, x);
    CountAppend(a, b, AlreadyStarted, x);
  }

  lemma CountOne<T>(call: HandlerCall<T>, o: Outcome, x: Entry<T>)
    ensures Count([call], o, x) == if call.outcome == o && call.entry == x then 1 else 0
  {
    assert [call][..0] == [];
  }

  lemma CountsOfOne<T>(call: HandlerCall<T>, x: Entry<T>)
    ensures Count([call], Success, x) == if call.outcome == Success && call.entry == x then 1 else 0
    ensures Count([call], OperationAborted, x) == if call.outcome == OperationAborted && call.entry == x then 1 else 0
    ensures Count([call], AlreadyStarted, x) == if call.outcome == AlreadyStarted && call.entry == x then 1 else 0
  {
    CountOne(call, Success, x);
    CountOne(call, OperationAborted, x);
    CountOne(call, AlreadyStarted, x);
  }

  lemma SizesMatchAppend<T>(calls: seq<HandlerCall<T>>, more: seq<HandlerCall<T>>)
    requires SizesMatch(calls) && SizesMatch(more)
    ensures SizesMatch(calls + more)
  {
  }

  lemma ConservedPush<T>(w: World<T>, index: nat, entry: Entry<T>, x: Entry<T>)
    requires Conserved(w, x) && SizesMatch(w.settled)
    ensures Conserved(Next(w, Push(index, entry)), x) && SizesMatch(Next(w, Push(index, entry)).settled)
  {
    var fx := Pushed(w.queue, index, entry);
    OccurrencesAppend(w.pushed, [entry], x);
    CountGrows(w.settled, fx.calls, x);
    if index in w.queue.entries {
      CountsOfOne(fx.calls[0], x);
    } else {
      InOrderInsert(w.queue.entries, index, entry, x);
    }
  }

  lemma ConservedAck<T>(w: World<T>, index: nat, x: Entry<T>)
    requires Conserved(w, x) && SizesMatch(w.settled)
    ensures Conserved(Next(w, Ack(index)), x) && SizesMatch(Next(w, Ack(index)).settled)
  {
    if index in w.queue.entries {
      var entry := w.queue.entries[index];
      var call := HandlerCall(entry, Success, entry.size);
      assert Next(w, Ack(index)).settled == w.settled + [call];
      CountGrows(w.settled, [call], x);
      CountsOfOne(call, x);
      SizesMatchAppend(w.settled, [call]);
      InOrderRemove(w.queue.entries, index, x);
    } else {
      assert w.settled + [] == w.settled;
    }
  }

  lemma ConservedShutdown<T>(w: World<T>, x: Entry<T>)
    requires Conserved(w, x) && SizesMatch(w.settled)
    ensures Conserved(Next(w, Shutdown), x) && SizesMatch(Next(w, Shutdown).settled)
  {
    var calls := Aborted(InOrder(w.queue.entries));
    CountGrows(w.settled, calls, x);
    CountAborted(InOrder(w.queue.entries), x);
    SizesMatchShutdown(w.settled, InOrder(w.queue.entries));
    assert Occurrences(InOrder(map[]), x) == 0;
  }

  lemma SizesMatchShutdown<T>(calls: seq<HandlerCall<T>>, entries: seq<Entry<T>>)
    requires SizesMatch(calls)
    ensures SizesMatch(calls + Aborted(entries))
  {
  }

  lemma ConservedStep<T>(w: World<T>, e: Event<T>, x: Entry<T>)
    requires Conserved(w, x) && SizesMatch(w.settled) && Possible(w, e)
    ensures Conserved(Next(w, e), x) && SizesMatch(Next(w, e).settled)
  {
    match e
    case Push(index, entry) => ConservedPush(w, index, entry, x);
    case Ack(index) => ConservedAck(w, index, x);
    case Shutdown => ConservedShutdown(w, x);
    case Wait => assert w.settled + [] == w.settled;
    case Done(_, _, _) =>
  }

  lemma {:induction false} ConservedAlways<T>(w: World<T>, run: seq<Event<T>>, x: Entry<T>)
    requires Conserved(w, x) && SizesMatch(w.settled) && IsTrace(w, run)
    ensures Conserved(Final(w, run), x) && SizesMatch(Final(w, run).settled)
    decreases |run|
  {
    if run != [] {
      ConservedStep(w, run[0], x);
      ConservedAlways(Next(w, run[0]), run[1..], x);
    }
  }

  /**
   Every pushed handler is in exactly one place: still pending, or settled once, by an acknowledgement
   or a shutdown with the size it was pushed with, or by a rejected push with size 0.
   */
  lemma HandlersConserved<T>(run: seq<Event<T>>, x: Entry<T>)
    requires IsTrace(Initial(), run)
    ensures Conserved(Final(Initial(), run), x) && SizesMatch(Final(Initial(), run).settled)
  {
    ConservedAlways(Initial(), run, x);
  }

  /** Beyond that a handler runs only when a step of its entry failed or completed after the shutdown. */
  lemma ReportsNeedFailureOrShutdown<T>(w: World<T>, e: Event<T>)
    requires Possible(w, e)
    ensures Next(w, e).reported == w.reported <==> !(e.Done? && (e.error || !w.queue.alive))
    ensures Next(w, e).reported != w.reported ==>
              && Next(w, e).queue == w.queue
              && Next(w, e).reported
                 == w.reported + [HandlerCall(e.entry, if e.error then StepFailed else Success, e.bytes)]
  {
  }
}
