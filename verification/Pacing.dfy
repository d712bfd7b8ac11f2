/**
 When the queue's timer makes it transmit: every tick is paid for by a completed step of its own, and
 acknowledging the first entry takes back what was paid for.
 */
module Pacing {
  import opened Timers
  import TimerRuns
  import opened TransmitQueues
  import opened TransmitQueueRuns

  /** The world after the first n events. */
  function WorldAt<T(==)>(w: World<T>, run: seq<Event<T>>, n: nat): World<T>
    requires IsTrace(w, run) && n <= |run|
    decreases n
  {
    if n == 0 then w else WorldAt(Next(w, run[0]), run[1..], n - 1)
  }

  lemma {:induction false} WorldStep<T>(w: World<T>, run: seq<Event<T>>, n: nat)
    requires IsTrace(w, run) && n < |run|
    ensures Possible(WorldAt(w, run, n), run[n])
    ensures WorldAt(w, run, n + 1) == Next(WorldAt(w, run, n), run[n])
    decreases n
  {
    if n > 0 {
      WorldStep(Next(w, run[0]), run[1..], n - 1);
    }
  }

  lemma {:induction false} SettledAt<T>(w: World<T>, run: seq<Event<T>>, n: nat)
    requires IsTrace(w, run) && n <= |run| && TimerSettled(w)
    ensures TimerSettled(WorldAt(w, run, n))
    decreases n
  {
    if n > 0 {
      TimerStaysSettled(w, run[0]);
      SettledAt(Next(w, run[0]), run[1..], n - 1);
    }
  }

  // What arms the timer and what takes that back.

  predicate Armed<T>(w: World<T>) {
    TimerRuns.Abstract(w.queue.timer) != TimerRuns.Idle
  }

  /** A step completed without an error, in time. */
  predicate Pays<T(==)>(w: World<T>, e: Event<T>) {
    e.Done? && !e.error && w.queue.alive
  }

  /** The first entry is acknowledged, or the queue shut down. */
  predicate Cancels<T(==)>(w: World<T>, e: Event<T>) {
    e.Shutdown? || (e.Ack? && e.index in w.queue.entries && e.index == First(w.queue.entries))
  }

  /** The timer fires. */
  predicate Ticks<T(==)>(w: World<T>, e: Event<T>) {
    e.Wait? && Fires(w.queue.timer)
  }

  lemma FirstAckStops<T>(q: Queue<T>)
    requires q.entries.Keys != {}
    ensures TimerRuns.Abstract(Acked(q, First(q.entries)).queue.timer) == TimerRuns.Idle
  {
    assert First(q.entries) in q.entries.Keys;
  }

  lemma AckTimer<T>(q: Queue<T>, index: nat)
    ensures Acked(q, index).queue.timer
         == if index in q.entries && index == First(q.entries) then After(q.timer, Call.Stop) else q.timer
  {
  }

  /** What the calls and callbacks of the queue make of its timer. */
  lemma TimerMoves(t: Timer)
    requires WaitInvariant(t) && !t.state.Executing?
    ensures TimerRuns.Abstract(After(t, Call.Start)) != TimerRuns.Idle
    ensures TimerRuns.Abstract(After(t, Call.Stop)) == TimerRuns.Idle
    ensures t.waits > 0 && !Fires(t) ==> TimerRuns.Abstract(Ticked(t)) == TimerRuns.Abstract(t)
    ensures t.waits > 0 && Fires(t) ==> TimerRuns.Abstract(Returned(Ticked(t))) == TimerRuns.Idle
  {
  }

  /** Exactly which events arm the timer and which leave it idle; no other event changes that. */
  lemma ArmedIff<T>(w: World<T>, e: Event<T>)
    requires TimerSettled(w) && Possible(w, e)
    ensures Armed(Next(w, e)) <==> Pays(w, e) || (Armed(w) && !Cancels(w, e) && !Ticks(w, e))
  {
    TimerMoves(w.queue.timer);
    if e.Ack? {
      AckTimer(w.queue, e.index);
    }
  }

  // Every tick is paid for.

  predicate PaidBy<T(==)>(w: World<T>, run: seq<Event<T>>, d: nat, n: nat)
    requires IsTrace(w, run) && n <= |run|
  {
    && d < n && Pays(WorldAt(w, run, d), run[d])
    && forall q :: d < q < n ==> !Cancels(WorldAt(w, run, q), run[q]) && !Ticks(WorldAt(w, run, q), run[q])
  }

  lemma ArmedAfter<T>(w: World<T>, run: seq<Event<T>>, n: nat)
    requires IsTrace(w, run) && n < |run| && TimerSettled(w)
    ensures var v := WorldAt(w, run, n);
            Armed(WorldAt(w, run, n + 1)) <==> Pays(v, run[n]) || (Armed(v) && !Cancels(v, run[n]) && !Ticks(v, run[n]))
  {
    WorldStep(w, run, n);
    SettledAt(w, run, n);
    ArmedIff(WorldAt(w, run, n), run[n]);
  }

  /** A timer that is armed, and was idle after the first m events, was armed by a completion since then. */
  lemma {:induction false} ArmedByCompletion<T>(w: World<T>, run: seq<Event<T>>, m: nat, n: nat) returns (d: nat)
    requires IsTrace(w, run) && m <= n <= |run| && TimerSettled(w)
    requires !Armed(WorldAt(w, run, m)) && Armed(WorldAt(w, run, n))
    ensures m <= d && PaidBy(w, run, d, n)
    decreases n
  {
    ArmedAfter(w, run, n - 1);
    if Pays(WorldAt(w, run, n - 1), run[n - 1]) {
      d := n - 1;
    } else {
      d := ArmedByCompletion(w, run, m, n - 1);
    }
  }

  /**
   Whenever the timer makes the queue transmit, a step completed without error before, and since then
   neither the first entry was acknowledged, nor the queue shut down, nor another tick came.
   */
  lemma TickIsPaidFor<T>(run: seq<Event<T>>, n: nat) returns (d: nat)
    requires IsTrace(Initial(), run) && n < |run| && Ticks(WorldAt(Initial(), run, n), run[n])
    ensures PaidBy(Initial(), run, d, n)
  {
    d := ArmedByCompletion(Initial(), run, 0, n);
  }

  function CountTicks<T(==)>(run: seq<Event<T>>, n: nat): nat
    requires IsTrace(Initial(), run) && n <= |run|
  {
    if n == 0 then 0
    else CountTicks(run, n - 1) + if Ticks(WorldAt(Initial(), run, n - 1), run[n - 1]) then 1 else 0
  }

  function CountCompletions<T(==)>(run: seq<Event<T>>, n: nat): nat
    requires IsTrace(Initial(), run) && n <= |run|
  {
    if n == 0 then 0
    else CountCompletions(run, n - 1) + if Pays(WorldAt(Initial(), run, n - 1), run[n - 1]) then 1 else 0
  }

  /** There are never more ticks than completed steps. */
  lemma {:induction false} TicksNeverExceedCompletions<T>(run: seq<Event<T>>, n: nat)
    requires IsTrace(Initial(), run) && n <= |run|
    ensures CountTicks(run, n) + (if Armed(WorldAt(Initial(), run, n)) then 1 else 0) <= CountCompletions(run, n)
  {
    if n > 0 {
      TicksNeverExceedCompletions(run, n - 1);
      ArmedAfter(Initial(), run, n - 1);
      SettledAt(Initial(), run, n - 1);
      assert Ticks(WorldAt(Initial(), run, n - 1), run[n - 1]) ==> Armed(WorldAt(Initial(), run, n - 1));
    }
  }

  // Since an entry became first.

  ghost predicate IsFirst<T>(w: World<T>, k: nat) {
    w.queue.entries.Keys != {} && First(w.queue.entries) == k
  }

  /** The entry became first: the one before it was acknowledged, or it was pushed. */
  lemma BecomesFirst<T>(w: World<T>, e: Event<T>, k: nat)
    requires Possible(w, e) && !IsFirst(w, k) && IsFirst(Next(w, e), k)
    ensures Cancels(w, e) || (e.Push? && e.index == k)
  {
    var m := w.queue.entries;
    match e
    case Push(index, entry) =>
      if index != k {
        assert forall x :: x in m ==> x in m[index := entry];
        FirstIs(m, k);
      }
    case Ack(index) =>
      if index in m {
        assert index in m.Keys;
        FirstAfterRemoval(m, index);
      }
    case _ =>
  }

  /**
   When a tick transmits the first entry, some step completed without error since that entry became
   first, event b, unless the entry was pushed while the timer was armed.
   */
  lemma TickFollowsCompletion<T>(run: seq<Event<T>>, b: nat, n: nat, k: nat) returns (d: nat)
    requires IsTrace(Initial(), run) && b < n < |run| && Ticks(WorldAt(Initial(), run, n), run[n])
    requires !IsFirst(WorldAt(Initial(), run, b), k)
    requires forall m :: b < m <= n ==> IsFirst(WorldAt(Initial(), run, m), k)
    requires !(run[b].Push? && Armed(WorldAt(Initial(), run, b)))
    ensures b < d && PaidBy(Initial(), run, d, n)
  {
    WorldStep(Initial(), run, b);
    BecomesFirst(WorldAt(Initial(), run, b), run[b], k);
    ArmedAfter(Initial(), run, b);
    d := ArmedByCompletion(Initial(), run, b + 1, n);
  }

  lemma Begin<T>(w: World<T>, e: Event<T>, rest: seq<Event<T>>)
    requires Possible(w, e) && IsTrace(Next(w, e), rest)
    ensures IsTrace(w, [e] + rest) && Final(w, [e] + rest) == Final(Next(w, e), rest)
  {
    assert ([e] + rest)[1..] == rest;
  }

  lemma TickStepsFirst<T>(w: World<T>, index: nat)
    requires IsFirst(w, index) && w.queue.timer.waits > 0 && Fires(w.queue.timer)
    ensures IsTrace(w, [Wait]) && Final(w, [Wait]).steps == w.steps + [index]
  {
    Begin(w, Wait, []);
    assert [Event<T>.Wait] + [] == [Wait];
  }

  lemma RenewedTickStepsFirst<T>(w: World<T>, index: nat)
    requires IsFirst(w, index) && TimerSettled(w) && Armed(w) && !Fires(w.queue.timer)
    ensures IsTrace(w, [Wait, Wait]) && Final(w, [Wait, Wait]).steps == w.steps + [index]
  {
    TickStepsFirst(Next(w, Wait), index);
    Begin(w, Wait, [Wait]);
    assert [Event<T>.Wait] + [Wait] == [Wait, Wait];
  }

  lemma PushedIsFirst<T>(w: World<T>, index: nat, entry: Entry<T>)
    requires index !in w.queue.entries && forall k :: k in w.queue.entries ==> index < k
    ensures var pushed := Next(w, Push(index, entry));
            && IsFirst(pushed, index) && pushed.queue.timer == w.queue.timer
            && pushed.steps == w.steps + if w.queue.entries.Keys == {} then [index] else []
  {
    FirstIs(w.queue.entries[index := entry], index);
  }

  /** With an armed timer the exception does occur: a push, then one or two wait callbacks, and no completion. */
  lemma ArmedPushIsRepeated<T>(w: World<T>, index: nat, entry: Entry<T>)
    requires TimerSettled(w) && Armed(w) && index !in w.queue.entries
    requires forall k :: k in w.queue.entries ==> index < k
    ensures var run := [Push(index, entry)] + if Fires(w.queue.timer) then [Wait] else [Wait, Wait];
            && IsTrace(w, run)
            && Final(w, run).steps == w.steps + (if w.queue.entries.Keys == {} then [index] else []) + [index]
  {
    var pushed := Next(w, Push(index, entry));
    PushedIsFirst(w, index, entry);
    if Fires(w.queue.timer) {
      TickStepsFirst(pushed, index);
      Begin(w, Push(index, entry), [Wait]);
    } else {
      RenewedTickStepsFirst(pushed, index);
      Begin(w, Push(index, entry), [Wait, Wait]);
    }
  }

  /** The world in which a step completed after its acknowledgement: the timer of the empty queue is armed. */
  function Leftover<T>(a: Entry<T>): World<T> {
    World(Queue(map[], Timer(Running, 1), true), multiset{}, [5], [a], [5], [HandlerCall(a, Success, a.size)], [])
  }

  lemma ReachesLeftover<T>(a: Entry<T>, bytes: nat, rest: seq<Event<T>>)
    requires IsTrace(Leftover(a), rest)
    ensures var run := [Push(5, a)] + ([Ack(5)] + ([Done(a, false, bytes)] + rest));
            IsTrace(Initial(), run) && Final(Initial(), run) == Final(Leftover(a), rest)
  {
    var pushed := Next(Initial(), Push(5, a));
    FirstIs(pushed.queue.entries, 5);
    var acked := Next(pushed, Ack(5));
    assert acked.queue.entries == map[];
    assert acked.inFlight == multiset{a};
    var done := Next(acked, Done(a, false, bytes));
    assert done == Leftover(a);
    Begin(acked, Done(a, false, bytes), rest);
    Begin(pushed, Ack(5), [Done(a, false, bytes)] + rest);
    Begin(Initial(), Push(5, a), [Ack(5)] + ([Done(a, false, bytes)] + rest));
  }

  /** So the next packet can be transmitted twice before its first step completed. */
  lemma EarlyRepeat<T>(a: Entry<T>, b: Entry<T>, bytes: nat)
    ensures var run := [Push(5, a), Ack(5), Done(a, false, bytes), Push(7, b), Wait];
            IsTrace(Initial(), run) && Final(Initial(), run).steps == [5, 7, 7]
  {
    ArmedPushIsRepeated(Leftover(a), 7, b);
    ReachesLeftover(a, bytes, [Push(7, b)] + [Wait]);
    assert [Push(5, a)] + ([Ack(5)] + ([Done(a, false, bytes)] + ([Push(7, b)] + [Wait])))
        == [Push(5, a), Ack(5), Done(a, false, bytes), Push(7, b), Wait];
  }
}
