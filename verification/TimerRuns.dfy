/**
 Whole runs of a timer: the six-state machine refines a three-state alarm, whatever calls are made,
 from outside or from inside the handler, and however late the callbacks of cancelled waits arrive.
 */
module TimerRuns {
  import opened Timers

  // Runs of a timer: calls from anywhere, wait callbacks, and returns of the handler.

  datatype Event = Called(call: Call) | WaitArrives | HandlerReturns

  datatype Config = Config(timer: Timer, inHandler: bool)

  predicate Enabled(c: Config, e: Event) {
    match e
    case Called(_) => true
    case WaitArrives => !c.inHandler && c.timer.waits > 0
    case HandlerReturns => c.inHandler
  }

  function Step(c: Config, e: Event): Config
    requires Enabled(c, e)
  {
    match e
    case Called(call) => c.(timer := After(c.timer, call))
    case WaitArrives => Config(Ticked(c.timer), Fires(c.timer))
    case HandlerReturns => Config(Returned(c.timer), false)
  }

  predicate Legal(c: Config, trace: seq<Event>)
    decreases |trace|
  {
    trace == [] || (Enabled(c, trace[0]) && Legal(Step(c, trace[0]), trace[1..]))
  }

  /** The configuration after the first n events. */
  function At(c: Config, trace: seq<Event>, n: nat): Config
    requires Legal(c, trace) && n <= |trace|
    decreases n
  {
    if n == 0 then c else At(Step(c, trace[0]), trace[1..], n - 1)
  }

  const INITIAL := Config(FRESH, false)

  ghost predicate Consistent(c: Config) {
    WaitInvariant(c.timer) && (c.timer.state.Executing? ==> c.inHandler)
  }

  // The three-state timer it implements.

  datatype Alarm = Idle | Armed | ArmedNow

  function Abstract(t: Timer): Alarm {
    match t.state
    case Running => Armed
    case CancelingToStart => Armed
    case CancelingToFastForward => ArmedNow
    case _ => Idle
  }

  function AlarmAfter(call: Call): Alarm {
    match call
    case Start => Armed
    case Stop => Idle
    case FastForward => ArmedNow
  }

  /** Every step of the six-state timer is a step of the three-state one, or does not show. */
  lemma StepRefines(c: Config, e: Event)
    requires Consistent(c) && Enabled(c, e)
    ensures Consistent(Step(c, e))
    ensures e.Called? ==> Abstract(Step(c, e).timer) == AlarmAfter(e.call) && !Step(c, e).timer.state.Executing?
    ensures e.WaitArrives? ==> !c.timer.state.Stopped? && !c.timer.state.Executing?
    ensures e.WaitArrives? && Fires(c.timer) ==> Abstract(c.timer) != Idle && Abstract(Step(c, e).timer) == Idle
    ensures e.WaitArrives? && !Fires(c.timer) ==> Abstract(Step(c, e).timer) == Abstract(c.timer)
    ensures e.HandlerReturns? ==> Abstract(Step(c, e).timer) == Abstract(c.timer)
  {
  }

  lemma {:induction false} AlwaysConsistent(c: Config, trace: seq<Event>, n: nat)
    requires Consistent(c) && Legal(c, trace) && n <= |trace|
    ensures Consistent(At(c, trace, n))
    decreases n
  {
    if n > 0 {
      StepRefines(c, trace[0]);
      AlwaysConsistent(Step(c, trace[0]), trace[1..], n - 1);
    }
  }

  /** In every reachable configuration a wait callback finds neither the stopped nor the executing arm. */
  lemma WaitsMatchState(trace: seq<Event>, n: nat)
    requires Legal(INITIAL, trace) && n <= |trace|
    ensures WaitInvariant(At(INITIAL, trace, n).timer)
    ensures n < |trace| && trace[n].WaitArrives? ==>
              !At(INITIAL, trace, n).timer.state.Stopped? && !At(INITIAL, trace, n).timer.state.Executing?
  {
    AlwaysConsistent(INITIAL, trace, n);
    if n < |trace| {
      AtStep(INITIAL, trace, n);
    }
  }

  lemma {:induction false} AtStep(c: Config, trace: seq<Event>, n: nat)
    requires Legal(c, trace) && n < |trace|
    ensures Enabled(At(c, trace, n), trace[n])
    ensures At(c, trace, n + 1) == Step(At(c, trace, n), trace[n])
    decreases n
  {
    if n > 0 {
      AtStep(Step(c, trace[0]), trace[1..], n - 1);
    }
  }

  predicate Arms(e: Event) {
    e == Called(Start) || e == Called(FastForward)
  }

  /** The handler starts to run at event n. */
  predicate RunsAt(trace: seq<Event>, n: nat)
    requires Legal(INITIAL, trace) && n < |trace|
  {
    trace[n].WaitArrives? && Fires(At(INITIAL, trace, n).timer)
  }

  /** Event p armed the timer, and nothing between p and n stopped it or used it up. */
  predicate ArmedSince(trace: seq<Event>, p: nat, n: nat)
    requires Legal(INITIAL, trace) && n <= |trace|
  {
    p < n && Arms(trace[p]) && forall q :: p < q < n ==> trace[q] != Called(Stop) && !RunsAt(trace, q)
  }

  lemma {:induction false} ArmedBy(trace: seq<Event>, n: nat) returns (p: nat)
    requires Legal(INITIAL, trace) && n <= |trace|
    requires Abstract(At(INITIAL, trace, n).timer) != Idle
    ensures ArmedSince(trace, p, n)
  {
    if n > 0 {
      AlwaysConsistent(INITIAL, trace, n - 1);
      AtStep(INITIAL, trace, n - 1);
      StepRefines(At(INITIAL, trace, n - 1), trace[n - 1]);
      if Arms(trace[n - 1]) {
        p := n - 1;
      } else {
        p := ArmedBy(trace, n - 1);
      }
    }
  }

  /**
   Every run of the handler is paid for by an earlier start or fast_forward of its own: no stop and
   no other run lies between them. So distinct runs have distinct payments, and a stopped timer
   stays silent until it is armed again.
   */
  lemma RunIsPaidFor(trace: seq<Event>, n: nat) returns (p: nat)
    requires Legal(INITIAL, trace) && n < |trace| && RunsAt(trace, n)
    ensures ArmedSince(trace, p, n)
  {
    p := ArmedBy(trace, n);
  }

  lemma StoppedIsSilent(trace: seq<Event>, s: nat, n: nat)
    requires Legal(INITIAL, trace) && s < n < |trace| && trace[s] == Called(Stop)
    requires forall q :: s < q < n ==> !Arms(trace[q])
    ensures !RunsAt(trace, n)
  {
    if RunsAt(trace, n) {
      var p := RunIsPaidFor(trace, n);
    }
  }

  function CountArmings(trace: seq<Event>, n: nat): nat
    requires n <= |trace|
  {
    if n == 0 then 0 else CountArmings(trace, n - 1) + if Arms(trace[n - 1]) then 1 else 0
  }

  function CountRuns(trace: seq<Event>, n: nat): nat
    requires Legal(INITIAL, trace) && n <= |trace|
  {
    if n == 0 then 0 else CountRuns(trace, n - 1) + if RunsAt(trace, n - 1) then 1 else 0
  }

  /** There are never more runs than armings; an armed timer has one arming still unspent. */
  lemma {:induction false} RunsNeverExceedArmings(trace: seq<Event>, n: nat)
    requires Legal(INITIAL, trace) && n <= |trace|
    ensures CountRuns(trace, n) + (if Abstract(At(INITIAL, trace, n).timer) != Idle then 1 else 0)
         <= CountArmings(trace, n)
  {
    if n > 0 {
      RunsNeverExceedArmings(trace, n - 1);
      AlwaysConsistent(INITIAL, trace, n - 1);
      AtStep(INITIAL, trace, n - 1);
      StepRefines(At(INITIAL, trace, n - 1), trace[n - 1]);
    }
  }

  /**
   An armed timer does fire: it has a wait outstanding, the first callback runs the handler or
   renews the wait, and a renewed wait runs the handler. After fast_forward the first callback does.
   */
  lemma ArmedFires(t: Timer)
    requires WaitInvariant(t) && Abstract(t) != Idle
    ensures t.waits == 1
    ensures Abstract(t) == ArmedNow ==> Fires(t)
    ensures Fires(t) || (Ticked(t).waits == 1 && Fires(Ticked(t)))
  {
  }

  // A start restarts the timer: what counts is the wait issued for it, not an older one.

  /** A start with a wait outstanding makes its callback issue the next wait, and only that one runs the handler. */
  lemma StartRestarts(t: Timer)
    requires WaitInvariant(t)
    ensures var started := After(t, Start);
            if t.waits == 0 then started.waits == 1 && Fires(started)
            else
              && started.waits == t.waits && !Fires(started)
              && Ticked(started).waits == 1 && Fires(Ticked(started))
  {
  }

  /** Event i issues a wait: more are outstanding after it than it left of those before. */
  predicate Issues(trace: seq<Event>, i: nat)
    requires Legal(INITIAL, trace) && i < |trace|
  {
    At(INITIAL, trace, i + 1).timer.waits + (if trace[i].WaitArrives? then 1 else 0) > At(INITIAL, trace, i).timer.waits
  }

  /** The only wait outstanding before event n was issued by event i. */
  predicate WaitOf(trace: seq<Event>, i: nat, n: nat)
    requires Legal(INITIAL, trace) && n <= |trace|
  {
    && i < n && At(INITIAL, trace, n).timer.waits == 1 && Issues(trace, i)
    && forall q :: i < q < n ==> !trace[q].WaitArrives? && !Issues(trace, q)
  }

  /** Whatever start was called since event i, a fast_forward was called after it. */
  ghost predicate NotRestarted(trace: seq<Event>, i: nat, n: nat)
    requires n <= |trace|
  {
    forall p :: i < p < n && trace[p] == Called(Start) ==> exists q :: p < q < n && trace[q] == Called(FastForward)
  }

  lemma {:induction false} WaitSource(trace: seq<Event>, n: nat) returns (i: nat)
    requires Legal(INITIAL, trace) && n <= |trace| && At(INITIAL, trace, n).timer.waits > 0
    ensures WaitOf(trace, i, n)
    ensures At(INITIAL, trace, n).timer.state.Running? ==> forall q :: i < q < n ==> !trace[q].Called?
    ensures At(INITIAL, trace, n).timer.state.CancelingToFastForward? ==> NotRestarted(trace, i, n)
  {
    AlwaysConsistent(INITIAL, trace, n - 1);
    AtStep(INITIAL, trace, n - 1);
    StepRefines(At(INITIAL, trace, n - 1), trace[n - 1]);
    if Issues(trace, n - 1) {
      i := n - 1;
    } else {
      i := WaitSource(trace, n - 1);
    }
  }

  /**
   A wait issued before the latest start never runs the handler: between the event that issued the wait
   whose callback runs it and that callback there is no start without a later fast_forward.
   */
  lemma NoStaleRun(trace: seq<Event>, n: nat) returns (i: nat)
    requires Legal(INITIAL, trace) && n < |trace| && RunsAt(trace, n)
    ensures WaitOf(trace, i, n) && NotRestarted(trace, i, n)
  {
    AlwaysConsistent(INITIAL, trace, n);
    i := WaitSource(trace, n);
  }

  lemma {:induction false} StaysCanceling(trace: seq<Event>, p: nat, n: nat)
    requires Legal(INITIAL, trace) && p < n <= |trace|
    requires trace[p] == Called(Start) && At(INITIAL, trace, p).timer.waits > 0
    requires forall q :: p < q < n ==> !trace[q].WaitArrives? && trace[q] != Called(FastForward)
    ensures At(INITIAL, trace, n).timer.state in {CancelingToStart, CancelingToStop}
  {
    AlwaysConsistent(INITIAL, trace, n - 1);
    AtStep(INITIAL, trace, n - 1);
    if p < n - 1 {
      StaysCanceling(trace, p, n - 1);
    }
  }

  /** After a start with a wait outstanding the next callback runs no handler, unless a fast_forward lies between. */
  lemma NextCallbackIsSilent(trace: seq<Event>, p: nat, n: nat)
    requires Legal(INITIAL, trace) && p < n < |trace| && trace[n].WaitArrives?
    requires trace[p] == Called(Start) && At(INITIAL, trace, p).timer.waits > 0
    requires forall q :: p < q < n ==> !trace[q].WaitArrives? && trace[q] != Called(FastForward)
    ensures !RunsAt(trace, n)
  {
    StaysCanceling(trace, p, n);
  }
}
