/**
 The restartable timer: six states over an asynchronous wait whose callback arrives even after
 the wait was cancelled. Durations are not modelled, only which wait callbacks are still to come.
 */
module Timers {

  datatype State =
    | Stopped
    | Running
    | Executing
    | CancelingToStop
    | CancelingToStart
    | CancelingToFastForward

  datatype Call = Start | Stop | FastForward

  /** The state together with the number of wait callbacks that have not arrived yet. */
  datatype Timer = Timer(state: State, waits: nat)

  const FRESH := Timer(Stopped, 0)

  /** One callback is outstanding while running or cancelling, none while stopped or executing. */
  predicate WaitInvariant(t: Timer) {
    t.waits == if t.state.Stopped? || t.state.Executing? then 0 else 1
  }

  function Waiting(t: Timer, state: State): Timer {
    Timer(state, if t.state.Stopped? || t.state.Executing? then t.waits + 1 else t.waits)
  }

  /** The effect of a call on the timer. */
  function After(t: Timer, call: Call): Timer {
    match call
    case Start =>
      Waiting(t, if t.state.Stopped? || t.state.Executing? then Running else CancelingToStart)
    case Stop =>
      if t.state.Stopped? || t.state.Executing? then t.(state := Stopped) else t.(state := CancelingToStop)
    case FastForward =>
      Waiting(t, CancelingToFastForward)
  }

  function AfterCalls(t: Timer, calls: seq<Call>): Timer {
    if calls == [] then t else After(AfterCalls(t, calls[..|calls| - 1]), calls[|calls| - 1])
  }

  /** Does the next wait callback run the handler? */
  predicate Fires(t: Timer) {
    t.state.Running? || t.state.CancelingToFastForward?
  }

  /** The timer after a wait callback arrived, at the moment the handler starts if it fires. */
  function Ticked(t: Timer): Timer
    requires t.waits > 0
  {
    if Fires(t) then Timer(Executing, t.waits - 1)
    else if t.state.CancelingToStart? then t.(state := Running)
    else Timer(Stopped, t.waits - 1)
  }

  /** The timer after its handler returned. */
  function Returned(t: Timer): Timer {
    if t.state.Executing? then t.(state := Stopped) else t
  }

  class TimerObject {
    var state: State
    var waits: nat

    ghost function View(): Timer
      reads this
    {
      Timer(state, waits)
    }

    ghost predicate Valid()
      reads this
    {
      WaitInvariant(View())
    }

    constructor ()
      ensures View() == FRESH && Valid()
    {
      state, waits := Stopped, 0;
    }

    method Start()
      requires Valid()
      modifies this
      ensures Valid() && View() == After(old(View()), Call.Start)
      decreases state.Running?
    {
      match state
      case Stopped => DoStart();
      case Running => Stop(); Start();
      case Executing => DoStart();
      case CancelingToStop => state := CancelingToStart;
      case CancelingToStart =>
      case CancelingToFastForward => state := CancelingToStart;
    }

    method Stop()
      requires Valid()
      modifies this
      ensures Valid() && View() == After(old(View()), Call.Stop)
    {
      match state
      case Stopped =>
      case Running => state := CancelingToStop;
      case Executing => state := Stopped;
      case CancelingToStop =>
      case CancelingToStart => state := CancelingToStop;
      case CancelingToFastForward => state := CancelingToStop;
    }

    method FastForward()
      requires Valid()
      modifies this
      ensures Valid() && View() == After(old(View()), Call.FastForward)
    {
      Start();
      Stop();
      state := CancelingToFastForward;
    }

    /** Issues a wait; a wait that is still live would be overwritten, so there must be none. */
    method DoStart()
      requires waits == 0
      modifies this
      ensures state == Running && waits == 1
    {
      state := Running;
      waits := waits + 1;
    }

    /** The part of a wait callback before the handler; runs says whether to call the handler. */
    method BeginTick() returns (runs: bool)
      requires Valid() && waits > 0
      modifies this
      ensures Valid() && View() == Ticked(old(View())) && runs == Fires(old(View()))
    {
      waits := waits - 1;
      match state {
        case Stopped => assert false;
        case Running =>
        case Executing => assert false;
        case CancelingToStop =>
          state := Stopped;
          return false;
        case CancelingToStart =>
          DoStart();
          return false;
        case CancelingToFastForward =>
      }
      state := Executing;
      runs := true;
    }

    /** The part of a wait callback after the handler. */
    method EndTick()
      requires Valid()
      modifies this
      ensures Valid() && View() == Returned(old(View()))
    {
      if state == Executing {
        state := Stopped;
      }
    }

    /** A whole wait callback, with a handler that makes the given calls on the timer. */
    method HandleTick(calls: seq<Call>) returns (runs: bool)
      requires Valid() && waits > 0
      modifies this
      ensures Valid() && runs == Fires(old(View()))
      ensures View() == if runs then Returned(AfterCalls(Ticked(old(View())), calls)) else Ticked(old(View()))
    {
      runs := BeginTick();
      if runs {
        ghost var begun := View();
        for i := 0 to |calls|
          invariant Valid() && View() == AfterCalls(begun, calls[..i])
        {
          assert calls[..i + 1][..i] == calls[..i];
          match calls[i]
          case Start => Start();
          case Stop => Stop();
          case FastForward => FastForward();
        }
        assert calls[..|calls|] == calls;
        EndTick();
      }
    }
  }
}
