/** The older pair of participant states, built on a state provider, a
    synchronous board and a system resource. DoStep asks the rules for a
    step, asks the board to move there and picks the next state from the
    board's answer; WaitNextStep draws a sleep time, sleeps and picks the
    next state from the reason it woke up. The board's answer, the step,
    the drawn time and the wake-up reason are inputs. */
module LegacyStates {
  import opened Common

  /** The states the provider makes. */
  datatype LegacyState = ExitState | DoStep | WaitNextStep | WaitBlock

  /** The synchronous board's answer to a move. */
  datatype ErrorCode = Error | OccupiedPlace | Success

  /** Why a sleep ended. */
  datatype ReasonWakeUp = Exit | TimeOut | ExternalWakeUp

  /** A call a state makes, in order: to the board or to the system resource. */
  datatype Call =
    | MoveFigureCall(to: Coordinate)
    | RandomCall(low: int, high: int)
    | SleepCall(msec: int)

  datatype LegacyOutcome = LegacyOutcome(calls: seq<Call>, next: LegacyState)

  /** The bounds of the sleep time WaitNextStep draws, in milliseconds. */
  const SleepFrom: int := 200
  const SleepTo: int := 300

  /** DoStepState::doWork, given the generated step and the board's answer
      to the move. */
  function DoStepWork(step: Coordinate, answer: ErrorCode): LegacyOutcome {
    var next := match answer
      case Error => ExitState
      case Success => WaitNextStep
      case OccupiedPlace => WaitBlock;
    LegacyOutcome([MoveFigureCall(step)], next)
  }

  /** WaitNextStepState::doWork, given the value the random call returned
      and the reason the sleep ended. */
  function WaitNextStepWork(drawn: int, wake: ReasonWakeUp): LegacyOutcome {
    var next := match wake
      case ExternalWakeUp => ExitState
      case Exit => ExitState
      case TimeOut => DoStep;
    LegacyOutcome([RandomCall(SleepFrom, SleepTo), SleepCall(drawn)], next)
  }

  /** DoStep makes exactly one call, a move to the generated step, and
      maps error to exit, success to WaitNextStep and an occupied target
      to WaitBlock. */
  lemma DoStepTable(step: Coordinate, answer: ErrorCode)
    ensures DoStepWork(step, answer).calls == [MoveFigureCall(step)]
    ensures DoStepWork(step, answer).next == ExitState <==> answer == Error
    ensures DoStepWork(step, answer).next == WaitNextStep <==> answer == Success
    ensures DoStepWork(step, answer).next == WaitBlock <==> answer == OccupiedPlace
  {
  }

  /** WaitNextStep asks for a time in [200, 300] and sleeps for exactly the
      value it got; an exit or an external wake-up leads to exit, a
      timeout back to DoStep. */
  lemma WaitNextStepTable(drawn: int, wake: ReasonWakeUp)
    ensures WaitNextStepWork(drawn, wake).calls == [RandomCall(200, 300), SleepCall(drawn)]
    ensures WaitNextStepWork(drawn, wake).next == ExitState <==> wake != TimeOut
    ensures WaitNextStepWork(drawn, wake).next == DoStep <==> wake == TimeOut
  {
  }

  /** A successful move followed by a timed-out sleep comes back to DoStep,
      having moved once and slept once. */
  lemma StepCycle(step: Coordinate, drawn: int)
    ensures var a := DoStepWork(step, Success); var b := WaitNextStepWork(drawn, TimeOut);
      a.next == WaitNextStep && b.next == DoStep &&
      a.calls + b.calls == [MoveFigureCall(step), RandomCall(200, 300), SleepCall(drawn)]
  {
  }
}
