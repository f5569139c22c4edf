/** The participant's state machine: each state's doWork takes the next
    board event, or none when the state's wait timed out, and picks the
    next state. On the way it may set the piece's coordinate, issue board
    requests, or throw a logic error. Here each doWork is a function from
    the event, the piece's coordinate and the step the rules would generate
    now to either a transition or the error. */
module Participant {
  import opened Common

  /** The states; WaitForCell remembers the square it is waiting for. */
  datatype State =
    | WaitForConfirmStep
    | NextStepState
    | WaitForCellStep(toCoordinate: Coordinate)
    | StopState

  datatype EventType =
    | StopEvent
    | PlacedEvent
    | MovedEvent
    | CancelMovedEvent
    | WaitingForCellEvent
    | RemoveEvent
    | RejectEvent

  /** An event delivered to the participant: its type, the target square
      and, for a rejection, the reason. */
  datatype Event = Event(kind: EventType, to: Coordinate, reason: ReasonReject)

  /** A request the state issues to the board, in the order issued. */
  datatype Request =
    | MoveFigure(to: Coordinate)
    | CancelMoveFigure(to: Coordinate)
    | RemoveFigure

  /** A thrown `logic_error` with its message. */
  datatype LogicError = LogicError(what: string)

  /** The next state (`None` for the null state StopState returns), the
      piece's coordinate afterwards and the requests issued. */
  datatype Transition = Transition(next: Option<State>, coordinate: Coordinate, requests: seq<Request>)

  const UnexpectedRejectMessage: string := "Unexpected ReasonReject in WaitForCellStep class"
  const UnexpectedCellEventMessage: string := "Unexpected event in WaitForCellStep class"
  const UnexpectedNextStepMessage: string := "Unexpected event in NextStep class"

  /** A `reject` whose reason is `boardStopped`. */
  predicate IsBoardStoppedReject(e: Event) {
    e.kind == RejectEvent && e.reason == BoardStopped
  }

  /** WaitForConfirmStep::doWork. */
  function ConfirmWork(e: Option<Event>, current: Coordinate, step: Coordinate): Result<Transition, LogicError> {
    match e
    case None => Ok(Transition(Some(WaitForConfirmStep), current, []))
    case Some(ev) =>
      match ev.kind
      case StopEvent => Ok(Transition(Some(StopState), current, [RemoveFigure]))
      case PlacedEvent => Ok(Transition(Some(NextStepState), ev.to, []))
      case MovedEvent => Ok(Transition(Some(NextStepState), ev.to, []))
      case CancelMovedEvent => Ok(Transition(Some(WaitForConfirmStep), current, [MoveFigure(step)]))
      case WaitingForCellEvent => Ok(Transition(Some(WaitForCellStep(ev.to)), current, []))
      case RemoveEvent => Ok(Transition(Some(StopState), current, []))
      case RejectEvent =>
        if ev.reason == BoardStopped then Ok(Transition(Some(StopState), current, []))
        else Err(LogicError(UnexpectedRejectMessage))
  }

  /** WaitForCellStep::doWork, for the square `target` it was built with. */
  function CellWork(target: Coordinate, e: Option<Event>, current: Coordinate): Result<Transition, LogicError> {
    match e
    case None => Ok(Transition(Some(WaitForConfirmStep), current, [CancelMoveFigure(target)]))
    case Some(ev) =>
      match ev.kind
      case StopEvent => Ok(Transition(Some(StopState), current, [CancelMoveFigure(target), RemoveFigure]))
      case PlacedEvent => Ok(Transition(Some(NextStepState), ev.to, []))
      case MovedEvent => Ok(Transition(Some(NextStepState), ev.to, []))
      case RemoveEvent => Ok(Transition(Some(StopState), current, []))
      case RejectEvent =>
        if ev.reason == BoardStopped then Ok(Transition(Some(StopState), current, []))
        else Err(LogicError(UnexpectedRejectMessage))
      case CancelMovedEvent => Err(LogicError(UnexpectedCellEventMessage))
      case WaitingForCellEvent => Err(LogicError(UnexpectedCellEventMessage))
  }

  /** NextStepState::doWork. */
  function NextStepWork(e: Option<Event>, current: Coordinate, step: Coordinate): Result<Transition, LogicError> {
    match e
    case None => Ok(Transition(Some(WaitForConfirmStep), current, [MoveFigure(step)]))
    case Some(ev) =>
      if ev.kind == StopEvent || IsBoardStoppedReject(ev) then
        Ok(Transition(Some(StopState), current, [RemoveFigure]))
      else
        Err(LogicError(UnexpectedNextStepMessage))
  }

  /** StopState::doWork: the null state, whatever arrives. */
  function StopWork(e: Option<Event>, current: Coordinate): Result<Transition, LogicError> {
    Ok(Transition(None, current, []))
  }

  /** The doWork of state `s`. */
  function DoWork(s: State, e: Option<Event>, current: Coordinate, step: Coordinate): Result<Transition, LogicError> {
    match s
    case WaitForConfirmStep => ConfirmWork(e, current, step)
    case NextStepState => NextStepWork(e, current, step)
    case WaitForCellStep(target) => CellWork(target, e, current)
    case StopState => StopWork(e, current)
  }

  /** The state's stop(). */
  predicate IsStop(s: State) {
    match s
    case WaitForConfirmStep => false
    case NextStepState => false
    case WaitForCellStep(_) => false
    case StopState => true
  }

  /** StopState::waitPeriod, in milliseconds. */
  const StopWaitPeriod: int := 0

  // ---------------------------------------------------------------------
  // The transition tables

  lemma ConfirmTable(current: Coordinate, step: Coordinate, ev: Event)
    ensures ConfirmWork(None, current, step) == Ok(Transition(Some(WaitForConfirmStep), current, []))
    ensures ev.kind == StopEvent ==>
      ConfirmWork(Some(ev), current, step) == Ok(Transition(Some(StopState), current, [RemoveFigure]))
    ensures ev.kind in {PlacedEvent, MovedEvent} ==>
      ConfirmWork(Some(ev), current, step) == Ok(Transition(Some(NextStepState), ev.to, []))
    ensures ev.kind == CancelMovedEvent ==>
      ConfirmWork(Some(ev), current, step) == Ok(Transition(Some(WaitForConfirmStep), current, [MoveFigure(step)]))
    ensures ev.kind == WaitingForCellEvent ==>
      ConfirmWork(Some(ev), current, step) == Ok(Transition(Some(WaitForCellStep(ev.to)), current, []))
    ensures ev.kind == RemoveEvent ==>
      ConfirmWork(Some(ev), current, step) == Ok(Transition(Some(StopState), current, []))
    ensures ev.kind == RejectEvent ==>
      ConfirmWork(Some(ev), current, step) ==
        if ev.reason == BoardStopped then Ok(Transition(Some(StopState), current, []))
        else Err(LogicError(UnexpectedRejectMessage))
  {
  }

  lemma CellTable(target: Coordinate, current: Coordinate, ev: Event)
    ensures CellWork(target, None, current) ==
      Ok(Transition(Some(WaitForConfirmStep), current, [CancelMoveFigure(target)]))
    ensures ev.kind == StopEvent ==>
      CellWork(target, Some(ev), current) ==
        Ok(Transition(Some(StopState), current, [CancelMoveFigure(target), RemoveFigure]))
    ensures ev.kind in {PlacedEvent, MovedEvent} ==>
      CellWork(target, Some(ev), current) == Ok(Transition(Some(NextStepState), ev.to, []))
    ensures ev.kind == RemoveEvent || IsBoardStoppedReject(ev) ==>
      CellWork(target, Some(ev), current) == Ok(Transition(Some(StopState), current, []))
    ensures ev.kind == RejectEvent && ev.reason != BoardStopped ==>
      CellWork(target, Some(ev), current) == Err(LogicError(UnexpectedRejectMessage))
    ensures ev.kind in {CancelMovedEvent, WaitingForCellEvent} ==>
      CellWork(target, Some(ev), current) == Err(LogicError(UnexpectedCellEventMessage))
  {
  }

  lemma NextStepTable(current: Coordinate, step: Coordinate, ev: Event)
    ensures NextStepWork(None, current, step) == Ok(Transition(Some(WaitForConfirmStep), current, [MoveFigure(step)]))
    ensures ev.kind == StopEvent || IsBoardStoppedReject(ev) ==>
      NextStepWork(Some(ev), current, step) == Ok(Transition(Some(StopState), current, [RemoveFigure]))
    ensures !(ev.kind == StopEvent || IsBoardStoppedReject(ev)) ==>
      NextStepWork(Some(ev), current, step) == Err(LogicError(UnexpectedNextStepMessage))
  {
  }

  /** The terminal state: no next state, no request, no change, whatever
      arrives; its wait period is zero. */
  lemma StopTable(e: Option<Event>, current: Coordinate, step: Coordinate)
    ensures DoWork(StopState, e, current, step) == Ok(Transition(None, current, []))
    ensures IsStop(StopState) && StopWaitPeriod == 0
  {
  }

  // ---------------------------------------------------------------------
  // Properties across the states

  /** StopState is the only state whose stop() holds, and the only one
      whose doWork ends the machine. */
  lemma OnlyStopIsTerminal(s: State, e: Option<Event>, current: Coordinate, step: Coordinate)
    ensures IsStop(s) <==> s == StopState
    ensures DoWork(s, e, current, step).Ok? && DoWork(s, e, current, step).value.next.None? <==> s == StopState
  {
  }

  /** A `boardStopped` rejection stops every live state without error. */
  lemma BoardStoppedStops(s: State, current: Coordinate, step: Coordinate, to: Coordinate)
    requires s != StopState
    ensures var r := DoWork(s, Some(Event(RejectEvent, to, BoardStopped)), current, step);
      r.Ok? && r.value.next == Some(StopState)
  {
  }

  /** Any other rejection reason, `empty` included, is a logic error in a
      live state. */
  lemma OtherRejectsThrow(s: State, current: Coordinate, step: Coordinate, to: Coordinate, reason: ReasonReject)
    requires s != StopState && reason != BoardStopped
    ensures DoWork(s, Some(Event(RejectEvent, to, reason)), current, step).Err?
  {
  }

  /** A `stop` event always ends in StopState, and the piece is taken off
      the board by the last request (NextStep and the states that may
      hold a square ask for it). */
  lemma StopEventStops(s: State, current: Coordinate, step: Coordinate, to: Coordinate, reason: ReasonReject)
    requires s != StopState
    ensures var r := DoWork(s, Some(Event(StopEvent, to, reason)), current, step);
      && r.Ok? && r.value.next == Some(StopState)
      && |r.value.requests| > 0 && r.value.requests[|r.value.requests| - 1] == RemoveFigure
  {
  }

  /** Every transition issues at most two requests; a removal is always
      the last one and always leads to StopState; every move goes to the
      generated step; only WaitForCell cancels, and only its own target. */
  lemma RequestsShape(s: State, e: Option<Event>, current: Coordinate, step: Coordinate)
    ensures var r := DoWork(s, e, current, step);
      r.Ok? ==>
        && |r.value.requests| <= 2
        && (forall k :: 0 <= k < |r.value.requests| && r.value.requests[k] == RemoveFigure ==>
              k == |r.value.requests| - 1 && r.value.next == Some(StopState))
        && (forall k :: 0 <= k < |r.value.requests| && r.value.requests[k].MoveFigure? ==>
              r.value.requests[k].to == step)
        && (forall k :: 0 <= k < |r.value.requests| && r.value.requests[k].CancelMoveFigure? ==>
              s.WaitForCellStep? && r.value.requests[k].to == s.toCoordinate)
  {
  }

  /** The piece's coordinate changes only on a `placed` or `moved` event,
      to that event's square, and the machine then goes to NextStep;
      NextStep itself never changes it. */
  lemma CoordinateOnlyFromConfirmation(s: State, e: Option<Event>, current: Coordinate, step: Coordinate)
    ensures var r := DoWork(s, e, current, step);
      r.Ok? && r.value.coordinate != current ==>
        && e.Some? && e.value.kind in {PlacedEvent, MovedEvent}
        && r.value.coordinate == e.value.to
        && r.value.next == Some(NextStepState)
    ensures var r := DoWork(NextStepState, e, current, step);
      r.Ok? ==> r.value.coordinate == current
  {
  }

  // ---------------------------------------------------------------------
  // Runs

  /** Where a run of doWork calls ended: the last state (`None` once
      StopState has answered), the coordinate, all requests in order, and
      the error if one was thrown. */
  datatype Run = Run(state: Option<State>, coordinate: Coordinate, requests: seq<Request>, error: Option<LogicError>)

  /** Feeds the inputs to the states one after another; `steps[k]` is the
      step the rules generate at the `k`th call. The run stops at the
      null state or at the first error. */
  function Play(s: State, inputs: seq<Option<Event>>, current: Coordinate, steps: seq<Coordinate>): Run
    requires |steps| == |inputs|
    decreases |inputs|
  {
    if inputs == [] then Run(Some(s), current, [], None)
    else match DoWork(s, inputs[0], current, steps[0])
      case Err(err) => Run(Some(s), current, [], Some(err))
      case Ok(t) =>
        if t.next.None? then Run(None, t.coordinate, t.requests, None)
        else
          var rest := Play(t.next.value, inputs[1..], t.coordinate, steps[1..]);
          Run(rest.state, rest.coordinate, t.requests + rest.requests, rest.error)
  }

  /** The coordinates a run may set: the `to` of each `placed` or `moved`
      input. */
  predicate Confirmed(inputs: seq<Option<Event>>, c: Coordinate) {
    exists k :: 0 <= k < |inputs| && inputs[k].Some? && inputs[k].value.kind in {PlacedEvent, MovedEvent} &&
                inputs[k].value.to == c
  }

  /** Once in StopState a run issues nothing more, keeps the coordinate
      and ends there. */
  lemma PlayFromStop(inputs: seq<Option<Event>>, current: Coordinate, steps: seq<Coordinate>)
    requires |steps| == |inputs|
    ensures var r := Play(StopState, inputs, current, steps);
      r.requests == [] && r.coordinate == current && r.error.None? &&
      r.state == (if inputs == [] then Some(StopState) else None)
  {
  }

  /** Along any run the piece's coordinate is the starting one or the
      square of some `placed`/`moved` event; a removal is only ever the
      last request of a run, and the run then ends in StopState or in the
      null state that follows it, without error. */
  lemma {:induction false} PlayInvariant(s: State, inputs: seq<Option<Event>>, current: Coordinate, steps: seq<Coordinate>)
    requires |steps| == |inputs|
    ensures var r := Play(s, inputs, current, steps);
      && (r.coordinate == current || Confirmed(inputs, r.coordinate))
      && (forall k :: 0 <= k < |r.requests| && r.requests[k] == RemoveFigure ==>
            && k == |r.requests| - 1 && r.error.None?
            && (r.state.None? || r.state == Some(StopState)))
    decreases |inputs|
  {
    if inputs != [] {
      var w := DoWork(s, inputs[0], current, steps[0]);
      RequestsShape(s, inputs[0], current, steps[0]);
      CoordinateOnlyFromConfirmation(s, inputs[0], current, steps[0]);
      if w.Ok? && w.value.next.Some? {
        var t := w.value;
        PlayInvariant(t.next.value, inputs[1..], t.coordinate, steps[1..]);
        var rest := Play(t.next.value, inputs[1..], t.coordinate, steps[1..]);
        var r := Play(s, inputs, current, steps);
        assert r.requests == t.requests + rest.requests;
        if rest.coordinate != current {
          if Confirmed(inputs[1..], rest.coordinate) {
            var k :| 0 <= k < |inputs[1..]| && inputs[1..][k].Some? &&
              inputs[1..][k].value.kind in {PlacedEvent, MovedEvent} && inputs[1..][k].value.to == rest.coordinate;
            assert inputs[k + 1] == inputs[1..][k];
          } else {
            assert rest.coordinate == t.coordinate;
          }
        }
        forall k | 0 <= k < |r.requests| && r.requests[k] == RemoveFigure
          ensures k == |r.requests| - 1 && r.error.None? && (r.state.None? || r.state == Some(StopState))
        {
          if k < |t.requests| {
            assert t.requests[k] == RemoveFigure;
            PlayFromStop(inputs[1..], t.coordinate, steps[1..]);
          } else {
            assert rest.requests[k - |t.requests|] == RemoveFigure;
          }
        }
      }
    }
  }
}
