# Rooks on a shared board — a Dafny model

The program is a small game. Several rook players share one 8 x 8 board.
The board is an object with its own worker. Players do not change the
board directly: they queue requests to place, move or remove a piece. The
worker handles the requests in arrival order. Each answer goes back through
the requester's notifier as a callback: `placed`, `moved`,
`waitingForCell`, `removed` or `reject`. A request for an occupied square
waits in that square's FIFO wait list. When the square is freed, the first
waiter whose notifier is still alive gets it. Stopping the board rejects
every pending request and every live waiter.

Each player is a state machine whose states react to those callbacks. The
movement rules say which squares a rook may go to and generate its next
step by rejection sampling. A logger queues the callbacks and prints one
line per callback.

The project has one module per component:

- `Common` (`common.dfy`): coordinates, piece kinds, rejection reasons,
  `Option` and `Result`.
- `Pieces` (`pieces.dfy`): the two piece classes. Each has a setter for
  the current coordinate.
- `Rules` (`rules.dfy`): the step check and the step generator.
  - The generator is a loop over the draws it is given.
  - The two rule sets share one definition, parameterised by their
    inclusive coordinate bound.
  - `Rules` also holds the 32-bit id counter.
- `PlaceTypes` (`place_types.dfy`): comparing what a square holds with a
  kind of piece, and `to_enum`.
- `Board` (`board.dfy`): the board's behaviour as functions on values.
  - `Grid` maps each square to a `Cell`, which holds an occupant id and a
    wait list. `Step` handles one task and `Run` handles a list of tasks.
  - `PromoteCell` hands a freed cell to its first live waiter.
  - Lemmas cover FIFO fairness, that only the named cells change, the
    shape of each task's result, a waiter invariant, draining in order,
    and stopping.
- `BoardActor` (`board_actor.dfy`): the board object.
  - It holds an `array2<Cell>`, the task list, the stop flag and the
    callbacks made so far.
  - Each method is proved to leave the array equal to what the `Board`
    function of the old state gives (the array is read through the ghost
    `Cells()` view).
- `Participant` (`participant.dfy`): the four states of the newer
  participant as functions from an event to a transition or a logic
  error. Lemmas about runs of them are included.
- `LegacyStates` (`legacy_states.dfy`): the two states built on the older
  synchronous board.
- `Logging` (`logging.dfy`): the text formatters of both logging files,
  the line `print` writes, and the `Logger` class.
  - The `Logger` holds its queue, its wake reason and an output string.

Explicit modelling choices:

- **Notifiers.** A notifier is a number. The notifiers whose object is
  still alive form the set `live`. A weak pointer that fails to lock is a
  notifier not in `live`.
- **Randomness.** Random draws are inputs.
  - The generator gets the direction bit and the sequence of values the
    step distribution yields.
  - A participant state gets the step the rules generate.
  - The older `WaitNextStep` state gets the drawn time and the wake-up
    reason.
- **Output.** Output streams are strings that grow. Board callbacks are a
  sequence of `Notification`s.
- **Integers.** Ids that the source keeps in 32 bits are reduced modulo
  2^32 where they wrap (`Rules.IdCounter`) and typed `u32` in the logger.
  The rank printed for a coordinate is reduced modulo 2^32, as the cast
  does. The file letter is the low byte of `'A' + x`.

The board code relies on values that are not among the files modelled.
The model fixes them as follows:

- `SIZE_BOARD` is 8 and `sEmptyCell` is 0.
- `getCell(c)` is the cell at `[c.x][c.y]`.
- A default-constructed `Coordinate` is (0, 0), and `invalidCoordinate` is
  (-1, -1).
- Both rule sets test `coordinate >= 0 && coordinate <= bound`, comparing
  a coordinate with a number. No operator for that comparison is defined
  among the files modelled. The model reads it component by component:
  both components must lie in `[0, bound]` (`Rules.WithinBound`).
- The board's requests read the piece's id. The interface the requests
  take (`IChessMan`) declares no id, and the rook class has none. The model
  passes a `Pieces.ChessMan` and reads its id with `GetID`.

Where the design notes and the code disagree, the model follows the code:

- The board never sends `duplicateId` or `incorrectCoordinate`
  rejections, and has no cancel task.
- Its `reject` callback carries no reason.
- A request from a square off the board is outside the model: the
  precondition `Addressable` excludes it. The source does not check such
  squares either: it passes them to `getCell` unchecked. The only
  placement call among the files, src/ParticipantGame.cpp:49, places a
  fresh piece at the step generated from (-1, -1). `Rules.ProposalFromUnplaced`
  proves that square is always off the board, so that call always falls
  outside `Addressable`.
- Promotion of a waiting mover only sets the freed cell's occupant. A wait
  entry does not record where the mover came from, so the mover's old
  square stays occupied (`Board.PromotionLeavesOriginOccupied`).
- Two pieces moving onto each other's squares both wait until one of them
  leaves its square (`Board.CrossingMovesBothWait`). Removing piece 1
  hands its square to piece 2 (`Board.CrossingResolvedByRemoval`).
- The logger's callbacks take a `from` coordinate and a reason. The
  board's callbacks have different arguments (`moved(id, to)`,
  `waitingForCell(id, to)`, `reject(id)`). The two are modelled
  separately, each with the parameters its own code has.

## Model

| member | source | states |
|---|---|---|
| Pieces.ChessMan.constructor | src/ChessManImpl.cpp:3-10 | a new piece has the given id and kind and the unplaced coordinate (-1, -1) |
| Pieces.ChessMan.SetCurrentCoordinate | src/ChessManImpl.cpp:27-30 | afterwards the getter returns the coordinate set; id and kind cannot change |
| Pieces.ChessRook.constructor | src/ChessRookImpl.cpp:3-10 | a new rook has the given name, kind rook and coordinate (-1, -1) |
| Pieces.ChessRook.SetCurrentCoordinate | src/ChessRookImpl.cpp:27-30 | afterwards the getter returns the coordinate set; name and kind cannot change |
| Pieces.ChessMan.GetType | src/ChessManImpl.cpp:12-15 | the kind given at construction |
| Pieces.ChessMan.GetID | src/ChessManImpl.cpp:17-20 | the id given at construction |
| Pieces.ChessMan.GetCurrentCoordinate | src/ChessManImpl.cpp:22-25 | the coordinate last set (the constructor's (-1, -1) before any) |
| Pieces.ChessRook.Type | src/ChessRookImpl.cpp:12-15 | always rook |
| Pieces.ChessRook.Name | src/ChessRookImpl.cpp:17-20 | the name given at construction |
| Pieces.ChessRook.GetCurrentCoordinate | src/ChessRookImpl.cpp:22-25 | the coordinate last set (the constructor's (-1, -1) before any) |
| Rules.CheckStepWithin | src/GameRulesImpl.cpp:12-23 | the shared step check: a rook may go to another square, within `[0, bound]` on both axes, on its file or rank; other kinds may go nowhere (its meaning is proved in `Rules.CheckStepMeaning`) |
| Rules.CheckStep | src/GameRules.cpp:6-17 | the static check, with the inclusive bound 8 |
| Rules.GameRulesImpl.CheckStep | src/GameRulesImpl.cpp:12-23 | the configurable check, with the stored bound |
| Rules.Proposal | src/GameRules.cpp:19-50 | the generated step as a value of the direction bit and the draws: the default coordinate for a non-rook, none when every draw is zero, otherwise the chosen axis moved by the first non-zero draw |
| Rules.FirstNonZero | src/GameRules.cpp:32-34 | the delta the retry loop settles on is a non-zero value among the draws; there is none exactly when every draw is zero |
| Rules.GenerateStepWithin | src/GameRulesImpl.cpp:25-54 | the do-while retry loop returns exactly `Proposal`: the default coordinate for a non-rook, otherwise the current square moved along the chosen axis by the first non-zero draw |
| Rules.GenerateStep | src/GameRules.cpp:19-50 | the static generator is `Proposal` with the inclusive bound 8 |
| Rules.ProposalMovesOneAxis | src/GameRules.cpp:28-46 | a rook's proposal changes exactly the axis the direction bit selects, by a non-zero amount |
| Rules.ProposalStaysWithinBound | src/GameRulesImpl.cpp:34-49 | with draws from `[-c, bound - c]` the changed component lands in `[0, bound]`, so a square within the bound yields one within it |
| Rules.ProposalPassesCheckStep | src/GameRulesImpl.cpp:12-54 | every proposal from a square within the bound passes checkStep |
| Rules.ProposalNeedsNonZeroDraw | src/GameRules.cpp:31-34 | a step is produced exactly when some draw is non-zero |
| Rules.NonRookRules | src/GameRules.cpp:6-24 | a piece that is not a rook gets the default coordinate and never passes the check |
| Rules.CheckStepMeaning | src/GameRules.cpp:6-17 | the check refuses staying put, and accepts exactly the in-bound squares on the same file or rank |
| Rules.CheckStepTestExamples | test/testGameRules.cpp:7-16 | from (0,0): (5,0) and (0,2) accepted, (0,0), (1,2) and (6,6) refused |
| Rules.GenerateStepTestStartOutsideBound | test/testGameRules.cpp:18-27 | from (10,7) a proposal along y keeps x = 10 and fails the check the test expects to pass |
| Rules.ProposalFromUnplaced | src/GameRules.cpp:27-46 | from (-1,-1) one component stays -1, so the first proposal for an unplaced piece is off the board |
| Rules.GameRulesLeavesBoard | src/GameRules.cpp:13-30 | the static rules generate and accept (8,0), which is off the 8 x 8 board |
| Rules.GameRulesImplStaysOnBoard | src/GameRulesImpl.cpp:4-54 | with the bound size - 1, every accepted and every generated step is on the board |
| Rules.GameRulesImpl.constructor | src/GameRulesImpl.cpp:4-10 | the stored bound is the given size minus one |
| Rules.GameRulesImpl.GenerateStep | src/GameRulesImpl.cpp:25-54 | the configurable generator is `Proposal` with the stored bound |
| Rules.IssuedIdsCount | src/GameRules.cpp:52-56 | until the counter wraps, the k-th id is k |
| Rules.IdCounter.constructor | src/GameRules.cpp:54 | the counter starts at 0 with nothing issued |
| Rules.IdCounter.GenerateId | src/GameRules.cpp:52-56 | pre-increment modulo 2^32: the id is the old value plus one, appended to the ids issued, and larger than the last until the wrap |
| Rules.IdCounter.MakeChessMan | src/GameRules.cpp:58-61 | a fresh, unplaced piece of the given kind carrying the next id |
| PlaceTypes.PlaceMatches | include/utils.h:5-20 | `==` of a place and a kind: an empty square equals no kind, `occupied_by_rook` exactly rook, `test` exactly test |
| PlaceTypes.PlaceDiffers | include/utils.h:22-25 | `!=` of a place and a kind, as the negation of `==` |
| PlaceTypes.KindMatches | include/utils.h:27-30 | `==` with the kind first, forwarding to the place-first operator |
| PlaceTypes.KindDiffers | include/utils.h:32-35 | `!=` with the kind first, forwarding to the place-first operator |
| PlaceTypes.ToEnum | include/utils.h:42-58 | every kind maps to an occupied place |
| PlaceTypes.PlaceMatchesTable | include/utils.h:5-20 | an empty square equals no kind; `occupied_by_rook` equals exactly rook; `test` exactly test |
| PlaceTypes.OperatorsAgree | include/utils.h:22-35 | `!=` is the negation of `==`, and both agree with their arguments swapped |
| PlaceTypes.ToEnumMatches | include/utils.h:42-58 | a place equals a kind exactly when it is `to_enum` of that kind, so `to_enum(t) == t` |
| PlaceTypes.ToEnumInjective | include/utils.h:42-58 | different kinds map to different places |
| Board.CheckWaiting | src/ChessBoardImpl.cpp:229-247 | the grid with the cell at one square replaced by its promotion, and the promotion's callback |
| Board.DoPlace | src/ChessBoardImpl.cpp:161-177 | placement: an empty target is taken, an occupied one is waited for (outcomes in `Board.PlaceOutcome`) |
| Board.DoMove | src/ChessBoardImpl.cpp:179-208 | a move: refused unless by the occupant of `from`; into an empty target at once, `from` then promoted; into an occupied target by waiting (outcomes in the three `Board.Move…` lemmas) |
| Board.DoRemove | src/ChessBoardImpl.cpp:210-227 | removal: only the occupant may leave, and the square is then promoted (outcomes in `Board.RemoveOutcome`) |
| Board.Step | src/ChessBoardImpl.cpp:140-159 | one task: dropped when its notifier is gone, otherwise dispatched on its kind |
| Board.Run | src/ChessBoardImpl.cpp:80-84 | the tasks handled front to back, grids threaded through and callbacks concatenated in order |
| Board.TaskRejects | src/ChessBoardImpl.cpp:105-110 | the `reject` callbacks stopping sends for pending tasks: one per task with a live notifier, in order |
| Board.WaiterRejects | src/ChessBoardImpl.cpp:115-116 | the `reject` callbacks for one wait list: one per live entry, in order |
| Board.RowRejects | src/ChessBoardImpl.cpp:114-116 | the wait-list rejections of one row, cell by cell |
| Board.GridRejects | src/ChessBoardImpl.cpp:113-116 | the wait-list rejections of the whole board, row by row |
| Board.PromoteCell | src/ChessBoardImpl.cpp:229-247 | at most one callback; the remaining list is a suffix of the old one; nobody is called exactly when no waiter is alive, and then the list is emptied and the occupant kept |
| Board.PromoteGrantsFirstLive | src/ChessBoardImpl.cpp:234-247 | FIFO fairness: the first live waiter becomes the occupant and hears `moved`; it and all before it leave the list, the rest stay in order |
| Board.PromoteWithoutLiveWaiter | src/ChessBoardImpl.cpp:234-247 | with no live waiter the list is emptied, the occupant kept and nobody called |
| Board.PromoteGrantsAWaiter | src/ChessBoardImpl.cpp:237-242 | whoever is promoted was a live waiter of that cell |
| Board.StepKeepsComplete | src/ChessBoardImpl.cpp:140-159 | a task keeps a cell for every square and nothing else |
| Board.StepChangesOnlyTouched | src/ChessBoardImpl.cpp:140-227 | a task changes no cell other than the ones it names |
| Board.StepDropsDeadTask | src/ChessBoardImpl.cpp:142-146 | a task whose notifier is gone changes nothing and calls nobody |
| Board.PlaceOutcome | src/ChessBoardImpl.cpp:161-177 | onto an empty square: occupant set and `placed`; onto an occupied one: occupant kept, the requester appended to the wait list and `waitingForCell` |
| Board.MoveByNonOccupant | src/ChessBoardImpl.cpp:186-192 | a move by anyone but the occupant of `from` is rejected and changes nothing |
| Board.MoveIntoEmpty | src/ChessBoardImpl.cpp:194-201 | `to` gets the id, `from` is emptied and promoted, and the mover's `moved` comes before any promotion callback |
| Board.MoveIntoOccupied | src/ChessBoardImpl.cpp:202-207 | only the target's wait list grows, by the mover at the back; `waitingForCell` |
| Board.RemoveOutcome | src/ChessBoardImpl.cpp:210-227 | the occupant's removal empties and promotes the square after `removed`; anyone else is rejected with nothing changed |
| Board.PromotePreservesWaiterIds | src/ChessBoardImpl.cpp:234-247 | promotion keeps waiter ids non-empty and never leaves a free cell with waiters |
| Board.StepKeepsNoStrandedWaiters | src/ChessBoardImpl.cpp:161-247 | after any task from a real piece no free cell has anyone waiting for it |
| Board.RunKeepsNoStrandedWaiters | src/ChessBoardImpl.cpp:75-90 | the same holds after any number of tasks |
| Board.RunConcat | src/ChessBoardImpl.cpp:80-84 | draining `a` then `b` is draining `a + b`: tasks are handled strictly in arrival order |
| Board.RunSnoc | src/ChessBoardImpl.cpp:80-84 | a drain of one more task is the drain followed by that task's step |
| Board.RunCons | src/ChessBoardImpl.cpp:80-84 | a drain is the front task's step followed by the drain of the rest |
| Board.RunKeepsComplete | src/ChessBoardImpl.cpp:80-84 | every drain keeps a cell for every square |
| Board.TaskRejectsAppend | src/ChessBoardImpl.cpp:105-110 | rejecting two lists one after the other is rejecting their concatenation |
| Board.TaskRejectsCount | src/ChessBoardImpl.cpp:96-110 | stopping rejects exactly the pending tasks whose notifier is alive: one `reject` to a live notifier per such task |
| Board.EmptyGridIsComplete | src/ChessBoardImpl.cpp:15 | the initial board has a free cell with an empty wait list on every square |
| Board.PlaceContendRemoveScenario | src/ChessBoardImpl.cpp:161-247 | place 10 and 20 on one square, remove 10: callbacks placed, waitingForCell, removed, moved, and 20 holds the square |
| Board.PromotionLeavesOriginOccupied | src/ChessBoardImpl.cpp:179-247 | a waiting mover promoted into a freed square still occupies its old square too |
| Board.CrossingMovesBothWait | src/ChessBoardImpl.cpp:202-207 | two pieces moving onto each other's squares both end up waiting, with nothing promoted |
| Board.CrossingResolvedByRemoval | src/ChessBoardImpl.cpp:210-247 | from that crossing, removing piece 1 from its square hands the square to piece 2: callbacks `removed` then `moved` |
| BoardActor.ChessBoard.constructor | src/ChessBoardImpl.cpp:7-18 | an empty board, not stopped, with nothing pending |
| BoardActor.ChessBoard.PlaceFigure | src/ChessBoardImpl.cpp:25-37 | refused exactly when stopped; otherwise one placement task with the piece's id and coordinate is appended |
| BoardActor.ChessBoard.MoveFigure | src/ChessBoardImpl.cpp:39-51 | refused exactly when stopped; otherwise one move task is appended |
| BoardActor.ChessBoard.RemoveFigure | src/ChessBoardImpl.cpp:53-64 | refused exactly when stopped; otherwise one removal task with the default target is appended |
| BoardActor.ChessBoard.Stop | src/ChessBoardImpl.cpp:133-138 | afterwards the board is stopped; nothing else changes |
| BoardActor.ChessBoard.DoCheckWaiting | src/ChessBoardImpl.cpp:229-247 | the loop leaves the cell and the callbacks exactly as `CheckWaiting` says |
| BoardActor.ChessBoard.DoPlace | src/ChessBoardImpl.cpp:161-177 | the array and callbacks become what `Board.DoPlace` gives |
| BoardActor.ChessBoard.DoMove | src/ChessBoardImpl.cpp:179-208 | the array and callbacks become what `Board.DoMove` gives |
| BoardActor.ChessBoard.DoRemove | src/ChessBoardImpl.cpp:210-227 | the array and callbacks become what `Board.DoRemove` gives |
| BoardActor.ChessBoard.DoTask | src/ChessBoardImpl.cpp:140-159 | the array and callbacks become what `Board.Step` gives |
| BoardActor.ChessBoard.HandleFront | src/ChessBoardImpl.cpp:80-84 | handling and popping the front task keeps "callbacks so far, then the drain of what is left" unchanged |
| BoardActor.ChessBoard.Drain | src/ChessBoardImpl.cpp:80-84 | the inner loop empties the task list and leaves the array and callbacks as `Board.Run` of the old state says |
| BoardActor.ChessBoard.Loop | src/ChessBoardImpl.cpp:75-90 | unless stopped, one pass drains every pending task as `Board.Run` says; when stopped nothing changes |
| BoardActor.ChessBoard.RejectTasks | src/ChessBoardImpl.cpp:105-111 | each pending task with a live notifier is rejected, in order, and the list is emptied |
| BoardActor.ChessBoard.RejectWaiters | src/ChessBoardImpl.cpp:115-116 | each live entry of a wait list is rejected, in order |
| BoardActor.ChessBoard.RejectRow | src/ChessBoardImpl.cpp:114-116 | the live waiters of every cell of a row are rejected, cell by cell |
| BoardActor.ChessBoard.OnStop | src/ChessBoardImpl.cpp:92-119 | pending tasks are rejected and dropped, then every live waiter is rejected row by row; the cells are unchanged |
| Participant.ConfirmWork | src/state/WaitForConfirmStep.cpp:22-67 | WaitForConfirmStep's doWork as a transition or a logic error (its whole table is `Participant.ConfirmTable`) |
| Participant.CellWork | src/state/WaitForCellStep.cpp:24-67 | WaitForCellStep's doWork (its whole table is `Participant.CellTable`) |
| Participant.NextStepWork | src/state/NextStepState.cpp:19-37 | NextStepState's doWork (its whole table is `Participant.NextStepTable`) |
| Participant.StopWork | src/state/StopState.cpp:8-11 | StopState's doWork: the null state, no request |
| Participant.DoWork | include/IState.h:19 | the virtual doWork, dispatched on the current state |
| Participant.IsStop | src/state/StopState.cpp:13-15 | stop() holds for StopState and for no other state (WaitForConfirmStep.cpp:69-71, WaitForCellStep.cpp:69-72, NextStepState.cpp:39-41 return false) |
| Participant.ConfirmTable | src/state/WaitForConfirmStep.cpp:22-67 | the full event table of WaitForConfirmStep, including the logic error for every rejection except `boardStopped` |
| Participant.CellTable | src/state/WaitForCellStep.cpp:24-67 | the full event table of WaitForCellStep: a timeout cancels the wait, `stop` cancels then removes, unexpected events throw |
| Participant.NextStepTable | src/state/NextStepState.cpp:19-37 | a timeout moves to the generated step; `stop` or a `boardStopped` rejection removes the piece; anything else throws |
| Participant.StopTable | src/state/StopState.cpp:3-15 | StopState returns the null state whatever arrives, issues nothing, stops, and waits 0 ms |
| Participant.OnlyStopIsTerminal | src/state/StopState.cpp:8-15 | StopState is the only state whose stop() holds and the only one that returns the null state |
| Participant.BoardStoppedStops | src/state/WaitForConfirmStep.cpp:46-50 | a `boardStopped` rejection takes every live state to StopState without error |
| Participant.OtherRejectsThrow | src/state/WaitForConfirmStep.cpp:51-57 | every other rejection reason is a logic error in every live state |
| Participant.StopEventStops | src/state/WaitForCellStep.cpp:30-34 | a `stop` event always ends in StopState with a removal as the last request |
| Participant.RequestsShape | src/state/WaitForCellStep.cpp:29-63 | at most two requests; a removal is last and leads to StopState; moves go to the generated step; only WaitForCell cancels, and only its own target |
| Participant.CoordinateOnlyFromConfirmation | src/state/WaitForConfirmStep.cpp:31-35 | the piece's coordinate changes only on `placed`/`moved`, to that event's square, and the next state is NextStep |
| Participant.PlayFromStop | src/state/StopState.cpp:8-11 | a run from StopState issues nothing and keeps the coordinate |
| Participant.PlayInvariant | src/state/WaitForConfirmStep.cpp:22-67 | along any run the coordinate is the start or a confirmed square; a removal is only ever the run's last request, ending in StopState without error |
| LegacyStates.DoStepWork | src/state/DoStepState.cpp:20-38 | the older DoStep state: one move to the generated step and the next state chosen from the board's answer |
| LegacyStates.WaitNextStepWork | src/state/WaitNextStepState.cpp:14-31 | the older WaitNextStep state: draw a time in [200, 300], sleep that long, and choose the next state from the wake-up reason |
| LegacyStates.DoStepTable | src/state/DoStepState.cpp:20-38 | one move to the generated step; error yields exit, success WaitNextStep, an occupied square WaitBlock, and conversely |
| LegacyStates.WaitNextStepTable | src/state/WaitNextStepState.cpp:14-31 | a random time in [200, 300], a sleep for exactly that time; exit or an external wake-up yields exit, a timeout DoStep |
| LegacyStates.StepCycle | src/state/DoStepState.cpp:29-30 | a successful move and a timed-out sleep come back to DoStep after one move and one sleep |
| Logging.Decimal | src/Logger.cpp:7 | a non-empty string of digits, with a leading zero only for 0 |
| Logging.DecimalRoundTrip | src/Logger.cpp:7 | reading the decimal text back gives the number |
| Logging.DecimalInjective | src/Logger.cpp:7 | different numbers print differently |
| Logging.CoordText | src/Logger.cpp:5-9 | a coordinate's text: the file letter `'A' + x` (its low byte), then the rank as a decimal |
| Logging.CoordTextReadsBack | src/Logger.cpp:5-9 | a coordinate prints as the letter `'A' + x` followed by the decimal y, and both read back |
| Logging.CoordTextInjective | include/utils_log.h:45-49 | different squares print differently |
| Logging.ChessManText | include/utils_log.h:51-59 | a piece's text: `rook[<id>] <coordinate>` for a rook, nothing for any other kind |
| Logging.ChessManTextShape | include/utils_log.h:51-59 | a rook prints as `rook[<id>] <coordinate>`; any other kind prints nothing (the logger's copy at src/Logger.cpp:11-19 prints the same) |
| Logging.TraceSymbol | include/utils_log.h:22-43 | the two-character symbol the console trace prints for each action |
| Logging.Symbol | src/Logger.cpp:21-45 | the two-character symbol the logger prints for each of its six actions |
| Logging.ReasonText | src/Logger.cpp:47-72 | the name a rejection reason prints as, and nothing for `empty` |
| Logging.TraceSymbolsDistinct | include/utils_log.h:22-43 | the five trace symbols are two characters each and pairwise distinct |
| Logging.SymbolsDistinct | src/Logger.cpp:21-45 | the six logger symbols are two characters each and pairwise distinct |
| Logging.ReasonTextDistinct | src/Logger.cpp:47-72 | a reason prints as its name; exactly `empty` prints nothing; no two reasons print alike |
| Logging.PrintAction | src/Logger.cpp:74-78 | `print_action`: `ID:`, each argument after a space, then a newline (shape in `Logging.PrintActionShape`) |
| Logging.Fields | src/Logger.cpp:239-261 | the arguments `print` passes for each action: the origin is shown only when it is not the invalid coordinate |
| Logging.Print | src/Logger.cpp:239-261 | the line printed for one queued entry (cases in `Logging.PrintTable`) |
| Logging.Rendered | src/Logger.cpp:135-142 | the text printed for a queue, front entry first |
| Logging.Enqueue | src/Logger.cpp:169-178 | the shared effect of a callback: unless stopped, the entry goes to the back and the wake reason becomes `print_log` |
| Logging.TraceHelp | include/utils_log.h:14-20 | the console legend, one line per trace symbol |
| Logging.StartBanner | src/Logger.cpp:119-128 | the logger's start text and legend |
| Logging.SpacedAppend | include/utils_log.h:61-66 | one more argument adds a space and that argument at the end |
| Logging.SpacedLength | src/Logger.cpp:77 | the arguments part is one space per argument plus the arguments |
| Logging.PrintActionShape | src/Logger.cpp:74-78 | a line starts with `ID:`, ends with a newline, and has one space per argument besides the arguments |
| Logging.PrintActionThree | src/Logger.cpp:74-78 | a line of three arguments is `ID: a b c` and a newline |
| Logging.PrintActionFour | src/Logger.cpp:74-78 | a line of four arguments is `ID: a b c d` and a newline |
| Logging.PrintTable | src/Logger.cpp:239-261 | `placed` shows the target, `removed` the origin, `reject` the reason; the three moving actions show the origin only when it is not the invalid coordinate |
| Logging.RenderedAppend | src/Logger.cpp:135-142 | printing two queues one after the other prints their concatenation |
| Logging.RenderedFront | src/Logger.cpp:157-161 | printing the front entry and then the rest prints the whole queue |
| Logging.EnqueueGating | src/Logger.cpp:169-178 | unless stopped, a callback appends exactly its entry at the back and asks for printing; once stopped nothing changes |
| Logging.UninitialisedWakeDropsEntries | src/Logger.cpp:80-85 | if the never-set wake reason happens to read as `stop`, every callback is dropped |
| Logging.InitialisedWakeRecords | src/Logger.cpp:80-85 | a logger whose wake reason starts from `fake` records the first callback |
| Logging.TraceHelpListsSymbols | include/utils_log.h:14-20 | the console legend explains exactly the five trace symbols |
| Logging.StartBannerListsSymbols | src/Logger.cpp:119-128 | the logger's legend explains the symbol of each of its six actions |
| Logging.Logger.constructor | src/Logger.cpp:80-85 | an empty queue and output; the wake reason is what was found in memory |
| Logging.Logger.Initialised | src/Logger.cpp:80-85 | an empty queue and output, with the wake reason `fake` |
| Logging.Logger.Log | src/Logger.cpp:169-233 | the shared body of the six callbacks: the queue and wake reason become what `Enqueue` gives; nothing is printed |
| Logging.Logger.NotifyPlaced | src/Logger.cpp:169-178 | enqueues `placed` with the default coordinate as origin |
| Logging.Logger.NotifyMoved | src/Logger.cpp:180-189 | enqueues `moved` with the given origin and target |
| Logging.Logger.NotifyCancelMoved | src/Logger.cpp:191-200 | enqueues `cancelMoved` with the given origin and target |
| Logging.Logger.NotifyRemoved | src/Logger.cpp:202-211 | enqueues `removed` with the default coordinate as target |
| Logging.Logger.NotifyWaitingForCell | src/Logger.cpp:213-222 | enqueues `waitingForCell` with the given origin and target |
| Logging.Logger.NotifyReject | src/Logger.cpp:224-233 | enqueues `reject` with default coordinates and the reason |
| Logging.Logger.StopGame | src/Logger.cpp:106-114 | the wake reason becomes `stop`; queue and output are unchanged |
| Logging.Logger.OnStart | src/Logger.cpp:119-128 | the legend is appended to the output |
| Logging.Logger.Drain | src/Logger.cpp:155-161 | the queue is emptied and every entry printed once, front first |
| Logging.Logger.PrintFront | src/Logger.cpp:157-160 | the front entry is popped and its line appended |
| Logging.Logger.LoopPass | src/Logger.cpp:130-151 | one round of the worker: everything queued is printed in order, then the wake reason becomes `fake` |
| Logging.Logger.OnStop | src/Logger.cpp:153-164 | unless told to exit, whatever is still queued is printed in order; then `Logger stopped.` |

## Left out

- Threads, mutexes, condition variables and the `fake` wake-up handshake
  of both worker loops: every request, callback and drain is a sequential
  method call. The notifier calls made with the lock released are
  therefore not interleaved with other requests.
- BoardActor.ChessBoard.Loop: one call is one pass of the worker's outer
  loop with `live` fixed for that pass. Notifiers dying during a pass are
  not modelled.
- Logging.Logger.LoopPass: the wait on the condition variable, and the
  destructor's `exit` request, are not modelled.
- Two thread-level observations follow from the source, but the model
  cannot show them, since it has no threads:
  - src/ChessBoardImpl.cpp:85 sets the wake reason to `fake` without first
    checking for `stop`. A `stop()` that arrives while the lock is released
    around a callback is therefore overwritten, and the worker waits again.
    The logger's loop has that check (src/Logger.cpp:143-146).
  - The logger's destructor (src/Logger.cpp:87-95) holds its mutex across
    `join()`. Its loop also treats `exit` like any other wake-up, so it
    never leaves, and a logger destroyed without a prior `stopGame` does
    not finish.
- Thread start-up and the start barrier (`onStart` of the board,
  `start`), the thread wrapper, the destructors, and `sizeBoard()` of the
  board.
- `std::mt19937` and `std::random_device`: the draws are parameters.
- Rules.GenerateStepWithin: when the draws run out before a non-zero one,
  it returns `None`. The source would keep drawing.
- The `waitPeriod` of the newer states other than StopState's zero comes
  from delay generators whose code is not part of this model. StopState's
  zero is stated in `Participant.StopTable`.
- Legacy `sleep`/`random` are system calls: their results are
  parameters.
- Participant states: the `std::cerr` "Performance issue" message is left
  out. The pieces the states hold are reduced to their coordinate, and
  board requests are returned as a list rather than called.
- `cancelMoveFigure` and the `WaitBlock` state have no implementation
  among the files modelled. They appear only as a request or a state
  name.
- The older synchronous board interface (`ErrorCode`, `PlaceType` board,
  its `out_of_range` throws) is modelled only through the answers the two
  legacy states switch on.
- `shared_ptr`/`weak_ptr` lifetimes: replaced by the `live` set.
- Game start-up, `main`, and the participant's thread and barrier
  handling: wiring only.
- `Participant.Play` chains state transitions the way a participant's
  thread feeds them. The driver itself is not among the files modelled.
- Ostreams: text is appended to a string, and `std::endl`'s flush is not
  modelled.
- The source's `assert` on an unlisted enumerator cannot happen with the
  closed enumerations of the model.

## Findings

| source | as written | input that shows it | evidently intended | confidence | as-written member | corrected member |
|---|---|---|---|---|---|---|
| src/GameRules.cpp:13 | the static rules bound coordinates by `sizeBoard()` inclusively, and the step distribution at lines 30 and 39 reaches it | a rook at (0,0), direction x, draw 8: the step (8,0) is generated and accepted on an 8 x 8 board | the bound `size - 1`, as src/GameRulesImpl.cpp:7 uses | not executed | Rules.GameRulesLeavesBoard | Rules.GameRulesImplStaysOnBoard |
| test/testGameRules.cpp:18-27 | the generator test places a rook at (10,7), outside the static bound, and expects every generated step to pass `checkStep` | a step along y (direction bit 0, draw 1) from (10,7) is (10,8), which keeps x = 10 and is refused | a start within the bound, from which every step passes (read with the component-wise bound above) | not executed | Rules.GenerateStepTestStartOutsideBound | Rules.ProposalPassesCheckStep |
| src/Logger.cpp:80-85 | the constructor never initialises the wake reason, and every callback reads it at lines 172-233 | a logger whose indeterminate wake reason reads as `stop`: `placed(1, (0,0))` is dropped and never printed | the wake reason starts from a value other than `stop` (here `fake`) | not executed | Logging.UninitialisedWakeDropsEntries | Logging.InitialisedWakeRecords |
