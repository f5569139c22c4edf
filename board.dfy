/** The board's arbitration, as functions on values. The board is a square
    grid of cells; each cell holds an occupant id (or `EmptyCell`) and a
    FIFO list of waiters, each an id with the notifier that asked. Requests
    become tasks that are processed one at a time; processing a task
    changes at most the cells it names and calls back notifiers, which the
    model records as a sequence of notifications.

    A notifier is a handle; the notifiers still alive when a task or a
    waiter is looked at form the set `live`. */
module Board {
  import opened Common

  /** Side of the square grid. */
  const SizeBoard: int := 8

  /** The occupant id of a free cell. */
  const EmptyCell: int := 0

  predicate InBounds(c: Coordinate) {
    0 <= c.x < SizeBoard && 0 <= c.y < SizeBoard
  }

  /** Every square of the board. */
  function Squares(): (r: set<Coordinate>)
    ensures forall c :: c in r <==> InBounds(c)
  {
    assert forall c :: InBounds(c) ==> c == Coordinate(c.x, c.y);
    set x, y | 0 <= x < SizeBoard && 0 <= y < SizeBoard :: Coordinate(x, y)
  }

  type Notifier = nat

  /** An entry of a cell's wait list. */
  datatype Waiter = Waiter(id: int, notifier: Notifier)

  datatype Cell = Cell(occupant: int, waiters: seq<Waiter>)

  const FreeCell: Cell := Cell(EmptyCell, [])

  datatype TaskKind = Place | Move | Remove

  /** A queued request: the piece's id, its coordinate when it asked, the
      target (the default coordinate for a removal) and its notifier. */
  datatype Task = Task(kind: TaskKind, id: int, from: Coordinate, to: Coordinate, notifier: Notifier)

  /** A callback of the notifier interface, with the arguments the board passes. */
  datatype BoardEvent =
    | Placed(id: int, to: Coordinate)
    | Moved(id: int, to: Coordinate)
    | WaitingForCell(id: int, to: Coordinate)
    | Removed(id: int, from: Coordinate)
    | Rejected(id: int)

  /** One callback: which notifier was called with what. */
  datatype Notification = Notification(notifier: Notifier, event: BoardEvent)

  type Grid = map<Coordinate, Cell>

  /** The grid has a cell for every square and nothing else. */
  ghost predicate Complete(g: Grid) {
    forall c :: c in g <==> InBounds(c)
  }

  /** The squares a task reads; they must be on the board. */
  predicate Addressable(t: Task) {
    match t.kind
    case Place => InBounds(t.to)
    case Move => InBounds(t.from) && InBounds(t.to)
    case Remove => InBounds(t.from)
  }

  /** The squares a task may change. */
  function Touched(t: Task): set<Coordinate> {
    match t.kind
    case Place => {t.to}
    case Move => {t.from, t.to}
    case Remove => {t.from}
  }

  /** The grid after a task and the callbacks it made, in order. */
  datatype Outcome = Outcome(grid: Grid, notes: seq<Notification>)

  /** `cell` with `w` appended to the back of its wait list. */
  function Enlist(cell: Cell, w: Waiter): Cell {
    cell.(waiters := cell.waiters + [w])
  }

  /** Promotion into a freed cell (do_check_waiting): waiters whose
      notifier is gone are dropped from the front; the first live one
      becomes the occupant, is told it moved there, and leaves the list. */
  function PromoteCell(cell: Cell, at: Coordinate, live: set<Notifier>): (r: (Cell, seq<Notification>))
    ensures |r.1| <= 1
    ensures |r.0.waiters| <= |cell.waiters|
    ensures r.0.waiters == cell.waiters[|cell.waiters| - |r.0.waiters|..]
    ensures r.1 == [] <==> forall k :: 0 <= k < |cell.waiters| ==> cell.waiters[k].notifier !in live
    ensures r.1 == [] ==> r.0 == Cell(cell.occupant, [])
    decreases |cell.waiters|
  {
    if cell.waiters == [] then (cell, [])
    else
      var w := cell.waiters[0];
      if w.notifier in live then
        (Cell(w.id, cell.waiters[1..]), [Notification(w.notifier, Moved(w.id, at))])
      else
        PromoteCell(cell.(waiters := cell.waiters[1..]), at, live)
  }

  /** Runs promotion on the cell at `at`. */
  function CheckWaiting(g: Grid, at: Coordinate, live: set<Notifier>): (r: Outcome)
    requires at in g
  {
    var p := PromoteCell(g[at], at, live);
    Outcome(g[at := p.0], p.1)
  }

  /** do_place: an empty target is taken, an occupied one is waited for. */
  function DoPlace(g: Grid, id: int, to: Coordinate, n: Notifier): Outcome
    requires to in g
  {
    if g[to].occupant == EmptyCell then
      Outcome(g[to := g[to].(occupant := id)], [Notification(n, Placed(id, to))])
    else
      Outcome(g[to := Enlist(g[to], Waiter(id, n))], [Notification(n, WaitingForCell(id, to))])
  }

  /** do_move: only the occupant of `from` may move; into an empty target
      it moves at once and `from` is offered to its waiters, into an
      occupied one it waits. */
  function DoMove(g: Grid, id: int, from: Coordinate, to: Coordinate, n: Notifier, live: set<Notifier>): Outcome
    requires from in g && to in g
  {
    if g[from].occupant != id then
      Outcome(g, [Notification(n, Rejected(id))])
    else if g[to].occupant == EmptyCell then
      var vacated := g[from := g[from].(occupant := EmptyCell)];
      var taken := vacated[to := vacated[to].(occupant := id)];
      var p := CheckWaiting(taken, from, live);
      Outcome(p.grid, [Notification(n, Moved(id, to))] + p.notes)
    else
      Outcome(g[to := Enlist(g[to], Waiter(id, n))], [Notification(n, WaitingForCell(id, to))])
  }

  /** do_remove: only the occupant may leave; the cell is then offered to
      its waiters. */
  function DoRemove(g: Grid, id: int, from: Coordinate, n: Notifier, live: set<Notifier>): Outcome
    requires from in g
  {
    if g[from].occupant == id then
      var p := CheckWaiting(g[from := g[from].(occupant := EmptyCell)], from, live);
      Outcome(p.grid, [Notification(n, Removed(id, from))] + p.notes)
    else
      Outcome(g, [Notification(n, Rejected(id))])
  }

  /** do_task: a task whose notifier is gone is dropped; otherwise it is
      dispatched on its kind. */
  function Step(g: Grid, t: Task, live: set<Notifier>): Outcome
    requires Complete(g)
    requires t.notifier in live ==> Addressable(t)
  {
    if t.notifier !in live then Outcome(g, [])
    else match t.kind
      case Place => DoPlace(g, t.id, t.to, t.notifier)
      case Move => DoMove(g, t.id, t.from, t.to, t.notifier, live)
      case Remove => DoRemove(g, t.id, t.from, t.notifier, live)
  }

  predicate AllAddressable(ts: seq<Task>, live: set<Notifier>) {
    forall k :: 0 <= k < |ts| ==> ts[k].notifier in live ==> Addressable(ts[k])
  }

  /** The tasks processed front to back (the drain of the task list). */
  function Run(g: Grid, ts: seq<Task>, live: set<Notifier>): Outcome
    requires Complete(g) && AllAddressable(ts, live)
    decreases |ts|
  {
    if ts == [] then Outcome(g, [])
    else
      StepKeepsComplete(g, ts[0], live);
      var first := Step(g, ts[0], live);
      var rest := Run(first.grid, ts[1..], live);
      Outcome(rest.grid, first.notes + rest.notes)
  }

  // ---------------------------------------------------------------------
  // Promotion

  /** FIFO fairness: the first waiter whose notifier is alive gets the
      cell and a `moved` callback; it and everything before it leave the
      list, everything after it stays in order. */
  lemma {:induction false} PromoteGrantsFirstLive(cell: Cell, at: Coordinate, live: set<Notifier>, k: nat)
    requires k < |cell.waiters| && cell.waiters[k].notifier in live
    requires forall j :: 0 <= j < k ==> cell.waiters[j].notifier !in live
    ensures PromoteCell(cell, at, live) ==
      (Cell(cell.waiters[k].id, cell.waiters[k + 1..]),
       [Notification(cell.waiters[k].notifier, Moved(cell.waiters[k].id, at))])
    decreases k
  {
    if k > 0 {
      var rest := cell.(waiters := cell.waiters[1..]);
      assert rest.waiters[k - 1] == cell.waiters[k];
      assert rest.waiters[k..] == cell.waiters[k + 1..];
      PromoteGrantsFirstLive(rest, at, live, k - 1);
    }
  }

  /** When no waiter is alive, the list is emptied, the occupant is kept
      and nobody is called. */
  lemma PromoteWithoutLiveWaiter(cell: Cell, at: Coordinate, live: set<Notifier>)
    requires forall j :: 0 <= j < |cell.waiters| ==> cell.waiters[j].notifier !in live
    ensures PromoteCell(cell, at, live) == (Cell(cell.occupant, []), [])
  {
  }

  /** A promotion gives the cell to a waiter that was on its list. */
  lemma {:induction false} PromoteGrantsAWaiter(cell: Cell, at: Coordinate, live: set<Notifier>)
    requires PromoteCell(cell, at, live).1 != []
    ensures exists k :: 0 <= k < |cell.waiters| && cell.waiters[k].notifier in live &&
                        PromoteCell(cell, at, live).0.occupant == cell.waiters[k].id
    decreases |cell.waiters|
  {
    var w := cell.waiters[0];
    if w.notifier !in live {
      var rest := cell.(waiters := cell.waiters[1..]);
      PromoteGrantsAWaiter(rest, at, live);
      var k :| 0 <= k < |rest.waiters| && rest.waiters[k].notifier in live &&
        PromoteCell(rest, at, live).0.occupant == rest.waiters[k].id;
      assert cell.waiters[k + 1] == rest.waiters[k];
    }
  }

  // ---------------------------------------------------------------------
  // One task

  lemma StepKeepsComplete(g: Grid, t: Task, live: set<Notifier>)
    requires Complete(g)
    requires t.notifier in live ==> Addressable(t)
    ensures Complete(Step(g, t, live).grid)
  {
  }

  /** Only the named cells change: every other square keeps its cell. */
  lemma StepChangesOnlyTouched(g: Grid, t: Task, live: set<Notifier>, c: Coordinate)
    requires Complete(g)
    requires t.notifier in live ==> Addressable(t)
    requires c in g && c !in Touched(t)
    ensures c in Step(g, t, live).grid && Step(g, t, live).grid[c] == g[c]
  {
  }

  /** A task whose notifier is gone changes nothing and calls nobody. */
  lemma StepDropsDeadTask(g: Grid, t: Task, live: set<Notifier>)
    requires Complete(g)
    requires t.notifier !in live
    ensures Step(g, t, live) == Outcome(g, [])
  {
  }

  /** Placing onto an empty square makes `id` its occupant and calls back
      `placed`; onto an occupied square it keeps the occupant, appends the
      id to the back of the wait list and calls back `waitingForCell`.
      The placement does not check whether `id` is already on the board. */
  lemma PlaceOutcome(g: Grid, id: int, at: Coordinate, to: Coordinate, n: Notifier, live: set<Notifier>)
    requires Complete(g) && InBounds(to) && n in live
    ensures var r := Step(g, Task(Place, id, at, to, n), live);
      && Complete(r.grid)
      && (g[to].occupant == EmptyCell ==>
            r.grid[to] == Cell(id, g[to].waiters) && r.notes == [Notification(n, Placed(id, to))])
      && (g[to].occupant != EmptyCell ==>
            r.grid[to] == Cell(g[to].occupant, g[to].waiters + [Waiter(id, n)]) &&
            r.notes == [Notification(n, WaitingForCell(id, to))])
  {
  }

  /** A move by anyone but the occupant of `from` is rejected with
      nothing changed. */
  lemma MoveByNonOccupant(g: Grid, id: int, from: Coordinate, to: Coordinate, n: Notifier, live: set<Notifier>)
    requires Complete(g) && InBounds(from) && InBounds(to) && n in live
    requires g[from].occupant != id
    ensures Step(g, Task(Move, id, from, to, n), live) == Outcome(g, [Notification(n, Rejected(id))])
  {
  }

  /** A move into an empty square: `to` gets the id, `from` is emptied and
      promoted, and the mover hears `moved` before anyone promoted does. */
  lemma MoveIntoEmpty(g: Grid, id: int, from: Coordinate, to: Coordinate, n: Notifier, live: set<Notifier>)
    requires Complete(g) && InBounds(from) && InBounds(to) && n in live
    requires g[from].occupant == id && g[to].occupant == EmptyCell
    ensures id != EmptyCell ==> from != to
    ensures var r := Step(g, Task(Move, id, from, to, n), live);
      var p := PromoteCell(Cell(EmptyCell, g[from].waiters), from, live);
      && (from != to ==> r.grid[to] == Cell(id, g[to].waiters))
      && r.grid[from] == p.0
      && r.notes == [Notification(n, Moved(id, to))] + p.1
  {
  }

  /** A move into an occupied square only appends the mover to that
      square's wait list; `from` keeps its occupant. */
  lemma MoveIntoOccupied(g: Grid, id: int, from: Coordinate, to: Coordinate, n: Notifier, live: set<Notifier>)
    requires Complete(g) && InBounds(from) && InBounds(to) && n in live
    requires g[from].occupant == id && g[to].occupant != EmptyCell
    ensures var r := Step(g, Task(Move, id, from, to, n), live);
      && r.grid == g[to := Cell(g[to].occupant, g[to].waiters + [Waiter(id, n)])]
      && r.notes == [Notification(n, WaitingForCell(id, to))]
  {
  }

  /** A removal by the occupant empties the square, calls back `removed`
      and then promotes; by anyone else it is rejected with nothing changed. */
  lemma RemoveOutcome(g: Grid, id: int, from: Coordinate, n: Notifier, live: set<Notifier>)
    requires Complete(g) && InBounds(from) && n in live
    ensures var r := Step(g, Task(Remove, id, from, DefaultCoordinate, n), live);
      var p := PromoteCell(Cell(EmptyCell, g[from].waiters), from, live);
      && (g[from].occupant == id ==>
            r.grid == g[from := p.0] && r.notes == [Notification(n, Removed(id, from))] + p.1)
      && (g[from].occupant != id ==>
            r == Outcome(g, [Notification(n, Rejected(id))]))
  {
  }

  // ---------------------------------------------------------------------
  // A free cell never keeps waiters

  /** Every free cell has an empty wait list, and no waiter carries the
      empty id. */
  predicate NoStrandedWaiters(g: Grid) {
    forall c :: c in g ==>
      (g[c].occupant == EmptyCell ==> g[c].waiters == []) &&
      (forall k :: 0 <= k < |g[c].waiters| ==> g[c].waiters[k].id != EmptyCell)
  }

  lemma PromotePreservesWaiterIds(cell: Cell, at: Coordinate, live: set<Notifier>)
    requires forall k :: 0 <= k < |cell.waiters| ==> cell.waiters[k].id != EmptyCell
    ensures var r := PromoteCell(cell, at, live).0;
      (forall k :: 0 <= k < |r.waiters| ==> r.waiters[k].id != EmptyCell) &&
      (r.occupant == EmptyCell ==> r.waiters == [])
  {
    var r := PromoteCell(cell, at, live);
    if r.1 != [] {
      PromoteGrantsAWaiter(cell, at, live);
    }
    var d := |cell.waiters| - |r.0.waiters|;
    forall k | 0 <= k < |r.0.waiters| ensures r.0.waiters[k].id != EmptyCell {
      assert r.0.waiters[k] == cell.waiters[d + k];
    }
  }

  /** A task from a real piece (id not `EmptyCell`) never leaves a free
      cell with someone waiting for it. */
  lemma StepKeepsNoStrandedWaiters(g: Grid, t: Task, live: set<Notifier>)
    requires Complete(g) && NoStrandedWaiters(g)
    requires t.notifier in live ==> Addressable(t)
    requires t.id != EmptyCell
    ensures NoStrandedWaiters(Step(g, t, live).grid)
  {
    if t.notifier in live {
      match t.kind
      case Place =>
      case Move =>
        if g[t.from].occupant == t.id && g[t.to].occupant == EmptyCell {
          PromotePreservesWaiterIds(Cell(EmptyCell, g[t.from].waiters), t.from, live);
        }
      case Remove =>
        if g[t.from].occupant == t.id {
          PromotePreservesWaiterIds(Cell(EmptyCell, g[t.from].waiters), t.from, live);
        }
    }
  }

  /** The same over a whole drain. */
  lemma {:induction false} RunKeepsNoStrandedWaiters(g: Grid, ts: seq<Task>, live: set<Notifier>)
    requires Complete(g) && NoStrandedWaiters(g) && AllAddressable(ts, live)
    requires forall k :: 0 <= k < |ts| ==> ts[k].id != EmptyCell
    ensures Complete(Run(g, ts, live).grid) && NoStrandedWaiters(Run(g, ts, live).grid)
  {
    if ts != [] {
      StepKeepsComplete(g, ts[0], live);
      StepKeepsNoStrandedWaiters(g, ts[0], live);
      RunKeepsNoStrandedWaiters(Step(g, ts[0], live).grid, ts[1..], live);
    }
  }

  // ---------------------------------------------------------------------
  // The drain

  /** Draining `a` then `b` is draining `a + b`: tasks are handled strictly
      in arrival order. */
  lemma {:induction false} RunConcat(g: Grid, a: seq<Task>, b: seq<Task>, live: set<Notifier>)
    requires Complete(g) && AllAddressable(a, live) && AllAddressable(b, live)
    ensures AllAddressable(a + b, live)
    ensures Complete(Run(g, a, live).grid)
    ensures var ra := Run(g, a, live); var rb := Run(ra.grid, b, live);
      Run(g, a + b, live) == Outcome(rb.grid, ra.notes + rb.notes)
  {
    assert AllAddressable(a + b, live) by {
      forall k | 0 <= k < |a + b| ensures (a + b)[k].notifier in live ==> Addressable((a + b)[k]) {
        if k < |a| { assert (a + b)[k] == a[k]; } else { assert (a + b)[k] == b[k - |a|]; }
      }
    }
    if a == [] {
      assert a + b == b;
    } else {
      StepKeepsComplete(g, a[0], live);
      var s := Step(g, a[0], live);
      assert (a + b)[1..] == a[1..] + b;
      RunConcat(s.grid, a[1..], b, live);
    }
  }

  /** Handling one more task after a drain. */
  lemma RunSnoc(g: Grid, done: seq<Task>, t: Task, live: set<Notifier>)
    requires Complete(g) && AllAddressable(done, live) && (t.notifier in live ==> Addressable(t))
    ensures AllAddressable(done + [t], live) && Complete(Run(g, done, live).grid)
    ensures var r := Run(g, done, live); var s := Step(r.grid, t, live);
      Run(g, done + [t], live) == Outcome(s.grid, r.notes + s.notes)
  {
    RunConcat(g, done, [t], live);
    var r := Run(g, done, live);
    StepKeepsComplete(r.grid, t, live);
    assert [t][1..] == [];
  }

  /** A drain is its first step followed by the drain of the rest. */
  lemma RunCons(g: Grid, ts: seq<Task>, live: set<Notifier>)
    requires Complete(g) && AllAddressable(ts, live) && ts != []
    ensures ts[0].notifier in live ==> Addressable(ts[0])
    ensures Complete(Step(g, ts[0], live).grid) && AllAddressable(ts[1..], live)
    ensures var s := Step(g, ts[0], live); var r := Run(s.grid, ts[1..], live);
      Run(g, ts, live) == Outcome(r.grid, s.notes + r.notes)
  {
    AllAddressableSplit(ts, live);
    StepKeepsComplete(g, ts[0], live);
  }

  /** The tail of a list of addressable tasks is addressable. */
  lemma AllAddressableSplit(ts: seq<Task>, live: set<Notifier>)
    requires ts != [] && AllAddressable(ts, live)
    ensures ts[0].notifier in live ==> Addressable(ts[0])
    ensures AllAddressable(ts[1..], live)
  {
    assert forall k :: 0 <= k < |ts[1..]| ==> ts[1..][k] == ts[k + 1];
  }

  /** Every grid a drain produces is complete. */
  lemma {:induction false} RunKeepsComplete(g: Grid, ts: seq<Task>, live: set<Notifier>)
    requires Complete(g) && AllAddressable(ts, live)
    ensures Complete(Run(g, ts, live).grid)
  {
    if ts != [] {
      StepKeepsComplete(g, ts[0], live);
      RunKeepsComplete(Step(g, ts[0], live).grid, ts[1..], live);
    }
  }

  // ---------------------------------------------------------------------
  // Stopping

  /** The rejections for queued tasks whose notifier is alive, in order. */
  function TaskRejects(ts: seq<Task>, live: set<Notifier>): seq<Notification> {
    if ts == [] then []
    else
      var head := if ts[0].notifier in live then [Notification(ts[0].notifier, Rejected(ts[0].id))] else [];
      head + TaskRejects(ts[1..], live)
  }

  /** The rejections for a wait list's live entries, in order. */
  function WaiterRejects(ws: seq<Waiter>, live: set<Notifier>): seq<Notification> {
    if ws == [] then []
    else
      var head := if ws[0].notifier in live then [Notification(ws[0].notifier, Rejected(ws[0].id))] else [];
      head + WaiterRejects(ws[1..], live)
  }

  /** The wait-list rejections of row `x`'s first `y` cells. */
  function RowRejects(g: Grid, x: int, y: nat, live: set<Notifier>): seq<Notification>
    requires Complete(g) && 0 <= x < SizeBoard && y <= SizeBoard
  {
    if y == 0 then [] else RowRejects(g, x, y - 1, live) + WaiterRejects(g[Coordinate(x, y - 1)].waiters, live)
  }

  /** The wait-list rejections of the first `x` rows, row by row. */
  function GridRejects(g: Grid, x: nat, live: set<Notifier>): seq<Notification>
    requires Complete(g) && x <= SizeBoard
  {
    if x == 0 then [] else GridRejects(g, x - 1, live) + RowRejects(g, x - 1, SizeBoard, live)
  }

  /** Rejecting `a` then `b` is rejecting `a + b`. */
  lemma {:induction false} TaskRejectsAppend(a: seq<Task>, b: seq<Task>, live: set<Notifier>)
    ensures TaskRejects(a + b, live) == TaskRejects(a, live) + TaskRejects(b, live)
  {
    if a == [] {
      assert a + b == b;
    } else {
      assert (a + b)[1..] == a[1..] + b;
      TaskRejectsAppend(a[1..], b, live);
    }
  }

  /** The indices of the queued tasks whose notifier is alive. */
  function LiveTasks(ts: seq<Task>, live: set<Notifier>): set<int> {
    set k | 0 <= k < |ts| && ts[k].notifier in live
  }

  /** Stopping rejects exactly the queued tasks whose notifier is alive:
      one rejection per such task, each a `reject` to a live notifier. */
  lemma {:induction false} TaskRejectsCount(ts: seq<Task>, live: set<Notifier>)
    ensures |TaskRejects(ts, live)| == |LiveTasks(ts, live)|
    ensures forall j :: 0 <= j < |TaskRejects(ts, live)| ==>
      TaskRejects(ts, live)[j].event.Rejected? && TaskRejects(ts, live)[j].notifier in live
    decreases |ts|
  {
    if ts != [] {
      var n := |ts| - 1;
      var init := ts[..n];
      assert ts == init + [ts[n]];
      TaskRejectsAppend(init, [ts[n]], live);
      TaskRejectsCount(init, live);
      assert [ts[n]][1..] == [];
      var prev := LiveTasks(init, live);
      forall k | 0 <= k < n ensures (k in LiveTasks(ts, live)) == (k in prev) {
        assert init[k] == ts[k];
      }
      if ts[n].notifier in live {
        assert LiveTasks(ts, live) == prev + {n};
      } else {
        assert LiveTasks(ts, live) == prev;
      }
    }
  }

  // ---------------------------------------------------------------------
  // Scenarios


  const EmptyGrid: Grid := map c | c in Squares() :: FreeCell

  lemma EmptyGridIsComplete()
    ensures Complete(EmptyGrid) && NoStrandedWaiters(EmptyGrid)
    ensures forall c :: c in EmptyGrid ==> EmptyGrid[c] == FreeCell
  {
  }

  /** Two pieces placed on one square: the first gets it, the second waits;
      when the first leaves, the second is promoted with a `moved` callback. */
  lemma PlaceContendRemoveScenario()
    ensures var c := Coordinate(5, 5);
      var ts := [Task(Place, 10, UnplacedCoordinate, c, 1), Task(Place, 20, UnplacedCoordinate, c, 2),
                 Task(Remove, 10, c, DefaultCoordinate, 1)];
      Complete(EmptyGrid) && AllAddressable(ts, {1, 2}) &&
      Run(EmptyGrid, ts, {1, 2}) == Outcome(EmptyGrid[c := Cell(20, [])],
        [Notification(1, Placed(10, c)), Notification(2, WaitingForCell(20, c)),
         Notification(1, Removed(10, c)), Notification(2, Moved(20, c))])
  {
    EmptyGridIsComplete();
    var c := Coordinate(5, 5);
    var live: set<Notifier> := {1, 2};
    var t0, t1, t2 := Task(Place, 10, UnplacedCoordinate, c, 1), Task(Place, 20, UnplacedCoordinate, c, 2),
                      Task(Remove, 10, c, DefaultCoordinate, 1);
    var ts := [t0, t1, t2];
    assert InBounds(c);
    var g1 := EmptyGrid[c := Cell(10, [])];
    var g2 := EmptyGrid[c := Cell(10, [Waiter(20, 2)])];
    var g3 := EmptyGrid[c := Cell(20, [])];
    assert Step(EmptyGrid, t0, live) == Outcome(g1, [Notification(1, Placed(10, c))]);
    assert [] + [Waiter(20, 2)] == [Waiter(20, 2)];
    assert g1[c := Enlist(g1[c], Waiter(20, 2))] == g2;
    assert Step(g1, t1, live) == Outcome(g2, [Notification(2, WaitingForCell(20, c))]);
    assert g2[c := g2[c].(occupant := EmptyCell)][c := Cell(20, [])] == g3;
    assert Step(g2, t2, live) ==
      Outcome(g3, [Notification(1, Removed(10, c)), Notification(2, Moved(20, c))]);
    assert ts[1..] == [t1, t2] && ts[1..][1..] == [t2] && ts[1..][1..][1..] == [];
    assert Run(g2, [t2], live) ==
      Outcome(g3, [Notification(1, Removed(10, c)), Notification(2, Moved(20, c))]);
  }

  /** Promotion does not empty the promoted piece's old square: after it,
      the same id occupies two cells. */
  lemma PromotionLeavesOriginOccupied()
    ensures var a := Coordinate(0, 0); var b := Coordinate(1, 0);
      var ts := [Task(Place, 1, UnplacedCoordinate, a, 1), Task(Place, 2, UnplacedCoordinate, b, 2),
                 Task(Move, 2, b, a, 2), Task(Remove, 1, a, DefaultCoordinate, 1)];
      Complete(EmptyGrid) && AllAddressable(ts, {1, 2}) &&
      var r := Run(EmptyGrid, ts, {1, 2});
      a in r.grid && b in r.grid && r.grid[a].occupant == 2 && r.grid[b].occupant == 2
  {
    EmptyGridIsComplete();
    var a, b := Coordinate(0, 0), Coordinate(1, 0);
    var live: set<Notifier> := {1, 2};
    var t0, t1, t2, t3 := Task(Place, 1, UnplacedCoordinate, a, 1), Task(Place, 2, UnplacedCoordinate, b, 2),
                          Task(Move, 2, b, a, 2), Task(Remove, 1, a, DefaultCoordinate, 1);
    var ts := [t0, t1, t2, t3];
    assert InBounds(a) && InBounds(b);
    var g1 := EmptyGrid[a := Cell(1, [])];
    var g2 := g1[b := Cell(2, [])];
    var g3 := g2[a := Cell(1, [Waiter(2, 2)])];
    var g4 := g3[a := Cell(2, [])];
    assert Step(EmptyGrid, t0, live).grid == g1;
    assert Step(g1, t1, live).grid == g2;
    assert [] + [Waiter(2, 2)] == [Waiter(2, 2)];
    assert Step(g2, t2, live).grid == g3;
    assert g3[a := g3[a].(occupant := EmptyCell)][a := Cell(2, [])] == g4;
    assert Step(g3, t3, live).grid == g4;
    assert ts[1..] == [t1, t2, t3] && ts[1..][1..] == [t2, t3] && ts[1..][1..][1..] == [t3];
    assert [t3][1..] == [];
    assert Run(g3, [t3], live).grid == g4;
    assert Run(g2, [t2, t3], live).grid == g4;
    assert Run(g1, [t1, t2, t3], live).grid == g4;
  }

  /** Two pieces moving onto each other's squares both wait, and nothing
      is promoted: each waits until the other leaves its square
      (`CrossingResolvedByRemoval`). */
  lemma CrossingMovesBothWait()
    ensures var a := Coordinate(0, 0); var b := Coordinate(5, 5);
      var ts := [Task(Place, 1, UnplacedCoordinate, a, 1), Task(Place, 2, UnplacedCoordinate, b, 2),
                 Task(Move, 1, a, b, 1), Task(Move, 2, b, a, 2)];
      Complete(EmptyGrid) && AllAddressable(ts, {1, 2}) &&
      Run(EmptyGrid, ts, {1, 2}) == Outcome(
        EmptyGrid[a := Cell(1, [Waiter(2, 2)])][b := Cell(2, [Waiter(1, 1)])],
        [Notification(1, Placed(1, a)), Notification(2, Placed(2, b)),
         Notification(1, WaitingForCell(1, b)), Notification(2, WaitingForCell(2, a))])
  {
    EmptyGridIsComplete();
    var a, b := Coordinate(0, 0), Coordinate(5, 5);
    var live: set<Notifier> := {1, 2};
    var t0, t1, t2, t3 := Task(Place, 1, UnplacedCoordinate, a, 1), Task(Place, 2, UnplacedCoordinate, b, 2),
                          Task(Move, 1, a, b, 1), Task(Move, 2, b, a, 2);
    var ts := [t0, t1, t2, t3];
    assert InBounds(a) && InBounds(b);
    var g1 := EmptyGrid[a := Cell(1, [])];
    var g2 := g1[b := Cell(2, [])];
    var g3 := g2[b := Cell(2, [Waiter(1, 1)])];
    var g4 := g3[a := Cell(1, [Waiter(2, 2)])];
    assert g4 == EmptyGrid[a := Cell(1, [Waiter(2, 2)])][b := Cell(2, [Waiter(1, 1)])];
    assert Step(EmptyGrid, t0, live) == Outcome(g1, [Notification(1, Placed(1, a))]);
    assert Step(g1, t1, live) == Outcome(g2, [Notification(2, Placed(2, b))]);
    assert [] + [Waiter(1, 1)] == [Waiter(1, 1)] && [] + [Waiter(2, 2)] == [Waiter(2, 2)];
    assert Step(g2, t2, live) == Outcome(g3, [Notification(1, WaitingForCell(1, b))]);
    assert Step(g3, t3, live) == Outcome(g4, [Notification(2, WaitingForCell(2, a))]);
    assert ts[1..] == [t1, t2, t3] && ts[1..][1..] == [t2, t3] && ts[1..][1..][1..] == [t3];
    assert [t3][1..] == [];
    assert Run(g3, [t3], live) == Outcome(g4, [Notification(2, WaitingForCell(2, a))]);
    assert Run(g2, [t2, t3], live) ==
      Outcome(g4, [Notification(1, WaitingForCell(1, b)), Notification(2, WaitingForCell(2, a))]);
  }

  /** The crossing above ends as soon as one of the two pieces leaves: when
      piece 1 is removed from `a`, its waiter, piece 2, is promoted there. */
  lemma CrossingResolvedByRemoval()
    ensures var a := Coordinate(0, 0); var b := Coordinate(5, 5);
      var g := EmptyGrid[a := Cell(1, [Waiter(2, 2)])][b := Cell(2, [Waiter(1, 1)])];
      Complete(g) &&
      Step(g, Task(Remove, 1, a, DefaultCoordinate, 1), {1, 2}) == Outcome(
        g[a := Cell(2, [])],
        [Notification(1, Removed(1, a)), Notification(2, Moved(2, a))])
  {
    EmptyGridIsComplete();
    var a, b := Coordinate(0, 0), Coordinate(5, 5);
    assert InBounds(a) && InBounds(b);
    var g := EmptyGrid[a := Cell(1, [Waiter(2, 2)])][b := Cell(2, [Waiter(1, 1)])];
    var freed := g[a := g[a].(occupant := EmptyCell)];
    assert PromoteCell(freed[a], a, {1, 2}) == (Cell(2, []), [Notification(2, Moved(2, a))]);
    assert freed[a := Cell(2, [])] == g[a := Cell(2, [])];
  }
}
