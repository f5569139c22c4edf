/** The board as an object (ChessBoardImpl): an 8 x 8 array of cells, the
    FIFO list of pending tasks and the stop flag. Requests append tasks;
    the worker drains them in order, each step doing exactly what
    `Board.Step` says; stopping rejects everything still pending.
    The callbacks the board makes are recorded, in order, in `notes`. */
module BoardActor {
  import opened Common
  import opened Board
  import Pieces

  /** `o` with `prefix` put before its notifications. */
  function Combine(prefix: seq<Notification>, o: Outcome): Outcome {
    Outcome(o.grid, prefix + o.notes)
  }

  lemma CombineAssoc(a: seq<Notification>, b: seq<Notification>, o: Outcome)
    ensures Combine(a, Combine(b, o)) == Combine(a + b, o)
  {
    assert a + (b + o.notes) == (a + b) + o.notes;
  }

  class ChessBoard {
    const grid: array2<Cell>
    var tasks: seq<Task>
    var stopped: bool
    var notes: seq<Notification>

    ghost predicate Valid() {
      grid.Length0 == SizeBoard && grid.Length1 == SizeBoard
    }

    /** The grid as a value: the cell at `(x, y)` is `grid[x, y]`. */
    ghost function Cells(): (r: Grid)
      requires Valid()
      reads grid
      ensures Complete(r)
    {
      map c | c in Squares() :: grid[c.x, c.y]
    }

    /** An empty board that is not stopped and has nothing pending. */
    constructor ()
      ensures Valid() && fresh(grid)
      ensures Cells() == EmptyGrid
      ensures tasks == [] && !stopped && notes == []
    {
      grid := new Cell[SizeBoard, SizeBoard]((x, y) => FreeCell);
      tasks := [];
      stopped := false;
      notes := [];
      new;
      EmptyGridIsComplete();
    }

    /** placeFigure: refused once stopped; otherwise queues a placement
        carrying the figure's id and current coordinate. */
    method PlaceFigure(figure: Pieces.ChessMan, to: Coordinate, n: Notifier) returns (accepted: bool)
      modifies this
      ensures accepted == !old(stopped)
      ensures tasks == if accepted
        then old(tasks) + [Task(Place, figure.GetID(), figure.GetCurrentCoordinate(), to, n)]
        else old(tasks)
      ensures stopped == old(stopped) && notes == old(notes)
    {
      if stopped {
        return false;
      }
      tasks := tasks + [Task(Place, figure.GetID(), figure.GetCurrentCoordinate(), to, n)];
      accepted := true;
    }

    /** moveFigure: as placeFigure, with a move task. */
    method MoveFigure(figure: Pieces.ChessMan, to: Coordinate, n: Notifier) returns (accepted: bool)
      modifies this
      ensures accepted == !old(stopped)
      ensures tasks == if accepted
        then old(tasks) + [Task(Move, figure.GetID(), figure.GetCurrentCoordinate(), to, n)]
        else old(tasks)
      ensures stopped == old(stopped) && notes == old(notes)
    {
      if stopped {
        return false;
      }
      tasks := tasks + [Task(Move, figure.GetID(), figure.GetCurrentCoordinate(), to, n)];
      accepted := true;
    }

    /** removeFigure: as placeFigure, with a removal whose target is the
        default coordinate. */
    method RemoveFigure(figure: Pieces.ChessMan, n: Notifier) returns (accepted: bool)
      modifies this
      ensures accepted == !old(stopped)
      ensures tasks == if accepted
        then old(tasks) + [Task(Remove, figure.GetID(), figure.GetCurrentCoordinate(), DefaultCoordinate, n)]
        else old(tasks)
      ensures stopped == old(stopped) && notes == old(notes)
    {
      if stopped {
        return false;
      }
      tasks := tasks + [Task(Remove, figure.GetID(), figure.GetCurrentCoordinate(), DefaultCoordinate, n)];
      accepted := true;
    }

    /** stop: every later request is refused. */
    method Stop()
      modifies this
      ensures stopped && tasks == old(tasks) && notes == old(notes)
    {
      stopped := true;
    }

    /** do_check_waiting: pops waiters from the front of the cell at `at`
        until one whose notifier is alive has been given the cell. */
    method DoCheckWaiting(at: Coordinate, live: set<Notifier>)
      requires Valid() && InBounds(at)
      modifies this, grid
      ensures Valid()
      ensures Cells() == CheckWaiting(old(Cells()), at, live).grid
      ensures notes == old(notes) + CheckWaiting(old(Cells()), at, live).notes
      ensures tasks == old(tasks) && stopped == old(stopped)
    {
      ghost var start := grid[at.x, at.y];
      ghost var emitted: seq<Notification> := [];
      var flag := true;
      while grid[at.x, at.y].waiters != [] && flag
        invariant notes == old(notes) + emitted
        invariant tasks == old(tasks) && stopped == old(stopped)
        invariant forall x, y :: 0 <= x < SizeBoard && 0 <= y < SizeBoard && (x != at.x || y != at.y) ==>
          grid[x, y] == old(grid[x, y])
        invariant flag ==> emitted == [] && PromoteCell(grid[at.x, at.y], at, live) == PromoteCell(start, at, live)
        invariant !flag ==> PromoteCell(start, at, live) == (grid[at.x, at.y], emitted)
        decreases |grid[at.x, at.y].waiters|, flag
      {
        ghost var cur := grid[at.x, at.y];
        var w := grid[at.x, at.y].waiters[0];
        if w.notifier in live {
          assert PromoteCell(cur, at, live) == (Cell(w.id, cur.waiters[1..]), [Notification(w.notifier, Moved(w.id, at))]);
          grid[at.x, at.y] := grid[at.x, at.y].(occupant := w.id);
          notes := notes + [Notification(w.notifier, Moved(w.id, at))];
          emitted := emitted + [Notification(w.notifier, Moved(w.id, at))];
          assert emitted == [Notification(w.notifier, Moved(w.id, at))];
          flag := false;
        }
        grid[at.x, at.y] := grid[at.x, at.y].(waiters := grid[at.x, at.y].waiters[1..]);
      }
      assert Cells() == old(Cells())[at := grid[at.x, at.y]];
    }

    /** do_place. */
    method DoPlace(id: int, to: Coordinate, n: Notifier)
      requires Valid() && InBounds(to)
      modifies this, grid
      ensures Valid()
      ensures Cells() == Board.DoPlace(old(Cells()), id, to, n).grid
      ensures notes == old(notes) + Board.DoPlace(old(Cells()), id, to, n).notes
      ensures tasks == old(tasks) && stopped == old(stopped)
    {
      var cell := grid[to.x, to.y];
      if cell.occupant == EmptyCell {
        grid[to.x, to.y] := cell.(occupant := id);
        notes := notes + [Notification(n, Placed(id, to))];
      } else {
        grid[to.x, to.y] := Enlist(cell, Waiter(id, n));
        notes := notes + [Notification(n, WaitingForCell(id, to))];
      }
      assert Cells() == old(Cells())[to := grid[to.x, to.y]];
    }

    /** do_move: both cells are looked up first; only the occupant of
        `from` may move. */
    method DoMove(id: int, from: Coordinate, to: Coordinate, n: Notifier, live: set<Notifier>)
      requires Valid() && InBounds(from) && InBounds(to)
      modifies this, grid
      ensures Valid()
      ensures Cells() == Board.DoMove(old(Cells()), id, from, to, n, live).grid
      ensures notes == old(notes) + Board.DoMove(old(Cells()), id, from, to, n, live).notes
      ensures tasks == old(tasks) && stopped == old(stopped)
    {
      if grid[from.x, from.y].occupant != id {
        notes := notes + [Notification(n, Rejected(id))];
        return;
      }
      if grid[to.x, to.y].occupant == EmptyCell {
        ghost var g0 := Cells();
        grid[from.x, from.y] := grid[from.x, from.y].(occupant := EmptyCell);
        ghost var vacated := Cells();
        assert vacated == g0[from := g0[from].(occupant := EmptyCell)];
        grid[to.x, to.y] := grid[to.x, to.y].(occupant := id);
        assert Cells() == vacated[to := vacated[to].(occupant := id)];
        notes := notes + [Notification(n, Moved(id, to))];
        DoCheckWaiting(from, live);
      } else {
        grid[to.x, to.y] := Enlist(grid[to.x, to.y], Waiter(id, n));
        notes := notes + [Notification(n, WaitingForCell(id, to))];
        assert Cells() == old(Cells())[to := grid[to.x, to.y]];
      }
    }

    /** do_remove: only the occupant may leave; the freed cell is then
        offered to its waiters. */
    method DoRemove(id: int, from: Coordinate, n: Notifier, live: set<Notifier>)
      requires Valid() && InBounds(from)
      modifies this, grid
      ensures Valid()
      ensures Cells() == Board.DoRemove(old(Cells()), id, from, n, live).grid
      ensures notes == old(notes) + Board.DoRemove(old(Cells()), id, from, n, live).notes
      ensures tasks == old(tasks) && stopped == old(stopped)
    {
      if grid[from.x, from.y].occupant == id {
        grid[from.x, from.y] := grid[from.x, from.y].(occupant := EmptyCell);
        assert Cells() == old(Cells())[from := old(Cells())[from].(occupant := EmptyCell)];
        notes := notes + [Notification(n, Removed(id, from))];
        DoCheckWaiting(from, live);
      } else {
        notes := notes + [Notification(n, Rejected(id))];
      }
    }

    /** do_task: drops the task when its notifier is gone, else dispatches. */
    method DoTask(t: Task, live: set<Notifier>)
      requires Valid() && (t.notifier in live ==> Addressable(t))
      modifies this, grid
      ensures Valid()
      ensures Cells() == Step(old(Cells()), t, live).grid
      ensures notes == old(notes) + Step(old(Cells()), t, live).notes
      ensures tasks == old(tasks) && stopped == old(stopped)
    {
      if t.notifier !in live {
        return;
      }
      match t.kind
      case Place => DoPlace(t.id, t.to, t.notifier);
      case Move => DoMove(t.id, t.from, t.to, t.notifier, live);
      case Remove => DoRemove(t.id, t.from, t.notifier, live);
    }

    /** One iteration of the worker's inner loop: the front task is
        handled and popped. What is still to come, put after what has been
        said, is what was to come before. */
    method HandleFront(live: set<Notifier>)
      requires Valid() && AllAddressable(tasks, live) && tasks != []
      modifies this, grid
      ensures Valid() && stopped == old(stopped)
      ensures tasks == old(tasks)[1..] && AllAddressable(tasks, live)
      ensures Combine(notes, Run(Cells(), tasks, live)) == Combine(old(notes), Run(old(Cells()), old(tasks), live))
    {
      ghost var before := Cells();
      RunCons(before, tasks, live);
      ghost var s := Step(before, tasks[0], live);
      DoTask(tasks[0], live);
      tasks := tasks[1..];
      CombineAssoc(old(notes), s.notes, Run(s.grid, tasks, live));
    }

    /** The inner loop of the worker: handles the pending tasks from the
        front, one at a time, until none is left. */
    method Drain(live: set<Notifier>)
      requires Valid() && AllAddressable(tasks, live)
      modifies this, grid
      ensures Valid() && stopped == old(stopped) && tasks == []
      ensures Cells() == Run(old(Cells()), old(tasks), live).grid
      ensures notes == old(notes) + Run(old(Cells()), old(tasks), live).notes
    {
      while tasks != []
        invariant Valid() && stopped == old(stopped) && AllAddressable(tasks, live)
        invariant Combine(notes, Run(Cells(), tasks, live)) == Combine(old(notes), Run(old(Cells()), old(tasks), live))
        decreases |tasks|
      {
        HandleFront(live);
      }
      assert notes + [] == notes;
    }

    /** One pass of the worker loop: unless stopped, drains the pending
        tasks. */
    method Loop(live: set<Notifier>)
      requires Valid() && AllAddressable(tasks, live)
      modifies this, grid
      ensures Valid() && stopped == old(stopped)
      ensures old(stopped) ==> Cells() == old(Cells()) && tasks == old(tasks) && notes == old(notes)
      ensures !old(stopped) ==>
        && tasks == []
        && Cells() == Run(old(Cells()), old(tasks), live).grid
        && notes == old(notes) + Run(old(Cells()), old(tasks), live).notes
    {
      if !stopped {
        Drain(live);
      }
    }

    /** The first half of onStop: each pending task whose notifier is
        alive is rejected, in order, and the list is emptied. */
    method RejectTasks(live: set<Notifier>)
      modifies this
      ensures tasks == [] && stopped == old(stopped)
      ensures notes == old(notes) + TaskRejects(old(tasks), live)
    {
      while tasks != []
        invariant notes + TaskRejects(tasks, live) == old(notes) + TaskRejects(old(tasks), live)
        invariant stopped == old(stopped)
        decreases |tasks|
      {
        var t := tasks[0];
        if t.notifier in live {
          notes := notes + [Notification(t.notifier, Rejected(t.id))];
        }
        tasks := tasks[1..];
      }
    }

    /** Rejects each entry of a wait list whose notifier is alive. */
    method RejectWaiters(ws: seq<Waiter>, live: set<Notifier>)
      modifies this
      ensures tasks == old(tasks) && stopped == old(stopped)
      ensures notes == old(notes) + WaiterRejects(ws, live)
    {
      for k := 0 to |ws|
        invariant notes + WaiterRejects(ws[k..], live) == old(notes) + WaiterRejects(ws, live)
        invariant tasks == old(tasks) && stopped == old(stopped)
      {
        assert ws[k..][1..] == ws[k + 1..];
        if ws[k].notifier in live {
          notes := notes + [Notification(ws[k].notifier, Rejected(ws[k].id))];
        }
      }
      assert ws[|ws|..] == [];
    }

    /** Rejects the live waiters of every cell of row `x`, in order. */
    method RejectRow(x: int, live: set<Notifier>)
      requires Valid() && 0 <= x < SizeBoard
      modifies this
      ensures tasks == old(tasks) && stopped == old(stopped)
      ensures notes == old(notes) + RowRejects(Cells(), x, SizeBoard, live)
    {
      ghost var g := Cells();
      for y := 0 to SizeBoard
        invariant notes == old(notes) + RowRejects(g, x, y, live)
        invariant tasks == old(tasks) && stopped == old(stopped)
      {
        assert g[Coordinate(x, y)] == grid[x, y];
        RejectWaiters(grid[x, y].waiters, live);
      }
    }

    /** onStop: the pending tasks are rejected and dropped, then every
        live waiter of every cell is rejected, row by row. The wait lists
        are left as they are. */
    method OnStop(live: set<Notifier>)
      requires Valid()
      modifies this
      ensures tasks == [] && stopped == old(stopped) && Cells() == old(Cells())
      ensures notes == old(notes) + TaskRejects(old(tasks), live) + GridRejects(Cells(), SizeBoard, live)
    {
      RejectTasks(live);
      ghost var afterTasks := notes;
      for x := 0 to SizeBoard
        invariant notes == afterTasks + GridRejects(Cells(), x, live)
        invariant tasks == [] && stopped == old(stopped)
      {
        RejectRow(x, live);
      }
    }
  }
}
