/** Movement rules: whether a rook may go from one square to another, the
    rejection-sampling generator of the next step, and the id counter that
    numbers new pieces. The two rule sets of the program share one
    definition parameterised by the inclusive coordinate bound: the static
    rules use the board size itself, the configurable rules use the size
    minus one. Random draws are inputs: `changeX` is the direction bit and
    `draws` the values the step distribution yields, in order. */
module Rules {
  import opened Common
  import Pieces
  import Board

  /** The board size the static rules report. */
  const RulesSize: int := 8

  /** Ids are 32-bit unsigned and wrap around. */
  const IdModulus: nat := 0x1_0000_0000

  /** Both components lie in `[0, bound]`. */
  predicate WithinBound(c: Coordinate, bound: int) {
    0 <= c.x <= bound && 0 <= c.y <= bound
  }

  /** A legal step for a piece of `kind` from `current` to `candidate`. */
  predicate CheckStepWithin(kind: ChessmanType, current: Coordinate, candidate: Coordinate, bound: int) {
    && kind == Rook
    && current != candidate
    && WithinBound(candidate, bound)
    && (current.x == candidate.x || current.y == candidate.y)
  }

  /** The static rules' check, with the inclusive bound `RulesSize`. */
  predicate CheckStep(kind: ChessmanType, current: Coordinate, candidate: Coordinate) {
    CheckStepWithin(kind, current, candidate, RulesSize)
  }

  /** The delta the retry loop settles on: the first non-zero draw. */
  function FirstNonZero(draws: seq<int>): (r: Option<int>)
    ensures r.Some? ==> r.value != 0 && r.value in draws
    ensures r.None? <==> forall k :: 0 <= k < |draws| ==> draws[k] == 0
  {
    if draws == [] then None
    else if draws[0] != 0 then Some(draws[0])
    else FirstNonZero(draws[1..])
  }

  /** The component the direction bit selects. */
  function Changed(current: Coordinate, changeX: bool): int {
    if changeX then current.x else current.y
  }

  /** The draws respect the step distribution `[-c, bound - c]`, where `c`
      is the component being changed. */
  predicate DistributionDraws(current: Coordinate, bound: int, changeX: bool, draws: seq<int>) {
    forall k :: 0 <= k < |draws| ==>
      0 - Changed(current, changeX) <= draws[k] <= bound - Changed(current, changeX)
  }

  /** What generateStep returns: the default coordinate for a non-rook,
      otherwise the current square moved along one axis by the first
      non-zero draw; `None` when the draws run out before one is non-zero. */
  function Proposal(kind: ChessmanType, current: Coordinate, bound: int, changeX: bool, draws: seq<int>): Option<Coordinate> {
    if kind != Rook then Some(DefaultCoordinate)
    else match FirstNonZero(draws)
      case None => None
      case Some(d) =>
        Some(if changeX then Coordinate(current.x + d, current.y) else Coordinate(current.x, current.y + d))
  }

  /** The do-while retry loop of generateStep. */
  method GenerateStepWithin(kind: ChessmanType, current: Coordinate, bound: int, changeX: bool, draws: seq<int>)
    returns (r: Option<Coordinate>)
    ensures r == Proposal(kind, current, bound, changeX, draws)
  {
    if kind != Rook {
      return Some(DefaultCoordinate);
    }
    var delta := 0;
    var k := 0;
    while delta == 0 && k < |draws|
      invariant 0 <= k <= |draws|
      invariant delta == 0 ==> FirstNonZero(draws[k..]) == FirstNonZero(draws)
      invariant delta != 0 ==> FirstNonZero(draws) == Some(delta)
    {
      assert draws[k..][1..] == draws[k + 1..];
      delta := draws[k];
      k := k + 1;
    }
    if delta == 0 {
      assert draws[k..] == [];
      return None;
    }
    if changeX {
      r := Some(Coordinate(current.x + delta, current.y));
    } else {
      r := Some(Coordinate(current.x, current.y + delta));
    }
  }

  /** GameRules::generateStep. */
  method GenerateStep(kind: ChessmanType, current: Coordinate, changeX: bool, draws: seq<int>)
    returns (r: Option<Coordinate>)
    ensures r == Proposal(kind, current, RulesSize, changeX, draws)
  {
    r := GenerateStepWithin(kind, current, RulesSize, changeX, draws);
  }

  /** A rook's proposal changes exactly the axis the direction bit names,
      by a non-zero amount, and leaves the other one alone. */
  lemma ProposalMovesOneAxis(current: Coordinate, bound: int, changeX: bool, draws: seq<int>, p: Coordinate)
    requires Proposal(Rook, current, bound, changeX, draws) == Some(p)
    ensures changeX ==> p.x != current.x && p.y == current.y
    ensures !changeX ==> p.x == current.x && p.y != current.y
  {
  }

  /** With draws from the distribution the changed component lands in
      `[0, bound]`; from a square within the bound the whole proposal is. */
  lemma ProposalStaysWithinBound(current: Coordinate, bound: int, changeX: bool, draws: seq<int>, p: Coordinate)
    requires DistributionDraws(current, bound, changeX, draws)
    requires Proposal(Rook, current, bound, changeX, draws) == Some(p)
    ensures 0 <= Changed(p, changeX) <= bound
    ensures WithinBound(current, bound) ==> WithinBound(p, bound)
  {
    var d := FirstNonZero(draws).value;
    var k :| 0 <= k < |draws| && draws[k] == d;
  }

  /** Every proposal for a rook on a square within the bound passes the check. */
  lemma ProposalPassesCheckStep(current: Coordinate, bound: int, changeX: bool, draws: seq<int>, p: Coordinate)
    requires WithinBound(current, bound)
    requires DistributionDraws(current, bound, changeX, draws)
    requires Proposal(Rook, current, bound, changeX, draws) == Some(p)
    ensures CheckStepWithin(Rook, current, p, bound)
  {
    ProposalMovesOneAxis(current, bound, changeX, draws, p);
    ProposalStaysWithinBound(current, bound, changeX, draws, p);
  }

  /** The generator consumes draws until one is non-zero: it yields a step
      exactly when some draw is non-zero. */
  lemma ProposalNeedsNonZeroDraw(current: Coordinate, bound: int, changeX: bool, draws: seq<int>)
    ensures Proposal(Rook, current, bound, changeX, draws).Some?
        <==> exists k :: 0 <= k < |draws| && draws[k] != 0
  {
  }

  /** A piece that is not a rook always gets the default coordinate, and
      never passes the check. */
  lemma NonRookRules(kind: ChessmanType, current: Coordinate, candidate: Coordinate, bound: int, changeX: bool, draws: seq<int>)
    requires kind != Rook
    ensures Proposal(kind, current, bound, changeX, draws) == Some(DefaultCoordinate)
    ensures !CheckStepWithin(kind, current, candidate, bound)
  {
  }

  /** The check refuses staying put, and accepts only in-bound squares on
      the same file or rank; conversely every such square is accepted. */
  lemma CheckStepMeaning(current: Coordinate, candidate: Coordinate, bound: int)
    ensures !CheckStepWithin(Rook, current, current, bound)
    ensures CheckStepWithin(Rook, current, candidate, bound) ==>
      WithinBound(candidate, bound) && (current.x == candidate.x || current.y == candidate.y)
    ensures (candidate != current && WithinBound(candidate, bound) &&
             (current.x == candidate.x || current.y == candidate.y))
        ==> CheckStepWithin(Rook, current, candidate, bound)
  {
  }

  /** The accepted and rejected squares from the rules test, from (0,0). */
  lemma CheckStepTestExamples()
    ensures CheckStep(Rook, Coordinate(0, 0), Coordinate(5, 0))
    ensures CheckStep(Rook, Coordinate(0, 0), Coordinate(0, 2))
    ensures !CheckStep(Rook, Coordinate(0, 0), Coordinate(0, 0))
    ensures !CheckStep(Rook, Coordinate(0, 0), Coordinate(1, 2))
    ensures !CheckStep(Rook, Coordinate(0, 0), Coordinate(6, 6))
  {
  }

  /** The generator test starts from (10,7), outside the static bound: a
      proposal along x passes the check, but one along y keeps x = 10 and
      fails it. */
  lemma GenerateStepTestStartOutsideBound()
    ensures DistributionDraws(Coordinate(10, 7), RulesSize, false, [1])
    ensures Proposal(Rook, Coordinate(10, 7), RulesSize, false, [1]) == Some(Coordinate(10, 8))
    ensures !CheckStep(Rook, Coordinate(10, 7), Coordinate(10, 8))
  {
  }

  /** From the coordinate of an unplaced piece one component stays -1, so
      the first proposal for a fresh piece is never on the board. */
  lemma ProposalFromUnplaced(bound: int, changeX: bool, draws: seq<int>, p: Coordinate)
    requires Proposal(Rook, UnplacedCoordinate, bound, changeX, draws) == Some(p)
    ensures p.x == -1 || p.y == -1
    ensures !Board.InBounds(p)
  {
  }

  /** The static rules accept, and can generate, file 8 on the 8 x 8 board. */
  lemma GameRulesLeavesBoard()
    ensures DistributionDraws(Coordinate(0, 0), RulesSize, true, [8])
    ensures Proposal(Rook, Coordinate(0, 0), RulesSize, true, [8]) == Some(Coordinate(8, 0))
    ensures CheckStep(Rook, Coordinate(0, 0), Coordinate(8, 0))
    ensures !Board.InBounds(Coordinate(8, 0))
  {
  }

  /** The configurable rules built for the board's size keep every accepted
      and every generated step on the board. */
  lemma GameRulesImplStaysOnBoard(current: Coordinate, candidate: Coordinate, changeX: bool, draws: seq<int>)
    requires Board.InBounds(current)
    requires DistributionDraws(current, Board.SizeBoard - 1, changeX, draws)
    ensures CheckStepWithin(Rook, current, candidate, Board.SizeBoard - 1) ==> Board.InBounds(candidate)
    ensures Proposal(Rook, current, Board.SizeBoard - 1, changeX, draws).Some? ==>
      var p := Proposal(Rook, current, Board.SizeBoard - 1, changeX, draws).value;
      Board.InBounds(p) && CheckStepWithin(Rook, current, p, Board.SizeBoard - 1)
  {
    if Proposal(Rook, current, Board.SizeBoard - 1, changeX, draws).Some? {
      var p := Proposal(Rook, current, Board.SizeBoard - 1, changeX, draws).value;
      ProposalPassesCheckStep(current, Board.SizeBoard - 1, changeX, draws, p);
    }
  }

  /** The configurable rules (GameRulesImpl): the stored bound is one less
      than the board size given to the constructor. */
  class GameRulesImpl {
    const bound: int

    constructor (sizeBoard: int)
      ensures bound == sizeBoard - 1
    {
      bound := sizeBoard - 1;
    }

    predicate CheckStep(kind: ChessmanType, current: Coordinate, candidate: Coordinate) {
      CheckStepWithin(kind, current, candidate, bound)
    }

    method GenerateStep(kind: ChessmanType, current: Coordinate, changeX: bool, draws: seq<int>)
      returns (r: Option<Coordinate>)
      ensures r == Proposal(kind, current, bound, changeX, draws)
    {
      r := GenerateStepWithin(kind, current, bound, changeX, draws);
    }
  }

  /** The ids the first `k` calls of the counter hand out. */
  ghost function IssuedIds(k: nat): seq<nat> {
    if k == 0 then [] else IssuedIds(k - 1) + [k % IdModulus]
  }

  /** Until the 32-bit counter wraps, the ids are 1, 2, 3, ... */
  lemma {:induction false} IssuedIdsCount(k: nat)
    requires k < IdModulus
    ensures |IssuedIds(k)| == k
    ensures forall i :: 0 <= i < k ==> IssuedIds(k)[i] == i + 1
  {
    if k > 0 {
      IssuedIdsCount(k - 1);
    }
  }

  /** The process-wide id counter behind generateId and makeChessMan. */
  class IdCounter {
    var last: nat
    ghost var issued: seq<nat>

    ghost predicate Valid() reads this {
      last < IdModulus && last == |issued| % IdModulus && issued == IssuedIds(|issued|)
    }

    constructor ()
      ensures Valid() && issued == []
    {
      last := 0;
      issued := [];
    }

    /** Pre-increments the counter and returns the new value. */
    method GenerateId() returns (id: nat)
      requires Valid()
      modifies this
      ensures Valid() && issued == old(issued) + [id]
      ensures id == (old(last) + 1) % IdModulus
      ensures old(last) + 1 < IdModulus ==> old(last) < id
    {
      last := (last + 1) % IdModulus;
      id := last;
      issued := issued + [id];
    }

    /** A fresh, unplaced piece carrying the next id. */
    method MakeChessMan(kind: ChessmanType) returns (p: Pieces.ChessMan)
      requires Valid()
      modifies this
      ensures Valid() && issued == old(issued) + [p.GetID()]
      ensures fresh(p) && p.GetID() == (old(last) + 1) % IdModulus && p.GetType() == kind
      ensures p.GetCurrentCoordinate() == UnplacedCoordinate
    {
      var id := GenerateId();
      p := new Pieces.ChessMan(id, kind);
    }
  }
}
