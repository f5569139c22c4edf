/** The piece objects: a generic chessman identified by a numeric id and
    a rook identified by a name. Identity and kind are fixed at
    construction; only the current coordinate changes. */
module Pieces {
  import opened Common

  /** A piece with a numeric id and a kind (ChessManImpl). */
  class ChessMan {
    const id: nat
    const kind: ChessmanType
    var coordinate: Coordinate

    constructor (id: nat, kind: ChessmanType)
      ensures GetID() == id && GetType() == kind
      ensures GetCurrentCoordinate() == UnplacedCoordinate
    {
      this.id := id;
      this.kind := kind;
      coordinate := UnplacedCoordinate;
    }

    function GetID(): nat { id }

    function GetType(): ChessmanType { kind }

    function GetCurrentCoordinate(): Coordinate reads this { coordinate }

    /** Afterwards the getter returns `c`; id and kind are constants, so they
        cannot change. */
    method SetCurrentCoordinate(c: Coordinate)
      modifies this
      ensures GetCurrentCoordinate() == c
    {
      coordinate := c;
    }
  }

  /** A rook identified by its name (ChessRookImpl). */
  class ChessRook {
    const name: string
    const kind: ChessmanType
    var coordinate: Coordinate

    constructor (name: string)
      ensures Name() == name && Type() == Rook
      ensures GetCurrentCoordinate() == UnplacedCoordinate
    {
      this.name := name;
      kind := Rook;
      coordinate := UnplacedCoordinate;
    }

    function Type(): ChessmanType { kind }

    function Name(): string { name }

    function GetCurrentCoordinate(): Coordinate reads this { coordinate }

    /** Afterwards the getter returns `c`; the name and kind are constants,
        so they cannot change. */
    method SetCurrentCoordinate(c: Coordinate)
      modifies this
      ensures GetCurrentCoordinate() == c
    {
      coordinate := c;
    }
  }
}
