/** Values shared by every part of the rook simulation: optional and
    fallible results, board coordinates and the closed enumerations that
    the board, the pieces and the participants exchange. */
module Common {

  datatype Option<+T> = None | Some(value: T)

  datatype Result<+T, +E> = Ok(value: T) | Err(error: E)

  /** A square of the board: `x` is the file (printed as a letter), `y` the rank. */
  datatype Coordinate = Coordinate(x: int, y: int)

  /** The coordinate a freshly built piece holds before it is placed. */
  const UnplacedCoordinate: Coordinate := Coordinate(-1, -1)

  /** A value-initialised coordinate (`Coordinate()` / `Coordinate{}`). */
  const DefaultCoordinate: Coordinate := Coordinate(0, 0)

  /** The sentinel the logger compares a `from` coordinate against. */
  const InvalidCoordinate: Coordinate := Coordinate(-1, -1)

  /** Kinds of piece; `TestKind` exists only in test builds. */
  datatype ChessmanType = Rook | TestKind

  /** Why the board refused a request. */
  datatype ReasonReject =
    | NoReason
    | BoardStopped
    | IncorrectCoordinate
    | IdMismatch
    | IncorrectId
    | DuplicateId
    | WaiterNotFound
}
