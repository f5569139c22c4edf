/** The comparison between what a board square holds and a kind of piece,
    and the mapping from a kind of piece to what its square then holds.
    The model follows the test build, where the `test` kind and the
    `test` place both exist. */
module PlaceTypes {
  import opened Common

  datatype PlaceType = EmptyPlace | OccupiedByRook | TestPlace

  /** `place == kind`: an empty square matches no kind; an occupied square
      matches the kind it was occupied by. */
  predicate PlaceMatches(place: PlaceType, kind: ChessmanType) {
    match place
    case EmptyPlace => false
    case OccupiedByRook => kind == Rook
    case TestPlace => kind == TestKind
  }

  /** `place != kind`. */
  predicate PlaceDiffers(place: PlaceType, kind: ChessmanType) {
    !PlaceMatches(place, kind)
  }

  /** `kind == place`, the operator with its arguments swapped. */
  predicate KindMatches(kind: ChessmanType, place: PlaceType) {
    PlaceMatches(place, kind)
  }

  /** `kind != place`. */
  predicate KindDiffers(kind: ChessmanType, place: PlaceType) {
    PlaceDiffers(place, kind)
  }

  /** to_enum: the place a piece of `kind` occupies. */
  function ToEnum(kind: ChessmanType): (p: PlaceType)
    ensures p != EmptyPlace
  {
    match kind
    case Rook => OccupiedByRook
    case TestKind => TestPlace
  }

  /** An empty square equals no kind; a rook's square equals exactly the
      rook kind. */
  lemma PlaceMatchesTable(kind: ChessmanType)
    ensures !PlaceMatches(EmptyPlace, kind)
    ensures PlaceMatches(OccupiedByRook, kind) <==> kind == Rook
    ensures PlaceMatches(TestPlace, kind) <==> kind == TestKind
  {
  }

  /** `!=` is the negation of `==`, and both give the same answer with
      their arguments swapped. */
  lemma OperatorsAgree(place: PlaceType, kind: ChessmanType)
    ensures PlaceDiffers(place, kind) <==> !PlaceMatches(place, kind)
    ensures KindMatches(kind, place) <==> PlaceMatches(place, kind)
    ensures KindDiffers(kind, place) <==> PlaceDiffers(place, kind)
  {
  }

  /** A place equals a kind exactly when it is the place `to_enum` maps
      that kind to; in particular `to_enum(t) == t` for every kind. */
  lemma ToEnumMatches(place: PlaceType, kind: ChessmanType)
    ensures PlaceMatches(place, kind) <==> place == ToEnum(kind)
    ensures PlaceMatches(ToEnum(kind), kind)
  {
  }

  /** Different kinds occupy different places. */
  lemma ToEnumInjective(a: ChessmanType, b: ChessmanType)
    ensures ToEnum(a) == ToEnum(b) ==> a == b
  {
  }
}
