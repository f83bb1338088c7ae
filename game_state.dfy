/**
 * The GameState record: everything needed to decide whether the next move is
 * allowed. It is rebuilt from the persisted game before every validation and
 * never changed; a transition builds a new one.
 */
module GameStates {
  import opened Wrappers
  import opened Pieces

  datatype GameState = GameState(
    board: Board,
    nextMoveColor: Color,
    lastPieceMoved: Option<char>,
    lastMove: Option<Move>,
    whiteKingMoved: bool,
    whiteRook0Moved: bool,
    whiteRook7Moved: bool,
    blackKingMoved: bool,
    blackRook0Moved: bool,
    blackRook7Moved: bool)
}
