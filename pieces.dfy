/**
 * The read-only `pieces` table of the rules engine: every tile of the board is
 * one character, '0' for an empty square, '1'..'6' for the white king, queen,
 * bishop, knight, rook and pawn, '7'..'C' for the black ones. Also the 8x8
 * board made of such tiles and the move quadruple (from_row, from_col, to_row,
 * to_col). Row 0 is white's back rank; column 3 holds the kings at the start.
 */
module Pieces {
  import opened Wrappers

  datatype Color = White | Black
  datatype Kind = King | Queen | Bishop | Knight | Rook | Pawn

  /** The thirteen keys of the table. */
  predicate IsTileCode(c: char) {
    '0' <= c <= '9' || 'A' <= c <= 'C'
  }

  type Tile = c: char | IsTileCode(c) witness '0'

  const Empty: Tile := '0'

  function Opposite(c: Color): Color {
    if c == White then Black else White
  }

  /** The colour column of the table (None for the empty tile). */
  function ColorOf(t: Tile): (c: Option<Color>)
    ensures c.None? <==> t == Empty
  {
    if t == '0' then None
    else if t == '1' || t == '2' || t == '3' || t == '4' || t == '5' || t == '6' then Some(White)
    else Some(Black)
  }

  /** The kind column of the table (None for the empty tile). */
  function KindOf(t: Tile): (k: Option<Kind>)
    ensures k.None? <==> t == Empty
  {
    if t == '1' || t == '7' then Some(King)
    else if t == '2' || t == '8' then Some(Queen)
    else if t == '3' || t == '9' then Some(Bishop)
    else if t == '4' || t == 'A' then Some(Knight)
    else if t == '5' || t == 'B' then Some(Rook)
    else if t == '6' || t == 'C' then Some(Pawn)
    else None
  }

  /** The table read backwards: the code of a coloured piece. */
  function CodeOf(c: Color, k: Kind): (t: Tile)
    ensures ColorOf(t) == Some(c) && KindOf(t) == Some(k)
  {
    match (c, k)
    case (White, King) => '1'
    case (White, Queen) => '2'
    case (White, Bishop) => '3'
    case (White, Knight) => '4'
    case (White, Rook) => '5'
    case (White, Pawn) => '6'
    case (Black, King) => '7'
    case (Black, Queen) => '8'
    case (Black, Bishop) => '9'
    case (Black, Knight) => 'A'
    case (Black, Rook) => 'B'
    case (Black, Pawn) => 'C'
  }

  /** Every non-empty code is the code of its own (colour, kind) entry: the table is one-to-one. */
  lemma TableIsOneToOne(t: Tile)
    requires t != Empty
    ensures ColorOf(t).Some? && KindOf(t).Some?
    ensures CodeOf(ColorOf(t).value, KindOf(t).value) == t
  {
  }

  function KingCode(c: Color): Tile {
    CodeOf(c, King)
  }

  type Board = b: seq<seq<Tile>> | |b| == 8 && forall i | 0 <= i < 8 :: |b[i]| == 8
    witness seq(8, _ => seq(8, _ => Empty))

  /** A move as the quadruple (from_row, from_col, to_row, to_col). */
  datatype Move = Move(fromRow: int, fromCol: int, toRow: int, toCol: int)

  predicate OnBoard(m: Move) {
    0 <= m.fromRow < 8 && 0 <= m.fromCol < 8 && 0 <= m.toRow < 8 && 0 <= m.toCol < 8
  }

  /** The board with one tile overwritten, as the source does on its nested-list copies. */
  function With(b: Board, r: int, c: int, t: Tile): (b': Board)
    requires 0 <= r < 8 && 0 <= c < 8
    ensures b'[r][c] == t
    ensures forall i, j | 0 <= i < 8 && 0 <= j < 8 && (i, j) != (r, c) :: b'[i][j] == b[i][j]
  {
    var row: seq<Tile> := b[r][c := t];
    b[r := row]
  }

  /** The scratch board of the self-check veto and the checkmate search: only the moving piece moves. */
  function SingleMove(b: Board, m: Move): (b': Board)
    requires OnBoard(m)
  {
    With(With(b, m.toRow, m.toCol, b[m.fromRow][m.fromCol]), m.fromRow, m.fromCol, Empty)
  }

  predicate KingPresent(b: Board, c: Color) {
    exists i, j | 0 <= i < 8 && 0 <= j < 8 :: b[i][j] == KingCode(c)
  }
}
