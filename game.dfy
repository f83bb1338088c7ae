/**
 * A persisted game: its 64-character `tiles` string, its status code and its
 * list of recorded moves, and make_move, which applies a move that
 * is_valid_move accepted. The moves table is held as a sequence on the game,
 * so the move count, the last move and the has-moved flags that game_state
 * reads from it are functions of that sequence.
 */
module Games {
  import opened Wrappers
  import opened Pieces
  import opened GameStates
  import opened ChessRules

  // ---------------------------------------------------------------------------
  // tiles string <-> board
  // ---------------------------------------------------------------------------

  /** The tiles of a new game: white's back rank and pawns, four empty rows, black's pawns and back rank. */
  const OpeningPosition: seq<Tile> :=
    "54312345" + "66666666" + "00000000" + "00000000" +
    "00000000" + "00000000" + "CCCCCCCC" + "BA9789AB"

  /** tiles_array: the string cut into eight rows of eight. */
  function TilesArray(tiles: seq<Tile>): (b: Board)
    requires |tiles| == 64
    ensures forall i, j | 0 <= i < 8 && 0 <= j < 8 :: b[i][j] == tiles[8 * i + j]
  {
    seq(8, i requires 0 <= i < 8 => tiles[8 * i .. 8 * i + 8])
  }

  /** The rows written one after the other, as make_move builds tiles_new. */
  function Concat(rows: seq<seq<Tile>>): seq<Tile>
  {
    if rows == [] then [] else Concat(rows[..|rows| - 1]) + rows[|rows| - 1]
  }

  lemma {:induction false} ConcatOfRows(rows: seq<seq<Tile>>)
    requires forall i | 0 <= i < |rows| :: |rows[i]| == 8
    ensures |Concat(rows)| == 8 * |rows|
    ensures forall i, j | 0 <= i < |rows| && 0 <= j < 8 :: Concat(rows)[8 * i + j] == rows[i][j]
  {
    if rows != [] {
      var init := rows[..|rows| - 1];
      ConcatOfRows(init);
      var last := rows[|rows| - 1];
      assert Concat(rows) == Concat(init) + last;
      forall i, j | 0 <= i < |rows| && 0 <= j < 8
        ensures Concat(rows)[8 * i + j] == rows[i][j]
      {
        if i < |rows| - 1 {
          assert init[i] == rows[i];
        }
      }
    }
  }

  /** The board as a 64-tile string, row 0 first. */
  function Flatten(b: Board): (t: seq<Tile>)
    ensures |t| == 64
    ensures forall i, j | 0 <= i < 8 && 0 <= j < 8 :: t[8 * i + j] == b[i][j]
  {
    ConcatOfRows(b);
    Concat(b)
  }

  lemma TilesRoundTrip(tiles: seq<Tile>)
    requires |tiles| == 64
    ensures Flatten(TilesArray(tiles)) == tiles
  {
    var t := Flatten(TilesArray(tiles));
    forall k | 0 <= k < 64
      ensures t[k] == tiles[k]
    {
      var i, j := k / 8, k % 8;
      assert k == 8 * i + j && 0 <= i < 8 && 0 <= j < 8;
      assert t[8 * i + j] == TilesArray(tiles)[i][j];
    }
  }

  lemma BoardRoundTrip(b: Board)
    ensures TilesArray(Flatten(b)) == b
  {
    var b' := TilesArray(Flatten(b));
    forall i | 0 <= i < 8
      ensures b'[i] == b[i]
    {
      assert forall j | 0 <= j < 8 :: b'[i][j] == b[i][j];
    }
  }

  /** A new game starts with both kings on column 3 and both queens beside them on column 4. */
  lemma OpeningBoard()
    ensures |OpeningPosition| == 64
    ensures var b := TilesArray(OpeningPosition);
      b[0][3] == KingCode(White) && b[7][3] == KingCode(Black) &&
      b[0][4] == CodeOf(White, Queen) && b[7][4] == CodeOf(Black, Queen) &&
      KingPresent(b, White) && KingPresent(b, Black)
  {
    var b := TilesArray(OpeningPosition);
    assert b[0][3] == OpeningPosition[3];
    assert b[7][3] == OpeningPosition[59];
    assert b[0][4] == OpeningPosition[4];
    assert b[7][4] == OpeningPosition[60];
  }

  // ---------------------------------------------------------------------------
  // make_move on the board
  // ---------------------------------------------------------------------------

  /** make_move's en-passant test: a pawn on its fifth rank moving sideways onto an empty square. */
  predicate EnPassantCapture(b: Board, m: Move)
    requires OnBoard(m)
  {
    var p := b[m.fromRow][m.fromCol];
    b[m.toRow][m.toCol] == Empty && m.toCol != m.fromCol &&
    ((p == '6' && m.fromRow == 4) || (p == 'C' && m.fromRow == 3))
  }

  /** The `captured` value make_move records. */
  function Captured(b: Board, m: Move): Option<Tile>
    requires OnBoard(m)
  {
    if b[m.toRow][m.toCol] != Empty then Some(b[m.toRow][m.toCol])
    else if EnPassantCapture(b, m) then Some(if b[m.fromRow][m.fromCol] == '6' then 'C' else '6')
    else None
  }

  /**
   * The recorded capture is the piece standing on the destination, or on an
   * en-passant move the other side's pawn, or nothing.
   */
  lemma CapturedPiece(b: Board, m: Move)
    requires OnBoard(m)
    ensures b[m.toRow][m.toCol] != Empty ==> Captured(b, m) == Some(b[m.toRow][m.toCol])
    ensures EnPassantCapture(b, m) ==>
      var c := ColorOf(b[m.fromRow][m.fromCol]).value;
      Captured(b, m) == Some(CodeOf(Opposite(c), Pawn))
    ensures b[m.toRow][m.toCol] == Empty && !EnPassantCapture(b, m) ==> Captured(b, m).None?
  {
  }

  /** The rook half of castling: fires on the four king tuples whatever piece is moving. */
  function RookRelocated(b: Board, m: Move): Board
  {
    if m == Move(0, 3, 0, 1) then With(With(b, 0, 0, Empty), 0, 2, '5')
    else if m == Move(0, 3, 0, 5) then With(With(b, 0, 7, Empty), 0, 4, '5')
    else if m == Move(7, 3, 7, 1) then With(With(b, 7, 0, Empty), 7, 2, 'B')
    else if m == Move(7, 3, 7, 5) then With(With(b, 7, 7, Empty), 7, 4, 'B')
    else b
  }

  /** The board make_move saves: the en-passant victim removed, the piece moved, the rook relocated. */
  function MovedBoard(b: Board, m: Move): Board
    requires OnBoard(m)
  {
    var p := b[m.fromRow][m.fromCol];
    var b1 := if EnPassantCapture(b, m) then With(b, m.fromRow, m.toCol, Empty) else b;
    var b2 := With(With(b1, m.toRow, m.toCol, p), m.fromRow, m.fromCol, Empty);
    RookRelocated(b2, m)
  }

  /** The rook squares a castling tuple rewrites, as (row, from-column, to-column). */
  function RookSquares(m: Move): (r: Option<(int, int, int)>)
  {
    if m == Move(0, 3, 0, 1) then Some((0, 0, 2))
    else if m == Move(0, 3, 0, 5) then Some((0, 7, 4))
    else if m == Move(7, 3, 7, 1) then Some((7, 0, 2))
    else if m == Move(7, 3, 7, 5) then Some((7, 7, 4))
    else None
  }

  /** The squares make_move may write. */
  predicate Touched(b: Board, m: Move, i: int, j: int)
    requires OnBoard(m)
  {
    (i, j) == (m.fromRow, m.fromCol) || (i, j) == (m.toRow, m.toCol) ||
    (EnPassantCapture(b, m) && (i, j) == (m.fromRow, m.toCol)) ||
    (RookSquares(m).Some? && i == RookSquares(m).value.0 &&
     (j == RookSquares(m).value.1 || j == RookSquares(m).value.2))
  }

  /** What each square of the saved board holds. */
  lemma MovedBoardCells(b: Board, m: Move)
    requires OnBoard(m)
    ensures (m.fromRow, m.fromCol) != (m.toRow, m.toCol) ==>
      MovedBoard(b, m)[m.toRow][m.toCol] == b[m.fromRow][m.fromCol]
    ensures MovedBoard(b, m)[m.fromRow][m.fromCol] == Empty
    ensures EnPassantCapture(b, m) && m.toRow != m.fromRow ==> MovedBoard(b, m)[m.fromRow][m.toCol] == Empty
    ensures RookSquares(m).Some? ==>
      var (r, c0, c1) := RookSquares(m).value;
      MovedBoard(b, m)[r][c0] == Empty && MovedBoard(b, m)[r][c1] == (if r == 0 then '5' else 'B')
    ensures forall i, j | 0 <= i < 8 && 0 <= j < 8 && !Touched(b, m, i, j) :: MovedBoard(b, m)[i][j] == b[i][j]
  {
  }

  /** The pieces on a board, counted with multiplicity (empty squares included). */
  function Tally(b: Board): multiset<Tile> {
    multiset(Flatten(b))
  }

  lemma TallyWith(b: Board, r: int, c: int, t: Tile)
    requires 0 <= r < 8 && 0 <= c < 8
    ensures Tally(With(b, r, c, t)) == Tally(b) - multiset{b[r][c]} + multiset{t}
  {
    var s := Flatten(b);
    var s' := Flatten(With(b, r, c, t));
    forall k | 0 <= k < 64
      ensures s'[k] == s[8 * r + c := t][k]
    {
      var i, j := k / 8, k % 8;
      assert k == 8 * i + j && 0 <= i < 8 && 0 <= j < 8;
      assert s'[8 * i + j] == With(b, r, c, t)[i][j];
      assert s[8 * i + j] == b[i][j];
    }
    assert s' == s[8 * r + c := t];
  }

  lemma TileInTally(b: Board, r: int, c: int)
    requires 0 <= r < 8 && 0 <= c < 8
    ensures b[r][c] in Tally(b)
  {
    assert Flatten(b)[8 * r + c] == b[r][c];
  }

  /** Trading x for y in a multiset holding x, then giving x back, only adds y. */
  lemma Trade<T>(a: multiset<T>, x: T, y: T)
    requires x in a
    ensures a - multiset{x} + multiset{y} + multiset{x} == a + multiset{y}
    ensures x == y ==> a - multiset{x} + multiset{y} == a
  {
  }

  /** Moving a piece onto another square swaps the destination's old tile for an empty one. */
  lemma StepTally(b: Board, fr: int, fc: int, tr: int, tc: int)
    requires 0 <= fr < 8 && 0 <= fc < 8 && 0 <= tr < 8 && 0 <= tc < 8 && (fr, fc) != (tr, tc)
    ensures Tally(With(With(b, tr, tc, b[fr][fc]), fr, fc, Empty)) ==
            Tally(b) - multiset{b[tr][tc]} + multiset{Empty}
  {
    var p, x := b[fr][fc], b[tr][tc];
    var b2 := With(b, tr, tc, p);
    TallyWith(b, tr, tc, p);
    TallyWith(b2, fr, fc, Empty);
    assert b2[fr][fc] == p;
    TileInTally(b, tr, tc);
    assert Tally(b2) - multiset{p} == Tally(b) - multiset{x};
  }

  /**
   * Outside castling, a move keeps every piece but the one it records as
   * captured, which leaves in exchange for an empty square.
   */
  lemma CaptureAccounting(b: Board, m: Move)
    requires OnBoard(m) && (m.fromRow, m.fromCol) != (m.toRow, m.toCol) && RookSquares(m).None?
    requires EnPassantCapture(b, m) ==> b[m.fromRow][m.toCol] == Captured(b, m).value
    ensures Captured(b, m).None? ==> Tally(MovedBoard(b, m)) == Tally(b)
    ensures Captured(b, m).Some? ==>
      Tally(MovedBoard(b, m)) + multiset{Captured(b, m).value} == Tally(b) + multiset{Empty}
  {
    var p := b[m.fromRow][m.fromCol];
    var b1 := if EnPassantCapture(b, m) then With(b, m.fromRow, m.toCol, Empty) else b;
    var b3 := With(With(b1, m.toRow, m.toCol, p), m.fromRow, m.fromCol, Empty);
    assert MovedBoard(b, m) == b3;
    if EnPassantCapture(b, m) {
      var v := b[m.fromRow][m.toCol];
      assert m.toRow != m.fromRow;
      assert b1[m.fromRow][m.fromCol] == p && b1[m.toRow][m.toCol] == Empty;
      TallyWith(b, m.fromRow, m.toCol, Empty);
      StepTally(b1, m.fromRow, m.fromCol, m.toRow, m.toCol);
      TileInTally(b1, m.toRow, m.toCol);
      Trade(Tally(b1), Empty, Empty);
      assert Tally(b3) == Tally(b1);
      TileInTally(b, m.fromRow, m.toCol);
      Trade(Tally(b), v, Empty);
    } else {
      var x := b[m.toRow][m.toCol];
      StepTally(b, m.fromRow, m.fromCol, m.toRow, m.toCol);
      TileInTally(b, m.toRow, m.toCol);
      Trade(Tally(b), x, Empty);
    }
  }

  // ---------------------------------------------------------------------------
  // the game state before and after a move
  // ---------------------------------------------------------------------------

  /** One row of the moves table: the piece, the quadruple and what it captured. */
  datatype MoveRecord = MoveRecord(piece: Tile, move: Move, captured: Option<Tile>)

  /** next_move_color after n recorded moves. */
  function SideToMove(n: nat): (c: Color)
    ensures c == White <==> n % 2 == 0
  {
    if n % 2 == 0 then White else Black
  }

  lemma SideToMoveAlternates(n: nat)
    ensures SideToMove(0) == White
    ensures SideToMove(n + 1) == Opposite(SideToMove(n))
  {
  }

  /** move_number: a white move and the black reply make one numbered move. */
  function MoveNumber(n: nat): (r: nat)
    ensures n == 2 * r || n == 2 * r - 1
  {
    (n + 1) / 2
  }

  /** is_current_player_turn: the viewer's colour is the side to move. */
  function IsPlayersTurn(currentIsWhite: bool, n: nat): (mine: bool)
    ensures mine <==> (SideToMove(n) == White) == currentIsWhite
  {
    if currentIsWhite && n % 2 == 0 then true
    else if !currentIsWhite && n % 2 == 1 then true
    else false
  }

  /** piece_has_moved: some recorded move starts on the square. */
  predicate PieceHasMoved(moves: seq<MoveRecord>, r: int, c: int) {
    exists k | 0 <= k < |moves| :: moves[k].move.fromRow == r && moves[k].move.fromCol == c
  }

  lemma PieceHasMovedAppend(moves: seq<MoveRecord>, rec: MoveRecord, r: int, c: int)
    ensures PieceHasMoved(moves + [rec], r, c) <==>
      PieceHasMoved(moves, r, c) || (rec.move.fromRow == r && rec.move.fromCol == c)
  {
    var moves' := moves + [rec];
    if PieceHasMoved(moves, r, c) {
      var k :| 0 <= k < |moves| && moves[k].move.fromRow == r && moves[k].move.fromCol == c;
      assert moves'[k] == moves[k];
    }
    if rec.move.fromRow == r && rec.move.fromCol == c {
      assert moves'[|moves|] == rec;
    }
    if PieceHasMoved(moves', r, c) {
      var k :| 0 <= k < |moves'| && moves'[k].move.fromRow == r && moves'[k].move.fromCol == c;
      if k < |moves| {
        assert moves'[k] == moves[k];
      }
    }
  }

  /** game_state: the board, the side to move, the last move and the six has-moved flags. */
  function StateOf(tiles: seq<Tile>, moves: seq<MoveRecord>): GameState
    requires |tiles| == 64
  {
    GameState(
      TilesArray(tiles),
      SideToMove(|moves|),
      if moves == [] then None else Some(moves[|moves| - 1].piece as char),
      if moves == [] then None else Some(moves[|moves| - 1].move),
      PieceHasMoved(moves, 0, 3), PieceHasMoved(moves, 0, 0), PieceHasMoved(moves, 0, 7),
      PieceHasMoved(moves, 7, 3), PieceHasMoved(moves, 7, 0), PieceHasMoved(moves, 7, 7))
  }

  /** The side make_move hands the turn to: black after a white piece, white otherwise. */
  function OpponentOf(t: Tile): (c: Color)
    ensures ColorOf(t).Some? ==> c == Opposite(ColorOf(t).value)
  {
    if ColorOf(t) == Some(White) then Black else White
  }

  /** new_game_state: the state make_move uses to decide the status. */
  function AfterMove(s: GameState, m: Move): GameState
    requires OnBoard(m)
  {
    var p := s.board[m.fromRow][m.fromCol];
    var from := (m.fromRow, m.fromCol);
    GameState(
      MovedBoard(s.board, m), OpponentOf(p), Some(p as char), Some(m),
      s.whiteKingMoved || from == (0, 3), s.whiteRook0Moved || from == (0, 0),
      s.whiteRook7Moved || from == (0, 7), s.blackKingMoved || from == (7, 3),
      s.blackRook0Moved || from == (7, 0), s.blackRook7Moved || from == (7, 7))
  }

  /** The has-moved flags never go from true to false, and only the origin square can raise one. */
  lemma FlagsOnlyRise(s: GameState, m: Move)
    requires OnBoard(m)
    ensures var s' := AfterMove(s, m);
      (s.whiteKingMoved ==> s'.whiteKingMoved) && (s.whiteRook0Moved ==> s'.whiteRook0Moved) &&
      (s.whiteRook7Moved ==> s'.whiteRook7Moved) && (s.blackKingMoved ==> s'.blackKingMoved) &&
      (s.blackRook0Moved ==> s'.blackRook0Moved) && (s.blackRook7Moved ==> s'.blackRook7Moved)
    ensures var s' := AfterMove(s, m);
      (m.fromRow, m.fromCol) !in {(0, 3), (0, 0), (0, 7), (7, 3), (7, 0), (7, 7)} ==>
      s'.whiteKingMoved == s.whiteKingMoved && s'.whiteRook0Moved == s.whiteRook0Moved &&
      s'.whiteRook7Moved == s.whiteRook7Moved && s'.blackKingMoved == s.blackKingMoved &&
      s'.blackRook0Moved == s.blackRook0Moved && s'.blackRook7Moved == s.blackRook7Moved
  {
  }

  /** The status code make_move stores: 6 check mate, 2 check, 1 active. */
  function StatusAfter(s: GameState): int
    requires KingPresent(s.board, s.nextMoveColor)
  {
    if Mated(s, s.nextMoveColor) then 6
    else if InCheck(s.board, s.nextMoveColor) then 2
    else 1
  }

  /** Only a check mate ends the game through make_move; check and active are told apart by is_check. */
  lemma StatusMeaning(s: GameState)
    requires KingPresent(s.board, s.nextMoveColor)
    ensures StatusAfter(s) in {1, 2, 6}
    ensures StatusAfter(s) > 3 <==> Mated(s, s.nextMoveColor)
    ensures StatusAfter(s) == 1 <==> !InCheck(s.board, s.nextMoveColor)
  {
  }

  /** The row make_move inserts into the moves table. */
  function RecordOf(tiles: seq<Tile>, m: Move): MoveRecord
    requires |tiles| == 64 && OnBoard(m)
  {
    var b := TilesArray(tiles);
    MoveRecord(b[m.fromRow][m.fromCol], m, Captured(b, m))
  }

  /** The tiles string make_move saves. */
  function TilesAfter(tiles: seq<Tile>, m: Move): seq<Tile>
    requires |tiles| == 64 && OnBoard(m)
  {
    Flatten(MovedBoard(TilesArray(tiles), m))
  }

  /** What make_move needs in order not to fail: the opponent's king is still on the saved board. */
  predicate CanMove(tiles: seq<Tile>, m: Move)
    requires |tiles| == 64
  {
    OnBoard(m) &&
    var b := TilesArray(tiles);
    KingPresent(MovedBoard(b, m), OpponentOf(b[m.fromRow][m.fromCol]))
  }

  function StatusAfterMove(tiles: seq<Tile>, moves: seq<MoveRecord>, m: Move): int
    requires |tiles| == 64 && CanMove(tiles, m)
  {
    StatusAfter(AfterMove(StateOf(tiles, moves), m))
  }

  /**
   * Reading the saved game back gives exactly the state make_move judged the
   * status on, provided the piece that moved belongs to the side to move.
   */
  lemma ReadBackIsAfterMove(tiles: seq<Tile>, moves: seq<MoveRecord>, m: Move)
    requires |tiles| == 64 && OnBoard(m)
    requires ColorOf(TilesArray(tiles)[m.fromRow][m.fromCol]) == Some(SideToMove(|moves|))
    ensures StateOf(TilesAfter(tiles, m), moves + [RecordOf(tiles, m)]) == AfterMove(StateOf(tiles, moves), m)
  {
    var rec := RecordOf(tiles, m);
    BoardRoundTrip(MovedBoard(TilesArray(tiles), m));
    SideToMoveAlternates(|moves|);
    PieceHasMovedAppend(moves, rec, 0, 3);
    PieceHasMovedAppend(moves, rec, 0, 0);
    PieceHasMovedAppend(moves, rec, 0, 7);
    PieceHasMovedAppend(moves, rec, 7, 3);
    PieceHasMovedAppend(moves, rec, 7, 0);
    PieceHasMovedAppend(moves, rec, 7, 7);
  }

  // ---------------------------------------------------------------------------
  // the game object
  // ---------------------------------------------------------------------------

  class Game {
    var id: int
    /** The player who sent the invitation. */
    var userId: int
    var opponentId: int
    /** True if the inviting player plays white. */
    var isWhite: bool
    /** 0 pending, 1 active, 2 check, 3 draw proposed, 4 draw accepted, 5 resigned, 6 check mate. */
    var status: int
    var tiles: seq<Tile>
    /** Whether the logged-in viewer plays white. */
    var currentIsWhite: bool
    /** The moves table rows of this game, oldest first. */
    var moves: seq<MoveRecord>

    predicate Valid()
      reads this
    {
      |tiles| == 64
    }

    /** create: a pending invitation on the opening position, seen by the inviting player. */
    constructor Create(id: int, userId: int, opponentId: int, white: bool)
      ensures Valid()
      ensures this.id == id && this.userId == userId && this.opponentId == opponentId
      ensures isWhite == white && currentIsWhite == white
      ensures status == 0 && tiles == OpeningPosition && moves == []
    {
      this.id := id;
      this.userId := userId;
      this.opponentId := opponentId;
      this.isWhite := white;
      this.status := 0;
      this.tiles := OpeningPosition;
      this.currentIsWhite := white;
      this.moves := [];
    }

    /** construct_from_query_result: the viewer's colour from who sent the invitation. */
    method ViewAs(sessionUser: int)
      modifies this`currentIsWhite
      ensures currentIsWhite == (if userId == sessionUser then isWhite else !isWhite)
    {
      if userId == sessionUser {
        currentIsWhite := isWhite;
      } else {
        currentIsWhite := !isWhite;
      }
    }

    function State(): GameState
      reads this
      requires Valid()
    {
      StateOf(tiles, moves)
    }

    /**
     * make_move: apply the move on a copy of the board, decide the opponent's
     * status on the resulting state, save the new tiles and record the move.
     */
    method MakeMove(m: Move)
      requires Valid() && CanMove(tiles, m)
      modifies this`tiles, this`status, this`moves
      ensures Valid()
      ensures tiles == TilesAfter(old(tiles), m)
      ensures moves == old(moves) + [RecordOf(old(tiles), m)]
      ensures status == StatusAfterMove(old(tiles), old(moves), m)
    {
      var board := TilesArray(tiles);
      var movingPiece := board[m.fromRow][m.fromCol];
      var captured;
      board, captured := MoveOnBoard(board, m);

      var after := AfterMove(StateOf(tiles, moves), m);
      status := DecideStatus(after);

      var tilesNew := BoardToTiles(board);
      tiles := tilesNew;
      moves := moves + [MoveRecord(movingPiece, m, captured)];
    }
  }

  /** The board half of make_move: record the capture, clear an en-passant victim, move, relocate a rook. */
  method MoveOnBoard(b: Board, m: Move) returns (board: Board, captured: Option<Tile>)
    requires OnBoard(m)
    ensures board == MovedBoard(b, m) && captured == Captured(b, m)
  {
    board := b;
    var movingPiece := board[m.fromRow][m.fromCol];
    if board[m.toRow][m.toCol] == Empty {
      if movingPiece == '6' && m.fromRow == 4 && m.toCol != m.fromCol && board[m.toRow][m.toCol] == Empty {
        captured := Some('C');
        board := With(board, m.fromRow, m.toCol, Empty);
      } else if movingPiece == 'C' && m.fromRow == 3 && m.toCol != m.fromCol && board[m.toRow][m.toCol] == Empty {
        captured := Some('6');
        board := With(board, m.fromRow, m.toCol, Empty);
      } else {
        captured := None;
      }
    } else {
      captured := Some(board[m.toRow][m.toCol]);
    }

    board := With(board, m.toRow, m.toCol, movingPiece);
    board := With(board, m.fromRow, m.fromCol, Empty);

    if m == Move(0, 3, 0, 1) {
      board := With(board, 0, 0, Empty);
      board := With(board, 0, 2, '5');
    } else if m == Move(0, 3, 0, 5) {
      board := With(board, 0, 7, Empty);
      board := With(board, 0, 4, '5');
    } else if m == Move(7, 3, 7, 1) {
      board := With(board, 7, 0, Empty);
      board := With(board, 7, 2, 'B');
    } else if m == Move(7, 3, 7, 5) {
      board := With(board, 7, 7, Empty);
      board := With(board, 7, 4, 'B');
    }
  }

  /** The status half of make_move: check mate first, then check, else active. */
  method DecideStatus(after: GameState) returns (status: int)
    requires KingPresent(after.board, after.nextMoveColor)
    ensures status == StatusAfter(after)
  {
    var mate := IsCheckMate(after, after.nextMoveColor);
    if mate {
      status := 6;
    } else {
      var check := IsCheck(after.board, after.nextMoveColor);
      if check {
        status := 2;
      } else {
        status := 1;
      }
    }
  }

  /** make_move's tiles_new loop: the board written back row by row. */
  method BoardToTiles(board: Board) returns (tiles: seq<Tile>)
    ensures tiles == Flatten(board)
  {
    tiles := [];
    for i := 0 to 8
      invariant tiles == Concat(board[..i])
    {
      var row := board[i];
      for j := 0 to 8
        invariant tiles == Concat(board[..i]) + row[..j]
      {
        tiles := tiles + [row[j]];
      }
      assert board[..i + 1][..i] == board[..i];
    }
    assert board[..8] == board;
  }
}
