/**
 * The rules engine: move legality for every piece kind, check and checkmate.
 *
 * Functions in the source that only branch and look tiles up are functions
 * here; the ones that loop over squares or mutate a scratch copy of the board
 * are methods, each proved equal to a specification predicate of the same
 * shape (SlideAllowed, KingStepAllowed, InCheck, Allowed, Mated). The
 * engine's deviations from the Laws of Chess are kept as they are: no
 * promotion, no turn check, no "castling out of or through check" test,
 * queenside castling never succeeds, and the scratch boards move only one piece.
 */
module ChessRules {
  import opened Wrappers
  import opened Pieces
  import opened GameStates

  function Abs(x: int): nat {
    if x < 0 then -x else x
  }

  function Max(x: int, y: int): int {
    if x < y then y else x
  }

  function RowDelta(m: Move): int { m.toRow - m.fromRow }
  function ColDelta(m: Move): int { m.toCol - m.fromCol }

  // ---------------------------------------------------------------------------
  // general_rules
  // ---------------------------------------------------------------------------

  /**
   * The gate every piece rule starts with: all four coordinates on the board,
   * something on the origin, and no piece of the mover's own colour on the
   * destination.
   */
  function GeneralRules(b: Board, m: Move): (ok: bool)
    ensures ok <==> OnBoard(m) && b[m.fromRow][m.fromCol] != Empty
                    && ColorOf(b[m.toRow][m.toCol]) != ColorOf(b[m.fromRow][m.fromCol])
    ensures ok ==> (m.fromRow, m.fromCol) != (m.toRow, m.toCol)
    ensures ok ==> ColorOf(b[m.fromRow][m.fromCol]).Some? && KindOf(b[m.fromRow][m.fromCol]).Some?
    ensures ok ==> ColorOf(b[m.toRow][m.toCol]) in {None, Some(Opposite(ColorOf(b[m.fromRow][m.fromCol]).value))}
  {
    if !(0 <= m.fromRow < 8) then false
    else if !(0 <= m.fromCol < 8) then false
    else if !(0 <= m.toRow < 8) then false
    else if !(0 <= m.toCol < 8) then false
    else if b[m.fromRow][m.fromCol] == Empty then false
    else ColorOf(b[m.fromRow][m.fromCol]) != ColorOf(b[m.toRow][m.toCol])
  }

  // ---------------------------------------------------------------------------
  // knight_rules
  // ---------------------------------------------------------------------------

  const KnightOffsets: seq<(int, int)> :=
    [(1, 2), (1, -2), (-1, 2), (-1, -2), (2, 1), (2, -1), (-2, 1), (-2, -1)]

  /** A knight jumps one square in one direction and two in the other; nothing in between is looked at. */
  function KnightRules(b: Board, m: Move): (ok: bool)
    ensures ok <==> GeneralRules(b, m) &&
                    ((Abs(RowDelta(m)) == 1 && Abs(ColDelta(m)) == 2) || (Abs(RowDelta(m)) == 2 && Abs(ColDelta(m)) == 1))
  {
    GeneralRules(b, m) && (RowDelta(m), ColDelta(m)) in KnightOffsets
  }

  // ---------------------------------------------------------------------------
  // queen_rook_bishop_rules
  // ---------------------------------------------------------------------------

  predicate Sliding(k: Kind) {
    k == Queen || k == Rook || k == Bishop
  }

  predicate Straight(m: Move) { RowDelta(m) == 0 || ColDelta(m) == 0 }
  predicate Diagonal(m: Move) { RowDelta(m) == ColDelta(m) || RowDelta(m) == -ColDelta(m) }

  /** The direction a sliding piece of this kind may take. */
  predicate DirectionOk(m: Move, k: Kind) {
    (k == Queen ==> Straight(m) || Diagonal(m)) &&
    (k == Rook ==> Straight(m)) &&
    (k == Bishop ==> Diagonal(m))
  }

  /** The number of single steps from origin to destination. */
  function Steps(m: Move): int {
    Max(Abs(RowDelta(m)), Abs(ColDelta(m)))
  }

  function Sign(d: int): int {
    if d > 0 then 1 else if d < 0 then -1 else 0
  }

  /** x moved i unit steps in the direction of d, that is x + sign(d) * i. */
  function Step(x: int, d: int, i: int): int {
    if d > 0 then x + i else if d < 0 then x - i else x
  }

  /** The source's x + unit * i, with unit the sign of d, is Step(x, d, i). */
  lemma UnitStep(x: int, d: int, i: int)
    ensures x + Sign(d) * i == Step(x, d, i)
  {
  }

  /** A step short of the destination stays between origin and destination, so on the board. */
  lemma StepsOnBoard(m: Move)
    requires OnBoard(m) && (Straight(m) || Diagonal(m))
    ensures forall i | 0 <= i <= Steps(m) :: 0 <= Step(m.fromRow, RowDelta(m), i) < 8 && 0 <= Step(m.fromCol, ColDelta(m), i) < 8
  {
  }

  /** Every square strictly between origin and destination, stepped by the unit direction, is empty. */
  predicate PathClear(b: Board, m: Move)
    requires OnBoard(m) && (Straight(m) || Diagonal(m))
  {
    forall i | 1 <= i < Steps(m) :: b[Step(m.fromRow, RowDelta(m), i)][Step(m.fromCol, ColDelta(m), i)] == Empty
  }

  /** What queen_rook_bishop_rules accepts. */
  predicate SlideAllowed(b: Board, m: Move, k: Kind)
    requires Sliding(k)
  {
    GeneralRules(b, m) && DirectionOk(m, k) && (Steps(m) < 2 || PathClear(b, m))
  }

  method QueenRookBishopRules(b: Board, m: Move, k: Kind) returns (ok: bool)
    requires Sliding(k)
    ensures ok == SlideAllowed(b, m, k)
  {
    if !GeneralRules(b, m) {
      return false;
    }
    var vector := (m.toRow - m.fromRow, m.toCol - m.fromCol);
    var isStraight := vector.0 == 0 || vector.1 == 0;
    var isDiagonal := vector.0 == vector.1 || vector.0 == -vector.1;
    assert isStraight == Straight(m) && isDiagonal == Diagonal(m);
    if k == Queen && !(isStraight || isDiagonal) {
      return false;
    }
    if k == Rook && !isStraight {
      return false;
    }
    if k == Bishop && !isDiagonal {
      return false;
    }
    var howMany := Max(Abs(vector.0), Abs(vector.1));
    assert DirectionOk(m, k) && howMany == Steps(m);
    if howMany < 2 {
      return true;
    }
    var clear := ScanPath(b, m);
    return clear;
  }

  /** The loop of queen_rook_bishop_rules: walk from the origin by unit steps, stop at the first occupied square. */
  method ScanPath(b: Board, m: Move) returns (clear: bool)
    requires OnBoard(m) && (Straight(m) || Diagonal(m)) && Steps(m) >= 2
    ensures clear == PathClear(b, m)
  {
    var vector := (m.toRow - m.fromRow, m.toCol - m.fromCol);
    var howMany := Max(Abs(vector.0), Abs(vector.1));
    assert vector == (RowDelta(m), ColDelta(m)) && howMany == Steps(m);
    var unitRow := if vector.0 > 0 then 1 else if vector.0 < 0 then -1 else 0;
    var unitCol := if vector.1 > 0 then 1 else if vector.1 < 0 then -1 else 0;
    assert unitRow == Sign(vector.0) && unitCol == Sign(vector.1);
    StepsOnBoard(m);
    for i := 1 to howMany
      invariant forall j | 1 <= j < i :: b[Step(m.fromRow, vector.0, j)][Step(m.fromCol, vector.1, j)] == Empty
    {
      UnitStep(m.fromRow, vector.0, i);
      UnitStep(m.fromCol, vector.1, i);
      var r, c := m.fromRow + unitRow * i, m.fromCol + unitCol * i;
      assert r == Step(m.fromRow, vector.0, i) && c == Step(m.fromCol, vector.1, i);
      if b[r][c] != Empty {
        return false;
      }
    }
    return true;
  }

  // ---------------------------------------------------------------------------
  // pawn_rules
  // ---------------------------------------------------------------------------

  /** The row direction a pawn of this colour moves in. */
  function Forward(c: Color): int {
    if c == White then 1 else -1
  }

  /** The row from which a pawn of this colour may advance two squares. */
  function StartRow(c: Color): int {
    if c == White then 1 else 6
  }

  /**
   * The history condition of an en-passant capture by a pawn on (fromRow, _)
   * onto column toCol: a white pawn on row 4 after a black pawn came from
   * (6, toCol) to row 4, or a black pawn on row 3 after a white pawn came from
   * (1, toCol) to row 3. The column the last move ended on is not looked at.
   */
  predicate EnPassantHistory(s: GameState, c: Color, fromRow: int, toCol: int) {
    if c == White then
      fromRow == 4 && s.lastPieceMoved == Some('C') && s.lastMove.Some?
      && s.lastMove.value.fromRow == 6 && s.lastMove.value.fromCol == toCol && s.lastMove.value.toRow == 4
    else
      fromRow == 3 && s.lastPieceMoved == Some('6') && s.lastMove.Some?
      && s.lastMove.value.fromRow == 1 && s.lastMove.value.fromCol == toCol && s.lastMove.value.toRow == 3
  }

  /** The four displacements a pawn may make; everything else is refused. */
  function PawnRules(s: GameState, m: Move): (ok: bool)
    requires OnBoard(m) && KindOf(s.board[m.fromRow][m.fromCol]) == Some(Pawn)
    ensures var c := ColorOf(s.board[m.fromRow][m.fromCol]).value;
            ok ==> (ColDelta(m) == 0 && (RowDelta(m) == Forward(c) || RowDelta(m) == 2 * Forward(c)))
                   || (Abs(ColDelta(m)) == 1 && RowDelta(m) == Forward(c))
  {
    var b := s.board;
    var color := ColorOf(b[m.fromRow][m.fromCol]).value;
    var colorTo := ColorOf(b[m.toRow][m.toCol]);
    var forward := Forward(color);
    var vector := (m.toRow - m.fromRow, m.toCol - m.fromCol);
    if vector == (forward, 0) then
      b[m.fromRow + forward][m.fromCol] == Empty
    else if vector == (2 * forward, 0) && m.fromRow == StartRow(color) then
      b[m.fromRow + forward][m.fromCol] == Empty && b[m.fromRow + 2 * forward][m.fromCol] == Empty
    else if vector == (forward, 1) || vector == (forward, -1) then
      if colorTo.Some? && Some(color) != colorTo then
        true
      else
        colorTo.None? && EnPassantHistory(s, color, m.fromRow, m.toCol)
    else
      false
  }

  /** Straight ahead a pawn needs an empty square, and for the double step an empty start row square in between too. */
  lemma PawnAdvance(s: GameState, m: Move)
    requires OnBoard(m) && KindOf(s.board[m.fromRow][m.fromCol]) == Some(Pawn)
    ensures var c := ColorOf(s.board[m.fromRow][m.fromCol]).value;
            var dest := s.board[m.toRow][m.toCol];
            && (RowDelta(m) == Forward(c) && ColDelta(m) == 0 ==> (PawnRules(s, m) <==> dest == Empty))
            && (RowDelta(m) == 2 * Forward(c) && ColDelta(m) == 0 ==>
                  (PawnRules(s, m) <==> m.fromRow == StartRow(c) && s.board[m.fromRow + Forward(c)][m.fromCol] == Empty && dest == Empty))
  {
  }

  /**
   * Diagonally forward a pawn takes an enemy piece, never one of its own
   * colour, and onto an empty square only en passant.
   */
  lemma PawnCapture(s: GameState, m: Move)
    requires OnBoard(m) && KindOf(s.board[m.fromRow][m.fromCol]) == Some(Pawn)
    requires RowDelta(m) == Forward(ColorOf(s.board[m.fromRow][m.fromCol]).value) && Abs(ColDelta(m)) == 1
    ensures var c := ColorOf(s.board[m.fromRow][m.fromCol]).value;
            var dest := s.board[m.toRow][m.toCol];
            && (ColorOf(dest) == Some(Opposite(c)) ==> PawnRules(s, m))
            && (ColorOf(dest) == Some(c) ==> !PawnRules(s, m))
            && (dest == Empty ==> (PawnRules(s, m) <==> EnPassantHistory(s, c, m.fromRow, m.toCol)))
  {
  }

  // ---------------------------------------------------------------------------
  // castling_rules
  // ---------------------------------------------------------------------------

  /** The first four tiles of a row, compared as a list, are four tile comparisons. */
  lemma FourTiles(row: seq<Tile>, t0: Tile, t1: Tile, t2: Tile, t3: Tile)
    requires |row| == 8
    ensures row[0..4] == [t0, t1, t2, t3] <==> row[0] == t0 && row[1] == t1 && row[2] == t2 && row[3] == t3
  {
    if row[0] == t0 && row[1] == t1 && row[2] == t2 && row[3] == t3 {
      assert row[0..4] == [t0, t1, t2, t3];
    }
  }

  /** A slice of four tiles never equals a list of five. */
  lemma FourNeverFive(slice: seq<Tile>, list: seq<Tile>)
    requires |slice| == 4 && |list| == 5
    ensures slice != list
  {
  }

  const CastlingMoves: seq<Move> := [Move(0, 3, 0, 1), Move(0, 3, 0, 5), Move(7, 3, 7, 1), Move(7, 3, 7, 5)]

  /**
   * Castling as a two-square king move. Column 0 is the h-file, so the moves
   * towards column 1 are kingside and those towards column 5 queenside. The
   * two queenside branches compare a four-tile slice with a five-tile list and
   * so never hold; only the kingside moves can succeed.
   */
  function CastlingRules(s: GameState, m: Move): (ok: bool)
    ensures ok ==> m == Move(0, 3, 0, 1) || m == Move(7, 3, 7, 1)
    ensures m == Move(0, 3, 0, 1) ==>
              (ok <==> s.board[0][0] == '5' && s.board[0][1] == Empty && s.board[0][2] == Empty && s.board[0][3] == '1'
                       && !s.whiteKingMoved && !s.whiteRook0Moved)
    ensures m == Move(7, 3, 7, 1) ==>
              (ok <==> s.board[7][0] == 'B' && s.board[7][1] == Empty && s.board[7][2] == Empty && s.board[7][3] == '7'
                       && !s.blackKingMoved && !s.blackRook0Moved)
  {
    var b := s.board;
    FourTiles(b[0], '5', '0', '0', '1');
    FourTiles(b[7], 'B', '0', '0', '7');
    FourNeverFive(b[0][4..8], ['1', '0', '0', '0', '5']);
    FourNeverFive(b[7][4..8], ['7', '0', '0', '0', 'B']);
    if m == Move(0, 3, 0, 1) && b[0][0..4] == ['5', '0', '0', '1'] && !s.whiteKingMoved && !s.whiteRook0Moved then
      true
    else if m == Move(7, 3, 7, 1) && b[7][0..4] == ['B', '0', '0', '7'] && !s.blackKingMoved && !s.blackRook0Moved then
      true
    else if m == Move(0, 3, 0, 5) && b[0][4..8] == ['1', '0', '0', '0', '5'] && !s.whiteKingMoved && !s.whiteRook7Moved then
      true
    else if m == Move(7, 3, 7, 5) && b[7][4..8] == ['7', '0', '0', '0', 'B'] && !s.blackKingMoved && s.blackRook7Moved then
      true
    else
      false
  }

  // ---------------------------------------------------------------------------
  // is_check
  // ---------------------------------------------------------------------------

  /** (r, c) comes strictly before (i, j) in row-major order. */
  predicate Before(r: int, c: int, i: int, j: int) {
    r < i || (r == i && c < j)
  }

  /**
   * (r, c) holds the king of `color` and no square after it in row-major
   * order does: the square the king-finding loop of is_check ends with.
   */
  predicate IsLastKing(b: Board, color: Color, r: int, c: int) {
    0 <= r < 8 && 0 <= c < 8 && b[r][c] == KingCode(color) &&
    forall i, j | 0 <= i < 8 && 0 <= j < 8 && Before(r, c, i, j) :: b[i][j] != KingCode(color)
  }

  lemma LastKingIsUnique(b: Board, color: Color, p: (int, int), q: (int, int))
    requires IsLastKing(b, color, p.0, p.1) && IsLastKing(b, color, q.0, q.1)
    ensures p == q
  {
  }

  /** The last index below j at which the row holds t, or -1. */
  function LastInRow(row: seq<Tile>, t: Tile, j: int): (r: int)
    requires 0 <= j <= |row|
    ensures -1 <= r < j
    ensures r >= 0 ==> row[r] == t
    ensures forall k | r < k < j :: row[k] != t
    decreases j
  {
    if j == 0 then -1 else if row[j - 1] == t then j - 1 else LastInRow(row, t, j - 1)
  }

  /** The last square of rows 0..i-1 that holds the king of `color`, if any. */
  function LastKingBelow(b: Board, color: Color, i: int): (k: Option<(int, int)>)
    requires 0 <= i <= 8
    decreases i
  {
    if i == 0 then None
    else
      var j := LastInRow(b[i - 1], KingCode(color), 8);
      if j >= 0 then Some((i - 1, j)) else LastKingBelow(b, color, i - 1)
  }

  /** LastKingBelow finds the row-major last king of the first i rows, and finds none only when there is none. */
  lemma {:induction false} LastKingBelowIsLast(b: Board, color: Color, i: int)
    requires 0 <= i <= 8
    ensures var k := LastKingBelow(b, color, i);
            && (k.None? ==> forall r, c | 0 <= r < i && 0 <= c < 8 :: b[r][c] != KingCode(color))
            && (k.Some? ==> 0 <= k.value.0 < i && 0 <= k.value.1 < 8 && b[k.value.0][k.value.1] == KingCode(color))
            && (k.Some? ==> forall r, c | 0 <= r < i && 0 <= c < 8 && Before(k.value.0, k.value.1, r, c) :: b[r][c] != KingCode(color))
    decreases i
  {
    if i > 0 {
      var t := KingCode(color);
      var j := LastInRow(b[i - 1], t, 8);
      if j >= 0 {
        forall r, c | 0 <= r < i && 0 <= c < 8 && Before(i - 1, j, r, c)
          ensures b[r][c] != t
        {
          assert r == i - 1 && j < c;
        }
      } else {
        var row := b[i - 1];
        assert forall c | 0 <= c < 8 :: row[c] != t;
        LastKingBelowIsLast(b, color, i - 1);
        var k := LastKingBelow(b, color, i - 1);
        if k.None? {
          forall r, c | 0 <= r < i && 0 <= c < 8
            ensures b[r][c] != t
          {
            if r == i - 1 {
              assert row[c] != t;
            }
          }
        } else {
          forall r, c | 0 <= r < i && 0 <= c < 8 && Before(k.value.0, k.value.1, r, c)
            ensures b[r][c] != t
          {
            if r == i - 1 {
              assert row[c] != t;
            }
          }
        }
      }
    }
  }

  /** The square is_check takes as the king's. */
  function KingSquare(b: Board, color: Color): (k: (int, int))
    requires KingPresent(b, color)
    ensures IsLastKing(b, color, k.0, k.1)
  {
    LastKingBelowIsLast(b, color, 8);
    LastKingBelow(b, color, 8).value
  }

  /**
   * The piece on (i, j) attacks the square (kr, kc) of the king of colour c,
   * judged as is_check judges it: an enemy king within one step, an enemy
   * knight by knight_rules, an enemy pawn one row forward for its colour and
   * one column aside (whatever stands there), an enemy queen, rook or bishop
   * by queen_rook_bishop_rules.
   */
  predicate Attacks(b: Board, i: int, j: int, kr: int, kc: int, c: Color)
    requires 0 <= i < 8 && 0 <= j < 8 && 0 <= kr < 8 && 0 <= kc < 8
  {
    (i, j) != (kr, kc) && ColorOf(b[i][j]) == Some(Opposite(c)) &&
    var kind := KindOf(b[i][j]).value;
    var move := Move(i, j, kr, kc);
    match kind
    case King => -1 <= i - kr <= 1 && -1 <= j - kc <= 1
    case Knight => KnightRules(b, move)
    case Pawn => kr == i + Forward(Opposite(c)) && (kc == j + 1 || kc == j - 1)
    case _ => SlideAllowed(b, move, kind)
  }

  /** Some square holds a piece attacking (kr, kc), the square of c's king. */
  predicate SquareAttacked(b: Board, kr: int, kc: int, c: Color)
    requires 0 <= kr < 8 && 0 <= kc < 8
  {
    exists i, j | 0 <= i < 8 && 0 <= j < 8 :: Attacks(b, i, j, kr, kc, c)
  }

  /** What is_check answers: the king of colour c is attacked. */
  predicate InCheck(b: Board, c: Color)
    requires KingPresent(b, c)
  {
    var k := KingSquare(b, c);
    SquareAttacked(b, k.0, k.1, c)
  }

  /** The king-finding loop of is_check: a later king overwrites an earlier one. */
  method FindKing(b: Board, c: Color) returns (king: (int, int))
    requires KingPresent(b, c)
    ensures IsLastKing(b, c, king.0, king.1)
  {
    king := (0, 0);
    var found := false;
    for i := 0 to 8
      invariant found ==> 0 <= king.0 < i && 0 <= king.1 < 8 && b[king.0][king.1] == KingCode(c)
      invariant found ==> forall r, col | 0 <= r < i && 0 <= col < 8 && Before(king.0, king.1, r, col) :: b[r][col] != KingCode(c)
      invariant !found ==> forall r, col | 0 <= r < i && 0 <= col < 8 :: b[r][col] != KingCode(c)
    {
      for j := 0 to 8
        invariant found ==> 0 <= king.0 < 8 && 0 <= king.1 < 8 && Before(king.0, king.1, i, j) && b[king.0][king.1] == KingCode(c)
        invariant found ==> forall r, col | 0 <= r < 8 && 0 <= col < 8 && Before(r, col, i, j) && Before(king.0, king.1, r, col) :: b[r][col] != KingCode(c)
        invariant !found ==> forall r, col | 0 <= r < 8 && 0 <= col < 8 && Before(r, col, i, j) :: b[r][col] != KingCode(c)
      {
        if b[i][j] == KingCode(c) {
          king := (i, j);
          found := true;
        }
      }
    }
  }

  /** One step of the attacker scan of is_check: does the piece on (i, j) attack the king? */
  method AttacksFrom(b: Board, i: int, j: int, king: (int, int), c: Color) returns (attacks: bool)
    requires 0 <= i < 8 && 0 <= j < 8 && 0 <= king.0 < 8 && 0 <= king.1 < 8 && (i, j) != king
    ensures attacks == Attacks(b, i, j, king.0, king.1, c)
  {
    var opponent := Opposite(c);
    var tile := b[i][j];
    attacks := false;
    if ColorOf(tile) == Some(opponent) {
      var move := Move(i, j, king.0, king.1);
      var kind := KindOf(tile).value;
      if kind == King && i - king.0 in [-1, 0, 1] && j - king.1 in [-1, 0, 1] {
        attacks := true;
      } else if kind == Knight && KnightRules(b, move) {
        attacks := true;
      } else if kind == Pawn {
        var forward := if opponent == White then 1 else -1;
        if king.0 == i + forward && (king.1 == j + 1 || king.1 == j - 1) {
          attacks := true;
        }
      } else if kind == Queen || kind == Rook || kind == Bishop {
        attacks := QueenRookBishopRules(b, move, kind);
      }
    }
  }

  lemma NoAttackerExtends(b: Board, king: (int, int), c: Color, i: int, j: int)
    requires 0 <= i < 8 && 0 <= j < 8 && 0 <= king.0 < 8 && 0 <= king.1 < 8
    requires forall r, col | 0 <= r < 8 && 0 <= col < 8 && Before(r, col, i, j) :: !Attacks(b, r, col, king.0, king.1, c)
    requires !Attacks(b, i, j, king.0, king.1, c)
    ensures forall r, col | 0 <= r < 8 && 0 <= col < 8 && Before(r, col, i, j + 1) :: !Attacks(b, r, col, king.0, king.1, c)
  {
    forall r, col | 0 <= r < 8 && 0 <= col < 8 && Before(r, col, i, j + 1)
      ensures !Attacks(b, r, col, king.0, king.1, c)
    {
      if (r, col) != (i, j) {
        assert Before(r, col, i, j);
      }
    }
  }

  method IsCheck(b: Board, c: Color) returns (check: bool)
    requires KingPresent(b, c)
    ensures check == InCheck(b, c)
  {
    var king := FindKing(b, c);
    LastKingIsUnique(b, c, king, KingSquare(b, c));
    for i := 0 to 8
      invariant forall r, col | 0 <= r < i && 0 <= col < 8 :: !Attacks(b, r, col, king.0, king.1, c)
    {
      for j := 0 to 8
        invariant forall r, col | 0 <= r < 8 && 0 <= col < 8 && Before(r, col, i, j) :: !Attacks(b, r, col, king.0, king.1, c)
      {
        if (i, j) == king {
          assert !Attacks(b, i, j, king.0, king.1, c);
          continue;
        }
        var attacks := AttacksFrom(b, i, j, king, c);
        if attacks {
          return true;
        }
        NoAttackerExtends(b, king, c, i, j);
      }
    }
    return false;
  }

  // ---------------------------------------------------------------------------
  // king_rules
  // ---------------------------------------------------------------------------

  const KingSteps: seq<(int, int)> := [(-1, -1), (-1, 0), (-1, 1), (0, -1), (0, 1), (1, -1), (1, 0), (1, 1)]

  /** The board king_rules tests: the mover's king code on the destination, the origin emptied. */
  function KingStepBoard(b: Board, m: Move): (b': Board)
    requires GeneralRules(b, m)
    ensures KingPresent(b', ColorOf(b[m.fromRow][m.fromCol]).value)
  {
    var color := ColorOf(b[m.fromRow][m.fromCol]).value;
    var b1 := With(b, m.toRow, m.toCol, if color == White then '1' else '7');
    var b2 := With(b1, m.fromRow, m.fromCol, Empty);
    assert b2[m.toRow][m.toCol] == KingCode(color);
    b2
  }

  /** What king_rules accepts: one step in any of the eight directions, not into check. */
  predicate KingStepAllowed(b: Board, m: Move) {
    GeneralRules(b, m) && (RowDelta(m), ColDelta(m)) in KingSteps &&
    !InCheck(KingStepBoard(b, m), ColorOf(b[m.fromRow][m.fromCol]).value)
  }

  method KingRules(b: Board, m: Move) returns (ok: bool)
    ensures ok == KingStepAllowed(b, m)
  {
    if !GeneralRules(b, m) {
      return false;
    }
    var vector := (m.toRow - m.fromRow, m.toCol - m.fromCol);
    assert vector == (RowDelta(m), ColDelta(m));
    if vector in KingSteps {
      var color := ColorOf(b[m.fromRow][m.fromCol]).value;
      var newBoard := With(b, m.toRow, m.toCol, if color == White then '1' else '7');
      newBoard := With(newBoard, m.fromRow, m.fromCol, Empty);
      assert newBoard == KingStepBoard(b, m);
      var check := IsCheck(newBoard, color);
      assert KingStepAllowed(b, m) == !InCheck(newBoard, color);
      return !check;
    }
    assert !KingStepAllowed(b, m);
    return false;
  }

  // ---------------------------------------------------------------------------
  // is_valid_move
  // ---------------------------------------------------------------------------

  /** A move that passes the general rules keeps the mover's king on the scratch board. */
  lemma SingleMoveKeepsKing(b: Board, m: Move, c: Color)
    requires GeneralRules(b, m) && ColorOf(b[m.fromRow][m.fromCol]) == Some(c) && KingPresent(b, c)
    ensures KingPresent(SingleMove(b, m), c)
  {
    var i, j :| 0 <= i < 8 && 0 <= j < 8 && b[i][j] == KingCode(c);
    var b' := SingleMove(b, m);
    if (i, j) == (m.fromRow, m.fromCol) {
      assert b'[m.toRow][m.toCol] == KingCode(c);
    } else {
      assert b'[i][j] == KingCode(c);
    }
  }

  /**
   * What is_valid_move needs in order not to fail: when the general rules
   * pass, the mover's king is on the board (is_check looks it up).
   */
  predicate CanValidate(b: Board, m: Move) {
    GeneralRules(b, m) ==> KingPresent(b, ColorOf(b[m.fromRow][m.fromCol]).value)
  }

  /**
   * What is_valid_move accepts: the general rules, then the self-check veto
   * on the board with only the moving piece moved, then the rule of the
   * piece's kind. The side to move is never consulted.
   */
  predicate Allowed(s: GameState, m: Move)
    requires CanValidate(s.board, m)
  {
    var b := s.board;
    GeneralRules(b, m) &&
    var color := ColorOf(b[m.fromRow][m.fromCol]).value;
    SingleMoveKeepsKing(b, m, color);
    !InCheck(SingleMove(b, m), color) &&
    PieceRule(s, m)
  }

  /** The rule of the moving piece's kind, as is_valid_move dispatches to it. */
  predicate PieceRule(s: GameState, m: Move)
    requires GeneralRules(s.board, m)
  {
    var b := s.board;
    var kind := KindOf(b[m.fromRow][m.fromCol]).value;
    match kind
    case King => (m in CastlingMoves && CastlingRules(s, m)) || KingStepAllowed(b, m)
    case Knight => KnightRules(b, m)
    case Pawn => PawnRules(s, m)
    case _ => SlideAllowed(b, m, kind)
  }

  method IsValidMove(s: GameState, m: Move) returns (ok: bool)
    requires CanValidate(s.board, m)
    ensures ok == Allowed(s, m)
  {
    var b := s.board;
    if !GeneralRules(b, m) {
      return false;
    }
    var color := ColorOf(b[m.fromRow][m.fromCol]).value;
    // the scratch copy: only the moving piece moves
    var newBoard := b;
    var movingPiece := newBoard[m.fromRow][m.fromCol];
    newBoard := With(newBoard, m.toRow, m.toCol, movingPiece);
    newBoard := With(newBoard, m.fromRow, m.fromCol, Empty);
    assert newBoard == SingleMove(b, m);
    SingleMoveKeepsKing(b, m, color);
    var check := IsCheck(newBoard, color);
    if check {
      return false;
    }
    ok := DispatchPieceRule(s, m);
  }

  /** The second half of is_valid_move: the rule for the kind of piece on the origin. */
  method DispatchPieceRule(s: GameState, m: Move) returns (ok: bool)
    requires GeneralRules(s.board, m)
    ensures ok == PieceRule(s, m)
  {
    var b := s.board;
    var kind := KindOf(b[m.fromRow][m.fromCol]).value;
    if kind == King {
      if m in CastlingMoves && CastlingRules(s, m) {
        ok := true;
      } else {
        ok := KingRules(b, m);
      }
    } else if kind == Knight {
      ok := KnightRules(b, m);
    } else if kind == Pawn {
      ok := PawnRules(s, m);
    } else {
      ok := QueenRookBishopRules(b, m, kind);
    }
  }

  // ---------------------------------------------------------------------------
  // is_check_mate
  // ---------------------------------------------------------------------------

  /**
   * A way out of check for colour c, as is_check_mate looks for one: a piece
   * of colour c whose move passes is_valid_move and whose single-piece board
   * is not in check.
   */
  predicate Escape(s: GameState, c: Color, m: Move)
    requires OnBoard(m) && KingPresent(s.board, c)
  {
    ColorOf(s.board[m.fromRow][m.fromCol]) == Some(c) && Allowed(s, m) &&
    (SingleMoveKeepsKing(s.board, m, c); !InCheck(SingleMove(s.board, m), c))
  }

  /** What is_check_mate answers: colour c is in check and has no escape among all 8x8x8x8 moves. */
  predicate Mated(s: GameState, c: Color)
    requires KingPresent(s.board, c)
  {
    InCheck(s.board, c) &&
    forall fr, fc, tr, tc | 0 <= fr < 8 && 0 <= fc < 8 && 0 <= tr < 8 && 0 <= tc < 8 :: !Escape(s, c, Move(fr, fc, tr, tc))
  }

  lemma NoEscapeExtends(s: GameState, c: Color, fr: int, fc: int, tr: int, tc: int)
    requires KingPresent(s.board, c)
    requires 0 <= fr < 8 && 0 <= fc < 8 && 0 <= tr < 8 && 0 <= tc < 8
    requires forall t, d | 0 <= t < 8 && 0 <= d < 8 && Before(t, d, tr, tc) :: !Escape(s, c, Move(fr, fc, t, d))
    requires !Escape(s, c, Move(fr, fc, tr, tc))
    ensures forall t, d | 0 <= t < 8 && 0 <= d < 8 && Before(t, d, tr, tc + 1) :: !Escape(s, c, Move(fr, fc, t, d))
  {
    forall t, d | 0 <= t < 8 && 0 <= d < 8 && Before(t, d, tr, tc + 1)
      ensures !Escape(s, c, Move(fr, fc, t, d))
    {
      if (t, d) != (tr, tc) {
        assert Before(t, d, tr, tc);
      }
    }
  }

  lemma NoEscapeFromExtends(s: GameState, c: Color, fr: int, fc: int)
    requires KingPresent(s.board, c)
    requires 0 <= fr < 8 && 0 <= fc < 8
    requires forall r, col, t, d | 0 <= r < 8 && 0 <= col < 8 && Before(r, col, fr, fc) && 0 <= t < 8 && 0 <= d < 8 :: !Escape(s, c, Move(r, col, t, d))
    requires forall t, d | 0 <= t < 8 && 0 <= d < 8 :: !Escape(s, c, Move(fr, fc, t, d))
    ensures forall r, col, t, d | 0 <= r < 8 && 0 <= col < 8 && Before(r, col, fr, fc + 1) && 0 <= t < 8 && 0 <= d < 8 :: !Escape(s, c, Move(r, col, t, d))
  {
    forall r, col, t, d | 0 <= r < 8 && 0 <= col < 8 && Before(r, col, fr, fc + 1) && 0 <= t < 8 && 0 <= d < 8
      ensures !Escape(s, c, Move(r, col, t, d))
    {
      if (r, col) != (fr, fc) {
        assert Before(r, col, fr, fc);
      }
    }
  }

  /** A square that does not hold a piece of colour c offers c no escape. */
  lemma NoEscapeFromForeign(s: GameState, c: Color, fr: int, fc: int)
    requires KingPresent(s.board, c)
    requires 0 <= fr < 8 && 0 <= fc < 8 && ColorOf(s.board[fr][fc]) != Some(c)
    ensures forall t, d | 0 <= t < 8 && 0 <= d < 8 :: !Escape(s, c, Move(fr, fc, t, d))
  {
  }

  /**
   * The two inner loops of is_check_mate for one piece of colour c on
   * (fr, fc): every destination is tried with is_valid_move and the
   * single-piece board is tested for check.
   */
  method EscapeFrom(s: GameState, c: Color, fr: int, fc: int) returns (found: bool)
    requires KingPresent(s.board, c)
    requires 0 <= fr < 8 && 0 <= fc < 8 && ColorOf(s.board[fr][fc]) == Some(c)
    ensures found ==> exists t, d | 0 <= t < 8 && 0 <= d < 8 :: Escape(s, c, Move(fr, fc, t, d))
    ensures !found ==> forall t, d | 0 <= t < 8 && 0 <= d < 8 :: !Escape(s, c, Move(fr, fc, t, d))
  {
    var b := s.board;
    for tr := 0 to 8
      invariant forall t, d | 0 <= t < tr && 0 <= d < 8 :: !Escape(s, c, Move(fr, fc, t, d))
    {
      for tc := 0 to 8
        invariant forall t, d | 0 <= t < 8 && 0 <= d < 8 && Before(t, d, tr, tc) :: !Escape(s, c, Move(fr, fc, t, d))
      {
        var m := Move(fr, fc, tr, tc);
        var valid := IsValidMove(s, m);
        if valid {
          var newBoard := b;
          newBoard := With(newBoard, tr, tc, b[fr][fc]);
          newBoard := With(newBoard, fr, fc, Empty);
          assert newBoard == SingleMove(b, m);
          SingleMoveKeepsKing(b, m, c);
          var stillCheck := IsCheck(newBoard, c);
          if !stillCheck {
            assert Escape(s, c, m);
            return true;
          }
        }
        NoEscapeExtends(s, c, fr, fc, tr, tc);
      }
    }
    return false;
  }

  method IsCheckMate(s: GameState, c: Color) returns (mate: bool)
    requires KingPresent(s.board, c)
    ensures mate == Mated(s, c)
  {
    var b := s.board;
    var check := IsCheck(b, c);
    if !check {
      return false;
    }
    for fr := 0 to 8
      invariant forall r, col, t, d | 0 <= r < fr && 0 <= col < 8 && 0 <= t < 8 && 0 <= d < 8 :: !Escape(s, c, Move(r, col, t, d))
    {
      for fc := 0 to 8
        invariant forall r, col, t, d | 0 <= r < 8 && 0 <= col < 8 && Before(r, col, fr, fc) && 0 <= t < 8 && 0 <= d < 8 :: !Escape(s, c, Move(r, col, t, d))
      {
        if ColorOf(b[fr][fc]) == Some(c) {
          var found := EscapeFrom(s, c, fr, fc);
          if found {
            return false;
          }
        } else {
          NoEscapeFromForeign(s, c, fr, fc);
        }
        NoEscapeFromExtends(s, c, fr, fc);
      }
    }
    return true;
  }
}
