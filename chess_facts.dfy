/**
 * Properties of the rules engine that relate several of its functions: the
 * self-check veto, the castling rules as is_valid_move applies them, what
 * the sliding and jumping rules look at, how check is given, and what the
 * checkmate search amounts to.
 */
module ChessFacts {
  import opened Wrappers
  import opened Pieces
  import opened GameStates
  import opened ChessRules

  /** Every move is_valid_move accepts passes the general rules: on the board, a piece on the origin, no own piece on the destination. */
  lemma AllowedPassesGeneralRules(s: GameState, m: Move)
    requires CanValidate(s.board, m) && Allowed(s, m)
    ensures OnBoard(m) && s.board[m.fromRow][m.fromCol] != Empty
    ensures ColorOf(s.board[m.toRow][m.toCol]) != ColorOf(s.board[m.fromRow][m.fromCol])
    ensures (m.fromRow, m.fromCol) != (m.toRow, m.toCol)
  {
  }

  /**
   * The self-check veto: whatever the piece, a move whose board with only
   * that piece moved leaves the mover's king attacked is refused.
   */
  lemma SelfCheckVeto(s: GameState, m: Move)
    requires CanValidate(s.board, m) && GeneralRules(s.board, m)
    requires InCheck(SingleMoveKept(s.board, m), ColorOf(s.board[m.fromRow][m.fromCol]).value)
    ensures !Allowed(s, m)
  {
  }

  /** The board of the veto, with the fact that the mover's king is still on it. */
  function SingleMoveKept(b: Board, m: Move): (b': Board)
    requires GeneralRules(b, m) && KingPresent(b, ColorOf(b[m.fromRow][m.fromCol]).value)
    ensures b' == SingleMove(b, m) && KingPresent(b', ColorOf(b[m.fromRow][m.fromCol]).value)
  {
    SingleMoveKeepsKing(b, m, ColorOf(b[m.fromRow][m.fromCol]).value);
    SingleMove(b, m)
  }

  /** Legality never reads whose turn it is. */
  lemma SideToMoveIgnored(s: GameState, m: Move, c: Color)
    requires CanValidate(s.board, m)
    ensures Allowed(s.(nextMoveColor := c), m) == Allowed(s, m)
  {
    var s' := s.(nextMoveColor := c);
    if GeneralRules(s.board, m) {
      PieceRuleSameInputs(s, s', m);
    }
  }

  /** The piece rules read the board, the last move and the six flags, nothing else. */
  lemma PieceRuleSameInputs(s: GameState, s': GameState, m: Move)
    requires GeneralRules(s.board, m)
    requires s'.board == s.board && s'.lastPieceMoved == s.lastPieceMoved && s'.lastMove == s.lastMove
    requires s'.whiteKingMoved == s.whiteKingMoved && s'.whiteRook0Moved == s.whiteRook0Moved
    requires s'.blackKingMoved == s.blackKingMoved && s'.blackRook0Moved == s.blackRook0Moved
    requires s'.whiteRook7Moved == s.whiteRook7Moved && s'.blackRook7Moved == s.blackRook7Moved
    ensures PieceRule(s', m) == PieceRule(s, m)
  {
    var k := KindOf(s.board[m.fromRow][m.fromCol]).value;
    if k == King {
      assert CastlingRules(s', m) == CastlingRules(s, m);
    } else if k == Pawn {
      assert PawnRules(s', m) == PawnRules(s, m);
    }
  }

  /** An accepted king move is a castling move that castling_rules accepts or a step king_rules accepts. */
  lemma AllowedKingMove(s: GameState, m: Move)
    requires CanValidate(s.board, m) && Allowed(s, m)
    requires OnBoard(m) && KindOf(s.board[m.fromRow][m.fromCol]) == Some(King)
    ensures (m in CastlingMoves && CastlingRules(s, m)) || KingStepAllowed(s.board, m)
  {
  }

  /** castling_rules itself never accepts the two queenside moves, where the king goes to column 5 (the c-file). */
  lemma QueensideCastlingNeverHolds(s: GameState, m: Move)
    requires m == Move(0, 3, 0, 5) || m == Move(7, 3, 7, 5)
    ensures !CastlingRules(s, m)
  {
  }

  /** A king step covers one square; castling moves cover two. */
  lemma CastlingIsNoKingStep(b: Board, m: Move)
    requires m in CastlingMoves
    ensures !KingStepAllowed(b, m)
  {
    assert (RowDelta(m), ColDelta(m)) !in KingSteps;
  }

  /** A king never gets to (0, 5) from (0, 3), or to (7, 5) from (7, 3): queenside castling is always refused. */
  lemma QueensideCastlingRefused(s: GameState, m: Move)
    requires m == Move(0, 3, 0, 5) || m == Move(7, 3, 7, 5)
    requires KindOf(s.board[m.fromRow][m.fromCol]) == Some(King)
    requires CanValidate(s.board, m)
    ensures !Allowed(s, m)
  {
    if Allowed(s, m) {
      AllowedKingMove(s, m);
      QueensideCastlingNeverHolds(s, m);
      CastlingIsNoKingStep(s.board, m);
    }
  }

  /**
   * White's castling towards column 0, as is_valid_move decides it: the
   * rook, two empty squares and the king on row 0, neither piece moved, and
   * the king not attacked once it stands on (0, 1). The square it passes
   * over is not examined and the rook is not moved on the scratch board.
   */
  lemma WhiteKingsideCastling(s: GameState)
    requires s.board[0][3] == '1'
    requires CanValidate(s.board, Move(0, 3, 0, 1))
    ensures var m := Move(0, 3, 0, 1);
            Allowed(s, m) <==>
              s.board[0][0] == '5' && s.board[0][1] == Empty && s.board[0][2] == Empty
              && !s.whiteKingMoved && !s.whiteRook0Moved
              && GeneralRules(s.board, m) && !InCheck(SingleMoveKept(s.board, m), White)
  {
    var m := Move(0, 3, 0, 1);
    CastlingIsNoKingStep(s.board, m);
    if Allowed(s, m) {
      AllowedKingMove(s, m);
    }
  }

  /** Black's castling towards column 0, the mirror image on row 7. */
  lemma BlackKingsideCastling(s: GameState)
    requires s.board[7][3] == '7'
    requires CanValidate(s.board, Move(7, 3, 7, 1))
    ensures var m := Move(7, 3, 7, 1);
            Allowed(s, m) <==>
              s.board[7][0] == 'B' && s.board[7][1] == Empty && s.board[7][2] == Empty
              && !s.blackKingMoved && !s.blackRook0Moved
              && GeneralRules(s.board, m) && !InCheck(SingleMoveKept(s.board, m), Black)
  {
    var m := Move(7, 3, 7, 1);
    CastlingIsNoKingStep(s.board, m);
    if Allowed(s, m) {
      AllowedKingMove(s, m);
    }
  }

  /** A knight jumps: only its origin and destination squares decide knight_rules. */
  lemma KnightIgnoresBlockers(b: Board, b': Board, m: Move)
    requires OnBoard(m)
    requires b'[m.fromRow][m.fromCol] == b[m.fromRow][m.fromCol] && b'[m.toRow][m.toCol] == b[m.toRow][m.toCol]
    ensures KnightRules(b', m) == KnightRules(b, m)
  {
  }

  /**
   * A sliding piece sees only its two ends and the squares strictly between
   * them: boards that agree there agree on queen_rook_bishop_rules.
   */
  lemma SlideSeesOnlyItsPath(b: Board, b': Board, m: Move, k: Kind)
    requires Sliding(k) && OnBoard(m) && (Straight(m) || Diagonal(m))
    requires b'[m.fromRow][m.fromCol] == b[m.fromRow][m.fromCol] && b'[m.toRow][m.toCol] == b[m.toRow][m.toCol]
    requires forall i | 1 <= i < Steps(m) ::
               b'[Step(m.fromRow, RowDelta(m), i)][Step(m.fromCol, ColDelta(m), i)]
               == b[Step(m.fromRow, RowDelta(m), i)][Step(m.fromCol, ColDelta(m), i)]
    ensures SlideAllowed(b', m, k) == SlideAllowed(b, m, k)
  {
    if DirectionOk(m, k) && Steps(m) >= 2 {
      assert PathClear(b', m) == PathClear(b, m);
    }
  }

  /**
   * A well-directed slide of two or more steps that passes the general rules
   * is refused exactly when some square strictly between the ends is occupied.
   */
  lemma SlideBlocked(b: Board, m: Move, k: Kind)
    requires Sliding(k) && GeneralRules(b, m) && DirectionOk(m, k) && Steps(m) >= 2
    ensures !SlideAllowed(b, m, k) <==>
            exists i | 1 <= i < Steps(m) :: b[Step(m.fromRow, RowDelta(m), i)][Step(m.fromCol, ColDelta(m), i)] != Empty
  {
  }

  /** An enemy king one step away gives check, although a king can never move there itself. */
  lemma AdjacentKingGivesCheck(b: Board, c: Color, i: int, j: int)
    requires KingPresent(b, c) && 0 <= i < 8 && 0 <= j < 8
    requires b[i][j] == KingCode(Opposite(c))
    requires Abs(i - KingSquare(b, c).0) <= 1 && Abs(j - KingSquare(b, c).1) <= 1
    ensures InCheck(b, c)
  {
    var k := KingSquare(b, c);
    assert Attacks(b, i, j, k.0, k.1, c);
  }

  /**
   * An enemy pawn one row behind the king in its own marching direction and
   * one column aside gives check, whatever stands in between or around.
   */
  lemma PawnGivesCheck(b: Board, c: Color, i: int, j: int)
    requires KingPresent(b, c) && 0 <= i < 8 && 0 <= j < 8
    requires b[i][j] == CodeOf(Opposite(c), Pawn)
    requires KingSquare(b, c).0 == i + Forward(Opposite(c)) && Abs(KingSquare(b, c).1 - j) == 1
    ensures InCheck(b, c)
  {
    var k := KingSquare(b, c);
    assert Attacks(b, i, j, k.0, k.1, c);
  }

  /** An enemy knight at a knight's offset from the king gives check. */
  lemma KnightGivesCheck(b: Board, c: Color, i: int, j: int)
    requires KingPresent(b, c) && 0 <= i < 8 && 0 <= j < 8
    requires b[i][j] == CodeOf(Opposite(c), Knight)
    requires var k := KingSquare(b, c);
             (Abs(k.0 - i) == 1 && Abs(k.1 - j) == 2) || (Abs(k.0 - i) == 2 && Abs(k.1 - j) == 1)
    ensures InCheck(b, c)
  {
    var k := KingSquare(b, c);
    assert KnightRules(b, Move(i, j, k.0, k.1));
    assert Attacks(b, i, j, k.0, k.1, c);
  }

  /** The check test of is_check_mate is redundant: an escape is simply an accepted move of a piece of colour c. */
  lemma EscapeIsAllowedMove(s: GameState, c: Color, m: Move)
    requires OnBoard(m) && KingPresent(s.board, c)
    ensures Escape(s, c, m) <==> ColorOf(s.board[m.fromRow][m.fromCol]) == Some(c) && Allowed(s, m)
  {
  }

  /** No check, no mate. */
  lemma NoCheckNoMate(s: GameState, c: Color)
    requires KingPresent(s.board, c) && !InCheck(s.board, c)
    ensures !Mated(s, c)
  {
  }

  /**
   * Checkmate as is_check_mate decides it: colour c is in check and
   * is_valid_move accepts no move of any piece of colour c.
   */
  lemma MatedIffNoAllowedMove(s: GameState, c: Color)
    requires KingPresent(s.board, c)
    ensures Mated(s, c) <==>
            InCheck(s.board, c) &&
            forall fr, fc, tr, tc | 0 <= fr < 8 && 0 <= fc < 8 && 0 <= tr < 8 && 0 <= tc < 8
                                    && ColorOf(s.board[fr][fc]) == Some(c) :: !Allowed(s, Move(fr, fc, tr, tc))
  {
    forall fr, fc, tr, tc | 0 <= fr < 8 && 0 <= fc < 8 && 0 <= tr < 8 && 0 <= tc < 8
      ensures Escape(s, c, Move(fr, fc, tr, tc)) <==>
              ColorOf(s.board[fr][fc]) == Some(c) && Allowed(s, Move(fr, fc, tr, tc))
    {
      EscapeIsAllowedMove(s, c, Move(fr, fc, tr, tc));
    }
  }
}
