# A verified model of a two-player chess web application

The application stores each game as a 64-character `tiles` string, one
character per square:
- `'0'` is an empty square;
- `'1'`..`'6'` are the white king, queen, bishop, knight, rook and pawn;
- `'7'`..`'C'` are the black pieces in the same order.

Row 0 is white's back rank, and the kings start on column 3.

Before a move is applied, the rules engine decides whether it is legal.
It rebuilds a `GameState` from the game and its recorded moves:
- the board;
- the side to move;
- the last piece moved and the last move;
- six has-moved flags for the kings and rooks.

The engine then applies these tests in order:
1. the general rules;
2. a self-check veto on a scratch board;
3. the rule for the piece's kind.

`make_move` then does the following:
- rewrites the board (the capture, the en-passant victim, the move itself and the castling rook);
- works out the opponent's status (check mate, check or active);
- saves the tiles and records the move.

The routes do the rest:
- the form route parses a move string such as `f2f4`;
- the form route refuses games whose status is above 3;
- both move routes validate before they apply;
- the games page splits the active games into "my turn" and "waiting".

The user model validates registration and profile forms by pushing flash messages.

The model keeps the engine's departures from the Laws of Chess exactly as written:
- There is no pawn promotion.
- `is_valid_move` never checks whose turn it is.
- Castling does not test whether the king is in check before it moves, or on the square it passes over. Only its destination is tested, by the self-check veto.
- The scratch boards of the self-check veto and the checkmate search move only the moving piece. A castling rook and an en-passant victim stay in place on them.
- Column 0 is the h-file, so a king moving from column 3 to column 1 castles kingside and one moving to column 5 castles queenside. Both queenside castling branches compare a 4-tile slice with a 5-tile list, so queenside castling never succeeds.
- The black queenside branch also tests `black_rook_7_moved` without `not`.
- En passant checks where the enemy pawn's last move started: its double-step start row and the capture column. It also checks the row that move ended on. It never checks the column that move ended on.
- `is_check` takes the *last* king it finds in row-major order.
- A pawn attacks diagonally forward whatever stands there.
- The rook half of castling in `make_move` fires for the four king move tuples, whichever piece makes the move.
- The JSON move route has no game-over gate.

Layout, one module per file:
- `wrappers.dfy`: `Option`.
- `pieces.dfy`: the piece table, tiles, board, move and one-cell update.
- `game_state.dfy`: the `GameState` record.
- `chess_rules.dfy`: every rule. Pure rules are functions. Rules with loops or scratch boards are methods, each proved equal to a specification predicate (`SlideAllowed`, `KingStepAllowed`, `InCheck`, `Allowed`, `Mated`).
- `chess_facts.dfy`: properties connecting the rules.
- `game.dfy`: `tiles_array`, flattening, `make_move`, the game state read back from the game, and the turn helpers.
- `games_controller.dfy`: the routes.
- `user.dfy`: the validators.

## Model

| member | source | states |
|---|---|---|
| Pieces.ColorOf | flask_app/helpers/chess_rules.py:11-25 | The colour column is absent exactly for the empty tile `'0'`. |
| Pieces.KindOf | flask_app/helpers/chess_rules.py:11-25 | The kind column is absent exactly for the empty tile `'0'`. |
| Pieces.CodeOf | flask_app/helpers/chess_rules.py:11-25 | Reading the table backwards gives a code whose colour and kind are the ones asked for. |
| Pieces.TableIsOneToOne | flask_app/helpers/chess_rules.py:11-25 | Every non-empty code is the code of its own (colour, kind) entry, so the table is one-to-one. |
| Pieces.With | flask_app/helpers/chess_rules.py:52-56 | Overwriting one cell of the board copy puts the tile there and leaves every other square unchanged. |
| ChessRules.GeneralRules | flask_app/helpers/chess_rules.py:90-114 | Accepts exactly when all four coordinates are in 0..7, the origin holds a piece, and the destination does not hold a piece of the same colour. An accepted move never stays put, and its destination is empty or holds an enemy piece. |
| ChessRules.KnightRules | flask_app/helpers/chess_rules.py:144-154 | Accepts exactly when the general rules pass and the displacement is (±1, ±2) or (±2, ±1). |
| ChessRules.SlideAllowed | flask_app/helpers/chess_rules.py:158-213 | The specification of `queen_rook_bishop_rules`. It is pinned down by `QueenRookBishopRules`, `SlideBlocked` and `SlideSeesOnlyItsPath`: the general rules, the kind's direction, and an empty path when the move covers two or more steps. |
| ChessRules.PathClear | flask_app/helpers/chess_rules.py:206-210 | Every square strictly between origin and destination is empty. `ScanPath` shows the loop computes it, and `SlideBlocked` shows an occupied square refuses the slide. |
| ChessRules.QueenRookBishopRules | flask_app/helpers/chess_rules.py:158-213 | Equals `SlideAllowed`: the general rules pass, a rook moves straight, a bishop diagonally, a queen either way, and every square strictly between origin and destination is empty. |
| ChessRules.ScanPath | flask_app/helpers/chess_rules.py:183-210 | The unit-step scan over the intermediate squares answers exactly whether they are all empty. |
| ChessRules.StepsOnBoard | flask_app/helpers/chess_rules.py:189-209 | Every unit step between origin and destination of a straight or diagonal move stays on the board. |
| ChessRules.PawnRules | flask_app/helpers/chess_rules.py:218-267 | An accepted pawn move is one of four displacements: one row forward, two rows forward, or one row forward and one column aside. |
| ChessRules.PawnAdvance | flask_app/helpers/chess_rules.py:231-243 | One step forward is accepted exactly onto an empty square. Two steps forward are accepted exactly from the starting row with both squares ahead empty. |
| ChessRules.EnPassantHistory | flask_app/helpers/chess_rules.py:252-265 | The history test of an en-passant capture. `PawnCapture` shows it decides a diagonal pawn step onto an empty square. It checks the capturing pawn's row, the last piece, and the last move's start square and end row. |
| ChessRules.PawnCapture | flask_app/helpers/chess_rules.py:245-267 | Diagonally forward, a pawn is always accepted onto an enemy piece and never onto its own colour. Onto an empty square it is accepted exactly under four conditions: the pawn stands on its fifth rank (row 4 for white, 3 for black); the last piece moved was an enemy pawn; that move started on the enemy's pawn row in the capture column; and it ended on the pawn's row. The column it ended on is not checked. |
| ChessRules.FourNeverFive | flask_app/helpers/chess_rules.py:282-286 | A 4-tile slice never equals a 5-tile list, which is why the queenside branches never hold. |
| ChessRules.CastlingRules | flask_app/helpers/chess_rules.py:274-289 | Only the two moves towards column 0 can succeed. Each succeeds exactly when its four back-rank tiles are rook, empty, empty, king and neither its king flag nor its rook flag is set. |
| ChessRules.LastKingIsUnique | flask_app/helpers/chess_rules.py:303-307 | At most one square is the last king in row-major order. |
| ChessRules.LastKingBelowIsLast | flask_app/helpers/chess_rules.py:303-307 | The row-by-row search returns the last king of the rows it covers, or nothing exactly when those rows hold no king. |
| ChessRules.KingSquare | flask_app/helpers/chess_rules.py:303-307 | When the king is present, the square `is_check` uses holds the king and no later square does. |
| ChessRules.FindKing | flask_app/helpers/chess_rules.py:303-307 | The nested loop that overwrites `king` ends on the last king in row-major order. |
| ChessRules.AttacksFrom | flask_app/helpers/chess_rules.py:319-343 | One scan step answers whether the piece on (i, j) attacks the king in the way `is_check` judges attacks. |
| ChessRules.Attacks | flask_app/helpers/chess_rules.py:319-343 | One enemy piece attacking the king square, judged by kind as `is_check` does. `AttacksFrom` computes it, and `AdjacentKingGivesCheck`, `PawnGivesCheck` and `KnightGivesCheck` spell it out per kind. |
| ChessRules.InCheck | flask_app/helpers/chess_rules.py:300-346 | `is_check`: some enemy piece attacks the last king of the colour. `IsCheck` computes it; `NoCheckNoMate` and `StatusMeaning` use it. |
| ChessRules.IsCheck | flask_app/helpers/chess_rules.py:300-346 | Answers `InCheck`: some enemy piece attacks the king's square. An enemy king counts within one step, a knight by `knight_rules`, a pawn one row forward and one column aside, and a queen, rook or bishop by `queen_rook_bishop_rules`. |
| ChessRules.KingStepBoard | flask_app/helpers/chess_rules.py:130-134 | The board `king_rules` tests still holds the mover's king, so `is_check` can run on it. |
| ChessRules.KingStepAllowed | flask_app/helpers/chess_rules.py:121-142 | The specification of `king_rules`. `KingRules` computes it. `CastlingIsNoKingStep` shows no castling tuple satisfies it. |
| ChessRules.KingRules | flask_app/helpers/chess_rules.py:121-142 | Equals `KingStepAllowed`: the general rules pass, the move is one of the eight unit vectors, and the king is not in check after it. |
| ChessRules.SingleMoveKeepsKing | flask_app/helpers/chess_rules.py:52-58 | A move that passes the general rules keeps the mover's king on the scratch board. |
| ChessRules.Allowed | flask_app/helpers/chess_rules.py:37-86 | The specification of `is_valid_move`. `IsValidMove` computes it. `AllowedPassesGeneralRules`, `SelfCheckVeto`, `SideToMoveIgnored` and `AllowedKingMove` state what it implies. |
| ChessRules.PieceRule | flask_app/helpers/chess_rules.py:64-86 | The kind dispatch of `is_valid_move`. `DispatchPieceRule` computes it, and `PieceRuleSameInputs` shows it ignores the side to move. |
| ChessRules.IsValidMove | flask_app/helpers/chess_rules.py:37-86 | Equals `Allowed`: the general rules pass, the mover is not in check on the board with only the moving piece moved, and the rule for the piece's kind accepts the move. |
| ChessRules.DispatchPieceRule | flask_app/helpers/chess_rules.py:64-86 | The kind dispatch: a king is accepted by castling on the four castling tuples or by `king_rules`; a knight, a pawn and the sliding pieces by their own rules. |
| ChessRules.NoEscapeFromForeign | flask_app/helpers/chess_rules.py:374-377 | A square that does not hold a piece of the checked colour offers no escape. |
| ChessRules.Escape | flask_app/helpers/chess_rules.py:374-392 | One way out of check as `is_check_mate` looks for it. `EscapeIsAllowedMove` shows it is an accepted move of the colour's own piece that leaves the single-piece board out of check; `EscapeFrom` searches for it. |
| ChessRules.EscapeFrom | flask_app/helpers/chess_rules.py:379-392 | From one origin, the search finds a move that passes `is_valid_move` and leaves the king out of check exactly when one exists. |
| ChessRules.Mated | flask_app/helpers/chess_rules.py:354-395 | The specification of `is_check_mate`. `IsCheckMate` computes it. `MatedIffNoAllowedMove` states it as check plus no accepted escaping move, and `NoCheckNoMate` shows it needs check. |
| ChessRules.IsCheckMate | flask_app/helpers/chess_rules.py:354-395 | Equals `Mated`: the colour is in check and none of the 8x8x8x8 candidate moves of its pieces both passes `is_valid_move` and leaves the single-piece board out of check. |
| ChessFacts.AllowedPassesGeneralRules | flask_app/helpers/chess_rules.py:41-42 | Every accepted move is on the board, starts from a piece, does not land on its own colour and changes square. |
| ChessFacts.SelfCheckVeto | flask_app/helpers/chess_rules.py:50-59 | A move that leaves the mover's king in check on the single-piece board is refused, whatever the piece rule says. |
| Pieces.SingleMove | flask_app/helpers/chess_rules.py:52-56 | The scratch board with only the moving piece moved. `SingleMoveKept` and `SingleMoveKeepsKing` show it keeps the mover's king. |
| ChessFacts.SingleMoveKept | flask_app/helpers/chess_rules.py:52-56 | The scratch board of the veto is the single-piece move and still holds the mover's king. |
| ChessFacts.SideToMoveIgnored | flask_app/helpers/chess_rules.py:37-86 | Changing the side to move never changes the verdict of `is_valid_move`: there is no turn check. |
| ChessFacts.PieceRuleSameInputs | flask_app/helpers/chess_rules.py:64-86 | The piece rules depend only on the board, the last move and the six flags. |
| ChessFacts.AllowedKingMove | flask_app/helpers/chess_rules.py:65-71 | An accepted king move is either a castling tuple accepted by `castling_rules` or a one-step move accepted by `king_rules`. |
| ChessFacts.QueensideCastlingNeverHolds | flask_app/helpers/chess_rules.py:282-287 | `castling_rules` refuses the queenside moves (0,3,0,5) and (7,3,7,5) on every state. |
| ChessFacts.CastlingIsNoKingStep | flask_app/helpers/chess_rules.py:128 | The castling tuples are two columns long, so `king_rules` refuses them. |
| ChessFacts.QueensideCastlingRefused | flask_app/helpers/chess_rules.py:65-71 | `is_valid_move` refuses queenside castling, a king moving (0,3)->(0,5) or (7,3)->(7,5), on every state. |
| ChessFacts.WhiteKingsideCastling | flask_app/helpers/chess_rules.py:65-67 | White's kingside castling (0,3)->(0,1) is accepted exactly under three conditions. First, the rook, two empty squares and the pieces' flags allow it. Second, the general rules pass. Third, the king standing on (0,1) of the single-piece board is not in check. |
| ChessFacts.BlackKingsideCastling | flask_app/helpers/chess_rules.py:65-67 | The mirror statement for black's kingside castling (7,3)->(7,1). |
| ChessFacts.KnightIgnoresBlockers | flask_app/helpers/chess_rules.py:144-154 | Only the origin and destination squares decide `knight_rules`. |
| ChessFacts.SlideSeesOnlyItsPath | flask_app/helpers/chess_rules.py:158-213 | Two boards that agree on the origin, the destination and the squares in between get the same verdict from `queen_rook_bishop_rules`. |
| ChessFacts.SlideBlocked | flask_app/helpers/chess_rules.py:206-210 | A well-directed move of two or more steps is refused exactly when some square in between is occupied. |
| ChessFacts.AdjacentKingGivesCheck | flask_app/helpers/chess_rules.py:333-334 | An enemy king next to the king gives check. |
| ChessFacts.PawnGivesCheck | flask_app/helpers/chess_rules.py:338-341 | An enemy pawn one row behind the king in its own forward direction, and one column aside, gives check. |
| ChessFacts.KnightGivesCheck | flask_app/helpers/chess_rules.py:335-336 | An enemy knight a knight's jump away gives check. |
| ChessFacts.EscapeIsAllowedMove | flask_app/helpers/chess_rules.py:377-392 | An escape is exactly an accepted move of a piece of the checked colour. |
| ChessFacts.NoCheckNoMate | flask_app/helpers/chess_rules.py:360-362 | Without check there is no check mate. |
| ChessFacts.MatedIffNoAllowedMove | flask_app/helpers/chess_rules.py:354-395 | Check mate holds exactly when the colour is in check and `is_valid_move` accepts no move of any of its pieces. |
| Games.TilesArray | flask_app/models/game.py:131-139 | Square (i, j) of the board is character 8i+j of the tiles string. |
| Games.ConcatOfRows | flask_app/models/game.py:447-450 | Concatenating rows of eight puts square (i, j) at position 8i+j. |
| Games.Flatten | flask_app/models/game.py:447-450 | The board written row by row is 64 tiles long, with square (i, j) at position 8i+j. |
| Games.TilesRoundTrip | flask_app/models/game.py:139 | Cutting a tiles string into rows and writing the rows back gives the same string. |
| Games.BoardRoundTrip | flask_app/models/game.py:447-450 | Writing a board as a string and cutting it again gives the same board. |
| Games.OpeningBoard | flask_app/models/game.py:64-71 | The opening position is 64 tiles long, with the white king on (0,3), the black king on (7,3) and the queens beside them on (0,4) and (7,4), so both kings are present. |
| Games.EnPassantCapture | flask_app/models/game.py:383-389 | `make_move`'s en-passant test on the board alone. `CapturedPiece` and `MovedBoardCells` show its effect: the other side's pawn is recorded and removed. |
| Games.Captured | flask_app/models/game.py:383-393 | The `captured` value. `CapturedPiece` pins it down in all three cases. |
| Games.CapturedPiece | flask_app/models/game.py:383-393 | The recorded capture is one of three things. It is the piece on the destination when there is one. On an en-passant move it is the other colour's pawn. Otherwise it is nothing. |
| Games.RookRelocated | flask_app/models/game.py:399-413 | The rook half of castling. `MovedBoardCells` states the two rook squares of each tuple. |
| Games.MovedBoard | flask_app/models/game.py:375-413 | The board `make_move` saves. `MovedBoardCells` gives every cell of it, and `CaptureAccounting` the multiset of its tiles. |
| Games.MovedBoardCells | flask_app/models/game.py:375-413 | After the move the destination holds the moving piece and the origin is empty. An en-passant victim is cleared. Each castling tuple empties its rook's square and puts the rook on its new square. Every other square is unchanged. |
| Games.TallyWith | flask_app/models/game.py:396-397 | Overwriting a square trades its old tile for the new one in the board's multiset of tiles. |
| Games.CaptureAccounting | flask_app/models/game.py:383-397 | Outside castling, a move keeps every piece except the recorded capture, which is replaced by an empty square. Without a capture the multiset of tiles is unchanged. |
| Games.SideToMove | flask_app/models/game.py:207 | White is to move exactly when the number of recorded moves is even. |
| Games.SideToMoveAlternates | flask_app/models/game.py:207 | White moves first, and each recorded move hands the turn to the other colour. |
| Games.MoveNumber | flask_app/models/game.py:170-172 | A white move and the black reply make one numbered move: n moves give move number r with n = 2r or n = 2r − 1. |
| Games.IsPlayersTurn | flask_app/models/game.py:174-182 | It is the viewer's turn exactly when the viewer's colour is the side to move of `game_state`. |
| Games.PieceHasMoved | flask_app/models/game.py:487-501 | `piece_has_moved` over the recorded moves. `PieceHasMovedAppend` shows how one more move changes it. |
| Games.PieceHasMovedAppend | flask_app/models/game.py:487-501 | After one more recorded move, a square has been moved from exactly when it had been before or the new move starts on it. |
| Games.OpponentOf | flask_app/models/game.py:420-421 | The side handed the turn is the opposite of the moving piece's colour. |
| Games.AfterMove | flask_app/models/game.py:423-434 | `new_game_state`. `FlagsOnlyRise` states its flags, `OpponentOf` its side to move, and `ReadBackIsAfterMove` shows it is the state read back after the save. |
| Games.FlagsOnlyRise | flask_app/models/game.py:423-434 | The has-moved flags never go from true to false. A move whose origin is not one of the six tracked squares leaves all six flags unchanged. |
| Games.StatusAfter | flask_app/models/game.py:436-444 | The status choice. `StatusMeaning` gives its meaning, and `DecideStatus` computes it with the two checks. |
| Games.StatusMeaning | flask_app/models/game.py:436-444 | The stored status is 1, 2 or 6. It is above 3 exactly when the opponent is check mate, and it is 1 exactly when the opponent is not in check. |
| Games.StateOf | flask_app/models/game.py:204-220 | `game_state` from the tiles and the recorded moves. `ReadBackIsAfterMove` shows the move `make_move` saves turns it into `AfterMove`. |
| Games.RecordOf | flask_app/models/game.py:470-478 | The row `make_move` inserts: the moving piece, the move and `Captured`. `MakeMove` appends it. |
| Games.TilesAfter | flask_app/models/game.py:446-450 | The saved tiles string: `MovedBoard` written row by row, so `BoardRoundTrip` gives the board back. |
| Games.ReadBackIsAfterMove | flask_app/models/game.py:204-220 | When the mover's colour is the side to move, reading the saved tiles and moves back gives exactly the state `make_move` judged the status on. |
| Games.Game.Create | flask_app/models/game.py:232-243 | A new game is a pending invitation (status 0) on the opening position with no moves. The constructor also stands for the inviting player's view, so the viewer's colour is the inviter's. The source leaves that field unset until `construct_from_query_result` (flask_app/models/game.py:336-343) fills it in. |
| Games.Game.ViewAs | flask_app/models/game.py:336-343 | The viewer plays white exactly when the viewer sent the invitation and the inviter plays white, or the viewer did not send it and the inviter plays black. |
| Games.Game.MakeMove | flask_app/models/game.py:371-481 | The saved tiles are the moved board written back. The moves gain exactly the record (piece, move, capture). The status is the one decided on the state after the move. |
| Games.MoveOnBoard | flask_app/models/game.py:375-413 | The in-place edits of the board copy produce the moved board and record the capture. |
| Games.DecideStatus | flask_app/models/game.py:436-444 | The status is 6 on check mate, else 2 on check, else 1, for the state after the move. |
| Games.BoardToTiles | flask_app/models/game.py:447-450 | The append loop produces the board written row by row. |
| GamesController.TablesAreCoordinates | flask_app/controllers/games_controller.py:125-126 | The file table covers exactly a..h with a→7 … h→0. The rank table covers exactly 1..8 with '1'→0 … '8'→7. Every value lies in 0..7. |
| GamesController.ParseMove | flask_app/controllers/games_controller.py:125-145 | The form route's parse. `ParseAccepts` says exactly which strings it accepts, `ParseExample` pins the worked example, and `ParseFormat`/`FormatParse` are its round trips. |
| GamesController.ParseAccepts | flask_app/controllers/games_controller.py:128-145 | A string parses exactly when it has four characters: a file, a rank, a file, a rank. Every parsed move is on the board. |
| GamesController.ParseExample | flask_app/controllers/games_controller.py:124 | `f2f4` parses to (1, 2, 3, 2). |
| GamesController.FormatMove | flask_app/controllers/games_controller.py:124-126 | Writing a move back in the form's notation gives four characters. |
| GamesController.ParseFormat | flask_app/controllers/games_controller.py:142-145 | Parsing a written-back on-board move gives the same move. |
| GamesController.FormatParse | flask_app/controllers/games_controller.py:128-145 | Writing back a parsed move gives the same string. |
| GamesController.GameOver | flask_app/controllers/games_controller.py:118-120 | The game-over gate, a status above 3. `SubmitMoveForm` shows it answers without touching the game. |
| GamesController.SubmitMoveForm | flask_app/controllers/games_controller.py:106-152 | A logged-out user is redirected home. A game whose status is above 3 gets the `return False` reply and is unchanged. Neither case asks anything of the board. Otherwise the reply is the board's redirect, and the game changes exactly as `make_move` changes it when the string parses and `is_valid_move` accepts the move. In every other case the game is unchanged. |
| GamesController.SubmitMoveApi | flask_app/controllers/games_controller.py:157-185 | A logged-out user gets 401, whatever the game holds. An accepted move is applied and gets 201. A refused move leaves the game unchanged and gets 400. The status is not consulted. |
| GamesController.ValidateThenApply | flask_app/controllers/games_controller.py:149-150 | `make_move` runs exactly when `is_valid_move` accepts the move. |
| GamesController.ByTurn | flask_app/controllers/games_controller.py:20-27 | The "my turn" and "waiting" lists. `ByTurnPartitions` shows they split the games by the turn test, and `SplitByTurn` computes them. |
| GamesController.ByTurnPartitions | flask_app/controllers/games_controller.py:20-27 | The two lists split the games: their lengths and multisets add up to the input. Every game in the first list is the viewer's turn, and no game in the second list is. |
| GamesController.SplitByTurn | flask_app/controllers/games_controller.py:20-27 | The loop keeps input order and puts each game in "my turn" or "waiting" by the turn test. |
| GamesController.Invitations | flask_app/controllers/games_controller.py:33-36 | The pending games the count runs over. `InvitationsAreTheUsers` characterises them, and `CountInvitations` counts them. |
| GamesController.InvitationsAreTheUsers | flask_app/controllers/games_controller.py:33-36 | The invitations are exactly the pending games whose invited opponent is the user. |
| GamesController.CountInvitations | flask_app/controllers/games_controller.py:33-36 | The counter equals the number of those invitations. |
| Users.FullName | flask_app/models/user.py:24-26 | The full name is the first name, one space, then the last name. |
| Users.CheckName | flask_app/models/user.py:94-109 | A name field gets its too-short message exactly when it is shorter than the minimum. It gets its too-long message exactly when it exceeds 45 characters. It gets no message exactly when it is within bounds. |
| Users.CheckEmail | flask_app/models/user.py:111-121 | The email field gets at most one message: missing, else malformed, else already registered. |
| Users.IsValid | flask_app/models/user.py:87-123 | The result is false exactly when a message was pushed. It is true exactly when both names have 2..45 characters and the email is present, well formed and not registered. Each message appears exactly under its condition, and there is one message per failing field. |
| Users.IsValidPassword | flask_app/models/user.py:128-171 | The result is false exactly when a message was pushed. It is true exactly when the password has at least 8 characters and the confirmation equals it. Each of the four messages appears exactly under its condition, and there is one message per failing field. |
| Users.IsValidName | flask_app/models/user.py:190-214 | The result is false exactly when a message was pushed. It is true exactly when both names have 3..45 characters. Each of the four messages appears exactly under its condition, and there is one message per failing name. |

## Left out

- All SQL is out of the model. The game's moves table is held as the field `Game.moves`. The move count, the last move and `piece_has_moved` are functions of that field. The UPDATE and INSERT of `make_move` become assignments to `tiles`, `status` and `moves`. The `get_*` queries and their ordering are not modelled. The last move is the last element of `Game.moves`. The source takes the newest row by `created_at`, which picks arbitrarily between two moves saved with the same timestamp.
- Flask is out of the model: sessions, redirects, templates, request and JSON decoding, and HTTP. A route gets a logged-in flag and an already-decoded move or string. It answers with a `Reply` value.
- The `print` debugging is not modelled, and neither is the Unicode glyph column of the piece table.
- The `tiles_array_of_tuples` display helper is not modelled.
- bcrypt hashing and `check_email_and_password` are not modelled.
- The email regex match and the duplicate-email lookup are boolean inputs to `Users.IsValid`.
- The form route answers a finished game with `return False`, which Flask turns into a server error. The model gives this reply as `NoResponse`.
- Flash messages are returned as a sequence instead of being pushed onto the session.
- A `Users.IsValid` result is computed as "no message was pushed". The source clears a flag beside each message, which comes to the same thing.
- Status codes are integers. On a `Game` created from the database, `make_move` stores the strings `'1'`, `'2'` and `'6'`.
- Several inputs would make the source fail. They appear as preconditions instead of modelled crashes:
  - `is_check` on a board without the king of that colour (`KingPresent`);
  - `is_valid_move` when the mover's king is missing (`CanValidate`);
  - `make_move` when the opponent's king is missing after the move (`CanMove`);
  - a route that reaches `is_valid_move`, or reaches `make_move`, on a game where either of the last two happens (`CanProcess`). The routes require it only after the logged-in check and, on the form route, after the game-over gate and a successful parse.
- ChessRules.PawnRules: the model answers false for a state with a last piece but no last move. The source would fail there on `last_move[0]`, and `game_state` never builds such a state.
- ChessRules.PawnRules: its own contract states only the four shapes. The exact acceptance conditions are in `PawnAdvance` and `PawnCapture`.
- The second king-finding loop of `is_check_mate` is not modelled. Its result is never used.
- Some methods split one source function into parts, without changing any behaviour:
  - `ScanPath`, the loop of `queen_rook_bishop_rules`;
  - `AttacksFrom`, one scan step of `is_check`;
  - `DispatchPieceRule`, the kind dispatch of `is_valid_move`;
  - `EscapeFrom`, the two inner loops of `is_check_mate`;
  - `MoveOnBoard`, `DecideStatus` and `BoardToTiles`, the three phases of `make_move`;
  - `ValidateThenApply`, the tail both move routes share.
- Games.Game.MakeMove builds the after-move `GameState` with the function `AfterMove`. The function mirrors the constructor call at flask_app/models/game.py:423-434. The source reads the six old flags through `game_state`, before the INSERT.
- `Game.accept_invitation` and the games routes that only render or redirect are not modelled: invite, accept, play and new. Apart from SQL they are Flask plumbing. The one exception is `games_invite`, which flashes "Please select a player" when no opponent was chosen (flask_app/controllers/games_controller.py:69-71).
