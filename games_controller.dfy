/**
 * The logic of the game routes: the move-string parse of the form route, its
 * game-over gate, the validate-then-apply order of both move routes, and the
 * my-turn / waiting split and invitation count of the games page. Sessions,
 * templates and HTTP are reduced to a logged-in flag and a reply value.
 */
module GamesController {
  import opened Wrappers
  import opened Pieces
  import opened GameStates
  import opened ChessRules
  import opened Games

  // ---------------------------------------------------------------------------
  // move strings
  // ---------------------------------------------------------------------------

  /** Files to columns: the board's column 0 is the h-file. */
  const Columns: map<char, int> :=
    map['a' := 7, 'b' := 6, 'c' := 5, 'd' := 4, 'e' := 3, 'f' := 2, 'g' := 1, 'h' := 0]

  /** Ranks to rows: row 0 is rank 1. */
  const Rows: map<char, int> :=
    map['1' := 0, '2' := 1, '3' := 2, '4' := 3, '5' := 4, '6' := 5, '7' := 6, '8' := 7]

  /** The two tables cover exactly the eight files and ranks and land on [0, 8), one to one. */
  lemma TablesAreCoordinates(ch: char)
    ensures ch in Columns <==> 'a' <= ch <= 'h'
    ensures ch in Columns ==> Columns[ch] == 'h' as int - ch as int && 0 <= Columns[ch] < 8
    ensures ch in Rows <==> '1' <= ch <= '8'
    ensures ch in Rows ==> Rows[ch] == ch as int - '1' as int && 0 <= Rows[ch] < 8
  {
  }

  /** The form route's parse of `your_move`, e.g. "f2f4". */
  function ParseMove(s: string): Option<Move>
  {
    if |s| != 4 then None
    else if s[0] in Columns && s[1] in Rows && s[2] in Columns && s[3] in Rows then
      Some(Move(Rows[s[1]], Columns[s[0]], Rows[s[3]], Columns[s[2]]))
    else None
  }

  /** A string parses exactly when it is file, rank, file, rank; the result is on the board. */
  lemma ParseAccepts(s: string)
    ensures ParseMove(s).Some? <==>
      |s| == 4 && 'a' <= s[0] <= 'h' && '1' <= s[1] <= '8' && 'a' <= s[2] <= 'h' && '1' <= s[3] <= '8'
    ensures ParseMove(s).Some? ==> OnBoard(ParseMove(s).value)
  {
    if |s| == 4 {
      TablesAreCoordinates(s[0]);
      TablesAreCoordinates(s[1]);
      TablesAreCoordinates(s[2]);
      TablesAreCoordinates(s[3]);
    }
  }

  lemma ParseExample()
    ensures ParseMove("f2f4") == Some(Move(1, 2, 3, 2))
  {
    assert "f2f4"[0] == 'f' && "f2f4"[1] == '2' && "f2f4"[2] == 'f' && "f2f4"[3] == '4';
  }

  /** The move written back in the notation the form expects. */
  function FormatMove(m: Move): (s: string)
    requires OnBoard(m)
    ensures |s| == 4
  {
    [('h' as int - m.fromCol) as char, ('1' as int + m.fromRow) as char,
     ('h' as int - m.toCol) as char, ('1' as int + m.toRow) as char]
  }

  lemma ParseFormat(m: Move)
    requires OnBoard(m)
    ensures ParseMove(FormatMove(m)) == Some(m)
  {
    var s := FormatMove(m);
    TablesAreCoordinates(s[0]);
    TablesAreCoordinates(s[1]);
    TablesAreCoordinates(s[2]);
    TablesAreCoordinates(s[3]);
  }

  lemma FormatParse(s: string)
    requires ParseMove(s).Some?
    ensures FormatMove(ParseMove(s).value) == s
  {
    ParseAccepts(s);
    TablesAreCoordinates(s[0]);
    TablesAreCoordinates(s[1]);
    TablesAreCoordinates(s[2]);
    TablesAreCoordinates(s[3]);
    var t := FormatMove(ParseMove(s).value);
    assert t[0] == s[0] && t[1] == s[1] && t[2] == s[2] && t[3] == s[3];
  }

  // ---------------------------------------------------------------------------
  // the move routes
  // ---------------------------------------------------------------------------

  /** What a route answers. */
  datatype Reply =
    | RedirectHome            // not logged in
    | RedirectPlay(game: int) // back to the board of that game
    | NoResponse              // the form route's `return False` on a finished game, which Flask answers with a server error
    | Json(code: int)         // the fetch route's status code

  /** make_move and is_valid_move can run on this game and move without failing. */
  predicate CanProcess(tiles: seq<Tile>, moves: seq<MoveRecord>, m: Move)
    requires |tiles| == 64
  {
    CanValidate(TilesArray(tiles), m) &&
    (OnBoard(m) && Allowed(StateOf(tiles, moves), m) ==> CanMove(tiles, m))
  }

  /** The game-over gate: status codes above 3 (draw accepted, resigned, check mate) end the game. */
  predicate GameOver(status: int) {
    status > 3
  }

  /**
   * POST /games/move: if logged in and the game is not over, parse the move
   * string and apply the move when it is well formed and is_valid_move
   * accepts it; answer with a redirect to the board either way.
   */
  method SubmitMoveForm(g: Game, loggedIn: bool, moveStr: string) returns (reply: Reply)
    requires g.Valid()
    requires loggedIn && !GameOver(g.status) && ParseMove(moveStr).Some? ==>
      CanProcess(g.tiles, g.moves, ParseMove(moveStr).value)
    modifies g`tiles, g`status, g`moves
    ensures g.Valid()
    ensures !loggedIn ==> reply == RedirectHome
    ensures loggedIn && GameOver(old(g.status)) ==> reply == NoResponse
    ensures loggedIn && !GameOver(old(g.status)) ==> reply == RedirectPlay(g.id)
    ensures
      var m := ParseMove(moveStr);
      if loggedIn && !GameOver(old(g.status)) && m.Some? && Allowed(old(g.State()), m.value) then
        g.tiles == TilesAfter(old(g.tiles), m.value) &&
        g.moves == old(g.moves) + [RecordOf(old(g.tiles), m.value)] &&
        g.status == StatusAfterMove(old(g.tiles), old(g.moves), m.value)
      else
        unchanged(g)
  {
    if !loggedIn {
      return RedirectHome;
    }
    if g.status > 3 {
      return NoResponse;
    }
    var m := ParseMove(moveStr);
    if m.Some? {
      ParseAccepts(moveStr);
      var _ := ValidateThenApply(g, m.value);
    }
    return RedirectPlay(g.id);
  }

  /**
   * POST /api/games/move: if logged in, apply the move when is_valid_move
   * accepts it (201) or refuse it (400). There is no game-over gate here.
   */
  method SubmitMoveApi(g: Game, loggedIn: bool, m: Move) returns (reply: Reply)
    requires g.Valid()
    requires loggedIn ==> CanProcess(g.tiles, g.moves, m)
    modifies g`tiles, g`status, g`moves
    ensures g.Valid()
    ensures !loggedIn ==> reply == Json(401) && unchanged(g)
    ensures loggedIn && !(OnBoard(m) && Allowed(old(g.State()), m)) ==> reply == Json(400) && unchanged(g)
    ensures loggedIn && OnBoard(m) && Allowed(old(g.State()), m) ==>
      reply == Json(201) &&
      g.tiles == TilesAfter(old(g.tiles), m) &&
      g.moves == old(g.moves) + [RecordOf(old(g.tiles), m)] &&
      g.status == StatusAfterMove(old(g.tiles), old(g.moves), m)
  {
    if !loggedIn {
      return Json(401);
    }
    var applied := ValidateThenApply(g, m);
    if applied {
      return Json(201);
    } else {
      return Json(400);
    }
  }

  /** The step both move routes share: make_move runs only when is_valid_move has accepted the move. */
  method ValidateThenApply(g: Game, m: Move) returns (applied: bool)
    requires g.Valid() && CanProcess(g.tiles, g.moves, m)
    modifies g`tiles, g`status, g`moves
    ensures g.Valid()
    ensures applied == (OnBoard(m) && Allowed(old(g.State()), m))
    ensures applied ==>
      g.tiles == TilesAfter(old(g.tiles), m) &&
      g.moves == old(g.moves) + [RecordOf(old(g.tiles), m)] &&
      g.status == StatusAfterMove(old(g.tiles), old(g.moves), m)
    ensures !applied ==> unchanged(g)
  {
    var ok := IsValidMove(g.State(), m);
    if ok {
      g.MakeMove(m);
    }
    return ok;
  }

  // ---------------------------------------------------------------------------
  // the games page
  // ---------------------------------------------------------------------------

  /** The games, in order, whose turn test gives `mine`. */
  function ByTurn(games: seq<Game>, mine: bool): seq<Game>
    reads set g | g in games
  {
    if games == [] then []
    else
      var g := games[|games| - 1];
      ByTurn(games[..|games| - 1], mine) + (if IsPlayersTurn(g.currentIsWhite, |g.moves|) == mine then [g] else [])
  }

  /** The two lists split the games: every game lands in exactly one, with its turn test deciding which. */
  lemma {:induction false} ByTurnPartitions(games: seq<Game>)
    ensures |ByTurn(games, true)| + |ByTurn(games, false)| == |games|
    ensures multiset(ByTurn(games, true)) + multiset(ByTurn(games, false)) == multiset(games)
    ensures forall g | g in ByTurn(games, true) :: IsPlayersTurn(g.currentIsWhite, |g.moves|)
    ensures forall g | g in ByTurn(games, false) :: !IsPlayersTurn(g.currentIsWhite, |g.moves|)
  {
    if games != [] {
      var init := games[..|games| - 1];
      ByTurnPartitions(init);
      assert games == init + [games[|games| - 1]];
    }
  }

  /** games_show's split of the active games into my turn and waiting, keeping their order. */
  method SplitByTurn(games: seq<Game>) returns (myTurn: seq<Game>, waiting: seq<Game>)
    ensures myTurn == ByTurn(games, true) && waiting == ByTurn(games, false)
  {
    myTurn, waiting := [], [];
    for i := 0 to |games|
      invariant myTurn == ByTurn(games[..i], true) && waiting == ByTurn(games[..i], false)
    {
      var g := games[i];
      if (g.currentIsWhite && |g.moves| % 2 == 0) || (!g.currentIsWhite && |g.moves| % 2 == 1) {
        myTurn := myTurn + [g];
      } else {
        waiting := waiting + [g];
      }
      assert games[..i + 1][..i] == games[..i];
    }
    assert games[..|games|] == games;
  }

  /** The pending games in which the user is the invited opponent. */
  function Invitations(pending: seq<Game>, user: int): seq<Game>
    reads set g | g in pending
  {
    if pending == [] then []
    else
      var g := pending[|pending| - 1];
      Invitations(pending[..|pending| - 1], user) + (if g.opponentId == user then [g] else [])
  }

  lemma {:induction false} InvitationsAreTheUsers(pending: seq<Game>, user: int)
    ensures |Invitations(pending, user)| <= |pending|
    ensures forall g | g in Invitations(pending, user) :: g in pending && g.opponentId == user
    ensures forall g | g in pending && g.opponentId == user :: g in Invitations(pending, user)
  {
    if pending != [] {
      var init := pending[..|pending| - 1];
      InvitationsAreTheUsers(init, user);
      assert pending == init + [pending[|pending| - 1]];
    }
  }

  /** games_show's number_pending: the invitations the user has received. */
  method CountInvitations(pending: seq<Game>, user: int) returns (count: nat)
    ensures count == |Invitations(pending, user)|
  {
    count := 0;
    for i := 0 to |pending|
      invariant count == |Invitations(pending[..i], user)|
    {
      if pending[i].opponentId == user {
        count := count + 1;
      }
      assert pending[..i + 1][..i] == pending[..i];
    }
    assert pending[..|pending|] == pending;
  }
}
