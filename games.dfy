/** Short sessions with the engine, from a fresh game. */
module Games {
  import opened Players
  import opened Coordinates
  import opened Moves
  import opened Cells
  import opened Boards
  import opened Rules
  import opened Turns
  import opened Logic
  import opened Opening

  /** 3a-4b: BLACK's left-most front piece steps toward the centre. */
  const FirstMove := Move(Coordinate(5, 0), Coordinate(4, 1))

  /** 4a-5b: there is no piece on 4a. */
  const EmptySquareMove := Move(Coordinate(4, 0), Coordinate(3, 1))

  /**
   * A freshly built engine has not computed its legal moves: it reports no
   * moves and rejects 3a-4b, until IsGameOver or Move refreshes the cache.
   */
  method FreshGameAsWritten() returns (count: nat, valid: bool)
    ensures count == 0 && !valid
  {
    var game := new CheckersLogic.Default();
    count := game.GetMoveCount();
    valid := game.IsMoveValid(FirstMove);
  }

  /** After IsGameOver the cache holds BLACK's seven opening moves. */
  method FreshGameAfterGameOverQuery() returns (over: bool, count: nat, valid: bool, invalid: bool)
    ensures !over && count == 7 && valid && !invalid
  {
    var game := new CheckersLogic.Default();
    InitialLegalMoves(game.board.Grid());
    InitialMovesFromFrontRow();
    assert InitialMoves[0] == FirstMove;
    over := game.IsGameOver();
    count := game.GetMoveCount();
    valid := game.IsMoveValid(FirstMove);
    invalid := game.IsMoveValid(EmptySquareMove);
  }

  /** An engine built with its cache filled answers for the opening position at once. */
  method FreshGamePrimed() returns (count: nat, valid: bool, invalid: bool)
    ensures count == 7 && valid && !invalid
  {
    var game := new CheckersLogic.Primed(Black);
    InitialLegalMoves(game.board.Grid());
    InitialMovesFromFrontRow();
    assert InitialMoves[0] == FirstMove;
    count := game.GetMoveCount();
    valid := game.IsMoveValid(FirstMove);
    invalid := game.IsMoveValid(EmptySquareMove);
  }

  /** BLACK opens; after 3a-4b it is WHITE's turn. */
  method OpeningTurn() returns (before: string, nextBefore: string, after: string, next: string, player: Player)
    ensures before == "X" && nextBefore == "O"
    ensures after == "O" && next == "X" && player == White
  {
    var game := new CheckersLogic.Default();
    InitialLegalMoves(game.board.Grid());
    before := game.GetCurrentPlayerString();
    nextBefore := game.GetNextPlayerString();
    var r := game.Move(FirstMove);
    PlayAdvance(Position(InitialGrid(), Black), FirstMove);
    after := game.GetCurrentPlayerString();
    next := game.GetNextPlayerString();
    player := game.GetCurrentPlayer();
  }

  /** A new engine shows the same text as a new board. */
  method FreshBoardText() returns (shown: string, expected: string)
    ensures shown == expected
  {
    var game := new CheckersLogic.Default();
    shown := game.GetBoardString();
    var board := new Board();
    expected := board.ToString();
  }
}
