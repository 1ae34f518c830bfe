/** The turn state machine: the board, the player to move, and the scratch lists of the move scan. */
module Logic {
  import opened Errors
  import opened Players
  import opened Coordinates
  import opened Moves
  import opened Cells
  import opened Boards
  import opened Rules
  import opened Turns

  class CheckersLogic {
    const board: Board
    var currentPlayer: Player
    var jumpPieces: seq<Coordinate>
    var movePieces: seq<Coordinate>
    /** The legal-move cache: refreshed by IsGameOver and Move, read by IsMoveValid, GetMoveCount and GetMove. */
    var moves: seq<Moves.Move>

    ghost predicate Valid()
    {
      board.Valid()
    }

    /** The board and the player to move, as a value. */
    function State(): Position
      requires Valid()
      reads this, board.cells
    {
      Position(board.Grid(), currentPlayer)
    }

    /** A game on the opening layout with `startingPlayer` to move and empty scratch lists. */
    constructor (startingPlayer: Player)
      ensures Valid() && fresh(board) && fresh(board.cells)
      ensures board.Grid() == InitialGrid() && currentPlayer == startingPlayer
      ensures jumpPieces == [] && movePieces == [] && moves == []
    {
      board := new Board();
      currentPlayer := startingPlayer;
      jumpPieces := [];
      movePieces := [];
      moves := [];
    }

    /** A game on the opening layout with BLACK to move. */
    constructor Default()
      ensures Valid() && fresh(board) && fresh(board.cells)
      ensures board.Grid() == InitialGrid() && currentPlayer == Black
      ensures jumpPieces == [] && movePieces == [] && moves == []
    {
      board := new Board();
      currentPlayer := Black;
      jumpPieces := [];
      movePieces := [];
      moves := [];
    }

    /**
     * A game on the opening layout whose legal-move cache is already filled,
     * so that IsMoveValid, GetMoveCount and GetMove answer for the opening
     * position before the first IsGameOver or Move.
     */
    constructor Primed(startingPlayer: Player)
      ensures Valid() && fresh(board) && fresh(board.cells)
      ensures board.Grid() == InitialGrid() && currentPlayer == startingPlayer
      ensures moves == LegalMoves(board.Grid(), startingPlayer)
      ensures jumpPieces == Pieces(board.Grid(), startingPlayer, MoveKind.Jump)
      ensures movePieces == if jumpPieces == [] then Pieces(board.Grid(), startingPlayer, MoveKind.Forward) else []
    {
      board := new Board();
      currentPlayer := startingPlayer;
      jumpPieces := [];
      movePieces := [];
      moves := [];
      new;
      CalcMoves();
    }

    /** Rebuilds jumpPieces: the current player's pieces that can capture, in row-major order. */
    method CalcJumpPieces()
      requires Valid()
      modifies this`jumpPieces
      ensures jumpPieces == Pieces(board.Grid(), currentPlayer, MoveKind.Jump)
    {
      var g, p := board.Grid(), currentPlayer;
      jumpPieces := [];
      for i := 0 to board.GetRows()
        invariant jumpPieces == PiecesInRows(g, p, MoveKind.Jump, i)
      {
        ghost var done := jumpPieces;
        for j := 0 to board.GetCols()
          invariant jumpPieces == done + PiecesInRow(g, p, MoveKind.Jump, i, j)
        {
          PiecesInRowNext(g, p, MoveKind.Jump, i, j, done);
          if CanJumpCapture(g, p, i, j) {
            jumpPieces := jumpPieces + [Coordinate(i, j)];
          }
        }
      }
    }

    /** Rebuilds movePieces: the current player's pieces that can move forward, in row-major order. */
    method CalcMovePieces()
      requires Valid()
      modifies this`movePieces
      ensures movePieces == Pieces(board.Grid(), currentPlayer, MoveKind.Forward)
    {
      var g, p := board.Grid(), currentPlayer;
      movePieces := [];
      for i := 0 to board.GetRows()
        invariant movePieces == PiecesInRows(g, p, MoveKind.Forward, i)
      {
        ghost var done := movePieces;
        for j := 0 to board.GetCols()
          invariant movePieces == done + PiecesInRow(g, p, MoveKind.Forward, i, j)
        {
          PiecesInRowNext(g, p, MoveKind.Forward, i, j, done);
          if CanMove(g, p, i, j) {
            movePieces := movePieces + [Coordinate(i, j)];
          }
        }
      }
    }

    /** Appends the jumps of every piece in jumpPieces, LEFT before RIGHT. */
    method CalcJumpMoves()
      requires Valid()
      modifies this`moves
      ensures moves == old(moves) + MovesOf(board.Grid(), currentPlayer, MoveKind.Jump, jumpPieces)
    {
      var g, p, pieces := board.Grid(), currentPlayer, jumpPieces;
      for k := 0 to |pieces|
        invariant moves == old(moves) + MovesOf(g, p, MoveKind.Jump, pieces[..k])
      {
        var piece := pieces[k];
        var step := [];
        if CanJump(g, p, piece.row, piece.col, Left) {
          step := step + [PieceJumpMove(p, piece, Left)];
        }
        assert step == if Reaches(g, p, MoveKind.Jump, piece, Left) then [Target(p, MoveKind.Jump, piece, Left)] else [];
        if CanJump(g, p, piece.row, piece.col, Right) {
          step := step + [PieceJumpMove(p, piece, Right)];
        }
        assert step == PieceMoves(g, p, MoveKind.Jump, piece);
        MovesOfAppend(g, p, MoveKind.Jump, pieces, k, old(moves));
        moves := moves + step;
      }
      assert pieces[..|pieces|] == pieces;
    }

    /** Appends the simple moves of every piece in movePieces, LEFT before RIGHT. */
    method CalcMovesForward()
      requires Valid()
      modifies this`moves
      ensures moves == old(moves) + MovesOf(board.Grid(), currentPlayer, MoveKind.Forward, movePieces)
    {
      var g, p, pieces := board.Grid(), currentPlayer, movePieces;
      for k := 0 to |pieces|
        invariant moves == old(moves) + MovesOf(g, p, MoveKind.Forward, pieces[..k])
      {
        var piece := pieces[k];
        var step := [];
        if CanMoveTo(g, p, piece.row, piece.col, Left) {
          step := step + [PieceForwardMove(p, piece, Left)];
        }
        assert step == if Reaches(g, p, MoveKind.Forward, piece, Left) then [Target(p, MoveKind.Forward, piece, Left)] else [];
        if CanMoveTo(g, p, piece.row, piece.col, Right) {
          step := step + [PieceForwardMove(p, piece, Right)];
        }
        assert step == PieceMoves(g, p, MoveKind.Forward, piece);
        MovesOfAppend(g, p, MoveKind.Forward, pieces, k, old(moves));
        moves := moves + step;
      }
      assert pieces[..|pieces|] == pieces;
    }

    /** Rebuilds the legal-move cache, listing only jumps when some piece can capture. */
    method CalcMoves()
      requires Valid()
      modifies this`moves, this`jumpPieces, this`movePieces
      ensures moves == LegalMoves(board.Grid(), currentPlayer)
      ensures jumpPieces == Pieces(board.Grid(), currentPlayer, MoveKind.Jump)
      ensures movePieces == if jumpPieces == [] then Pieces(board.Grid(), currentPlayer, MoveKind.Forward) else old(movePieces)
    {
      moves := [];
      CalcJumpPieces();
      if jumpPieces != [] {
        CalcJumpMoves();
        return;
      }
      CalcMovePieces();
      CalcMovesForward();
    }

    /** Whether `m` equals, by value, an entry of the cache (which is not refreshed here). */
    method IsMoveValid(m: Moves.Move) returns (valid: bool)
      ensures valid <==> m in moves
    {
      for k := 0 to |moves|
        invariant m !in moves[..k]
      {
        if moves[k] == m {
          return true;
        }
      }
      return false;
    }

    /** Refreshes the cache; the game is over exactly when the player to move has no legal move. */
    method IsGameOver() returns (over: bool)
      requires Valid()
      modifies this`moves, this`jumpPieces, this`movePieces
      ensures moves == LegalMoves(board.Grid(), currentPlayer)
      ensures jumpPieces == Pieces(board.Grid(), currentPlayer, MoveKind.Jump)
      ensures movePieces == if jumpPieces == [] then Pieces(board.Grid(), currentPlayer, MoveKind.Forward) else old(movePieces)
      ensures over <==> LegalMoves(board.Grid(), currentPlayer) == []
    {
      CalcMoves();
      over := |moves| == 0;
    }

    /** Moves a piece one step forward. */
    method MoveForward(m: Moves.Move)
      requires Valid() && IsAdvance(board.Grid(), currentPlayer, m)
      modifies board.cells
      ensures board.Grid() == Relocated(old(board.Grid()), m.from.row, m.from.col, m.to.row, m.to.col)
    {
      var moved := board.MovePiece(m.from.row, m.from.col, m.to.row, m.to.col);
    }

    /** Jumps a piece and removes the piece it jumps over. */
    method Jump(m: Moves.Move)
      requires Valid() && IsCapture(board.Grid(), currentPlayer, m)
      modifies board.cells
      ensures board.Grid() == JumpResult(old(board.Grid()), currentPlayer, m)
    {
      var moved := board.MovePiece(m.from.row, m.from.col, m.to.row, m.to.col);
      var removalRow := m.from.row + RowDirection(currentPlayer);
      var removalCol := m.from.col + MoveColumnDirection(m).ToInt();
      var removed := board.RemovePiece(removalRow, removalCol);
    }

    /**
     * Refreshes the cache and plays `m`: an illegal move fails with
     * IllegalArgument and leaves the board and the player to move unchanged;
     * a legal one does what Play describes.
     */
    method Move(m: Moves.Move) returns (r: Result<()>)
      requires Valid()
      modifies this, board.cells
      ensures Valid()
      ensures r.Ok? <==> m in LegalMoves(old(board.Grid()), old(currentPlayer))
      ensures r.Err? ==> r.error == IllegalArgument && State() == old(State())
      ensures r.Ok? ==> Play(old(State()), m) == Ok(State())
      ensures moves == LegalMoves(old(board.Grid()), old(currentPlayer))
      ensures jumpPieces == Pieces(old(board.Grid()), old(currentPlayer), MoveKind.Jump)
      ensures movePieces ==
        if jumpPieces == [] then Pieces(old(board.Grid()), old(currentPlayer), MoveKind.Forward) else old(movePieces)
    {
      CalcMoves();
      var valid := IsMoveValid(m);
      if !valid {
        return Err(IllegalArgument);
      }
      ghost var g := board.Grid();
      LegalMovesCharacterization(g, currentPlayer, m);
      JumpPiecesFound(g, currentPlayer);
      if jumpPieces != [] {
        Jump(m);
        if !CanJumpCapture(board.Grid(), currentPlayer, m.to.row, m.to.col) {
          currentPlayer := NextPlayer(currentPlayer);
        }
      } else {
        MoveForward(m);
        currentPlayer := NextPlayer(currentPlayer);
      }
      r := Ok(());
    }

    /** The player to move. */
    function GetCurrentPlayer(): (p: Player)
      reads this
      ensures p == currentPlayer
    {
      currentPlayer
    }

    /** The display symbol of the player to move. */
    function GetCurrentPlayerString(): (s: string)
      reads this
      ensures s == currentPlayer.Symbol()
    {
      currentPlayer.Symbol()
    }

    /** The display symbol of the opponent of the player to move. */
    function GetNextPlayerString(): (s: string)
      reads this
      ensures s == NextPlayer(currentPlayer).Symbol()
      ensures s != currentPlayer.Symbol()
    {
      NextPlayer(currentPlayer).Symbol()
    }

    method GetBoardString() returns (s: string)
      requires Valid()
      ensures s == Render(board.Grid())
    {
      s := board.ToString();
    }

    /** The size of the cache. */
    function GetMoveCount(): (n: nat)
      reads this
      ensures n == |moves|
    {
      |moves|
    }

    /** Entry `i` of the cache; an index outside it fails. */
    function GetMove(i: int): (r: Result<Moves.Move>)
      reads this
      ensures r.Ok? <==> 0 <= i < |moves|
      ensures r.Err? ==> r.error == IndexOutOfBounds
      ensures r.Ok? ==> r.value in moves && r.value == moves[i]
    {
      if 0 <= i < |moves| then Ok(moves[i]) else Err(IndexOutOfBounds)
    }
  }
}
