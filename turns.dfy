/**
 * What one call of the engine's move() does to the board and the player to
 * move, as a function of the position before it.
 */
module Turns {
  import opened Errors
  import opened Players
  import opened Coordinates
  import opened Moves
  import opened Cells
  import opened Rules

  /** The board's contents and the player to move. */
  datatype Position = Position(grid: Grid, player: Player)

  predicate IsSquare(row: int, col: int, c: Coordinate)
  {
    row == c.row && col == c.col
  }

  /** The board after the jump `m`: the piece relocates, then the jumped piece is removed. */
  function JumpResult(g: Grid, p: Player, m: Move): (h: Grid)
    requires IsGrid(g) && IsCapture(g, p, m)
    ensures IsGrid(h)
  {
    var removalRow := m.from.row + RowDirection(p);
    var removalCol := m.from.col + MoveColumnDirection(m).ToInt();
    Removed(Relocated(g, m.from.row, m.from.col, m.to.row, m.to.col), removalRow, removalCol)
  }

  /**
   * move(m): an illegal move fails with IllegalArgument; under forced capture
   * the jump is applied and the turn passes unless the landed piece can capture
   * again; otherwise the simple move is applied and the turn passes.
   */
  function Play(pos: Position, m: Move): (r: Result<Position>)
    requires IsGrid(pos.grid)
    ensures r.Ok? <==> m in LegalMoves(pos.grid, pos.player)
    ensures r.Err? ==> r.error == IllegalArgument
    ensures r.Ok? ==> IsGrid(r.value.grid)
  {
    var g := pos.grid;
    var p := pos.player;
    if m !in LegalMoves(g, p) then Err(IllegalArgument)
    else if Pieces(g, p, Jump) != [] then
      LegalMovesCharacterization(g, p, m);
      JumpPiecesFound(g, p);
      var h := JumpResult(g, p, m);
      Ok(Position(h, if CanJumpCapture(h, p, m.to.row, m.to.col) then p else NextPlayer(p)))
    else
      LegalMovesCharacterization(g, p, m);
      JumpPiecesFound(g, p);
      Ok(Position(Relocated(g, m.from.row, m.from.col, m.to.row, m.to.col), NextPlayer(p)))
  }

  /** A capture moves the piece to `to` and empties `from` and the jumped square, and nothing else. */
  lemma JumpResultCells(g: Grid, p: Player, m: Move)
    requires IsGrid(g) && IsCapture(g, p, m)
    ensures var h, mid := JumpResult(g, p, m), Midpoint(m);
      && At(h, m.to.row, m.to.col) == Occupied(p)
      && At(h, m.from.row, m.from.col) == Empty
      && At(h, mid.row, mid.col) == Empty
      && (forall r, c :: OnBoard(r, c) && !IsSquare(r, c, m.from) && !IsSquare(r, c, m.to) && !IsSquare(r, c, mid) ==>
            At(h, r, c) == At(g, r, c))
  {
    var d := MoveColumnDirection(m);
    assert m == PieceJumpMove(p, m.from, d);
    var mid := Midpoint(m);
    var h := Relocated(g, m.from.row, m.from.col, m.to.row, m.to.col);
    RelocatedCells(g, m.from.row, m.from.col, m.to.row, m.to.col);
    assert JumpResult(g, p, m) == Removed(h, mid.row, mid.col);
  }

  /**
   * A legal capture moves the piece to `to`, empties `from` and the jumped
   * square and changes nothing else; the same player moves again exactly when
   * the landed piece can capture again.
   */
  lemma PlayCapture(pos: Position, m: Move)
    requires IsGrid(pos.grid) && CaptureAvailable(pos.grid, pos.player)
    requires m in LegalMoves(pos.grid, pos.player)
    ensures IsCapture(pos.grid, pos.player, m)
    ensures Play(pos, m).Ok?
    ensures var g, p, next := pos.grid, pos.player, Play(pos, m).value;
      var h, mid := next.grid, Midpoint(m);
      && At(h, m.to.row, m.to.col) == Occupied(p)
      && At(h, m.from.row, m.from.col) == Empty
      && At(h, mid.row, mid.col) == Empty
      && (forall r, c :: OnBoard(r, c) && !IsSquare(r, c, m.from) && !IsSquare(r, c, m.to) && !IsSquare(r, c, mid) ==>
            At(h, r, c) == At(g, r, c))
      && (next.player == p <==> CanJumpCapture(h, p, m.to.row, m.to.col))
      && (next.player != p ==> next.player == NextPlayer(p))
  {
    var g, p := pos.grid, pos.player;
    LegalMovesCharacterization(g, p, m);
    JumpPiecesFound(g, p);
    JumpResultCells(g, p, m);
  }

  /**
   * A legal simple move moves the piece one step forward, empties `from`,
   * changes nothing else, and always passes the turn.
   */
  lemma PlayAdvance(pos: Position, m: Move)
    requires IsGrid(pos.grid) && !CaptureAvailable(pos.grid, pos.player)
    requires m in LegalMoves(pos.grid, pos.player)
    ensures IsAdvance(pos.grid, pos.player, m)
    ensures Play(pos, m).Ok?
    ensures var g, p, next := pos.grid, pos.player, Play(pos, m).value;
      var h := next.grid;
      && At(h, m.to.row, m.to.col) == Occupied(p)
      && At(h, m.from.row, m.from.col) == Empty
      && (forall r, c :: OnBoard(r, c) && !IsSquare(r, c, m.from) && !IsSquare(r, c, m.to) ==>
            At(h, r, c) == At(g, r, c))
      && next.player == NextPlayer(p)
  {
    var g, p := pos.grid, pos.player;
    LegalMovesCharacterization(g, p, m);
    JumpPiecesFound(g, p);
    RelocatedCells(g, m.from.row, m.from.col, m.to.row, m.to.col);
  }

  /**
   * The player to move keeps the turn only after a capture whose landed piece
   * can capture again, and then the next legal moves are again only captures.
   */
  lemma TurnKept(pos: Position, m: Move)
    requires IsGrid(pos.grid) && Play(pos, m).Ok?
    ensures var next := Play(pos, m).value;
      next.player == pos.player <==>
        CaptureAvailable(pos.grid, pos.player) && OnBoard(m.to.row, m.to.col) &&
        CanJumpCapture(next.grid, pos.player, m.to.row, m.to.col)
    ensures var next := Play(pos, m).value;
      next.player != pos.player ==> next.player == NextPlayer(pos.player)
    ensures var next := Play(pos, m).value;
      next.player == pos.player ==>
        && CaptureAvailable(next.grid, next.player)
        && forall m' :: m' in LegalMoves(next.grid, next.player) ==> IsCapture(next.grid, next.player, m')
  {
    var g, p := pos.grid, pos.player;
    var next := Play(pos, m).value;
    if CaptureAvailable(g, p) {
      PlayCapture(pos, m);
    } else {
      PlayAdvance(pos, m);
    }
    if next.player == p {
      JumpPiecesFound(next.grid, p);
      assert Coordinate(m.to.row, m.to.col) in Pieces(next.grid, p, Jump);
      forall m' | m' in LegalMoves(next.grid, p)
        ensures IsCapture(next.grid, p, m')
      {
        LegalMovesCharacterization(next.grid, p, m');
      }
    }
  }
}
