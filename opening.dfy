/**
 * The opening position worked out square by square: BLACK, moving first,
 * has no capture and exactly seven simple moves, in scan order.
 */
module Opening {
  import opened Players
  import opened Coordinates
  import opened Moves
  import opened Cells
  import opened Rules

  /** Two lists of moves in scan order with the same members are the same list. */
  lemma {:induction false} OrderedUnique(s: seq<Move>, t: seq<Move>)
    requires Ordered(s) && Ordered(t)
    requires forall m :: m in s <==> m in t
    ensures s == t
    decreases |s|
  {
    if s != [] {
      assert s[0] in s;
    }
    if t != [] {
      assert t[0] in t;
    }
    if s != [] && t != [] {
      assert s[0] == t[0];
      forall m
        ensures m in s[1..] <==> m in t[1..]
      {
        if m in s[1..] {
          var k :| 1 <= k < |s| && s[k] == m;
          assert m in t;
        }
        if m in t[1..] {
          var k :| 1 <= k < |t| && t[k] == m;
          assert m in s;
        }
      }
      OrderedUnique(s[1..], t[1..]);
      assert s == [s[0]] + s[1..] && t == [t[0]] + t[1..];
    }
  }

  /** No BLACK piece of the opening layout has an opponent's piece diagonally in front of it. */
  lemma InitialCannotCapture(row: int, col: int)
    requires OnBoard(row, col)
    ensures !CanJumpCapture(InitialGrid(), Black, row, col)
  {
    var g := InitialGrid();
    if At(g, row, col).IsOccupiedBy(Black) {
      assert row > 4;
      assert !HasEnemyPiece(g, Black, row, col, Left);
      assert !HasEnemyPiece(g, Black, row, col, Right);
    }
  }

  /** The capture scan of the opening position finds nothing for BLACK. */
  lemma InitialNoJumpPieces(g: Grid)
    requires g == InitialGrid()
    ensures Pieces(g, Black, Jump) == []
  {
    var s := Pieces(g, Black, Jump);
    if s != [] {
      assert s[0] in s;
      InitialCannotCapture(s[0].row, s[0].col);
    }
  }

  /** 3a-4b, 3c-4b, 3c-4d, 3e-4d, 3e-4f, 3g-4f, 3g-4h. */
  const InitialMoves := [
    Move(Coordinate(5, 0), Coordinate(4, 1)),
    Move(Coordinate(5, 2), Coordinate(4, 1)), Move(Coordinate(5, 2), Coordinate(4, 3)),
    Move(Coordinate(5, 4), Coordinate(4, 3)), Move(Coordinate(5, 4), Coordinate(4, 5)),
    Move(Coordinate(5, 6), Coordinate(4, 5)), Move(Coordinate(5, 6), Coordinate(4, 7))]

  /** Every opening move starts on row 5 (rank 3). */
  lemma InitialMovesFromFrontRow()
    ensures forall m :: m in InitialMoves ==> m.from.row == 5
  {
    forall m | m in InitialMoves
      ensures m.from.row == 5
    {
      var i :| 0 <= i < |InitialMoves| && InitialMoves[i] == m;
    }
  }

  lemma InitialMovesOrdered()
    ensures Ordered(InitialMoves)
  {
    OrderedByNeighbours(InitialMoves);
  }

  /** In the opening layout BLACK's simple moves are exactly the seven front-row steps. */
  lemma InitialAdvances(g: Grid, m: Move)
    requires g == InitialGrid()
    ensures IsAdvance(g, Black, m) <==> m in InitialMoves
  {
    if IsAdvance(g, Black, m) {
      assert At(g, m.from.row, m.from.col) == InitialCell(m.from.row, m.from.col);
      assert At(g, m.to.row, m.to.col) == InitialCell(m.to.row, m.to.col);
      assert m.from.row == 5 && m.to.row == 4;
      assert m.from.col in {0, 2, 4, 6};
    }
    if m in InitialMoves {
      assert At(g, m.from.row, m.from.col) == InitialCell(m.from.row, m.from.col);
      assert At(g, m.to.row, m.to.col) == InitialCell(m.to.row, m.to.col);
    }
  }

  /** With no capture on the board, BLACK's legal moves at the opening are its seven simple moves. */
  lemma InitialLegalMove(g: Grid, m: Move)
    requires g == InitialGrid()
    requires !CaptureAvailable(g, Black)
    ensures m in LegalMoves(g, Black) <==> m in InitialMoves
  {
    LegalMovesCharacterization(g, Black, m);
    InitialAdvances(g, m);
  }

  /**
   * The opening position: BLACK has no capture, and its legal moves are the
   * seven simple moves of its front row, in scan order.
   */
  lemma InitialLegalMoves(g: Grid)
    requires g == InitialGrid()
    ensures !CaptureAvailable(g, Black)
    ensures LegalMoves(g, Black) == InitialMoves
  {
    InitialNoJumpPieces(g);
    JumpPiecesFound(g, Black);
    var legal := LegalMoves(g, Black);
    LegalMovesOrdered(g, Black);
    forall m
      ensures m in legal <==> m in InitialMoves
    {
      InitialLegalMove(g, m);
    }
    InitialMovesOrdered();
    OrderedUnique(legal, InitialMoves);
  }
}
