/** The 8x8 board: an array of cells updated in place. */
module Boards {
  import opened Errors
  import opened Players
  import opened Cells

  class Board {
    const cells: array2<Cell>

    ghost predicate Valid()
    {
      cells.Length0 == Rows && cells.Length1 == Cols
    }

    /** The board's current contents as a value. */
    function Grid(): (g: Grid)
      requires Valid()
      reads cells
      ensures IsGrid(g)
    {
      seq(cells.Length0, r requires 0 <= r < cells.Length0 reads cells =>
        seq(cells.Length1, c requires 0 <= c < cells.Length1 reads cells => cells[r, c]))
    }

    /** Grid() shows every cell of the array at its own square. */
    lemma GridCells()
      requires Valid()
      ensures forall r, c :: OnBoard(r, c) ==> At(Grid(), r, c) == cells[r, c]
    {
    }

    /** Builds the opening layout. */
    constructor ()
      ensures Valid() && fresh(cells)
      ensures Grid() == InitialGrid()
    {
      cells := new Cell[Rows, Cols];
      new;
      SetWhitePieces();
      SetBlackPieces();
      SetEmptyCells();
      GridCells();
      GridExtensionality(Grid(), InitialGrid());
    }

    /** Puts WHITE pieces on the dark squares of rows 0-2. */
    method SetWhitePieces()
      requires Valid()
      modifies cells
      ensures forall r, c :: OnBoard(r, c) ==>
        cells[r, c] == if r < 3 && IsDarkSquare(r, c) then Occupied(White) else old(cells[r, c])
    {
      for i := 0 to 3
        invariant forall r, c :: OnBoard(r, c) ==>
          cells[r, c] == if r < i && IsDarkSquare(r, c) then Occupied(White) else old(cells[r, c])
      {
        for j := 0 to 8
          invariant forall r, c :: OnBoard(r, c) ==>
            cells[r, c] == if (r < i || (r == i && c < j)) && IsDarkSquare(r, c) then Occupied(White) else old(cells[r, c])
        {
          if IsDarkSquare(i, j) {
            cells[i, j] := Occupied(White);
          }
        }
      }
    }

    /** Puts BLACK pieces on the dark squares of rows 5-7, scanning from the bottom right. */
    method SetBlackPieces()
      requires Valid()
      modifies cells
      ensures forall r, c :: OnBoard(r, c) ==>
        cells[r, c] == if r > 4 && IsDarkSquare(r, c) then Occupied(Black) else old(cells[r, c])
    {
      var i := 7;
      while i > 4
        invariant 4 <= i <= 7
        invariant forall r, c :: OnBoard(r, c) ==>
          cells[r, c] == if r > i && IsDarkSquare(r, c) then Occupied(Black) else old(cells[r, c])
      {
        var j := 7;
        while j >= 0
          invariant -1 <= j <= 7
          invariant forall r, c :: OnBoard(r, c) ==>
            cells[r, c] == if (r > i || (r == i && c > j)) && IsDarkSquare(r, c) then Occupied(Black) else old(cells[r, c])
        {
          if IsDarkSquare(i, j) {
            cells[i, j] := Occupied(Black);
          }
          j := j - 1;
        }
        i := i - 1;
      }
    }

    /** Clears every square the two piece loops left unset. */
    method SetEmptyCells()
      requires Valid()
      modifies cells
      ensures forall r, c :: OnBoard(r, c) ==>
        cells[r, c] == if IsStartSquare(r, c) then old(cells[r, c]) else Empty
    {
      for i := 0 to 8
        invariant forall r, c :: OnBoard(r, c) ==>
          cells[r, c] == if r < i && !IsStartSquare(r, c) then Empty else old(cells[r, c])
      {
        for j := 0 to 8
          invariant forall r, c :: OnBoard(r, c) ==>
            cells[r, c] == if (r < i || (r == i && c < j)) && !IsStartSquare(r, c) then Empty else old(cells[r, c])
        {
          if !IsStartSquare(i, j) {
            cells[i, j] := Empty;
          }
        }
      }
    }

    /** True iff (row, col) lies on the board, for every pair of integers. */
    function IsValidCoordinate(row: int, col: int): (b: bool)
      requires Valid()
      ensures b <==> 0 <= row < 8 && 0 <= col < 8
    {
      row < cells.Length0 && row >= 0 && col < cells.Length1 && col >= 0
    }

    /** Whether `player` has a piece on (row, col); an off-board index fails. */
    function IsOccupiedByPlayer(row: int, col: int, player: Player): (r: Result<bool>)
      requires Valid()
      reads cells
      ensures r.Ok? <==> OnBoard(row, col)
      ensures r.Err? ==> r.error == IndexOutOfBounds
      ensures r.Ok? ==> (r.value <==> At(Grid(), row, col) == Occupied(player))
    {
      GridCells();
      if !(0 <= row < cells.Length0 && 0 <= col < cells.Length1) then Err(IndexOutOfBounds)
      else Ok(cells[row, col].IsOccupiedBy(player))
    }

    /** Whether (row, col) holds no piece; an off-board coordinate fails. */
    function IsEmpty(row: int, col: int): (r: Result<bool>)
      requires Valid()
      reads cells
      ensures r.Ok? <==> OnBoard(row, col)
      ensures r.Err? ==> r.error == IndexOutOfBounds
      ensures r.Ok? ==> (r.value <==> At(Grid(), row, col) == Empty)
    {
      GridCells();
      if !IsValidCoordinate(row, col) then Err(IndexOutOfBounds)
      else Ok(cells[row, col].IsEmpty())
    }

    /** Clears (row, col); an off-board coordinate fails and changes nothing. */
    method RemovePiece(row: int, col: int) returns (r: Result<()>)
      requires Valid()
      modifies cells
      ensures r.Ok? <==> OnBoard(row, col)
      ensures r.Err? ==> r.error == IndexOutOfBounds && Grid() == old(Grid())
      ensures r.Ok? ==> Grid() == Removed(old(Grid()), row, col)
    {
      if !IsValidCoordinate(row, col) {
        return Err(IndexOutOfBounds);
      }
      GridCells();
      ghost var before := Grid();
      cells[row, col] := Empty;
      GridCells();
      GridExtensionality(Grid(), Removed(before, row, col));
      r := Ok(());
    }

    /**
     * Moves the cell at `from` to `to` and clears `from`. Fails when either
     * square is off the board, and when `to` is not empty; a failure changes
     * nothing. Adjacency is not checked.
     */
    method MovePiece(fromRow: int, fromCol: int, toRow: int, toCol: int) returns (r: Result<()>)
      requires Valid()
      modifies cells
      ensures r.Err? ==> Grid() == old(Grid())
      ensures !OnBoard(fromRow, fromCol) || !OnBoard(toRow, toCol) ==> r == Err(IndexOutOfBounds)
      ensures OnBoard(fromRow, fromCol) && OnBoard(toRow, toCol) ==>
        if At(old(Grid()), toRow, toCol) != Empty then r == Err(IllegalArgument)
        else r.Ok? && Grid() == Relocated(old(Grid()), fromRow, fromCol, toRow, toCol)
    {
      if !IsValidCoordinate(fromRow, fromCol) || !IsValidCoordinate(toRow, toCol) {
        return Err(IndexOutOfBounds);
      }
      var empty := IsEmpty(toRow, toCol);
      if !empty.value {
        return Err(IllegalArgument);
      }
      GridCells();
      ghost var before := Grid();
      cells[toRow, toCol] := cells[fromRow, fromCol];
      GridCells();
      ghost var placed := Grid();
      GridExtensionality(placed, SetCell(before, toRow, toCol, At(before, fromRow, fromCol)));
      r := RemovePiece(fromRow, fromCol);
    }

    function GetRows(): (n: int)
      requires Valid()
      ensures n == 8
    {
      cells.Length0
    }

    function GetCols(): (n: int)
      requires Valid()
      ensures n == 8
    {
      cells.Length1
    }

    /** One rank line of the dump: the rank digit, " |", and " s |" per cell. */
    method RankLine(i: int) returns (line: string)
      requires Valid() && 0 <= i < Rows
      ensures line == RowText(Grid(), i)
    {
      GridCells();
      ghost var g := Grid();
      line := [DigitChar(8 - i)] + " |";
      for j := 0 to cells.Length1
        invariant line == [DigitChar(8 - i)] + " |" + CellsText(g, i, j)
      {
        ghost var before := line;
        line := line + " " + cells[i, j].Symbol() + " |";
        assert line == before + (" " + At(g, i, j).Symbol() + " |");
      }
      line := line + "\n";
    }

    /** The canonical text dump of the current board. */
    method ToString() returns (s: string)
      requires Valid()
      ensures s == Render(Grid())
    {
      s := "";
      for i := 0 to cells.Length0
        invariant s == RowsText(Grid(), i)
      {
        var line := RankLine(i);
        s := s + line;
      }
      s := s + "    a   b   c   d   e   f   g   h";
      s := s + "\n";
    }
  }
}
