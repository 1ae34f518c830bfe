/**
 * Board cells and the board's contents as a value: an 8x8 grid of cells, the
 * opening layout, the two single-cell updates and the canonical text dump.
 */
module Cells {
  import opened Players

  /** A cell either holds no piece or one piece of one player. */
  datatype Cell = Empty | Occupied(player: Player) {

    predicate IsEmpty() { Empty? }

    predicate IsOccupiedBy(p: Player) { Occupied? && player == p }

    /** How the cell appears in the text dump. */
    function Symbol(): (s: string)
      ensures |s| == 1
      ensures s == "_" <==> IsEmpty()
      ensures Occupied? ==> s == player.Symbol()
    {
      match this
      case Empty => "_"
      case Occupied(p) => p.Symbol()
    }
  }

  /** An empty cell belongs to nobody; an occupied cell to exactly its owner. */
  lemma OccupancyExclusive(cell: Cell, p: Player)
    ensures cell.IsEmpty() ==> !cell.IsOccupiedBy(p)
    ensures cell.IsOccupiedBy(p) ==> !cell.IsOccupiedBy(NextPlayer(p)) && !cell.IsEmpty()
  {
  }

  const Rows := 8
  const Cols := 8

  /** Row-major contents of the board, row 0 first. */
  type Grid = seq<seq<Cell>>

  predicate IsGrid(g: Grid)
  {
    |g| == Rows && forall r :: 0 <= r < Rows ==> |g[r]| == Cols
  }

  predicate OnBoard(row: int, col: int)
  {
    0 <= row < Rows && 0 <= col < Cols
  }

  function At(g: Grid, row: int, col: int): Cell
    requires IsGrid(g) && OnBoard(row, col)
  {
    g[row][col]
  }

  /** Two grids are equal when they agree on every square. */
  lemma GridExtensionality(g: Grid, h: Grid)
    requires IsGrid(g) && IsGrid(h)
    requires forall r, c :: OnBoard(r, c) ==> At(g, r, c) == At(h, r, c)
    ensures g == h
  {
    forall r | 0 <= r < Rows
      ensures g[r] == h[r]
    {
      forall c | 0 <= c < Cols
        ensures g[r][c] == h[r][c]
      {
        assert At(g, r, c) == At(h, r, c);
      }
    }
  }

  /** The grid with one square replaced. */
  function SetCell(g: Grid, row: int, col: int, cell: Cell): (h: Grid)
    requires IsGrid(g) && OnBoard(row, col)
    ensures IsGrid(h)
    ensures At(h, row, col) == cell
    ensures forall r, c :: OnBoard(r, c) && (r != row || c != col) ==> At(h, r, c) == At(g, r, c)
  {
    g[row := g[row][col := cell]]
  }

  /** The grid after removePiece(row, col). */
  function Removed(g: Grid, row: int, col: int): (h: Grid)
    requires IsGrid(g) && OnBoard(row, col)
    ensures IsGrid(h)
    ensures At(h, row, col) == Empty
    ensures forall r, c :: OnBoard(r, c) && (r != row || c != col) ==> At(h, r, c) == At(g, r, c)
  {
    SetCell(g, row, col, Empty)
  }

  /**
   * The grid after movePiece: the destination receives the source's cell,
   * then the source is cleared.
   */
  function Relocated(g: Grid, fromRow: int, fromCol: int, toRow: int, toCol: int): (h: Grid)
    requires IsGrid(g) && OnBoard(fromRow, fromCol) && OnBoard(toRow, toCol)
    ensures IsGrid(h)
  {
    Removed(SetCell(g, toRow, toCol, At(g, fromRow, fromCol)), fromRow, fromCol)
  }

  /** Relocation between two distinct squares moves one cell and touches nothing else. */
  lemma RelocatedCells(g: Grid, fromRow: int, fromCol: int, toRow: int, toCol: int)
    requires IsGrid(g) && OnBoard(fromRow, fromCol) && OnBoard(toRow, toCol)
    requires fromRow != toRow || fromCol != toCol
    ensures var h := Relocated(g, fromRow, fromCol, toRow, toCol);
      && At(h, toRow, toCol) == At(g, fromRow, fromCol)
      && At(h, fromRow, fromCol) == Empty
      && forall r, c :: OnBoard(r, c) && (r != fromRow || c != fromCol) && (r != toRow || c != toCol) ==>
           At(h, r, c) == At(g, r, c)
  {
  }

  /** The playable squares, where (row + col) is odd. */
  predicate IsDarkSquare(row: int, col: int)
  {
    (row + col) % 2 == 1
  }

  /** The squares the opening layout puts a piece on. */
  predicate IsStartSquare(row: int, col: int)
  {
    IsDarkSquare(row, col) && (row < 3 || row > 4)
  }

  /** WHITE on the dark squares of rows 0-2, BLACK on those of rows 5-7. */
  function InitialCell(row: int, col: int): Cell
  {
    if IsDarkSquare(row, col) && row < 3 then Occupied(White)
    else if IsDarkSquare(row, col) && row > 4 then Occupied(Black)
    else Empty
  }

  function InitialGrid(): (g: Grid)
    ensures IsGrid(g)
    ensures forall r, c :: OnBoard(r, c) ==> At(g, r, c) == InitialCell(r, c)
  {
    seq(Rows, r => seq(Cols, c => InitialCell(r, c)))
  }

  /** Number of `p`'s pieces among the first `n` squares of row `row`. */
  function CountInRow(g: Grid, p: Player, row: int, n: int): (k: nat)
    requires IsGrid(g) && 0 <= row < Rows && 0 <= n <= Cols
    ensures k <= n
  {
    if n == 0 then 0
    else CountInRow(g, p, row, n - 1) + (if At(g, row, n - 1).IsOccupiedBy(p) then 1 else 0)
  }

  /** Number of `p`'s pieces in the first `n` rows. */
  function CountInRows(g: Grid, p: Player, n: int): (k: nat)
    requires IsGrid(g) && 0 <= n <= Rows
    ensures k <= Cols * n
  {
    if n == 0 then 0 else CountInRows(g, p, n - 1) + CountInRow(g, p, n - 1, Cols)
  }

  function PieceCount(g: Grid, p: Player): nat
    requires IsGrid(g)
  {
    CountInRows(g, p, Rows)
  }

  /** The rows where the opening layout puts `p`'s pieces. */
  predicate HomeRow(p: Player, row: int)
  {
    if p == White then row < 3 else row > 4
  }

  lemma InitialOccupied(g: Grid, p: Player, row: int, col: int)
    requires g == InitialGrid() && OnBoard(row, col)
    ensures At(g, row, col).IsOccupiedBy(p) <==> HomeRow(p, row) && IsDarkSquare(row, col)
  {
    assert At(g, row, col) == InitialCell(row, col);
  }

  /** Whether a square is dark depends only on its column and the parity of its row. */
  lemma DarkParity(row: int, col: int)
    ensures IsDarkSquare(row, col) <==> (col + row % 2) % 2 == 1
  {
    assert row + col == col + row % 2 + 2 * (row / 2);
  }

  /** Halving rounded down grows by one exactly at odd numbers. */
  lemma HalfStep(m: int)
    ensures (m + 1) / 2 == m / 2 + (if m % 2 == 1 then 1 else 0)
  {
  }

  /** In a row of the opening layout that holds `p`'s pieces, every other square holds one. */
  lemma {:induction false} InitialCountInRow(g: Grid, p: Player, row: int, n: int)
    requires g == InitialGrid()
    requires 0 <= row < Rows && 0 <= n <= Cols
    ensures CountInRow(g, p, row, n) == if HomeRow(p, row) then (n + row % 2) / 2 else 0
  {
    if n > 0 {
      InitialCountInRow(g, p, row, n - 1);
      InitialOccupied(g, p, row, n - 1);
      DarkParity(row, n - 1);
      HalfStep(n - 1 + row % 2);
    }
  }

  lemma {:induction false} InitialCountInRows(g: Grid, p: Player, n: int)
    requires g == InitialGrid()
    requires 0 <= n <= Rows
    ensures CountInRows(g, p, n) ==
      if p == White then 4 * (if n < 3 then n else 3)
      else 4 * (if n > 5 then n - 5 else 0)
  {
    if n > 0 {
      InitialCountInRows(g, p, n - 1);
      InitialCountInRow(g, p, n - 1, Cols);
    }
  }

  /** The opening layout has twelve pieces per player. */
  lemma InitialPieceCount(g: Grid)
    requires g == InitialGrid()
    ensures PieceCount(g, White) == 12
    ensures PieceCount(g, Black) == 12
  {
    InitialCountInRows(g, White, Rows);
    InitialCountInRows(g, Black, Rows);
  }

  // ---------------------------------------------------------------------------
  // Canonical text dump

  function DigitChar(n: int): char
    requires 0 <= n <= 9
  {
    ('0' as int + n) as char
  }

  /** " s |" for each of the first `n` cells of row `row`. */
  function CellsText(g: Grid, row: int, n: int): (s: string)
    requires IsGrid(g) && 0 <= row < Rows && 0 <= n <= Cols
    ensures |s| == 4 * n
  {
    if n == 0 then "" else CellsText(g, row, n - 1) + " " + At(g, row, n - 1).Symbol() + " |"
  }

  /** The rank digit 8 - row, " |", the cells, and a newline. */
  function RowText(g: Grid, row: int): (s: string)
    requires IsGrid(g) && 0 <= row < Rows
    ensures |s| == 36
  {
    [DigitChar(8 - row)] + " |" + CellsText(g, row, Cols) + "\n"
  }

  function RowsText(g: Grid, n: int): (s: string)
    requires IsGrid(g) && 0 <= n <= Rows
    ensures |s| == 36 * n
  {
    if n == 0 then "" else RowsText(g, n - 1) + RowText(g, n - 1)
  }

  const FileLabels: string := "    a   b   c   d   e   f   g   h\n"

  /** The text dump: eight rank lines, top rank first, then the file labels. */
  function Render(g: Grid): (s: string)
    requires IsGrid(g)
  {
    RowsText(g, Rows) + FileLabels
  }

  /** Appending text leaves the slices of what was there unchanged. */
  lemma PrefixSlice(a: string, b: string, lo: int, hi: int)
    requires 0 <= lo <= hi <= |a|
    ensures (a + b)[lo .. hi] == a[lo .. hi]
  {
    var whole, part := (a + b)[lo .. hi], a[lo .. hi];
    assert |whole| == |part|;
    forall t | 0 <= t < |whole|
      ensures whole[t] == part[t]
    {
      assert whole[t] == a[lo + t];
    }
  }

  lemma {:induction false} CellsTextAt(g: Grid, row: int, n: int, j: int)
    requires IsGrid(g) && 0 <= row < Rows && 0 <= j < n <= Cols
    ensures CellsText(g, row, n)[4 * j .. 4 * j + 4] == " " + At(g, row, j).Symbol() + " |"
  {
    var prefix := CellsText(g, row, n - 1);
    var cell := " " + At(g, row, n - 1).Symbol() + " |";
    assert CellsText(g, row, n) == prefix + cell;
    if j < n - 1 {
      CellsTextAt(g, row, n - 1, j);
      PrefixSlice(prefix, cell, 4 * j, 4 * j + 4);
    } else {
      assert (prefix + cell)[4 * j ..] == cell;
    }
  }

  lemma {:induction false} RowsTextAt(g: Grid, n: int, i: int)
    requires IsGrid(g) && 0 <= i < n <= Rows
    ensures RowsText(g, n)[36 * i .. 36 * i + 36] == RowText(g, i)
  {
    var prefix, line := RowsText(g, n - 1), RowText(g, n - 1);
    assert RowsText(g, n) == prefix + line;
    if i < n - 1 {
      RowsTextAt(g, n - 1, i);
      PrefixSlice(prefix, line, 36 * i, 36 * i + 36);
    } else {
      assert (prefix + line)[36 * i ..] == line;
    }
  }

  /** A slice of a slice is a slice of the whole. */
  lemma SubSlice(s: string, k: int, n: int, lo: int, hi: int)
    requires 0 <= k && k + n <= |s| && 0 <= lo <= hi <= n
    ensures s[k .. k + n][lo .. hi] == s[k + lo .. k + hi]
  {
    var inner, outer := s[k .. k + n][lo .. hi], s[k + lo .. k + hi];
    assert |inner| == |outer|;
    forall t | 0 <= t < |inner|
      ensures inner[t] == outer[t]
    {
      assert inner[t] == s[k + lo + t];
    }
  }

  /** A rank line: its digit, " |", cell `j` at column 3 + 4 * j, and the newline. */
  lemma RowTextLayout(g: Grid, i: int, j: int)
    requires IsGrid(g) && OnBoard(i, j)
    ensures RowText(g, i)[0] == DigitChar(8 - i)
    ensures RowText(g, i)[1..3] == " |"
    ensures RowText(g, i)[3 + 4 * j .. 7 + 4 * j] == " " + At(g, i, j).Symbol() + " |"
    ensures RowText(g, i)[35] == '\n'
  {
    var cells := CellsText(g, i, Cols);
    assert RowText(g, i) == [DigitChar(8 - i)] + " |" + cells + "\n";
    CellsTextAt(g, i, Cols, j);
    assert RowText(g, i)[3 + 4 * j .. 7 + 4 * j] == cells[4 * j .. 4 * j + 4];
  }

  /** After the eight rank lines comes the label line. */
  lemma RenderTail(g: Grid)
    requires IsGrid(g)
    ensures |Render(g)| == 36 * Rows + |FileLabels|
    ensures Render(g)[36 * Rows ..] == FileLabels
  {
    assert |RowsText(g, Rows)| == 36 * Rows;
  }

  /** Line `i` of the dump is the text of row `i`. */
  lemma RenderLine(g: Grid, i: int)
    requires IsGrid(g) && 0 <= i < Rows
    ensures Render(g)[36 * i .. 36 * i + 36] == RowText(g, i)
  {
    var rows := RowsText(g, Rows);
    RowsTextAt(g, Rows, i);
    assert Render(g)[36 * i .. 36 * i + 36] == rows[36 * i .. 36 * i + 36];
  }

  /** Line `i` of the dump starts with the digit 8 - i and shows cell (i, j) at column 4 + 4 * j. */
  lemma RenderLayout(g: Grid, i: int, j: int)
    requires IsGrid(g) && OnBoard(i, j)
    ensures Render(g)[36 * i] == DigitChar(8 - i)
    ensures Render(g)[36 * i + 1 .. 36 * i + 3] == " |"
    ensures Render(g)[36 * i + 3 + 4 * j .. 36 * i + 7 + 4 * j] == " " + At(g, i, j).Symbol() + " |"
    ensures Render(g)[36 * i + 35] == '\n'
  {
    var s := Render(g);
    var line := RowText(g, i);
    RenderLine(g, i);
    RowTextLayout(g, i, j);
    var k := 36 * i;
    var window := s[k .. k + 36];
    assert window == line;
    assert window[0] == s[k] && window[35] == s[k + 35];
    SubSlice(s, k, 36, 1, 3);
    SubSlice(s, k, 36, 3 + 4 * j, 7 + 4 * j);
  }

  /** The dump determines the board: different boards print differently. */
  lemma RenderInjective(g: Grid, h: Grid)
    requires IsGrid(g) && IsGrid(h)
    requires Render(g) == Render(h)
    ensures g == h
  {
    forall r, c | OnBoard(r, c)
      ensures At(g, r, c) == At(h, r, c)
    {
      RenderLine(g, r);
      RenderLine(h, r);
      RowTextLayout(g, r, c);
      RowTextLayout(h, r, c);
      var sg, sh := At(g, r, c).Symbol(), At(h, r, c).Symbol();
      assert (" " + sg + " |")[1] == sg[0];
      assert (" " + sh + " |")[1] == sh[0];
      assert sg == [sg[0]] && sh == [sh[0]];
    }
    GridExtensionality(g, h);
  }
}
