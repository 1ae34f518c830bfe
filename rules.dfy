/**
 * The rules of the forward-only variant as pure functions of the board's
 * contents and the player to move: the capture and move tests, the row-major
 * scans that collect capturing and movable pieces, and the legal-move list
 * with its forced-capture policy.
 */
module Rules {
  import opened Players
  import opened Coordinates
  import opened Moves
  import opened Cells

  /** BLACK moves up the board (toward row 0), WHITE down; there are no kings. */
  function RowDirection(p: Player): (d: int)
    ensures p == Black ==> d == -1
    ensures p == White ==> d == 1
  {
    if p == Black then -1 else 1
  }

  datatype ColumnDirection = Left | Right {
    function ToInt(): (k: int)
      ensures k == -1 || k == 1
      ensures Left? <==> k == -1
    {
      if Left? then -1 else 1
    }
  }

  /** The square a jump in direction `d` would pass over holds an opponent's piece. */
  predicate HasEnemyPiece(g: Grid, p: Player, row: int, col: int, d: ColumnDirection): (b: bool)
    requires IsGrid(g)
    ensures b <==> var mid := Midpoint(PieceJumpMove(p, Coordinate(row, col), d));
      OnBoard(mid.row, mid.col) && At(g, mid.row, mid.col) == Occupied(NextPlayer(p))
  {
    var enemyRow := row + RowDirection(p);
    var enemyCol := col + d.ToInt();
    OnBoard(enemyRow, enemyCol) && At(g, enemyRow, enemyCol).IsOccupiedBy(NextPlayer(p))
  }

  /**
   * The landing square two steps forward in direction `d` is on the board and
   * empty, past an enemy: from one of `p`'s own pieces, exactly a capture.
   */
  predicate CanJump(g: Grid, p: Player, row: int, col: int, d: ColumnDirection): (b: bool)
    requires IsGrid(g)
    ensures OnBoard(row, col) && At(g, row, col) == Occupied(p) ==>
      (b <==> IsCapture(g, p, PieceJumpMove(p, Coordinate(row, col), d)))
  {
    var targetRow := row + 2 * RowDirection(p);
    var targetCol := col + 2 * d.ToInt();
    OnBoard(targetRow, targetCol) && At(g, targetRow, targetCol).IsEmpty() && HasEnemyPiece(g, p, row, col, d)
  }

  /** The enemy test is repeated inside canJump, so this is canJump itself. */
  predicate CanCapturePiece(g: Grid, p: Player, row: int, col: int, d: ColumnDirection): (b: bool)
    requires IsGrid(g)
    ensures b == CanJump(g, p, row, col, d)
    ensures OnBoard(row, col) && At(g, row, col) == Occupied(p) ==>
      (b <==> IsCapture(g, p, PieceJumpMove(p, Coordinate(row, col), d)))
  {
    HasEnemyPiece(g, p, row, col, d) && CanJump(g, p, row, col, d)
  }

  /** `p` has a piece on (row, col) that can capture in some direction. */
  predicate CanJumpCapture(g: Grid, p: Player, row: int, col: int): (b: bool)
    requires IsGrid(g) && OnBoard(row, col)
    ensures b <==> (At(g, row, col) == Occupied(p) &&
      (IsCapture(g, p, PieceJumpMove(p, Coordinate(row, col), Left)) ||
       IsCapture(g, p, PieceJumpMove(p, Coordinate(row, col), Right))))
  {
    At(g, row, col).IsOccupiedBy(p) &&
    (CanCapturePiece(g, p, row, col, Left) || CanCapturePiece(g, p, row, col, Right))
  }

  /**
   * The square one step forward in direction `d` is on the board and empty:
   * from one of `p`'s own pieces, exactly a simple move.
   */
  predicate CanMoveTo(g: Grid, p: Player, row: int, col: int, d: ColumnDirection): (b: bool)
    requires IsGrid(g)
    ensures OnBoard(row, col) && At(g, row, col) == Occupied(p) ==>
      (b <==> IsAdvance(g, p, PieceForwardMove(p, Coordinate(row, col), d)))
  {
    var targetRow := row + RowDirection(p);
    var targetCol := col + d.ToInt();
    OnBoard(targetRow, targetCol) && At(g, targetRow, targetCol).IsEmpty()
  }

  /** `p` has a piece on (row, col) that can make a simple move. */
  predicate CanMove(g: Grid, p: Player, row: int, col: int): (b: bool)
    requires IsGrid(g) && OnBoard(row, col)
    ensures b <==> (At(g, row, col) == Occupied(p) &&
      (IsAdvance(g, p, PieceForwardMove(p, Coordinate(row, col), Left)) ||
       IsAdvance(g, p, PieceForwardMove(p, Coordinate(row, col), Right))))
  {
    At(g, row, col).IsOccupiedBy(p) && (CanMoveTo(g, p, row, col, Left) || CanMoveTo(g, p, row, col, Right))
  }

  /**
   * The jump of `piece` in direction `d`: it starts at the piece, goes the way
   * `d` points, and passes over the square one step forward in that direction.
   */
  function PieceJumpMove(p: Player, piece: Coordinate, d: ColumnDirection): (m: Move)
    ensures m.from == piece && MoveColumnDirection(m) == d
    ensures m.to == Coordinate(piece.row + 2 * RowDirection(p), piece.col + 2 * d.ToInt())
    ensures Midpoint(m) == Coordinate(piece.row + RowDirection(p), piece.col + d.ToInt())
  {
    var m := Move(piece, Coordinate(piece.row + 2 * RowDirection(p), piece.col + 2 * d.ToInt()));
    assert m.from.row + m.to.row == 2 * (piece.row + RowDirection(p));
    assert m.from.col + m.to.col == 2 * (piece.col + d.ToInt());
    m
  }

  /** The simple move of `piece` in direction `d`: one row forward, the way `d` points. */
  function PieceForwardMove(p: Player, piece: Coordinate, d: ColumnDirection): (m: Move)
    ensures m.from == piece && MoveColumnDirection(m) == d
    ensures m.to.row == piece.row + RowDirection(p)
    ensures m.to.col == piece.col - 1 || m.to.col == piece.col + 1
  {
    Move(piece, Coordinate(piece.row + RowDirection(p), piece.col + d.ToInt()))
  }

  /** The horizontal direction of a move: LEFT when it decreases the column. */
  function MoveColumnDirection(m: Move): (d: ColumnDirection)
    ensures m.to.col < m.from.col ==> d.ToInt() == -1
    ensures m.to.col > m.from.col ==> d.ToInt() == 1
  {
    if m.from.col > m.to.col then Left else Right
  }

  // ---------------------------------------------------------------------------
  // The two kinds of scan: pieces that can capture (and their jumps), and
  // pieces that can move forward (and their simple moves).

  datatype MoveKind = Jump | Forward

  /** The per-piece test of a scan. */
  predicate Able(g: Grid, p: Player, kind: MoveKind, row: int, col: int)
    requires IsGrid(g) && OnBoard(row, col)
  {
    match kind
    case Jump => CanJumpCapture(g, p, row, col)
    case Forward => CanMove(g, p, row, col)
  }

  /** The per-direction test when listing a piece's moves. */
  predicate Reaches(g: Grid, p: Player, kind: MoveKind, piece: Coordinate, d: ColumnDirection)
    requires IsGrid(g)
  {
    match kind
    case Jump => CanJump(g, p, piece.row, piece.col, d)
    case Forward => CanMoveTo(g, p, piece.row, piece.col, d)
  }

  function Target(p: Player, kind: MoveKind, piece: Coordinate, d: ColumnDirection): Move
  {
    match kind
    case Jump => PieceJumpMove(p, piece, d)
    case Forward => PieceForwardMove(p, piece, d)
  }

  /** Row-major order of squares. */
  predicate Precedes(a: Coordinate, b: Coordinate)
  {
    a.row < b.row || (a.row == b.row && a.col < b.col)
  }

  predicate Increasing(s: seq<Coordinate>)
  {
    forall i, j :: 0 <= i < j < |s| ==> Precedes(s[i], s[j])
  }

  /** Squares of earlier rows followed by squares of row `r`, each part ordered, are ordered. */
  lemma AppendIncreasing(a: seq<Coordinate>, b: seq<Coordinate>, r: int)
    requires Increasing(a) && Increasing(b)
    requires forall c :: c in a ==> c.row < r
    requires forall c :: c in b ==> c.row == r
    ensures Increasing(a + b)
  {
    forall i, j | 0 <= i < j < |a + b|
      ensures Precedes((a + b)[i], (a + b)[j])
    {
      if j < |a| {
        assert Precedes(a[i], a[j]);
      } else if i >= |a| {
        assert Precedes(b[i - |a|], b[j - |a|]);
      } else {
        assert a[i] in a && b[j - |a|] in b;
      }
    }
  }

  /** The pieces among the first `n` squares of row `row` that pass the test, left to right. */
  function PiecesInRow(g: Grid, p: Player, kind: MoveKind, row: int, n: int): (s: seq<Coordinate>)
    requires IsGrid(g) && 0 <= row < Rows && 0 <= n <= Cols
    ensures forall c :: c in s ==> c.row == row && 0 <= c.col < n
    ensures Increasing(s)
  {
    if n == 0 then []
    else
      var prefix := PiecesInRow(g, p, kind, row, n - 1);
      if Able(g, p, kind, row, n - 1) then prefix + [Coordinate(row, n - 1)] else prefix
  }

  /** A square of the row is listed exactly when it is among the first `n` and passes the test. */
  lemma {:induction false} PiecesInRowMembers(g: Grid, p: Player, kind: MoveKind, row: int, n: int)
    requires IsGrid(g) && 0 <= row < Rows && 0 <= n <= Cols
    ensures forall c :: c in PiecesInRow(g, p, kind, row, n) <==> c.row == row && 0 <= c.col < n && Able(g, p, kind, row, c.col)
  {
    if n > 0 {
      PiecesInRowMembers(g, p, kind, row, n - 1);
    }
  }

  /** Scanning one more square of a row appends that square when it passes the test (after any earlier pieces `done`). */
  lemma PiecesInRowNext(g: Grid, p: Player, kind: MoveKind, row: int, n: int, done: seq<Coordinate>)
    requires IsGrid(g) && 0 <= row < Rows && 0 <= n < Cols
    ensures done + PiecesInRow(g, p, kind, row, n + 1) ==
      done + PiecesInRow(g, p, kind, row, n) + if Able(g, p, kind, row, n) then [Coordinate(row, n)] else []
  {
    var prefix := PiecesInRow(g, p, kind, row, n);
    var step := if Able(g, p, kind, row, n) then [Coordinate(row, n)] else [];
    assert PiecesInRow(g, p, kind, row, n + 1) == prefix + step;
    assert done + (prefix + step) == done + prefix + step;
  }

  /** The pieces in the first `n` rows that pass the test, in row-major order. */
  function PiecesInRows(g: Grid, p: Player, kind: MoveKind, n: int): (s: seq<Coordinate>)
    requires IsGrid(g) && 0 <= n <= Rows
    ensures forall c :: c in s <==> 0 <= c.row < n && 0 <= c.col < Cols && Able(g, p, kind, c.row, c.col)
    ensures Increasing(s)
  {
    if n == 0 then []
    else
      var prefix := PiecesInRows(g, p, kind, n - 1);
      var row := PiecesInRow(g, p, kind, n - 1, Cols);
      PiecesInRowMembers(g, p, kind, n - 1, Cols);
      AppendIncreasing(prefix, row, n - 1);
      prefix + row
  }

  /** The board scan of calcJumpPieces / calcMovePieces. */
  function Pieces(g: Grid, p: Player, kind: MoveKind): (s: seq<Coordinate>)
    requires IsGrid(g)
    ensures forall c :: c in s <==> OnBoard(c.row, c.col) && Able(g, p, kind, c.row, c.col)
    ensures Increasing(s)
  {
    PiecesInRows(g, p, kind, Rows)
  }

  /** One piece's moves of the given kind: LEFT first, then RIGHT. */
  function PieceMoves(g: Grid, p: Player, kind: MoveKind, piece: Coordinate): seq<Move>
    requires IsGrid(g)
  {
    (if Reaches(g, p, kind, piece, Left) then [Target(p, kind, piece, Left)] else []) +
    (if Reaches(g, p, kind, piece, Right) then [Target(p, kind, piece, Right)] else [])
  }

  /** `m` is one of the moves PieceMoves lists for `piece`. */
  predicate Offers(g: Grid, p: Player, kind: MoveKind, piece: Coordinate, m: Move)
    requires IsGrid(g)
  {
    (Reaches(g, p, kind, piece, Left) && m == Target(p, kind, piece, Left)) ||
    (Reaches(g, p, kind, piece, Right) && m == Target(p, kind, piece, Right))
  }

  /** The moves calcJumpMoves / calcMovesForward append for a list of pieces. */
  function MovesOf(g: Grid, p: Player, kind: MoveKind, pieces: seq<Coordinate>): (ms: seq<Move>)
    requires IsGrid(g)
    ensures |ms| <= 2 * |pieces|
    decreases |pieces|
  {
    if pieces == [] then []
    else MovesOf(g, p, kind, pieces[..|pieces| - 1]) + PieceMoves(g, p, kind, pieces[|pieces| - 1])
  }

  /** A move is listed exactly when it starts at a listed piece and is one of that piece's targets. */
  lemma {:induction false} MovesOfMembers(g: Grid, p: Player, kind: MoveKind, pieces: seq<Coordinate>)
    requires IsGrid(g)
    ensures forall m :: m in MovesOf(g, p, kind, pieces) <==> m.from in pieces && Offers(g, p, kind, m.from, m)
    decreases |pieces|
  {
    if pieces != [] {
      var last := pieces[|pieces| - 1];
      var prefix := pieces[..|pieces| - 1];
      MovesOfMembers(g, p, kind, prefix);
      assert pieces == prefix + [last];
      forall m
        ensures m in PieceMoves(g, p, kind, last) <==> m.from == last && Offers(g, p, kind, m.from, m)
      {
        assert Target(p, kind, last, Left).from == last && Target(p, kind, last, Right).from == last;
      }
    }
  }

  /** Pieces that all passed the scan's test list no moves only when there are none of them. */
  lemma MovesOfEmpty(g: Grid, p: Player, kind: MoveKind, pieces: seq<Coordinate>)
    requires IsGrid(g)
    requires forall c :: c in pieces ==> OnBoard(c.row, c.col) && Able(g, p, kind, c.row, c.col)
    ensures MovesOf(g, p, kind, pieces) == [] <==> pieces == []
  {
    if pieces != [] {
      var last := pieces[|pieces| - 1];
      assert last in pieces;
      assert Reaches(g, p, kind, last, Left) || Reaches(g, p, kind, last, Right);
      assert |PieceMoves(g, p, kind, last)| > 0;
    }
  }

  /** Listing one more piece appends exactly that piece's moves (after any earlier moves `base`). */
  lemma MovesOfAppend(g: Grid, p: Player, kind: MoveKind, pieces: seq<Coordinate>, k: int, base: seq<Move>)
    requires IsGrid(g) && 0 <= k < |pieces|
    ensures base + MovesOf(g, p, kind, pieces[..k]) + PieceMoves(g, p, kind, pieces[k])
      == base + MovesOf(g, p, kind, pieces[..k + 1])
  {
    assert pieces[..k + 1][..k] == pieces[..k];
    var before, step := MovesOf(g, p, kind, pieces[..k]), PieceMoves(g, p, kind, pieces[k]);
    assert MovesOf(g, p, kind, pieces[..k + 1]) == before + step;
    assert base + before + step == base + (before + step);
  }

  /**
   * calcMoves: when some piece can capture, only the jumps of the capturing
   * pieces; otherwise the simple moves of the movable pieces.
   */
  function LegalMoves(g: Grid, p: Player): (r: seq<Move>)
    requires IsGrid(g)
    ensures r == [] <==> Pieces(g, p, Jump) == [] && Pieces(g, p, Forward) == []
  {
    MovesOfEmpty(g, p, Jump, Pieces(g, p, Jump));
    MovesOfEmpty(g, p, Forward, Pieces(g, p, Forward));
    var jumpPieces := Pieces(g, p, Jump);
    if jumpPieces != [] then MovesOf(g, p, Jump, jumpPieces)
    else MovesOf(g, p, Forward, Pieces(g, p, Forward))
  }

  // ---------------------------------------------------------------------------
  // An independent description of the two kinds of move, square by square.

  function Midpoint(m: Move): Coordinate
  {
    Coordinate((m.from.row + m.to.row) / 2, (m.from.col + m.to.col) / 2)
  }

  /**
   * `m` is a capture for `p`: from one of `p`'s pieces two rows forward and two
   * columns sideways, over an opponent's piece, onto an empty square.
   */
  predicate IsCapture(g: Grid, p: Player, m: Move)
    requires IsGrid(g)
  {
    && OnBoard(m.from.row, m.from.col) && At(g, m.from.row, m.from.col) == Occupied(p)
    && m.to.row == m.from.row + 2 * RowDirection(p)
    && (m.to.col == m.from.col - 2 || m.to.col == m.from.col + 2)
    && OnBoard(m.to.row, m.to.col) && At(g, m.to.row, m.to.col) == Empty
    && At(g, Midpoint(m).row, Midpoint(m).col) == Occupied(NextPlayer(p))
  }

  /** `m` is a simple move for `p`: one row forward and one column sideways onto an empty square. */
  predicate IsAdvance(g: Grid, p: Player, m: Move)
    requires IsGrid(g)
  {
    && OnBoard(m.from.row, m.from.col) && At(g, m.from.row, m.from.col) == Occupied(p)
    && m.to.row == m.from.row + RowDirection(p)
    && (m.to.col == m.from.col - 1 || m.to.col == m.from.col + 1)
    && OnBoard(m.to.row, m.to.col) && At(g, m.to.row, m.to.col) == Empty
  }

  ghost predicate CaptureAvailable(g: Grid, p: Player)
    requires IsGrid(g)
  {
    exists m :: IsCapture(g, p, m)
  }

  /** For one direction: a possible jump of an own piece is a capture in that direction. */
  lemma CaptureDirection(g: Grid, p: Player, m: Move, d: ColumnDirection)
    requires IsGrid(g) && OnBoard(m.from.row, m.from.col) && At(g, m.from.row, m.from.col) == Occupied(p)
    ensures (CanJump(g, p, m.from.row, m.from.col, d) && m == PieceJumpMove(p, m.from, d))
      <==> (IsCapture(g, p, m) && m.to.col == m.from.col + 2 * d.ToInt())
  {
    if IsCapture(g, p, m) && m.to.col == m.from.col + 2 * d.ToInt() {
      assert m == PieceJumpMove(p, m.from, d);
    }
  }

  lemma CaptureOffer(g: Grid, p: Player, m: Move)
    requires IsGrid(g)
    ensures (OnBoard(m.from.row, m.from.col) && Able(g, p, Jump, m.from.row, m.from.col) && Offers(g, p, Jump, m.from, m))
      <==> IsCapture(g, p, m)
  {
    if OnBoard(m.from.row, m.from.col) && At(g, m.from.row, m.from.col) == Occupied(p) {
      CaptureDirection(g, p, m, Left);
      CaptureDirection(g, p, m, Right);
    }
  }

  lemma AdvanceOffer(g: Grid, p: Player, m: Move)
    requires IsGrid(g)
    ensures (OnBoard(m.from.row, m.from.col) && Able(g, p, Forward, m.from.row, m.from.col) && Offers(g, p, Forward, m.from, m))
      <==> IsAdvance(g, p, m)
  {
  }

  /** A square that passes the capture test is the source of some capture. */
  lemma CapturingPieceCaptures(g: Grid, p: Player, c: Coordinate)
    requires IsGrid(g) && OnBoard(c.row, c.col) && CanJumpCapture(g, p, c.row, c.col)
    ensures CaptureAvailable(g, p)
  {
    var d := if CanCapturePiece(g, p, c.row, c.col, Left) then Left else Right;
    var m := PieceJumpMove(p, c, d);
    CaptureDirection(g, p, m, d);
  }

  /** The scan finds a capturing piece exactly when some capture exists. */
  lemma JumpPiecesFound(g: Grid, p: Player)
    requires IsGrid(g)
    ensures Pieces(g, p, Jump) != [] <==> CaptureAvailable(g, p)
  {
    var jumpPieces := Pieces(g, p, Jump);
    if jumpPieces != [] {
      assert jumpPieces[0] in jumpPieces;
      CapturingPieceCaptures(g, p, jumpPieces[0]);
    }
    if CaptureAvailable(g, p) {
      var m :| IsCapture(g, p, m);
      CaptureOffer(g, p, m);
      assert m.from in jumpPieces;
    }
  }

  /**
   * The legal moves are exactly the captures when one is available (forced
   * capture), and exactly the simple moves otherwise.
   */
  lemma LegalMovesCharacterization(g: Grid, p: Player, m: Move)
    requires IsGrid(g)
    ensures m in LegalMoves(g, p) <==>
      if CaptureAvailable(g, p) then IsCapture(g, p, m) else IsAdvance(g, p, m)
  {
    JumpPiecesFound(g, p);
    if CaptureAvailable(g, p) {
      MovesOfMembers(g, p, Jump, Pieces(g, p, Jump));
      CaptureOffer(g, p, m);
    } else {
      MovesOfMembers(g, p, Forward, Pieces(g, p, Forward));
      AdvanceOffer(g, p, m);
    }
  }

  /** A diagonal step of any length keeps to squares of one colour. */
  lemma DiagonalKeepsColour(row: int, col: int, rowShift: int, colShift: int)
    requires colShift == rowShift || colShift == -rowShift
    ensures IsDarkSquare(row + rowShift, col + colShift) == IsDarkSquare(row, col)
  {
    var half := if colShift == rowShift then rowShift else 0;
    assert rowShift + colShift == 2 * half;
    assert (row + col + 2 * half) % 2 == (row + col) % 2;
  }

  /** A capture or a simple move keeps its piece on squares of one colour. */
  lemma StepKeepsColour(g: Grid, p: Player, m: Move)
    requires IsGrid(g)
    requires IsCapture(g, p, m) || IsAdvance(g, p, m)
    ensures IsDarkSquare(m.to.row, m.to.col) == IsDarkSquare(m.from.row, m.from.col)
  {
    var rowShift, colShift := m.to.row - m.from.row, m.to.col - m.from.col;
    assert colShift == rowShift || colShift == -rowShift;
    DiagonalKeepsColour(m.from.row, m.from.col, rowShift, colShift);
  }

  /** Every legal move stays on the board and keeps its piece on squares of one colour. */
  lemma LegalMovesOnBoard(g: Grid, p: Player, m: Move)
    requires IsGrid(g)
    requires m in LegalMoves(g, p)
    ensures OnBoard(m.from.row, m.from.col) && OnBoard(m.to.row, m.to.col)
    ensures IsDarkSquare(m.to.row, m.to.col) == IsDarkSquare(m.from.row, m.from.col)
  {
    LegalMovesCharacterization(g, p, m);
    StepKeepsColour(g, p, m);
  }

  /** Move order: row-major by source square, and LEFT before RIGHT for one source. */
  predicate MoveBefore(a: Move, b: Move)
  {
    Precedes(a.from, b.from) || (a.from == b.from && a.to.col < b.to.col)
  }

  predicate Ordered(ms: seq<Move>)
  {
    forall i, j :: 0 <= i < j < |ms| ==> MoveBefore(ms[i], ms[j])
  }

  /** The move order is transitive, so ordered neighbours make an ordered list. */
  lemma {:induction false} OrderedByNeighbours(ms: seq<Move>)
    requires forall i :: 0 <= i < |ms| - 1 ==> MoveBefore(ms[i], ms[i + 1])
    ensures Ordered(ms)
    decreases |ms|
  {
    if |ms| > 1 {
      var rest := ms[1..];
      OrderedByNeighbours(rest);
      forall j | 1 <= j < |ms|
        ensures MoveBefore(ms[0], ms[j])
      {
        if j > 1 {
          assert MoveBefore(ms[1], rest[j - 1]);
        }
      }
      forall i, j | 0 <= i < j < |ms|
        ensures MoveBefore(ms[i], ms[j])
      {
        if i > 0 {
          assert MoveBefore(rest[i - 1], rest[j - 1]);
        }
      }
    }
  }

  /** One piece's moves all start at the piece, LEFT before RIGHT. */
  lemma PieceMovesOrdered(g: Grid, p: Player, kind: MoveKind, piece: Coordinate)
    requires IsGrid(g)
    ensures Ordered(PieceMoves(g, p, kind, piece))
    ensures forall m :: m in PieceMoves(g, p, kind, piece) ==> m.from == piece
  {
    var left, right := Target(p, kind, piece, Left), Target(p, kind, piece, Right);
    assert left.from == piece && right.from == piece && left.to.col < right.to.col;
  }

  /** Moves from earlier squares followed by ordered moves of one later square are ordered. */
  lemma OrderedAppend(front: seq<Move>, back: seq<Move>, pivot: Coordinate)
    requires Ordered(front) && Ordered(back)
    requires forall m :: m in front ==> Precedes(m.from, pivot)
    requires forall m :: m in back ==> m.from == pivot
    ensures Ordered(front + back)
  {
    var all := front + back;
    forall i, j | 0 <= i < j < |all|
      ensures MoveBefore(all[i], all[j])
    {
      if j < |front| {
        assert all[i] == front[i] && all[j] == front[j];
      } else if i >= |front| {
        assert all[i] == back[i - |front|] && all[j] == back[j - |front|];
      } else {
        assert front[i] in front && back[j - |front|] in back;
      }
    }
  }

  lemma {:induction false} MovesOfOrdered(g: Grid, p: Player, kind: MoveKind, pieces: seq<Coordinate>)
    requires IsGrid(g) && Increasing(pieces)
    ensures Ordered(MovesOf(g, p, kind, pieces))
    decreases |pieces|
  {
    if pieces != [] {
      var last := pieces[|pieces| - 1];
      var prefix := pieces[..|pieces| - 1];
      assert Increasing(prefix);
      MovesOfOrdered(g, p, kind, prefix);
      PieceMovesOrdered(g, p, kind, last);
      var front := MovesOf(g, p, kind, prefix);
      MovesOfMembers(g, p, kind, prefix);
      forall m | m in front ensures Precedes(m.from, last) {
        var k :| 0 <= k < |prefix| && prefix[k] == m.from;
        assert pieces[k] == prefix[k];
      }
      OrderedAppend(front, PieceMoves(g, p, kind, last), last);
      assert MovesOf(g, p, kind, pieces) == front + PieceMoves(g, p, kind, last);
    }
  }

  /** The legal moves come in row-major order of their source, LEFT before RIGHT, with no repeats. */
  lemma LegalMovesOrdered(g: Grid, p: Player)
    requires IsGrid(g)
    ensures Ordered(LegalMoves(g, p))
  {
    if Pieces(g, p, Jump) != [] {
      MovesOfOrdered(g, p, Jump, Pieces(g, p, Jump));
    } else {
      MovesOfOrdered(g, p, Forward, Pieces(g, p, Forward));
    }
  }
}
