/**
 * The engine's simulated game: ten moves from the opening, played one after
 * another through move(), the ninth of which is a capture that keeps the turn
 * for a second jump; afterwards WHITE has a capture and so may not make a
 * simple move.
 */
module Simulation {
  import opened Errors
  import opened Players
  import opened Coordinates
  import opened Moves
  import opened Cells
  import opened Rules
  import opened Turns

  /** Plays the moves in order, as the tests' loop does; the first move move() rejects ends the game with its error. */
  function PlayAll(pos: Position, ms: seq<Move>): (r: Result<Position>)
    requires IsGrid(pos.grid)
    ensures r.Ok? ==> IsGrid(r.value.grid)
    ensures r.Err? ==> r.error == IllegalArgument
    ensures ms == [] ==> r == Ok(pos)
    decreases |ms|
  {
    if ms == [] then Ok(pos)
    else
      match PlayAll(pos, ms[..|ms| - 1])
      case Err(e) => Err(e)
      case Ok(reached) => Play(reached, ms[|ms| - 1])
  }

  lemma PrefixOfPrefix(ms: seq<Move>, k: int)
    requires 0 < k <= |ms|
    ensures ms[..k][..k - 1] == ms[..k - 1] && ms[..k][k - 1] == ms[k - 1]
  {
  }

  /** After an accepted prefix, the next move's outcome, success or error, is the outcome of the longer prefix. */
  lemma PlayAllStep(pos: Position, ms: seq<Move>, k: int, reached: Position)
    requires IsGrid(pos.grid) && 0 <= k < |ms|
    requires PlayAll(pos, ms[..k]) == Ok(reached)
    ensures PlayAll(pos, ms[..k + 1]) == Play(reached, ms[k])
  {
    PrefixOfPrefix(ms, k + 1);
  }

  /** Once a prefix fails, the whole sequence fails with the same error: no later move is played. */
  lemma {:induction false} PlayAllStops(pos: Position, ms: seq<Move>, k: int)
    requires IsGrid(pos.grid) && 0 <= k <= |ms|
    requires PlayAll(pos, ms[..k]).Err?
    ensures PlayAll(pos, ms) == PlayAll(pos, ms[..k])
    decreases |ms|
  {
    if k < |ms| {
      var front := ms[..|ms| - 1];
      assert front[..k] == ms[..k];
      PlayAllStops(pos, front, k);
    } else {
      assert ms[..k] == ms;
    }
  }

  /** The first move rejected after an accepted prefix makes the whole sequence fail with IllegalArgument. */
  lemma FirstRejection(pos: Position, ms: seq<Move>, k: int, reached: Position)
    requires IsGrid(pos.grid) && 0 <= k < |ms|
    requires PlayAll(pos, ms[..k]) == Ok(reached) && Play(reached, ms[k]).Err?
    ensures PlayAll(pos, ms) == Err(IllegalArgument)
  {
    PlayAllStep(pos, ms, k, reached);
    PlayAllStops(pos, ms, k + 1);
  }

  // ---------------------------------------------------------------------------
  // Boards described by the squares each player holds.

  /** The squares held by WHITE and by BLACK. */
  datatype Sides = Sides(whites: iset<Coordinate>, blacks: iset<Coordinate>)

  ghost function Square(s: Sides, c: Coordinate): Cell
  {
    if c in s.whites then Occupied(White)
    else if c in s.blacks then Occupied(Black)
    else Empty
  }

  ghost function Picture(s: Sides): (g: Grid)
    ensures IsGrid(g)
    ensures forall r, c :: OnBoard(r, c) ==> At(g, r, c) == Square(s, Coordinate(r, c))
  {
    seq(Rows, r => seq(Cols, c => Square(s, Coordinate(r, c))))
  }

  /** The squares of `p`. */
  ghost function Own(s: Sides, p: Player): iset<Coordinate>
  {
    if p == White then s.whites else s.blacks
  }

  /** `p`'s piece on `from` goes to `to`. */
  ghost function Shifted(s: Sides, p: Player, from: Coordinate, to: Coordinate): Sides
  {
    if p == White then Sides(s.whites - iset{from} + iset{to}, s.blacks)
    else Sides(s.whites, s.blacks - iset{from} + iset{to})
  }

  /** The piece on `c` leaves the board. */
  ghost function Cleared(s: Sides, c: Coordinate): Sides
  {
    Sides(s.whites - iset{c}, s.blacks - iset{c})
  }

  /** `p` holds `c` and the opponent does not claim it too. */
  ghost predicate Holds(s: Sides, p: Player, c: Coordinate)
  {
    c in Own(s, p) && c !in Own(s, NextPlayer(p))
  }

  /** Moving one's own piece to a free square moves it in the description too. */
  lemma PictureRelocated(s: Sides, p: Player, from: Coordinate, to: Coordinate)
    requires OnBoard(from.row, from.col) && OnBoard(to.row, to.col) && from != to
    requires Holds(s, p, from) && to !in s.whites && to !in s.blacks
    ensures Relocated(Picture(s), from.row, from.col, to.row, to.col) == Picture(Shifted(s, p, from, to))
  {
    var g := Picture(s);
    var h := Relocated(g, from.row, from.col, to.row, to.col);
    RelocatedCells(g, from.row, from.col, to.row, to.col);
    forall r, c | OnBoard(r, c)
      ensures At(h, r, c) == At(Picture(Shifted(s, p, from, to)), r, c)
    {
      if Coordinate(r, c) == from {
        assert At(h, r, c) == Empty;
      } else if Coordinate(r, c) == to {
        assert At(h, r, c) == At(g, from.row, from.col);
      } else {
        assert At(h, r, c) == At(g, r, c);
      }
    }
    GridExtensionality(h, Picture(Shifted(s, p, from, to)));
  }

  /** Removing the piece on a square removes it from the description. */
  lemma PictureRemoved(s: Sides, c: Coordinate)
    requires OnBoard(c.row, c.col)
    ensures Removed(Picture(s), c.row, c.col) == Picture(Cleared(s, c))
  {
    GridExtensionality(Removed(Picture(s), c.row, c.col), Picture(Cleared(s, c)));
  }

  /** The board after a capture, as a description. */
  ghost function AfterCapture(s: Sides, p: Player, m: Move): Sides
  {
    Cleared(Shifted(s, p, m.from, m.to), Midpoint(m))
  }

  /** A simple move played when no capture is available relocates the piece and passes the turn. */
  lemma AdvanceStep(s: Sides, p: Player, m: Move)
    requires !CaptureAvailable(Picture(s), p)
    requires IsAdvance(Picture(s), p, m) && Holds(s, p, m.from)
    ensures Play(Position(Picture(s), p), m) == Ok(Position(Picture(Shifted(s, p, m.from, m.to)), NextPlayer(p)))
  {
    var g := Picture(s);
    LegalMovesCharacterization(g, p, m);
    JumpPiecesFound(g, p);
    PictureRelocated(s, p, m.from, m.to);
  }

  /** The board after a capture, in the description. */
  lemma JumpPicture(s: Sides, p: Player, m: Move)
    requires IsCapture(Picture(s), p, m) && Holds(s, p, m.from)
    ensures JumpResult(Picture(s), p, m) == Picture(AfterCapture(s, p, m))
  {
    assert m == PieceJumpMove(p, m.from, MoveColumnDirection(m));
    var mid := Midpoint(m);
    PictureRelocated(s, p, m.from, m.to);
    PictureRemoved(Shifted(s, p, m.from, m.to), mid);
  }

  /** A capture removes the jumped piece; the turn stays exactly when the landed piece can jump again. */
  lemma CaptureStep(s: Sides, p: Player, m: Move)
    requires IsCapture(Picture(s), p, m) && Holds(s, p, m.from)
    ensures var t := AfterCapture(s, p, m);
      Play(Position(Picture(s), p), m) ==
        Ok(Position(Picture(t), if CanJumpCapture(Picture(t), p, m.to.row, m.to.col) then p else NextPlayer(p)))
  {
    var g := Picture(s);
    LegalMovesCharacterization(g, p, m);
    JumpPiecesFound(g, p);
    JumpPicture(s, p, m);
  }

  /** The jump from `a` in column direction `k` is not open: off the board, not over an enemy, or onto a piece. */
  ghost predicate Blocked(s: Sides, p: Player, a: Coordinate, k: int)
  {
    var mid := Coordinate(a.row + RowDirection(p), a.col + k);
    var to := Coordinate(a.row + 2 * RowDirection(p), a.col + 2 * k);
    !OnBoard(to.row, to.col) || Square(s, to) != Empty || Square(s, mid) != Occupied(NextPlayer(p))
  }

  /** When none of `p`'s pieces has an open jump, `p` has no capture. */
  lemma NoCapture(s: Sides, p: Player)
    requires forall a :: Square(s, a) == Occupied(p) && OnBoard(a.row, a.col) ==> Blocked(s, p, a, -1) && Blocked(s, p, a, 1)
    ensures !CaptureAvailable(Picture(s), p)
  {
    var g := Picture(s);
    forall m ensures !IsCapture(g, p, m) {
      var a := m.from;
      if OnBoard(a.row, a.col) && Square(s, a) == Occupied(p) && m.to.row == a.row + 2 * RowDirection(p) {
        if m.to.col == a.col - 2 {
          assert Blocked(s, p, a, -1);
          assert Midpoint(m) == Coordinate(a.row + RowDirection(p), a.col - 1);
        } else if m.to.col == a.col + 2 {
          assert Blocked(s, p, a, 1);
          assert Midpoint(m) == Coordinate(a.row + RowDirection(p), a.col + 1);
        }
      }
    }
  }

  // ---------------------------------------------------------------------------
  // The game of the engine's tests.

  /** `c` is one of the squares the opening gives to `p`. */
  predicate StartsOn(p: Player, c: Coordinate)
  {
    OnBoard(c.row, c.col) && IsDarkSquare(c.row, c.col) && HomeRow(p, c.row)
  }

  /**
   * The opening layout after each side has left the squares `goneW`/`goneB`
   * of its opening squares and arrived on `newW`/`newB`.
   */
  ghost function Layout(goneW: set<Coordinate>, newW: set<Coordinate>, goneB: set<Coordinate>, newB: set<Coordinate>): Sides
  {
    Sides(iset c | (StartsOn(White, c) && c !in goneW) || c in newW,
          iset c | (StartsOn(Black, c) && c !in goneB) || c in newB)
  }

  lemma OpeningPicture()
    ensures Picture(Layout({}, {}, {}, {})) == InitialGrid()
  {
    GridExtensionality(Picture(Layout({}, {}, {}, {})), InitialGrid());
  }

  /** "3a-4b" … "5e-7c": rank r is row 8 - r and file a is column 0. */
  const SimulationTexts: seq<string> :=
    ["3a-4b", "6d-5c", "4b-6d", "7c-5e", "2b-3a", "7e-6d", "3a-4b", "5e-4f", "3g-5e", "5e-7c"]

  const SimulationMoves: seq<Move> := [
    Move(Coordinate(5, 0), Coordinate(4, 1)),
    Move(Coordinate(2, 3), Coordinate(3, 2)),
    Move(Coordinate(4, 1), Coordinate(2, 3)),
    Move(Coordinate(1, 2), Coordinate(3, 4)),
    Move(Coordinate(6, 1), Coordinate(5, 0)),
    Move(Coordinate(1, 4), Coordinate(2, 3)),
    Move(Coordinate(5, 0), Coordinate(4, 1)),
    Move(Coordinate(3, 4), Coordinate(4, 5)),
    Move(Coordinate(5, 6), Coordinate(3, 4)),
    Move(Coordinate(3, 4), Coordinate(1, 2))
  ]

  /** "8d-7e", the simple move WHITE tries at the end. */
  const ForbiddenAdvance: Move := Move(Coordinate(0, 3), Coordinate(1, 4))

  /** "8b-6d", the capture WHITE is forced to make instead. */
  const ForcedCapture: Move := Move(Coordinate(0, 1), Coordinate(2, 3))

  /** Each text decodes to the move at the same place. */
  lemma SimulationMovesParse()
    ensures |SimulationTexts| == |SimulationMoves|
    ensures forall i :: 0 <= i < |SimulationTexts| ==> ParseMove(SimulationTexts[i]) == Ok(SimulationMoves[i])
  {
    forall i | 0 <= i < |SimulationTexts|
      ensures ParseMove(SimulationTexts[i]) == Ok(SimulationMoves[i])
    {
      var t := SimulationTexts[i];
      assert t == [t[0], t[1]] + ['-'] + [t[3], t[4]];
      assert t[0..2] == [t[0], t[1]] && t[3..5] == [t[3], t[4]];
    }
  }

  // The position after each move.
  ghost const S0: Sides := Layout({}, {}, {}, {})
  ghost const S1: Sides := Layout({}, {}, {Coordinate(5, 0)}, {Coordinate(4, 1)})
  ghost const S2: Sides := Layout({Coordinate(2, 3)}, {Coordinate(3, 2)}, {Coordinate(5, 0)}, {Coordinate(4, 1)})
  ghost const S3: Sides := Layout({Coordinate(2, 3)}, {}, {Coordinate(5, 0)}, {Coordinate(2, 3)})
  ghost const S4: Sides := Layout({Coordinate(1, 2), Coordinate(2, 3)}, {Coordinate(3, 4)}, {Coordinate(5, 0)}, {})
  ghost const S5: Sides := Layout({Coordinate(1, 2), Coordinate(2, 3)}, {Coordinate(3, 4)}, {Coordinate(6, 1)}, {})
  ghost const S6: Sides := Layout({Coordinate(1, 2), Coordinate(1, 4)}, {Coordinate(3, 4)}, {Coordinate(6, 1)}, {})
  ghost const S7: Sides :=
    Layout({Coordinate(1, 2), Coordinate(1, 4)}, {Coordinate(3, 4)}, {Coordinate(5, 0), Coordinate(6, 1)}, {Coordinate(4, 1)})
  ghost const S8: Sides :=
    Layout({Coordinate(1, 2), Coordinate(1, 4)}, {Coordinate(4, 5)}, {Coordinate(5, 0), Coordinate(6, 1)}, {Coordinate(4, 1)})
  ghost const S9: Sides :=
    Layout({Coordinate(1, 2), Coordinate(1, 4)}, {},
           {Coordinate(5, 0), Coordinate(5, 6), Coordinate(6, 1)}, {Coordinate(3, 4), Coordinate(4, 1)})
  ghost const S10: Sides :=
    Layout({Coordinate(1, 2), Coordinate(1, 4), Coordinate(2, 3)}, {},
           {Coordinate(5, 0), Coordinate(5, 6), Coordinate(6, 1)}, {Coordinate(1, 2), Coordinate(4, 1)})

  lemma Quiet0()
    ensures !CaptureAvailable(Picture(S0), Black)
  {
    NoCapture(S0, Black);
  }

  lemma Shift1()
    ensures Shifted(S0, Black, SimulationMoves[0].from, SimulationMoves[0].to) == S1
  {
  }

  lemma Legal1()
    ensures IsAdvance(Picture(S0), Black, SimulationMoves[0]) && Holds(S0, Black, SimulationMoves[0].from)
  {
  }

  lemma Move1()
    ensures Play(Position(Picture(S0), Black), SimulationMoves[0]) == Ok(Position(Picture(S1), White))
  {
    Quiet0();
    Shift1();
    Legal1();
    AdvanceStep(S0, Black, SimulationMoves[0]);
  }

  lemma Quiet1()
    ensures !CaptureAvailable(Picture(S1), White)
  {
    NoCapture(S1, White);
  }

  lemma Shift2()
    ensures Shifted(S1, White, SimulationMoves[1].from, SimulationMoves[1].to) == S2
  {
  }

  lemma Legal2()
    ensures IsAdvance(Picture(S1), White, SimulationMoves[1]) && Holds(S1, White, SimulationMoves[1].from)
  {
  }

  lemma Move2()
    ensures Play(Position(Picture(S1), White), SimulationMoves[1]) == Ok(Position(Picture(S2), Black))
  {
    Quiet1();
    Shift2();
    Legal2();
    AdvanceStep(S1, White, SimulationMoves[1]);
  }

  lemma Jump3()
    ensures AfterCapture(S2, Black, SimulationMoves[2]) == S3
  {
  }

  lemma Landed3()
    ensures !CanJumpCapture(Picture(S3), Black, 2, 3)
  {
  }

  lemma Legal3()
    ensures IsCapture(Picture(S2), Black, SimulationMoves[2]) && Holds(S2, Black, SimulationMoves[2].from)
  {
    var m := SimulationMoves[2];
    assert m.from == Coordinate(4, 1) && m.to == Coordinate(2, 3) && Midpoint(m) == Coordinate(3, 2);
    assert Square(S2, m.to) == Empty && Square(S2, Midpoint(m)) == Occupied(White);
  }

  lemma Move3()
    ensures Play(Position(Picture(S2), Black), SimulationMoves[2]) == Ok(Position(Picture(S3), White))
  {
    Jump3();
    Landed3();
    Legal3();
    CaptureStep(S2, Black, SimulationMoves[2]);
  }

  lemma Jump4()
    ensures AfterCapture(S3, White, SimulationMoves[3]) == S4
  {
  }

  lemma Landed4()
    ensures !CanJumpCapture(Picture(S4), White, 3, 4)
  {
  }

  lemma Legal4()
    ensures IsCapture(Picture(S3), White, SimulationMoves[3]) && Holds(S3, White, SimulationMoves[3].from)
  {
    var m := SimulationMoves[3];
    assert m.from == Coordinate(1, 2) && m.to == Coordinate(3, 4) && Midpoint(m) == Coordinate(2, 3);
    assert Square(S3, m.to) == Empty && Square(S3, Midpoint(m)) == Occupied(Black);
  }

  lemma Move4()
    ensures Play(Position(Picture(S3), White), SimulationMoves[3]) == Ok(Position(Picture(S4), Black))
  {
    Jump4();
    Landed4();
    Legal4();
    CaptureStep(S3, White, SimulationMoves[3]);
  }

  lemma Quiet4()
    ensures !CaptureAvailable(Picture(S4), Black)
  {
    NoCapture(S4, Black);
  }

  lemma Shift5()
    ensures Shifted(S4, Black, SimulationMoves[4].from, SimulationMoves[4].to) == S5
  {
  }

  lemma Legal5()
    ensures IsAdvance(Picture(S4), Black, SimulationMoves[4]) && Holds(S4, Black, SimulationMoves[4].from)
  {
  }

  lemma Move5()
    ensures Play(Position(Picture(S4), Black), SimulationMoves[4]) == Ok(Position(Picture(S5), White))
  {
    Quiet4();
    Shift5();
    Legal5();
    AdvanceStep(S4, Black, SimulationMoves[4]);
  }

  lemma Quiet5()
    ensures !CaptureAvailable(Picture(S5), White)
  {
    NoCapture(S5, White);
  }

  lemma Shift6()
    ensures Shifted(S5, White, SimulationMoves[5].from, SimulationMoves[5].to) == S6
  {
  }

  lemma Legal6()
    ensures IsAdvance(Picture(S5), White, SimulationMoves[5]) && Holds(S5, White, SimulationMoves[5].from)
  {
  }

  lemma Move6()
    ensures Play(Position(Picture(S5), White), SimulationMoves[5]) == Ok(Position(Picture(S6), Black))
  {
    Quiet5();
    Shift6();
    Legal6();
    AdvanceStep(S5, White, SimulationMoves[5]);
  }

  lemma Quiet6()
    ensures !CaptureAvailable(Picture(S6), Black)
  {
    NoCapture(S6, Black);
  }

  lemma Shift7()
    ensures Shifted(S6, Black, SimulationMoves[6].from, SimulationMoves[6].to) == S7
  {
  }

  lemma Legal7()
    ensures IsAdvance(Picture(S6), Black, SimulationMoves[6]) && Holds(S6, Black, SimulationMoves[6].from)
  {
  }

  lemma Move7()
    ensures Play(Position(Picture(S6), Black), SimulationMoves[6]) == Ok(Position(Picture(S7), White))
  {
    Quiet6();
    Shift7();
    Legal7();
    AdvanceStep(S6, Black, SimulationMoves[6]);
  }

  lemma Quiet7()
    ensures !CaptureAvailable(Picture(S7), White)
  {
    NoCapture(S7, White);
  }

  lemma Shift8()
    ensures Shifted(S7, White, SimulationMoves[7].from, SimulationMoves[7].to) == S8
  {
  }

  lemma Legal8()
    ensures IsAdvance(Picture(S7), White, SimulationMoves[7]) && Holds(S7, White, SimulationMoves[7].from)
  {
  }

  lemma Move8()
    ensures Play(Position(Picture(S7), White), SimulationMoves[7]) == Ok(Position(Picture(S8), Black))
  {
    Quiet7();
    Shift8();
    Legal8();
    AdvanceStep(S7, White, SimulationMoves[7]);
  }

  lemma Jump9()
    ensures AfterCapture(S8, Black, SimulationMoves[8]) == S9
  {
  }

  lemma Landed9()
    ensures CanJumpCapture(Picture(S9), Black, 3, 4)
  {
  }

  lemma Legal9()
    ensures IsCapture(Picture(S8), Black, SimulationMoves[8]) && Holds(S8, Black, SimulationMoves[8].from)
  {
  }

  lemma Move9()
    ensures Play(Position(Picture(S8), Black), SimulationMoves[8]) == Ok(Position(Picture(S9), Black))
  {
    Jump9();
    Landed9();
    Legal9();
    CaptureStep(S8, Black, SimulationMoves[8]);
  }

  lemma Jump10()
    ensures AfterCapture(S9, Black, SimulationMoves[9]) == S10
  {
  }

  lemma Landed10()
    ensures !CanJumpCapture(Picture(S10), Black, 1, 2)
  {
  }

  lemma Legal10()
    ensures IsCapture(Picture(S9), Black, SimulationMoves[9]) && Holds(S9, Black, SimulationMoves[9].from)
  {
  }

  lemma Move10()
    ensures Play(Position(Picture(S9), Black), SimulationMoves[9]) == Ok(Position(Picture(S10), White))
  {
    Jump10();
    Landed10();
    Legal10();
    CaptureStep(S9, Black, SimulationMoves[9]);
  }

  /** WHITE, to move at the end, has the capture 8b-6d, so the simple move 8d-7e is refused. */
  lemma CaptureForcedAtEnd()
    ensures IsCapture(Picture(S10), White, ForcedCapture)
    ensures Play(Position(Picture(S10), White), ForcedCapture).Ok?
    ensures Play(Position(Picture(S10), White), ForbiddenAdvance) == Err(IllegalArgument)
  {
    var g := Picture(S10);
    assert IsCapture(g, White, ForcedCapture);
    LegalMovesCharacterization(g, White, ForcedCapture);
    LegalMovesCharacterization(g, White, ForbiddenAdvance);
  }

  /** One more accepted move extends an accepted prefix. */
  lemma ReachStep(start: Position, ms: seq<Move>, k: int, prev: Position, next: Position)
    requires 0 < k <= |ms| && IsGrid(start.grid) && IsGrid(prev.grid)
    requires PlayAll(start, ms[..k - 1]) == Ok(prev) && Play(prev, ms[k - 1]) == Ok(next)
    ensures PlayAll(start, ms[..k]) == Ok(next)
  {
    PlayAllStep(start, ms, k - 1, prev);
  }

  /** Playing the moves up to k from the opening reaches the k-th position. */
  lemma Reach0(start: Position)
    requires start == Position(Picture(S0), Black)
    ensures PlayAll(start, SimulationMoves[..0]) == Ok(Position(Picture(S0), Black))
  {
  }

  lemma Reach1(start: Position)
    requires start == Position(Picture(S0), Black)
    ensures PlayAll(start, SimulationMoves[..1]) == Ok(Position(Picture(S1), White))
  {
    Reach0(start);
    Move1();
    ReachStep(start, SimulationMoves, 1, Position(Picture(S0), Black), Position(Picture(S1), White));
  }

  lemma Reach2(start: Position)
    requires start == Position(Picture(S0), Black)
    ensures PlayAll(start, SimulationMoves[..2]) == Ok(Position(Picture(S2), Black))
  {
    Reach1(start);
    Move2();
    ReachStep(start, SimulationMoves, 2, Position(Picture(S1), White), Position(Picture(S2), Black));
  }

  lemma Reach3(start: Position)
    requires start == Position(Picture(S0), Black)
    ensures PlayAll(start, SimulationMoves[..3]) == Ok(Position(Picture(S3), White))
  {
    Reach2(start);
    Move3();
    ReachStep(start, SimulationMoves, 3, Position(Picture(S2), Black), Position(Picture(S3), White));
  }

  lemma Reach4(start: Position)
    requires start == Position(Picture(S0), Black)
    ensures PlayAll(start, SimulationMoves[..4]) == Ok(Position(Picture(S4), Black))
  {
    Reach3(start);
    Move4();
    ReachStep(start, SimulationMoves, 4, Position(Picture(S3), White), Position(Picture(S4), Black));
  }

  lemma Reach5(start: Position)
    requires start == Position(Picture(S0), Black)
    ensures PlayAll(start, SimulationMoves[..5]) == Ok(Position(Picture(S5), White))
  {
    Reach4(start);
    Move5();
    ReachStep(start, SimulationMoves, 5, Position(Picture(S4), Black), Position(Picture(S5), White));
  }

  lemma Reach6(start: Position)
    requires start == Position(Picture(S0), Black)
    ensures PlayAll(start, SimulationMoves[..6]) == Ok(Position(Picture(S6), Black))
  {
    Reach5(start);
    Move6();
    ReachStep(start, SimulationMoves, 6, Position(Picture(S5), White), Position(Picture(S6), Black));
  }

  lemma Reach7(start: Position)
    requires start == Position(Picture(S0), Black)
    ensures PlayAll(start, SimulationMoves[..7]) == Ok(Position(Picture(S7), White))
  {
    Reach6(start);
    Move7();
    ReachStep(start, SimulationMoves, 7, Position(Picture(S6), Black), Position(Picture(S7), White));
  }

  lemma Reach8(start: Position)
    requires start == Position(Picture(S0), Black)
    ensures PlayAll(start, SimulationMoves[..8]) == Ok(Position(Picture(S8), Black))
  {
    Reach7(start);
    Move8();
    ReachStep(start, SimulationMoves, 8, Position(Picture(S7), White), Position(Picture(S8), Black));
  }

  lemma Reach9(start: Position)
    requires start == Position(Picture(S0), Black)
    ensures PlayAll(start, SimulationMoves[..9]) == Ok(Position(Picture(S9), Black))
  {
    Reach8(start);
    Move9();
    ReachStep(start, SimulationMoves, 9, Position(Picture(S8), Black), Position(Picture(S9), Black));
  }

  lemma Reach10(start: Position)
    requires start == Position(Picture(S0), Black)
    ensures PlayAll(start, SimulationMoves[..10]) == Ok(Position(Picture(S10), White))
  {
    Reach9(start);
    Move10();
    ReachStep(start, SimulationMoves, 10, Position(Picture(S9), Black), Position(Picture(S10), White));
  }

  lemma WholeGame(start: Position)
    requires start == Position(Picture(S0), Black)
    ensures PlayAll(start, SimulationMoves) == Ok(Position(Picture(S10), White))
  {
    Reach10(start);
    PrefixWhole(SimulationMoves);
  }

  lemma PrefixWhole(ms: seq<Move>)
    ensures ms[..|ms|] == ms
  {
  }

  /**
   * From the opening, all ten moves are accepted; after the ninth, 3g-5e, BLACK
   * keeps the turn and plays the second jump 5e-7c; then WHITE must capture
   * (8b-6d is accepted) and the simple move 8d-7e fails with IllegalArgument.
   */
  lemma SimulatedGame(start: Position)
    requires start == Position(InitialGrid(), Black)
    ensures && PlayAll(start, SimulationMoves).Ok?
      && PlayAll(start, SimulationMoves[..8]).Ok? && PlayAll(start, SimulationMoves[..8]).value.player == Black
      && PlayAll(start, SimulationMoves[..9]).Ok? && PlayAll(start, SimulationMoves[..9]).value.player == Black
      && var end := PlayAll(start, SimulationMoves).value;
        && end.player == White
        && Play(end, ForcedCapture).Ok?
        && Play(end, ForbiddenAdvance) == Err(IllegalArgument)
  {
    OpeningPicture();
    Reach8(start);
    Reach9(start);
    WholeGame(start);
    CaptureForcedAtEnd();
  }
}
