/** A move from one coordinate to another and its text form such as "3a-4b". */
module Moves {
  import opened Errors
  import opened Coordinates

  /** Equality of moves is by value: both ends equal. */
  datatype Move = Move(from: Coordinate, to: Coordinate)

  /** The whole input matches the pattern ([1-8][a-h])-([1-8][a-h]). */
  predicate IsMoveText(s: string)
  {
    |s| == 5 && IsCoordinateText(s[0..2]) && s[2] == '-' && IsCoordinateText(s[3..5])
  }

  /**
   * Decodes "3a-4b" by decoding its two groups; a failure of either decoding
   * would propagate, but the pattern already rules it out.
   */
  function ParseMove(s: string): (r: Result<Move>)
    ensures r.Ok? <==> IsMoveText(s)
    ensures r.Err? ==> r.error == IllegalArgument
    ensures r.Ok? ==> Parse(s[0..2]) == Ok(r.value.from) && Parse(s[3..5]) == Ok(r.value.to)
  {
    if !IsMoveText(s) then
      Err(IllegalArgument)
    else
      var from := Parse(s[0..2]);
      var to := Parse(s[3..5]);
      // Parse fails only with IllegalArgument, which would propagate unchanged.
      if from.Err? || to.Err? then Err(IllegalArgument)
      else Ok(Move(from.value, to.value))
  }

  /** The text form of a move between on-board squares: the inverse of ParseMove. */
  function FormatMove(m: Move): (s: string)
    requires 0 <= m.from.row < 8 && 0 <= m.from.col < 8
    requires 0 <= m.to.row < 8 && 0 <= m.to.col < 8
    ensures IsMoveText(s)
  {
    var s := Format(m.from) + "-" + Format(m.to);
    assert s[0..2] == Format(m.from) && s[3..5] == Format(m.to);
    s
  }

  lemma ParseMoveFormat(m: Move)
    requires 0 <= m.from.row < 8 && 0 <= m.from.col < 8
    requires 0 <= m.to.row < 8 && 0 <= m.to.col < 8
    ensures ParseMove(FormatMove(m)) == Ok(m)
  {
    var s := FormatMove(m);
    assert s[0..2] == Format(m.from) && s[3..5] == Format(m.to);
    ParseFormat(m.from);
    ParseFormat(m.to);
  }

  /** Every accepted string decodes to a move whose ends are both on the board. */
  lemma ParseMoveOnBoard(s: string)
    requires IsMoveText(s)
    ensures ParseMove(s).Ok?
    ensures var m := ParseMove(s).value;
      0 <= m.from.row < 8 && 0 <= m.from.col < 8 && 0 <= m.to.row < 8 && 0 <= m.to.col < 8
  {
  }

  lemma ParseMoveExamples()
    ensures ParseMove("3a-4b") == Ok(Move(Coordinate(5, 0), Coordinate(4, 1)))
    ensures ParseMove("1a-8h") == Ok(Move(Coordinate(7, 0), Coordinate(0, 7)))
    ensures ParseMove("0a-10b").Err? && ParseMove("3a-4i").Err? && ParseMove("3z-4b").Err?
  {
    assert "3a-4b"[0..2] == "3a" && "3a-4b"[3..5] == "4b";
    assert "1a-8h"[0..2] == "1a" && "1a-8h"[3..5] == "8h";
    assert "3a-4i"[3..5] == "4i";
    assert "3z-4b"[0..2] == "3z";
  }
}
