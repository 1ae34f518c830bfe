/** The two sides of the game. */
module Players {

  /** WHITE starts on rows 0-2, BLACK on rows 5-7. */
  datatype Player = White | Black {

    /** The display symbol of the player's pieces. */
    function Symbol(): (s: string)
      ensures |s| == 1
      ensures s == "O" <==> this == White
      ensures s == "X" <==> this == Black
    {
      assert "O"[0] != "X"[0];
      match this
      case White => "O"
      case Black => "X"
    }
  }

  /** The opponent of `p`, who moves after `p`. */
  function NextPlayer(p: Player): (q: Player)
    ensures q != p
  {
    if p == Black then White else Black
  }

  /** Passing the turn twice gives it back. */
  lemma NextPlayerInvolution(p: Player)
    ensures NextPlayer(NextPlayer(p)) == p
  {
  }
}
