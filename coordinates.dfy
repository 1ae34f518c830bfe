/** Board addresses and their two-character text form such as "3a". */
module Coordinates {
  import opened Errors

  /** Row 0 is rank 8 (the top of the dump); column 0 is file 'a'. */
  datatype Coordinate = Coordinate(row: int, col: int)

  predicate IsRankDigit(ch: char) { '1' <= ch <= '8' }

  predicate IsFileLetter(ch: char) { 'a' <= ch <= 'h' }

  /** The whole input matches the pattern [1-8][a-h]. */
  predicate IsCoordinateText(s: string)
  {
    |s| == 2 && IsRankDigit(s[0]) && IsFileLetter(s[1])
  }

  /** The numeric value of a decimal digit character. */
  function DigitValue(ch: char): (n: int)
    requires '0' <= ch <= '9'
    ensures 0 <= n <= 9
  {
    ch as int - '0' as int
  }

  /**
   * Decodes "3a": row = 8 - digit, col = letter - 'a'; anything else is an
   * IllegalArgument failure.
   */
  function Parse(s: string): (r: Result<Coordinate>)
    ensures r.Ok? <==> IsCoordinateText(s)
    ensures r.Err? ==> r.error == IllegalArgument
    ensures r.Ok? ==> 0 <= r.value.row < 8 && 0 <= r.value.col < 8
    ensures r.Ok? ==> r.value.row == 8 - DigitValue(s[0]) && r.value.col == s[1] as int - 'a' as int
  {
    if !IsCoordinateText(s) then
      Err(IllegalArgument)
    else
      Ok(Coordinate(8 - DigitValue(s[0]), s[1] as int - 'a' as int))
  }

  /** The text form of an on-board coordinate: the inverse of Parse. */
  function Format(c: Coordinate): (s: string)
    requires 0 <= c.row < 8 && 0 <= c.col < 8
    ensures IsCoordinateText(s)
  {
    [('0' as int + 8 - c.row) as char, ('a' as int + c.col) as char]
  }

  lemma ParseFormat(c: Coordinate)
    requires 0 <= c.row < 8 && 0 <= c.col < 8
    ensures Parse(Format(c)) == Ok(c)
  {
  }

  lemma FormatParse(s: string)
    requires IsCoordinateText(s)
    ensures Format(Parse(s).value) == s
  {
    var f := Format(Parse(s).value);
    assert f[0] == s[0] && f[1] == s[1];
  }

  /** Distinct accepted strings decode to distinct coordinates. */
  lemma ParseInjective(s: string, t: string)
    requires Parse(s).Ok? && Parse(t).Ok?
    requires Parse(s) == Parse(t)
    ensures s == t
  {
    FormatParse(s);
    FormatParse(t);
  }

  lemma ParseExamples()
    ensures Parse("1a") == Ok(Coordinate(7, 0))
    ensures Parse("8h") == Ok(Coordinate(0, 7))
    ensures Parse("4c") == Ok(Coordinate(4, 2))
    ensures Parse("10z") == Err(IllegalArgument)
    ensures Parse("9a") == Err(IllegalArgument)
    ensures Parse("4o") == Err(IllegalArgument)
  {
  }

  /** Whole move texts are not coordinates: 0a-10b, 3a-4i and 3z-4b are rejected. */
  lemma MoveTextsRejected()
    ensures Parse("0a-10b") == Err(IllegalArgument)
    ensures Parse("3a-4i") == Err(IllegalArgument)
    ensures Parse("3z-4b") == Err(IllegalArgument)
  {
  }
}
