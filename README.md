# Forward-only checkers engine

A model of the rules engine of a small two-player checkers (draughts) game.
The engine owns an 8x8 board and the player to move. On demand it scans the
board for the pieces of the player to move that can capture, lists their
jumps, and only when there are none lists the simple moves instead (forced
capture). It validates a proposed move against that list, applies it
(removing a captured piece), keeps the turn with the same player while the
landed piece can capture again (multi-jump), and reports the game over when
the player to move has no legal move. Pieces only move forward: BLACK up the
board toward rank 8, WHITE down toward rank 1; there are no kings.

Moves arrive as text such as `3a-4b`: a rank digit and a file letter for each
end. Rank 8 is row 0 and file `a` is column 0.

Layout:

- `errors.dfy` — `Result` and the two failure kinds the engine raises
  (illegal argument, index out of bounds).
- `players.dfy` — the two players, their display symbols, and turn passing.
- `coordinates.dfy`, `moves.dfy` — board coordinates, moves, and their text forms.
- `cells.dfy` — board cells and the board's contents as a value (`Grid`):
  the opening layout, removing and relocating a piece, and the text dump.
- `board.dfy` — the `Board` class over a two-dimensional array of cells.
- `rules.dfy` — the move tests, the row-major scans and the legal-move list
  as functions of the board's contents, with an independent square-by-square
  description of captures and simple moves.
- `turns.dfy` — the effect of one move on a position (`Play`).
- `logic.dfy` — the `CheckersLogic` class: the board, the player to move,
  and the three scratch lists, with each method proved against the functions
  of `rules.dfy` and `turns.dfy`.
- `opening.dfy` — the opening position worked out: BLACK has exactly seven moves.
- `games.dfy` — short sessions with the engine from a fresh game.
- `simulation.dfy` — the ten-move game of the engine's tests, move by move, ending in a forced capture.

The engine's predicates (`hasEnemyPiece`, `canJump`, `canMove`, ...) read the
board through `Board.Grid()`, a snapshot of the array as a sequence of rows,
so one definition serves both the compiled methods and their specifications.

## Model

| member | source | states |
|---|---|---|
| Players.Player.Symbol | src/core/Player.java:7-8 | WHITE shows "O" and BLACK shows "X" (each exactly), one character each |
| Players.NextPlayer | src/main/java/rybchynskyi/checkersgui/core/CheckersLogic.java:22-24 | the player moving next is always the other player |
| Players.NextPlayerInvolution | src/main/java/rybchynskyi/checkersgui/core/CheckersLogic.java:22-24 | passing the turn twice returns it to the same player |
| Coordinates.Parse | src/core/Coordinate.java:23-31 | accepts exactly the inputs matching `[1-8][a-h]`, otherwise fails with IllegalArgument; row is 8 minus the digit, column the letter's offset from `a`, both on the board |
| Coordinates.ParseFormat | src/core/Coordinate.java:23-31 | every on-board coordinate is parsed back from its two-character text |
| Coordinates.FormatParse | src/core/Coordinate.java:23-31 | every accepted text is reproduced from the coordinate it decodes to |
| Coordinates.ParseInjective | src/core/Coordinate.java:27-30 | two accepted texts giving equal coordinates are the same text |
| Coordinates.ParseExamples | src/test/java/rybchynskyi/checkersgui/core/CoordinateTest.java:8-39 | 1a, 8h and 4c decode to (7,0), (0,7), (4,2); 10z, 9a and 4o are rejected |
| Coordinates.MoveTextsRejected | src/test/java/rybchynskyi/checkersgui/core/MoveTest.java:20-33 | the move texts 0a-10b, 3a-4i and 3z-4b, given as coordinates, are rejected with IllegalArgument |
| Moves.ParseMove | src/main/java/rybchynskyi/checkersgui/core/Move.java:22-30 | accepts exactly the inputs matching `([1-8][a-h])-([1-8][a-h])`, otherwise IllegalArgument; each end is the decoding of its group |
| Moves.ParseMoveFormat | src/main/java/rybchynskyi/checkersgui/core/Move.java:22-30 | every move between on-board squares is parsed back from its text |
| Moves.ParseMoveExamples | src/test/java/rybchynskyi/checkersgui/core/MoveTest.java:8-33 | 3a-4b and 1a-8h decode as expected; 0a-10b, 3a-4i and 3z-4b are rejected |
| Cells.Cell.Symbol | src/main/java/rybchynskyi/checkersgui/core/Board.java:205-290 | each cell prints as one character, `_` exactly for an empty cell, and an occupied cell shows its owner's symbol |
| Cells.OccupancyExclusive | src/main/java/rybchynskyi/checkersgui/core/Board.java:236-290 | an empty cell is occupied by nobody; an occupied one is occupied by exactly one player |
| Cells.InitialGrid | src/main/java/rybchynskyi/checkersgui/core/Board.java:16-44 | the opening layout: WHITE on the dark squares of rows 0-2, BLACK on those of rows 5-7, every other square empty |
| Cells.InitialPieceCount | src/main/java/rybchynskyi/checkersgui/core/Board.java:23-44 | each player starts with twelve pieces |
| Cells.Removed | src/main/java/rybchynskyi/checkersgui/core/Board.java:102-106 | removing a piece empties that square and changes no other |
| Cells.RelocatedCells | src/main/java/rybchynskyi/checkersgui/core/Board.java:117-124 | relocating puts the source's contents on the target, empties the source, and changes no other square |
| Cells.RenderTail | src/main/java/rybchynskyi/checkersgui/core/Board.java:170-182 | the dump is eight 36-character rank lines followed by the file-label line |
| Cells.RenderLayout | src/main/java/rybchynskyi/checkersgui/core/Board.java:172-178 | rank line i starts with digit 8 - i and " \|", shows cell (i, j) as " s \|" at offset 3 + 4j, and ends with a newline |
| Cells.RenderInjective | src/main/java/rybchynskyi/checkersgui/core/Board.java:170-182 | two boards with the same dump hold the same pieces |
| Boards.Board.constructor | src/main/java/rybchynskyi/checkersgui/core/Board.java:67-72 | a new board holds the opening layout |
| Boards.Board.SetWhitePieces | src/main/java/rybchynskyi/checkersgui/core/Board.java:23-31 | puts WHITE on every dark square of rows 0-2 and writes nothing else |
| Boards.Board.SetBlackPieces | src/main/java/rybchynskyi/checkersgui/core/Board.java:36-44 | puts BLACK on every dark square of rows 5-7 and writes nothing else |
| Boards.Board.SetEmptyCells | src/main/java/rybchynskyi/checkersgui/core/Board.java:50-62 | empties every square the piece loops left unwritten and keeps the pieces |
| Boards.Board.IsValidCoordinate | src/main/java/rybchynskyi/checkersgui/core/Board.java:80-83 | true exactly for rows and columns 0-7 |
| Boards.Board.IsOccupiedByPlayer | src/main/java/rybchynskyi/checkersgui/core/Board.java:92-94 | off the board: IndexOutOfBounds; on it: whether the player has a piece there |
| Boards.Board.IsEmpty | src/main/java/rybchynskyi/checkersgui/core/Board.java:133-136 | off the board: IndexOutOfBounds; on it: whether the square is empty |
| Boards.Board.RemovePiece | src/main/java/rybchynskyi/checkersgui/core/Board.java:102-106 | off the board: IndexOutOfBounds and no change; on it: the board with that square emptied |
| Boards.Board.MovePiece | src/main/java/rybchynskyi/checkersgui/core/Board.java:117-124 | an end off the board: IndexOutOfBounds; an occupied target: IllegalArgument; both leave the board unchanged; otherwise the piece is relocated |
| Boards.Board.GetRows | src/main/java/rybchynskyi/checkersgui/core/Board.java:142-144 | the board has 8 rows |
| Boards.Board.GetCols | src/main/java/rybchynskyi/checkersgui/core/Board.java:150-152 | the board has 8 columns |
| Boards.Board.ToString | src/main/java/rybchynskyi/checkersgui/core/Board.java:170-182 | the string built is the dump of the board's contents |
| Rules.RowDirection | src/main/java/rybchynskyi/checkersgui/core/CheckersLogic.java:221-223 | BLACK moves toward row 0 (-1), WHITE toward row 7 (+1) |
| Rules.ColumnDirection.ToInt | src/main/java/rybchynskyi/checkersgui/core/CheckersLogic.java:253-265 | LEFT shifts the column by -1 and RIGHT by +1 |
| Rules.HasEnemyPiece | src/main/java/rybchynskyi/checkersgui/core/CheckersLogic.java:53-58 | true exactly when the square one row forward and one column toward the direction is on the board and holds an opponent's piece |
| Rules.CanJump | src/main/java/rybchynskyi/checkersgui/core/CheckersLogic.java:91-98 | from a square holding the player's own piece: true exactly when the jump in that direction is a capture |
| Rules.CanCapturePiece | src/main/java/rybchynskyi/checkersgui/core/CheckersLogic.java:67-69 | the same answer as `CanJump`, so from an own piece exactly when the jump is a capture |
| Rules.CanJumpCapture | src/main/java/rybchynskyi/checkersgui/core/CheckersLogic.java:77-82 | true exactly when the square holds the player's piece and its LEFT or RIGHT jump is a capture |
| Rules.CanMoveTo | src/main/java/rybchynskyi/checkersgui/core/CheckersLogic.java:107-112 | from a square holding the player's own piece: true exactly when the step in that direction is a simple move |
| Rules.CanMove | src/main/java/rybchynskyi/checkersgui/core/CheckersLogic.java:120-125 | true exactly when the square holds the player's piece and its LEFT or RIGHT step is a simple move |
| Rules.PieceJumpMove | src/main/java/rybchynskyi/checkersgui/core/CheckersLogic.java:159-164 | the jump starts at the piece, lands two rows forward and two columns the way the direction points, and passes over the square one row forward and one column over |
| Rules.PieceForwardMove | src/main/java/rybchynskyi/checkersgui/core/CheckersLogic.java:184-189 | the step starts at the piece, lands one row forward and one column to either side, in the given direction |
| Rules.MoveColumnDirection | src/main/java/rybchynskyi/checkersgui/core/CheckersLogic.java:238-240 | a move toward a lower column is LEFT (-1), one toward a higher column RIGHT (+1) |
| Rules.Pieces | src/main/java/rybchynskyi/checkersgui/core/CheckersLogic.java:130-151 | the scan lists exactly the on-board squares passing the per-piece test, in strictly increasing row-major order |
| Rules.MovesOf | src/main/java/rybchynskyi/checkersgui/core/CheckersLogic.java:169-201 | at most two moves are listed per piece |
| Rules.PiecesInRowMembers | src/main/java/rybchynskyi/checkersgui/core/CheckersLogic.java:130-151 | the scan of one row up to a column lists exactly the squares before it passing the per-piece test |
| Rules.MovesOfEmpty | src/main/java/rybchynskyi/checkersgui/core/CheckersLogic.java:169-201 | for pieces that pass the per-piece test, the move list is empty exactly when there are no pieces |
| Rules.LegalMoves | src/main/java/rybchynskyi/checkersgui/core/CheckersLogic.java:206-215 | the legal-move list is empty exactly when no piece can capture and no piece can move |
| Rules.MovesOfMembers | src/main/java/rybchynskyi/checkersgui/core/CheckersLogic.java:169-201 | a move is listed exactly when it starts at a listed piece and is that piece's LEFT or RIGHT target |
| Rules.CaptureOffer | src/main/java/rybchynskyi/checkersgui/core/CheckersLogic.java:53-98 | a jump offered by the scan is exactly a capture: own piece, two rows forward and two columns sideways, over an opponent's piece, onto an empty square |
| Rules.AdvanceOffer | src/main/java/rybchynskyi/checkersgui/core/CheckersLogic.java:107-125 | a simple move offered by the scan is exactly one row forward and one column sideways onto an empty square |
| Rules.JumpPiecesFound | src/main/java/rybchynskyi/checkersgui/core/CheckersLogic.java:130-138 | the capture scan finds a piece exactly when some capture exists |
| Rules.LegalMovesCharacterization | src/main/java/rybchynskyi/checkersgui/core/CheckersLogic.java:206-215 | forced capture: when a capture exists the legal moves are exactly the captures, otherwise exactly the simple moves |
| Rules.LegalMovesOnBoard | src/main/java/rybchynskyi/checkersgui/core/CheckersLogic.java:159-201 | every legal move starts and ends on the board and keeps its piece on one square colour |
| Rules.MovesOfOrdered | src/main/java/rybchynskyi/checkersgui/core/CheckersLogic.java:169-201 | moves are listed by source square in row-major order, LEFT before RIGHT |
| Rules.LegalMovesOrdered | src/main/java/rybchynskyi/checkersgui/core/CheckersLogic.java:206-215 | the legal-move list is in that order |
| Turns.JumpResult | src/main/java/rybchynskyi/checkersgui/core/CheckersLogic.java:246-251 | the board after a jump is again a full 8x8 board |
| Turns.Play | src/main/java/rybchynskyi/checkersgui/core/CheckersLogic.java:315-326 | a move succeeds exactly when it is in the legal-move list, otherwise IllegalArgument |
| Turns.JumpResultCells | src/main/java/rybchynskyi/checkersgui/core/CheckersLogic.java:246-251 | the board after a jump has the piece on the target, the source and the jumped square empty, and every other square unchanged |
| Turns.PlayCapture | src/main/java/rybchynskyi/checkersgui/core/CheckersLogic.java:318-321 | a capture puts the piece on its target and empties its source and the jumped square, nothing else changes; the same player moves again exactly when the landed piece can capture again |
| Turns.PlayAdvance | src/main/java/rybchynskyi/checkersgui/core/CheckersLogic.java:322-325 | a simple move relocates one piece, changes nothing else and passes the turn |
| Turns.TurnKept | src/main/java/rybchynskyi/checkersgui/core/CheckersLogic.java:318-325 | the turn stays only after a capture whose landed piece can capture again, and then the next legal moves are all captures |
| Logic.CheckersLogic.constructor | src/main/java/rybchynskyi/checkersgui/core/CheckersLogic.java:271-277 | a new game on the opening layout with the given player to move and empty scratch lists |
| Logic.CheckersLogic.Default | src/main/java/rybchynskyi/checkersgui/core/CheckersLogic.java:282-284 | the same with BLACK to move |
| Logic.CheckersLogic.CalcJumpPieces | src/main/java/rybchynskyi/checkersgui/core/CheckersLogic.java:130-138 | the capturing pieces, by the row-major scan |
| Logic.CheckersLogic.CalcMovePieces | src/main/java/rybchynskyi/checkersgui/core/CheckersLogic.java:143-151 | the movable pieces, by the row-major scan |
| Logic.CheckersLogic.CalcJumpMoves | src/main/java/rybchynskyi/checkersgui/core/CheckersLogic.java:169-176 | appends the jumps of the capturing pieces |
| Logic.CheckersLogic.CalcMovesForward | src/main/java/rybchynskyi/checkersgui/core/CheckersLogic.java:194-201 | appends the simple moves of the movable pieces |
| Logic.CheckersLogic.CalcMoves | src/main/java/rybchynskyi/checkersgui/core/CheckersLogic.java:206-215 | the cache becomes the legal-move list of the position |
| Logic.CheckersLogic.IsMoveValid | src/main/java/rybchynskyi/checkersgui/core/CheckersLogic.java:291-297 | true exactly when the move equals an entry of the cache |
| Logic.CheckersLogic.IsGameOver | src/main/java/rybchynskyi/checkersgui/core/CheckersLogic.java:303-306 | refreshes the cache; over exactly when the player to move has no legal move |
| Logic.CheckersLogic.MoveForward | src/main/java/rybchynskyi/checkersgui/core/CheckersLogic.java:229-231 | relocates the moving piece |
| Logic.CheckersLogic.Jump | src/main/java/rybchynskyi/checkersgui/core/CheckersLogic.java:246-251 | relocates the piece and removes the jumped one |
| Logic.CheckersLogic.Move | src/main/java/rybchynskyi/checkersgui/core/CheckersLogic.java:315-326 | refreshes the cache; an illegal move fails with IllegalArgument and changes neither board nor player; a legal one leaves exactly the position `Play` gives |
| Logic.CheckersLogic.GetCurrentPlayer | src/main/java/rybchynskyi/checkersgui/core/CheckersLogic.java:340-342 | the player to move |
| Logic.CheckersLogic.GetCurrentPlayerString | src/main/java/rybchynskyi/checkersgui/core/CheckersLogic.java:332-334 | the symbol of the player to move |
| Logic.CheckersLogic.GetNextPlayerString | src/main/java/rybchynskyi/checkersgui/core/CheckersLogic.java:348-350 | the symbol of the other player, the one `NextPlayer` gives |
| Logic.CheckersLogic.GetBoardString | src/main/java/rybchynskyi/checkersgui/core/CheckersLogic.java:356-358 | the dump of the board |
| Logic.CheckersLogic.GetMoveCount | src/main/java/rybchynskyi/checkersgui/core/CheckersLogic.java:364-366 | the size of the cache |
| Logic.CheckersLogic.GetMove | src/main/java/rybchynskyi/checkersgui/core/CheckersLogic.java:373-375 | an index inside the cache gives that entry, any other index IndexOutOfBounds |
| Logic.CheckersLogic.Primed | src/test/java/rybchynskyi/checkersgui/core/CheckersLogicTest.java:109-112 | a new game whose cache already holds the opening position's legal moves |
| Opening.OrderedUnique | src/main/java/rybchynskyi/checkersgui/core/CheckersLogic.java:169-201 | two move lists in scan order with the same members are the same list, so the legal-move list is fixed by which moves are legal |
| Opening.InitialCannotCapture | src/main/java/rybchynskyi/checkersgui/core/CheckersLogic.java:77-82 | no BLACK piece can capture in the opening layout |
| Opening.InitialAdvances | src/main/java/rybchynskyi/checkersgui/core/CheckersLogic.java:107-125 | in the opening layout BLACK's simple moves are exactly 3a-4b, 3c-4b, 3c-4d, 3e-4d, 3e-4f, 3g-4f, 3g-4h |
| Opening.InitialLegalMoves | src/main/java/rybchynskyi/checkersgui/core/CheckersLogic.java:206-215 | at the opening BLACK has no capture and exactly the seven moves 3a-4b, 3c-4b, 3c-4d, 3e-4d, 3e-4f, 3g-4f, 3g-4h |
| Simulation.PlayAll | src/test/java/rybchynskyi/checkersgui/core/CheckersLogicTest.java:31-35 | an empty sequence leaves the position as it was; a success ends on a full board and a failure is IllegalArgument |
| Simulation.PlayAllStep | src/test/java/rybchynskyi/checkersgui/core/CheckersLogicTest.java:31-35 | after an accepted prefix, the next move's outcome, success or error, is the outcome of the longer prefix |
| Simulation.PlayAllStops | src/test/java/rybchynskyi/checkersgui/core/CheckersLogicTest.java:31-35 | once a prefix fails, the whole sequence fails with that same error: later moves are never played |
| Simulation.FirstRejection | src/test/java/rybchynskyi/checkersgui/core/CheckersLogicTest.java:31-35 | the first move rejected after an accepted prefix makes the whole sequence fail with IllegalArgument |
| Simulation.AdvanceStep | src/main/java/rybchynskyi/checkersgui/core/CheckersLogic.java:322-325 | on a board with no capture for the player, a simple move of an own piece relocates it and passes the turn |
| Simulation.CaptureStep | src/main/java/rybchynskyi/checkersgui/core/CheckersLogic.java:318-321 | a capture by an own piece relocates it and removes the jumped piece; the same player keeps the turn exactly when the landed piece can capture again |
| Simulation.OpeningPicture | src/main/java/rybchynskyi/checkersgui/core/Board.java:16-44 | the board on which each player holds exactly its starting dark squares of its home rows is the opening layout |
| Simulation.SimulationMovesParse | src/test/java/rybchynskyi/checkersgui/core/CheckersLogicTest.java:19-30 | each of the ten texts of the simulated game decodes to the move it stands for |
| Simulation.CaptureForcedAtEnd | src/test/java/rybchynskyi/checkersgui/core/CheckersLogicTest.java:72 | after the ten moves WHITE can capture with 8b-6d, so the simple move 8d-7e is rejected with IllegalArgument |
| Simulation.WholeGame | src/test/java/rybchynskyi/checkersgui/core/CheckersLogicTest.java:18-36 | from the opening with BLACK to move, all ten moves are legal, and WHITE is to move at the end |
| Simulation.SimulatedGame | src/test/java/rybchynskyi/checkersgui/core/CheckersLogicTest.java:53-73 | from the opening with BLACK to move all ten moves succeed; BLACK keeps the turn after the capture 3g-5e and moves again; afterwards WHITE must capture, so 8d-7e fails with IllegalArgument |
| Games.FreshGameAsWritten | src/main/java/rybchynskyi/checkersgui/core/CheckersLogic.java:271-297 | a new game reports no moves and rejects 3a-4b |
| Games.FreshGameAfterGameOverQuery | src/test/java/rybchynskyi/checkersgui/core/CheckersLogicTest.java:38-51 | after asking whether the game is over (it is not), 3a-4b is valid, 4a-5b invalid, and there are seven moves |
| Games.FreshGamePrimed | src/test/java/rybchynskyi/checkersgui/core/CheckersLogicTest.java:109-112 | a game built with its cache filled reports seven moves, accepts 3a-4b and rejects 4a-5b at once |
| Games.OpeningTurn | src/test/java/rybchynskyi/checkersgui/core/CheckersLogicTest.java:75-94 | BLACK ("X") opens with "O" next, and after 3a-4b WHITE ("O") is to move with "X" next |
| Games.FreshBoardText | src/test/java/rybchynskyi/checkersgui/core/CheckersLogicTest.java:96-100 | a new game shows the same text as a new board |

## Left out

- The graphical and text front ends, the console game loop and the program entry point: input and output only.
- The random opponent: it picks a uniformly random index into the cache; `GetMove` models the lookup, the random choice is left out.
- The older prototype engine in the `core` package (its own board, game and move types): superseded by the modelled engine.
- `getSymbol(row, col)`, called by two tests (src/test/java/rybchynskyi/checkersgui/core/BoardTest.java:88-93 and src/test/java/rybchynskyi/checkersgui/core/CheckersLogicTest.java:102-107), is defined neither on the board nor on the engine; it is not part of this model. `Cells.Cell.Symbol` gives the same one-character text for a square.
- Empty-square colours: the board writes "black" and "white" empty cells, but the two print the same `_` and no rule reads the colour, so an empty cell carries no colour here.
- Shared cell instances: the board stores references to four shared cell objects; here a cell is a value.
- Java integer overflow: every index stays within -2..9, so unbounded integers change nothing.
- The board's cells start as `null` before the three set-up loops; here the array starts with arbitrary cells and the empty-cell loop writes exactly the squares the piece loops did not, which is the same end state.
- Each of the four scans (`CalcJumpPieces`, `CalcMovePieces`, `CalcJumpMoves`, `CalcMovesForward`) reads the board once, as a snapshot (`Board.Grid()`) taken before its loops, instead of one array read per test; none of them writes the board, so the answers are the same.
- The ten-move game of the engine's tests is played on positions as values (`Turns.Play`, folded by `Simulation.PlayAll`), not through a `CheckersLogic` object; `Logic.CheckersLogic.Move` is proved to leave exactly the position `Play` gives, so the object would pass through the same positions.

## Differences from the documentation

- `Board.movePiece` is documented to reject an empty source square, but the code rejects an occupied target and moves whatever the source holds; the model follows the code.

## Multi-jumps

A multi-jump is not restricted to the piece that just captured: when the turn is kept, every capture of the same player is legal again, including captures by other pieces. Only the decision to keep the turn looks at the landed piece (src/main/java/rybchynskyi/checkersgui/core/CheckersLogic.java:320-321); the engine's documentation says nothing about which piece continues. The model follows the modelled engine's code (`Turns.TurnKept` states only that the next moves are all captures).

## Findings

| source | as written | input that shows it | evidently intended | confidence | as-written member | corrected member |
|---|---|---|---|---|---|---|
| src/main/java/rybchynskyi/checkersgui/core/CheckersLogic.java:271-297 | the constructor leaves the move cache empty, and `isMoveValid` and `getMoveCount` read the cache without refreshing it | a new game asked whether 3a-4b is valid, or how many moves there are | a new game answers for the opening position: 3a-4b valid and seven moves, as the engine's tests expect | not executed | Games.FreshGameAsWritten | Games.FreshGamePrimed |
