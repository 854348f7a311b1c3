# Tic-tac-toe game-state engines, modelled in Dafny

The repository holds two near-duplicate game-state engines for a 3×3
tic-tac-toe board:

- `Game` (src/game.rs) keeps a `[[Option<Player>; 3]; 3]` board, an
  `active_tile` cursor and a `player_turn` enum. `place_mark` writes the
  mover's mark under the cursor and passes the turn. `check_winner` and
  `has_won` scan lines for three equal marks.
- `App` (src/app.rs) has the same board and cursor, keeps the turn as a
  `bool is_cross_turn`, and has a `game_over` flag that no operation
  writes. `handle_move` places a mark and negates the flag. The event loop
  drives this engine.

The model has three modules:

- `Board` (board.dfy) holds what both engines share, generic in the mark
  type. It has the `Option` cell, the cursor coordinate and its default
  (1, 1), the board as a 3×3 value (`Grid`), and a snapshot of a 3×3 array
  as that value. It also has the lines, the predicate `ExaminedWin`
  ("some line that `check_winner` looks at holds `s` in all three cells"),
  and the lemmas about which lines those are. `StandardWin` is the usual
  eight-line rule, kept only as a reference to compare `ExaminedWin` with.
- `GameEngine` (game.dfy) models src/game.rs: `Player`, and a class `Game`
  with an `array2` board, the cursor and the turn.
- `AppEngine` (app.dfy) models src/app.rs: `TileState`, and a class `App`
  with an `array2` board, the cursor, `isCrossTurn` and `gameOver`.

`place_mark` and `handle_move` change the object in place, so they are
methods with `modifies` clauses. Their postconditions give the new board as
`Update` of the old one at the cursor, the new turn, and the fields that stay
the same. `check_winner` is a read-only loop over indices 1 and 2 with a
mutable flag, so it is a method with that `for` loop. It is proved to return
`ExaminedWin` of the board snapshot. `has_won` calls it for Cross and then,
only if needed, for Nought. It has no `modifies` clause, so it changes no
field even though the Rust code takes `&mut self`.

Quirks of the code that the model keeps:

- Nought moves first. `Player` defaults to `Nought` (src/game.rs:3-4), and
  `is_cross_turn` defaults to `false` (src/app.rs:18-22).
- A placement on an occupied cell overwrites the mark and still flips the
  turn. Neither engine tests the cell first (src/game.rs:30-34,
  src/app.rs:29-33).
- The winner check skips row 0 and column 0, because its loop starts at
  index 1 (src/game.rs:44, src/app.rs:40). `Row0WinMissed` and
  `Column0WinMissed` give boards that win under the usual eight-line rule
  (`StandardWin`) but that `check_winner` does not report.
- Neither engine detects a draw or computes an outcome. `has_won` returns
  only a bool (src/game.rs:69-71, src/app.rs:65-67).
- Cursor movement has no wrap-around. The event loop does a plain `usize`
  `-= 1` / `+= 1` (src/main.rs:59-62). That code is not part of this model.
  Placement needs the cursor on the board, and the model says so as a
  precondition.

## Model

| member | source | states |
|---|---|---|
| `Board.DefaultTile` | src/game.rs:13-17 | the default cursor is (1, 1), the centre cell, which is on the board (the same default is at src/app.rs:12-16) |
| `Board.EmptyGrid` | src/game.rs:19-21 | the derived default board has all nine cells `None` |
| `Board.Update` | src/game.rs:30 | writing `board[y][x]` sets that cell to the value and leaves the other eight cells as they were |
| `Board.UpdateOverwrites` | src/game.rs:30-34 | a second write to the same cell replaces the first: nothing records that the cell was already occupied |
| `Board.SnapshotAfterWrite` | src/app.rs:29-31 | an array changed only at (y, x) has the old snapshot updated at (y, x) |
| `Board.ExaminedWinCases` | src/game.rs:40-67 | `ExaminedWin(g, s)` holds iff row 1, column 1, row 2, column 2, the main diagonal or the anti-diagonal holds `s` in all three cells |
| `Board.ExaminedLinesAreAllButRow0AndColumn0` | src/game.rs:44-61 | the examined lines are exactly the eight lines of the board minus row 0 and column 0 |
| `Board.ExaminedWinIffOtherLineFilled` | src/game.rs:40-67 | both directions: the check reports `s` iff a line other than row 0 and column 0 holds `s` in all three cells |
| `Board.ExaminedWinIsStandardWin` | src/game.rs:40-67 | every win the check reports is a win by the usual eight-line rule |
| `Board.Row0AndColumn0NeverWin` | src/game.rs:44 | a board whose only full lines of `s` are row 0 or column 0 is not reported as a win for `s` |
| `Board.Row0WinMissed` | src/game.rs:44-48 | three equal marks along row 0 on an otherwise empty board win by the usual rule, but the check reports no win |
| `Board.Column0WinMissed` | src/app.rs:40-51 | three equal marks down column 0 on an otherwise empty board win by the usual rule, but the check reports no win |
| `Board.EmptyBoardNoWin` | src/game.rs:69-71 | on the empty board neither mark has won |
| `Board.EmptyBoardWinsForNone` | src/game.rs:40-67 | the check compares cells with the `Option` it is given, so `check_winner(&None)` on the empty board reports a win |
| `GameEngine.Other` | src/game.rs:28-37 | the turn after a move is the other player |
| `GameEngine.Game.Default` | src/game.rs:1-24 | a default game has all nine cells `None`, the cursor at (1, 1) and `Nought` to move |
| `GameEngine.Game.PlaceMark` | src/game.rs:27-38 | the cursor cell becomes `Some(player_turn)` whatever it held, every other cell and the cursor stay the same, the turn flips, and the mark just placed is the opposite of the new turn |
| `GameEngine.Game.CheckWinner` | src/game.rs:40-67 | the result is `ExaminedWin(board, state)`: a row or column at index 1 or 2, or a diagonal, holds `state` in all three cells |
| `GameEngine.Game.HasWon` | src/game.rs:69-71 | the result is true iff `check_winner(Some Cross)` or `check_winner(Some Nought)` is, and no field changes |
| `GameEngine.TurnAfterPlacements` | src/game.rs:26-38 | starting from the default game, with the cursor set to any on-board position before each placement, `Nought` is to move iff the number of placements is even |
| `GameEngine.PlaceTwiceOnSameCell` | src/game.rs:27-38 | two placements on the centre of a default game leave only `Some(Cross)` there, every other cell empty, and `Nought` to move |
| `GameEngine.DefaultGameHasNotWon` | src/game.rs:69-71 | `has_won` is false on a default game |
| `AppEngine.MarkFor` | src/app.rs:28-32 | the mark placed is `Cross` iff `is_cross_turn` |
| `AppEngine.App.Default` | src/app.rs:12-24 | a default app has all nine cells `None`, the cursor at (1, 1), `is_cross_turn` false and `game_over` false |
| `AppEngine.App.HandleMove` | src/app.rs:27-34 | the cursor cell becomes `Some(Cross)` if `is_cross_turn`, else `Some(Nought)`, whatever it held; every other cell, the cursor and `game_over` stay the same; the flag is negated, so it is true iff the mark just placed is `Nought` |
| `AppEngine.App.CheckWinner` | src/app.rs:36-63 | the result is `ExaminedWin(board, state)`: a row or column at index 1 or 2, or a diagonal, holds `state` in all three cells |
| `AppEngine.App.HasWon` | src/app.rs:65-67 | the result is true iff `check_winner(Some Cross)` or `check_winner(Some Nought)` is, and no field changes |
| `AppEngine.TurnAfterMoves` | src/app.rs:27-34 | starting from the default app, with the cursor set to any on-board position before each move, `is_cross_turn` is true iff the number of moves is odd |
| `AppEngine.MoveTwiceOnSameCell` | src/app.rs:27-34 | two moves on the centre of a default app leave only `Some(Cross)` there, every other cell empty, `is_cross_turn` false and `game_over` false |
| `AppEngine.DefaultAppHasNotWon` | src/app.rs:65-67 | `has_won` is false on a default app |

## Left out

- src/main.rs is not part of this model. It holds terminal setup and
  teardown, polling input with a 500 ms timeout, drawing, and printing the
  winner. Its cursor keys do unguarded `usize` `-= 1` / `+= 1`, which can
  leave the board or underflow. The model keeps only what placement needs:
  a precondition that the cursor is on the board, since indexing panics
  otherwise.
- src/main.rs also matches `TileState::Empty`, which src/app.rs does not
  define. The model follows src/app.rs.
- src/ui.rs is not part of this model. It is layout and widget rendering
  with `u16` padding arithmetic. Its one piece of logic names the winner as
  the opposite of `player_turn`. `GameEngine.Game.PlaceMark` states the fact
  it relies on.
- `game_over` is never written by any operation, so the model only carries
  it through unchanged.
- `usize` bounds are not modelled. The cursor coordinates are `nat`, and
  every index the engines use is below 3.
