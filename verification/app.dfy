/** The game-state engine of src/app.rs, the one the event loop drives: the
    same board as GameEngine, with the turn kept as a bool and a game_over
    flag that no operation writes. */
module AppEngine {
  import opened Board

  /** TileState: the two marks. */
  datatype TileState = Nought | Cross

  /** The mark handle_move places for the given turn flag. */
  function MarkFor(isCrossTurn: bool): (m: TileState)
    ensures m == Cross <==> isCrossTurn
  {
    if isCrossTurn then Cross else Nought
  }

  class App {
    var board: array2<Option<TileState>>
    var activeTile: BoardCoordinate
    var isCrossTurn: bool
    var gameOver: bool

    /** The board is the fixed [[Option<TileState>; 3]; 3]. */
    ghost predicate Valid()
      reads this
    {
      board.Length0 == 3 && board.Length1 == 3
    }

    /** The board as a value: Cells()[y][x] is board[y][x]. */
    function Cells(): Grid<TileState>
      reads this, board
      requires Valid()
    {
      Snapshot(board)
    }

    /** App::default(), derived: an empty board, the cursor on the centre,
        is_cross_turn false (Nought moves first) and game_over false. */
    constructor Default()
      ensures Valid() && fresh(board)
      ensures Cells() == EmptyGrid()
      ensures activeTile == DefaultTile()
      ensures !isCrossTurn && !gameOver
    {
      board := new Option<TileState>[3, 3]((y, x) => None);
      activeTile := DefaultTile();
      isCrossTurn := false;
      gameOver := false;
    }

    /** handle_move: writes the mover's mark under the cursor, whatever the
        cell held before, and negates is_cross_turn. Indexing panics unless
        the cursor is on the board. */
    method HandleMove()
      requires Valid() && InBounds(activeTile)
      modifies this, board
      ensures Valid() && board == old(board)
      ensures activeTile == old(activeTile) && gameOver == old(gameOver)
      ensures Cells() == Update(old(Cells()), old(activeTile.y), old(activeTile.x), Some(MarkFor(old(isCrossTurn))))
      ensures isCrossTurn == !old(isCrossTurn)
      ensures Cells()[activeTile.y][activeTile.x] == Some(if isCrossTurn then Nought else Cross)
    {
      ghost var before := Cells();
      if isCrossTurn {
        board[activeTile.y, activeTile.x] := Some(Cross);
      } else {
        board[activeTile.y, activeTile.x] := Some(Nought);
      }
      isCrossTurn := !isCrossTurn;
      SnapshotAfterWrite(board, before, activeTile.y, activeTile.x);
    }

    /** check_winner: the loop over indices 1..3 tests a row and a column
        each time, then the two diagonals are tested. */
    method CheckWinner(state: Option<TileState>) returns (isWinner: bool)
      requires Valid()
      ensures isWinner == ExaminedWin(Cells(), state)
    {
      isWinner := false;
      for index := 1 to 3
        invariant isWinner == ((index > 1 && RowOrColumnFilled(Cells(), 1, state))
                               || (index > 2 && RowOrColumnFilled(Cells(), 2, state)))
      {
        if board[index, 0] == state && board[index, 1] == state && board[index, 2] == state {
          isWinner := true;
        }
        if board[0, index] == state && board[1, index] == state && board[2, index] == state {
          isWinner := true;
        }
      }
      if (board[0, 0] == state && board[1, 1] == state && board[2, 2] == state)
         || (board[2, 0] == state && board[1, 1] == state && board[0, 2] == state)
      {
        isWinner := true;
      }
      ExaminedWinCases(Cells(), state);
    }

    /** has_won: Cross is asked first and Nought only if Cross has not won.
        It takes &mut self but writes nothing: no modifies clause. */
    method HasWon() returns (won: bool)
      requires Valid()
      ensures won == (ExaminedWin(Cells(), Some(Cross)) || ExaminedWin(Cells(), Some(Nought)))
    {
      won := CheckWinner(Some(Cross));
      if !won {
        won := CheckWinner(Some(Nought));
      }
    }
  }

  /** The turn flag after one move per cursor position in `cursors`, the
      cursor being moved there before each move, starting from a default
      app: Cross to move exactly when the number of moves is odd. */
  method TurnAfterMoves(cursors: seq<BoardCoordinate>) returns (isCrossTurn: bool)
    requires forall k :: 0 <= k < |cursors| ==> InBounds(cursors[k])
    ensures isCrossTurn <==> |cursors| % 2 == 1
  {
    var app := new App.Default();
    var i := 0;
    while i < |cursors|
      invariant 0 <= i <= |cursors|
      invariant app.Valid() && fresh(app.board)
      invariant app.isCrossTurn <==> i % 2 == 1
    {
      app.activeTile := cursors[i];
      app.HandleMove();
      i := i + 1;
    }
    isCrossTurn := app.isCrossTurn;
  }

  /** Two moves without moving the cursor: the second overwrites the first
      mark (no occupancy check), the turn has flipped twice and game_over is
      still false. */
  method MoveTwiceOnSameCell() returns (cells: Grid<TileState>, isCrossTurn: bool, gameOver: bool)
    ensures cells == Update(EmptyGrid(), 1, 1, Some(Cross))
    ensures !isCrossTurn && !gameOver
  {
    var app := new App.Default();
    app.HandleMove();
    app.HandleMove();
    UpdateOverwrites(EmptyGrid(), 1, 1, Some(Nought), Some(Cross));
    cells := app.Cells();
    isCrossTurn := app.isCrossTurn;
    gameOver := app.gameOver;
  }

  /** A default app has not been won. */
  method DefaultAppHasNotWon() returns (won: bool)
    ensures !won
  {
    var app := new App.Default();
    EmptyBoardNoWin(Cross);
    EmptyBoardNoWin(Nought);
    won := app.HasWon();
  }
}
