/** The game-state engine of src/game.rs: a board of optional Player marks,
    a cursor and whose turn it is. */
module GameEngine {
  import opened Board

  /** Player; Nought is the #[default] variant, so Nought moves first. */
  datatype Player = Nought | Cross

  /** The turn after `p` has moved. */
  function Other(p: Player): (q: Player)
    ensures q != p
  {
    match p
    case Nought => Cross
    case Cross => Nought
  }

  class Game {
    var board: array2<Option<Player>>
    var activeTile: BoardCoordinate
    var playerTurn: Player

    /** The board is the fixed [[Option<Player>; 3]; 3]. */
    ghost predicate Valid()
      reads this
    {
      board.Length0 == 3 && board.Length1 == 3
    }

    /** The board as a value: Cells()[y][x] is board[y][x]. */
    function Cells(): Grid<Player>
      reads this, board
      requires Valid()
    {
      Snapshot(board)
    }

    /** Game::default(), derived: an empty board, the cursor on the centre
        and Nought to move. */
    constructor Default()
      ensures Valid() && fresh(board)
      ensures Cells() == EmptyGrid()
      ensures activeTile == DefaultTile()
      ensures playerTurn == Nought
    {
      board := new Option<Player>[3, 3]((y, x) => None);
      activeTile := DefaultTile();
      playerTurn := Nought;
    }

    /** place_mark: writes the mover's mark under the cursor, whatever the
        cell held before, and passes the turn. Indexing panics unless the
        cursor is on the board. */
    method PlaceMark()
      requires Valid() && InBounds(activeTile)
      modifies this, board
      ensures Valid() && board == old(board)
      ensures activeTile == old(activeTile)
      ensures Cells() == Update(old(Cells()), old(activeTile.y), old(activeTile.x), Some(old(playerTurn)))
      ensures playerTurn == Other(old(playerTurn))
      ensures Cells()[activeTile.y][activeTile.x] == Some(Other(playerTurn))
    {
      ghost var before := Cells();
      match playerTurn {
        case Cross =>
          board[activeTile.y, activeTile.x] := Some(Cross);
          playerTurn := Nought;
        case Nought =>
          board[activeTile.y, activeTile.x] := Some(Nought);
          playerTurn := Cross;
      }
      SnapshotAfterWrite(board, before, activeTile.y, activeTile.x);
    }

    /** check_winner: the loop over indices 1..3 tests a row and a column
        each time, then the two diagonals are tested. */
    method CheckWinner(state: Option<Player>) returns (isWinner: bool)
      requires Valid()
      ensures isWinner == ExaminedWin(Cells(), state)
    {
      isWinner := false;
      for index := 1 to 3
        invariant isWinner == ((index > 1 && RowOrColumnFilled(Cells(), 1, state))
                               || (index > 2 && RowOrColumnFilled(Cells(), 2, state)))
      {
        if board[index, 0] == state && board[index, 1] == state && board[index, 2] == state {
          isWinner := true;
        }
        if board[0, index] == state && board[1, index] == state && board[2, index] == state {
          isWinner := true;
        }
      }
      if (board[0, 0] == state && board[1, 1] == state && board[2, 2] == state)
         || (board[2, 0] == state && board[1, 1] == state && board[0, 2] == state)
      {
        isWinner := true;
      }
      ExaminedWinCases(Cells(), state);
    }

    /** has_won: Cross is asked first and Nought only if Cross has not won.
        It takes &mut self but writes nothing: no modifies clause. */
    method HasWon() returns (won: bool)
      requires Valid()
      ensures won == (ExaminedWin(Cells(), Some(Cross)) || ExaminedWin(Cells(), Some(Nought)))
    {
      won := CheckWinner(Some(Cross));
      if !won {
        won := CheckWinner(Some(Nought));
      }
    }
  }

  /** The turn after one placement per cursor position in `cursors`, the
      cursor being moved there before each placement, starting from a
      default game: Nought exactly when the number of placements is even. */
  method TurnAfterPlacements(cursors: seq<BoardCoordinate>) returns (turn: Player)
    requires forall k :: 0 <= k < |cursors| ==> InBounds(cursors[k])
    ensures (turn == Nought) <==> |cursors| % 2 == 0
  {
    var game := new Game.Default();
    var i := 0;
    while i < |cursors|
      invariant 0 <= i <= |cursors|
      invariant game.Valid() && fresh(game.board)
      invariant (game.playerTurn == Nought) <==> i % 2 == 0
    {
      game.activeTile := cursors[i];
      game.PlaceMark();
      i := i + 1;
    }
    turn := game.playerTurn;
  }

  /** Two placements without moving the cursor: the second overwrites the
      first mark (no occupancy check) and the turn has flipped twice. */
  method PlaceTwiceOnSameCell() returns (cells: Grid<Player>, turn: Player)
    ensures cells == Update(EmptyGrid(), 1, 1, Some(Cross))
    ensures turn == Nought
  {
    var game := new Game.Default();
    game.PlaceMark();
    game.PlaceMark();
    UpdateOverwrites(EmptyGrid(), 1, 1, Some(Nought), Some(Cross));
    cells := game.Cells();
    turn := game.playerTurn;
  }

  /** A default game has not been won. */
  method DefaultGameHasNotWon() returns (won: bool)
    ensures !won
  {
    var game := new Game.Default();
    EmptyBoardNoWin(Cross);
    EmptyBoardNoWin(Nought);
    won := game.HasWon();
  }
}
