/** The 3x3 board shared by both engines: cells, the cursor coordinate, the
    lines the winner check examines, and what it means for a line to be full.
    src/game.rs and src/app.rs carry the same board and the same check_winner
    code over two different mark types, so this module is generic in the mark. */
module Board {

  /** Rust's Option: a cell is None until a mark is placed there. */
  datatype Option<T> = None | Some(value: T)

  /** A valid index into one dimension of the 3x3 board. */
  type Index = i: int | 0 <= i < 3

  /** The cursor (BoardCordinate): two usize fields, not bounded by the type. */
  datatype BoardCoordinate = BoardCoordinate(x: nat, y: nat)

  predicate InBounds(c: BoardCoordinate) {
    c.x < 3 && c.y < 3
  }

  /** BoardCordinate::default: the cursor starts on the centre cell. */
  function DefaultTile(): (c: BoardCoordinate)
    ensures InBounds(c)
    ensures c.x == 1 && c.y == 1
  {
    BoardCoordinate(1, 1)
  }

  /** The board as a value, row-major: g[y][x] is the cell in row y, column x. */
  type Grid<T> = g: seq<seq<Option<T>>> | |g| == 3 && |g[0]| == 3 && |g[1]| == 3 && |g[2]| == 3
    witness [[None, None, None], [None, None, None], [None, None, None]]

  /** The derived default of [[Option<_>; 3]; 3]: every cell None. */
  function EmptyGrid<T>(): (g: Grid<T>)
    ensures forall y, x :: 0 <= y < 3 && 0 <= x < 3 ==> g[y][x] == None
  {
    [[None, None, None], [None, None, None], [None, None, None]]
  }

  /** The board after `board[y][x] = v`. */
  function Update<T>(g: Grid<T>, y: Index, x: Index, v: Option<T>): (r: Grid<T>)
    ensures r[y][x] == v
    ensures forall i, j :: 0 <= i < 3 && 0 <= j < 3 && (i != y || j != x) ==> r[i][j] == g[i][j]
  {
    g[y := g[y][x := v]]
  }

  /** The contents of a 3x3 array as a value: Snapshot(a)[y][x] is a[y, x]. */
  function Snapshot<T>(a: array2<Option<T>>): Grid<T>
    reads a
    requires a.Length0 == 3 && a.Length1 == 3
  {
    [[a[0, 0], a[0, 1], a[0, 2]],
     [a[1, 0], a[1, 1], a[1, 2]],
     [a[2, 0], a[2, 1], a[2, 2]]]
  }

  /** An array that differs from `before` at most in cell (y, x) has the
      snapshot `before` updated there. */
  lemma SnapshotAfterWrite<T>(a: array2<Option<T>>, before: Grid<T>, y: Index, x: Index)
    requires a.Length0 == 3 && a.Length1 == 3
    requires forall i, j :: 0 <= i < 3 && 0 <= j < 3 && (i != y || j != x) ==> a[i, j] == before[i][j]
    ensures Snapshot(a) == Update(before, y, x, a[y, x])
  {
    var now, after := Snapshot(a), Update(before, y, x, a[y, x]);
    assert now[0] == after[0] && now[1] == after[1] && now[2] == after[2];
  }

  /** A second write to the same cell wipes out the first. */
  lemma UpdateOverwrites<T>(g: Grid<T>, y: Index, x: Index, v: Option<T>, w: Option<T>)
    ensures Update(Update(g, y, x, v), y, x, w) == Update(g, y, x, w)
  {
    var r, t := Update(Update(g, y, x, v), y, x, w), Update(g, y, x, w);
    assert r[0] == t[0] && r[1] == t[1] && r[2] == t[2];
  }

  /** A cell position on the board; x is the column, y the row. */
  datatype Square = Square(x: Index, y: Index)

  function At<T>(g: Grid<T>, sq: Square): Option<T> {
    g[sq.y][sq.x]
  }

  /** Three cells that make up a winning line. */
  datatype Line = Line(a: Square, b: Square, c: Square)

  /** Row y: board[y][0], board[y][1], board[y][2]. */
  function Row(y: Index): Line {
    Line(Square(0, y), Square(1, y), Square(2, y))
  }

  /** Column x: board[0][x], board[1][x], board[2][x]. */
  function Column(x: Index): Line {
    Line(Square(x, 0), Square(x, 1), Square(x, 2))
  }

  /** board[0][0], board[1][1], board[2][2]. */
  const MainDiagonal: Line := Line(Square(0, 0), Square(1, 1), Square(2, 2))

  /** board[2][0], board[1][1], board[0][2]. */
  const AntiDiagonal: Line := Line(Square(0, 2), Square(1, 1), Square(2, 0))

  /** The lines check_winner looks at: its loop runs over indices 1 and 2
      only, so row 0 and column 0 are missing; then the two diagonals. */
  const ExaminedLines: seq<Line> := [Row(1), Column(1), Row(2), Column(2), MainDiagonal, AntiDiagonal]

  /** The eight lines of tic-tac-toe, used as the reference the winner check
      is compared with. */
  const AllLines: seq<Line> :=
    [Row(0), Row(1), Row(2), Column(0), Column(1), Column(2), MainDiagonal, AntiDiagonal]

  /** All three cells of the line hold exactly `s` (which may be None). */
  predicate Filled<T(==)>(g: Grid<T>, l: Line, s: Option<T>) {
    At(g, l.a) == s && At(g, l.b) == s && At(g, l.c) == s
  }

  /** What check_winner(s) returns: some examined line is filled with `s`. */
  predicate ExaminedWin<T(==)>(g: Grid<T>, s: Option<T>) {
    exists k :: 0 <= k < |ExaminedLines| && Filled(g, ExaminedLines[k], s)
  }

  /** The usual rule: some of the eight lines is filled with `s`. */
  predicate StandardWin<T(==)>(g: Grid<T>, s: Option<T>) {
    exists k :: 0 <= k < |AllLines| && Filled(g, AllLines[k], s)
  }

  /** Row `index` or column `index`: the two tests of one loop iteration. */
  predicate RowOrColumnFilled<T(==)>(g: Grid<T>, index: Index, s: Option<T>) {
    Filled(g, Row(index), s) || Filled(g, Column(index), s)
  }

  /** The examined lines, one by one, in the order the code tests them. */
  lemma ExaminedWinCases<T>(g: Grid<T>, s: Option<T>)
    ensures ExaminedWin(g, s) <==>
      RowOrColumnFilled(g, 1, s) || RowOrColumnFilled(g, 2, s)
      || Filled(g, MainDiagonal, s) || Filled(g, AntiDiagonal, s)
  {
    if RowOrColumnFilled(g, 1, s) {
      if Filled(g, Row(1), s) {
        assert Filled(g, ExaminedLines[0], s);
      } else {
        assert Filled(g, ExaminedLines[1], s);
      }
    } else if RowOrColumnFilled(g, 2, s) {
      if Filled(g, Row(2), s) {
        assert Filled(g, ExaminedLines[2], s);
      } else {
        assert Filled(g, ExaminedLines[3], s);
      }
    } else if Filled(g, MainDiagonal, s) {
      assert Filled(g, ExaminedLines[4], s);
    } else if Filled(g, AntiDiagonal, s) {
      assert Filled(g, ExaminedLines[5], s);
    }
  }

  /** The examined lines are exactly the eight lines minus row 0 and column 0. */
  lemma ExaminedLinesAreAllButRow0AndColumn0()
    ensures forall l :: l in ExaminedLines <==> l in AllLines && l != Row(0) && l != Column(0)
  {
  }

  /** check_winner(s) holds iff one of the eight lines other than row 0 and
      column 0 is filled with `s`. */
  lemma ExaminedWinIffOtherLineFilled<T>(g: Grid<T>, s: Option<T>)
    ensures ExaminedWin(g, s) <==>
      exists k :: 0 <= k < |AllLines| && AllLines[k] != Row(0) && AllLines[k] != Column(0)
        && Filled(g, AllLines[k], s)
  {
    ExaminedWinCases(g, s);
    if ExaminedWin(g, s) {
      if Filled(g, Row(1), s) {
        assert AllLines[1] == Row(1);
      } else if Filled(g, Row(2), s) {
        assert AllLines[2] == Row(2);
      } else if Filled(g, Column(1), s) {
        assert AllLines[4] == Column(1);
      } else if Filled(g, Column(2), s) {
        assert AllLines[5] == Column(2);
      } else if Filled(g, MainDiagonal, s) {
        assert AllLines[6] == MainDiagonal;
      } else {
        assert AllLines[7] == AntiDiagonal;
      }
    }
  }

  /** Every win check_winner reports is a win by the usual rule. */
  lemma ExaminedWinIsStandardWin<T>(g: Grid<T>, s: Option<T>)
    requires ExaminedWin(g, s)
    ensures StandardWin(g, s)
  {
    var k :| 0 <= k < |ExaminedLines| && Filled(g, ExaminedLines[k], s);
    var i := [1, 4, 2, 5, 6, 7][k];
    assert AllLines[i] == ExaminedLines[k];
  }

  /** A board whose only full lines (of `s`) are row 0 or column 0 is not a
      win for `s`. */
  lemma Row0AndColumn0NeverWin<T>(g: Grid<T>, s: Option<T>)
    requires forall k :: 0 <= k < |AllLines| && Filled(g, AllLines[k], s) ==>
      AllLines[k] == Row(0) || AllLines[k] == Column(0)
    ensures !ExaminedWin(g, s)
  {
    ExaminedWinIffOtherLineFilled(g, s);
  }

  /** Three marks along row 0 on an otherwise empty board: a win by the
      usual rule, yet check_winner does not see it. */
  lemma Row0WinMissed<T>(m: T)
    ensures var g: Grid<T> := [[Some(m), Some(m), Some(m)], [None, None, None], [None, None, None]];
      StandardWin(g, Some(m)) && !ExaminedWin(g, Some(m))
  {
    var g: Grid<T> := [[Some(m), Some(m), Some(m)], [None, None, None], [None, None, None]];
    assert Filled(g, AllLines[0], Some(m));
    ExaminedWinCases(g, Some(m));
  }

  /** Three marks down column 0 on an otherwise empty board: likewise missed. */
  lemma Column0WinMissed<T>(m: T)
    ensures var g: Grid<T> := [[Some(m), None, None], [Some(m), None, None], [Some(m), None, None]];
      StandardWin(g, Some(m)) && !ExaminedWin(g, Some(m))
  {
    var g: Grid<T> := [[Some(m), None, None], [Some(m), None, None], [Some(m), None, None]];
    assert Filled(g, AllLines[3], Some(m));
    ExaminedWinCases(g, Some(m));
  }

  /** On the empty board no mark has won. */
  lemma EmptyBoardNoWin<T>(m: T)
    ensures !ExaminedWin(EmptyGrid<T>(), Some(m))
  {
    ExaminedWinCases(EmptyGrid<T>(), Some(m));
  }

  /** check_winner compares cells with the Option it is given, so asked about
      None on the empty board it reports a win (has_won never asks that). */
  lemma EmptyBoardWinsForNone<T>()
    ensures ExaminedWin(EmptyGrid<T>(), None)
  {
    assert Filled(EmptyGrid<T>(), ExaminedLines[0], None);
  }
}
