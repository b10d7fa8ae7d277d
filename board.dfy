/**
 * The Sudoku board as the completed-board validator sees it, and the
 * geometry of its units: the nine rows, the nine columns and the nine
 * 3x3 boxes.
 */
module Board {

  /** Number of rows, of columns, of boxes and of cells in any one unit. */
  const SIZE: int := 9

  /** A board: rows of integer cells, 0 meaning an empty cell. */
  type Grid = seq<seq<int>>

  /** The board shape the validator is always handed: nine rows of nine cells. */
  predicate IsBoard(board: Grid) {
    |board| == SIZE && forall r :: 0 <= r < SIZE ==> |board[r]| == SIZE
  }

  /** A row, column, box or in-unit index. */
  predicate InRange(i: int) {
    0 <= i < SIZE
  }

  /** Top row of box `b`: `Math.floor(b / 3) * 3`; for `0 <= b` floor division is Dafny's `/`. */
  function BoxRowStart(b: int): (start: int)
    requires InRange(b)
    ensures start == 0 || start == 3 || start == 6
    ensures start <= b < start + 3
  {
    (b / 3) * 3
  }

  /** Left column of box `b`: `(b % 3) * 3`; for `0 <= b` the remainder is Dafny's `%`. */
  function BoxColStart(b: int): (start: int)
    requires InRange(b)
    ensures start == 0 || start == 3 || start == 6
    ensures start / 3 == b - BoxRowStart(b)
  {
    (b % 3) * 3
  }

  /** The box holding cell `(r, c)`. */
  function BoxOf(r: int, c: int): (b: int)
    requires InRange(r) && InRange(c)
    ensures InRange(b)
    ensures BoxRowStart(b) <= r < BoxRowStart(b) + 3
    ensures BoxColStart(b) <= c < BoxColStart(b) + 3
  {
    (r / 3) * 3 + c / 3
  }

  /** Position of cell `(r, c)` inside its box, counted row by row. */
  function BoxIndex(r: int, c: int): (k: int)
    requires InRange(r) && InRange(c)
    ensures InRange(k)
  {
    (r % 3) * 3 + c % 3
  }

  /** Board row of the `k`-th cell of box `b`: the validator's `rowStart + i` with `i == k / 3`. */
  function BoxCellRow(b: int, k: int): (r: int)
    requires InRange(b) && InRange(k)
    ensures InRange(r)
  {
    BoxRowStart(b) + k / 3
  }

  /** Board column of the `k`-th cell of box `b`: the validator's `colStart + j` with `j == k % 3`. */
  function BoxCellCol(b: int, k: int): (c: int)
    requires InRange(b) && InRange(k)
    ensures InRange(c)
  {
    BoxColStart(b) + k % 3
  }

  /** Row `r`, cells in column order. */
  function Row(board: Grid, r: int): (u: seq<int>)
    requires IsBoard(board) && InRange(r)
    ensures |u| == SIZE
  {
    board[r]
  }

  /** Column `c`, cells in row order. */
  function Column(board: Grid, c: int): (u: seq<int>)
    requires IsBoard(board) && InRange(c)
    ensures |u| == SIZE
  {
    seq(SIZE, i requires 0 <= i < SIZE => board[i][c])
  }

  /**
   * Box `b`, cells in the order of the validator's nested loop: its
   * `k`-th cell is row `k / 3`, column `k % 3` of the 3x3 block.
   */
  function Box(board: Grid, b: int): (u: seq<int>)
    requires IsBoard(board) && InRange(b)
    ensures |u| == SIZE
  {
    seq(SIZE, k requires 0 <= k < SIZE => board[BoxRowStart(b) + k / 3][BoxColStart(b) + k % 3])
  }

  /** Box `b` read row by row: three slices of three cells from three consecutive rows. */
  lemma BoxFromRows(board: Grid, b: int)
    requires IsBoard(board) && InRange(b)
    ensures var rs, cs := BoxRowStart(b), BoxColStart(b);
      Box(board, b) == board[rs][cs..cs + 3] + board[rs + 1][cs..cs + 3] + board[rs + 2][cs..cs + 3]
  {
    var rs, cs := BoxRowStart(b), BoxColStart(b);
    var rows := board[rs][cs..cs + 3] + board[rs + 1][cs..cs + 3] + board[rs + 2][cs..cs + 3];
    forall k | 0 <= k < SIZE ensures Box(board, b)[k] == rows[k] {
      assert rows[k] == board[rs + k / 3][cs + k % 3];
    }
  }

  /** Every cell access of box `b` stays on the board. */
  lemma BoxAccessInBounds(b: int, i: int, j: int)
    requires InRange(b) && 0 <= i < 3 && 0 <= j < 3
    ensures InRange(BoxRowStart(b) + i) && InRange(BoxColStart(b) + j)
  {
  }

  /** The nine boxes partition the board: cell `(r, c)` lies in box `b` exactly when `b == BoxOf(r, c)`. */
  lemma BoxPartition(r: int, c: int, b: int)
    requires InRange(r) && InRange(c) && InRange(b)
    ensures (BoxRowStart(b) <= r < BoxRowStart(b) + 3 && BoxColStart(b) <= c < BoxColStart(b) + 3)
            <==> b == BoxOf(r, c)
  {
    if BoxRowStart(b) <= r < BoxRowStart(b) + 3 && BoxColStart(b) <= c < BoxColStart(b) + 3 {
      assert r / 3 == b / 3;
      assert c / 3 == b % 3;
    }
  }

  /** Cell `(r, c)` is the `BoxIndex(r, c)`-th cell of box `BoxOf(r, c)`. */
  lemma CellPosition(r: int, c: int)
    requires InRange(r) && InRange(c)
    ensures BoxCellRow(BoxOf(r, c), BoxIndex(r, c)) == r
    ensures BoxCellCol(BoxOf(r, c), BoxIndex(r, c)) == c
  {
    var b, k := BoxOf(r, c), BoxIndex(r, c);
    assert k / 3 == r % 3 && k % 3 == c % 3;
    assert BoxRowStart(b) == (r / 3) * 3 && BoxColStart(b) == (c / 3) * 3;
  }

  /** Conversely, the `k`-th cell of box `b` lies in box `b`, at in-box index `k`. */
  lemma BoxCellPosition(b: int, k: int)
    requires InRange(b) && InRange(k)
    ensures BoxOf(BoxCellRow(b, k), BoxCellCol(b, k)) == b
    ensures BoxIndex(BoxCellRow(b, k), BoxCellCol(b, k)) == k
  {
    BoxPartition(BoxCellRow(b, k), BoxCellCol(b, k), b);
  }

  /** The `k`-th entry of box `b` is the cell at `(BoxCellRow(b, k), BoxCellCol(b, k))`. */
  lemma BoxAt(board: Grid, b: int, k: int)
    requires IsBoard(board) && InRange(b) && InRange(k)
    ensures Box(board, b)[k] == board[BoxCellRow(b, k)][BoxCellCol(b, k)]
  {
  }

  /** Cell `(r, c)` is entry `BoxIndex(r, c)` of box `BoxOf(r, c)`. */
  lemma CellInItsBox(board: Grid, r: int, c: int)
    requires IsBoard(board) && InRange(r) && InRange(c)
    ensures Box(board, BoxOf(r, c))[BoxIndex(r, c)] == board[r][c]
  {
    CellPosition(r, c);
    BoxAt(board, BoxOf(r, c), BoxIndex(r, c));
  }
}
