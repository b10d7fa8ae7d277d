/**
 * The completed-board validator: one checker per kind of unit, each a loop
 * that rejects an empty cell or a value already seen in that unit, and a
 * driver that walks unit index 0 to 8 and stops at the first failure.
 * The board is passed as a value, so none of the checkers can change it.
 */
module Validator {
  import opened Board
  import opened Rules

  /** Row `row` holds nine nonzero, pairwise distinct values. */
  method IsValidRow(board: Grid, row: int) returns (ok: bool)
    requires IsBoard(board) && InRange(row)
    ensures ok <==> ValidUnit(Row(board, row))
  {
    ghost var u := Row(board, row);
    var seen: set<int> := {};
    for i := 0 to SIZE
      invariant seen == Values(u[..i])
      invariant ValidUnit(u[..i])
    {
      var value := board[row][i];
      assert value == u[i];
      if value == 0 {
        return false;
      }
      if value in seen {
        RepeatSeen(u, i);
        return false;
      }
      ExtendPrefix(u, i, seen);
      seen := seen + {value};
    }
    assert u[..SIZE] == u;
    return true;
  }

  /** Column `col` holds nine nonzero, pairwise distinct values. */
  method IsValidColumn(board: Grid, col: int) returns (ok: bool)
    requires IsBoard(board) && InRange(col)
    ensures ok <==> ValidUnit(Column(board, col))
  {
    ghost var u := Column(board, col);
    var seen: set<int> := {};
    for i := 0 to SIZE
      invariant seen == Values(u[..i])
      invariant ValidUnit(u[..i])
    {
      var value := board[i][col];
      assert value == u[i];
      if value == 0 {
        return false;
      }
      if value in seen {
        RepeatSeen(u, i);
        return false;
      }
      ExtendPrefix(u, i, seen);
      seen := seen + {value};
    }
    assert u[..SIZE] == u;
    return true;
  }

  /** Box `box` holds nine nonzero, pairwise distinct values. */
  method IsValidBox(board: Grid, box: int) returns (ok: bool)
    requires IsBoard(board) && InRange(box)
    ensures ok <==> ValidUnit(Box(board, box))
  {
    ghost var u := Box(board, box);
    var seen: set<int> := {};
    var rowStart := BoxRowStart(box);
    var colStart := BoxColStart(box);
    for i := 0 to 3
      invariant seen == Values(u[..3 * i])
      invariant ValidUnit(u[..3 * i])
    {
      for j := 0 to 3
        invariant seen == Values(u[..3 * i + j])
        invariant ValidUnit(u[..3 * i + j])
      {
        BoxAccessInBounds(box, i, j);
        var value := board[rowStart + i][colStart + j];
        ghost var k := 3 * i + j;
        assert BoxCellRow(box, k) == rowStart + i && BoxCellCol(box, k) == colStart + j;
        assert value == u[k];
        if value == 0 {
          return false;
        }
        if value in seen {
          RepeatSeen(u, k);
          return false;
        }
        ExtendPrefix(u, k, seen);
        seen := seen + {value};
      }
    }
    assert u[..SIZE] == u;
    return true;
  }

  /**
   * Every row, every column and every box passes. `stoppedAt` is the unit
   * index at which the walk returned: all earlier indices pass and, when the
   * answer is false, index `stoppedAt` is the first that fails.
   */
  method IsValidSolution(board: Grid) returns (ok: bool, ghost stoppedAt: int)
    requires IsBoard(board)
    ensures ok <==> ValidSolution(board)
    ensures 0 <= stoppedAt <= SIZE && (ok <==> stoppedAt == SIZE)
    ensures forall j :: 0 <= j < stoppedAt ==> UnitsValid(board, j)
    ensures stoppedAt < SIZE ==> !UnitsValid(board, stoppedAt)
  {
    for i := 0 to SIZE
      invariant forall j :: 0 <= j < i ==> UnitsValid(board, j)
    {
      var rowOk := IsValidRow(board, i);
      if !rowOk {
        assert !UnitsValid(board, i);
        return false, i;
      }
      var columnOk := IsValidColumn(board, i);
      if !columnOk {
        assert !UnitsValid(board, i);
        return false, i;
      }
      var boxOk := IsValidBox(board, i);
      if !boxOk {
        assert !UnitsValid(board, i);
        return false, i;
      }
    }
    return true, SIZE;
  }

  /** A value already in the set of the first `i` entries is a repeat, so the unit fails. */
  lemma RepeatSeen(u: seq<int>, i: int)
    requires 0 <= i < |u| && u[i] in Values(u[..i])
    ensures !ValidUnit(u)
  {
    var k :| 0 <= k < i && u[..i][k] == u[i];
    assert u[k] == u[i];
  }

  /** A nonzero value not yet seen extends a passing prefix to a passing prefix. */
  lemma ExtendPrefix(u: seq<int>, i: int, seen: set<int>)
    requires 0 <= i < |u| && seen == Values(u[..i]) && ValidUnit(u[..i])
    requires u[i] != 0 && u[i] !in seen
    ensures seen + {u[i]} == Values(u[..i + 1])
    ensures ValidUnit(u[..i + 1])
  {
    var p, q := u[..i], u[..i + 1];
    assert q == p + [u[i]];
    assert Values(q) == Values(p) + {u[i]} by {
      forall x | x in Values(q) ensures x in Values(p) + {u[i]} {
        var k :| 0 <= k < |q| && q[k] == x;
        if k < i {
          assert p[k] == x;
        }
      }
      forall x | x in Values(p) + {u[i]} ensures x in Values(q) {
        if x != u[i] {
          var k :| 0 <= k < |p| && p[k] == x;
          assert q[k] == x;
        } else {
          assert q[i] == x;
        }
      }
    }
    forall a, b | 0 <= a < b <= i ensures q[a] != q[b] {
      if b < i {
        assert q[a] == p[a] && q[b] == p[b];
      } else {
        assert q[a] == p[a];
        assert p[a] in Values(p);
      }
    }
  }
}
