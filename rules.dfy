/**
 * What it means for a completed board to be accepted: every unit holds
 * nine nonzero, pairwise distinct values. Stated once over the units the
 * validator walks and once over cells, and related to the "permutation of
 * 1 to 9" reading of a solved Sudoku.
 */
module Rules {
  import opened Board

  /** The set of values held by a unit. */
  function Values(u: seq<int>): set<int> {
    set k | 0 <= k < |u| :: u[k]
  }

  /** A unit passes: no empty cell and no repeated value. No upper bound on the values. */
  predicate ValidUnit(u: seq<int>) {
    (forall k :: 0 <= k < |u| ==> u[k] != 0) &&
    (forall i, j :: 0 <= i < j < |u| ==> u[i] != u[j])
  }

  /** Row, column and box number `i` all pass. */
  predicate UnitsValid(board: Grid, i: int)
    requires IsBoard(board) && InRange(i)
  {
    ValidUnit(Row(board, i)) && ValidUnit(Column(board, i)) && ValidUnit(Box(board, i))
  }

  /** The whole board passes: every row, every column and every box. */
  predicate ValidSolution(board: Grid)
    requires IsBoard(board)
  {
    forall i :: 0 <= i < SIZE ==> UnitsValid(board, i)
  }

  /**
   * The same condition stated over cells, with no reference to unit
   * sequences: no empty cell, and two different cells that share a row, a
   * column or a box hold different values.
   */
  ghost predicate SudokuRules(board: Grid)
    requires IsBoard(board)
  {
    NoEmptyCell(board) && RowCellsDiffer(board) && ColumnCellsDiffer(board) && BoxCellsDiffer(board)
  }

  ghost predicate NoEmptyCell(board: Grid)
    requires IsBoard(board)
  {
    forall r, c :: 0 <= r < SIZE && 0 <= c < SIZE ==> board[r][c] != 0
  }

  ghost predicate RowCellsDiffer(board: Grid)
    requires IsBoard(board)
  {
    forall r, c1, c2 :: 0 <= r < SIZE && 0 <= c1 < c2 < SIZE ==> board[r][c1] != board[r][c2]
  }

  ghost predicate ColumnCellsDiffer(board: Grid)
    requires IsBoard(board)
  {
    forall r1, r2, c :: 0 <= r1 < r2 < SIZE && 0 <= c < SIZE ==> board[r1][c] != board[r2][c]
  }

  ghost predicate BoxCellsDiffer(board: Grid)
    requires IsBoard(board)
  {
    forall r1, c1, r2, c2 ::
      0 <= r1 < SIZE && 0 <= c1 < SIZE && 0 <= r2 < SIZE && 0 <= c2 < SIZE &&
      (r1, c1) != (r2, c2) && BoxOf(r1, c1) == BoxOf(r2, c2)
      ==> board[r1][c1] != board[r2][c2]
  }

  /** The digits of a solved Sudoku. */
  const DIGITS: set<int> := {1, 2, 3, 4, 5, 6, 7, 8, 9}

  /** A single empty cell anywhere makes the board fail. */
  lemma EmptyCellRejected(board: Grid, r: int, c: int)
    requires IsBoard(board) && InRange(r) && InRange(c)
    requires board[r][c] == 0
    ensures !ValidSolution(board)
  {
    assert Row(board, r)[c] == 0;
    assert !UnitsValid(board, r);
  }

  /**
   * The values box `b` holds are exactly the values of the cells whose box
   * is `b`: the nested loop visits the whole 3x3 block and nothing outside it.
   */
  lemma BoxHoldsItsBlock(board: Grid, b: int)
    requires IsBoard(board) && InRange(b)
    ensures Values(Box(board, b))
            == set r, c | 0 <= r < SIZE && 0 <= c < SIZE && BoxOf(r, c) == b :: board[r][c]
  {
    var block := set r, c | 0 <= r < SIZE && 0 <= c < SIZE && BoxOf(r, c) == b :: board[r][c];
    forall x | x in Values(Box(board, b)) ensures x in block {
      var k :| 0 <= k < SIZE && Box(board, b)[k] == x;
      var r, c := BoxCellRow(b, k), BoxCellCol(b, k);
      BoxCellPosition(b, k);
      BoxAt(board, b, k);
      assert board[r][c] == x;
    }
    forall x | x in block ensures x in Values(Box(board, b)) {
      var r, c :| 0 <= r < SIZE && 0 <= c < SIZE && BoxOf(r, c) == b && board[r][c] == x;
      CellInItsBox(board, r, c);
      assert Box(board, b)[BoxIndex(r, c)] == x;
    }
  }

  /** Unit-by-unit acceptance is exactly the cell-level Sudoku rules. */
  lemma ValidSolutionIffRules(board: Grid)
    requires IsBoard(board)
    ensures ValidSolution(board) <==> SudokuRules(board)
  {
    if ValidSolution(board) {
      ValidSolutionGivesRules(board);
    }
    if SudokuRules(board) {
      RulesGiveValidSolution(board);
    }
  }

  lemma ValidSolutionGivesRules(board: Grid)
    requires IsBoard(board) && ValidSolution(board)
    ensures SudokuRules(board)
  {
    forall r, c | 0 <= r < SIZE && 0 <= c < SIZE
      ensures board[r][c] != 0
    {
      assert UnitsValid(board, r);
      assert Row(board, r)[c] == board[r][c];
    }
    forall r, c1, c2 | 0 <= r < SIZE && 0 <= c1 < c2 < SIZE
      ensures board[r][c1] != board[r][c2]
    {
      assert UnitsValid(board, r);
      assert Row(board, r)[c1] == board[r][c1] && Row(board, r)[c2] == board[r][c2];
    }
    forall r1, r2, c | 0 <= r1 < r2 < SIZE && 0 <= c < SIZE
      ensures board[r1][c] != board[r2][c]
    {
      assert UnitsValid(board, c);
      assert Column(board, c)[r1] == board[r1][c] && Column(board, c)[r2] == board[r2][c];
    }
    forall r1, c1, r2, c2 |
      0 <= r1 < SIZE && 0 <= c1 < SIZE && 0 <= r2 < SIZE && 0 <= c2 < SIZE &&
      (r1, c1) != (r2, c2) && BoxOf(r1, c1) == BoxOf(r2, c2)
      ensures board[r1][c1] != board[r2][c2]
    {
      var b := BoxOf(r1, c1);
      var k1, k2 := BoxIndex(r1, c1), BoxIndex(r2, c2);
      CellInItsBox(board, r1, c1);
      CellInItsBox(board, r2, c2);
      CellPosition(r1, c1);
      CellPosition(r2, c2);
      assert k1 != k2;
      assert UnitsValid(board, b);
      if k1 < k2 {
        assert Box(board, b)[k1] != Box(board, b)[k2];
      } else {
        assert Box(board, b)[k2] != Box(board, b)[k1];
      }
    }
  }

  lemma RulesGiveValidSolution(board: Grid)
    requires IsBoard(board) && SudokuRules(board)
    ensures ValidSolution(board)
  {
    forall i | 0 <= i < SIZE
      ensures UnitsValid(board, i)
    {
      RulesGiveValidRow(board, i);
      RulesGiveValidColumn(board, i);
      RulesGiveValidBox(board, i);
    }
  }

  lemma RulesGiveValidRow(board: Grid, i: int)
    requires IsBoard(board) && NoEmptyCell(board) && RowCellsDiffer(board) && InRange(i)
    ensures ValidUnit(Row(board, i))
  {
    var row := Row(board, i);
    forall k | 0 <= k < SIZE ensures row[k] != 0 {
      assert row[k] == board[i][k];
    }
    forall k1, k2 | 0 <= k1 < k2 < SIZE ensures row[k1] != row[k2] {
      assert row[k1] == board[i][k1] && row[k2] == board[i][k2];
    }
  }

  lemma RulesGiveValidColumn(board: Grid, i: int)
    requires IsBoard(board) && NoEmptyCell(board) && ColumnCellsDiffer(board) && InRange(i)
    ensures ValidUnit(Column(board, i))
  {
    var col := Column(board, i);
    forall k | 0 <= k < SIZE ensures col[k] != 0 {
      assert col[k] == board[k][i];
    }
    forall k1, k2 | 0 <= k1 < k2 < SIZE ensures col[k1] != col[k2] {
      assert col[k1] == board[k1][i] && col[k2] == board[k2][i];
    }
  }

  lemma RulesGiveValidBox(board: Grid, i: int)
    requires IsBoard(board) && NoEmptyCell(board) && BoxCellsDiffer(board) && InRange(i)
    ensures ValidUnit(Box(board, i))
  {
    forall k | 0 <= k < SIZE ensures Box(board, i)[k] != 0 {
      BoxAt(board, i, k);
    }
    forall k1, k2 | 0 <= k1 < k2 < SIZE ensures Box(board, i)[k1] != Box(board, i)[k2] {
      RulesSeparateBoxCells(board, i, k1, k2);
    }
  }

  lemma RulesSeparateBoxCells(board: Grid, i: int, k1: int, k2: int)
    requires IsBoard(board) && BoxCellsDiffer(board) && InRange(i)
    requires 0 <= k1 < k2 < SIZE
    ensures Box(board, i)[k1] != Box(board, i)[k2]
  {
    var r1, c1, r2, c2 := BoxCellRow(i, k1), BoxCellCol(i, k1), BoxCellRow(i, k2), BoxCellCol(i, k2);
    BoxCellPosition(i, k1);
    BoxCellPosition(i, k2);
    BoxAt(board, i, k1);
    BoxAt(board, i, k2);
  }

  /** Pairwise distinct entries give as many values as entries. */
  lemma {:induction false} DistinctValuesCount(u: seq<int>)
    requires forall i, j :: 0 <= i < j < |u| ==> u[i] != u[j]
    ensures |Values(u)| == |u|
  {
    if u != [] {
      var n := |u| - 1;
      var prefix := u[..n];
      DistinctValuesCount(prefix);
      assert Values(u) == Values(prefix) + {u[n]} by {
        forall x | x in Values(u) ensures x in Values(prefix) + {u[n]} {
          var k :| 0 <= k < |u| && u[k] == x;
          if k < n {
            assert prefix[k] == x;
          }
        }
        forall x | x in Values(prefix) + {u[n]} ensures x in Values(u) {
          if x != u[n] {
            var k :| 0 <= k < n && prefix[k] == x;
            assert u[k] == x;
          }
        }
      }
      assert u[n] !in Values(prefix) by {
        forall k | 0 <= k < n ensures prefix[k] != u[n] {
          assert prefix[k] == u[k];
        }
      }
    }
  }

  /** A unit never holds more values than it has entries. */
  lemma {:induction false} ValuesCountBound(u: seq<int>)
    ensures |Values(u)| <= |u|
  {
    if u != [] {
      var n := |u| - 1;
      var prefix := u[..n];
      ValuesCountBound(prefix);
      assert Values(u) <= Values(prefix) + {u[n]} by {
        forall x | x in Values(u) ensures x in Values(prefix) + {u[n]} {
          var k :| 0 <= k < |u| && u[k] == x;
          if k < n {
            assert prefix[k] == x;
          }
        }
      }
      SubsetCount(Values(u), Values(prefix) + {u[n]});
    }
  }

  lemma SubsetCount(a: set<int>, b: set<int>)
    requires a <= b
    ensures |a| <= |b|
  {
    assert b == a + (b - a);
  }

  /** A repeated value leaves a unit with fewer values than entries. */
  lemma RepeatLosesAValue(u: seq<int>, i: int, j: int)
    requires 0 <= i < j < |u| && u[i] == u[j]
    ensures |Values(u)| < |u|
  {
    var rest := u[..j] + u[j + 1..];
    assert Values(u) <= Values(rest) by {
      forall x | x in Values(u) ensures x in Values(rest) {
        var k :| 0 <= k < |u| && u[k] == x;
        if k < j {
          assert rest[k] == x;
        } else if k == j {
          assert rest[i] == x;
        } else {
          assert rest[k - 1] == x;
        }
      }
    }
    SubsetCount(Values(u), Values(rest));
    ValuesCountBound(rest);
  }

  /**
   * For a nine-cell unit whose values are digits 1 to 9, passing the check
   * is the same as holding every digit exactly once.
   */
  lemma DigitUnitIsPermutation(u: seq<int>)
    requires |u| == SIZE
    requires forall k :: 0 <= k < SIZE ==> 1 <= u[k] <= 9
    ensures ValidUnit(u) <==> Values(u) == DIGITS
  {
    DigitValuesWithin(u);
    DigitCount();
    if ValidUnit(u) {
      DistinctValuesCount(u);
      SameCountSubset(Values(u), DIGITS);
    }
    if Values(u) == DIGITS && !ValidUnit(u) {
      var i, j :| 0 <= i < j < SIZE && u[i] == u[j];
      RepeatLosesAValue(u, i, j);
    }
  }

  lemma DigitValuesWithin(u: seq<int>)
    requires forall k :: 0 <= k < |u| ==> 1 <= u[k] <= 9
    ensures Values(u) <= DIGITS
  {
  }

  lemma DigitCount()
    ensures |DIGITS| == SIZE
  {
  }

  lemma SameCountSubset(a: set<int>, b: set<int>)
    requires a <= b && |a| == |b|
    ensures a == b
  {
    assert b == a + (b - a);
    assert |b - a| == 0;
  }

  /**
   * The check does not bound values from above: nine distinct nonzero
   * values that are not the digits 1 to 9 still pass.
   */
  lemma OutOfRangeUnitPasses()
    ensures ValidUnit([1, 2, 3, 4, 5, 6, 7, 8, 10])
    ensures ValidUnit([-1, 2, 3, 4, 5, 6, 7, 8, 9])
    ensures Values([1, 2, 3, 4, 5, 6, 7, 8, 10]) != DIGITS
  {
    assert 10 in Values([1, 2, 3, 4, 5, 6, 7, 8, 10]) by {
      assert [1, 2, 3, 4, 5, 6, 7, 8, 10][8] == 10;
    }
  }
}
