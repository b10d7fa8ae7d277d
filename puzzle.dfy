/**
 * The puzzle the page is built from, and what the validator says about it
 * and about its completed form.
 */
module Puzzle {
  import opened Board
  import opened Rules

  /** The hard-coded puzzle; 0 marks a cell the player fills in. */
  const PUZZLE: Grid := [
    [5, 3, 0, 0, 7, 0, 0, 0, 0],
    [6, 0, 0, 1, 9, 5, 0, 0, 0],
    [0, 9, 8, 0, 0, 0, 0, 6, 0],
    [8, 0, 0, 0, 6, 0, 0, 0, 3],
    [4, 0, 0, 8, 0, 3, 0, 0, 1],
    [7, 0, 0, 0, 2, 0, 0, 0, 6],
    [0, 6, 0, 0, 0, 0, 2, 8, 0],
    [0, 0, 0, 4, 1, 9, 0, 0, 5],
    [0, 0, 0, 0, 8, 0, 0, 7, 9]
  ]

  /** The puzzle as handed out, with its blanks still in it, is rejected. */
  lemma PuzzleIsNotASolution()
    ensures IsBoard(PUZZLE)
    ensures !ValidSolution(PUZZLE)
  {
    EmptyCellRejected(PUZZLE, 0, 2);
  }

  /** The completion of the puzzle in which every row, column and box holds 1 to 9. */
  const SOLVED: Grid := [
    [5, 3, 4, 6, 7, 8, 9, 1, 2],
    [6, 7, 2, 1, 9, 5, 3, 4, 8],
    [1, 9, 8, 3, 4, 2, 5, 6, 7],
    [8, 5, 9, 7, 6, 1, 4, 2, 3],
    [4, 2, 6, 8, 5, 3, 7, 9, 1],
    [7, 1, 3, 9, 2, 4, 8, 5, 6],
    [9, 6, 1, 5, 3, 7, 2, 8, 4],
    [2, 8, 7, 4, 1, 9, 6, 3, 5],
    [3, 4, 5, 2, 8, 6, 1, 7, 9]
  ]

  /**
   * Filling in the blanks correctly gives a board the validator accepts.
   * Each unit is checked by its own lemma below, one row, column or box at
   * a time.
   */
  lemma SolvedPuzzleAccepted()
    ensures IsBoard(SOLVED)
    ensures forall r, c :: 0 <= r < SIZE && 0 <= c < SIZE && PUZZLE[r][c] != 0 ==> SOLVED[r][c] == PUZZLE[r][c]
    ensures ValidSolution(SOLVED)
  {
    forall i | 0 <= i < SIZE
      ensures UnitsValid(SOLVED, i)
    {
      if i == 0 {
        SolvedRow0Passes(); SolvedColumn0Passes(); SolvedBox0Passes();
      } else if i == 1 {
        SolvedRow1Passes(); SolvedColumn1Passes(); SolvedBox1Passes();
      } else if i == 2 {
        SolvedRow2Passes(); SolvedColumn2Passes(); SolvedBox2Passes();
      } else if i == 3 {
        SolvedRow3Passes(); SolvedColumn3Passes(); SolvedBox3Passes();
      } else if i == 4 {
        SolvedRow4Passes(); SolvedColumn4Passes(); SolvedBox4Passes();
      } else if i == 5 {
        SolvedRow5Passes(); SolvedColumn5Passes(); SolvedBox5Passes();
      } else if i == 6 {
        SolvedRow6Passes(); SolvedColumn6Passes(); SolvedBox6Passes();
      } else if i == 7 {
        SolvedRow7Passes(); SolvedColumn7Passes(); SolvedBox7Passes();
      } else {
        SolvedRow8Passes(); SolvedColumn8Passes(); SolvedBox8Passes();
      }
    }
  }

  lemma SolvedRow0Passes()
    ensures ValidUnit(Row(SOLVED, 0))
  {
    assert Row(SOLVED, 0) == [5, 3, 4, 6, 7, 8, 9, 1, 2];
  }

  lemma SolvedRow1Passes()
    ensures ValidUnit(Row(SOLVED, 1))
  {
    assert Row(SOLVED, 1) == [6, 7, 2, 1, 9, 5, 3, 4, 8];
  }

  lemma SolvedRow2Passes()
    ensures ValidUnit(Row(SOLVED, 2))
  {
    assert Row(SOLVED, 2) == [1, 9, 8, 3, 4, 2, 5, 6, 7];
  }

  lemma SolvedRow3Passes()
    ensures ValidUnit(Row(SOLVED, 3))
  {
    assert Row(SOLVED, 3) == [8, 5, 9, 7, 6, 1, 4, 2, 3];
  }

  lemma SolvedRow4Passes()
    ensures ValidUnit(Row(SOLVED, 4))
  {
    assert Row(SOLVED, 4) == [4, 2, 6, 8, 5, 3, 7, 9, 1];
  }

  lemma SolvedRow5Passes()
    ensures ValidUnit(Row(SOLVED, 5))
  {
    assert Row(SOLVED, 5) == [7, 1, 3, 9, 2, 4, 8, 5, 6];
  }

  lemma SolvedRow6Passes()
    ensures ValidUnit(Row(SOLVED, 6))
  {
    assert Row(SOLVED, 6) == [9, 6, 1, 5, 3, 7, 2, 8, 4];
  }

  lemma SolvedRow7Passes()
    ensures ValidUnit(Row(SOLVED, 7))
  {
    assert Row(SOLVED, 7) == [2, 8, 7, 4, 1, 9, 6, 3, 5];
  }

  lemma SolvedRow8Passes()
    ensures ValidUnit(Row(SOLVED, 8))
  {
    assert Row(SOLVED, 8) == [3, 4, 5, 2, 8, 6, 1, 7, 9];
  }

  lemma SolvedColumn0Passes()
    ensures ValidUnit(Column(SOLVED, 0))
  {
    assert Column(SOLVED, 0) == [5, 6, 1, 8, 4, 7, 9, 2, 3];
  }

  lemma SolvedColumn1Passes()
    ensures ValidUnit(Column(SOLVED, 1))
  {
    assert Column(SOLVED, 1) == [3, 7, 9, 5, 2, 1, 6, 8, 4];
  }

  lemma SolvedColumn2Passes()
    ensures ValidUnit(Column(SOLVED, 2))
  {
    assert Column(SOLVED, 2) == [4, 2, 8, 9, 6, 3, 1, 7, 5];
  }

  lemma SolvedColumn3Passes()
    ensures ValidUnit(Column(SOLVED, 3))
  {
    assert Column(SOLVED, 3) == [6, 1, 3, 7, 8, 9, 5, 4, 2];
  }

  lemma SolvedColumn4Passes()
    ensures ValidUnit(Column(SOLVED, 4))
  {
    assert Column(SOLVED, 4) == [7, 9, 4, 6, 5, 2, 3, 1, 8];
  }

  lemma SolvedColumn5Passes()
    ensures ValidUnit(Column(SOLVED, 5))
  {
    assert Column(SOLVED, 5) == [8, 5, 2, 1, 3, 4, 7, 9, 6];
  }

  lemma SolvedColumn6Passes()
    ensures ValidUnit(Column(SOLVED, 6))
  {
    assert Column(SOLVED, 6) == [9, 3, 5, 4, 7, 8, 2, 6, 1];
  }

  lemma SolvedColumn7Passes()
    ensures ValidUnit(Column(SOLVED, 7))
  {
    assert Column(SOLVED, 7) == [1, 4, 6, 2, 9, 5, 8, 3, 7];
  }

  lemma SolvedColumn8Passes()
    ensures ValidUnit(Column(SOLVED, 8))
  {
    assert Column(SOLVED, 8) == [2, 8, 7, 3, 1, 6, 4, 5, 9];
  }

  lemma SolvedBox0Passes()
    ensures ValidUnit(Box(SOLVED, 0))
  {
    BoxFromRows(SOLVED, 0);
    assert SOLVED[0][0..3] == [5, 3, 4];
    assert SOLVED[1][0..3] == [6, 7, 2];
    assert SOLVED[2][0..3] == [1, 9, 8];
  }

  lemma SolvedBox1Passes()
    ensures ValidUnit(Box(SOLVED, 1))
  {
    BoxFromRows(SOLVED, 1);
    assert SOLVED[0][3..6] == [6, 7, 8];
    assert SOLVED[1][3..6] == [1, 9, 5];
    assert SOLVED[2][3..6] == [3, 4, 2];
  }

  lemma SolvedBox2Passes()
    ensures ValidUnit(Box(SOLVED, 2))
  {
    BoxFromRows(SOLVED, 2);
    assert SOLVED[0][6..9] == [9, 1, 2];
    assert SOLVED[1][6..9] == [3, 4, 8];
    assert SOLVED[2][6..9] == [5, 6, 7];
  }

  lemma SolvedBox3Passes()
    ensures ValidUnit(Box(SOLVED, 3))
  {
    BoxFromRows(SOLVED, 3);
    assert SOLVED[3][0..3] == [8, 5, 9];
    assert SOLVED[4][0..3] == [4, 2, 6];
    assert SOLVED[5][0..3] == [7, 1, 3];
  }

  lemma SolvedBox4Passes()
    ensures ValidUnit(Box(SOLVED, 4))
  {
    BoxFromRows(SOLVED, 4);
    assert SOLVED[3][3..6] == [7, 6, 1];
    assert SOLVED[4][3..6] == [8, 5, 3];
    assert SOLVED[5][3..6] == [9, 2, 4];
  }

  lemma SolvedBox5Passes()
    ensures ValidUnit(Box(SOLVED, 5))
  {
    BoxFromRows(SOLVED, 5);
    assert SOLVED[3][6..9] == [4, 2, 3];
    assert SOLVED[4][6..9] == [7, 9, 1];
    assert SOLVED[5][6..9] == [8, 5, 6];
  }

  lemma SolvedBox6Passes()
    ensures ValidUnit(Box(SOLVED, 6))
  {
    BoxFromRows(SOLVED, 6);
    assert SOLVED[6][0..3] == [9, 6, 1];
    assert SOLVED[7][0..3] == [2, 8, 7];
    assert SOLVED[8][0..3] == [3, 4, 5];
  }

  lemma SolvedBox7Passes()
    ensures ValidUnit(Box(SOLVED, 7))
  {
    BoxFromRows(SOLVED, 7);
    assert SOLVED[6][3..6] == [5, 3, 7];
    assert SOLVED[7][3..6] == [4, 1, 9];
    assert SOLVED[8][3..6] == [2, 8, 6];
  }

  lemma SolvedBox8Passes()
    ensures ValidUnit(Box(SOLVED, 8))
  {
    BoxFromRows(SOLVED, 8);
    assert SOLVED[6][6..9] == [2, 8, 4];
    assert SOLVED[7][6..9] == [6, 3, 5];
    assert SOLVED[8][6..9] == [1, 7, 9];
  }
}
