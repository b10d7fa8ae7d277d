# Sudoku completed-board validator, in Dafny

This project models the one piece of logic in the Sudoku page's script:
the check that decides whether a filled-in 9x9 board is a correct
solution. The page builds its grid from a hard-coded puzzle and, on
"check", hands a copy of the board to `isValidSolution`, which asks
`isValidRow`, `isValidColumn` and `isValidBox` about unit index 0, then 1,
and so on up to 8, and stops at the first unit that fails. Each unit check
walks its nine cells with a `Set`. It rejects a cell holding 0 (empty) and
a value already in the set, and otherwise adds the value. Box `b` is the
3x3 block whose top-left cell is `(floor(b / 3) * 3, (b % 3) * 3)`.

The model has four modules:

- `Board` (board.dfy): the board as nine rows of nine integers, and the
  three kinds of unit. `Row`, `Column` and `Box` list a unit's cells in
  the order the checkers visit them. This module also holds the box-origin
  arithmetic and the facts that the nine boxes partition the cells.
- `Rules` (rules.dfy): the specification. `ValidUnit` says a unit has no
  zero and no repeated value. `ValidSolution` says all 27 units pass.
  `SudokuRules` says the same thing cell by cell, and a lemma proves the
  two readings equal. Further lemmas relate a passing unit to "a
  permutation of 1 to 9".
- `Validator` (validator.dfy): the four checkers as methods with the
  source's loops, local set and early exits. Each is proved to return
  exactly the specification predicate.
- `Puzzle` (puzzle.dfy): the hard-coded puzzle, which is rejected, and its
  completed solution, which is accepted.

The board reaches the checkers as an immutable `seq<seq<int>>` value.
Because of that, "the checkers do not modify the board" holds by
construction. The checkers' `requires` ask for a 9x9 board and a unit
index in 0..8. The unit checkers' only caller is `isValidSolution`
(script.js:57), whose loop passes the indices 0 to 8. Its own only caller,
`checkSolution` (script.js:46), hands it a deep copy of the 9x9 puzzle
after writing the k-th input into cell `(floor(k / 9), k % 9)`
(script.js:38-44). That copy stays 9x9 because the page has 51 inputs, one
per empty cell, so `floor(k / 9) <= 5` and every write lands in an existing
row; with more than 81 inputs, `solution[9]` would be `undefined` and the
write would throw before the validator is reached.

In a solved Sudoku every row, column and box holds each of 1 to 9
exactly once. The code checks only "nonzero and distinct", and the model
follows the code. It never checks an upper bound (or a lower one beyond
"not 0"), so nine distinct nonzero integers
such as `[1, 2, 3, 4, 5, 6, 7, 8, 10]` pass a unit. `Rules.OutOfRangeUnitPasses`
shows this. `Rules.DigitUnitIsPermutation` shows that the two readings agree
once every value lies in 1 to 9.

## Model

| member | source | states |
|---|---|---|
| `Board.BoxRowStart` | script.js:86 | the top row of box `b` (0..8) is 0, 3 or 6, and `start <= b < start + 3`: `start` is `b` rounded down to a multiple of 3, i.e. `3 * floor(b / 3)` |
| `Board.BoxColStart` | script.js:87 | the left column of box `b` is 0, 3 or 6, and `start / 3` is `b`'s place within its band of three boxes |
| `Board.BoxOf` | script.js:86-87 | the box `(r / 3) * 3 + c / 3` of cell `(r, c)` is in 0..8, and its 3x3 block contains the cell |
| `Board.BoxAccessInBounds` | script.js:88-90 | every access `board[rowStart + i][colStart + j]` with `i, j` in 0..2 is within 0..8 in both coordinates |
| `Board.BoxPartition` | script.js:86-87 | cell `(r, c)` lies in the block of box `b` if and only if `b == BoxOf(r, c)`: every cell is in exactly one box |
| `Board.CellPosition` | script.js:86-90 | the cell that box `BoxOf(r, c)` visits at step `BoxIndex(r, c)` is `(r, c)` itself |
| `Board.BoxCellPosition` | script.js:86-90 | the cell visited at step `k` of box `b` lies in box `b`, and its in-box index is `k`: (box, step) and (row, column) are inverse coordinates |
| `Board.CellInItsBox` | script.js:88-90 | the value of cell `(r, c)` is the entry of its own box at its in-box index |
| `Board.BoxFromRows` | script.js:88-90 | box `b` read in loop order is three 3-cell slices of three consecutive rows |
| `Validator.IsValidRow` | script.js:64-72 | returns true exactly when row `row`'s nine cells are nonzero and pairwise distinct; values above 9 are not rejected |
| `Validator.IsValidColumn` | script.js:74-82 | returns true exactly when column `col`'s nine cells are nonzero and pairwise distinct |
| `Validator.IsValidBox` | script.js:84-97 | returns true exactly when the nine cells of the block at `(floor(b / 3) * 3, (b % 3) * 3)` are nonzero and pairwise distinct |
| `Validator.IsValidSolution` | script.js:55-62 | returns true exactly when row, column and box `i` pass for every `i` in 0..8; on false, the index where it stopped is the first failing one and every earlier index passes |
| `Validator.RepeatSeen` | script.js:68 | a value already in the set of earlier entries is a repeat, so rejecting it is correct |
| `Validator.ExtendPrefix` | script.js:67-69 | adding a nonzero, unseen value keeps the set equal to the values seen so far, and the prefix still passes |
| `Rules.BoxHoldsItsBlock` | script.js:86-90 | the set of values box `b` yields equals the set of values of the cells `(r, c)` with `BoxOf(r, c) == b`: the nested loop reads the whole 3x3 block and nothing outside it |
| `Rules.EmptyCellRejected` | script.js:55-91 | a board with a 0 in any cell is not a valid solution |
| `Rules.ValidSolutionIffRules` | script.js:55-97 | the unit-by-unit check equals the cell-level rules: no empty cell, and two different cells sharing a row, column or box differ |
| `Rules.ValidSolutionGivesRules` | script.js:55-97 | a board that passes every unit obeys the cell-level rules |
| `Rules.RulesGiveValidSolution` | script.js:55-97 | a board obeying the cell-level rules passes every unit |
| `Rules.DigitUnitIsPermutation` | script.js:64-72 | for nine cells whose values lie in 1..9, passing the unit check is the same as holding each of 1..9 exactly once |
| `Rules.OutOfRangeUnitPasses` | script.js:64-72 | nine distinct nonzero values that are not 1..9 (a 10, or a -1) still pass a unit |
| `Rules.DistinctValuesCount` | script.js:65-69 | pairwise distinct entries give a set with as many values as entries |
| `Rules.RepeatLosesAValue` | script.js:68 | a repeated entry leaves fewer values than entries |
| `Puzzle.PuzzleIsNotASolution` | script.js:5-15 | the hard-coded puzzle, which still has empty cells, is rejected |
| `Puzzle.SolvedPuzzleAccepted` | script.js:5-15 | the completion of the puzzle keeps every given cell and is accepted |

## Left out

- Page construction and event wiring (`createBoard`, the element lookups,
  the click listener, the message text and colour): these are browser DOM
  glue with no logic to verify.
- `checkSolution`'s reading of the `<input>` elements (`querySelectorAll`,
  `parseInt(input.value) || 0`, the JSON deep copy): this depends on the
  browser DOM. The model starts from the board that `checkSolution` hands
  to `isValidSolution`. Note that `checkSolution` writes the k-th input into
  cell `(k / 9, k % 9)`, and that is not the position of that input on the grid.
- Board shapes other than 9x9 and unit indices outside 0..8: the only caller
  never produces them. In JavaScript such reads give `undefined` or throw
  a `TypeError`, and the model does not capture that.
- JavaScript `Set` equality (SameValueZero) and `===`: every cell value is
  an integer produced by `parseInt(...) || 0` or taken from the puzzle, so
  both act as integer equality and are modelled that way.
- Aliasing of the board between holders: the checkers only read it, and
  the model passes it as a value.
- A backtracking solver, a puzzle generator, a placement check and
  difficulty levels: these are not part of script.js, so there is no code
  to model.
