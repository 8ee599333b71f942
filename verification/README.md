# Sudoku board operations — a Dafny model

This project models the two board operations of `sudoku.py` in the
Sudoku_Pygame repository and proves what they compute:

- `find_empty(board)` scans a board row by row, left to right, and returns
  the coordinate `(row, col)` of the first cell holding `0`, or `None` when
  no cell does. The model is `Search.FindEmpty`, a pure function built on
  `Search.Scan`, which follows the two nested loops of the source. It is
  total over every board, ragged rows included, because the source loops
  over `len(board[i])` for each row. `Search.FindEmptyLoop` writes the same
  scan as the nested loops with the early return and is proved equal to it.
  Boards are immutable sequences, so the scan cannot change the board.
- `print_board(board)` writes the board to standard output. The model is
  `Display.Render(board)`, a pure function that returns the exact text the
  calls to `print` would write. `print(x)` writes `str(x)` followed by a
  newline; `print(x, end="")` writes `str(x)` alone. `Render` is defined
  for every board of integers, and its contract counts the newlines it
  writes for a board of any shape. `Decimal.Show` models Python's `str()`
  on an int without CPython's limit on the number of digits (see "Left
  out"): a minus sign for negatives, then the decimal digits without
  leading zeros. It is proved to be undone by `Decimal.Parse`.

For a 9×9 board of single digits, the output is also given by an
independent layout, `Display.DisplayLines`, which is defined without the
loops. It has eleven lines. Lines 3 and 7 are the dashed separator
`"- - - - - - - - - - - - - "`. Every other line shows one board row, with
cell `j` at text column `9*(j/3) + 2*(j%3)` and a bar at columns 7 and 16.
`Display.RenderLayout` proves that the loops write exactly these lines,
each followed by a newline. For the test board of `test_sudoku.py`,
`Fixture` proves what both operations give. The test's expected text is the
eleven strings of `Fixture.ExpectedLines`, each followed by `"\n"`, which
is `Lines.Unlines(Fixture.ExpectedLines)`.

Files: `wrappers.dfy` (Option), `boards.dfy` (the board type), `decimal.dfy` (`str()` of an int),
`search.dfy` (`find_empty`), `lines.dfy` (joining lines and counting
characters), `display.dfy` (`print_board`) and `fixture.dfy` (the test
board).

## Model

| member | source | states |
|---|---|---|
| Search.Scan | sudoku.py:43-49 | Resumed at cell (i, j), the scan returns an empty cell at or after (i, j) with every cell between filled, and returns None exactly when every cell from (i, j) on is filled |
| Search.FindEmpty | sudoku.py:36-49 | A returned (i, j) is in bounds and holds 0; all of rows 0..i-1 and columns 0..j-1 of row i are non-zero; None is returned if and only if no cell holds 0 |
| Search.FindEmptyIsFirstEmpty | sudoku.py:43-47 | FindEmpty returns (i, j) if and only if (i, j) is the first empty cell in row-major order, so the first empty cell is unique |
| Search.FindEmptyLoop | sudoku.py:43-49 | The nested loops with the early return from the inner loop compute the same result as FindEmpty, and a returned cell is the first empty cell |
| Decimal.ShowNat | sudoku.py:30-33 | The text of a natural number is non-empty, is all decimal digits, has no leading zero, starts with '0' exactly for 0, and is one character exactly for numbers below 10 |
| Decimal.Show | sudoku.py:30-33 | The text of an int is non-empty, is digits with a leading '-' exactly for negatives, has no leading zero after the sign, starts with '0' exactly for 0, and holds no newline or space |
| Decimal.ParseShowNat | sudoku.py:30-33 | Reading back the digits written for a natural number gives that number |
| Decimal.ParseShow | sudoku.py:30-33 | Reading back the text written for any int gives that int, so distinct cell values are written differently |
| Decimal.ShowDigit | sudoku.py:30-33 | A cell value from 0 to 9 is written as the single character of its digit |
| Display.Render | sudoku.py:15-33 | For a board of any shape, the printed text holds one newline per separator line, that is one before every row whose index is a positive multiple of 3, plus one per row that has a cell in column 8; rows of fewer than nine cells are left unterminated, no cell value adds a newline, and an empty board prints nothing. Its layout for 9×9 digit boards is stated by RenderLayout and RenderLineCount |
| Display.RenderFromNewlines | sudoku.py:21-33 | From row i on, the outer loop writes one newline per separator still to come and one per remaining row that reaches column 8 |
| Display.RowTextNewlines | sudoku.py:25-33 | For a row of any length, the inner loop writes exactly one newline if the row has more than eight cells and none otherwise, because column 8 is hard-coded as the end of a line |
| Display.CellTextNewlines | sudoku.py:25-33 | The text written for a cell holds a newline exactly when the cell is in column 8, the one cell printed without `end=""` |
| Display.RowTextLayout | sudoku.py:25-33 | The inner loop writes a row of nine digits as its display line followed by a newline |
| Display.RowLineSpelled | sudoku.py:25-33 | The display line of a digit row is, character by character, the nine digits with spaces between them and the bar separator before columns 3 and 6 |
| Display.RowLineCells | sudoku.py:25-33 | Each cell j of a digit row appears as its digit at text column 9*(j/3) + 2*(j%3) |
| Display.RowLineBars | sudoku.py:25-27 | A row line has a bar exactly at text columns 7 and 16, that is before cells 3 and 6, and holds no newline |
| Display.SeparatorLines | sudoku.py:21-23 | Among the eleven display lines, the dashed separator is exactly lines 3 and 7, the lines just before board rows 3 and 6 |
| Display.RowBlockLayout | sudoku.py:21-33 | Row i of a digit board is written as its block prefix (the dashed separator and a newline for rows 3 and 6, nothing for the others) followed by the row's display line and a newline |
| Display.RenderLayout | sudoku.py:15-33 | For every 9×9 board of digits, the printed text is the eleven display lines joined with newlines |
| Display.RenderLineCount | sudoku.py:21-33 | For every 9×9 board of digits, the printed text holds exactly 11 newlines (9 rows and 2 separators) and ends with a newline |
| Fixture.TestBoardFindEmpty | test_sudoku.py:41-47 | On the test board, find_empty returns (0, 2) |
| Fixture.TestBoardDigits | test_sudoku.py:10-20 | The test board is 9×9 and every cell holds a single digit |
| Fixture.TestBoardTopRows | test_sudoku.py:27-29 | Rows 0 to 2 of the test board are displayed as the first three expected lines |
| Fixture.TestBoardMiddleRows | test_sudoku.py:31-33 | Rows 3 to 5 of the test board are displayed as the expected lines after the first separator |
| Fixture.TestBoardBottomRows | test_sudoku.py:35-37 | Rows 6 to 8 of the test board are displayed as the expected lines after the second separator |
| Fixture.TestBoardRender | test_sudoku.py:22-39 | Printing the test board writes exactly the expected text of the test, character for character |

## Left out

- The writes to standard output are not modelled. `print_board` is modelled by the text it would write.
- `main` and the module-level `game_board` of sudoku.py are not modelled. That board equals the test board, which `Fixture.TestBoard` holds.
- GUI.py is not part of this model. It is pygame drawing and event code, and its `Grid` methods are empty stubs.
- The solver, the placement-validity check, the random solution generator, the solution counter and the puzzle carving do not appear in the repository's `sudoku.py`, so they are not modelled.
- Cell values are modelled as Python ints. `print_board` would also accept other objects and print them with `str()`; that is not modelled.
- Display.RenderLayout: the line-by-line layout is proved only for 9×9 boards of digits 0 to 9. Other boards are still rendered by `Display.Render`, and `Display.RowTextNewlines` covers their line endings.
- Display.RenderLineCount: it counts lines only for 9×9 boards of digits, for the same reason. `Display.Render` counts the newlines of every board.
- Decimal.Show: it is total. CPython 3.11 and later (and the 3.10.7 and 3.9.14 security releases) raise `ValueError` from `str()` of an int with more than 4300 digits, so `print_board` would write the earlier cells and then raise at sudoku.py:30 or :33. The model assumes no such limit.
- Display.Render: it is total for the same reason. A board holding an int of more than 4300 digits makes the real `print_board` stop with an error part-way; `Render` returns the full text instead.
