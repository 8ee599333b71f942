/** The board of the unit tests (the same as the module-level mock board of
    sudoku.py) and what the two operations give for it. */
module Fixture {
  import opened Wrappers
  import opened Boards
  import Search
  import Display
  import Lines

  const TestBoard: Board := [
    [7, 8, 0, 4, 0, 0, 1, 2, 0],
    [6, 0, 0, 0, 7, 5, 0, 0, 9],
    [0, 0, 0, 6, 0, 1, 0, 7, 8],
    [0, 0, 7, 0, 4, 0, 2, 6, 0],
    [0, 0, 1, 0, 5, 0, 9, 3, 0],
    [9, 0, 4, 0, 6, 0, 0, 0, 5],
    [0, 7, 0, 3, 0, 0, 0, 1, 2],
    [1, 2, 0, 0, 0, 7, 4, 0, 0],
    [0, 4, 9, 2, 0, 6, 0, 0, 7]
  ]

  /** The text the board-printing test expects on standard output. */
  const ExpectedLines: seq<string> := [
    "7 8 0  | 4 0 0  | 1 2 0",
    "6 0 0  | 0 7 5  | 0 0 9",
    "0 0 0  | 6 0 1  | 0 7 8",
    "- - - - - - - - - - - - - ",
    "0 0 7  | 0 4 0  | 2 6 0",
    "0 0 1  | 0 5 0  | 9 3 0",
    "9 0 4  | 0 6 0  | 0 0 5",
    "- - - - - - - - - - - - - ",
    "0 7 0  | 3 0 0  | 0 1 2",
    "1 2 0  | 0 0 7  | 4 0 0",
    "0 4 9  | 2 0 6  | 0 0 7"
  ]

  /** The first empty cell of the test board is row 0, column 2. */
  lemma TestBoardFindEmpty()
    ensures Search.FindEmpty(TestBoard) == Some((0, 2))
  {
    Search.FindEmptyIsFirstEmpty(TestBoard, 0, 2);
  }

  /** Every cell of the test board is a single digit. */
  lemma TestBoardDigits()
    ensures Display.IsDigitBoard(TestBoard)
  {
    assert Display.IsDigitRow(TestBoard[0]) && Display.IsDigitRow(TestBoard[1]) && Display.IsDigitRow(TestBoard[2]);
    assert Display.IsDigitRow(TestBoard[3]) && Display.IsDigitRow(TestBoard[4]) && Display.IsDigitRow(TestBoard[5]);
    assert Display.IsDigitRow(TestBoard[6]) && Display.IsDigitRow(TestBoard[7]) && Display.IsDigitRow(TestBoard[8]);
  }

  /** Rows 0 to 2 of the test board are shown as the first three expected lines. */
  lemma TestBoardTopRows()
    ensures Display.IsDigitBoard(TestBoard)
    ensures Display.RowLine(TestBoard[0]) == ExpectedLines[0]
    ensures Display.RowLine(TestBoard[1]) == ExpectedLines[1]
    ensures Display.RowLine(TestBoard[2]) == ExpectedLines[2]
  {
    TestBoardDigits();
    assert Display.RowLine(TestBoard[0]) == ExpectedLines[0] by {
      Display.RowLineSpelled(TestBoard[0]);
    }
    assert Display.RowLine(TestBoard[1]) == ExpectedLines[1] by {
      Display.RowLineSpelled(TestBoard[1]);
    }
    assert Display.RowLine(TestBoard[2]) == ExpectedLines[2] by {
      Display.RowLineSpelled(TestBoard[2]);
    }
  }

  /** Rows 3 to 5 of the test board are shown as expected lines 4 to 6. */
  lemma TestBoardMiddleRows()
    ensures Display.IsDigitBoard(TestBoard)
    ensures Display.RowLine(TestBoard[3]) == ExpectedLines[4]
    ensures Display.RowLine(TestBoard[4]) == ExpectedLines[5]
    ensures Display.RowLine(TestBoard[5]) == ExpectedLines[6]
  {
    TestBoardDigits();
    assert Display.RowLine(TestBoard[3]) == ExpectedLines[4] by {
      Display.RowLineSpelled(TestBoard[3]);
    }
    assert Display.RowLine(TestBoard[4]) == ExpectedLines[5] by {
      Display.RowLineSpelled(TestBoard[4]);
    }
    assert Display.RowLine(TestBoard[5]) == ExpectedLines[6] by {
      Display.RowLineSpelled(TestBoard[5]);
    }
  }

  /** Rows 6 to 8 of the test board are shown as expected lines 8 to 10. */
  lemma TestBoardBottomRows()
    ensures Display.IsDigitBoard(TestBoard)
    ensures Display.RowLine(TestBoard[6]) == ExpectedLines[8]
    ensures Display.RowLine(TestBoard[7]) == ExpectedLines[9]
    ensures Display.RowLine(TestBoard[8]) == ExpectedLines[10]
  {
    TestBoardDigits();
    assert Display.RowLine(TestBoard[6]) == ExpectedLines[8] by {
      Display.RowLineSpelled(TestBoard[6]);
    }
    assert Display.RowLine(TestBoard[7]) == ExpectedLines[9] by {
      Display.RowLineSpelled(TestBoard[7]);
    }
    assert Display.RowLine(TestBoard[8]) == ExpectedLines[10] by {
      Display.RowLineSpelled(TestBoard[8]);
    }
  }

  /** Printing the test board writes exactly the expected text. */
  lemma TestBoardRender()
    ensures Display.IsDigitBoard(TestBoard)
    ensures Display.Render(TestBoard) == Lines.Unlines(ExpectedLines)
  {
    TestBoardTopRows();
    TestBoardMiddleRows();
    TestBoardBottomRows();
    assert Display.DisplayLines(TestBoard) == ExpectedLines;
    Display.RenderLayout(TestBoard);
  }
}
