/** `print_board` of sudoku.py as a pure function from a board to the text
    it writes on standard output: `print(x)` writes `str(x)` and a newline,
    `print(x, end="")` writes `str(x)` alone. */
module Display {
  import opened Decimal
  import opened Lines
  import opened Boards

  /** The dashed line printed before row groups 2 and 3, without its newline. */
  const SeparatorLine: string := "- - - - - - - - - - - - - "

  /** The column separator written before cell j. */
  function CellPrefix(j: nat): string {
    if j % 3 == 0 && j != 0 then " | " else ""
  }

  /** What is written after the value of cell j: the source hard-codes
      column 8 as the one that ends a line. */
  function CellSuffix(j: nat): string {
    if j == 8 then "\n" else " "
  }

  /** What one pass of the inner loop writes for cell j of a row. */
  function CellText(row: seq<int>, j: nat): string
    requires j < |row|
  {
    CellPrefix(j) + Show(row[j]) + CellSuffix(j)
  }

  /** What the inner loop writes for the cells j, j + 1, ... of a row. */
  function RowTextFrom(row: seq<int>, j: nat): string
    requires j <= |row|
    decreases |row| - j
  {
    if j == |row| then "" else CellText(row, j) + RowTextFrom(row, j + 1)
  }

  /** The separator line written before row i, if any. */
  function BlockPrefix(i: nat): string {
    if i % 3 == 0 && i != 0 then SeparatorLine + "\n" else ""
  }

  /** What one pass of the outer loop writes for row i. */
  function RowBlock(board: Board, i: nat): string
    requires i < |board|
  {
    BlockPrefix(i) + RowTextFrom(board[i], 0)
  }

  /** What the outer loop writes for the rows i, i + 1, ... */
  function RenderFrom(board: Board, i: nat): string
    requires i <= |board|
    decreases |board| - i
  {
    if i == |board| then "" else RowBlock(board, i) + RenderFrom(board, i + 1)
  }

  /** Everything `print_board(board)` writes. For a board of any shape it
      holds one newline per separator line and one per row that has a
      column 8; rows of fewer than nine cells are left unterminated, and no
      cell value contributes a newline of its own. */
  function Render(board: Board): (r: string)
    ensures CountChar(r, '\n') == SeparatorCount(|board|) + LongRowsFrom(board, 0)
    ensures |board| == 0 ==> r == ""
  {
    RenderFromNewlines(board, 0);
    RenderFrom(board, 0)
  }

  /** How many of the rows 0 .. n-1 get a separator line before them: those
      whose index is a positive multiple of 3. */
  function SeparatorCount(n: nat): nat {
    if n == 0 then 0 else (n - 1) / 3
  }

  /** How many of the rows i, i + 1, ... have a cell in column 8. */
  function LongRowsFrom(board: Board, i: nat): nat
    requires i <= |board|
    decreases |board| - i
  {
    if i == |board| then 0 else (if |board[i]| > 8 then 1 else 0) + LongRowsFrom(board, i + 1)
  }

  /** The newlines written for row i: one for its separator, if any, and
      one if the row reaches column 8. */
  lemma RowBlockNewlines(board: Board, i: nat)
    requires i < |board|
    ensures CountChar(RowBlock(board, i), '\n') ==
            (if i % 3 == 0 && i != 0 then 1 else 0) + (if |board[i]| > 8 then 1 else 0)
  {
    BlockPrefixNewlines(i);
    CountCharAppend(BlockPrefix(i), RowTextFrom(board[i], 0), '\n');
    RowTextNewlines(board[i], 0);
  }

  /** The separator written before row i ends in the only newline it holds. */
  lemma BlockPrefixNewlines(i: nat)
    ensures CountChar(BlockPrefix(i), '\n') == if i % 3 == 0 && i != 0 then 1 else 0
  {
    if i % 3 == 0 && i != 0 {
      var dashes := SeparatorLine;
      assert forall k :: 0 <= k < |dashes| ==> dashes[k] != '\n';
      CountCharAbsent(dashes, '\n');
      CountCharAppend(dashes, "\n", '\n');
    }
  }

  /** The newlines the outer loop writes from row i on. */
  lemma {:induction false} RenderFromNewlines(board: Board, i: nat)
    requires i <= |board|
    ensures CountChar(RenderFrom(board, i), '\n') ==
            SeparatorCount(|board|) - SeparatorCount(i) + LongRowsFrom(board, i)
    decreases |board| - i
  {
    if i < |board| {
      RowBlockNewlines(board, i);
      CountCharAppend(RowBlock(board, i), RenderFrom(board, i + 1), '\n');
      RenderFromNewlines(board, i + 1);
    }
  }

  /** For a row of any length and any values, the inner loop ends a line
      only at column 8: a row of fewer than nine cells is left unterminated,
      and the cells after column 8 of a longer row follow the newline. */
  lemma {:induction false} RowTextNewlines(row: seq<int>, j: nat)
    requires j <= |row|
    ensures CountChar(RowTextFrom(row, j), '\n') == if j <= 8 < |row| then 1 else 0
    decreases |row| - j
  {
    if j < |row| {
      CellTextNewlines(row, j);
      CountCharAppend(CellText(row, j), RowTextFrom(row, j + 1), '\n');
      RowTextNewlines(row, j + 1);
    }
  }

  /** The text of cell j holds a newline exactly when j is 8. */
  lemma CellTextNewlines(row: seq<int>, j: nat)
    requires j < |row|
    ensures CountChar(CellText(row, j), '\n') == if j == 8 then 1 else 0
  {
    var v := Show(row[j]);
    CountCharAbsent(CellPrefix(j), '\n');
    CountCharAbsent(v, '\n');
    CountCharAppend(CellPrefix(j), v, '\n');
    CountCharAppend(CellPrefix(j) + v, CellSuffix(j), '\n');
  }

  // ---------------------------------------------------------------------
  // The display of a 9x9 board of single digits, defined independently of
  // the loops above: one line per row with each digit in a fixed text
  // column, and a dashed line after rows 2 and 5.

  predicate IsDigitRow(row: seq<int>) {
    |row| == 9 && forall j :: 0 <= j < 9 ==> 0 <= row[j] <= 9
  }

  predicate IsDigitBoard(board: Board) {
    |board| == 9 && forall i :: 0 <= i < 9 ==> IsDigitRow(board[i])
  }

  /** The text column at which cell j of a row is written. */
  function CellColumn(j: nat): nat {
    9 * (j / 3) + 2 * (j % 3)
  }

  /** The character at text column p of the line showing a digit row: each
      group of three cells takes nine columns, `d d d  | `, and the last
      group ends after its third digit. */
  function LayoutChar(row: seq<int>, p: nat): char
    requires IsDigitRow(row)
    requires p < 23
  {
    var o := p % 9;
    if o == 7 then '|'
    else if o <= 4 && o % 2 == 0 then DigitChar(row[3 * (p / 9) + o / 2])
    else ' '
  }

  /** The line showing a digit row, without its newline. */
  function RowLine(row: seq<int>): (line: string)
    requires IsDigitRow(row)
    ensures |line| == 23
  {
    seq(23, p requires 0 <= p < 23 => LayoutChar(row, p))
  }

  /** The eleven lines a 9x9 digit board is displayed as: the lines of
      rows 0 to 8 with a separator after rows 2 and 5. */
  function DisplayLines(board: Board): (lines: seq<string>)
    requires IsDigitBoard(board)
    ensures |lines| == 11
  {
    [RowLine(board[0]), RowLine(board[1]), RowLine(board[2]), SeparatorLine,
     RowLine(board[3]), RowLine(board[4]), RowLine(board[5]), SeparatorLine,
     RowLine(board[6]), RowLine(board[7]), RowLine(board[8])]
  }

  /** Every cell of a digit row is shown as its digit at its own column. */
  lemma RowLineCells(row: seq<int>)
    requires IsDigitRow(row)
    ensures forall j :: 0 <= j < 9 ==> RowLine(row)[CellColumn(j)] == DigitChar(row[j])
  {
    RowLineSpelled(row);
    forall j | 0 <= j < 9
      ensures RowLine(row)[CellColumn(j)] == DigitChar(row[j])
    {
      // One case per cell, so that CellColumn(j) becomes a literal index
      // into the spelled-out line instead of a term in j / 3 and j % 3.
      if j == 0 {
      } else if j == 1 {
      } else if j == 2 {
      } else if j == 3 {
      } else if j == 4 {
      } else if j == 5 {
      } else if j == 6 {
      } else if j == 7 {
      } else {
      }
    }
  }

  /** The line of a digit row has a bar at columns 7 and 16 and nowhere
      else, and no newline. */
  lemma RowLineBars(row: seq<int>)
    requires IsDigitRow(row)
    ensures forall p :: 0 <= p < 23 ==> (RowLine(row)[p] == '|' <==> p == 7 || p == 16)
    ensures forall p :: 0 <= p < 23 ==> RowLine(row)[p] != '\n'
  {
    forall p | 0 <= p < 23
      ensures RowLine(row)[p] == '|' <==> p == 7 || p == 16
      ensures RowLine(row)[p] != '\n'
    {
      if p < 9 {
        assert p % 9 == p;
      } else if p < 18 {
        assert p % 9 == p - 9;
      } else {
        assert p % 9 == p - 18;
      }
    }
  }

  /** Which display lines are separators: exactly lines 3 and 7, which
      come just before the lines of board rows 3 and 6. */
  lemma SeparatorLines(board: Board, k: nat)
    requires IsDigitBoard(board)
    requires k < 11
    ensures DisplayLines(board)[k] == SeparatorLine <==> k == 3 || k == 7
    ensures k == 3 || k == 7 ==> DisplayLines(board)[k + 1] == RowLine(board[k - k / 4])
  {
    if k != 3 && k != 7 {
      assert |DisplayLines(board)[k]| == 23 != |SeparatorLine|;
    }
  }

  /** The display line of a digit row, spelled out character by character. */
  lemma RowLineSpelled(row: seq<int>)
    requires IsDigitRow(row)
    ensures RowLine(row) ==
      [DigitChar(row[0]), ' ', DigitChar(row[1]), ' ', DigitChar(row[2]), ' ', ' ', '|', ' ',
       DigitChar(row[3]), ' ', DigitChar(row[4]), ' ', DigitChar(row[5]), ' ', ' ', '|', ' ',
       DigitChar(row[6]), ' ', DigitChar(row[7]), ' ', DigitChar(row[8])]
  {
    var line := [DigitChar(row[0]), ' ', DigitChar(row[1]), ' ', DigitChar(row[2]), ' ', ' ', '|', ' ',
                 DigitChar(row[3]), ' ', DigitChar(row[4]), ' ', DigitChar(row[5]), ' ', ' ', '|', ' ',
                 DigitChar(row[6]), ' ', DigitChar(row[7]), ' ', DigitChar(row[8])];
    forall p | 0 <= p < 23
      ensures RowLine(row)[p] == line[p]
    {
      if p < 9 {
        assert p % 9 == p && p / 9 == 0;
      } else if p < 18 {
        assert p % 9 == p - 9 && p / 9 == 1;
      } else {
        assert p % 9 == p - 18 && p / 9 == 2;
      }
    }
  }

  /** A digit cell is written as its single digit between its prefix and suffix. */
  lemma CellTextDigit(row: seq<int>, j: nat)
    requires IsDigitRow(row)
    requires j < 9
    ensures CellText(row, j) == CellPrefix(j) + [DigitChar(row[j])] + CellSuffix(j)
  {
    ShowDigit(row[j]);
  }

  /** The nine cell texts of a digit row, nested as the inner loop appends
      them, spell the row's display line and a newline. The `"" + ...` terms
      are the empty prefixes and suffix of the cells; stating the fact over
      plain characters keeps the sequence reasoning away from the row. */
  lemma SpellRow(c: string)
    requires |c| == 9
    ensures ("" + [c[0]] + " ") + (("" + [c[1]] + " ") + (("" + [c[2]] + " ") +
            ((" | " + [c[3]] + " ") + (("" + [c[4]] + " ") + (("" + [c[5]] + " ") +
            ((" | " + [c[6]] + " ") + (("" + [c[7]] + " ") + (("" + [c[8]] + "\n") + ""))))))))
         == [c[0], ' ', c[1], ' ', c[2], ' ', ' ', '|', ' ',
             c[3], ' ', c[4], ' ', c[5], ' ', ' ', '|', ' ',
             c[6], ' ', c[7], ' ', c[8], '\n']
  {
  }

  /** For a row of nine cells, the inner loop writes the nine cell texts in order. */
  lemma RowTextCells(row: seq<int>)
    requires |row| == 9
    ensures RowTextFrom(row, 0) ==
      CellText(row, 0) + (CellText(row, 1) + (CellText(row, 2) +
      (CellText(row, 3) + (CellText(row, 4) + (CellText(row, 5) +
      (CellText(row, 6) + (CellText(row, 7) + (CellText(row, 8) + ""))))))))
  {
    assert RowTextFrom(row, 9) == "";
    assert RowTextFrom(row, 8) == CellText(row, 8) + RowTextFrom(row, 9);
    assert RowTextFrom(row, 7) == CellText(row, 7) + RowTextFrom(row, 8);
    assert RowTextFrom(row, 6) == CellText(row, 6) + RowTextFrom(row, 7);
    assert RowTextFrom(row, 5) == CellText(row, 5) + RowTextFrom(row, 6);
    assert RowTextFrom(row, 4) == CellText(row, 4) + RowTextFrom(row, 5);
    assert RowTextFrom(row, 3) == CellText(row, 3) + RowTextFrom(row, 4);
    assert RowTextFrom(row, 2) == CellText(row, 2) + RowTextFrom(row, 3);
    assert RowTextFrom(row, 1) == CellText(row, 1) + RowTextFrom(row, 2);
  }

  /** The inner loop writes a digit row as its display line and a newline. */
  lemma RowTextLayout(row: seq<int>)
    requires IsDigitRow(row)
    ensures RowTextFrom(row, 0) == RowLine(row) + "\n"
  {
    var c := seq(9, j requires 0 <= j < 9 => DigitChar(row[j]));
    forall j | 0 <= j < 9
      ensures CellText(row, j) == CellPrefix(j) + [c[j]] + CellSuffix(j)
    {
      CellTextDigit(row, j);
    }
    RowTextCells(row);
    SpellRow(c);
    RowLineSpelled(row);
  }

  /** For a board of nine rows, the outer loop writes the nine row blocks in order. */
  lemma RenderBlocks(board: Board)
    requires |board| == 9
    ensures Render(board) ==
      RowBlock(board, 0) + (RowBlock(board, 1) + (RowBlock(board, 2) +
      (RowBlock(board, 3) + (RowBlock(board, 4) + (RowBlock(board, 5) +
      (RowBlock(board, 6) + (RowBlock(board, 7) + (RowBlock(board, 8) + ""))))))))
  {
    assert RenderFrom(board, 9) == "";
    assert RenderFrom(board, 8) == RowBlock(board, 8) + RenderFrom(board, 9);
    assert RenderFrom(board, 7) == RowBlock(board, 7) + RenderFrom(board, 8);
    assert RenderFrom(board, 6) == RowBlock(board, 6) + RenderFrom(board, 7);
    assert RenderFrom(board, 5) == RowBlock(board, 5) + RenderFrom(board, 6);
    assert RenderFrom(board, 4) == RowBlock(board, 4) + RenderFrom(board, 5);
    assert RenderFrom(board, 3) == RowBlock(board, 3) + RenderFrom(board, 4);
    assert RenderFrom(board, 2) == RowBlock(board, 2) + RenderFrom(board, 3);
    assert RenderFrom(board, 1) == RowBlock(board, 1) + RenderFrom(board, 2);
  }

  /** Eleven lines joined, written out. */
  lemma UnlinesEleven(lines: seq<string>)
    requires |lines| == 11
    ensures Unlines(lines) ==
      lines[0] + "\n" + (lines[1] + "\n" + (lines[2] + "\n" + (lines[3] + "\n" +
      (lines[4] + "\n" + (lines[5] + "\n" + (lines[6] + "\n" + (lines[7] + "\n" +
      (lines[8] + "\n" + (lines[9] + "\n" + (lines[10] + "\n" + ""))))))))))
  {
    forall m | 0 <= m < 11
      ensures Unlines(lines[m..]) == lines[m] + "\n" + Unlines(lines[m + 1..])
    {
      UnlinesSuffix(lines, m);
    }
    assert lines[11..] == [];
    assert lines[0..] == lines;
  }

  /** Row i of a digit board is written as the row's block prefix, then
      its display line and a newline. */
  lemma RowBlockLayout(board: Board, i: nat)
    requires IsDigitBoard(board) && i < 9
    ensures RowBlock(board, i) == BlockPrefix(i) + (RowLine(board[i]) + "\n")
  {
    RowTextLayout(board[i]);
  }

  /** The row blocks of a digit board, nested as the outer loop appends
      them, are the display lines joined with newlines. Only the grouping
      differs between the two sides; stating it over plain strings keeps
      this associativity step away from the board. */
  lemma JoinBoard(r0: string, r1: string, r2: string, r3: string, r4: string,
                  r5: string, r6: string, r7: string, r8: string, sep: string)
    ensures ("" + (r0 + "\n")) + (("" + (r1 + "\n")) + (("" + (r2 + "\n")) +
            ((sep + "\n" + (r3 + "\n")) + (("" + (r4 + "\n")) + (("" + (r5 + "\n")) +
            ((sep + "\n" + (r6 + "\n")) + (("" + (r7 + "\n")) + (("" + (r8 + "\n")) + ""))))))))
         == r0 + "\n" + (r1 + "\n" + (r2 + "\n" + (sep + "\n" +
            (r3 + "\n" + (r4 + "\n" + (r5 + "\n" + (sep + "\n" +
            (r6 + "\n" + (r7 + "\n" + (r8 + "\n" + ""))))))))))
  {
  }

  /** `print_board` writes a 9x9 digit board as its eleven display lines,
      each followed by a newline. */
  lemma RenderLayout(board: Board)
    requires IsDigitBoard(board)
    ensures Render(board) == Unlines(DisplayLines(board))
  {
    RowBlockLayout(board, 0);
    RowBlockLayout(board, 1);
    RowBlockLayout(board, 2);
    RowBlockLayout(board, 3);
    RowBlockLayout(board, 4);
    RowBlockLayout(board, 5);
    RowBlockLayout(board, 6);
    RowBlockLayout(board, 7);
    RowBlockLayout(board, 8);
    RenderBlocks(board);
    UnlinesEleven(DisplayLines(board));
    JoinBoard(RowLine(board[0]), RowLine(board[1]), RowLine(board[2]),
              RowLine(board[3]), RowLine(board[4]), RowLine(board[5]),
              RowLine(board[6]), RowLine(board[7]), RowLine(board[8]), SeparatorLine);
  }

  /** The text written for a 9x9 digit board holds exactly eleven lines
      (nine rows and two separators) and ends with a newline. */
  lemma RenderLineCount(board: Board)
    requires IsDigitBoard(board)
    ensures CountChar(Render(board), '\n') == 11
    ensures Render(board)[|Render(board)| - 1] == '\n'
  {
    RenderLayout(board);
    var lines := DisplayLines(board);
    forall k, p | 0 <= k < 11 && 0 <= p < |lines[k]|
      ensures lines[k][p] != '\n'
    {
      if k != 3 && k != 7 {
        RowLineBars(board[k - k / 4]);
      }
    }
    UnlinesNewlines(lines);
  }
}
