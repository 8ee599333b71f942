/** The board shared by the two operations of sudoku.py. */
module Boards {

  /** A board is a list of rows of integers; 0 marks an empty cell. Rows
      need not all have the same length. */
  type Board = seq<seq<int>>
}
