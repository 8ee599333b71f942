/** `find_empty` of sudoku.py: a row-major scan for the first empty (zero)
    cell of a board. The board is a sequence of rows that need not all have
    the same length, exactly as the Python loops `range(len(board[i]))`. */
module Search {
  import opened Wrappers
  import opened Boards

  /** Cell (a, b) comes strictly before cell (i, j) in row-major order. */
  predicate Before(a: nat, b: nat, i: nat, j: nat) {
    a < i || (a == i && b < j)
  }

  predicate InBounds(board: Board, i: nat, j: nat) {
    i < |board| && j < |board[i]|
  }

  predicate IsEmptyCell(board: Board, i: nat, j: nat) {
    InBounds(board, i, j) && board[i][j] == 0
  }

  /** Some cell of the board holds 0. */
  predicate HasEmpty(board: Board) {
    exists i, j :: 0 <= i < |board| && 0 <= j < |board[i]| && board[i][j] == 0
  }

  /** Every cell at or after (i, j) and strictly before (k, l) is filled. */
  predicate FilledBetween(board: Board, i: nat, j: nat, k: nat, l: nat) {
    forall a, b :: 0 <= a < |board| && 0 <= b < |board[a]| && !Before(a, b, i, j) && Before(a, b, k, l) ==>
      board[a][b] != 0
  }

  /** Every cell at or after (i, j) is filled. */
  predicate FilledFrom(board: Board, i: nat, j: nat) {
    forall a, b :: 0 <= a < |board| && 0 <= b < |board[a]| && !Before(a, b, i, j) ==> board[a][b] != 0
  }

  /** (i, j) is the first empty cell of the board in row-major order. */
  predicate IsFirstEmpty(board: Board, i: nat, j: nat) {
    IsEmptyCell(board, i, j) && FilledBetween(board, 0, 0, i, j)
  }

  /** The nested loops of `find_empty`, resumed at row i, column j. */
  function Scan(board: Board, i: nat, j: nat): (r: Option<(nat, nat)>)
    requires i <= |board|
    requires i < |board| ==> j <= |board[i]|
    ensures r.Some? ==> IsEmptyCell(board, r.value.0, r.value.1)
    ensures r.Some? ==> !Before(r.value.0, r.value.1, i, j)
    ensures r.Some? ==> FilledBetween(board, i, j, r.value.0, r.value.1)
    ensures r.None? <==> FilledFrom(board, i, j)
    decreases |board| - i, if i < |board| then |board[i]| - j else 0
  {
    if i == |board| then None
    else if j == |board[i]| then Scan(board, i + 1, 0)
    else if board[i][j] == 0 then Some((i, j))
    else Scan(board, i, j + 1)
  }

  /** `find_empty(board)`: the first empty cell in row-major order, or None
      when every cell is filled. */
  function FindEmpty(board: Board): (r: Option<(nat, nat)>)
    ensures r.Some? ==> r.value.0 < |board| && r.value.1 < |board[r.value.0]|
    ensures r.Some? ==> board[r.value.0][r.value.1] == 0
    ensures r.Some? ==> forall a, b :: 0 <= a < r.value.0 && 0 <= b < |board[a]| ==> board[a][b] != 0
    ensures r.Some? ==> forall b :: 0 <= b < r.value.1 ==> board[r.value.0][b] != 0
    ensures r.None? <==> !HasEmpty(board)
  {
    Scan(board, 0, 0)
  }

  /** The first empty cell is unique, so FindEmpty returns (i, j) exactly
      when (i, j) is empty and every cell before it is filled. */
  lemma FindEmptyIsFirstEmpty(board: Board, i: nat, j: nat)
    ensures FindEmpty(board) == Some((i, j)) <==> IsFirstEmpty(board, i, j)
  {
  }

  /** The same scan written as the two nested loops of the source, with the
      early return from inside the inner loop. */
  method FindEmptyLoop(board: Board) returns (r: Option<(nat, nat)>)
    ensures r == FindEmpty(board)
    ensures r.Some? ==> IsFirstEmpty(board, r.value.0, r.value.1)
  {
    var i := 0;
    while i < |board|
      invariant 0 <= i <= |board|
      invariant FilledBetween(board, 0, 0, i, 0)
    {
      var j := 0;
      while j < |board[i]|
        invariant 0 <= j <= |board[i]|
        invariant FilledBetween(board, 0, 0, i, j)
      {
        if board[i][j] == 0 {
          FindEmptyIsFirstEmpty(board, i, j);
          return Some((i, j));
        }
        j := j + 1;
      }
      i := i + 1;
    }
    assert FilledFrom(board, 0, 0);
    return None;
  }
}
