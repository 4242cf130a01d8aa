/**
 * The 8x8 display layout the server sends with every snapshot
 * (layout.go, `GetBoardLayout`): cell [row, col, 0] names the square and
 * cell [row, col, 1] gives its colour, "w" or "b". Row 0 is rank 8 and
 * column 0 is file a, so the layout reads as the board seen by white.
 */
module Layout {
  import BitboardUtils

  /** The square name of a cell: the file `col` letters after 'a', then the rank `row` digits below '8'. */
  function SquareAt(row: nat, col: nat): (s: string)
    requires row < 8 && col < 8
    ensures |s| == 2 && 'a' <= s[0] <= 'h' && '1' <= s[1] <= '8'
  {
    [('a' as int + col) as char, ('8' as int - row) as char]
  }

  /** The colour of a cell: "w" when `row + col` is even, "b" otherwise. */
  function ColorAt(row: nat, col: nat): (c: string)
    requires row < 8 && col < 8
    ensures c == "w" || c == "b"
  {
    ["w", "b"][(row + col) % 2]
  }

  /** `GetBoardLayout`: the two nested loops write every cell's name and colour. */
  method GetBoardLayout() returns (board: array3<string>)
    ensures fresh(board)
    ensures board.Length0 == 8 && board.Length1 == 8 && board.Length2 == 2
    ensures forall row, col :: 0 <= row < 8 && 0 <= col < 8 ==>
      board[row, col, 0] == SquareAt(row, col) && board[row, col, 1] == ColorAt(row, col)
  {
    board := new string[8, 8, 2]((_, _, _) => "");
    var colors := ["w", "b"];
    for row := 0 to 8
      invariant forall r, c :: 0 <= r < row && 0 <= c < 8 ==>
        board[r, c, 0] == SquareAt(r, c) && board[r, c, 1] == ColorAt(r, c)
    {
      for col := 0 to 8
        invariant forall r, c :: 0 <= r < row && 0 <= c < 8 ==>
          board[r, c, 0] == SquareAt(r, c) && board[r, c, 1] == ColorAt(r, c)
        invariant forall c :: 0 <= c < col ==>
          board[row, c, 0] == SquareAt(row, c) && board[row, c, 1] == ColorAt(row, c)
      {
        var file := ('a' as int + col) as char;
        var rank := ('8' as int - row) as char;
        var color := colors[(row + col) % 2];
        board[row, col, 0] := [file] + [rank];
        board[row, col, 1] := color;
      }
    }
  }

  /** Two cells carry the same square name only if they are the same cell. */
  lemma SquaresDistinct(r1: nat, c1: nat, r2: nat, c2: nat)
    requires r1 < 8 && c1 < 8 && r2 < 8 && c2 < 8
    requires SquareAt(r1, c1) == SquareAt(r2, c2)
    ensures r1 == r2 && c1 == c2
  {
    assert SquareAt(r1, c1)[0] == SquareAt(r2, c2)[0];
    assert SquareAt(r1, c1)[1] == SquareAt(r2, c2)[1];
  }

  /** Every square a1..h8 appears in the layout: the cell that names it. */
  lemma CellOf(s: string) returns (row: nat, col: nat)
    requires |s| == 2 && 'a' <= s[0] <= 'h' && '1' <= s[1] <= '8'
    ensures row < 8 && col < 8 && SquareAt(row, col) == s
  {
    row := '8' as int - s[1] as int;
    col := s[0] as int - 'a' as int;
    assert SquareAt(row, col) == [s[0], s[1]];
  }

  /** Horizontally adjacent cells have different colours. */
  lemma RowNeighboursDiffer(row: nat, col: nat)
    requires row < 8 && col < 7
    ensures ColorAt(row, col) != ColorAt(row, col + 1)
  {
    assert (row + col + 1) % 2 != (row + col) % 2;
  }

  /** Vertically adjacent cells have different colours. */
  lemma ColumnNeighboursDiffer(row: nat, col: nat)
    requires row < 7 && col < 8
    ensures ColorAt(row, col) != ColorAt(row + 1, col)
  {
    assert (row + 1 + col) % 2 != (row + col) % 2;
  }

  /**
   * The layout agrees with the bitboard numbering: cell [row, col] names
   * square index `8 * (7 - row) + col`.
   */
  lemma SquareAtIndex(row: nat, col: nat)
    requires row < 8 && col < 8
    ensures SquareAt(row, col) == BitboardUtils.SquareName(8 * (7 - row) + col)
  {
    var i := 8 * (7 - row) + col;
    assert i % 8 == col && i / 8 == 7 - row;
    BitboardUtils.SquareNameChars(i);
  }
}
