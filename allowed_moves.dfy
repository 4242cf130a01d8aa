/**
 * The string-keyed move generator (allowed_moves.go). A board maps square
 * names ("e4") to piece codes ("wP", "bN1", ...; "---" marks an empty
 * square); each generator walks from a square along its piece's direction
 * table and lists target square names in the order it meets them.
 *
 * Squares are read the way the Go code reads them, as bytes: the file is
 * `square[0] - 'a'` and the rank `square[1] - '0'`, both in byte
 * arithmetic, and target names are printed with `%c%d`.
 */
module AllowedMoves {
  import BitboardUtils

  type Board = map<string, string>

  /** The code the board stores for an empty square. */
  const Empty: string := "---"

  /** A (file, rank) step of a direction table: `dir[0]` moves the file, `dir[1]` the rank. */
  datatype Offset = Offset(df: int, dr: int)

  const KnightOffsets: seq<Offset> := [Offset(2, 1), Offset(2, -1), Offset(-2, 1), Offset(-2, -1),
                                       Offset(1, 2), Offset(1, -2), Offset(-1, 2), Offset(-1, -2)]
  const BishopOffsets: seq<Offset> := [Offset(1, 1), Offset(-1, 1), Offset(1, -1), Offset(-1, -1)]
  const RookOffsets: seq<Offset> := [Offset(0, 1), Offset(0, -1), Offset(1, 0), Offset(-1, 0)]
  const QueenOffsets: seq<Offset> := RookOffsets + BishopOffsets
  const KingOffsets: seq<Offset> := QueenOffsets

  /** Every occupant code can be sliced for its colour letter (`data[0:1]` would panic on ""). */
  predicate Readable(board: Board)
  {
    forall sq :: sq in board ==> board[sq] != ""
  }

  /** The decimal digits of a natural number, as `%d` prints it. */
  function Digits(n: nat): (s: string)
    ensures |s| >= 1
  {
    if n < 10 then [('0' as int + n) as char] else Digits(n / 10) + [('0' as int + n % 10) as char]
  }

  /** `%d` of an integer. */
  function Decimal(n: int): string
  {
    if n < 0 then "-" + Digits(-n) else Digits(n)
  }

  /** `fmt.Sprintf("%c%d", file, rank)`. */
  function Format(file: char, rank: int): string
  {
    [file] + Decimal(rank)
  }

  /** `int(square[0] - 'a')`: the file index in byte arithmetic, so always 0..255. */
  function FileIndex(square: string): int
    requires |square| >= 2
  {
    (BitboardUtils.ByteOf(square[0]) - 'a' as int) % 256
  }

  /** `int(square[1] - '0')`: the rank in byte arithmetic, so always 0..255. */
  function RankNumber(square: string): int
    requires |square| >= 2
  {
    (BitboardUtils.ByteOf(square[1]) - '0' as int) % 256
  }

  /** The bounds test of every generator: file index 0..7 and rank 1..8. */
  predicate OnBoard(file: int, rank: int)
  {
    0 <= file < 8 && 1 <= rank <= 8
  }

  /** A name of the 64 squares a1..h8. */
  predicate IsSquareName(s: string)
  {
    |s| == 2 && 'a' <= s[0] <= 'h' && '1' <= s[1] <= '8'
  }

  /** The name printed for an on-board file index and rank. */
  function SquareName(file: int, rank: int): (s: string)
    requires OnBoard(file, rank)
    ensures IsSquareName(s)
  {
    Format(('a' as int + file) as char, rank)
  }

  /** A square the board leaves empty: absent, or holding "---". */
  predicate Vacant(board: Board, s: string)
  {
    s !in board || board[s] == Empty
  }

  /** A square a piece of `color` may land on: vacant, or holding a piece whose colour letter differs. */
  predicate Admits(board: Board, s: string, color: string)
    requires Readable(board)
  {
    Vacant(board, s) || board[s][..1] != color
  }

  // ---------------------------------------------------------------------
  // Knight and king: one step per offset.
  // ---------------------------------------------------------------------

  /** The target one offset gives: none off the board or onto a piece of the mover's colour. */
  function Leap(file: int, rank: int, o: Offset, color: string, board: Board): seq<string>
    requires Readable(board)
  {
    var f, r := file + o.df, rank + o.dr;
    if !OnBoard(f, r) then []
    else if Admits(board, SquareName(f, r), color) then [SquareName(f, r)]
    else []
  }

  /** The targets of a table of offsets, in the table's order. */
  function Leaps(file: int, rank: int, offsets: seq<Offset>, color: string, board: Board): seq<string>
    requires Readable(board)
  {
    if offsets == [] then []
    else Leaps(file, rank, offsets[..|offsets| - 1], color, board) + Leap(file, rank, offsets[|offsets| - 1], color, board)
  }

  /**
   * A knight or king target is a square a1..h8 the mover may land on, and
   * each offset gives at most one target.
   */
  lemma {:induction false} LeapsSound(file: int, rank: int, offsets: seq<Offset>, color: string, board: Board)
    requires Readable(board)
    ensures |Leaps(file, rank, offsets, color, board)| <= |offsets|
    ensures forall s :: s in Leaps(file, rank, offsets, color, board) ==> IsSquareName(s) && Admits(board, s, color)
  {
    if offsets != [] {
      LeapsSound(file, rank, offsets[..|offsets| - 1], color, board);
    }
  }

  /** The targets a table of offsets lists once the first `n` offsets are done. */
  method LeapTargets(square: string, pieceColor: string, board: Board, directions: seq<Offset>)
    returns (allowed: seq<string>)
    requires |square| >= 2 && Readable(board)
    ensures allowed == Leaps(FileIndex(square), RankNumber(square), directions, pieceColor, board)
  {
    allowed := [];
    var squareFile, squareRank := FileIndex(square), RankNumber(square);
    for i := 0 to |directions|
      invariant allowed == Leaps(squareFile, squareRank, directions[..i], pieceColor, board)
    {
      assert directions[..i + 1][..i] == directions[..i];
      var dir := directions[i];
      var curFileIdx, curRank := squareFile + dir.df, squareRank + dir.dr;
      if curFileIdx < 0 || curFileIdx >= 8 || curRank < 1 || curRank > 8 {
        continue;
      }
      var newSquare := SquareName(curFileIdx, curRank);
      if newSquare !in board || board[newSquare] == Empty {
        allowed := allowed + [newSquare];
      } else {
        var newPieceColor := board[newSquare][..1];
        if newPieceColor != pieceColor {
          allowed := allowed + [newSquare];
        }
      }
    }
    assert directions[..|directions|] == directions;
  }

  /** `GetAllowedMovesKnight`: the eight L-shaped offsets. */
  method GetAllowedMovesKnight(square: string, pieceColor: string, board: Board) returns (allowed: seq<string>)
    requires |square| >= 2 && Readable(board)
    ensures allowed == Leaps(FileIndex(square), RankNumber(square), KnightOffsets, pieceColor, board)
  {
    allowed := LeapTargets(square, pieceColor, board, KnightOffsets);
  }

  /** `GetAllowedMovesKing`: one step in each of the eight directions. */
  method GetAllowedMovesKing(square: string, pieceColor: string, board: Board) returns (allowed: seq<string>)
    requires |square| >= 2 && Readable(board)
    ensures allowed == Leaps(FileIndex(square), RankNumber(square), KingOffsets, pieceColor, board)
  {
    allowed := LeapTargets(square, pieceColor, board, KingOffsets);
  }

  // ---------------------------------------------------------------------
  // Bishop, rook and queen: rays that stop at the first occupied square.
  // ---------------------------------------------------------------------

  /** A direction of a sliding piece: each coordinate moves by at most one, and not both by none. */
  predicate IsDirection(o: Offset)
  {
    -1 <= o.df <= 1 && -1 <= o.dr <= 1 && (o.df != 0 || o.dr != 0)
  }

  predicate AreDirections(offsets: seq<Offset>)
  {
    forall i :: 0 <= i < |offsets| ==> IsDirection(offsets[i])
  }

  /** How many more steps in direction `o` can stay on the board. */
  function Remaining(file: int, rank: int, o: Offset): nat
  {
    var d := if o.df == 1 then 7 - file else if o.df == -1 then file
             else if o.dr == 1 then 8 - rank else rank - 1;
    if d < 0 then 0 else d
  }

  /**
   * The squares a slider on (file, rank) reaches in direction `o`: every
   * vacant square in turn, then the first occupied one if it holds the
   * other colour, and nothing past it.
   */
  function Ray(file: int, rank: int, o: Offset, color: string, board: Board): seq<string>
    requires IsDirection(o) && Readable(board)
    decreases Remaining(file, rank, o)
  {
    var f, r := file + o.df, rank + o.dr;
    if !OnBoard(f, r) then []
    else
      var s := SquareName(f, r);
      if Vacant(board, s) then [s] + Ray(f, r, o, color, board)
      else if Admits(board, s, color) then [s]
      else []
  }

  /** The rays of a direction table, in the table's order. */
  function Rays(file: int, rank: int, offsets: seq<Offset>, color: string, board: Board): seq<string>
    requires AreDirections(offsets) && Readable(board)
  {
    if offsets == [] then []
    else Rays(file, rank, offsets[..|offsets| - 1], color, board) + Ray(file, rank, offsets[|offsets| - 1], color, board)
  }

  /** The ray ends where the next step leaves the board. */
  lemma RayOff(file: int, rank: int, o: Offset, color: string, board: Board)
    requires IsDirection(o) && Readable(board)
    requires !OnBoard(file + o.df, rank + o.dr)
    ensures Ray(file, rank, o, color, board) == []
  {
  }

  /** A vacant next square is listed and the ray goes on from it. */
  lemma RayVacant(file: int, rank: int, o: Offset, color: string, board: Board, s: string)
    requires IsDirection(o) && Readable(board)
    requires OnBoard(file + o.df, rank + o.dr) && s == SquareName(file + o.df, rank + o.dr) && Vacant(board, s)
    ensures Ray(file, rank, o, color, board) == [s] + Ray(file + o.df, rank + o.dr, o, color, board)
  {
  }

  /** An occupied next square ends the ray; it is listed only when it holds the other colour. */
  lemma RayBlocked(file: int, rank: int, o: Offset, color: string, board: Board, s: string)
    requires IsDirection(o) && Readable(board)
    requires OnBoard(file + o.df, rank + o.dr) && s == SquareName(file + o.df, rank + o.dr) && !Vacant(board, s)
    ensures Ray(file, rank, o, color, board) == if Admits(board, s, color) then [s] else []
  {
  }

  /**
   * `ray` walks from (file, rank) in direction `o`: its first square is
   * the next one on the board, and the rest walks on from there.
   */
  predicate OnLine(ray: seq<string>, file: int, rank: int, o: Offset)
    decreases |ray|
  {
    ray == [] ||
    (OnBoard(file + o.df, rank + o.dr) && ray[0] == SquareName(file + o.df, rank + o.dr)
     && OnLine(ray[1..], file + o.df, rank + o.dr, o))
  }

  /** The next square followed by a walk from it is a walk from the current square. */
  lemma LineCons(ray: seq<string>, rest: seq<string>, file: int, rank: int, o: Offset)
    requires OnBoard(file + o.df, rank + o.dr)
    requires ray == [SquareName(file + o.df, rank + o.dr)] + rest && OnLine(rest, file + o.df, rank + o.dr, o)
    ensures OnLine(ray, file, rank, o)
  {
    assert ray[1..] == rest;
  }

  /** Every square of a walk is a square a1..h8. */
  lemma {:induction false} LineNames(ray: seq<string>, file: int, rank: int, o: Offset)
    requires OnLine(ray, file, rank, o)
    ensures forall s :: s in ray ==> IsSquareName(s)
    decreases |ray|
  {
    if ray != [] {
      LineNames(ray[1..], file + o.df, rank + o.dr, o);
      assert forall s :: s in ray ==> s == ray[0] || s in ray[1..];
    }
  }

  /** A ray walks along one line of squares from the slider's square. */
  lemma {:induction false} RayLine(file: int, rank: int, o: Offset, color: string, board: Board)
    requires IsDirection(o) && Readable(board)
    ensures OnLine(Ray(file, rank, o, color, board), file, rank, o)
    decreases Remaining(file, rank, o)
  {
    var f, r := file + o.df, rank + o.dr;
    var ray := Ray(file, rank, o, color, board);
    if !OnBoard(f, r) {
      RayOff(file, rank, o, color, board);
    } else {
      var s := SquareName(f, r);
      if Vacant(board, s) {
        RayVacant(file, rank, o, color, board, s);
        RayLine(f, r, o, color, board);
        LineCons(ray, Ray(f, r, o, color, board), file, rank, o);
      } else {
        RayBlocked(file, rank, o, color, board, s);
        if ray != [] {
          LineCons(ray, [], file, rank, o);
        }
      }
    }
  }

  /**
   * Every square of a ray but the last is vacant, and the mover may land
   * on each: a slider never passes an occupied square.
   */
  lemma {:induction false} RayStops(file: int, rank: int, o: Offset, color: string, board: Board)
    requires IsDirection(o) && Readable(board)
    ensures forall j :: 0 <= j < |Ray(file, rank, o, color, board)| - 1 ==> Vacant(board, Ray(file, rank, o, color, board)[j])
    ensures forall s :: s in Ray(file, rank, o, color, board) ==> Admits(board, s, color)
    decreases Remaining(file, rank, o)
  {
    var f, r := file + o.df, rank + o.dr;
    if !OnBoard(f, r) {
      RayOff(file, rank, o, color, board);
    } else if Vacant(board, SquareName(f, r)) {
      RayVacant(file, rank, o, color, board, SquareName(f, r));
      RayStops(f, r, o, color, board);
      var ray, rest := Ray(file, rank, o, color, board), Ray(f, r, o, color, board);
      forall j | 0 < j < |ray| - 1
        ensures Vacant(board, ray[j])
      {
        assert ray[j] == rest[j - 1];
      }
    } else {
      RayBlocked(file, rank, o, color, board, SquareName(f, r));
    }
  }

  /** A slider target is a square a1..h8 the mover may land on. */
  lemma {:induction false} RaysSound(file: int, rank: int, offsets: seq<Offset>, color: string, board: Board)
    requires AreDirections(offsets) && Readable(board)
    ensures forall s :: s in Rays(file, rank, offsets, color, board) ==> IsSquareName(s) && Admits(board, s, color)
  {
    if offsets != [] {
      var o := offsets[|offsets| - 1];
      RaysSound(file, rank, offsets[..|offsets| - 1], color, board);
      RayLine(file, rank, o, color, board);
      RayStops(file, rank, o, color, board);
      LineNames(Ray(file, rank, o, color, board), file, rank, o);
    }
  }

  /**
   * The inner loop of the slider generators: steps from (file, rank) in
   * direction `dir`, appending to `allowed` until it leaves the board or
   * meets a piece.
   */
  method Slide(squareFile: int, squareRank: int, dir: Offset, pieceColor: string, board: Board, allowed: seq<string>)
    returns (extended: seq<string>)
    requires IsDirection(dir) && Readable(board)
    ensures extended == allowed + Ray(squareFile, squareRank, dir, pieceColor, board)
  {
    extended := allowed;
    var curFileIdx, curRank := squareFile, squareRank;
    while true
      invariant extended + Ray(curFileIdx, curRank, dir, pieceColor, board)
        == allowed + Ray(squareFile, squareRank, dir, pieceColor, board)
      decreases Remaining(curFileIdx, curRank, dir)
    {
      ghost var lastFile, lastRank, was := curFileIdx, curRank, extended;
      curFileIdx, curRank := curFileIdx + dir.df, curRank + dir.dr;
      if curFileIdx < 0 || curFileIdx >= 8 || curRank < 1 || curRank > 8 {
        RayOff(lastFile, lastRank, dir, pieceColor, board);
        break;
      }
      var newSquare := SquareName(curFileIdx, curRank);
      if newSquare !in board || board[newSquare] == Empty {
        RayVacant(lastFile, lastRank, dir, pieceColor, board, newSquare);
        extended := extended + [newSquare];
        assert was + ([newSquare] + Ray(curFileIdx, curRank, dir, pieceColor, board))
          == extended + Ray(curFileIdx, curRank, dir, pieceColor, board);
      } else {
        RayBlocked(lastFile, lastRank, dir, pieceColor, board, newSquare);
        var newPieceColor := board[newSquare][..1];
        if newPieceColor != pieceColor {
          extended := extended + [newSquare];
        }
        break;
      }
    }
  }

  /** The shared body of the three slider generators: one slide per direction, in the table's order. */
  method RayTargets(square: string, pieceColor: string, board: Board, directions: seq<Offset>)
    returns (allowed: seq<string>)
    requires |square| >= 2 && Readable(board) && AreDirections(directions)
    ensures allowed == Rays(FileIndex(square), RankNumber(square), directions, pieceColor, board)
  {
    allowed := [];
    var squareFile, squareRank := FileIndex(square), RankNumber(square);
    for i := 0 to |directions|
      invariant allowed == Rays(squareFile, squareRank, directions[..i], pieceColor, board)
    {
      assert directions[..i + 1][..i] == directions[..i];
      allowed := Slide(squareFile, squareRank, directions[i], pieceColor, board, allowed);
    }
    assert directions[..|directions|] == directions;
  }

  /** `GetAllowedMovesBishop`: the four diagonal rays. */
  method GetAllowedMovesBishop(square: string, pieceColor: string, board: Board) returns (allowed: seq<string>)
    requires |square| >= 2 && Readable(board)
    ensures allowed == Rays(FileIndex(square), RankNumber(square), BishopOffsets, pieceColor, board)
  {
    allowed := RayTargets(square, pieceColor, board, BishopOffsets);
  }

  /** `GetAllowedMovesRook`: the four orthogonal rays. */
  method GetAllowedMovesRook(square: string, pieceColor: string, board: Board) returns (allowed: seq<string>)
    requires |square| >= 2 && Readable(board)
    ensures allowed == Rays(FileIndex(square), RankNumber(square), RookOffsets, pieceColor, board)
  {
    allowed := RayTargets(square, pieceColor, board, RookOffsets);
  }

  /** `GetAllowedMovesQueen`: the rook's four rays, then the bishop's four. */
  method GetAllowedMovesQueen(square: string, pieceColor: string, board: Board) returns (allowed: seq<string>)
    requires |square| >= 2 && Readable(board)
    ensures allowed == Rays(FileIndex(square), RankNumber(square), QueenOffsets, pieceColor, board)
  {
    allowed := RayTargets(square, pieceColor, board, QueenOffsets);
  }

  // ---------------------------------------------------------------------
  // Pawn.
  // ---------------------------------------------------------------------

  /** The rank step of a pawn: up for "w", down for any other colour. */
  function Direction(pieceColor: string): int
  {
    if pieceColor == "w" then 1 else -1
  }

  /** The rank from which a pawn may step two squares: 2 for "w", 7 for any other colour. */
  function StartRank(pieceColor: string): int
  {
    if pieceColor == "w" then 2 else 7
  }

  /** The square straight ahead of a pawn, `steps` ranks in its direction. */
  function Ahead(square: string, pieceColor: string, steps: int): string
    requires |square| >= 2
  {
    Format(BitboardUtils.ByteOf(square[0]) as char, RankNumber(square) + steps * Direction(pieceColor))
  }

  /** The square diagonally ahead of a pawn, the file moved by `offset` in byte arithmetic. */
  function DiagonalSquare(square: string, pieceColor: string, offset: int): string
    requires |square| >= 2
  {
    Format(((BitboardUtils.ByteOf(square[0]) + offset) % 256) as char, RankNumber(square) + Direction(pieceColor))
  }

  /** A square holding a piece whose colour letter differs from the pawn's. */
  predicate Capturable(board: Board, s: string, color: string)
    requires Readable(board)
  {
    s in board && board[s] != Empty && board[s][..1] != color
  }

  /** The diagonal captures for a table of file offsets, in the table's order. */
  function Captures(square: string, pieceColor: string, offsets: seq<int>, board: Board): seq<string>
    requires |square| >= 2 && Readable(board)
  {
    if offsets == [] then []
    else
      var s := DiagonalSquare(square, pieceColor, offsets[|offsets| - 1]);
      Captures(square, pieceColor, offsets[..|offsets| - 1], board) + (if Capturable(board, s, pieceColor) then [s] else [])
  }

  /**
   * The pawn's targets: one step ahead when that square is vacant, two
   * steps ahead from the start rank when the far square is vacant (the
   * near one is not consulted), then the captures to the left and right.
   */
  function PawnTargets(square: string, pieceColor: string, board: Board): seq<string>
    requires |square| >= 2 && Readable(board)
  {
    Forward(square, pieceColor, board) + Captures(square, pieceColor, [-1, 1], board)
  }

  /** The pawn's steps straight ahead, the first part of its targets. */
  function Forward(square: string, pieceColor: string, board: Board): seq<string>
    requires |square| >= 2
  {
    var front, two := Ahead(square, pieceColor, 1), Ahead(square, pieceColor, 2);
    (if Vacant(board, front) then [front] else [])
    + (if RankNumber(square) == StartRank(pieceColor) && Vacant(board, two) then [two] else [])
  }

  /** `GetAllowedMovesPawn`. */
  method GetAllowedMovesPawn(square: string, pieceColor: string, board: Board) returns (allowed: seq<string>)
    requires |square| >= 2 && Readable(board)
    ensures allowed == PawnTargets(square, pieceColor, board)
  {
    allowed := [];
    var direction, startRank;
    if pieceColor == "w" {
      direction, startRank := 1, 2;
    } else {
      direction, startRank := -1, 7;
    }
    var squareFile := BitboardUtils.ByteOf(square[0]);
    var squareRank := RankNumber(square);

    assert direction == Direction(pieceColor) && startRank == StartRank(pieceColor);
    var frontSquare := Format(squareFile as char, squareRank + direction);
    assert frontSquare == Ahead(square, pieceColor, 1);
    if frontSquare !in board || board[frontSquare] == Empty {
      allowed := allowed + [frontSquare];
    }

    if squareRank == startRank {
      var frontTwoSquares := Format(squareFile as char, squareRank + 2 * direction);
      assert frontTwoSquares == Ahead(square, pieceColor, 2);
      if frontTwoSquares !in board || board[frontTwoSquares] == Empty {
        allowed := allowed + [frontTwoSquares];
      }
    }

    assert allowed == Forward(square, pieceColor, board);
    allowed := AddCaptures(square, pieceColor, board, allowed);
  }

  /** The capture loop of `GetAllowedMovesPawn`, over the file offsets -1 and 1. */
  method AddCaptures(square: string, pieceColor: string, board: Board, forward: seq<string>)
    returns (allowed: seq<string>)
    requires |square| >= 2 && Readable(board)
    ensures allowed == forward + Captures(square, pieceColor, [-1, 1], board)
  {
    allowed := forward;
    var offsets := [-1, 1];
    for k := 0 to |offsets|
      invariant allowed == forward + Captures(square, pieceColor, offsets[..k], board)
    {
      CapturesNext(square, pieceColor, offsets, k, board);
      var capture := DiagonalCapture(square, pieceColor, board, offsets[k]);
      allowed := allowed + capture;
    }
    assert offsets[..|offsets|] == offsets;
  }

  /** One pass of the capture loop: the diagonal square, when it holds a piece of the other colour. */
  method DiagonalCapture(square: string, pieceColor: string, board: Board, offset: int)
    returns (capture: seq<string>)
    requires |square| >= 2 && Readable(board)
    ensures capture == (if Capturable(board, DiagonalSquare(square, pieceColor, offset), pieceColor)
                        then [DiagonalSquare(square, pieceColor, offset)] else [])
  {
    var squareFile, squareRank := BitboardUtils.ByteOf(square[0]), RankNumber(square);
    var direction := if pieceColor == "w" then 1 else -1;
    var newFile := (squareFile + offset) % 256;
    var diagonalSquare := Format(newFile as char, squareRank + direction);
    assert diagonalSquare == DiagonalSquare(square, pieceColor, offset);
    capture := [];
    if diagonalSquare in board && board[diagonalSquare] != Empty {
      var diagonalPieceColor := board[diagonalSquare][..1];
      if diagonalPieceColor != pieceColor {
        capture := [diagonalSquare];
      }
    }
  }

  /** One more offset of the capture loop adds that offset's capture, if any. */
  lemma CapturesNext(square: string, pieceColor: string, offsets: seq<int>, k: nat, board: Board)
    requires |square| >= 2 && Readable(board) && k < |offsets|
    ensures Captures(square, pieceColor, offsets[..k + 1], board) == Captures(square, pieceColor, offsets[..k], board)
      + (if Capturable(board, DiagonalSquare(square, pieceColor, offsets[k]), pieceColor)
         then [DiagonalSquare(square, pieceColor, offsets[k])] else [])
  {
    assert offsets[..k + 1][..k] == offsets[..k];
  }

  /** A pawn on a square a1..h8 looks at ranks 0..9 only, each printed as one digit. */
  lemma AheadName(square: string, pieceColor: string, steps: int)
    requires IsSquareName(square) && 0 <= steps <= 2
    requires steps == 2 ==> RankNumber(square) == StartRank(pieceColor)
    ensures Ahead(square, pieceColor, steps) == [square[0], ('0' as int + RankNumber(square) + steps * Direction(pieceColor)) as char]
  {
    assert BitboardUtils.ByteOf(square[1]) == square[1] as int;
    assert BitboardUtils.ByteOf(square[0]) == square[0] as int;
  }

  /** A diagonal square's file letter differs from the pawn's own. */
  lemma DiagonalFile(square: string, pieceColor: string, offset: int)
    requires IsSquareName(square) && (offset == -1 || offset == 1)
    ensures DiagonalSquare(square, pieceColor, offset)[0] != square[0]
  {
    assert BitboardUtils.ByteOf(square[0]) == square[0] as int;
  }

  /** Every capture target holds a piece of the other colour and lies on a diagonal of the pawn. */
  lemma {:induction false} CapturesSound(square: string, pieceColor: string, offsets: seq<int>, board: Board)
    requires |square| >= 2 && Readable(board)
    ensures forall s :: s in Captures(square, pieceColor, offsets, board) ==>
      Capturable(board, s, pieceColor) && exists k :: 0 <= k < |offsets| && s == DiagonalSquare(square, pieceColor, offsets[k])
  {
    if offsets != [] {
      var init := offsets[..|offsets| - 1];
      CapturesSound(square, pieceColor, init, board);
      forall s | s in Captures(square, pieceColor, offsets, board)
        ensures exists k :: 0 <= k < |offsets| && s == DiagonalSquare(square, pieceColor, offsets[k])
      {
        if s in Captures(square, pieceColor, init, board) {
          var k :| 0 <= k < |init| && s == DiagonalSquare(square, pieceColor, init[k]);
          assert offsets[k] == init[k];
        } else {
          assert s == DiagonalSquare(square, pieceColor, offsets[|offsets| - 1]);
        }
      }
    }
  }

  /**
   * For a pawn on a1..h8: the square ahead is listed exactly when it is
   * vacant; the square two ahead exactly when the pawn is on its start rank
   * and that far square is vacant; every other target is a diagonal
   * capture of a piece of the other colour.
   */
  lemma PawnTargetsMeaning(square: string, pieceColor: string, board: Board)
    requires IsSquareName(square) && Readable(board)
    ensures Ahead(square, pieceColor, 1) in PawnTargets(square, pieceColor, board)
      <==> Vacant(board, Ahead(square, pieceColor, 1))
    ensures Ahead(square, pieceColor, 2) in PawnTargets(square, pieceColor, board)
      <==> RankNumber(square) == StartRank(pieceColor) && Vacant(board, Ahead(square, pieceColor, 2))
    ensures forall s :: (s in PawnTargets(square, pieceColor, board)
      && s != Ahead(square, pieceColor, 1) && s != Ahead(square, pieceColor, 2)) ==> Capturable(board, s, pieceColor)
  {
    var front, two := Ahead(square, pieceColor, 1), Ahead(square, pieceColor, 2);
    var caps := Captures(square, pieceColor, [-1, 1], board);
    CapturesSound(square, pieceColor, [-1, 1], board);
    DiagonalFile(square, pieceColor, -1);
    DiagonalFile(square, pieceColor, 1);
    AheadName(square, pieceColor, 1);
    assert front[0] == square[0];
    assert front !in caps;
    if RankNumber(square) == StartRank(pieceColor) {
      AheadName(square, pieceColor, 2);
      assert two != front by { assert two[1] != front[1]; }
      assert two !in caps;
    } else {
      AheadDistinct(square, pieceColor);
      assert two !in caps by {
        forall s | s in caps ensures s != two {
          assert Format(BitboardUtils.ByteOf(square[0]) as char, RankNumber(square) + 2 * Direction(pieceColor))[0] == square[0] by {
            assert BitboardUtils.ByteOf(square[0]) == square[0] as int;
          }
        }
      }
    }
  }

  /** From a square a1..h8 the squares one and two ahead have different names. */
  lemma AheadDistinct(square: string, pieceColor: string)
    requires IsSquareName(square)
    ensures Ahead(square, pieceColor, 2) != Ahead(square, pieceColor, 1)
  {
    AheadName(square, pieceColor, 1);
    var n := RankNumber(square) + 2 * Direction(pieceColor);
    if 0 <= n <= 9 {
      assert Ahead(square, pieceColor, 2)[1] == ('0' as int + n) as char;
    } else {
      assert |Decimal(n)| == 2;
    }
  }

  // ---------------------------------------------------------------------
  // The table of all pieces.
  // ---------------------------------------------------------------------

  /** The type letters `GetAllowedMoves` generates moves for. */
  predicate IsPieceType(t: char)
  {
    t in "RBQKNP"
  }

  /** Squares and codes the loop of `GetAllowedMoves` can slice without panicking. */
  predicate Sliceable(board: Board)
  {
    forall sq :: sq in board ==> |sq| >= 2 && |board[sq]| >= 2
  }

  /** The generator `GetAllowedMoves` runs for the piece on `square`, chosen by its type letter. */
  function PieceMoves(square: string, board: Board): seq<string>
    requires square in board && Sliceable(board) && IsPieceType(board[square][1])
  {
    var code := board[square];
    var color := code[..1];
    match code[1]
    case 'R' => Rays(FileIndex(square), RankNumber(square), RookOffsets, color, board)
    case 'B' => Rays(FileIndex(square), RankNumber(square), BishopOffsets, color, board)
    case 'Q' => Rays(FileIndex(square), RankNumber(square), QueenOffsets, color, board)
    case 'K' => Leaps(FileIndex(square), RankNumber(square), KingOffsets, color, board)
    case 'N' => Leaps(FileIndex(square), RankNumber(square), KnightOffsets, color, board)
    case 'P' => PawnTargets(square, color, board)
  }

  /** The table entry of `code` is the moves of some square holding it. */
  predicate EntryFrom(board: Board, code: string, moves: seq<string>)
    requires Sliceable(board)
  {
    exists sq :: sq in board && board[sq] == code && IsPieceType(code[1]) && moves == PieceMoves(sq, board)
  }

  /**
   * The loop of `GetAllowedMoves` over a board: visiting the squares in
   * Go's unspecified map order, it keys each piece of a known type by its
   * full code. When one code stands on several squares the last visited
   * wins, so an entry is the moves of SOME square holding that code.
   */
  method AllowedMovesOn(board: Board) returns (allowedMoves: map<string, seq<string>>)
    requires Sliceable(board)
    ensures forall code :: code in allowedMoves ==> EntryFrom(board, code, allowedMoves[code])
    ensures forall sq :: sq in board && IsPieceType(board[sq][1]) ==> board[sq] in allowedMoves
    ensures forall code :: code in allowedMoves ==> code in board.Values
  {
    allowedMoves := map[];
    var rest := board.Keys;
    while rest != {}
      invariant rest <= board.Keys
      invariant forall code :: code in allowedMoves ==> EntryFrom(board, code, allowedMoves[code])
      invariant forall code :: code in allowedMoves ==> code in board.Values
      invariant forall sq :: sq in board && sq !in rest && IsPieceType(board[sq][1]) ==> board[sq] in allowedMoves
      decreases |rest|
    {
      var square :| square in rest;
      rest := rest - {square};
      var pieceCode := board[square];
      var pieceColor, pieceType := pieceCode[..1], pieceCode[1];
      if IsPieceType(pieceType) {
        var moves;
        if pieceType == 'R' {
          moves := GetAllowedMovesRook(square, pieceColor, board);
        } else if pieceType == 'B' {
          moves := GetAllowedMovesBishop(square, pieceColor, board);
        } else if pieceType == 'Q' {
          moves := GetAllowedMovesQueen(square, pieceColor, board);
        } else if pieceType == 'K' {
          moves := GetAllowedMovesKing(square, pieceColor, board);
        } else if pieceType == 'N' {
          moves := GetAllowedMovesKnight(square, pieceColor, board);
        } else {
          moves := GetAllowedMovesPawn(square, pieceColor, board);
        }
        assert moves == PieceMoves(square, board);
        allowedMoves := allowedMoves[pieceCode := moves];
      }
    }
  }

  /**
   * `GetAllowedMoves`: the board it ranges over is declared but never
   * filled (its unmarshalling is commented out), so the loop sees no
   * square and the table is always empty.
   */
  method GetAllowedMoves() returns (allowedMoves: map<string, seq<string>>)
    ensures allowedMoves == map[]
  {
    var board: Board := map[];
    allowedMoves := AllowedMovesOn(board);
    assert allowedMoves.Keys == {};
  }
}
