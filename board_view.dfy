/**
 * The client's board view (app/static/js/board.js) with the DOM abstracted
 * to state: the squares drawn by the last render, in document order; the
 * pieces still shown on them; the highlighted squares; the selection; and
 * the log of moves handed to `sendMove`. A square element is identified by
 * its position in document order and a piece element by the render that
 * drew it and its square, so a piece from an earlier render is never
 * "the same piece" as one drawn later.
 */
module BoardView {
  import opened Wrappers

  /** The `data-file` and `data-rank` of a square element. */
  datatype Square = Square(file: char, rank: char)

  /** A piece element: the render that drew it, its square's position in document order, its `data-code`. */
  datatype PieceRef = PieceRef(generation: nat, index: nat, code: string)

  /** A call `sendMove(pieceCode, from, to)`. */
  datatype SentMove = SentMove(pieceCode: string, source: string, target: string)

  /** The JSON a drag carries: the dragged piece's code and its square. */
  datatype DragData = DragData(pieceCode: string, from: Square)

  /** The piece code of an empty square. */
  const Empty: string := "---"

  /** `file + rank`: the square's name as `sendMove` receives it. */
  function Name(s: Square): string
  {
    [s.file, s.rank]
  }

  /* ---------- Reversal and the flip step ---------- */

  /** A sequence in reverse order. */
  function Reverse<T>(s: seq<T>): seq<T>
  {
    if |s| == 0 then [] else Reverse(s[1..]) + [s[0]]
  }

  /** Reversal mirrors indices: element `k` comes from position `|s| - 1 - k`. */
  lemma {:induction false} ReverseIndex<T>(s: seq<T>)
    ensures |Reverse(s)| == |s|
    ensures forall k :: 0 <= k < |s| ==> Reverse(s)[k] == s[|s| - 1 - k]
  {
    if |s| > 0 {
      ReverseIndex(s[1..]);
    }
  }

  /** Reversing twice gives the sequence back. */
  lemma ReverseReverse<T>(s: seq<T>)
    ensures Reverse(Reverse(s)) == s
  {
    ReverseIndex(s);
    ReverseIndex(Reverse(s));
  }

  /** Reversal turns a concatenation around. */
  lemma {:induction false} ReverseAppend<T>(a: seq<T>, b: seq<T>)
    ensures Reverse(a + b) == Reverse(b) + Reverse(a)
  {
    if |a| == 0 {
      assert a + b == b;
    } else {
      assert (a + b)[1..] == a[1..] + b;
      ReverseAppend(a[1..], b);
    }
  }

  /** Reversal keeps the elements. */
  lemma ReverseMembers<T>(s: seq<T>, x: T)
    ensures x in Reverse(s) <==> x in s
  {
    ReverseIndex(s);
    if x in s {
      var k :| 0 <= k < |s| && s[k] == x;
      assert Reverse(s)[|s| - 1 - k] == x;
    }
  }

  /** The rows one after another: the order in which `renderChessBoard` appends the squares. */
  function Flatten<T>(rows: seq<seq<T>>): seq<T>
  {
    if |rows| == 0 then [] else rows[0] + Flatten(rows[1..])
  }

  lemma {:induction false} FlattenSnoc<T>(rows: seq<seq<T>>, r: seq<T>)
    ensures Flatten(rows + [r]) == Flatten(rows) + r
  {
    if |rows| == 0 {
      assert rows + [r] == [r];
      assert Flatten([r][1..]) == [];
    } else {
      assert (rows + [r])[1..] == rows[1..] + [r];
      FlattenSnoc(rows[1..], r);
    }
  }

  /** Every row reversed, the row order kept. */
  function RowsReversed(rows: seq<seq<string>>): seq<seq<string>>
  {
    seq(|rows|, i requires 0 <= i < |rows| => Reverse(rows[i]))
  }

  /** The flip step: each row reversed, then the order of the rows reversed. */
  function Flipped(rows: seq<seq<string>>): seq<seq<string>>
  {
    Reverse(RowsReversed(rows))
  }

  /** Flipping twice restores the layout. */
  lemma FlipTwice(rows: seq<seq<string>>)
    ensures Flipped(Flipped(rows)) == rows
  {
    var n := |rows|;
    ReverseIndex(RowsReversed(rows));
    var once := Flipped(rows);
    ReverseIndex(RowsReversed(once));
    forall i | 0 <= i < n
      ensures Flipped(once)[i] == rows[i]
    {
      assert once[n - 1 - i] == Reverse(rows[i]);
      ReverseReverse(rows[i]);
    }
  }

  /** A flipped layout is drawn in exactly the reverse order: the board turned through 180 degrees. */
  lemma {:induction false} FlattenFlipped(rows: seq<seq<string>>)
    ensures Flatten(Flipped(rows)) == Reverse(Flatten(rows))
  {
    if |rows| > 0 {
      var t := rows[1..];
      assert RowsReversed(rows) == [Reverse(rows[0])] + RowsReversed(t);
      assert RowsReversed(rows)[1..] == RowsReversed(t);
      assert Flipped(rows) == Flipped(t) + [Reverse(rows[0])];
      FlattenSnoc(Flipped(t), Reverse(rows[0]));
      FlattenFlipped(t);
      ReverseAppend(rows[0], Flatten(t));
    }
  }

  /** `Array.prototype.reverse`: swaps the ends pairwise, in place. */
  method ReverseInPlace<T>(a: array<T>)
    modifies a
    ensures a[..] == Reverse(old(a[..]))
  {
    ghost var s := a[..];
    var n := a.Length;
    for i := 0 to n / 2
      invariant forall k :: 0 <= k < i ==> a[k] == s[n - 1 - k] && a[n - 1 - k] == s[k]
      invariant forall k :: i <= k < n - i ==> a[k] == s[k]
    {
      a[i], a[n - 1 - i] := a[n - 1 - i], a[i];
    }
    ReverseIndex(s);
  }

  /** The contents of a layout held as one array per row. */
  function Contents(rows: seq<array<string>>): (c: seq<seq<string>>)
    reads set r | r in rows
    ensures |c| == |rows|
    ensures forall i :: 0 <= i < |rows| ==> c[i] == rows[i][..]
  {
    if |rows| == 0 then [] else [rows[0][..]] + Contents(rows[1..])
  }

  /** The contents of the row arrays in reverse order are the contents in reverse order. */
  lemma ContentsReversed(rows: seq<array<string>>)
    ensures Contents(Reverse(rows)) == Reverse(Contents(rows))
  {
    ReverseIndex(rows);
    ReverseIndex(Contents(rows));
  }

  /** Rows that are each the reverse of the rows before are the rows reversed. */
  lemma RowsReversedIs(before: seq<seq<string>>, after: seq<seq<string>>)
    requires |after| == |before|
    requires forall i :: 0 <= i < |before| ==> after[i] == Reverse(before[i])
    ensures after == RowsReversed(before)
  {
  }

  /** No row array appears twice. */
  predicate DistinctRows(rows: seq<array<string>>)
  {
    forall i, j :: 0 <= i < j < |rows| ==> rows[i] != rows[j]
  }

  /**
   * `boardLayout.map(row => row.reverse()).reverse()`: every row array of
   * the caller is reversed in place, and the result holds the same row
   * arrays in reverse order.
   */
  method FlipLayout(rows: seq<array<string>>) returns (flipped: seq<array<string>>)
    requires DistinctRows(rows)
    modifies set r | r in rows
    ensures flipped == Reverse(rows)
    ensures forall i :: 0 <= i < |rows| ==> rows[i][..] == Reverse(old(rows[i][..]))
  {
    for i := 0 to |rows|
      invariant forall k :: 0 <= k < i ==> rows[k][..] == Reverse(old(rows[k][..]))
      invariant forall k :: i <= k < |rows| ==> rows[k][..] == old(rows[k][..])
    {
      ReverseInPlace(rows[i]);
    }
    var mapped := new array<string>[|rows|](i requires 0 <= i < |rows| => rows[i]);
    assert mapped[..] == rows;
    ReverseInPlace(mapped);
    flipped := mapped[..];
  }

  /* ---------- Looking squares up ---------- */

  /** `document.querySelector` on file and rank: the first square element, in document order, that matches. */
  function Find(order: seq<Square>, s: Square): (r: Option<nat>)
    ensures r.Some? ==> r.value < |order| && order[r.value] == s && s !in order[..r.value]
    ensures r.None? ==> s !in order
  {
    if |order| == 0 then None
    else if order[0] == s then Some(0)
    else match Find(order[1..], s)
      case None => None
      case Some(i) =>
        assert order[..i + 1] == [order[0]] + order[1..][..i];
        Some(i + 1)
  }

  /** `Find` answers the first position holding the square. */
  lemma FindFirst(order: seq<Square>, s: Square, i: nat)
    requires i < |order| && order[i] == s && s !in order[..i]
    ensures Find(order, s) == Some(i)
  {
    assert s in order;
  }

  /** The square a move string names by its first two characters, when one is drawn. */
  function TargetOf(order: seq<Square>, move: string): set<nat>
  {
    if |move| < 2 then {}
    else match Find(order, Square(move[0], move[1]))
      case None => {}
      case Some(i) => {i}
  }

  /** The squares `highlightAllowedMoves` marks for a list of moves. */
  function Highlights(order: seq<Square>, moves: seq<string>): set<nat>
  {
    if |moves| == 0 then {}
    else Highlights(order, moves[..|moves| - 1]) + TargetOf(order, moves[|moves| - 1])
  }

  /** The squares marked for a piece code: none when the table has no entry for it. */
  function PieceHighlights(order: seq<Square>, allowedMoves: map<string, seq<string>>, code: string): set<nat>
  {
    if code in allowedMoves then Highlights(order, allowedMoves[code]) else {}
  }

  /**
   * A square is highlighted exactly when some listed move names its file and
   * rank and it is the first drawn square with that file and rank.
   */
  lemma {:induction false} HighlightsMeaning(order: seq<Square>, moves: seq<string>, i: nat)
    ensures i in Highlights(order, moves) <==>
      i < |order| && order[i] !in order[..i] &&
      exists m :: m in moves && |m| >= 2 && Square(m[0], m[1]) == order[i]
  {
    if |moves| > 0 {
      var init := moves[..|moves| - 1];
      var last := moves[|moves| - 1];
      HighlightsMeaning(order, init, i);
      assert moves == init + [last];
      if i in TargetOf(order, last) {
        assert last in moves;
      }
      if i < |order| && order[i] !in order[..i] {
        var s := order[i];
        if exists m :: m in moves && |m| >= 2 && Square(m[0], m[1]) == s {
          var m :| m in moves && |m| >= 2 && Square(m[0], m[1]) == s;
          if m !in init {
            assert m == last;
            FindFirst(order, s, i);
          }
        }
      }
    }
  }

  /** Marked squares are drawn squares. */
  lemma {:induction false} HighlightsDrawn(order: seq<Square>, moves: seq<string>)
    ensures forall i :: i in Highlights(order, moves) ==> i < |order|
  {
    if |moves| > 0 {
      HighlightsDrawn(order, moves[..|moves| - 1]);
    }
  }

  /** An entry-less piece, or an empty list, marks nothing. */
  lemma NoEntryNoHighlights(order: seq<Square>, allowedMoves: map<string, seq<string>>, code: string)
    requires code !in allowedMoves || allowedMoves[code] == []
    ensures PieceHighlights(order, allowedMoves, code) == {}
  {
  }

  /* ---------- Rendering ---------- */

  /** A layout key `renderChessBoard` can draw: it has a file and a rank, and the board gives it a colour and a piece. */
  predicate Drawable(board: map<string, seq<string>>, key: string)
  {
    |key| >= 2 && key in board && |board[key]| >= 2
  }

  /** Every key of the list can be drawn. */
  predicate AllDrawable(board: map<string, seq<string>>, keys: seq<string>)
  {
    forall i :: 0 <= i < |keys| ==> Drawable(board, keys[i])
  }

  /** The square elements drawn for a list of keys, in order. */
  function SquaresOf(board: map<string, seq<string>>, keys: seq<string>): (order: seq<Square>)
    requires AllDrawable(board, keys)
    ensures |order| == |keys|
  {
    if |keys| == 0 then [] else SquaresOf(board, keys[..|keys| - 1]) + [Square(keys[|keys| - 1][0], keys[|keys| - 1][1])]
  }

  /** The pieces drawn for a list of keys: every position whose board entry is not "---". */
  function PiecesOf(board: map<string, seq<string>>, keys: seq<string>): map<nat, string>
    requires AllDrawable(board, keys)
  {
    map i: nat | i < |keys| && board[keys[i]][1] != Empty :: board[keys[i]][1]
  }

  /** Position `i` of the drawn squares carries the file and rank of key `i`. */
  lemma {:induction false} SquaresOfAt(board: map<string, seq<string>>, keys: seq<string>, i: nat)
    requires AllDrawable(board, keys)
    requires i < |keys|
    ensures SquaresOf(board, keys)[i] == Square(keys[i][0], keys[i][1])
  {
    if i < |keys| - 1 {
      var init := keys[..|keys| - 1];
      assert init[i] == keys[i];
      SquaresOfAt(board, init, i);
    }
  }

  /** The orientation a render draws: flipped or as sent. */
  function Oriented(flip: bool, rows: seq<seq<string>>): seq<seq<string>>
  {
    if flip then Flipped(rows) else rows
  }

  /** Flipping keeps the set of keys drawn, so it never changes whether a layout can be drawn. */
  lemma OrientedKeys(flip: bool, rows: seq<seq<string>>, key: string)
    ensures key in Flatten(Oriented(flip, rows)) <==> key in Flatten(rows)
  {
    if flip {
      FlattenFlipped(rows);
      ReverseMembers(Flatten(rows), key);
    }
  }

  /* ---------- The view ---------- */

  class View {
    /** `allowedMoves`: the table of the last render, piece code to move strings. */
    var allowedMoves: map<string, seq<string>>
    var selectedPiece: Option<PieceRef>
    var selectedSquare: Option<Square>
    /** `flip`: starts false and no handler sets it. */
    var flip: bool
    /** How many renders there have been. */
    var generation: nat
    /** The square elements of the last render, in document order. */
    var order: seq<Square>
    /** The squares that still show a piece, by position, with its code. */
    var pieces: map<nat, string>
    var highlighted: set<nat>
    /** The calls made to `sendMove`, oldest first. */
    var sent: seq<SentMove>

    /**
     * The state the handlers keep: highlights and pieces sit on drawn
     * squares, the two selection fields are set together, and nothing is
     * highlighted while nothing is selected.
     */
    ghost predicate Valid()
      reads this
    {
      (forall i :: i in highlighted ==> i < |order|) &&
      (forall i :: i in pieces ==> i < |order|) &&
      (selectedPiece.Some? <==> selectedSquare.Some?) &&
      (selectedPiece.None? ==> highlighted == {})
    }

    /** The page as loaded, before the first render. */
    constructor()
      ensures Valid()
      ensures allowedMoves == map[] && selectedPiece.None? && selectedSquare.None? && !flip
      ensures generation == 0 && order == [] && pieces == map[] && highlighted == {} && sent == []
    {
      allowedMoves := map[];
      selectedPiece := None;
      selectedSquare := None;
      flip := false;
      generation := 0;
      order := [];
      pieces := map[];
      highlighted := {};
      sent := [];
    }

    /** A piece element of the current render that is still on the board. */
    predicate Shown(piece: PieceRef)
      reads this
    {
      piece.generation == generation && piece.index in pieces && pieces[piece.index] == piece.code
    }

    /**
     * `renderChessBoard`: clears the board, stores the table, flips the
     * layout when `flip` is set (reversing the caller's row arrays in
     * place), and draws one square per key in row order.
     */
    method Render(board: map<string, seq<string>>, boardLayout: seq<array<string>>, allowedMovesData: map<string, seq<string>>)
      requires Valid()
      requires DistinctRows(boardLayout)
      requires forall k :: k in Flatten(Contents(boardLayout)) ==> Drawable(board, k)
      modifies this, set r | r in boardLayout
      ensures Valid()
      ensures allowedMoves == allowedMovesData
      ensures AllDrawable(board, old(Flatten(Oriented(flip, Contents(boardLayout)))))
      ensures order == SquaresOf(board, old(Flatten(Oriented(flip, Contents(boardLayout)))))
      ensures pieces == PiecesOf(board, old(Flatten(Oriented(flip, Contents(boardLayout)))))
      ensures highlighted == {} && generation == old(generation) + 1
      ensures selectedPiece == old(selectedPiece) && selectedSquare == old(selectedSquare)
      ensures flip == old(flip) && sent == old(sent)
      ensures flip ==> forall i :: 0 <= i < |boardLayout| ==> boardLayout[i][..] == Reverse(old(boardLayout[i][..]))
      ensures !flip ==> forall i :: 0 <= i < |boardLayout| ==> boardLayout[i][..] == old(boardLayout[i][..])
    {
      ghost var before := Contents(boardLayout);
      ghost var drawn := Flatten(Oriented(flip, Contents(boardLayout)));
      var rows := OrientLayout(boardLayout);
      assert Flatten(rows) == drawn;
      forall k | k in Flatten(rows)
        ensures Drawable(board, k)
      {
        OrientedKeys(flip, before, k);
      }
      Redraw(board, rows, allowedMovesData);
    }

    /** `renderChessBoard` after the flip step: a cleared board, the new table, one square element per key. */
    method Redraw(board: map<string, seq<string>>, rows: seq<seq<string>>, allowedMovesData: map<string, seq<string>>)
      requires Valid()
      requires forall k :: k in Flatten(rows) ==> Drawable(board, k)
      modifies this
      ensures Valid()
      ensures allowedMoves == allowedMovesData
      ensures AllDrawable(board, Flatten(rows))
      ensures order == SquaresOf(board, Flatten(rows)) && pieces == PiecesOf(board, Flatten(rows))
      ensures highlighted == {} && generation == old(generation) + 1
      ensures selectedPiece == old(selectedPiece) && selectedSquare == old(selectedSquare)
      ensures flip == old(flip) && sent == old(sent)
    {
      generation := generation + 1;
      order := [];
      pieces := map[];
      highlighted := {};
      allowedMoves := allowedMovesData;
      Draw(board, rows);
    }

    /** The flip step of `renderChessBoard`: the rows to draw, the caller's row arrays reversed in place when `flip` is set. */
    method OrientLayout(boardLayout: seq<array<string>>) returns (rows: seq<seq<string>>)
      requires DistinctRows(boardLayout)
      modifies set r | r in boardLayout
      ensures rows == Oriented(flip, old(Contents(boardLayout)))
      ensures flip ==> forall i :: 0 <= i < |boardLayout| ==> boardLayout[i][..] == Reverse(old(boardLayout[i][..]))
      ensures !flip ==> forall i :: 0 <= i < |boardLayout| ==> boardLayout[i][..] == old(boardLayout[i][..])
    {
      ghost var before := Contents(boardLayout);
      if flip {
        var layout := FlipLayout(boardLayout);
        ghost var after := Contents(boardLayout);
        RowsReversedIs(before, after);
        ContentsReversed(boardLayout);
        rows := Contents(layout);
      } else {
        rows := Contents(boardLayout);
      }
    }

    /** The two nested `forEach` loops of `renderChessBoard`: one square element per key, a piece on it unless "---". */
    method Draw(board: map<string, seq<string>>, rows: seq<seq<string>>)
      requires forall k :: k in Flatten(rows) ==> Drawable(board, k)
      requires order == [] && pieces == map[]
      modifies this`order, this`pieces
      ensures AllDrawable(board, Flatten(rows))
      ensures order == SquaresOf(board, Flatten(rows))
      ensures pieces == PiecesOf(board, Flatten(rows))
    {
      ghost var keys: seq<string> := [];
      for i := 0 to |rows|
        invariant keys == Flatten(rows[..i])
        invariant AllDrawable(board, keys)
        invariant order == SquaresOf(board, keys)
        invariant pieces == PiecesOf(board, keys)
      {
        FlattenSnoc(rows[..i], rows[i]);
        assert rows[..i + 1] == rows[..i] + [rows[i]];
        FlattenPrefix(rows, i + 1);
        var row := rows[i];
        assert forall k :: k in row ==> k in Flatten(rows[..i + 1]);
        for j := 0 to |row|
          invariant keys == Flatten(rows[..i]) + row[..j]
          invariant AllDrawable(board, keys)
          invariant order == SquaresOf(board, keys)
          invariant pieces == PiecesOf(board, keys)
        {
          var squareKey := row[j];
          assert squareKey in row;
          DrawSquare(board, squareKey, keys);
          keys := keys + [squareKey];
          assert row[..j + 1] == row[..j] + [squareKey];
        }
        assert row[..|row|] == row;
      }
      assert rows[..|rows|] == rows;
    }

    /** One square element for `squareKey`, with a piece element on it unless its code is "---". */
    method DrawSquare(board: map<string, seq<string>>, squareKey: string, ghost keys: seq<string>)
      requires Drawable(board, squareKey) && AllDrawable(board, keys)
      requires order == SquaresOf(board, keys) && pieces == PiecesOf(board, keys)
      modifies this`order, this`pieces
      ensures AllDrawable(board, keys + [squareKey])
      ensures order == SquaresOf(board, keys + [squareKey]) && pieces == PiecesOf(board, keys + [squareKey])
    {
      var squareData := board[squareKey];
      var pieceCode := squareData[1];
      DrawStep(board, keys, squareKey);
      if pieceCode != Empty {
        pieces := pieces[|order| := pieceCode];
      }
      order := order + [Square(squareKey[0], squareKey[1])];
    }

    /** `movePieceOnBoard`: empties the source square if it shows a piece; `false` when no square has that file and rank, where the code throws. */
    method MovePieceOnBoard(source: Square) returns (ok: bool)
      requires Valid()
      modifies this`pieces
      ensures Valid()
      ensures ok <==> Find(order, source).Some?
      ensures ok ==> pieces == old(pieces) - {Find(order, source).value}
      ensures !ok ==> pieces == old(pieces)
    {
      var sourceSquare := Find(order, source);
      if sourceSquare.None? {
        return false;
      }
      if sourceSquare.value in pieces {
        pieces := pieces - {sourceSquare.value};
      }
      return true;
    }

    /** `clearHighlightedSquares`: takes the highlight off every highlighted square, one at a time. */
    method ClearHighlightedSquares()
      modifies this`highlighted
      ensures highlighted == {}
    {
      while highlighted != {}
        decreases |highlighted|
      {
        var square :| square in highlighted;
        highlighted := highlighted - {square};
      }
    }

    /** `highlightAllowedMoves`: marks the first drawn square for each move listed under the piece's code. */
    method HighlightAllowedMoves(code: string)
      modifies this`highlighted
      ensures highlighted == old(highlighted) + PieceHighlights(order, allowedMoves, code)
    {
      if code !in allowedMoves {
        return;
      }
      var pieceMoves := allowedMoves[code];
      for i := 0 to |pieceMoves|
        invariant highlighted == old(highlighted) + Highlights(order, pieceMoves[..i])
      {
        var move := pieceMoves[i];
        assert pieceMoves[..i + 1][..i] == pieceMoves[..i];
        if |move| >= 2 {
          var targetSquare := Find(order, Square(move[0], move[1]));
          if targetSquare.Some? {
            highlighted := highlighted + {targetSquare.value};
          }
        }
      }
      assert pieceMoves[..|pieceMoves|] == pieceMoves;
    }

    /** Selects `piece` on its square and marks its moves. */
    method Select(piece: PieceRef)
      requires Valid() && Shown(piece) && highlighted == {}
      modifies this`selectedPiece, this`selectedSquare, this`highlighted
      ensures Valid()
      ensures selectedPiece == Some(piece) && selectedSquare == Some(order[piece.index])
      ensures highlighted == PieceHighlights(order, allowedMoves, piece.code)
    {
      selectedPiece := Some(piece);
      selectedSquare := Some(order[piece.index]);
      HighlightAllowedMoves(piece.code);
      if piece.code in allowedMoves {
        HighlightsDrawn(order, allowedMoves[piece.code]);
      }
    }

    /**
     * `handlePieceClick`: the selected piece again deselects it; a piece on
     * a highlighted square receives the selected piece (the selection stays
     * set); any other piece becomes the selection.
     */
    method HandlePieceClick(piece: PieceRef)
      requires Valid() && Shown(piece)
      modifies this
      ensures Valid()
      ensures allowedMoves == old(allowedMoves) && flip == old(flip) && generation == old(generation) && order == old(order)
      ensures old(selectedPiece) == Some(piece) ==>
        selectedPiece.None? && selectedSquare.None? && highlighted == {} &&
        pieces == old(pieces) && sent == old(sent)
      ensures old(selectedPiece).None? || (old(selectedPiece) != Some(piece) && piece.index !in old(highlighted)) ==>
        selectedPiece == Some(piece) && selectedSquare == Some(order[piece.index]) &&
        highlighted == PieceHighlights(order, allowedMoves, piece.code) &&
        pieces == old(pieces) && sent == old(sent)
      ensures old(selectedPiece).Some? && old(selectedPiece) != Some(piece) && piece.index in old(highlighted) ==>
        selectedPiece == old(selectedPiece) && selectedSquare == old(selectedSquare) &&
        var source := old(selectedSquare).value;
        if Find(order, source).Some? then
          pieces == old(pieces) - {Find(order, source).value} && highlighted == {} &&
          sent == old(sent) + [SentMove(old(selectedPiece).value.code, Name(source), Name(order[piece.index]))]
        else
          pieces == old(pieces) && highlighted == old(highlighted) && sent == old(sent)
    {
      if selectedPiece == Some(piece) {
        ClearHighlightedSquares();
        selectedPiece := None;
        selectedSquare := None;
        return;
      }
      if selectedPiece.Some? {
        var isHighlighted := piece.index in highlighted;
        if isHighlighted {
          var source := selectedSquare.value;
          var pieceCode := selectedPiece.value.code;
          var ok := MovePieceOnBoard(source);
          if !ok {
            return;
          }
          sent := sent + [SentMove(pieceCode, Name(source), Name(order[piece.index]))];
          ClearHighlightedSquares();
        } else {
          ClearHighlightedSquares();
          Select(piece);
        }
      } else {
        Select(piece);
      }
    }

    /**
     * `handleSquareClick`: with a selection and a target square, moves the
     * selected piece there and clears the selection and the highlights;
     * otherwise does nothing.
     */
    method HandleSquareClick(target: Option<nat>)
      requires Valid()
      requires target.Some? ==> target.value < |order|
      modifies this
      ensures Valid()
      ensures allowedMoves == old(allowedMoves) && flip == old(flip) && generation == old(generation) && order == old(order)
      ensures old(selectedPiece).None? || target.None? || Find(order, old(selectedSquare).value).None? ==>
        selectedPiece == old(selectedPiece) && selectedSquare == old(selectedSquare) &&
        highlighted == old(highlighted) && pieces == old(pieces) && sent == old(sent)
      ensures old(selectedPiece).Some? && target.Some? && Find(order, old(selectedSquare).value).Some? ==>
        selectedPiece.None? && selectedSquare.None? && highlighted == {} &&
        pieces == old(pieces) - {Find(order, old(selectedSquare).value).value} &&
        sent == old(sent) + [SentMove(old(selectedPiece).value.code, Name(old(selectedSquare).value), Name(order[target.value]))]
    {
      if selectedPiece.Some? && selectedSquare.Some? && target.Some? {
        var source := selectedSquare.value;
        var pieceCode := selectedPiece.value.code;
        var ok := MovePieceOnBoard(source);
        if !ok {
          return;
        }
        sent := sent + [SentMove(pieceCode, Name(source), Name(order[target.value]))];
        selectedPiece := None;
        selectedSquare := None;
        ClearHighlightedSquares();
      }
    }

    /** `handleDrop`: moves the dragged piece to the square it was dropped on, whatever is selected. */
    method HandleDrop(data: DragData, target: Option<nat>)
      requires Valid()
      requires target.Some? ==> target.value < |order|
      modifies this
      ensures Valid()
      ensures allowedMoves == old(allowedMoves) && flip == old(flip) && generation == old(generation) && order == old(order)
      ensures selectedPiece == old(selectedPiece) && selectedSquare == old(selectedSquare) && highlighted == old(highlighted)
      ensures target.None? || Find(order, data.from).None? ==> pieces == old(pieces) && sent == old(sent)
      ensures target.Some? && Find(order, data.from).Some? ==>
        pieces == old(pieces) - {Find(order, data.from).value} &&
        sent == old(sent) + [SentMove(data.pieceCode, Name(data.from), Name(order[target.value]))]
    {
      if target.Some? {
        var ok := MovePieceOnBoard(data.from);
        if !ok {
          return;
        }
        sent := sent + [SentMove(data.pieceCode, Name(data.from), Name(order[target.value]))];
      }
    }
  }

  /** Adding one key extends the drawn squares by its square and the pieces by its piece. */
  lemma DrawStep(board: map<string, seq<string>>, keys: seq<string>, key: string)
    requires AllDrawable(board, keys)
    requires Drawable(board, key)
    ensures AllDrawable(board, keys + [key])
    ensures SquaresOf(board, keys + [key]) == SquaresOf(board, keys) + [Square(key[0], key[1])]
    ensures PiecesOf(board, keys + [key]) ==
      if board[key][1] != Empty then PiecesOf(board, keys)[|keys| := board[key][1]] else PiecesOf(board, keys)
  {
    var next := keys + [key];
    assert next[..|next| - 1] == keys;
  }

  /** The keys of the first `n` rows are a prefix of all the keys, so every one of them can be drawn. */
  lemma {:induction false} FlattenPrefix(rows: seq<seq<string>>, n: nat)
    requires n <= |rows|
    ensures forall k :: k in Flatten(rows[..n]) ==> k in Flatten(rows)
  {
    if n > 0 {
      assert rows[..n][0] == rows[0];
      assert rows[..n][1..] == rows[1..][..n - 1];
      FlattenPrefix(rows[1..], n - 1);
    }
  }
}
