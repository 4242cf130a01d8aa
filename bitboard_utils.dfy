/**
 * Conversions between bit indices, square names and piece letters used by
 * the bitboard engine: square index k is file `k % 8` (a..h) and rank
 * `k / 8` (1..8).
 */
module BitboardUtils {
  import opened Bits
  import opened Wrappers
  import opened GameStateRecord

  /** The file names in ascending order, as the converters pass them. */
  const Files: seq<string> := ["a", "b", "c", "d", "e", "f", "g", "h"]

  /** The rank names in ascending order, as the converters pass them. */
  const Ranks: seq<string> := ["1", "2", "3", "4", "5", "6", "7", "8"]

  /** The name of square `i`: its file letter followed by its rank digit. */
  function SquareName(i: nat): (s: string)
    requires i < 64
    ensures |s| == 2 && 'a' <= s[0] <= 'h' && '1' <= s[1] <= '8'
  {
    Files[i % 8] + Ranks[i / 8]
  }

  /** The value of a character read as a Go byte. */
  function ByteOf(c: char): int
  {
    (c as int) % 256
  }

  /**
   * `PositionToIndex`: the column and row are byte differences from 'a'
   * and '1', and `row*8 + column` is computed in byte arithmetic, so the
   * result is always a byte value.
   */
  function PositionToIndex(position: string): (r: int)
    requires |position| >= 2
    ensures 0 <= r < 256
  {
    var column := (ByteOf(position[0]) - 'a' as int) % 256;
    var row := (ByteOf(position[1]) - '1' as int) % 256;
    (row * 8 + column) % 256
  }

  /** A name a1..h8 has the index `8 * rank + file`, rank and file counted from '1' and 'a'. */
  lemma PositionToIndexOnBoard(s: string)
    requires |s| >= 2 && 'a' <= s[0] <= 'h' && '1' <= s[1] <= '8'
    ensures PositionToIndex(s) == (s[1] as int - '1' as int) * 8 + (s[0] as int - 'a' as int) < 64
  {
    var f, r := s[0] as int - 'a' as int, s[1] as int - '1' as int;
    assert ByteOf(s[0]) == s[0] as int && ByteOf(s[1]) == s[1] as int;
    assert (ByteOf(s[0]) - 'a' as int) % 256 == f && (ByteOf(s[1]) - '1' as int) % 256 == r;
    assert 0 <= r * 8 + f < 64;
  }

  /** File `f` is named by the letter `f` places after 'a'. */
  lemma FileLetter(f: nat)
    requires f < 8
    ensures Files[f] == [('a' as int + f) as char]
  {
  }

  /** Rank `r` (counted from 0) is named by the digit `r` places after '1'. */
  lemma RankDigit(r: nat)
    requires r < 8
    ensures Ranks[r] == [('1' as int + r) as char]
  {
  }

  /** The two characters of a square name are its file and rank counted from 'a' and '1'. */
  lemma SquareNameChars(i: nat)
    requires i < 64
    ensures SquareName(i)[0] as int == 'a' as int + i % 8 && SquareName(i)[1] as int == '1' as int + i / 8
  {
    FileLetter(i % 8);
    RankDigit(i / 8);
  }

  /** A square name's index gives back the name: index to name to index. */
  lemma IndexNameRoundTrip(i: nat)
    requires i < 64
    ensures PositionToIndex(SquareName(i)) == i
  {
    SquareNameChars(i);
    PositionToIndexOnBoard(SquareName(i));
    assert (i / 8) * 8 + i % 8 == i;
  }

  /** Every two-character square name a1..h8 is the name of its own index. */
  lemma NameIndexRoundTrip(s: string)
    requires |s| == 2 && 'a' <= s[0] <= 'h' && '1' <= s[1] <= '8'
    ensures PositionToIndex(s) < 64 && SquareName(PositionToIndex(s)) == s
  {
    var f, r := s[0] as int - 'a' as int, s[1] as int - '1' as int;
    PositionToIndexOnBoard(s);
    var k := PositionToIndex(s);
    assert k % 8 == f && k / 8 == r;
    FileLetter(f);
    RankDigit(r);
    assert SquareName(k) == [s[0]] + [s[1]];
    assert s == [s[0]] + [s[1]];
  }

  /** Distinct indices have distinct names. */
  lemma SquareNameDistinct(i: nat, j: nat)
    requires i < 64 && j < 64 && i != j
    ensures SquareName(i) != SquareName(j)
  {
    SquareNameChars(i);
    SquareNameChars(j);
  }

  /**
   * What `bitToSquare` computes: "" for the empty board, otherwise the
   * name of the highest set bit, looked up in the given file and rank tables.
   */
  function SquareOfBit(bitboard: bv64, files: seq<string>, ranks: seq<string>): string
    requires |files| == 8 && |ranks| == 8
  {
    if bitboard == 0 then ""
    else
      ShiftCountBound(bitboard);
      var k := ShiftCount(bitboard);
      files[k % 8] + ranks[k / 8]
  }

  /** `bitToSquare`: shifts the board right until it is 1, counting the shifts. */
  method BitToSquare(bitboard: bv64, files: seq<string>, ranks: seq<string>) returns (s: string)
    requires |files| == 8 && |ranks| == 8
    ensures s == SquareOfBit(bitboard, files, ranks)
  {
    if bitboard == 0 {
      return "";
    }
    var board := bitboard;
    var bitIndex := 0;
    while board != 1
      invariant board != 0
      invariant bitIndex + ShiftCount(board) == ShiftCount(bitboard)
      decreases board
    {
      board := board >> 1;
      bitIndex := bitIndex + 1;
    }
    ShiftCountBound(bitboard);
    return files[bitIndex % 8] + ranks[bitIndex / 8];
  }

  /** With the ascending tables, the single-bit board of square `i` is named `SquareName(i)`. */
  lemma SquareOfSingleBit(i: nat)
    requires i < 64
    ensures SquareOfBit(Bit(i), Files, Ranks) == SquareName(i)
    ensures PositionToIndex(SquareOfBit(Bit(i), Files, Ranks)) == i
  {
    ShiftCountOfBit(i);
    IndexNameRoundTrip(i);
  }

  /**
   * The target list `ConvertLegalMovesToMap` builds for a move board: the
   * names of its set bits among indices `0 .. n-1`, in ascending order.
   */
  function Targets(moveBitboard: bv64, n: nat): seq<string>
    requires n <= 64
  {
    if n == 0 then []
    else Targets(moveBitboard, n - 1) + (if Has(moveBitboard, n - 1) then [SquareName(n - 1)] else [])
  }

  /** The list names exactly the set bits below `n`. */
  lemma {:induction false} TargetsMembers(moveBitboard: bv64, n: nat, s: string)
    requires n <= 64
    ensures s in Targets(moveBitboard, n) <==>
      exists j :: 0 <= j < n && Has(moveBitboard, j) && SquareName(j) == s
  {
    if n > 0 {
      TargetsMembers(moveBitboard, n - 1, s);
    }
  }

  /** Every name in the list belongs to an index below `n`. */
  lemma {:induction false} TargetsBelow(moveBitboard: bv64, n: nat)
    requires n <= 64
    ensures forall k :: 0 <= k < |Targets(moveBitboard, n)| ==>
      |Targets(moveBitboard, n)[k]| == 2 && PositionToIndex(Targets(moveBitboard, n)[k]) < n
  {
    if n > 0 {
      TargetsBelow(moveBitboard, n - 1);
      IndexNameRoundTrip(n - 1);
    }
  }

  /** The list is in strictly ascending square order. */
  lemma {:induction false} TargetsAscending(moveBitboard: bv64, n: nat)
    requires n <= 64
    ensures forall k :: 0 <= k < |Targets(moveBitboard, n)| ==> |Targets(moveBitboard, n)[k]| == 2
    ensures forall a, b :: 0 <= a < b < |Targets(moveBitboard, n)| ==>
      PositionToIndex(Targets(moveBitboard, n)[a]) < PositionToIndex(Targets(moveBitboard, n)[b])
  {
    TargetsBelow(moveBitboard, n);
    if n > 0 {
      TargetsAscending(moveBitboard, n - 1);
      TargetsBelow(moveBitboard, n - 1);
      IndexNameRoundTrip(n - 1);
    }
  }

  /** An empty move board gives an empty list. */
  lemma {:induction false} TargetsOfEmpty(n: nat)
    requires n <= 64
    ensures Targets(0, n) == []
  {
    if n > 0 {
      TargetsOfEmpty(n - 1);
    }
  }

  /**
   * The inner loop of `ConvertLegalMovesToMap`: the list that starts empty
   * and gets the name of every set bit of the move board appended, from
   * bit 0 upwards.
   */
  method TargetSquares(moveBitboard: bv64) returns (targets: seq<string>)
    ensures targets == Targets(moveBitboard, 64)
  {
    targets := [];
    var bitIndex := 0;
    while bitIndex < 64
      invariant 0 <= bitIndex <= 64
      invariant targets == Targets(moveBitboard, bitIndex)
    {
      if Has(moveBitboard, bitIndex) {
        var targetSquare := BitToSquare(Bit(bitIndex), Files, Ranks);
        SquareOfSingleBit(bitIndex);
        targets := targets + [targetSquare];
      }
      bitIndex := bitIndex + 1;
    }
  }

  /** The name `ConvertLegalMovesToMap` files a source key under. */
  function SquareOf(piecePos: bv64): string
  {
    SquareOfBit(piecePos, Files, Ranks)
  }

  /** The name `ConvertLegalMovesToMap` files a key of a move map under. */
  function KeySquare(k: Key): string
  {
    SquareOf(k.bit)
  }

  /** The target list of every source key of `allowedMoves`. */
  function TargetLists(allowedMoves: MoveMap): (lists: map<Key, seq<string>>)
    ensures lists.Keys == allowedMoves.Keys
  {
    map k | k in allowedMoves :: Targets(allowedMoves[k], 64)
  }

  /** The keys among the first `n` of an iteration order. */
  function Visited<K>(order: seq<K>, n: nat): set<K>
    requires n <= |order|
  {
    if n == 0 then {} else Visited(order, n - 1) + {order[n - 1]}
  }

  /** A complete iteration visits exactly the keys of the order. */
  lemma {:induction false} VisitedAll<K>(order: seq<K>)
    ensures forall k :: k in Visited(order, |order|) <==> k in order
  {
    if order != [] {
      var front := order[..|order| - 1];
      VisitedAll(front);
      VisitedPrefix(order, front, |front|);
      assert order == front + [order[|order| - 1]];
    }
  }

  lemma {:induction false} VisitedPrefix<K>(order: seq<K>, front: seq<K>, n: nat)
    requires n <= |front| <= |order| && front == order[..|front|]
    ensures Visited(order, n) == Visited(front, n)
  {
    if n > 0 {
      VisitedPrefix(order, front, n - 1);
    }
  }

  /**
   * The map built by the Go assignments `m[name(k)] = lists[k]` for the
   * first `n` keys of `order`, in order: a later assignment to a name
   * overwrites an earlier one.
   */
  function Filed(order: seq<Key>, name: Key -> string, lists: map<Key, seq<string>>, n: nat): map<string, seq<string>>
    requires n <= |order| && forall k :: k in order ==> k in lists
  {
    if n == 0 then map[] else Filed(order, name, lists, n - 1)[name(order[n - 1]) := lists[order[n - 1]]]
  }

  /** A name is in the map iff one of the first `n` keys has it. */
  lemma {:induction false} FiledNames(order: seq<Key>, name: Key -> string, lists: map<Key, seq<string>>, n: nat, sq: string)
    requires n <= |order| && forall k :: k in order ==> k in lists
    ensures sq in Filed(order, name, lists, n) <==> exists j :: 0 <= j < n && name(order[j]) == sq
  {
    if n > 0 {
      FiledNames(order, name, lists, n - 1, sq);
      if name(order[n - 1]) == sq {
        assert 0 <= n - 1 < n && name(order[n - 1]) == sq;
      }
    }
  }

  /** Every entry of the map is the list of one of the first `n` keys with that name. */
  lemma {:induction false} FiledFrom(order: seq<Key>, name: Key -> string, lists: map<Key, seq<string>>, n: nat, sq: string)
    requires n <= |order| && forall k :: k in order ==> k in lists
    requires sq in Filed(order, name, lists, n)
    ensures exists j :: 0 <= j < n && name(order[j]) == sq && Filed(order, name, lists, n)[sq] == lists[order[j]]
  {
    if name(order[n - 1]) == sq {
      assert 0 <= n - 1 < n && name(order[n - 1]) == sq;
    } else {
      FiledFrom(order, name, lists, n - 1, sq);
    }
  }

  /**
   * The `j`-th key keeps its list under its name when no later key among
   * the first `n` is a different key with the same name.
   */
  lemma {:induction false} FiledLast(order: seq<Key>, name: Key -> string, lists: map<Key, seq<string>>, n: nat, j: nat)
    requires n <= |order| && forall k :: k in order ==> k in lists
    requires j < n && forall i :: j < i < n ==> order[i] == order[j] || name(order[i]) != name(order[j])
    ensures name(order[j]) in Filed(order, name, lists, n)
    ensures Filed(order, name, lists, n)[name(order[j])] == lists[order[j]]
  {
    if j < n - 1 {
      FiledLast(order, name, lists, n - 1, j);
    }
  }

  /**
   * After a complete iteration the names are exactly those of the source
   * keys, and each carries the list of a source key of that name.
   */
  lemma ConvertedNames(order: seq<Key>, name: Key -> string, lists: map<Key, seq<string>>, sq: string)
    requires forall k :: k in lists <==> k in order
    ensures sq in Filed(order, name, lists, |order|) <==> exists p :: p in lists && name(p) == sq
    ensures sq in Filed(order, name, lists, |order|) ==>
      exists p :: p in lists && name(p) == sq && Filed(order, name, lists, |order|)[sq] == lists[p]
  {
    FiledNames(order, name, lists, |order|, sq);
    if sq in Filed(order, name, lists, |order|) {
      FiledFrom(order, name, lists, |order|, sq);
    }
    if p :| p in lists && name(p) == sq {
      var j :| 0 <= j < |order| && order[j] == p;
    }
  }

  /** A source key whose name no other source key shares is filed with its own list. */
  lemma ConvertedOwnList(order: seq<Key>, name: Key -> string, lists: map<Key, seq<string>>, p: Key)
    requires forall k :: k in lists <==> k in order
    requires p in lists && forall q :: q in lists && name(q) == name(p) ==> q == p
    ensures name(p) in Filed(order, name, lists, |order|)
    ensures Filed(order, name, lists, |order|)[name(p)] == lists[p]
  {
    var j :| 0 <= j < |order| && order[j] == p;
    FiledLast(order, name, lists, |order|, j);
  }

  /**
   * `ConvertLegalMovesToMap`: files every source key under its square name
   * with the list of the squares of its move board. Go visits the keys in
   * an unspecified order, given here as `order`.
   */
  method ConvertLegalMovesToMap(allowedMoves: MoveMap, order: seq<Key>) returns (moves: map<string, seq<string>>)
    requires forall k :: k in allowedMoves <==> k in order
    ensures moves == Filed(order, KeySquare, TargetLists(allowedMoves), |order|)
  {
    moves := map[];
    for i := 0 to |order|
      invariant moves == Filed(order, KeySquare, TargetLists(allowedMoves), i)
    {
      var piecePos := order[i].bit;
      var moveBitboard := allowedMoves[order[i]];
      var pieceSquare := BitToSquare(piecePos, Files, Ranks);
      var targets := TargetSquares(moveBitboard);
      moves := moves[pieceSquare := targets];
    }
  }

  /** Go's `pieceCodes`: the lower-case letters in the order the types are tested. */
  const PieceCodes: seq<string> := ["p", "r", "n", "b", "q", "k"]

  /** The type bitboard `getPieceCode` tests `i`-th: pawn, rook, knight, bishop, queen, king. */
  function TypeBoard(gs: GameState, i: nat): bv64
    requires i < 6
  {
    if i == 0 then gs.pawnBitboard
    else if i == 1 then gs.rookBitboard
    else if i == 2 then gs.knightBitboard
    else if i == 3 then gs.bishopBitboard
    else if i == 4 then gs.queenBitboard
    else gs.kingBitboard
  }

  /**
   * Go's `string(code[0] - 32)`: the first byte moved down by 32 in byte
   * arithmetic, which turns a lower-case ASCII letter into its upper case.
   */
  function Upper(code: string): string
    requires |code| >= 1
  {
    [((ByteOf(code[0]) - 32) % 256) as char]
  }

  /** The code of type `i`: the upper-case letter for white, the lower-case one for black. */
  function CodeOf(i: nat, isWhite: bool): string
    requires i < 6
  {
    if isWhite then Upper(PieceCodes[i]) else PieceCodes[i]
  }

  /** The code of the first type, from the `i`-th on, whose board shares a bit with `bit`. */
  function PieceCodeFrom(bit: bv64, isWhite: bool, gs: GameState, i: nat): string
    requires i <= 6
    decreases 6 - i
  {
    if i == 6 then ""
    else if Meets(TypeBoard(gs, i), bit) then CodeOf(i, isWhite)
    else PieceCodeFrom(bit, isWhite, gs, i + 1)
  }

  /** What `getPieceCode` returns. */
  function PieceCode(bit: bv64, isWhite: bool, gs: GameState): string
  {
    PieceCodeFrom(bit, isWhite, gs, 0)
  }

  /** `getPieceCode`: tests the type boards in order and returns on the first hit. */
  method GetPieceCode(bit: bv64, isWhite: bool, gs: GameState) returns (code: string)
    ensures code == PieceCode(bit, isWhite, gs)
  {
    var i := 0;
    while i < 6
      invariant 0 <= i <= 6
      invariant PieceCodeFrom(bit, isWhite, gs, i) == PieceCode(bit, isWhite, gs)
    {
      if Meets(TypeBoard(gs, i), bit) {
        if isWhite {
          return Upper(PieceCodes[i]);
        }
        return PieceCodes[i];
      }
      i := i + 1;
    }
    return "";
  }

  /** The code is "" iff no type board from the `i`-th on shares a bit with `bit`. */
  lemma {:induction false} PieceCodeNone(bit: bv64, isWhite: bool, gs: GameState, i: nat)
    requires i <= 6
    ensures PieceCodeFrom(bit, isWhite, gs, i) == "" <==> forall j :: i <= j < 6 ==> !Meets(TypeBoard(gs, j), bit)
    decreases 6 - i
  {
    if i < 6 {
      PieceCodeNone(bit, isWhite, gs, i + 1);
      assert CodeOf(i, isWhite) != "";
    }
  }

  /**
   * The code is that of the first type, in the order pawn, rook, knight,
   * bishop, queen, king, whose board shares a bit with `bit`.
   */
  lemma {:induction false} PieceCodeFirst(bit: bv64, isWhite: bool, gs: GameState, i: nat, k: nat)
    requires i <= k < 6 && Meets(TypeBoard(gs, k), bit)
    requires forall j :: i <= j < k ==> !Meets(TypeBoard(gs, j), bit)
    ensures PieceCodeFrom(bit, isWhite, gs, i) == CodeOf(k, isWhite)
    decreases k - i
  {
    if i < k {
      PieceCodeFirst(bit, isWhite, gs, i + 1, k);
    }
  }

  /** The upper-case codes for white: "P", "R", "N", "B", "Q", "K". */
  lemma WhiteCodes()
    ensures CodeOf(0, true) == "P" && CodeOf(1, true) == "R" && CodeOf(2, true) == "N"
    ensures CodeOf(3, true) == "B" && CodeOf(4, true) == "Q" && CodeOf(5, true) == "K"
  {
  }

  /**
   * What `ConvertGameStateToMap` records for square `j`: the white code of
   * its piece when the white board holds it, otherwise the black code when
   * the black board holds it, otherwise nothing.
   */
  function SquareEntry(gs: GameState, j: nat): Option<string>
    requires j < 64
  {
    if Has(gs.whiteBitboard, j) then Some(PieceCode(Bit(j), true, gs))
    else if Has(gs.blackBitboard, j) then Some(PieceCode(Bit(j), false, gs))
    else None
  }

  /** The entries of all 64 squares, a1 first. */
  function Entries(gs: GameState): (entries: seq<Option<string>>)
    ensures |entries| == 64
  {
    seq(64, j requires 0 <= j < 64 => SquareEntry(gs, j))
  }

  /** The names of the 64 squares, a1 first. */
  function SquareNames(): (names: seq<string>)
    ensures |names| == 64 && forall i :: 0 <= i < 64 ==> names[i] == SquareName(i)
  {
    seq(64, i requires 0 <= i < 64 => SquareName(i))
  }

  /** No name occurs twice. */
  predicate Distinct(names: seq<string>)
  {
    forall a, b :: 0 <= a < b < |names| ==> names[a] != names[b]
  }

  lemma SquareNamesDistinct()
    ensures Distinct(SquareNames())
  {
    forall a, b | 0 <= a < b < 64
      ensures SquareNames()[a] != SquareNames()[b]
    {
      SquareNameDistinct(a, b);
    }
  }

  /** The map holding the entries of the squares `0 .. n-1` under their names. */
  function Filled<V>(entries: seq<Option<V>>, names: seq<string>, n: nat): map<string, V>
    requires n <= |entries| && n <= |names|
  {
    if n == 0 then map[]
    else
      match entries[n - 1]
      case None => Filled(entries, names, n - 1)
      case Some(v) => Filled(entries, names, n - 1)[names[n - 1] := v]
  }

  /** Square `j` is in the filled map iff it was visited and has an entry. */
  lemma {:induction false} FilledHas<V>(entries: seq<Option<V>>, names: seq<string>, n: nat, j: nat)
    requires n <= |entries| && n <= |names| && j < |names| && j < |entries| && Distinct(names)
    ensures names[j] in Filled(entries, names, n) <==> j < n && entries[j].Some?
  {
    if n > 0 {
      FilledHas(entries, names, n - 1, j);
    }
  }

  /** A square in the filled map carries its own entry. */
  lemma {:induction false} FilledValue<V>(entries: seq<Option<V>>, names: seq<string>, n: nat, j: nat)
    requires n <= |entries| && n <= |names| && j < |names| && j < |entries| && Distinct(names)
    requires names[j] in Filled(entries, names, n)
    ensures j < n && entries[j].Some? && Filled(entries, names, n)[names[j]] == entries[j].value
  {
    FilledHas(entries, names, n, j);
    if j != n - 1 {
      FilledValue(entries, names, n - 1, j);
    }
  }

  /** Every key of the filled map is the name of a visited square. */
  lemma {:induction false} FilledKeys<V>(entries: seq<Option<V>>, names: seq<string>, n: nat, sq: string)
    requires n <= |entries| && n <= |names| && sq in Filled(entries, names, n)
    ensures exists j :: 0 <= j < n && names[j] == sq
  {
    if sq != names[n - 1] {
      FilledKeys(entries, names, n - 1, sq);
    }
  }

  /**
   * The board `ConvertGameStateToMap` returns: a square appears iff one of
   * the colour boards holds it, and then carries the code of its piece,
   * coloured white whenever the white board holds it.
   */
  lemma BoardSquare(gs: GameState, j: nat)
    requires j < 64
    ensures SquareName(j) in Filled(Entries(gs), SquareNames(), 64) <==> Has(gs.whiteBitboard, j) || Has(gs.blackBitboard, j)
    ensures SquareName(j) in Filled(Entries(gs), SquareNames(), 64) ==>
      Filled(Entries(gs), SquareNames(), 64)[SquareName(j)] == PieceCode(Bit(j), Has(gs.whiteBitboard, j), gs)
  {
    SquareNamesDistinct();
    FilledHas(Entries(gs), SquareNames(), 64, j);
    if SquareName(j) in Filled(Entries(gs), SquareNames(), 64) {
      FilledValue(Entries(gs), SquareNames(), 64, j);
    }
  }

  /** Visiting square `i` adds its code under its name when a colour board holds it. */
  lemma FilledNext(gs: GameState, i: nat)
    requires i < 64
    ensures Filled(Entries(gs), SquareNames(), i + 1) ==
      if Has(gs.whiteBitboard, i) then Filled(Entries(gs), SquareNames(), i)[SquareName(i) := PieceCode(Bit(i), true, gs)]
      else if Has(gs.blackBitboard, i) then Filled(Entries(gs), SquareNames(), i)[SquareName(i) := PieceCode(Bit(i), false, gs)]
      else Filled(Entries(gs), SquareNames(), i)
  {
    assert Entries(gs)[i] == SquareEntry(gs, i);
  }

  /**
   * `ConvertGameStateToMap`: visits the squares a1, b1, ..., h8 and records
   * the code of every occupied one.
   */
  method ConvertGameStateToMap(gs: GameState) returns (board: map<string, string>)
    ensures board == Filled(Entries(gs), SquareNames(), 64)
  {
    board := map[];
    var i := 0;
    while i < 64
      invariant 0 <= i <= 64
      invariant board == Filled(Entries(gs), SquareNames(), i)
    {
      var row := i / 8;
      var col := i % 8;
      var squareKey := Files[col] + Ranks[row];
      assert squareKey == SquareName(i);
      FilledNext(gs, i);
      var bit := Bit(i);
      if Has(gs.whiteBitboard, i) {
        var code := GetPieceCode(bit, true, gs);
        board := board[squareKey := code];
      } else if Has(gs.blackBitboard, i) {
        var code := GetPieceCode(bit, false, gs);
        board := board[squareKey := code];
      }
      i := i + 1;
    }
  }
}
