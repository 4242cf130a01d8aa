/**
 * The legality filter with its pawn pass corrected (bitboard_legal_moves.go,
 * `filterLegalMoves`). As written, each safe move of a pawn adds ALL of the
 * pawn's legal targets (`filteredMoves[piece] |= legalMoves[piece]`); the
 * evident intent, and what this module models, is to add only the move
 * found safe (`filteredMoves[piece] |= movePosition`), as the first loop
 * does. The game status is computed from this filter.
 */
module CorrectedFilter {
  import opened Bits
  import opened GameStateRecord
  import Generators
  import opened Legal
  import LegalProperties

  /** A pawn's corrected entry: its kept captures on the opposing side, then each of its safe legal targets. */
  function IntendedPawnEntry(gs: GameState, tables: Generators.AttackTables, piece: bv64, kept: bv64, pieceMoves: bv64): bv64
  {
    SafeFrom(Safety(gs, tables, piece), pieceMoves, kept & Opposite(gs, piece))
  }

  /** What the corrected second loop writes for a pawn, given the map the first loop left. */
  function IntendedPawnValue(gs: GameState, tables: Generators.AttackTables, legal: MoveMap, first: MoveMap): Key -> bv64
  {
    (k: Key) => IntendedPawnEntry(gs, tables, k.bit, Lookup(first, k.bit), Lookup(legal, k.bit))
  }

  lemma IntendedPawnValueAt(gs: GameState, tables: Generators.AttackTables, legal: MoveMap, first: MoveMap, k: Key, entry: bv64)
    requires k in legal && entry == Lookup(first, k.bit)
    ensures IntendedPawnValue(gs, tables, legal, first)(k) == IntendedPawnEntry(gs, tables, k.bit, entry, legal[k])
  {
    assert Key(k.bit) == k;
  }

  /** The map `filterLegalMoves` evidently means to return. */
  function IntendedFiltered(gs: GameState, tables: Generators.AttackTables, pseudo: MoveMap, legal: MoveMap): MoveMap
  {
    var first := FirstPass(gs, tables, pseudo);
    Overlay(first, Pawns(gs, legal.Keys), IntendedPawnValue(gs, tables, legal, first))
  }

  /** The corrected inner loop of the pawn pass: `filteredMoves[piece] |= movePosition` for each safe move. */
  method AddSafeMoves(gs: GameState, tables: Generators.AttackTables, piece: bv64, pieceMoves: bv64,
                      start: MoveMap, ghost filtered: MoveMap, ghost kept: bv64)
    returns (out: MoveMap)
    requires start == filtered[Key(piece) := kept]
    ensures out == filtered[Key(piece) := SafeFrom(Safety(gs, tables, piece), pieceMoves, kept)]
  {
    ghost var safety := Safety(gs, tables, piece);
    out := start;
    var move := pieceMoves;
    ghost var acc: bv64 := kept;
    while move != 0
      invariant SafeFrom(safety, move, acc) == SafeFrom(safety, pieceMoves, kept)
      invariant out == filtered[Key(piece) := acc]
      decreases BitCount(move)
    {
      var movePosition := LowestBit(move);
      SafeFromOn(safety, move, acc);
      out := AddIfSafe(gs, tables, piece, movePosition, out, filtered, acc, safety);
      acc := Pass(safety, acc, movePosition);
      move := ClearLowest(move);
    }
    SafeFromOff(safety, acc);
  }

  /** One pass of the corrected inner loop: `filteredMoves[piece] |= movePosition` when the move is safe. */
  method AddIfSafe(gs: GameState, tables: Generators.AttackTables, piece: bv64, movePosition: bv64,
                   out: MoveMap, ghost filtered: MoveMap, ghost acc: bv64, ghost safety: bv64 -> bool)
    returns (next: MoveMap)
    requires safety == Safety(gs, tables, piece)
    requires out == filtered[Key(piece) := acc]
    ensures next == filtered[Key(piece) := Pass(safety, acc, movePosition)]
  {
    var safe := IsSafe(gs, tables, piece, movePosition, safety);
    AddedPass(safety, filtered, out, piece, acc, movePosition);
    if safe {
      next := out[Key(piece) := out[Key(piece)] | movePosition];
    } else {
      next := out;
    }
  }

  /** Adding a passing move to the pawn's entry records the accumulator after it. */
  lemma AddedPass(safe: bv64 -> bool, filtered: MoveMap, out: MoveMap, piece: bv64, acc: bv64, p: bv64)
    requires out == filtered[Key(piece) := acc]
    ensures (if safe(p) then out[Key(piece) := out[Key(piece)] | p] else out) == filtered[Key(piece) := Pass(safe, acc, p)]
  {
    if safe(p) {
      var widened := acc | p;
      assert out[Key(piece)] == acc;
      assert Pass(safe, acc, p) == widened;
      Generators.Overwritten(filtered, Key(piece), acc, widened);
    } else {
      assert Pass(safe, acc, p) == acc;
    }
  }

  /** The corrected second loop for one pawn: keep its captures, then add each safe legal target. */
  method IntendedKeepSafePawn(gs: GameState, tables: Generators.AttackTables, piece: bv64, pieceMoves: bv64, filtered: MoveMap)
    returns (out: MoveMap)
    ensures out == filtered[Key(piece) := IntendedPawnEntry(gs, tables, piece, Lookup(filtered, piece), pieceMoves)]
  {
    var kept := KeepCaptures(gs, piece, Lookup(filtered, piece));
    out := filtered[Key(piece) := kept];
    out := AddSafeMoves(gs, tables, piece, pieceMoves, out, filtered, kept);
  }

  /** One round of the corrected second loop: a pawn's entry is rewritten, any other piece's left alone. */
  method IntendedRewriteStep(gs: GameState, tables: Generators.AttackTables, legal: MoveMap, first: MoveMap, piece: Key,
                             filtered: MoveMap, ghost done: set<Key>)
    returns (next: MoveMap)
    requires piece in legal && piece !in done
    requires filtered == Overlay(first, Pawns(gs, done), IntendedPawnValue(gs, tables, legal, first))
    ensures next == Overlay(first, Pawns(gs, done + {piece}), IntendedPawnValue(gs, tables, legal, first))
  {
    ghost var value := IntendedPawnValue(gs, tables, legal, first);
    var pieceMoves := legal[piece];
    if Meets(gs.pawnBitboard, piece.bit) {
      assert Pawns(gs, done + {piece}) == Pawns(gs, done) + {piece};
      OverlayAdd(first, Pawns(gs, done), value, piece);
      IntendedPawnValueAt(gs, tables, legal, first, piece, Lookup(filtered, piece.bit));
      assert Key(piece.bit) == piece;
      next := IntendedKeepSafePawn(gs, tables, piece.bit, pieceMoves, filtered);
    } else {
      assert Pawns(gs, done + {piece}) == Pawns(gs, done);
      next := filtered;
    }
  }

  /** The corrected second loop, over the pieces of the legal map. */
  method IntendedRewritePawns(gs: GameState, tables: Generators.AttackTables, legal: MoveMap, first: MoveMap)
    returns (filtered: MoveMap)
    ensures filtered == Overlay(first, Pawns(gs, legal.Keys), IntendedPawnValue(gs, tables, legal, first))
  {
    filtered := first;
    OverlayNone(first, IntendedPawnValue(gs, tables, legal, first));
    var rest := legal.Keys;
    ghost var done: set<Key> := {};
    while rest != {}
      invariant rest <= legal.Keys && done == legal.Keys - rest
      invariant filtered == Overlay(first, Pawns(gs, done), IntendedPawnValue(gs, tables, legal, first))
      decreases |rest|
    {
      var piece :| piece in rest;
      filtered := IntendedRewriteStep(gs, tables, legal, first, piece, filtered, done);
      rest := rest - {piece};
      done := done + {piece};
    }
    assert done == legal.Keys;
  }

  /** `filterLegalMoves` with the corrected pawn pass. */
  method IntendedFilterLegalMoves(gs: GameState, tables: Generators.AttackTables, legal: MoveMap, pseudo: MoveMap)
    returns (filtered: MoveMap)
    ensures filtered == IntendedFiltered(gs, tables, pseudo, legal)
  {
    filtered := KeepSafeMoves(gs, tables, pseudo);
    filtered := IntendedRewritePawns(gs, tables, legal, filtered);
  }

  /** Under the corrected pass a pawn of the legal map gets its kept captures and its safe legal targets. */
  lemma IntendedPawnLookup(gs: GameState, tables: Generators.AttackTables, pseudo: MoveMap, legal: MoveMap, piece: bv64)
    requires Key(piece) in legal && Meets(gs.pawnBitboard, piece)
    ensures Lookup(IntendedFiltered(gs, tables, pseudo, legal), piece) ==
      IntendedPawnEntry(gs, tables, piece, SafeTargets(gs, tables, piece, Lookup(pseudo, piece)), legal[Key(piece)])
  {
    var first := FirstPass(gs, tables, pseudo);
    var value := IntendedPawnValue(gs, tables, legal, first);
    assert Key(piece) in Pawns(gs, legal.Keys);
    LegalProperties.OverlayKey(first, Pawns(gs, legal.Keys), value, piece);
    LegalProperties.FirstPassLookup(gs, tables, pseudo, piece);
    IntendedPawnValueAt(gs, tables, legal, first, Key(piece), Lookup(first, piece));
  }

  /** Under the corrected pass every other piece keeps its first-pass entry. */
  lemma IntendedOtherLookup(gs: GameState, tables: Generators.AttackTables, pseudo: MoveMap, legal: MoveMap, piece: bv64)
    requires !(Key(piece) in legal && Meets(gs.pawnBitboard, piece))
    ensures Lookup(IntendedFiltered(gs, tables, pseudo, legal), piece) == SafeTargets(gs, tables, piece, Lookup(pseudo, piece))
  {
    var first := FirstPass(gs, tables, pseudo);
    assert Key(piece) !in Pawns(gs, legal.Keys);
    LegalProperties.OverlayOther(first, Pawns(gs, legal.Keys), IntendedPawnValue(gs, tables, legal, first), piece);
    LegalProperties.FirstPassLookup(gs, tables, pseudo, piece);
  }

  /** The bits of a corrected pawn entry: kept captures on the opposing side, and each safe legal target. */
  lemma IntendedEntryBits(gs: GameState, tables: Generators.AttackTables, piece: bv64, kept: bv64, pieceMoves: bv64, q: bv64)
    requires IsBit(q)
    ensures BitOf(q, IntendedPawnEntry(gs, tables, piece, kept, pieceMoves)) <==>
      (BitOf(q, kept) && BitOf(q, Opposite(gs, piece))) || (BitOf(q, pieceMoves) && SafeMove(gs, tables, piece, q))
  {
    var safety := Safety(gs, tables, piece);
    var opposite := Opposite(gs, piece);
    assert IntendedPawnEntry(gs, tables, piece, kept, pieceMoves) == SafeFrom(safety, pieceMoves, kept & opposite);
    SafeFromAndBits(safety, pieceMoves, kept, opposite, q);
    assert safety(q) == SafeMove(gs, tables, piece, q);
  }

  /** The bits of a fold started from `kept & opposite`. */
  lemma SafeFromAndBits(safe: bv64 -> bool, rest: bv64, kept: bv64, opposite: bv64, q: bv64)
    requires IsBit(q)
    ensures BitOf(q, SafeFrom(safe, rest, kept & opposite)) <==>
      (BitOf(q, kept) && BitOf(q, opposite)) || (BitOf(q, rest) && safe(q))
  {
    SafeFromBits(safe, rest, kept & opposite, q);
    BitOfAnd(q, kept, opposite);
  }

  /** With the corrected pawn pass every target kept for every piece leaves the mover's king out of check. */
  lemma IntendedAllSafe(gs: GameState, tables: Generators.AttackTables, pseudo: MoveMap, legal: MoveMap, piece: bv64, q: bv64)
    requires IsBit(q)
    requires BitOf(q, Lookup(IntendedFiltered(gs, tables, pseudo, legal), piece))
    ensures SafeMove(gs, tables, piece, q)
  {
    var kept := SafeTargets(gs, tables, piece, Lookup(pseudo, piece));
    SafeTargetsBits(gs, tables, piece, Lookup(pseudo, piece), q);
    if Key(piece) in legal && Meets(gs.pawnBitboard, piece) {
      IntendedPawnLookup(gs, tables, pseudo, legal, piece);
      IntendedEntryBits(gs, tables, piece, kept, legal[Key(piece)], q);
    } else {
      IntendedOtherLookup(gs, tables, pseudo, legal, piece);
    }
  }

  /** With the corrected pawn pass a pawn keeps each of its legal targets that is safe. */
  lemma IntendedPawnComplete(gs: GameState, tables: Generators.AttackTables, pseudo: MoveMap, legal: MoveMap, piece: bv64, q: bv64)
    requires Key(piece) in legal && Meets(gs.pawnBitboard, piece)
    requires IsBit(q) && BitOf(q, legal[Key(piece)]) && SafeMove(gs, tables, piece, q)
    ensures BitOf(q, Lookup(IntendedFiltered(gs, tables, pseudo, legal), piece))
  {
    var kept := SafeTargets(gs, tables, piece, Lookup(pseudo, piece));
    IntendedPawnLookup(gs, tables, pseudo, legal, piece);
    IntendedEntryBits(gs, tables, piece, kept, legal[Key(piece)], q);
  }

  /** Every other piece keeps exactly its safe pseudo-legal targets, as under the code as written. */
  lemma IntendedNonPawnTargets(gs: GameState, tables: Generators.AttackTables, pseudo: MoveMap, legal: MoveMap, piece: bv64, q: bv64)
    requires !(Key(piece) in legal && Meets(gs.pawnBitboard, piece))
    requires IsBit(q)
    ensures BitOf(q, Lookup(IntendedFiltered(gs, tables, pseudo, legal), piece)) <==>
      BitOf(q, Lookup(pseudo, piece)) && SafeMove(gs, tables, piece, q)
  {
    IntendedOtherLookup(gs, tables, pseudo, legal, piece);
    SafeTargetsBits(gs, tables, piece, Lookup(pseudo, piece), q);
  }
}
