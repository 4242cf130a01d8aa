/**
 * What the map `filterLegalMoves` returns means, piece by piece
 * (bitboard_legal_moves.go, `filterLegalMoves`): a piece other than a pawn
 * of the legal map keeps exactly the pseudo-legal targets that leave its
 * king out of check, while a pawn's entry is rebuilt by the second loop.
 */
module LegalProperties {
  import opened Bits
  import opened GameStateRecord
  import Generators
  import opened Legal

  /** After the first loop a piece's entry is its safe pseudo-legal targets, or missing when it has none. */
  lemma FirstPassLookup(gs: GameState, tables: Generators.AttackTables, pseudo: MoveMap, piece: bv64)
    ensures Lookup(FirstPass(gs, tables, pseudo), piece) == SafeTargets(gs, tables, piece, Lookup(pseudo, piece))
    ensures Key(piece) in FirstPass(gs, tables, pseudo) <==> SafeTargets(gs, tables, piece, Lookup(pseudo, piece)) != 0
  {
    SafeFromOff(Safety(gs, tables, piece), 0);
    assert SafeEntry(gs, tables, pseudo)(Key(piece)) == SafeTargets(gs, tables, piece, Lookup(pseudo, piece));
  }

  /** The second loop leaves alone every piece that is not a pawn of the legal map. */
  lemma OverlayOther(base: MoveMap, keys: set<Key>, value: Key -> bv64, piece: bv64)
    requires Key(piece) !in keys
    ensures Key(piece) in Overlay(base, keys, value) <==> Key(piece) in base
    ensures Lookup(Overlay(base, keys, value), piece) == Lookup(base, piece)
  {
  }

  /** The second loop writes every pawn of the legal map. */
  lemma OverlayKey(base: MoveMap, keys: set<Key>, value: Key -> bv64, piece: bv64)
    requires Key(piece) in keys
    ensures Key(piece) in Overlay(base, keys, value)
    ensures Overlay(base, keys, value)[Key(piece)] == value(Key(piece))
  {
  }

  /**
   * A piece that is not a pawn of the legal map keeps exactly those of its
   * pseudo-legal targets after which its own king is not in check.
   */
  lemma NonPawnTargets(gs: GameState, tables: Generators.AttackTables, pseudo: MoveMap, legal: MoveMap, piece: bv64, q: bv64)
    requires !(Key(piece) in legal && Meets(gs.pawnBitboard, piece))
    requires IsBit(q)
    ensures BitOf(q, Lookup(Filtered(gs, tables, pseudo, legal), piece)) <==>
      BitOf(q, Lookup(pseudo, piece)) && SafeMove(gs, tables, piece, q)
  {
    var first := FirstPass(gs, tables, pseudo);
    assert Key(piece) !in Pawns(gs, legal.Keys);
    OverlayOther(first, Pawns(gs, legal.Keys), PawnValue(gs, tables, legal, first), piece);
    FirstPassLookup(gs, tables, pseudo, piece);
    SafeTargetsBits(gs, tables, piece, Lookup(pseudo, piece), q);
  }

  /** Such a piece appears in the result exactly when one of its pseudo-legal targets is safe. */
  lemma NonPawnPresent(gs: GameState, tables: Generators.AttackTables, pseudo: MoveMap, legal: MoveMap, piece: bv64)
    requires !(Key(piece) in legal && Meets(gs.pawnBitboard, piece))
    ensures Key(piece) in Filtered(gs, tables, pseudo, legal) <==>
      exists q :: BitOf(q, Lookup(pseudo, piece)) && SafeMove(gs, tables, piece, q)
  {
    var first := FirstPass(gs, tables, pseudo);
    assert Key(piece) !in Pawns(gs, legal.Keys);
    OverlayOther(first, Pawns(gs, legal.Keys), PawnValue(gs, tables, legal, first), piece);
    FirstPassLookup(gs, tables, pseudo, piece);
    SafeTargetsSome(gs, tables, piece, Lookup(pseudo, piece));
  }

  /** Some target among `moves` is safe for `piece`. */
  ghost predicate AnySafe(gs: GameState, tables: Generators.AttackTables, piece: bv64, moves: bv64)
  {
    exists m :: BitOf(m, moves) && SafeMove(gs, tables, piece, m)
  }

  /** A pawn of the legal map is sent to the entry the second loop builds from its first-pass entry. */
  lemma PawnLookup(gs: GameState, tables: Generators.AttackTables, pseudo: MoveMap, legal: MoveMap, piece: bv64)
    requires Key(piece) in legal && Meets(gs.pawnBitboard, piece)
    ensures Key(piece) in Filtered(gs, tables, pseudo, legal)
    ensures Filtered(gs, tables, pseudo, legal)[Key(piece)] ==
      PawnEntry(gs, tables, piece, SafeTargets(gs, tables, piece, Lookup(pseudo, piece)), legal[Key(piece)])
  {
    var first := FirstPass(gs, tables, pseudo);
    assert Key(piece) in Pawns(gs, legal.Keys);
    OverlayKey(first, Pawns(gs, legal.Keys), PawnValue(gs, tables, legal, first), piece);
    FirstPassLookup(gs, tables, pseudo, piece);
    PawnValueAt(gs, tables, legal, first, Key(piece), Lookup(first, piece));
  }

  /** The bits of a rebuilt pawn entry: kept captures on the opposing side, and all moves once one passed. */
  lemma PawnEntryBits(gs: GameState, tables: Generators.AttackTables, piece: bv64, kept: bv64, pieceMoves: bv64, q: bv64)
    requires IsBit(q)
    ensures BitOf(q, PawnEntry(gs, tables, piece, kept, pieceMoves)) <==>
      (BitOf(q, kept) && BitOf(q, Opposite(gs, piece))) ||
      (BitOf(q, pieceMoves) && SafeTargets(gs, tables, piece, pieceMoves) != 0)
  {
    var opposite := Opposite(gs, piece);
    var passed := SafeTargets(gs, tables, piece, pieceMoves) != 0;
    assert PawnEntry(gs, tables, piece, kept, pieceMoves) == Joined(kept & opposite, passed, pieceMoves);
    JoinedAndBits(kept, opposite, passed, pieceMoves, q);
  }

  lemma JoinedAndBits(kept: bv64, opposite: bv64, passed: bool, pieceMoves: bv64, q: bv64)
    requires IsBit(q)
    ensures BitOf(q, Joined(kept & opposite, passed, pieceMoves)) <==>
      (BitOf(q, kept) && BitOf(q, opposite)) || (passed && BitOf(q, pieceMoves))
  {
    JoinedBits(kept & opposite, passed, pieceMoves, q);
    BitOfAnd(q, kept, opposite);
  }

  /**
   * A pawn of the legal map ends up with its safe pseudo-legal targets that
   * hold an opposing piece, plus all of its legal targets as soon as any one
   * of them is safe.
   */
  lemma PawnTargets(gs: GameState, tables: Generators.AttackTables, pseudo: MoveMap, legal: MoveMap, piece: bv64, q: bv64)
    requires Key(piece) in legal && Meets(gs.pawnBitboard, piece)
    requires IsBit(q)
    ensures Key(piece) in Filtered(gs, tables, pseudo, legal)
    ensures BitOf(q, Filtered(gs, tables, pseudo, legal)[Key(piece)]) <==>
      (BitOf(q, Lookup(pseudo, piece)) && SafeMove(gs, tables, piece, q) && BitOf(q, Opposite(gs, piece))) ||
      (BitOf(q, legal[Key(piece)]) && AnySafe(gs, tables, piece, legal[Key(piece)]))
  {
    var pieceMoves := legal[Key(piece)];
    var kept := SafeTargets(gs, tables, piece, Lookup(pseudo, piece));
    PawnLookup(gs, tables, pseudo, legal, piece);
    PawnEntryBits(gs, tables, piece, kept, pieceMoves, q);
    SafeTargetsBits(gs, tables, piece, Lookup(pseudo, piece), q);
    SafeTargetsSome(gs, tables, piece, pieceMoves);
    assert (SafeTargets(gs, tables, piece, pieceMoves) != 0) == AnySafe(gs, tables, piece, pieceMoves);
  }

  lemma JoinedBits(base: bv64, passed: bool, pieceMoves: bv64, q: bv64)
    requires IsBit(q)
    ensures BitOf(q, Joined(base, passed, pieceMoves)) <==> BitOf(q, base) || (passed && BitOf(q, pieceMoves))
  {
    if passed {
      BitOfUnion(q, base, pieceMoves);
    }
  }

  /**
   * The pawn pass as written: once one legal target of a pawn is safe, every
   * legal target is kept, including those that leave the pawn's king in check.
   */
  lemma PawnPassAsWritten(gs: GameState, tables: Generators.AttackTables, pseudo: MoveMap, legal: MoveMap,
                          piece: bv64, m: bv64, q: bv64)
    requires Key(piece) in legal && Meets(gs.pawnBitboard, piece)
    requires BitOf(m, legal[Key(piece)]) && SafeMove(gs, tables, piece, m)
    requires BitOf(q, legal[Key(piece)]) && !SafeMove(gs, tables, piece, q)
    ensures BitOf(q, Filtered(gs, tables, pseudo, legal)[Key(piece)])
  {
    PawnTargets(gs, tables, pseudo, legal, piece, q);
  }
}
