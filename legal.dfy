/**
 * The legality filter and the check status of a position
 * (bitboard_legal_moves.go, `isKingInCheck`, `filterLegalMoves` and
 * `GenerateLegalMovesForAllPositions`). A move of a piece is safe when,
 * played on a copy of the position, it leaves the mover's king unattacked
 * by the pseudo-legal moves of the copy.
 */
module Legal {
  import opened Bits
  import opened GameStateRecord
  import Attacks
  import Simulation
  import Generators

  /** Go's `range` over a map: every key once, in an order the runtime picks. */
  method KeyOrder(m: MoveMap) returns (order: seq<Key>)
    ensures forall k :: k in m <==> k in order
  {
    var rest := m.Keys;
    order := [];
    while rest != {}
      invariant forall k :: k in m <==> k in order || k in rest
      invariant forall k :: k in rest ==> k in m
      decreases |rest|
    {
      var k :| k in rest;
      order := order + [k];
      rest := rest - {k};
    }
  }

  /** The king of the given colour is attacked by the pseudo-legal moves of the position. */
  predicate KingInCheck(gs: GameState, tables: Generators.AttackTables, isWhiteKing: bool)
  {
    Attacks.InCheck(gs, Generators.InitialMoves(gs, tables).pseudo, isWhiteKing)
  }

  /** `isKingInCheck`: generates the pseudo-legal moves and asks whether one reaches the king. */
  method IsKingInCheck(gs: GameState, tables: Generators.AttackTables, isWhiteKing: bool) returns (isInCheck: bool)
    ensures isInCheck == KingInCheck(gs, tables, isWhiteKing)
  {
    var pseudo, _ := Generators.GenerateInitialMoves(gs, tables);
    var order := KeyOrder(pseudo);
    var attacker;
    isInCheck, attacker := Attacks.CheckIfKingIsInCheck(gs, pseudo, isWhiteKing, order);
  }

  /** Without a king of its colour on the board a side is never in check. */
  lemma NoKingNotInCheck(gs: GameState, tables: Generators.AttackTables, isWhiteKing: bool)
    requires gs.kingBitboard & (if isWhiteKing then gs.whiteBitboard else gs.blackBitboard) == 0
    ensures !KingInCheck(gs, tables, isWhiteKing)
  {
    Attacks.NoKingNoCheck(gs, Generators.InitialMoves(gs, tables).pseudo, isWhiteKing);
  }

  /**
   * Moving `piece` to `move` leaves the mover's king out of check; the
   * mover is white when the piece is on the white board.
   */
  predicate SafeMove(gs: GameState, tables: Generators.AttackTables, piece: bv64, move: bv64)
  {
    !KingInCheck(Simulation.SimulateMove(gs, piece, move), tables, Simulation.MoverIsWhite(gs, piece))
  }

  /** The bits of `rest`, lowest first, that pass `safe`, added to `acc`. */
  function SafeFrom(safe: bv64 -> bool, rest: bv64, acc: bv64): bv64
    decreases rest
  {
    if rest == 0 then acc
    else
      SafeFrom(safe, ClearLowest(rest), Pass(safe, acc, LowestBit(rest)))
  }

  /** Go's `if !inCheck { acc |= p }` for one move `p`. */
  function Pass(safe: bv64 -> bool, acc: bv64, p: bv64): bv64
  {
    if safe(p) then acc | p else acc
  }

  /** The safety test of one piece's moves. */
  function Safety(gs: GameState, tables: Generators.AttackTables, piece: bv64): bv64 -> bool
  {
    move => SafeMove(gs, tables, piece, move)
  }

  /** The targets among `moves` that are safe for `piece`. */
  function SafeTargets(gs: GameState, tables: Generators.AttackTables, piece: bv64, moves: bv64): bv64
  {
    SafeFrom(Safety(gs, tables, piece), moves, 0)
  }

  /** A single bit lies in another single bit only when the two are equal. */
  lemma BitOfBit(q: bv64, p: bv64)
    requires IsBit(q) && IsBit(p)
    ensures BitOf(q, p) <==> q == p
  {
    if q != p {
      DistinctBits(q, p);
    }
  }

  lemma SafeFromOn(safe: bv64 -> bool, rest: bv64, acc: bv64)
    requires rest != 0
    ensures SafeFrom(safe, rest, acc) == SafeFrom(safe, ClearLowest(rest), Pass(safe, acc, LowestBit(rest)))
  {
  }

  lemma SafeFromOff(safe: bv64 -> bool, acc: bv64)
    ensures SafeFrom(safe, 0, acc) == acc
  {
  }

  /** One move adds itself, when it passes, and nothing else. */
  lemma PassBits(safe: bv64 -> bool, acc: bv64, p: bv64, q: bv64)
    requires IsBit(p) && IsBit(q)
    ensures BitOf(q, Pass(safe, acc, p)) <==> BitOf(q, acc) || (q == p && safe(p))
  {
    BitOfBit(q, p);
    if safe(p) {
      BitOfUnion(q, acc, p);
    }
  }

  /** The bits of `SafeFrom` are those of `acc` and the bits of `rest` that pass. */
  lemma {:induction false} SafeFromBits(safe: bv64 -> bool, rest: bv64, acc: bv64, q: bv64)
    requires IsBit(q)
    ensures BitOf(q, SafeFrom(safe, rest, acc)) <==> BitOf(q, acc) || (BitOf(q, rest) && safe(q))
    decreases rest
  {
    BitOfClearLowest(q, rest);
    if rest == 0 {
      SafeFromOff(safe, acc);
    } else {
      var p := LowestBit(rest);
      var next := Pass(safe, acc, p);
      SafeFromOn(safe, rest, acc);
      PassBits(safe, acc, p, q);
      SafeFromBits(safe, ClearLowest(rest), next, q);
    }
  }

  /** A target is kept exactly when it is one of the piece's moves and it is safe. */
  lemma SafeTargetsBits(gs: GameState, tables: Generators.AttackTables, piece: bv64, moves: bv64, q: bv64)
    requires IsBit(q)
    ensures BitOf(q, SafeTargets(gs, tables, piece, moves)) <==> BitOf(q, moves) && SafeMove(gs, tables, piece, q)
  {
    SafeFromBits(Safety(gs, tables, piece), moves, 0, q);
  }

  /** Some target survives exactly when one of the moves is safe. */
  lemma SafeTargetsSome(gs: GameState, tables: Generators.AttackTables, piece: bv64, moves: bv64)
    ensures SafeTargets(gs, tables, piece, moves) != 0 <==>
      exists q :: BitOf(q, moves) && SafeMove(gs, tables, piece, q)
  {
    var safe := SafeTargets(gs, tables, piece, moves);
    if safe != 0 {
      var q := LowestBit(safe);
      SafeTargetsBits(gs, tables, piece, moves, q);
    }
    forall q | BitOf(q, moves) && SafeMove(gs, tables, piece, q)
      ensures safe != 0
    {
      SafeTargetsBits(gs, tables, piece, moves, q);
    }
  }

  /** The map with `piece` set to `v`, or unchanged when `v` is empty: Go's `m[piece] |= ...` never run. */
  function Recorded(m: MoveMap, piece: bv64, v: bv64): MoveMap
  {
    if v == 0 then m else m[Key(piece) := v]
  }

  /**
   * The test inside both loops of `filterLegalMoves`: play the move on a
   * copy of the position and ask whether the mover's king is then in check.
   */
  method IsSafe(gs: GameState, tables: Generators.AttackTables, piece: bv64, movePosition: bv64, ghost safety: bv64 -> bool) returns (safe: bool)
    requires safety == Safety(gs, tables, piece)
    ensures safe == safety(movePosition)
  {
    var simulatedGameState := Simulation.SimulateMove(gs, piece, movePosition);
    var isWhite := Meets(gs.whiteBitboard, piece);
    var inCheck := IsKingInCheck(simulatedGameState, tables, isWhite);
    safe := !inCheck;
  }

  /** Recording a passing move in the map records the accumulator after it. */
  lemma RecordedPass(safe: bv64 -> bool, filtered: MoveMap, out: MoveMap, piece: bv64, acc: bv64, p: bv64)
    requires Key(piece) !in filtered && out == Recorded(filtered, piece, acc) && IsBit(p)
    ensures (if safe(p) then out[Key(piece) := Lookup(out, piece) | p] else out) == Recorded(filtered, piece, Pass(safe, acc, p))
  {
    if safe(p) {
      assert Lookup(out, piece) == acc;
      NonZeroUnion(acc, p);
    }
  }

  /** The first loop of `filterLegalMoves` for one piece: `filteredMoves[piece] |= movePosition` for each safe move. */
  method KeepSafe(gs: GameState, tables: Generators.AttackTables, piece: bv64, moves: bv64, filtered: MoveMap)
    returns (out: MoveMap)
    requires Key(piece) !in filtered
    ensures out == Recorded(filtered, piece, SafeTargets(gs, tables, piece, moves))
  {
    ghost var safety := Safety(gs, tables, piece);
    out := filtered;
    var move := moves;
    ghost var acc: bv64 := 0;
    while move != 0
      invariant SafeFrom(safety, move, acc) == SafeFrom(safety, moves, 0)
      invariant out == Recorded(filtered, piece, acc)
      decreases BitCount(move)
    {
      var movePosition := LowestBit(move);
      var safe := IsSafe(gs, tables, piece, movePosition, safety);
      SafeFromOn(safety, move, acc);
      RecordedPass(safety, filtered, out, piece, acc, movePosition);
      if safe {
        out := out[Key(piece) := Lookup(out, piece) | movePosition];
      }
      acc := Pass(safety, acc, movePosition);
      move := ClearLowest(move);
    }
    SafeFromOff(safety, acc);
  }

  /** A pawn on the white pawn board captures onto the black board; any other pawn onto the white board. */
  function Opposite(gs: GameState, piece: bv64): bv64
  {
    if Meets(gs.pawnBitboard & gs.whiteBitboard, piece) then gs.blackBitboard else gs.whiteBitboard
  }

  /**
   * A pawn's entry after the second loop: its kept safe attacks that land on
   * an opposing piece, plus all of its legal targets as soon as any one of
   * them is safe.
   */
  function PawnEntry(gs: GameState, tables: Generators.AttackTables, piece: bv64, kept: bv64, pieceMoves: bv64): bv64
  {
    Joined(kept & Opposite(gs, piece), SafeTargets(gs, tables, piece, pieceMoves) != 0, pieceMoves)
  }

  /** `base`, with all of `pieceMoves` added once some move has passed. */
  function Joined(base: bv64, passed: bool, pieceMoves: bv64): bv64
  {
    if passed then base | pieceMoves else base
  }

  lemma NonZeroUnion(acc: bv64, p: bv64)
    requires p != 0
    ensures acc | p != 0
  {
  }

  lemma OrTwice(base: bv64, pieceMoves: bv64)
    ensures (base | pieceMoves) | pieceMoves == base | pieceMoves
  {
  }

  /** Adding all of `pieceMoves` to an entry that may already hold them. */
  lemma JoinStep(entry: bv64, base: bv64, passed: bool, pieceMoves: bv64)
    requires entry == Joined(base, passed, pieceMoves)
    ensures entry | pieceMoves == Joined(base, true, pieceMoves)
  {
    if passed {
      OrTwice(base, pieceMoves);
    }
  }

  /** The second loop of `filterLegalMoves` for one pawn. */
  method KeepSafePawn(gs: GameState, tables: Generators.AttackTables, piece: bv64, pieceMoves: bv64, filtered: MoveMap)
    returns (out: MoveMap)
    ensures out == filtered[Key(piece) := PawnEntry(gs, tables, piece, Lookup(filtered, piece), pieceMoves)]
  {
    var kept := KeepCaptures(gs, piece, Lookup(filtered, piece));
    out := filtered[Key(piece) := kept];
    out := JoinSafeMoves(gs, tables, piece, pieceMoves, out, filtered, kept);
    PawnEntryIs(gs, tables, piece, Lookup(filtered, piece), pieceMoves, kept, SafeTargets(gs, tables, piece, pieceMoves) != 0);
  }

  /** The inner loop of the pawn pass: each safe move adds all of the pawn's legal targets. */
  method JoinSafeMoves(gs: GameState, tables: Generators.AttackTables, piece: bv64, pieceMoves: bv64,
                       start: MoveMap, ghost filtered: MoveMap, ghost kept: bv64)
    returns (out: MoveMap)
    requires start == filtered[Key(piece) := kept]
    ensures out == filtered[Key(piece) := Joined(kept, SafeTargets(gs, tables, piece, pieceMoves) != 0, pieceMoves)]
  {
    ghost var safety := Safety(gs, tables, piece);
    out := start;
    var move := pieceMoves;
    ghost var acc: bv64 := 0;
    ghost var passed := false;
    while move != 0
      invariant SafeFrom(safety, move, acc) == SafeFrom(safety, pieceMoves, 0)
      invariant passed == (acc != 0)
      invariant out == filtered[Key(piece) := Joined(kept, passed, pieceMoves)]
      decreases BitCount(move)
    {
      var movePosition := LowestBit(move);
      SafeFromOn(safety, move, acc);
      PassNonZero(safety, acc, movePosition);
      out, passed := JoinIfSafe(gs, tables, piece, pieceMoves, movePosition, out, filtered, kept, passed);
      acc := Pass(safety, acc, movePosition);
      move := ClearLowest(move);
    }
    SafeFromOff(safety, acc);
  }

  /** Some move has passed after `p` exactly when one had before or `p` passes. */
  lemma PassNonZero(safe: bv64 -> bool, acc: bv64, p: bv64)
    requires p != 0
    ensures (Pass(safe, acc, p) != 0) == (acc != 0 || safe(p))
  {
    if safe(p) {
      NonZeroUnion(acc, p);
    }
  }

  /** One pass of the pawn loop: `filteredMoves[piece] |= legalMoves[piece]` when the move is safe. */
  method JoinIfSafe(gs: GameState, tables: Generators.AttackTables, piece: bv64, pieceMoves: bv64, movePosition: bv64,
                    out: MoveMap, ghost filtered: MoveMap, ghost kept: bv64, ghost passed: bool)
    returns (next: MoveMap, ghost nowPassed: bool)
    requires out == filtered[Key(piece) := Joined(kept, passed, pieceMoves)]
    ensures nowPassed == (passed || Safety(gs, tables, piece)(movePosition))
    ensures next == filtered[Key(piece) := Joined(kept, nowPassed, pieceMoves)]
  {
    var safe := IsSafe(gs, tables, piece, movePosition, Safety(gs, tables, piece));
    if safe {
      var entry := out[Key(piece)];
      JoinStep(entry, kept, passed, pieceMoves);
      var joined := entry | pieceMoves;
      Generators.Overwritten(filtered, Key(piece), Joined(kept, passed, pieceMoves), joined);
      next := out[Key(piece) := joined];
      nowPassed := true;
    } else {
      next, nowPassed := out, passed;
    }
  }

  lemma PawnEntryIs(gs: GameState, tables: Generators.AttackTables, piece: bv64, entry: bv64, pieceMoves: bv64, kept: bv64, passed: bool)
    requires kept == entry & Opposite(gs, piece)
    requires passed == (SafeTargets(gs, tables, piece, pieceMoves) != 0)
    ensures Joined(kept, passed, pieceMoves) == PawnEntry(gs, tables, piece, entry, pieceMoves)
  {
  }

  /** Go's `filteredMoves[piece] &= ...`: a white pawn keeps the entries on black pieces, any other pawn those on white ones. */
  method KeepCaptures(gs: GameState, piece: bv64, entry: bv64) returns (kept: bv64)
    ensures kept == entry & Opposite(gs, piece)
  {
    if Meets(gs.pawnBitboard & gs.whiteBitboard, piece) {
      WhitePawnOpposite(gs, piece);
      kept := entry & gs.blackBitboard;
    } else {
      OtherPawnOpposite(gs, piece);
      kept := entry & gs.whiteBitboard;
    }
  }

  lemma WhitePawnOpposite(gs: GameState, piece: bv64)
    requires Meets(gs.pawnBitboard & gs.whiteBitboard, piece)
    ensures Opposite(gs, piece) == gs.blackBitboard
  {
  }

  lemma OtherPawnOpposite(gs: GameState, piece: bv64)
    requires !Meets(gs.pawnBitboard & gs.whiteBitboard, piece)
    ensures Opposite(gs, piece) == gs.whiteBitboard
  {
  }

  /** The entries `value` gives the keys of `keys`, the empty ones left out. */
  function NonEmpty(keys: set<Key>, value: Key -> bv64): MoveMap
  {
    map k | k in keys && value(k) != 0 :: value(k)
  }

  lemma NonEmptyAdd(keys: set<Key>, value: Key -> bv64, k: Key)
    requires k !in keys
    ensures NonEmpty(keys + {k}, value) == Recorded(NonEmpty(keys, value), k.bit, value(k))
  {
  }

  /** `base` with the keys of `keys` set to what `value` gives them. */
  function Overlay(base: MoveMap, keys: set<Key>, value: Key -> bv64): MoveMap
  {
    map k | k in base.Keys + keys :: if k in keys then value(k) else base[k]
  }

  lemma OverlayNone(base: MoveMap, value: Key -> bv64)
    ensures Overlay(base, {}, value) == base
  {
  }

  lemma OverlayAdd(base: MoveMap, keys: set<Key>, value: Key -> bv64, k: Key)
    requires k !in keys
    ensures Lookup(Overlay(base, keys, value), k.bit) == Lookup(base, k.bit)
    ensures Overlay(base, keys + {k}, value) == Overlay(base, keys, value)[k := value(k)]
  {
  }

  /** The safe pseudo-legal targets of each piece. */
  function SafeEntry(gs: GameState, tables: Generators.AttackTables, pseudo: MoveMap): Key -> bv64
  {
    (k: Key) => SafeTargets(gs, tables, k.bit, Lookup(pseudo, k.bit))
  }

  lemma SafeEntryAt(gs: GameState, tables: Generators.AttackTables, pseudo: MoveMap, k: Key)
    requires k in pseudo
    ensures SafeEntry(gs, tables, pseudo)(k) == SafeTargets(gs, tables, k.bit, pseudo[k])
  {
    assert Key(k.bit) == k;
  }

  /** The map after the first loop: every piece with a safe pseudo-legal move, sent to its safe moves. */
  function FirstPass(gs: GameState, tables: Generators.AttackTables, pseudo: MoveMap): MoveMap
  {
    NonEmpty(pseudo.Keys, SafeEntry(gs, tables, pseudo))
  }

  /** The keys among `keys` of pieces on the pawn board. */
  function Pawns(gs: GameState, keys: set<Key>): set<Key>
  {
    set k | k in keys && Meets(gs.pawnBitboard, k.bit)
  }

  /** What the second loop writes for a pawn, given the map the first loop left. */
  function PawnValue(gs: GameState, tables: Generators.AttackTables, legal: MoveMap, first: MoveMap): Key -> bv64
  {
    (k: Key) => PawnEntry(gs, tables, k.bit, Lookup(first, k.bit), Lookup(legal, k.bit))
  }

  lemma PawnValueAt(gs: GameState, tables: Generators.AttackTables, legal: MoveMap, first: MoveMap, k: Key, entry: bv64)
    requires k in legal && entry == Lookup(first, k.bit)
    ensures PawnValue(gs, tables, legal, first)(k) == PawnEntry(gs, tables, k.bit, entry, legal[k])
  {
    assert Key(k.bit) == k;
  }

  /** The map `filterLegalMoves` returns. */
  function Filtered(gs: GameState, tables: Generators.AttackTables, pseudo: MoveMap, legal: MoveMap): MoveMap
  {
    var first := FirstPass(gs, tables, pseudo);
    Overlay(first, Pawns(gs, legal.Keys), PawnValue(gs, tables, legal, first))
  }

  /** The first loop of `filterLegalMoves`, over the pieces of the pseudo-legal map. */
  method KeepSafeMoves(gs: GameState, tables: Generators.AttackTables, pseudo: MoveMap) returns (filtered: MoveMap)
    ensures filtered == FirstPass(gs, tables, pseudo)
  {
    filtered := map[];
    var rest := pseudo.Keys;
    ghost var done: set<Key> := {};
    while rest != {}
      invariant rest <= pseudo.Keys && done == pseudo.Keys - rest
      invariant filtered == NonEmpty(done, SafeEntry(gs, tables, pseudo))
      decreases |rest|
    {
      var piece :| piece in rest;
      filtered := KeepSafeStep(gs, tables, pseudo, piece, filtered, done);
      rest := rest - {piece};
      done := done + {piece};
    }
    assert done == pseudo.Keys;
  }

  /** One round of the first loop: the piece's safe moves join the map when there are any. */
  method KeepSafeStep(gs: GameState, tables: Generators.AttackTables, pseudo: MoveMap, piece: Key, filtered: MoveMap,
                      ghost done: set<Key>)
    returns (next: MoveMap)
    requires piece in pseudo && piece !in done
    requires filtered == NonEmpty(done, SafeEntry(gs, tables, pseudo))
    ensures next == NonEmpty(done + {piece}, SafeEntry(gs, tables, pseudo))
  {
    ghost var value := SafeEntry(gs, tables, pseudo);
    NonEmptyAdd(done, value, piece);
    SafeEntryAt(gs, tables, pseudo, piece);
    assert Key(piece.bit) == piece;
    var moves := pseudo[piece];
    next := KeepSafe(gs, tables, piece.bit, moves, filtered);
  }

  /** The second loop of `filterLegalMoves`, over the pieces of the legal map. */
  method RewritePawns(gs: GameState, tables: Generators.AttackTables, legal: MoveMap, first: MoveMap) returns (filtered: MoveMap)
    ensures filtered == Overlay(first, Pawns(gs, legal.Keys), PawnValue(gs, tables, legal, first))
  {
    filtered := first;
    OverlayNone(first, PawnValue(gs, tables, legal, first));
    var rest := legal.Keys;
    ghost var done: set<Key> := {};
    while rest != {}
      invariant rest <= legal.Keys && done == legal.Keys - rest
      invariant filtered == Overlay(first, Pawns(gs, done), PawnValue(gs, tables, legal, first))
      decreases |rest|
    {
      var piece :| piece in rest;
      filtered := RewriteStep(gs, tables, legal, first, piece, filtered, done);
      rest := rest - {piece};
      done := done + {piece};
    }
    assert done == legal.Keys;
  }

  /** One round of the second loop: a pawn's entry is rewritten, any other piece's left alone. */
  method RewriteStep(gs: GameState, tables: Generators.AttackTables, legal: MoveMap, first: MoveMap, piece: Key,
                     filtered: MoveMap, ghost done: set<Key>)
    returns (next: MoveMap)
    requires piece in legal && piece !in done
    requires filtered == Overlay(first, Pawns(gs, done), PawnValue(gs, tables, legal, first))
    ensures next == Overlay(first, Pawns(gs, done + {piece}), PawnValue(gs, tables, legal, first))
  {
    ghost var value := PawnValue(gs, tables, legal, first);
    var pieceMoves := legal[piece];
    if Meets(gs.pawnBitboard, piece.bit) {
      assert Pawns(gs, done + {piece}) == Pawns(gs, done) + {piece};
      OverlayAdd(first, Pawns(gs, done), value, piece);
      PawnValueAt(gs, tables, legal, first, piece, Lookup(filtered, piece.bit));
      assert Key(piece.bit) == piece;
      next := KeepSafePawn(gs, tables, piece.bit, pieceMoves, filtered);
    } else {
      assert Pawns(gs, done + {piece}) == Pawns(gs, done);
      next := filtered;
    }
  }

  /** `filterLegalMoves`: keeps the safe pseudo-legal moves, then rewrites every pawn entry. */
  method FilterLegalMoves(gs: GameState, tables: Generators.AttackTables, legal: MoveMap, pseudo: MoveMap)
    returns (filtered: MoveMap)
    ensures filtered == Filtered(gs, tables, pseudo, legal)
  {
    filtered := KeepSafeMoves(gs, tables, pseudo);
    filtered := RewritePawns(gs, tables, legal, filtered);
  }
}
