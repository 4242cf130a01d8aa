/**
 * What the pieces of one side attack, whether a side has a move left and
 * whether a king is in check, over move maps from a piece's bit to the bits
 * of its targets (bitboard_legal_moves.go, `getAttackedSquares`,
 * `checkIsMoveLeft`, `CheckIfKingIsInCheck`).
 */
module Attacks {
  import opened Bits
  import opened GameStateRecord
  import BitboardUtils

  /** Go's `if s != 0 { acc |= s }`. */
  function Gather(acc: bv64, s: bv64): bv64
  {
    if s != 0 then acc | s else acc
  }

  /**
   * The accumulator `acc` after the remaining pieces `rest` of the enemy
   * board, lowest bit first, have had their target sets gathered into it.
   */
  function AttackedFrom(rest: bv64, moves: MoveMap, acc: bv64): bv64
    decreases rest
  {
    if rest == 0 then acc else AttackedFrom(ClearLowest(rest), moves, Gather(acc, Lookup(moves, LowestBit(rest))))
  }

  /** The squares the pieces of `enemy` attack according to `moves`. */
  function Attacked(enemy: bv64, moves: MoveMap): bv64
  {
    AttackedFrom(enemy, moves, 0)
  }

  /**
   * `getAttackedSquares`: walks the enemy board from its lowest bit and
   * collects the non-empty target sets of its pieces.
   */
  method GetAttackedSquares(enemyBitboard: bv64, moves: MoveMap) returns (attackedSquares: bv64)
    ensures attackedSquares == Attacked(enemyBitboard, moves)
  {
    attackedSquares := 0;
    var rest := enemyBitboard;
    while rest != 0
      invariant AttackedFrom(rest, moves, attackedSquares) == Attacked(enemyBitboard, moves)
      decreases BitCount(rest)
    {
      var piece := LowestBit(rest);
      AttackedFromOn(rest, moves, attackedSquares);
      attackedSquares := GatherInto(attackedSquares, Lookup(moves, piece));
      rest := ClearLowest(rest);
    }
  }

  /** The body of the loop for one piece: a non-empty target set is added to the accumulator. */
  method GatherInto(acc: bv64, s: bv64) returns (next: bv64)
    ensures next == Gather(acc, s)
  {
    next := acc;
    if s != 0 {
      next := next | s;
    }
  }

  /** All bits of `a` are bits of `b`. */
  predicate Within(a: bv64, b: bv64)
  {
    a | b == b
  }

  lemma GatherKeeps(acc: bv64, s: bv64)
    ensures Within(acc, Gather(acc, s)) && Within(s, Gather(acc, s))
  {
  }

  lemma GatherMeets(acc: bv64, s: bv64, q: bv64)
    requires Meets(Gather(acc, s), q) && !Meets(acc, q)
    ensures Meets(s, q)
  {
    assert (acc | s) & q == (acc & q) | (s & q);
  }

  lemma WithinTrans(a: bv64, b: bv64, c: bv64)
    requires Within(a, b) && Within(b, c)
    ensures Within(a, c)
  {
  }

  lemma AttackedFromOn(rest: bv64, moves: MoveMap, acc: bv64)
    requires rest != 0
    ensures AttackedFrom(rest, moves, acc) == AttackedFrom(ClearLowest(rest), moves, Gather(acc, Lookup(moves, LowestBit(rest))))
  {
  }

  lemma AttackedFromOff(moves: MoveMap, acc: bv64)
    ensures AttackedFrom(0, moves, acc) == acc
  {
  }

  lemma NonEmpty(p: bv64, x: bv64)
    requires BitOf(p, x)
    ensures x != 0
  {
  }

  /** A set bit of `x` other than its lowest is a set bit of the rest. */
  lemma BitOfRest(p: bv64, x: bv64)
    requires BitOf(p, x) && p != LowestBit(x)
    ensures BitOf(p, ClearLowest(x)) && x != 0
  {
    BitOfClearLowest(p, x);
  }

  /** A set bit of the rest of `x` is a set bit of `x`. */
  lemma RestBitOf(p: bv64, x: bv64)
    requires BitOf(p, ClearLowest(x))
    ensures BitOf(p, x)
  {
    BitOfClearLowest(p, x);
  }

  /** Gathering never loses what is already in the accumulator. */
  lemma {:induction false} GatheredKept(rest: bv64, moves: MoveMap, acc: bv64)
    ensures Within(acc, AttackedFrom(rest, moves, acc))
    decreases rest
  {
    if rest != 0 {
      var next := Gather(acc, Lookup(moves, LowestBit(rest)));
      AttackedFromOn(rest, moves, acc);
      GatherKeeps(acc, Lookup(moves, LowestBit(rest)));
      GatheredKept(ClearLowest(rest), moves, next);
      WithinTrans(acc, next, AttackedFrom(ClearLowest(rest), moves, next));
    }
  }

  lemma {:induction false} CoversFrom(rest: bv64, moves: MoveMap, acc: bv64, p: bv64)
    requires BitOf(p, rest)
    ensures Within(Lookup(moves, p), AttackedFrom(rest, moves, acc))
    decreases rest
  {
    NonEmpty(p, rest);
    var next := Gather(acc, Lookup(moves, LowestBit(rest)));
    AttackedFromOn(rest, moves, acc);
    if p == LowestBit(rest) {
      GatherKeeps(acc, Lookup(moves, p));
      GatheredKept(ClearLowest(rest), moves, next);
      WithinTrans(Lookup(moves, p), next, AttackedFrom(ClearLowest(rest), moves, next));
    } else {
      BitOfRest(p, rest);
      CoversFrom(ClearLowest(rest), moves, next, p);
    }
  }

  lemma {:induction false} AttackerFrom(rest: bv64, moves: MoveMap, acc: bv64, q: bv64) returns (p: bv64)
    requires Meets(AttackedFrom(rest, moves, acc), q) && !Meets(acc, q)
    ensures BitOf(p, rest) && Meets(Lookup(moves, p), q)
    decreases rest
  {
    if rest == 0 {
      AttackedFromOff(moves, acc);
      assert false;
    }
    var next := Gather(acc, Lookup(moves, LowestBit(rest)));
    AttackedFromOn(rest, moves, acc);
    if Meets(next, q) {
      GatherMeets(acc, Lookup(moves, LowestBit(rest)), q);
      p := LowestBit(rest);
    } else {
      p := AttackerFrom(ClearLowest(rest), moves, next, q);
      RestBitOf(p, rest);
    }
  }

  /** Every target of every enemy piece is attacked. */
  lemma AttackCovers(enemy: bv64, moves: MoveMap, p: bv64)
    requires BitOf(p, enemy)
    ensures Within(Lookup(moves, p), Attacked(enemy, moves))
  {
    CoversFrom(enemy, moves, 0, p);
  }

  /** Every attacked square is a target of some enemy piece. */
  lemma AttackerOf(enemy: bv64, moves: MoveMap, q: bv64) returns (p: bv64)
    requires Meets(Attacked(enemy, moves), q)
    ensures BitOf(p, enemy) && Meets(Lookup(moves, p), q)
  {
    p := AttackerFrom(enemy, moves, 0, q);
  }

  /** Some piece of `bitboard` has a non-empty target set, trying the lowest bit first. */
  predicate MoveLeft(bitboard: bv64, moves: MoveMap)
    decreases bitboard
  {
    bitboard != 0 && (Lookup(moves, LowestBit(bitboard)) != 0 || MoveLeft(ClearLowest(bitboard), moves))
  }

  /** `checkIsMoveLeft`: stops at the first piece, lowest bit first, that has a target. */
  method CheckIsMoveLeft(bitboard: bv64, moves: MoveMap) returns (left: bool)
    ensures left == MoveLeft(bitboard, moves)
  {
    var rest := bitboard;
    while rest != 0
      invariant MoveLeft(rest, moves) == MoveLeft(bitboard, moves)
      decreases BitCount(rest)
    {
      var piece := LowestBit(rest);
      if Lookup(moves, piece) != 0 {
        return true;
      }
      rest := ClearLowest(rest);
    }
    return false;
  }

  /** A side with a move left has a piece with a non-empty target set. */
  lemma {:induction false} MovingPiece(bitboard: bv64, moves: MoveMap) returns (p: bv64)
    requires MoveLeft(bitboard, moves)
    ensures BitOf(p, bitboard) && Lookup(moves, p) != 0
    decreases bitboard
  {
    if Lookup(moves, LowestBit(bitboard)) != 0 {
      p := LowestBit(bitboard);
    } else {
      p := MovingPiece(ClearLowest(bitboard), moves);
      BitOfClearLowest(p, bitboard);
    }
  }

  /** A piece with a non-empty target set leaves its side a move. */
  lemma {:induction false} PieceMoves(bitboard: bv64, moves: MoveMap, p: bv64)
    requires BitOf(p, bitboard) && Lookup(moves, p) != 0
    ensures MoveLeft(bitboard, moves)
    decreases bitboard
  {
    BitOfClearLowest(p, bitboard);
    if p != LowestBit(bitboard) {
      PieceMoves(ClearLowest(bitboard), moves, p);
    }
  }

  /** The lowest bit of the king board of the given colour; 0 when there is no such king. */
  function KingPosition(gs: GameState, isWhiteKing: bool): bv64
  {
    LowestBit(gs.kingBitboard & (if isWhiteKing then gs.whiteBitboard else gs.blackBitboard))
  }

  /** A piece on the king's own colour board, which `CheckIfKingIsInCheck` skips. */
  predicate SameSide(gs: GameState, piece: bv64, isWhiteKing: bool)
  {
    (Meets(gs.whiteBitboard, piece) && isWhiteKing) || (Meets(gs.blackBitboard, piece) && !isWhiteKing)
  }

  /** `piece` is not on the king's side and its targets include the king's square. */
  predicate Gives(gs: GameState, moves: MoveMap, isWhiteKing: bool, piece: bv64)
    requires Key(piece) in moves
  {
    !SameSide(gs, piece, isWhiteKing) && Meets(moves[Key(piece)], KingPosition(gs, isWhiteKing))
  }

  predicate InCheck(gs: GameState, moves: MoveMap, isWhiteKing: bool)
  {
    exists k :: k in moves && Gives(gs, moves, isWhiteKing, k.bit)
  }

  /** No piece among `seen` gives check. */
  predicate NoneGives(gs: GameState, moves: MoveMap, isWhiteKing: bool, seen: set<Key>)
  {
    forall k :: k in seen && k in moves ==> !Gives(gs, moves, isWhiteKing, k.bit)
  }

  lemma NoneGivesStep(gs: GameState, moves: MoveMap, isWhiteKing: bool, order: seq<Key>, i: nat)
    requires i < |order| && order[i] in moves && NoneGives(gs, moves, isWhiteKing, BitboardUtils.Visited(order, i))
    requires !Gives(gs, moves, isWhiteKing, order[i].bit)
    ensures NoneGives(gs, moves, isWhiteKing, BitboardUtils.Visited(order, i + 1))
  {
  }

  lemma NoneGivesAll(gs: GameState, moves: MoveMap, isWhiteKing: bool, order: seq<Key>)
    requires forall k :: k in moves <==> k in order
    requires NoneGives(gs, moves, isWhiteKing, BitboardUtils.Visited(order, |order|))
    ensures !InCheck(gs, moves, isWhiteKing)
  {
    BitboardUtils.VisitedAll(order);
  }

  /**
   * `CheckIfKingIsInCheck`: visits the move map in Go's unspecified order,
   * given here as `order`, skipping the king's own pieces, and reports the
   * first piece whose targets hold the king's square; `(false, 0)` when none
   * does.
   */
  method CheckIfKingIsInCheck(gs: GameState, moves: MoveMap, isWhiteKing: bool, order: seq<Key>)
    returns (inCheck: bool, attacker: bv64)
    requires forall k :: k in moves <==> k in order
    ensures inCheck <==> InCheck(gs, moves, isWhiteKing)
    ensures inCheck ==> Key(attacker) in moves && Gives(gs, moves, isWhiteKing, attacker)
    ensures !inCheck ==> attacker == 0
  {
    var kingPosition := KingPosition(gs, isWhiteKing);
    for i := 0 to |order|
      invariant NoneGives(gs, moves, isWhiteKing, BitboardUtils.Visited(order, i))
    {
      var piece := order[i].bit;
      var attackSet := moves[order[i]];
      if SameSide(gs, piece, isWhiteKing) {
        NoneGivesStep(gs, moves, isWhiteKing, order, i);
        continue;
      }
      if Meets(attackSet, kingPosition) {
        return true, piece;
      }
      NoneGivesStep(gs, moves, isWhiteKing, order, i);
    }
    NoneGivesAll(gs, moves, isWhiteKing, order);
    return false, 0;
  }

  /** Without a king of its colour on the board a side is never in check. */
  lemma NoKingNoCheck(gs: GameState, moves: MoveMap, isWhiteKing: bool)
    requires gs.kingBitboard & (if isWhiteKing then gs.whiteBitboard else gs.blackBitboard) == 0
    ensures !InCheck(gs, moves, isWhiteKing)
  {
    assert KingPosition(gs, isWhiteKing) == 0;
    forall k | k in moves
      ensures !Gives(gs, moves, isWhiteKing, k.bit)
    {
      assert moves[k] & 0 == 0;
    }
  }
}
