/**
 * What one pass of the pawn loops of `GenerateInitialMoves`
 * (bitboard_legal_moves.go) writes into an empty legal entry: the square
 * ahead exactly when it is empty, the square two ahead exactly when the
 * pawn stands on its start rank and both squares ahead are empty, on its
 * capture squares exactly its attack set, and nothing else.
 *
 * The entry is the parameter `e`, which these lemmas require to be 0: the
 * generator passes the entry it reads from a fresh map.
 */
module PawnEntries {
  import opened Bits
  import opened Generators

  // ---------------------------------------------------------------- words

  lemma UnionMeets(a: bv64, b: bv64, t: bv64)
    ensures Meets(a | b, t) ==> Meets(a, t) || Meets(b, t)
  {
  }

  lemma WithinApart(a: bv64, d: bv64, t: bv64)
    ensures a & !d == 0 && d & t == 0 ==> !Meets(a, t)
  {
  }

  lemma MeetsLeft(a: bv64, b: bv64, t: bv64)
    ensures Meets(a, t) ==> Meets(a | b, t)
  {
  }

  lemma MeetsAdded(s: bv64, t: bv64, x: bv64)
    ensures Meets(t, x) ==> Meets(s | t, t)
  {
  }

  lemma ZeroMisses(e: bv64, t: bv64)
    ensures e == 0 ==> !Meets(e, t)
  {
  }

  lemma SubWithin(s: bv64, t: bv64)
    ensures s & !(s | t) == 0 && (s | t) & !(s | t) == 0
  {
  }

  lemma WithinChain(s: bv64, d: bv64, one: bv64, two: bv64)
    ensures s & !one == 0 && d & !(s | two) == 0 ==> d & !(one | two) == 0
  {
  }

  lemma WithinUnion(d: bv64, a: bv64, x: bv64, y: bv64)
    ensures d & !x == 0 && a & !y == 0 ==> (d | a) & !(x | y) == 0
  {
  }

  lemma CapturePart(d: bv64, a: bv64, pushes: bv64, diag: bv64)
    ensures d & !pushes == 0 && pushes & diag == 0 && a & !diag == 0 ==> (d | a) & diag == a
  {
  }

  lemma UnionApart(a: bv64, b: bv64, c: bv64)
    ensures c & a == 0 && c & b == 0 ==> (a | b) & c == 0
  {
  }

  // ---------------------------------------------------------------- a pawn's squares

  /** A white pawn's square ahead, two ahead and capture squares are pairwise different. */
  lemma WhiteSquaresApart(p: bv64)
    requires IsBit(p)
    ensures OneAhead(p, true) & TwoAhead(p, true) == 0
    ensures Diagonals(p, true) & TwoAhead(p, true) == 0
    ensures Diagonals(p, true) & OneAhead(p, true) == 0
  {
  }

  /** A black pawn's square ahead, two ahead and capture squares are pairwise different. */
  lemma BlackSquaresApart(p: bv64)
    requires IsBit(p)
    ensures OneAhead(p, false) & TwoAhead(p, false) == 0
    ensures Diagonals(p, false) & TwoAhead(p, false) == 0
    ensures Diagonals(p, false) & OneAhead(p, false) == 0
  {
  }

  lemma SquaresApart(p: bv64, white: bool)
    requires IsBit(p)
    ensures OneAhead(p, white) & TwoAhead(p, white) == 0
    ensures Diagonals(p, white) & TwoAhead(p, white) == 0
    ensures Diagonals(p, white) & OneAhead(p, white) == 0
  {
    if white {
      WhiteSquaresApart(p);
    } else {
      BlackSquaresApart(p);
    }
  }

  lemma PushesApart(p: bv64, white: bool)
    requires IsBit(p)
    ensures (OneAhead(p, white) | TwoAhead(p, white)) & Diagonals(p, white) == 0
  {
    SquaresApart(p, white);
    UnionApart(OneAhead(p, white), TwoAhead(p, white), Diagonals(p, white));
  }

  // ---------------------------------------------------------------- the stages of one pass

  /** A pawn's entry is its push stages ORed with its attack set. */
  lemma PawnEntryUnfold(e: bv64, p: bv64, white: bool, occupied: bv64, enemy: bv64, enPassant: bv64)
    ensures PawnEntry(e, p, white, occupied, enemy, enPassant) ==
      DoubleStage(SingleStage(e, p, white, occupied), p, white, occupied) | PawnAttacks(p, white, enemy, enPassant)
  {
  }

  /** The single stage adds the square ahead when it is empty, and nothing otherwise. */
  lemma SingleStageCases(e: bv64, p: bv64, white: bool, occupied: bv64)
    ensures Meets(OneAhead(p, white), !occupied) ==> SingleStage(e, p, white, occupied) == e | OneAhead(p, white)
    ensures !Meets(OneAhead(p, white), !occupied) ==> SingleStage(e, p, white, occupied) == e
  {
  }

  /** The double stage adds the square two ahead under the double-push conditions, and nothing otherwise. */
  lemma DoubleStageCases(s: bv64, p: bv64, white: bool, occupied: bv64)
    ensures Meets(p, StartRank(white)) && Meets(OneAhead(p, white), !occupied) && Meets(TwoAhead(p, white), !occupied) ==>
      DoubleStage(s, p, white, occupied) == s | TwoAhead(p, white)
    ensures !(Meets(p, StartRank(white)) && Meets(OneAhead(p, white), !occupied) && Meets(TwoAhead(p, white), !occupied)) ==>
      DoubleStage(s, p, white, occupied) == s
  {
  }

  /** The single stage over an empty entry adds at most the square ahead. */
  lemma SingleWithin(e: bv64, p: bv64, white: bool, occupied: bv64)
    ensures e == 0 ==> SingleStage(e, p, white, occupied) & !OneAhead(p, white) == 0
  {
  }

  /** The double stage adds at most the square two ahead. */
  lemma DoubleStageWithin(s: bv64, p: bv64, white: bool, occupied: bv64)
    ensures DoubleStage(s, p, white, occupied) & !(s | TwoAhead(p, white)) == 0
  {
    DoubleStageCases(s, p, white, occupied);
    SubWithin(s, TwoAhead(p, white));
  }

  /** The attack set lies within the capture squares. */
  lemma AttacksWithin(p: bv64, white: bool, enemy: bv64, enPassant: bv64)
    ensures PawnAttacks(p, white, enemy, enPassant) & !Diagonals(p, white) == 0
  {
  }

  /** The double stage over an entry within the square ahead stays within the squares one and two ahead. */
  lemma DoubleStageWithinPushes(s: bv64, p: bv64, white: bool, occupied: bv64)
    ensures s & !OneAhead(p, white) == 0 ==> DoubleStage(s, p, white, occupied) & !(OneAhead(p, white) | TwoAhead(p, white)) == 0
  {
    DoubleStageWithin(s, p, white, occupied);
    WithinChain(s, DoubleStage(s, p, white, occupied), OneAhead(p, white), TwoAhead(p, white));
  }

  /** The push stages of an empty entry hold at most the squares one and two ahead. */
  lemma StagesWithin(e: bv64, p: bv64, white: bool, occupied: bv64)
    ensures e == 0 ==> DoubleStage(SingleStage(e, p, white, occupied), p, white, occupied) & !(OneAhead(p, white) | TwoAhead(p, white)) == 0
  {
    SingleWithin(e, p, white, occupied);
    DoubleStageWithinPushes(SingleStage(e, p, white, occupied), p, white, occupied);
  }

  /** No capture lands two squares ahead. */
  lemma AttacksMissTwoAhead(p: bv64, white: bool, enemy: bv64, enPassant: bv64)
    requires IsBit(p)
    ensures !Meets(PawnAttacks(p, white, enemy, enPassant), TwoAhead(p, white))
  {
    SquaresApart(p, white);
    AttacksWithin(p, white, enemy, enPassant);
    WithinApart(PawnAttacks(p, white, enemy, enPassant), Diagonals(p, white), TwoAhead(p, white));
  }

  /** No capture lands on the square ahead. */
  lemma AttacksMissOneAhead(p: bv64, white: bool, enemy: bv64, enPassant: bv64)
    requires IsBit(p)
    ensures !Meets(PawnAttacks(p, white, enemy, enPassant), OneAhead(p, white))
  {
    SquaresApart(p, white);
    AttacksWithin(p, white, enemy, enPassant);
    WithinApart(PawnAttacks(p, white, enemy, enPassant), Diagonals(p, white), OneAhead(p, white));
  }

  /** The single push does not land two squares ahead. */
  lemma SingleMissesTwoAhead(e: bv64, p: bv64, white: bool, occupied: bv64)
    requires e == 0 && IsBit(p)
    ensures !Meets(SingleStage(e, p, white, occupied), TwoAhead(p, white))
  {
    SquaresApart(p, white);
    SingleWithin(e, p, white, occupied);
    WithinApart(SingleStage(e, p, white, occupied), OneAhead(p, white), TwoAhead(p, white));
  }

  /** With the square ahead empty, the single stage holds it. */
  lemma SingleStageMeets(e: bv64, p: bv64, white: bool, occupied: bv64)
    ensures Meets(OneAhead(p, white), !occupied) ==> Meets(SingleStage(e, p, white, occupied), OneAhead(p, white))
  {
    SingleStageCases(e, p, white, occupied);
    MeetsAdded(e, OneAhead(p, white), !occupied);
  }

  /** Under the double-push conditions the double stage holds the square two ahead. */
  lemma DoubleStageMeets(s: bv64, p: bv64, white: bool, occupied: bv64)
    ensures Meets(p, StartRank(white)) && Meets(OneAhead(p, white), !occupied) && Meets(TwoAhead(p, white), !occupied) ==>
      Meets(DoubleStage(s, p, white, occupied), TwoAhead(p, white))
  {
    DoubleStageCases(s, p, white, occupied);
    MeetsAdded(s, TwoAhead(p, white), !occupied);
  }

  /** The double stage keeps what the entry held. */
  lemma DoubleStageKeeps(s: bv64, p: bv64, white: bool, occupied: bv64, t: bv64)
    ensures Meets(s, t) ==> Meets(DoubleStage(s, p, white, occupied), t)
  {
    DoubleStageCases(s, p, white, occupied);
    MeetsLeft(s, TwoAhead(p, white), t);
  }

  /** With the square ahead empty, the push stages hold it. */
  lemma StagesMeetOneAhead(e: bv64, p: bv64, white: bool, occupied: bv64)
    ensures Meets(OneAhead(p, white), !occupied) ==>
      Meets(DoubleStage(SingleStage(e, p, white, occupied), p, white, occupied), OneAhead(p, white))
  {
    SingleStageMeets(e, p, white, occupied);
    DoubleStageKeeps(SingleStage(e, p, white, occupied), p, white, occupied, OneAhead(p, white));
  }

  // ---------------------------------------------------------------- what the entry holds

  /** A pawn's entry holds the square ahead exactly when that square is empty. */
  lemma SinglePushRule(e: bv64, p: bv64, white: bool, occupied: bv64, enemy: bv64, enPassant: bv64)
    requires e == 0 && IsBit(p)
    ensures Meets(PawnEntry(e, p, white, occupied, enemy, enPassant), OneAhead(p, white)) <==> Meets(OneAhead(p, white), !occupied)
  {
    if Meets(OneAhead(p, white), !occupied) {
      SinglePushAdded(e, p, white, occupied, enemy, enPassant);
    } else {
      SinglePushNeeds(e, p, white, occupied, enemy, enPassant);
    }
  }

  lemma SinglePushAdded(e: bv64, p: bv64, white: bool, occupied: bv64, enemy: bv64, enPassant: bv64)
    ensures Meets(OneAhead(p, white), !occupied) ==> Meets(PawnEntry(e, p, white, occupied, enemy, enPassant), OneAhead(p, white))
  {
    PawnEntryUnfold(e, p, white, occupied, enemy, enPassant);
    StagesMeetOneAhead(e, p, white, occupied);
    MeetsLeft(DoubleStage(SingleStage(e, p, white, occupied), p, white, occupied), PawnAttacks(p, white, enemy, enPassant), OneAhead(p, white));
  }

  lemma SinglePushNeeds(e: bv64, p: bv64, white: bool, occupied: bv64, enemy: bv64, enPassant: bv64)
    requires e == 0 && IsBit(p)
    ensures Meets(PawnEntry(e, p, white, occupied, enemy, enPassant), OneAhead(p, white)) ==> Meets(OneAhead(p, white), !occupied)
  {
    PawnEntryUnfold(e, p, white, occupied, enemy, enPassant);
    SingleStageCases(e, p, white, occupied);
    DoubleStageCases(e, p, white, occupied);
    AttacksMissOneAhead(p, white, enemy, enPassant);
    ZeroMisses(e, OneAhead(p, white));
    UnionMeets(e, PawnAttacks(p, white, enemy, enPassant), OneAhead(p, white));
  }

  /**
   * A pawn's entry holds the square two ahead exactly when the pawn stands
   * on its start rank and both squares ahead are empty.
   */
  lemma DoublePushRule(e: bv64, p: bv64, white: bool, occupied: bv64, enemy: bv64, enPassant: bv64)
    requires e == 0 && IsBit(p)
    ensures Meets(PawnEntry(e, p, white, occupied, enemy, enPassant), TwoAhead(p, white)) <==>
      Meets(p, StartRank(white)) && Meets(OneAhead(p, white), !occupied) && Meets(TwoAhead(p, white), !occupied)
  {
    if Meets(p, StartRank(white)) && Meets(OneAhead(p, white), !occupied) && Meets(TwoAhead(p, white), !occupied) {
      DoublePushAdded(e, p, white, occupied, enemy, enPassant);
    } else {
      DoublePushNeeds(e, p, white, occupied, enemy, enPassant);
    }
  }

  lemma DoublePushAdded(e: bv64, p: bv64, white: bool, occupied: bv64, enemy: bv64, enPassant: bv64)
    ensures Meets(p, StartRank(white)) && Meets(OneAhead(p, white), !occupied) && Meets(TwoAhead(p, white), !occupied) ==>
      Meets(PawnEntry(e, p, white, occupied, enemy, enPassant), TwoAhead(p, white))
  {
    var single := SingleStage(e, p, white, occupied);
    PawnEntryUnfold(e, p, white, occupied, enemy, enPassant);
    DoubleStageMeets(single, p, white, occupied);
    MeetsLeft(DoubleStage(single, p, white, occupied), PawnAttacks(p, white, enemy, enPassant), TwoAhead(p, white));
  }

  lemma DoublePushNeeds(e: bv64, p: bv64, white: bool, occupied: bv64, enemy: bv64, enPassant: bv64)
    requires e == 0 && IsBit(p)
    ensures Meets(PawnEntry(e, p, white, occupied, enemy, enPassant), TwoAhead(p, white)) ==>
      Meets(p, StartRank(white)) && Meets(OneAhead(p, white), !occupied) && Meets(TwoAhead(p, white), !occupied)
  {
    var single := SingleStage(e, p, white, occupied);
    PawnEntryUnfold(e, p, white, occupied, enemy, enPassant);
    DoubleStageCases(single, p, white, occupied);
    AttacksMissTwoAhead(p, white, enemy, enPassant);
    SingleMissesTwoAhead(e, p, white, occupied);
    UnionMeets(single, PawnAttacks(p, white, enemy, enPassant), TwoAhead(p, white));
  }

  /** A pawn's entry holds nothing but the squares one and two ahead and its capture squares. */
  lemma PawnEntryWithin(e: bv64, p: bv64, white: bool, occupied: bv64, enemy: bv64, enPassant: bv64)
    requires e == 0
    ensures PawnEntry(e, p, white, occupied, enemy, enPassant) & !((OneAhead(p, white) | TwoAhead(p, white)) | Diagonals(p, white)) == 0
  {
    PawnEntryUnfold(e, p, white, occupied, enemy, enPassant);
    StagesWithin(e, p, white, occupied);
    AttacksWithin(p, white, enemy, enPassant);
    WithinUnion(DoubleStage(SingleStage(e, p, white, occupied), p, white, occupied), PawnAttacks(p, white, enemy, enPassant),
      OneAhead(p, white) | TwoAhead(p, white), Diagonals(p, white));
  }

  /** On its capture squares a pawn's entry holds exactly its attack set. */
  lemma CapturesOfEntry(e: bv64, p: bv64, white: bool, occupied: bv64, enemy: bv64, enPassant: bv64)
    requires e == 0 && IsBit(p)
    ensures PawnEntry(e, p, white, occupied, enemy, enPassant) & Diagonals(p, white) == PawnAttacks(p, white, enemy, enPassant)
  {
    PawnEntryUnfold(e, p, white, occupied, enemy, enPassant);
    StagesWithin(e, p, white, occupied);
    AttacksWithin(p, white, enemy, enPassant);
    PushesApart(p, white);
    CapturePart(DoubleStage(SingleStage(e, p, white, occupied), p, white, occupied), PawnAttacks(p, white, enemy, enPassant),
      OneAhead(p, white) | TwoAhead(p, white), Diagonals(p, white));
  }
}
