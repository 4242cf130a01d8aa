/**
 * What the maps of `GenerateInitialMoves` (bitboard_legal_moves.go) hold,
 * piece by piece. Each generator loop writes only the keys of its own
 * pieces, so on a position whose colour boards and piece-type boards are
 * pairwise disjoint every piece's entry is the one its own loop wrote:
 * a knight's table entry without its own side, a slider's traced rays
 * without its own side, a king's steps clear of its own side and of the
 * enemy's attacks plus its castling squares, a pawn's pushes and captures.
 */
module GeneratorProperties {
  import opened Bits
  import opened GameStateRecord
  import opened Generators
  import Rays
  import Attacks

  /** The colour boards share no square, and neither do any two piece-type boards. */
  predicate SeparateBoards(gs: GameState)
  {
    gs.whiteBitboard & gs.blackBitboard == 0 &&
    gs.pawnBitboard & gs.knightBitboard == 0 && gs.pawnBitboard & gs.bishopBitboard == 0 &&
    gs.pawnBitboard & gs.rookBitboard == 0 && gs.pawnBitboard & gs.queenBitboard == 0 &&
    gs.pawnBitboard & gs.kingBitboard == 0 &&
    gs.knightBitboard & gs.bishopBitboard == 0 && gs.knightBitboard & gs.rookBitboard == 0 &&
    gs.knightBitboard & gs.queenBitboard == 0 && gs.knightBitboard & gs.kingBitboard == 0 &&
    gs.bishopBitboard & gs.rookBitboard == 0 && gs.bishopBitboard & gs.queenBitboard == 0 &&
    gs.bishopBitboard & gs.kingBitboard == 0 &&
    gs.rookBitboard & gs.queenBitboard == 0 && gs.rookBitboard & gs.kingBitboard == 0 &&
    gs.queenBitboard & gs.kingBitboard == 0
  }

  /** A bit of one board is not a bit of a board disjoint from it. */
  lemma Apart(p: bv64, a: bv64, b: bv64)
    requires BitOf(p, a) && a & b == 0
    ensures !BitOf(p, b)
  {
  }

  /** A board with a bit is not empty. */
  lemma NonEmpty(p: bv64, x: bv64)
    requires BitOf(p, x)
    ensures x != 0
  {
  }

  /** Writing one square's entries leaves every other square's entries alone. */
  lemma PutOther(m: Moves, piece: bv64, pseudoEntry: bv64, legalEntry: bv64, p: bv64)
    requires piece != p
    ensures Lookup(Put(m, piece, pseudoEntry, legalEntry).legal, p) == Lookup(m.legal, p)
    ensures Lookup(Put(m, piece, pseudoEntry, legalEntry).pseudo, p) == Lookup(m.pseudo, p)
  {
  }

  /** Writing a square's entries makes them what it reads back. */
  lemma PutSame(m: Moves, p: bv64, pseudoEntry: bv64, legalEntry: bv64)
    ensures Lookup(Put(m, p, pseudoEntry, legalEntry).legal, p) == legalEntry
    ensures Lookup(Put(m, p, pseudoEntry, legalEntry).pseudo, p) == pseudoEntry
  {
  }

  // ---------------------------------------------------------------- knights

  /** The knight loop leaves the entries of every other square as they were. */
  lemma {:induction false} KnightsFromOther(gs: GameState, tables: AttackTables, rest: bv64, m: Moves, p: bv64)
    requires IsBit(p) && !BitOf(p, rest)
    ensures Lookup(KnightsFrom(gs, tables, rest, m).legal, p) == Lookup(m.legal, p)
    ensures Lookup(KnightsFrom(gs, tables, rest, m).pseudo, p) == Lookup(m.pseudo, p)
    decreases rest
  {
    if rest != 0 {
      var piece, others := LowestBit(rest), ClearLowest(rest);
      BitOfClearLowest(p, rest);
      KnightsFromOn(gs, tables, rest, m);
      var targets := KnightTargets(gs, tables, piece);
      PutOther(m, piece, targets, targets, p);
      KnightsFromOther(gs, tables, others, KnightStep(gs, tables, piece, m), p);
    }
  }

  /** The knight the loop visits first ends with its targets, in both maps. */
  lemma KnightsFromFirst(gs: GameState, tables: AttackTables, rest: bv64, m: Moves)
    requires rest != 0
    ensures Lookup(KnightsFrom(gs, tables, rest, m).legal, LowestBit(rest)) == KnightTargets(gs, tables, LowestBit(rest))
    ensures Lookup(KnightsFrom(gs, tables, rest, m).pseudo, LowestBit(rest)) == KnightTargets(gs, tables, LowestBit(rest))
  {
    var piece := LowestBit(rest);
    var targets := KnightTargets(gs, tables, piece);
    KnightsFromOn(gs, tables, rest, m);
    LowestNotInRest(rest);
    PutSame(m, piece, targets, targets);
    KnightsFromOther(gs, tables, ClearLowest(rest), KnightStep(gs, tables, piece, m), piece);
  }

  /** The knight loop gives each of its knights its targets, in both maps. */
  lemma {:induction false} KnightsFromWritten(gs: GameState, tables: AttackTables, rest: bv64, m: Moves, p: bv64)
    requires BitOf(p, rest)
    ensures Lookup(KnightsFrom(gs, tables, rest, m).legal, p) == KnightTargets(gs, tables, p)
    ensures Lookup(KnightsFrom(gs, tables, rest, m).pseudo, p) == KnightTargets(gs, tables, p)
    decreases rest
  {
    NonEmpty(p, rest);
    BitOfClearLowest(p, rest);
    if p == LowestBit(rest) {
      KnightsFromFirst(gs, tables, rest, m);
    } else {
      KnightsFromOn(gs, tables, rest, m);
      KnightsFromWritten(gs, tables, ClearLowest(rest), KnightStep(gs, tables, LowestBit(rest), m), p);
    }
  }

  // ---------------------------------------------------------------- sliders

  /** A slider's legal entry: its table entry cut to the rays traced over all pieces, without its own side. */
  function SliderLegal(gs: GameState, tables: AttackTables, kind: Slider, piece: bv64): bv64
    requires piece != 0
  {
    SliderLegalEntry(gs.whiteBitboard, gs.blackBitboard, piece, SliderAttacks(tables, kind, piece), Directions(kind))
  }

  /** A slider's pseudo-legal entry: its rays traced past the enemy king, without its own side. */
  function SliderPseudo(gs: GameState, tables: AttackTables, kind: Slider, piece: bv64): bv64
    requires piece != 0
  {
    SliderPseudoEntry(gs.whiteBitboard, gs.blackBitboard, gs.kingBitboard, piece, SliderAttacks(tables, kind, piece), Directions(kind))
  }

  /** A slider loop leaves the entries of every other square as they were. */
  lemma {:induction false} SlidersFromOther(gs: GameState, tables: AttackTables, kind: Slider, rest: bv64, m: Moves, p: bv64)
    requires IsBit(p) && !BitOf(p, rest)
    ensures Lookup(SlidersFrom(gs, tables, kind, rest, m).legal, p) == Lookup(m.legal, p)
    ensures Lookup(SlidersFrom(gs, tables, kind, rest, m).pseudo, p) == Lookup(m.pseudo, p)
    decreases rest
  {
    if rest != 0 {
      var piece, others := LowestBit(rest), ClearLowest(rest);
      BitOfClearLowest(p, rest);
      SlidersFromOn(gs, tables, kind, rest, m);
      PutOther(m, piece, SliderPseudo(gs, tables, kind, piece), SliderLegal(gs, tables, kind, piece), p);
      SlidersFromOther(gs, tables, kind, others, SliderStep(gs, tables, kind, piece, m), p);
    }
  }

  /** The slider a slider loop visits first ends with its two entries. */
  lemma SlidersFromFirst(gs: GameState, tables: AttackTables, kind: Slider, rest: bv64, m: Moves)
    requires rest != 0
    ensures Lookup(SlidersFrom(gs, tables, kind, rest, m).legal, LowestBit(rest)) == SliderLegal(gs, tables, kind, LowestBit(rest))
    ensures Lookup(SlidersFrom(gs, tables, kind, rest, m).pseudo, LowestBit(rest)) == SliderPseudo(gs, tables, kind, LowestBit(rest))
  {
    var piece := LowestBit(rest);
    SlidersFromOn(gs, tables, kind, rest, m);
    LowestNotInRest(rest);
    PutSame(m, piece, SliderPseudo(gs, tables, kind, piece), SliderLegal(gs, tables, kind, piece));
    SlidersFromOther(gs, tables, kind, ClearLowest(rest), SliderStep(gs, tables, kind, piece, m), piece);
  }

  /** A slider loop gives each of its sliders its legal and its pseudo-legal entry. */
  lemma {:induction false} SlidersFromWritten(gs: GameState, tables: AttackTables, kind: Slider, rest: bv64, m: Moves, p: bv64)
    requires BitOf(p, rest)
    ensures Lookup(SlidersFrom(gs, tables, kind, rest, m).legal, p) == SliderLegal(gs, tables, kind, p)
    ensures Lookup(SlidersFrom(gs, tables, kind, rest, m).pseudo, p) == SliderPseudo(gs, tables, kind, p)
    decreases rest
  {
    NonEmpty(p, rest);
    BitOfClearLowest(p, rest);
    if p == LowestBit(rest) {
      SlidersFromFirst(gs, tables, kind, rest, m);
    } else {
      SlidersFromOn(gs, tables, kind, rest, m);
      SlidersFromWritten(gs, tables, kind, ClearLowest(rest), SliderStep(gs, tables, kind, LowestBit(rest), m), p);
    }
  }

  // ---------------------------------------------------------------- kings

  /**
   * The pseudo-legal map the king loop over `rest` reads when it reaches the
   * king on `p`: the map it started from, with the entries of the kings it
   * visited before `p` written.
   */
  function KingView(gs: GameState, tables: AttackTables, rest: bv64, m: Moves, p: bv64): MoveMap
    decreases rest
  {
    if rest == 0 || LowestBit(rest) == p then m.pseudo
    else KingView(gs, tables, ClearLowest(rest), KingStep(gs, tables, LowestBit(rest), m), p)
  }

  /** The king loop leaves the entries of every other square as they were. */
  lemma {:induction false} KingsFromOther(gs: GameState, tables: AttackTables, rest: bv64, m: Moves, p: bv64)
    requires IsBit(p) && !BitOf(p, rest)
    ensures Lookup(KingsFrom(gs, tables, rest, m).legal, p) == Lookup(m.legal, p)
    ensures Lookup(KingsFrom(gs, tables, rest, m).pseudo, p) == Lookup(m.pseudo, p)
    decreases rest
  {
    if rest != 0 {
      var piece, others := LowestBit(rest), ClearLowest(rest);
      BitOfClearLowest(p, rest);
      KingsFromOn(gs, tables, rest, m);
      var targets := KingTargets(gs, tables, piece, m.pseudo);
      PutOther(m, piece, targets, targets, p);
      KingsFromOther(gs, tables, others, KingStep(gs, tables, piece, m), p);
    }
  }

  /** The map a king reads differs from the starting map only at the kings of the loop. */
  lemma {:induction false} KingViewOther(gs: GameState, tables: AttackTables, rest: bv64, m: Moves, p: bv64, q: bv64)
    requires IsBit(q) && !BitOf(q, rest)
    ensures Lookup(KingView(gs, tables, rest, m, p), q) == Lookup(m.pseudo, q)
    decreases rest
  {
    if rest != 0 && LowestBit(rest) != p {
      var piece := LowestBit(rest);
      BitOfClearLowest(q, rest);
      var targets := KingTargets(gs, tables, piece, m.pseudo);
      PutOther(m, piece, targets, targets, q);
      KingViewOther(gs, tables, ClearLowest(rest), KingStep(gs, tables, piece, m), p, q);
    }
  }

  /** The king the loop visits first ends with its targets read against the starting map. */
  lemma KingsFromFirst(gs: GameState, tables: AttackTables, rest: bv64, m: Moves)
    requires rest != 0
    ensures Lookup(KingsFrom(gs, tables, rest, m).legal, LowestBit(rest)) == KingTargets(gs, tables, LowestBit(rest), m.pseudo)
    ensures Lookup(KingsFrom(gs, tables, rest, m).pseudo, LowestBit(rest)) == KingTargets(gs, tables, LowestBit(rest), m.pseudo)
  {
    var piece := LowestBit(rest);
    var targets := KingTargets(gs, tables, piece, m.pseudo);
    KingsFromOn(gs, tables, rest, m);
    LowestNotInRest(rest);
    PutSame(m, piece, targets, targets);
    KingsFromOther(gs, tables, ClearLowest(rest), KingStep(gs, tables, piece, m), piece);
  }

  /** The king loop gives each of its kings its targets, read against the map as the loop reaches it. */
  lemma {:induction false} KingsFromWritten(gs: GameState, tables: AttackTables, rest: bv64, m: Moves, p: bv64)
    requires BitOf(p, rest)
    ensures Lookup(KingsFrom(gs, tables, rest, m).legal, p) == KingTargets(gs, tables, p, KingView(gs, tables, rest, m, p))
    ensures Lookup(KingsFrom(gs, tables, rest, m).pseudo, p) == KingTargets(gs, tables, p, KingView(gs, tables, rest, m, p))
    decreases rest
  {
    NonEmpty(p, rest);
    BitOfClearLowest(p, rest);
    if p == LowestBit(rest) {
      KingsFromFirst(gs, tables, rest, m);
    } else {
      KingsFromOn(gs, tables, rest, m);
      KingsFromWritten(gs, tables, ClearLowest(rest), KingStep(gs, tables, LowestBit(rest), m), p);
    }
  }

  // ---------------------------------------------------------------- pawns

  /** The white pawn loop leaves the entries of every other square as they were. */
  lemma {:induction false} WhitePawnsFromOther(gs: GameState, rest: bv64, m: Moves, p: bv64)
    requires IsBit(p) && !BitOf(p, rest)
    ensures Lookup(WhitePawnsFrom(gs, rest, m).legal, p) == Lookup(m.legal, p)
    ensures Lookup(WhitePawnsFrom(gs, rest, m).pseudo, p) == Lookup(m.pseudo, p)
    decreases rest
  {
    if rest != 0 {
      var piece := LowestBit(rest);
      BitOfClearLowest(p, rest);
      PutOther(m, piece, Diagonals(piece, true), PawnEntry(Lookup(m.legal, piece), piece, true, Occupied(gs), Enemy(gs, true), gs.enPassant), p);
      WhitePawnsFromOther(gs, ClearLowest(rest), PawnStep(gs, piece, true, m), p);
    }
  }

  /** The white pawn the loop visits first gets its pushes and captures added to its entry. */
  lemma WhitePawnsFromFirst(gs: GameState, rest: bv64, m: Moves)
    requires rest != 0
    ensures Lookup(WhitePawnsFrom(gs, rest, m).legal, LowestBit(rest)) ==
      PawnEntry(Lookup(m.legal, LowestBit(rest)), LowestBit(rest), true, Occupied(gs), Enemy(gs, true), gs.enPassant)
    ensures Lookup(WhitePawnsFrom(gs, rest, m).pseudo, LowestBit(rest)) == Diagonals(LowestBit(rest), true)
  {
    var piece := LowestBit(rest);
    LowestNotInRest(rest);
    PutSame(m, piece, Diagonals(piece, true), PawnEntry(Lookup(m.legal, piece), piece, true, Occupied(gs), Enemy(gs, true), gs.enPassant));
    WhitePawnsFromOther(gs, ClearLowest(rest), PawnStep(gs, piece, true, m), piece);
  }

  /** The white pawn loop adds each white pawn's pushes and captures to its entry, and sets its capture squares. */
  lemma {:induction false} WhitePawnsFromWritten(gs: GameState, rest: bv64, m: Moves, p: bv64)
    requires BitOf(p, rest)
    ensures Lookup(WhitePawnsFrom(gs, rest, m).legal, p) == PawnEntry(Lookup(m.legal, p), p, true, Occupied(gs), Enemy(gs, true), gs.enPassant)
    ensures Lookup(WhitePawnsFrom(gs, rest, m).pseudo, p) == Diagonals(p, true)
    decreases rest
  {
    NonEmpty(p, rest);
    BitOfClearLowest(p, rest);
    if p == LowestBit(rest) {
      WhitePawnsFromFirst(gs, rest, m);
    } else {
      var piece := LowestBit(rest);
      PutOther(m, piece, Diagonals(piece, true), PawnEntry(Lookup(m.legal, piece), piece, true, Occupied(gs), Enemy(gs, true), gs.enPassant), p);
      WhitePawnsFromWritten(gs, ClearLowest(rest), PawnStep(gs, piece, true, m), p);
    }
  }

  /** The black pawn loop leaves the entries of every other square as they were. */
  lemma {:induction false} BlackPawnsFromOther(gs: GameState, rest: bv64, m: Moves, p: bv64)
    requires IsBit(p) && !BitOf(p, rest)
    ensures Lookup(BlackPawnsFrom(gs, rest, m).legal, p) == Lookup(m.legal, p)
    ensures Lookup(BlackPawnsFrom(gs, rest, m).pseudo, p) == Lookup(m.pseudo, p)
    decreases rest
  {
    if rest != 0 {
      var piece := LowestBit(rest);
      BitOfClearLowest(p, rest);
      PutOther(m, piece, Diagonals(piece, false), PawnEntry(Lookup(m.legal, piece), piece, false, Occupied(gs), Enemy(gs, false), gs.enPassant), p);
      BlackPawnsFromOther(gs, ClearLowest(rest), PawnStep(gs, piece, false, m), p);
    }
  }

  /** The black pawn the loop visits first gets its pushes and captures added to its entry. */
  lemma BlackPawnsFromFirst(gs: GameState, rest: bv64, m: Moves)
    requires rest != 0
    ensures Lookup(BlackPawnsFrom(gs, rest, m).legal, LowestBit(rest)) ==
      PawnEntry(Lookup(m.legal, LowestBit(rest)), LowestBit(rest), false, Occupied(gs), Enemy(gs, false), gs.enPassant)
    ensures Lookup(BlackPawnsFrom(gs, rest, m).pseudo, LowestBit(rest)) == Diagonals(LowestBit(rest), false)
  {
    var piece := LowestBit(rest);
    LowestNotInRest(rest);
    PutSame(m, piece, Diagonals(piece, false), PawnEntry(Lookup(m.legal, piece), piece, false, Occupied(gs), Enemy(gs, false), gs.enPassant));
    BlackPawnsFromOther(gs, ClearLowest(rest), PawnStep(gs, piece, false, m), piece);
  }

  /** The black pawn loop adds each black pawn's pushes and captures to its entry, and sets its capture squares. */
  lemma {:induction false} BlackPawnsFromWritten(gs: GameState, rest: bv64, m: Moves, p: bv64)
    requires BitOf(p, rest)
    ensures Lookup(BlackPawnsFrom(gs, rest, m).legal, p) == PawnEntry(Lookup(m.legal, p), p, false, Occupied(gs), Enemy(gs, false), gs.enPassant)
    ensures Lookup(BlackPawnsFrom(gs, rest, m).pseudo, p) == Diagonals(p, false)
    decreases rest
  {
    NonEmpty(p, rest);
    BitOfClearLowest(p, rest);
    if p == LowestBit(rest) {
      BlackPawnsFromFirst(gs, rest, m);
    } else {
      var piece := LowestBit(rest);
      PutOther(m, piece, Diagonals(piece, false), PawnEntry(Lookup(m.legal, piece), piece, false, Occupied(gs), Enemy(gs, false), gs.enPassant), p);
      BlackPawnsFromWritten(gs, ClearLowest(rest), PawnStep(gs, piece, false, m), p);
    }
  }

  // ---------------------------------------------------------------- what a piece's entry holds

  lemma StepsClear(stored: bv64, own: bv64, attacked: bv64)
    ensures ((stored & !own) & !attacked) & own == 0
    ensures ((stored & !own) & !attacked) & attacked == 0
    ensures ((stored & !own) & !attacked) & !stored == 0
  {
  }

  lemma UnionDisjoint(a: bv64, b: bv64, c: bv64)
    requires a & c == 0 && b & c == 0
    ensures (a | b) & c == 0
  {
  }

  /** The squares castling adds are clear of any board the conditions keep them off. */
  lemma CastlingClear(kingSide: bool, queenSide: bool, g: bv64, c: bv64, x: bv64)
    requires kingSide ==> g & x == 0
    requires queenSide ==> c & x == 0
    ensures ((if kingSide then g else 0) | (if queenSide then c else 0)) & x == 0
  {
    if kingSide && queenSide {
      UnionDisjoint(g, c, x);
    } else if kingSide {
      UnionDisjoint(g, 0, x);
    } else if queenSide {
      UnionDisjoint(0, c, x);
    } else {
      UnionDisjoint(0, 0, x);
    }
  }

  lemma Commute(a: bv64, b: bv64)
    ensures a & b == b & a
  {
  }

  /** Cutting a side's squares out of a target set leaves none of them, and nothing new. */
  lemma CutClear(cut: bv64, targets: bv64, own: bv64)
    requires cut == targets & !own
    ensures cut & own == 0 && cut & !targets == 0
  {
  }

  lemma WhiteCut(white: bv64, black: bv64, piece: bv64, targets: bv64)
    requires Meets(white, piece)
    ensures WithoutOwnSide(white, black, piece, targets) & white == 0
    ensures WithoutOwnSide(white, black, piece, targets) & !targets == 0
  {
    WhiteOwnSide(white, black, piece, targets);
    CutClear(WithoutOwnSide(white, black, piece, targets), targets, white);
  }

  lemma BlackCut(white: bv64, black: bv64, piece: bv64, targets: bv64)
    requires !Meets(white, piece) && Meets(black, piece)
    ensures WithoutOwnSide(white, black, piece, targets) & black == 0
    ensures WithoutOwnSide(white, black, piece, targets) & !targets == 0
  {
    BlackOwnSide(white, black, piece, targets);
    CutClear(WithoutOwnSide(white, black, piece, targets), targets, black);
  }

  lemma NoCut(white: bv64, black: bv64, piece: bv64, targets: bv64)
    requires !Meets(white, piece) && !Meets(black, piece)
    ensures WithoutOwnSide(white, black, piece, targets) & !targets == 0
  {
    NoOwnSide(white, black, piece, targets);
    SelfClear(targets);
  }

  lemma SelfClear(t: bv64)
    ensures t & !t == 0
  {
  }

  lemma CutWithin(white: bv64, black: bv64, piece: bv64, targets: bv64)
    ensures WithoutOwnSide(white, black, piece, targets) & !targets == 0
  {
    if Meets(white, piece) {
      WhiteCut(white, black, piece, targets);
    } else if Meets(black, piece) {
      BlackCut(white, black, piece, targets);
    } else {
      NoCut(white, black, piece, targets);
    }
  }

  lemma WhiteKingSideClear(rights: string, white: bv64, black: bv64, attacked: bv64)
    ensures WhiteKingSide(rights, white, black, attacked) ==> G1 & white == 0 && G1 & attacked == 0
  {
    Commute(white, G1); Commute(attacked, G1);
  }

  lemma WhiteQueenSideClear(rights: string, white: bv64, black: bv64, attacked: bv64)
    ensures WhiteQueenSide(rights, white, black, attacked) ==> C1 & white == 0 && C1 & attacked == 0
  {
    Commute(white, C1); Commute(attacked, C1);
  }

  lemma BlackKingSideClear(rights: string, white: bv64, black: bv64, attacked: bv64)
    ensures BlackKingSide(rights, white, black, attacked) ==> G8 & black == 0 && G8 & attacked == 0
  {
    Commute(black, G8); Commute(attacked, G8);
  }

  lemma BlackQueenSideClear(rights: string, white: bv64, black: bv64, attacked: bv64)
    ensures BlackQueenSide(rights, white, black, attacked) ==> C8 & black == 0 && C8 & attacked == 0
  {
    Commute(black, C8); Commute(attacked, C8);
  }

  /** White's castling squares hold no white piece. */
  lemma WhiteCastlingOwnClear(piece: bv64, rights: string, white: bv64, black: bv64, attacked: bv64)
    ensures WhiteCastling(piece, rights, white, black, attacked) & white == 0
  {
    WhiteKingSideClear(rights, white, black, attacked);
    WhiteQueenSideClear(rights, white, black, attacked);
    CastlingClear(WhiteKingSide(rights, white, black, attacked), WhiteQueenSide(rights, white, black, attacked), G1, C1, white);
  }

  /** White's castling squares are not attacked. */
  lemma WhiteCastlingSafe(piece: bv64, rights: string, white: bv64, black: bv64, attacked: bv64)
    ensures WhiteCastling(piece, rights, white, black, attacked) & attacked == 0
  {
    WhiteKingSideClear(rights, white, black, attacked);
    WhiteQueenSideClear(rights, white, black, attacked);
    CastlingClear(WhiteKingSide(rights, white, black, attacked), WhiteQueenSide(rights, white, black, attacked), G1, C1, attacked);
  }

  /** Black's castling squares hold no black piece. */
  lemma BlackCastlingOwnClear(piece: bv64, rights: string, white: bv64, black: bv64, attacked: bv64)
    ensures BlackCastling(piece, rights, white, black, attacked) & black == 0
  {
    BlackKingSideClear(rights, white, black, attacked);
    BlackQueenSideClear(rights, white, black, attacked);
    CastlingClear(BlackKingSide(rights, white, black, attacked), BlackQueenSide(rights, white, black, attacked), G8, C8, black);
  }

  /** Black's castling squares are not attacked. */
  lemma BlackCastlingSafe(piece: bv64, rights: string, white: bv64, black: bv64, attacked: bv64)
    ensures BlackCastling(piece, rights, white, black, attacked) & attacked == 0
  {
    BlackKingSideClear(rights, white, black, attacked);
    BlackQueenSideClear(rights, white, black, attacked);
    CastlingClear(BlackKingSide(rights, white, black, attacked), BlackQueenSide(rights, white, black, attacked), G8, C8, attacked);
  }

  /** A white king's steps and castling squares hold no white piece and no attacked square. */
  lemma WhiteEntryClear(piece: bv64, stored: bv64, rights: string, white: bv64, black: bv64, attacked: bv64)
    ensures (KingSteps(stored, white, attacked) | WhiteCastling(piece, rights, white, black, attacked)) & white == 0
    ensures (KingSteps(stored, white, attacked) | WhiteCastling(piece, rights, white, black, attacked)) & attacked == 0
  {
    var steps, castling := KingSteps(stored, white, attacked), WhiteCastling(piece, rights, white, black, attacked);
    StepsClear(stored, white, attacked);
    WhiteCastlingOwnClear(piece, rights, white, black, attacked);
    WhiteCastlingSafe(piece, rights, white, black, attacked);
    UnionDisjoint(steps, castling, white);
    UnionDisjoint(steps, castling, attacked);
  }

  /** A black king's steps and castling squares hold no black piece and no attacked square. */
  lemma BlackEntryClear(piece: bv64, stored: bv64, rights: string, white: bv64, black: bv64, attacked: bv64)
    ensures (KingSteps(stored, black, attacked) | BlackCastling(piece, rights, white, black, attacked)) & black == 0
    ensures (KingSteps(stored, black, attacked) | BlackCastling(piece, rights, white, black, attacked)) & attacked == 0
  {
    var steps, castling := KingSteps(stored, black, attacked), BlackCastling(piece, rights, white, black, attacked);
    StepsClear(stored, black, attacked);
    BlackCastlingOwnClear(piece, rights, white, black, attacked);
    BlackCastlingSafe(piece, rights, white, black, attacked);
    UnionDisjoint(steps, castling, black);
    UnionDisjoint(steps, castling, attacked);
  }

  /** A white king's targets hold no white piece and no square the black pieces attack in the map it reads. */
  lemma WhiteKingClear(piece: bv64, stored: bv64, rights: string, white: bv64, black: bv64, pseudo: MoveMap)
    ensures WhiteKingEntry(piece, stored, rights, white, black, pseudo) & white == 0
    ensures WhiteKingEntry(piece, stored, rights, white, black, pseudo) & Attacks.Attacked(black, pseudo) == 0
  {
    WhiteEntryClear(piece, stored, rights, white, black, Attacks.Attacked(black, pseudo));
  }

  /** A black king's targets hold no black piece and no square the white pieces attack in the map it reads. */
  lemma BlackKingClear(piece: bv64, stored: bv64, rights: string, white: bv64, black: bv64, pseudo: MoveMap)
    ensures BlackKingEntry(piece, stored, rights, white, black, pseudo) & black == 0
    ensures BlackKingEntry(piece, stored, rights, white, black, pseudo) & Attacks.Attacked(white, pseudo) == 0
  {
    BlackEntryClear(piece, stored, rights, white, black, Attacks.Attacked(white, pseudo));
  }

  /** A white king's targets hold no white piece and no square black attacks in the map it reads. */
  lemma WhiteKingAvoids(gs: GameState, tables: AttackTables, piece: bv64, pseudo: MoveMap)
    requires Meets(gs.whiteBitboard, piece)
    ensures KingTargets(gs, tables, piece, pseudo) & gs.whiteBitboard == 0
    ensures KingTargets(gs, tables, piece, pseudo) & Attacks.Attacked(gs.blackBitboard, pseudo) == 0
  {
    WhiteKingTargets(gs, tables, piece, pseudo);
    WhiteKingClear(piece, Lookup(tables.king, piece), gs.castlingRights, gs.whiteBitboard, gs.blackBitboard, pseudo);
  }

  /** A black king's targets hold no black piece and no square white attacks in the map it reads. */
  lemma BlackKingAvoids(gs: GameState, tables: AttackTables, piece: bv64, pseudo: MoveMap)
    requires !Meets(gs.whiteBitboard, piece) && Meets(gs.blackBitboard, piece)
    ensures KingTargets(gs, tables, piece, pseudo) & gs.blackBitboard == 0
    ensures KingTargets(gs, tables, piece, pseudo) & Attacks.Attacked(gs.whiteBitboard, pseudo) == 0
  {
    BlackKingTargets(gs, tables, piece, pseudo);
    BlackKingClear(piece, Lookup(tables.king, piece), gs.castlingRights, gs.whiteBitboard, gs.blackBitboard, pseudo);
  }
}
