/**
 * What `GenerateInitialMoves` (bitboard_legal_moves.go) leaves in its two
 * maps for each kind of piece. The generators run one after another over the
 * same maps and each writes only the keys of its own pieces, so on a position
 * whose colour boards and piece-type boards are pairwise disjoint
 * (`SeparateBoards`) a piece's entries are the ones its own generator wrote.
 * From those entries follow the rules the move generation promises: a piece
 * never targets a square of its own side, a king never steps onto a square
 * the enemy attacks, it reaches g1, c1, g8 or c8 by castling only from its
 * start square and only with the right and a clear, unattacked path, and a
 * pawn pushes one or two squares only onto empty squares.
 */
module InitialMoveProperties {
  import opened Bits
  import opened GameStateRecord
  import opened Generators
  import opened GeneratorProperties
  import PawnEntries
  import Attacks

  // ---------------------------------------------------------------- the stages

  /** The two empty maps `GenerateInitialMoves` starts from. */
  function NoMoves(): Moves
  {
    Moves(map[], map[])
  }

  function AfterWhitePawns(gs: GameState): Moves
  {
    WhitePawns(gs, NoMoves())
  }

  function AfterBlackPawns(gs: GameState): Moves
  {
    BlackPawns(gs, AfterWhitePawns(gs))
  }

  function AfterKnights(gs: GameState, tables: AttackTables): Moves
  {
    Knights(gs, tables, AfterBlackPawns(gs))
  }

  function AfterBishops(gs: GameState, tables: AttackTables): Moves
  {
    Bishops(gs, tables, AfterKnights(gs, tables))
  }

  function AfterRooks(gs: GameState, tables: AttackTables): Moves
  {
    Rooks(gs, tables, AfterBishops(gs, tables))
  }

  /** The maps the king generator starts from. */
  function AfterQueens(gs: GameState, tables: AttackTables): Moves
  {
    Queens(gs, tables, AfterRooks(gs, tables))
  }

  /** Two maps agree on the entries of square `p`. */
  predicate SameEntry(a: Moves, b: Moves, p: bv64)
  {
    Lookup(a.legal, p) == Lookup(b.legal, p) && Lookup(a.pseudo, p) == Lookup(b.pseudo, p)
  }

  lemma KeptByKings(gs: GameState, tables: AttackTables, p: bv64)
    ensures IsBit(p) && !BitOf(p, gs.kingBitboard) ==> SameEntry(InitialMoves(gs, tables), AfterQueens(gs, tables), p)
  {
    if IsBit(p) && !BitOf(p, gs.kingBitboard) {
      KingsFromOther(gs, tables, gs.kingBitboard, AfterQueens(gs, tables), p);
    }
  }

  lemma KeptByQueens(gs: GameState, tables: AttackTables, p: bv64)
    ensures IsBit(p) && !BitOf(p, gs.kingBitboard) && !BitOf(p, gs.queenBitboard) ==>
      SameEntry(InitialMoves(gs, tables), AfterRooks(gs, tables), p)
  {
    KeptByKings(gs, tables, p);
    if IsBit(p) && !BitOf(p, gs.queenBitboard) {
      SlidersFromOther(gs, tables, Queen, gs.queenBitboard, AfterRooks(gs, tables), p);
    }
  }

  lemma KeptByRooks(gs: GameState, tables: AttackTables, p: bv64)
    ensures IsBit(p) && !BitOf(p, gs.kingBitboard) && !BitOf(p, gs.queenBitboard) && !BitOf(p, gs.rookBitboard) ==>
      SameEntry(InitialMoves(gs, tables), AfterBishops(gs, tables), p)
  {
    KeptByQueens(gs, tables, p);
    if IsBit(p) && !BitOf(p, gs.rookBitboard) {
      SlidersFromOther(gs, tables, Rook, gs.rookBitboard, AfterBishops(gs, tables), p);
    }
  }

  lemma KeptByBishops(gs: GameState, tables: AttackTables, p: bv64)
    ensures (IsBit(p) && !BitOf(p, gs.kingBitboard) && !BitOf(p, gs.queenBitboard) && !BitOf(p, gs.rookBitboard) &&
             !BitOf(p, gs.bishopBitboard)) ==> SameEntry(InitialMoves(gs, tables), AfterKnights(gs, tables), p)
  {
    KeptByRooks(gs, tables, p);
    if IsBit(p) && !BitOf(p, gs.bishopBitboard) {
      SlidersFromOther(gs, tables, Bishop, gs.bishopBitboard, AfterKnights(gs, tables), p);
    }
  }

  lemma KeptByKnights(gs: GameState, tables: AttackTables, p: bv64)
    ensures (IsBit(p) && !BitOf(p, gs.kingBitboard) && !BitOf(p, gs.queenBitboard) && !BitOf(p, gs.rookBitboard) &&
             !BitOf(p, gs.bishopBitboard) && !BitOf(p, gs.knightBitboard)) ==> SameEntry(InitialMoves(gs, tables), AfterBlackPawns(gs), p)
  {
    KeptByBishops(gs, tables, p);
    if IsBit(p) && !BitOf(p, gs.knightBitboard) {
      KnightsFromOther(gs, tables, gs.knightBitboard, AfterBlackPawns(gs), p);
    }
  }

  /** A bit of one board is not a bit of a board disjoint from it. */
  lemma Separate(p: bv64, a: bv64, b: bv64)
    ensures BitOf(p, a) && a & b == 0 ==> !BitOf(p, b)
  {
  }

  /** A square of no piece but a pawn keeps the entries the pawn loops left. */
  lemma KeptPastPawns(gs: GameState, tables: AttackTables, p: bv64)
    requires SeparateBoards(gs) && BitOf(p, gs.pawnBitboard)
    ensures SameEntry(InitialMoves(gs, tables), AfterBlackPawns(gs), p)
  {
    Separate(p, gs.pawnBitboard, gs.kingBitboard);
    Separate(p, gs.pawnBitboard, gs.queenBitboard);
    Separate(p, gs.pawnBitboard, gs.rookBitboard);
    Separate(p, gs.pawnBitboard, gs.bishopBitboard);
    Separate(p, gs.pawnBitboard, gs.knightBitboard);
    KeptByKnights(gs, tables, p);
  }

  /** A bit of a board meets it. */
  lemma BitMeets(p: bv64, x: bv64)
    requires BitOf(p, x)
    ensures Meets(x, p)
  {
    Commute(x, p);
  }

  /** A bit of a board misses every board disjoint from it. */
  lemma BitMisses(p: bv64, x: bv64, y: bv64)
    requires BitOf(p, x) && x & y == 0
    ensures !Meets(y, p)
  {
  }

  // ---------------------------------------------------------------- pawns

  /** The board of one side: white's or black's. */
  function Side(gs: GameState, white: bool): bv64
  {
    if white then gs.whiteBitboard else gs.blackBitboard
  }

  lemma BitOfLeft(p: bv64, a: bv64, b: bv64)
    ensures BitOf(p, a & b) ==> BitOf(p, a)
  {
    WithinAndLeft(p, a, b);
  }

  lemma SidesApart(pawn: bv64, white: bv64, black: bv64)
    ensures white & black == 0 ==> (pawn & white) & (pawn & black) == 0 && (pawn & black) & (pawn & white) == 0
  {
  }

  lemma PawnOfSide(gs: GameState, p: bv64, white: bool)
    requires BitOf(p, gs.pawnBitboard & Side(gs, white))
    ensures BitOf(p, gs.pawnBitboard)
  {
    BitOfLeft(p, gs.pawnBitboard, Side(gs, white));
  }

  lemma WhiteNotBlackPawn(gs: GameState, p: bv64)
    requires BitOf(p, gs.pawnBitboard & gs.whiteBitboard) && gs.whiteBitboard & gs.blackBitboard == 0
    ensures !BitOf(p, gs.pawnBitboard & gs.blackBitboard)
  {
    SidesApart(gs.pawnBitboard, gs.whiteBitboard, gs.blackBitboard);
    Separate(p, gs.pawnBitboard & gs.whiteBitboard, gs.pawnBitboard & gs.blackBitboard);
  }

  lemma BlackNotWhitePawn(gs: GameState, p: bv64)
    requires BitOf(p, gs.pawnBitboard & gs.blackBitboard) && gs.whiteBitboard & gs.blackBitboard == 0
    ensures !BitOf(p, gs.pawnBitboard & gs.whiteBitboard)
  {
    SidesApart(gs.pawnBitboard, gs.whiteBitboard, gs.blackBitboard);
    Separate(p, gs.pawnBitboard & gs.blackBitboard, gs.pawnBitboard & gs.whiteBitboard);
  }

  lemma WhitePawnWritten(gs: GameState, p: bv64)
    requires BitOf(p, gs.pawnBitboard & gs.whiteBitboard)
    ensures Lookup(AfterWhitePawns(gs).legal, p) ==
      PawnEntry(Lookup(NoMoves().legal, p), p, true, Occupied(gs), Enemy(gs, true), gs.enPassant)
    ensures Lookup(AfterWhitePawns(gs).pseudo, p) == Diagonals(p, true)
  {
    WhitePawnsFromWritten(gs, gs.pawnBitboard & gs.whiteBitboard, NoMoves(), p);
  }

  lemma WhitePawnKept(gs: GameState, p: bv64)
    requires IsBit(p) && !BitOf(p, gs.pawnBitboard & gs.blackBitboard)
    ensures SameEntry(AfterBlackPawns(gs), AfterWhitePawns(gs), p)
  {
    BlackPawnsFromOther(gs, gs.pawnBitboard & gs.blackBitboard, AfterWhitePawns(gs), p);
  }

  lemma BlackPawnWritten(gs: GameState, p: bv64)
    requires BitOf(p, gs.pawnBitboard & gs.blackBitboard)
    ensures Lookup(AfterBlackPawns(gs).legal, p) ==
      PawnEntry(Lookup(AfterWhitePawns(gs).legal, p), p, false, Occupied(gs), Enemy(gs, false), gs.enPassant)
    ensures Lookup(AfterBlackPawns(gs).pseudo, p) == Diagonals(p, false)
  {
    BlackPawnsFromWritten(gs, gs.pawnBitboard & gs.blackBitboard, AfterWhitePawns(gs), p);
  }

  lemma BlackPawnUntouched(gs: GameState, p: bv64)
    requires IsBit(p) && !BitOf(p, gs.pawnBitboard & gs.whiteBitboard)
    ensures SameEntry(AfterWhitePawns(gs), NoMoves(), p)
  {
    WhitePawnsFromOther(gs, gs.pawnBitboard & gs.whiteBitboard, NoMoves(), p);
  }

  lemma InitialWhitePawn(gs: GameState, tables: AttackTables, p: bv64)
    requires SeparateBoards(gs) && BitOf(p, gs.pawnBitboard & gs.whiteBitboard)
    ensures Lookup(InitialMoves(gs, tables).legal, p) ==
      PawnEntry(Lookup(NoMoves().legal, p), p, true, Occupied(gs), Enemy(gs, true), gs.enPassant)
    ensures Lookup(InitialMoves(gs, tables).pseudo, p) == Diagonals(p, true)
  {
    PawnOfSide(gs, p, true);
    KeptPastPawns(gs, tables, p);
    WhiteNotBlackPawn(gs, p);
    WhitePawnKept(gs, p);
    WhitePawnWritten(gs, p);
  }

  lemma InitialBlackPawn(gs: GameState, tables: AttackTables, p: bv64)
    requires SeparateBoards(gs) && BitOf(p, gs.pawnBitboard & gs.blackBitboard)
    ensures Lookup(InitialMoves(gs, tables).legal, p) ==
      PawnEntry(Lookup(NoMoves().legal, p), p, false, Occupied(gs), Enemy(gs, false), gs.enPassant)
    ensures Lookup(InitialMoves(gs, tables).pseudo, p) == Diagonals(p, false)
  {
    PawnOfSide(gs, p, false);
    KeptPastPawns(gs, tables, p);
    BlackNotWhitePawn(gs, p);
    BlackPawnUntouched(gs, p);
    BlackPawnWritten(gs, p);
  }

  /**
   * A pawn's entries in the generated maps: the legal one is its pushes and
   * captures added to an empty entry, the pseudo-legal one its capture squares.
   */
  lemma InitialPawn(gs: GameState, tables: AttackTables, p: bv64, white: bool)
    requires SeparateBoards(gs) && BitOf(p, gs.pawnBitboard & Side(gs, white))
    ensures Lookup(InitialMoves(gs, tables).legal, p) ==
      PawnEntry(Lookup(NoMoves().legal, p), p, white, Occupied(gs), Enemy(gs, white), gs.enPassant)
    ensures Lookup(InitialMoves(gs, tables).pseudo, p) == Diagonals(p, white)
  {
    if white {
      InitialWhitePawn(gs, tables, p);
    } else {
      InitialBlackPawn(gs, tables, p);
    }
  }

  lemma InitialPawnLegal(gs: GameState, tables: AttackTables, p: bv64, white: bool)
    ensures SeparateBoards(gs) && BitOf(p, gs.pawnBitboard & Side(gs, white)) ==>
      Lookup(InitialMoves(gs, tables).legal, p) ==
        PawnEntry(Lookup(NoMoves().legal, p), p, white, Occupied(gs), Enemy(gs, white), gs.enPassant)
  {
    if SeparateBoards(gs) && BitOf(p, gs.pawnBitboard & Side(gs, white)) {
      InitialPawn(gs, tables, p, white);
    }
  }

  /** An entry of a map that was never written reads 0. */
  lemma NothingWritten(p: bv64)
    ensures Lookup(NoMoves().legal, p) == 0
  {
  }

  /** A pawn's generated entry holds the square ahead exactly when that square is empty. */
  lemma InitialPawnSinglePush(gs: GameState, tables: AttackTables, p: bv64, white: bool)
    requires SeparateBoards(gs) && BitOf(p, gs.pawnBitboard & Side(gs, white))
    ensures Meets(Lookup(InitialMoves(gs, tables).legal, p), OneAhead(p, white)) <==> Meets(OneAhead(p, white), !Occupied(gs))
  {
    InitialPawnLegal(gs, tables, p, white);
    NothingWritten(p);
    PawnEntries.SinglePushRule(Lookup(NoMoves().legal, p), p, white, Occupied(gs), Enemy(gs, white), gs.enPassant);
  }

  /**
   * A pawn's generated entry holds the square two ahead exactly when the
   * pawn is on its start rank and both squares ahead are empty.
   */
  lemma InitialPawnDoublePush(gs: GameState, tables: AttackTables, p: bv64, white: bool)
    requires SeparateBoards(gs) && BitOf(p, gs.pawnBitboard & Side(gs, white))
    ensures Meets(Lookup(InitialMoves(gs, tables).legal, p), TwoAhead(p, white)) <==>
      Meets(p, StartRank(white)) && Meets(OneAhead(p, white), !Occupied(gs)) && Meets(TwoAhead(p, white), !Occupied(gs))
  {
    InitialPawnLegal(gs, tables, p, white);
    NothingWritten(p);
    PawnEntries.DoublePushRule(Lookup(NoMoves().legal, p), p, white, Occupied(gs), Enemy(gs, white), gs.enPassant);
  }

  lemma CapturesOfLookup(x: bv64, e: bv64, p: bv64, white: bool, occupied: bv64, enemy: bv64, enPassant: bv64)
    requires x == PawnEntry(e, p, white, occupied, enemy, enPassant) && e == 0 && IsBit(p)
    ensures x & Diagonals(p, white) == PawnAttacks(p, white, enemy, enPassant)
  {
    PawnEntries.CapturesOfEntry(e, p, white, occupied, enemy, enPassant);
  }

  lemma WithinOfLookup(x: bv64, e: bv64, p: bv64, white: bool, occupied: bv64, enemy: bv64, enPassant: bv64)
    requires x == PawnEntry(e, p, white, occupied, enemy, enPassant) && e == 0
    ensures x & !((OneAhead(p, white) | TwoAhead(p, white)) | Diagonals(p, white)) == 0
  {
    PawnEntries.PawnEntryWithin(e, p, white, occupied, enemy, enPassant);
  }

  /** On its capture squares a pawn's generated entry holds exactly its attack set. */
  lemma InitialPawnCaptures(gs: GameState, tables: AttackTables, p: bv64, white: bool)
    requires SeparateBoards(gs) && BitOf(p, gs.pawnBitboard & Side(gs, white))
    ensures Lookup(InitialMoves(gs, tables).legal, p) & Diagonals(p, white) == PawnAttacks(p, white, Enemy(gs, white), gs.enPassant)
  {
    InitialPawnLegal(gs, tables, p, white);
    NothingWritten(p);
    CapturesOfLookup(Lookup(InitialMoves(gs, tables).legal, p), Lookup(NoMoves().legal, p), p, white, Occupied(gs), Enemy(gs, white), gs.enPassant);
  }

  /** A pawn's generated entry holds nothing but the squares one and two ahead and its capture squares. */
  lemma InitialPawnWithin(gs: GameState, tables: AttackTables, p: bv64, white: bool)
    requires SeparateBoards(gs) && BitOf(p, gs.pawnBitboard & Side(gs, white))
    ensures Lookup(InitialMoves(gs, tables).legal, p) & !((OneAhead(p, white) | TwoAhead(p, white)) | Diagonals(p, white)) == 0
  {
    InitialPawnLegal(gs, tables, p, white);
    NothingWritten(p);
    WithinOfLookup(Lookup(InitialMoves(gs, tables).legal, p), Lookup(NoMoves().legal, p), p, white, Occupied(gs), Enemy(gs, white), gs.enPassant);
  }

  // ---------------------------------------------------------------- knights

  /** A knight's entries in the generated maps are its targets. */
  lemma InitialKnight(gs: GameState, tables: AttackTables, p: bv64)
    requires SeparateBoards(gs) && BitOf(p, gs.knightBitboard)
    ensures Lookup(InitialMoves(gs, tables).legal, p) == KnightTargets(gs, tables, p)
    ensures Lookup(InitialMoves(gs, tables).pseudo, p) == KnightTargets(gs, tables, p)
  {
    Separate(p, gs.knightBitboard, gs.kingBitboard);
    Separate(p, gs.knightBitboard, gs.queenBitboard);
    Separate(p, gs.knightBitboard, gs.rookBitboard);
    Separate(p, gs.knightBitboard, gs.bishopBitboard);
    KeptByBishops(gs, tables, p);
    KnightsFromWritten(gs, tables, gs.knightBitboard, AfterBlackPawns(gs), p);
  }

  /** A white knight targets no white piece. */
  lemma InitialWhiteKnight(gs: GameState, tables: AttackTables, p: bv64)
    requires SeparateBoards(gs) && BitOf(p, gs.knightBitboard) && BitOf(p, gs.whiteBitboard)
    ensures Lookup(InitialMoves(gs, tables).legal, p) & gs.whiteBitboard == 0
  {
    InitialKnight(gs, tables, p);
    BitMeets(p, gs.whiteBitboard);
    WhiteCut(gs.whiteBitboard, gs.blackBitboard, p, Lookup(tables.knight, p));
  }

  /** A black knight targets no black piece. */
  lemma InitialBlackKnight(gs: GameState, tables: AttackTables, p: bv64)
    requires SeparateBoards(gs) && BitOf(p, gs.knightBitboard) && BitOf(p, gs.blackBitboard)
    ensures Lookup(InitialMoves(gs, tables).legal, p) & gs.blackBitboard == 0
  {
    InitialKnight(gs, tables, p);
    BitMeets(p, gs.blackBitboard);
    Commute(gs.whiteBitboard, gs.blackBitboard);
    BitMisses(p, gs.blackBitboard, gs.whiteBitboard);
    BlackCut(gs.whiteBitboard, gs.blackBitboard, p, Lookup(tables.knight, p));
  }

  // ---------------------------------------------------------------- sliders

  lemma InitialBishop(gs: GameState, tables: AttackTables, p: bv64)
    requires SeparateBoards(gs) && BitOf(p, gs.bishopBitboard)
    ensures Lookup(InitialMoves(gs, tables).legal, p) == SliderLegal(gs, tables, Bishop, p)
    ensures Lookup(InitialMoves(gs, tables).pseudo, p) == GeneratorProperties.SliderPseudo(gs, tables, Bishop, p)
  {
    Separate(p, gs.bishopBitboard, gs.kingBitboard);
    Separate(p, gs.bishopBitboard, gs.queenBitboard);
    Separate(p, gs.bishopBitboard, gs.rookBitboard);
    KeptByRooks(gs, tables, p);
    SlidersFromWritten(gs, tables, Bishop, gs.bishopBitboard, AfterKnights(gs, tables), p);
  }

  lemma InitialRook(gs: GameState, tables: AttackTables, p: bv64)
    requires SeparateBoards(gs) && BitOf(p, gs.rookBitboard)
    ensures Lookup(InitialMoves(gs, tables).legal, p) == SliderLegal(gs, tables, Rook, p)
    ensures Lookup(InitialMoves(gs, tables).pseudo, p) == GeneratorProperties.SliderPseudo(gs, tables, Rook, p)
  {
    Separate(p, gs.rookBitboard, gs.kingBitboard);
    Separate(p, gs.rookBitboard, gs.queenBitboard);
    KeptByQueens(gs, tables, p);
    SlidersFromWritten(gs, tables, Rook, gs.rookBitboard, AfterBishops(gs, tables), p);
  }

  lemma InitialQueen(gs: GameState, tables: AttackTables, p: bv64)
    requires SeparateBoards(gs) && BitOf(p, gs.queenBitboard)
    ensures Lookup(InitialMoves(gs, tables).legal, p) == SliderLegal(gs, tables, Queen, p)
    ensures Lookup(InitialMoves(gs, tables).pseudo, p) == GeneratorProperties.SliderPseudo(gs, tables, Queen, p)
  {
    Separate(p, gs.queenBitboard, gs.kingBitboard);
    KeptByKings(gs, tables, p);
    SlidersFromWritten(gs, tables, Queen, gs.queenBitboard, AfterRooks(gs, tables), p);
  }

  /** A slider's entries in the generated maps are the ones its own loop traced. */
  lemma InitialSlider(gs: GameState, tables: AttackTables, kind: Slider, p: bv64)
    requires SeparateBoards(gs) && BitOf(p, SliderBoard(gs, kind))
    ensures Lookup(InitialMoves(gs, tables).legal, p) == SliderLegal(gs, tables, kind, p)
    ensures Lookup(InitialMoves(gs, tables).pseudo, p) == GeneratorProperties.SliderPseudo(gs, tables, kind, p)
  {
    match kind
    case Bishop => InitialBishop(gs, tables, p);
    case Rook => InitialRook(gs, tables, p);
    case Queen => InitialQueen(gs, tables, p);
  }

  /** A white slider targets no white piece. */
  lemma InitialWhiteSlider(gs: GameState, tables: AttackTables, kind: Slider, p: bv64)
    requires SeparateBoards(gs) && BitOf(p, SliderBoard(gs, kind)) && BitOf(p, gs.whiteBitboard)
    ensures Lookup(InitialMoves(gs, tables).legal, p) & gs.whiteBitboard == 0
  {
    InitialSlider(gs, tables, kind, p);
    BitMeets(p, gs.whiteBitboard);
    ShiftCountBound(p);
    WhiteCut(gs.whiteBitboard, gs.blackBitboard, p,
      Blocked(p, SliderAttacks(tables, kind, p), gs.whiteBitboard | gs.blackBitboard, Directions(kind)));
  }

  /** A black slider targets no black piece. */
  lemma InitialBlackSlider(gs: GameState, tables: AttackTables, kind: Slider, p: bv64)
    requires SeparateBoards(gs) && BitOf(p, SliderBoard(gs, kind)) && BitOf(p, gs.blackBitboard)
    ensures Lookup(InitialMoves(gs, tables).legal, p) & gs.blackBitboard == 0
  {
    InitialSlider(gs, tables, kind, p);
    BitMeets(p, gs.blackBitboard);
    Commute(gs.whiteBitboard, gs.blackBitboard);
    BitMisses(p, gs.blackBitboard, gs.whiteBitboard);
    BlackCut(gs.whiteBitboard, gs.blackBitboard, p,
      Blocked(p, SliderAttacks(tables, kind, p), gs.whiteBitboard | gs.blackBitboard, Directions(kind)));
  }

  // ---------------------------------------------------------------- kings

  /**
   * The pseudo-legal map the king on `p` reads: the one the queens left,
   * with the entries of the kings before it written.
   */
  function KingSees(gs: GameState, tables: AttackTables, p: bv64): MoveMap
  {
    KingView(gs, tables, gs.kingBitboard, AfterQueens(gs, tables), p)
  }

  /** A king's entries in the generated maps are its targets against the map it reads. */
  lemma InitialKing(gs: GameState, tables: AttackTables, p: bv64)
    requires BitOf(p, gs.kingBitboard)
    ensures Lookup(InitialMoves(gs, tables).legal, p) == KingTargets(gs, tables, p, KingSees(gs, tables, p))
    ensures Lookup(InitialMoves(gs, tables).pseudo, p) == KingTargets(gs, tables, p, KingSees(gs, tables, p))
  {
    KingsFromWritten(gs, tables, gs.kingBitboard, AfterQueens(gs, tables), p);
  }

  /**
   * Off the king board, the map a king reads holds what the generated
   * pseudo-legal map holds: the attack sets of all the other pieces.
   */
  lemma KingSeesOthers(gs: GameState, tables: AttackTables, p: bv64, q: bv64)
    requires IsBit(q) && !BitOf(q, gs.kingBitboard)
    ensures Lookup(KingSees(gs, tables, p), q) == Lookup(InitialMoves(gs, tables).pseudo, q)
  {
    KingViewOther(gs, tables, gs.kingBitboard, AfterQueens(gs, tables), p, q);
    KeptByKings(gs, tables, q);
  }

  /** A white king targets no white piece. */
  lemma InitialWhiteKing(gs: GameState, tables: AttackTables, p: bv64)
    requires BitOf(p, gs.kingBitboard) && BitOf(p, gs.whiteBitboard)
    ensures Lookup(InitialMoves(gs, tables).legal, p) & gs.whiteBitboard == 0
  {
    InitialKing(gs, tables, p);
    BitMeets(p, gs.whiteBitboard);
    WhiteKingAvoids(gs, tables, p, KingSees(gs, tables, p));
  }

  /** A white king targets no square the black pieces attack in the map it reads. */
  lemma InitialWhiteKingSafe(gs: GameState, tables: AttackTables, p: bv64)
    requires BitOf(p, gs.kingBitboard) && BitOf(p, gs.whiteBitboard)
    ensures Lookup(InitialMoves(gs, tables).legal, p) & Attacks.Attacked(gs.blackBitboard, KingSees(gs, tables, p)) == 0
  {
    InitialKing(gs, tables, p);
    BitMeets(p, gs.whiteBitboard);
    WhiteKingAvoids(gs, tables, p, KingSees(gs, tables, p));
  }

  /** A black king targets no black piece. */
  lemma InitialBlackKing(gs: GameState, tables: AttackTables, p: bv64)
    requires BitOf(p, gs.kingBitboard) && BitOf(p, gs.blackBitboard) && gs.whiteBitboard & gs.blackBitboard == 0
    ensures Lookup(InitialMoves(gs, tables).legal, p) & gs.blackBitboard == 0
  {
    InitialKing(gs, tables, p);
    OnBlackSide(gs, p);
    BlackKingAvoids(gs, tables, p, KingSees(gs, tables, p));
  }

  /** A black king targets no square the white pieces attack in the map it reads. */
  lemma InitialBlackKingSafe(gs: GameState, tables: AttackTables, p: bv64)
    requires BitOf(p, gs.kingBitboard) && BitOf(p, gs.blackBitboard) && gs.whiteBitboard & gs.blackBitboard == 0
    ensures Lookup(InitialMoves(gs, tables).legal, p) & Attacks.Attacked(gs.whiteBitboard, KingSees(gs, tables, p)) == 0
  {
    InitialKing(gs, tables, p);
    OnBlackSide(gs, p);
    BlackKingAvoids(gs, tables, p, KingSees(gs, tables, p));
  }

  /** A piece on a black square of a position with disjoint colour boards is black and not white. */
  lemma OnBlackSide(gs: GameState, p: bv64)
    requires BitOf(p, gs.blackBitboard) && gs.whiteBitboard & gs.blackBitboard == 0
    ensures !Meets(gs.whiteBitboard, p) && Meets(gs.blackBitboard, p)
  {
    BitMeets(p, gs.blackBitboard);
    Commute(gs.whiteBitboard, gs.blackBitboard);
    BitMisses(p, gs.blackBitboard, gs.whiteBitboard);
  }

  // ---------------------------------------------------------------- castling

  /** A square missing from a king's table entry is not among its steps. */
  lemma StepsMiss(stored: bv64, own: bv64, attacked: bv64, t: bv64)
    ensures !Meets(stored, t) ==> !Meets(KingSteps(stored, own, attacked), t)
  {
  }

  lemma MeetsRight(a: bv64, b: bv64, t: bv64)
    ensures Meets(b, t) ==> Meets(a | b, t)
  {
  }

  /** The castling squares of a white king hold g1 exactly when it stands on e1 and may castle king side. */
  lemma WhiteCastlingG1(piece: bv64, rights: string, white: bv64, black: bv64, attacked: bv64)
    ensures Meets(WhiteCastling(piece, rights, white, black, attacked), G1) <==> piece == E1 && WhiteKingSide(rights, white, black, attacked)
  {
  }

  /** A white king whose table entry lacks g1 reaches it only by castling king side from e1. */
  lemma WhiteKingSideNeeded(piece: bv64, stored: bv64, rights: string, white: bv64, black: bv64, attacked: bv64)
    ensures Meets(KingSteps(stored, white, attacked) | WhiteCastling(piece, rights, white, black, attacked), G1) && !Meets(stored, G1) ==> piece == E1 && WhiteKingSide(rights, white, black, attacked)
  {
    PawnEntries.UnionMeets(KingSteps(stored, white, attacked), WhiteCastling(piece, rights, white, black, attacked), G1);
    StepsMiss(stored, white, attacked, G1);
    WhiteCastlingG1(piece, rights, white, black, attacked);
  }

  /** A white king on e1 that may castle king side reaches g1. */
  lemma WhiteKingSideGranted(piece: bv64, stored: bv64, rights: string, white: bv64, black: bv64, attacked: bv64)
    ensures piece == E1 && WhiteKingSide(rights, white, black, attacked) ==> Meets(KingSteps(stored, white, attacked) | WhiteCastling(piece, rights, white, black, attacked), G1)
  {
    WhiteCastlingG1(piece, rights, white, black, attacked);
    MeetsRight(KingSteps(stored, white, attacked), WhiteCastling(piece, rights, white, black, attacked), G1);
  }

  /** The castling squares of a white king hold c1 exactly when it stands on e1 and may castle queen side. */
  lemma WhiteCastlingC1(piece: bv64, rights: string, white: bv64, black: bv64, attacked: bv64)
    ensures Meets(WhiteCastling(piece, rights, white, black, attacked), C1) <==> piece == E1 && WhiteQueenSide(rights, white, black, attacked)
  {
  }

  /** A white king whose table entry lacks c1 reaches it only by castling queen side from e1. */
  lemma WhiteQueenSideNeeded(piece: bv64, stored: bv64, rights: string, white: bv64, black: bv64, attacked: bv64)
    ensures Meets(KingSteps(stored, white, attacked) | WhiteCastling(piece, rights, white, black, attacked), C1) && !Meets(stored, C1) ==> piece == E1 && WhiteQueenSide(rights, white, black, attacked)
  {
    PawnEntries.UnionMeets(KingSteps(stored, white, attacked), WhiteCastling(piece, rights, white, black, attacked), C1);
    StepsMiss(stored, white, attacked, C1);
    WhiteCastlingC1(piece, rights, white, black, attacked);
  }

  /** A white king on e1 that may castle queen side reaches c1. */
  lemma WhiteQueenSideGranted(piece: bv64, stored: bv64, rights: string, white: bv64, black: bv64, attacked: bv64)
    ensures piece == E1 && WhiteQueenSide(rights, white, black, attacked) ==> Meets(KingSteps(stored, white, attacked) | WhiteCastling(piece, rights, white, black, attacked), C1)
  {
    WhiteCastlingC1(piece, rights, white, black, attacked);
    MeetsRight(KingSteps(stored, white, attacked), WhiteCastling(piece, rights, white, black, attacked), C1);
  }

  /** The castling squares of a black king hold g8 exactly when it stands on e8 and may castle king side. */
  lemma BlackCastlingG8(piece: bv64, rights: string, white: bv64, black: bv64, attacked: bv64)
    ensures Meets(BlackCastling(piece, rights, white, black, attacked), G8) <==> piece == E8 && BlackKingSide(rights, white, black, attacked)
  {
  }

  /** A black king whose table entry lacks g8 reaches it only by castling king side from e8. */
  lemma BlackKingSideNeeded(piece: bv64, stored: bv64, rights: string, white: bv64, black: bv64, attacked: bv64)
    ensures Meets(KingSteps(stored, black, attacked) | BlackCastling(piece, rights, white, black, attacked), G8) && !Meets(stored, G8) ==> piece == E8 && BlackKingSide(rights, white, black, attacked)
  {
    PawnEntries.UnionMeets(KingSteps(stored, black, attacked), BlackCastling(piece, rights, white, black, attacked), G8);
    StepsMiss(stored, black, attacked, G8);
    BlackCastlingG8(piece, rights, white, black, attacked);
  }

  /** A black king on e8 that may castle king side reaches g8. */
  lemma BlackKingSideGranted(piece: bv64, stored: bv64, rights: string, white: bv64, black: bv64, attacked: bv64)
    ensures piece == E8 && BlackKingSide(rights, white, black, attacked) ==> Meets(KingSteps(stored, black, attacked) | BlackCastling(piece, rights, white, black, attacked), G8)
  {
    BlackCastlingG8(piece, rights, white, black, attacked);
    MeetsRight(KingSteps(stored, black, attacked), BlackCastling(piece, rights, white, black, attacked), G8);
  }

  /** The castling squares of a black king hold c8 exactly when it stands on e8 and may castle queen side. */
  lemma BlackCastlingC8(piece: bv64, rights: string, white: bv64, black: bv64, attacked: bv64)
    ensures Meets(BlackCastling(piece, rights, white, black, attacked), C8) <==> piece == E8 && BlackQueenSide(rights, white, black, attacked)
  {
  }

  /** A black king whose table entry lacks c8 reaches it only by castling queen side from e8. */
  lemma BlackQueenSideNeeded(piece: bv64, stored: bv64, rights: string, white: bv64, black: bv64, attacked: bv64)
    ensures Meets(KingSteps(stored, black, attacked) | BlackCastling(piece, rights, white, black, attacked), C8) && !Meets(stored, C8) ==> piece == E8 && BlackQueenSide(rights, white, black, attacked)
  {
    PawnEntries.UnionMeets(KingSteps(stored, black, attacked), BlackCastling(piece, rights, white, black, attacked), C8);
    StepsMiss(stored, black, attacked, C8);
    BlackCastlingC8(piece, rights, white, black, attacked);
  }

  /** A black king on e8 that may castle queen side reaches c8. */
  lemma BlackQueenSideGranted(piece: bv64, stored: bv64, rights: string, white: bv64, black: bv64, attacked: bv64)
    ensures piece == E8 && BlackQueenSide(rights, white, black, attacked) ==> Meets(KingSteps(stored, black, attacked) | BlackCastling(piece, rights, white, black, attacked), C8)
  {
    BlackCastlingC8(piece, rights, white, black, attacked);
    MeetsRight(KingSteps(stored, black, attacked), BlackCastling(piece, rights, white, black, attacked), C8);
  }

  /**
   * A white king's generated entry holds g1, when its table entry does
   * not, only if it stands on e1 and may castle king side.
   */
  lemma InitialWhiteKingSideNeeded(gs: GameState, tables: AttackTables, p: bv64)
    requires BitOf(p, gs.kingBitboard) && BitOf(p, gs.whiteBitboard)
    ensures Meets(Lookup(InitialMoves(gs, tables).legal, p), G1) && !Meets(Lookup(tables.king, p), G1) ==> p == E1 && WhiteKingSide(gs.castlingRights, gs.whiteBitboard, gs.blackBitboard, Attacks.Attacked(gs.blackBitboard, KingSees(gs, tables, p)))
  {
    InitialKing(gs, tables, p);
    BitMeets(p, gs.whiteBitboard);
    WhiteKingTargets(gs, tables, p, KingSees(gs, tables, p));
    WhiteKingSideNeeded(p, Lookup(tables.king, p), gs.castlingRights, gs.whiteBitboard, gs.blackBitboard, Attacks.Attacked(gs.blackBitboard, KingSees(gs, tables, p)));
  }

  /** A white king on e1 that may castle king side has g1 in its generated entry. */
  lemma InitialWhiteKingSideGranted(gs: GameState, tables: AttackTables, p: bv64)
    requires BitOf(p, gs.kingBitboard) && BitOf(p, gs.whiteBitboard)
    ensures p == E1 && WhiteKingSide(gs.castlingRights, gs.whiteBitboard, gs.blackBitboard, Attacks.Attacked(gs.blackBitboard, KingSees(gs, tables, p))) ==> Meets(Lookup(InitialMoves(gs, tables).legal, p), G1)
  {
    InitialKing(gs, tables, p);
    BitMeets(p, gs.whiteBitboard);
    WhiteKingTargets(gs, tables, p, KingSees(gs, tables, p));
    WhiteKingSideGranted(p, Lookup(tables.king, p), gs.castlingRights, gs.whiteBitboard, gs.blackBitboard, Attacks.Attacked(gs.blackBitboard, KingSees(gs, tables, p)));
  }

  /**
   * A white king's generated entry holds c1, when its table entry does
   * not, only if it stands on e1 and may castle queen side.
   */
  lemma InitialWhiteQueenSideNeeded(gs: GameState, tables: AttackTables, p: bv64)
    requires BitOf(p, gs.kingBitboard) && BitOf(p, gs.whiteBitboard)
    ensures Meets(Lookup(InitialMoves(gs, tables).legal, p), C1) && !Meets(Lookup(tables.king, p), C1) ==> p == E1 && WhiteQueenSide(gs.castlingRights, gs.whiteBitboard, gs.blackBitboard, Attacks.Attacked(gs.blackBitboard, KingSees(gs, tables, p)))
  {
    InitialKing(gs, tables, p);
    BitMeets(p, gs.whiteBitboard);
    WhiteKingTargets(gs, tables, p, KingSees(gs, tables, p));
    WhiteQueenSideNeeded(p, Lookup(tables.king, p), gs.castlingRights, gs.whiteBitboard, gs.blackBitboard, Attacks.Attacked(gs.blackBitboard, KingSees(gs, tables, p)));
  }

  /** A white king on e1 that may castle queen side has c1 in its generated entry. */
  lemma InitialWhiteQueenSideGranted(gs: GameState, tables: AttackTables, p: bv64)
    requires BitOf(p, gs.kingBitboard) && BitOf(p, gs.whiteBitboard)
    ensures p == E1 && WhiteQueenSide(gs.castlingRights, gs.whiteBitboard, gs.blackBitboard, Attacks.Attacked(gs.blackBitboard, KingSees(gs, tables, p))) ==> Meets(Lookup(InitialMoves(gs, tables).legal, p), C1)
  {
    InitialKing(gs, tables, p);
    BitMeets(p, gs.whiteBitboard);
    WhiteKingTargets(gs, tables, p, KingSees(gs, tables, p));
    WhiteQueenSideGranted(p, Lookup(tables.king, p), gs.castlingRights, gs.whiteBitboard, gs.blackBitboard, Attacks.Attacked(gs.blackBitboard, KingSees(gs, tables, p)));
  }

  /**
   * A black king's generated entry holds g8, when its table entry does
   * not, only if it stands on e8 and may castle king side.
   */
  lemma InitialBlackKingSideNeeded(gs: GameState, tables: AttackTables, p: bv64)
    requires BitOf(p, gs.kingBitboard) && BitOf(p, gs.blackBitboard) && gs.whiteBitboard & gs.blackBitboard == 0
    ensures Meets(Lookup(InitialMoves(gs, tables).legal, p), G8) && !Meets(Lookup(tables.king, p), G8) ==> p == E8 && BlackKingSide(gs.castlingRights, gs.whiteBitboard, gs.blackBitboard, Attacks.Attacked(gs.whiteBitboard, KingSees(gs, tables, p)))
  {
    InitialKing(gs, tables, p);
    OnBlackSide(gs, p);
    BlackKingTargets(gs, tables, p, KingSees(gs, tables, p));
    BlackKingSideNeeded(p, Lookup(tables.king, p), gs.castlingRights, gs.whiteBitboard, gs.blackBitboard, Attacks.Attacked(gs.whiteBitboard, KingSees(gs, tables, p)));
  }

  /** A black king on e8 that may castle king side has g8 in its generated entry. */
  lemma InitialBlackKingSideGranted(gs: GameState, tables: AttackTables, p: bv64)
    requires BitOf(p, gs.kingBitboard) && BitOf(p, gs.blackBitboard) && gs.whiteBitboard & gs.blackBitboard == 0
    ensures p == E8 && BlackKingSide(gs.castlingRights, gs.whiteBitboard, gs.blackBitboard, Attacks.Attacked(gs.whiteBitboard, KingSees(gs, tables, p))) ==> Meets(Lookup(InitialMoves(gs, tables).legal, p), G8)
  {
    InitialKing(gs, tables, p);
    OnBlackSide(gs, p);
    BlackKingTargets(gs, tables, p, KingSees(gs, tables, p));
    BlackKingSideGranted(p, Lookup(tables.king, p), gs.castlingRights, gs.whiteBitboard, gs.blackBitboard, Attacks.Attacked(gs.whiteBitboard, KingSees(gs, tables, p)));
  }

  /**
   * A black king's generated entry holds c8, when its table entry does
   * not, only if it stands on e8 and may castle queen side.
   */
  lemma InitialBlackQueenSideNeeded(gs: GameState, tables: AttackTables, p: bv64)
    requires BitOf(p, gs.kingBitboard) && BitOf(p, gs.blackBitboard) && gs.whiteBitboard & gs.blackBitboard == 0
    ensures Meets(Lookup(InitialMoves(gs, tables).legal, p), C8) && !Meets(Lookup(tables.king, p), C8) ==> p == E8 && BlackQueenSide(gs.castlingRights, gs.whiteBitboard, gs.blackBitboard, Attacks.Attacked(gs.whiteBitboard, KingSees(gs, tables, p)))
  {
    InitialKing(gs, tables, p);
    OnBlackSide(gs, p);
    BlackKingTargets(gs, tables, p, KingSees(gs, tables, p));
    BlackQueenSideNeeded(p, Lookup(tables.king, p), gs.castlingRights, gs.whiteBitboard, gs.blackBitboard, Attacks.Attacked(gs.whiteBitboard, KingSees(gs, tables, p)));
  }

  /** A black king on e8 that may castle queen side has c8 in its generated entry. */
  lemma InitialBlackQueenSideGranted(gs: GameState, tables: AttackTables, p: bv64)
    requires BitOf(p, gs.kingBitboard) && BitOf(p, gs.blackBitboard) && gs.whiteBitboard & gs.blackBitboard == 0
    ensures p == E8 && BlackQueenSide(gs.castlingRights, gs.whiteBitboard, gs.blackBitboard, Attacks.Attacked(gs.whiteBitboard, KingSees(gs, tables, p))) ==> Meets(Lookup(InitialMoves(gs, tables).legal, p), C8)
  {
    InitialKing(gs, tables, p);
    OnBlackSide(gs, p);
    BlackKingTargets(gs, tables, p, KingSees(gs, tables, p));
    BlackQueenSideGranted(p, Lookup(tables.king, p), gs.castlingRights, gs.whiteBitboard, gs.blackBitboard, Attacks.Attacked(gs.whiteBitboard, KingSees(gs, tables, p)));
  }
}
