/**
 * Pseudo-legal and legal move generation per piece type over bitboards
 * (bitboard_legal_moves.go, `GenerateInitialMoves` and the
 * `generate*Moves` functions). A move map sends the bit of a piece to the
 * bits of its targets; the generators write into two maps owned by their
 * caller, modelled as the fields of a `MoveMaps` object.
 */
module Generators {
  import opened Bits
  import opened GameStateRecord
  import Rays
  import Attacks

  /**
   * The precomputed attack tables of knights, bishops, rooks and kings,
   * keyed by the bit of the piece's square. Their contents are inputs of
   * this model.
   */
  datatype AttackTables = AttackTables(
    knight: MoveMap,
    bishop: MoveMap,
    rook: MoveMap,
    king: MoveMap)

  /** The two maps a generator writes: pseudo-legal attack sets and legal targets. */
  datatype Moves = Moves(pseudo: MoveMap, legal: MoveMap)

  /** The caller's two maps, which every generator updates in place. */
  class MoveMaps {
    var pseudo: MoveMap
    var legal: MoveMap

    /** Go's two `make(map[uint64]uint64)`. */
    constructor ()
      ensures pseudo == map[] && legal == map[]
    {
      pseudo := map[];
      legal := map[];
    }

    function Current(): Moves
      reads this
    {
      Moves(pseudo, legal)
    }
  }

  /** The maps with the entries of `piece` set to `pseudoEntry` and `legalEntry`. */
  function Put(m: Moves, piece: bv64, pseudoEntry: bv64, legalEntry: bv64): Moves
  {
    Moves(m.pseudo[Key(piece) := pseudoEntry], m.legal[Key(piece) := legalEntry])
  }

  /** The squares occupied by either side. */
  function Occupied(gs: GameState): bv64
  {
    gs.whiteBitboard | gs.blackBitboard
  }

  /** The board of the side opposite to the pawn's. */
  function Enemy(gs: GameState, white: bool): bv64
  {
    if white then gs.blackBitboard else gs.whiteBitboard
  }

  /** The square one rank ahead of a pawn: up the board for white, down for black. */
  function OneAhead(piece: bv64, white: bool): bv64
  {
    if white then piece << 8 else piece >> 8
  }

  /** The square two ranks ahead of a pawn. */
  function TwoAhead(piece: bv64, white: bool): bv64
  {
    if white then piece << 16 else piece >> 16
  }

  /** The rank a pawn of that colour starts on. */
  function StartRank(white: bool): bv64
  {
    if white then 0x000000000000FF00 else 0x00FF000000000000
  }

  /** The capture square towards the a-file: `<< 7` for white, `>> 9` for black. */
  function DiagonalLeft(piece: bv64, white: bool): bv64
  {
    if white then (piece & !Rays.AFile) << 7 else (piece & !Rays.AFile) >> 9
  }

  /** The capture square towards the h-file: `<< 9` for white, `>> 7` for black. */
  function DiagonalRight(piece: bv64, white: bool): bv64
  {
    if white then (piece & !Rays.HFile) << 9 else (piece & !Rays.HFile) >> 7
  }

  /** Both capture squares: the pawn's pseudo-legal attack set. */
  function Diagonals(piece: bv64, white: bool): bv64
  {
    DiagonalLeft(piece, white) | DiagonalRight(piece, white)
  }

  /** The entry `e` with the single push ORed in when the square ahead is empty. */
  function SingleStage(e: bv64, piece: bv64, white: bool, occupied: bv64): bv64
  {
    if Meets(OneAhead(piece, white), !occupied) then e | OneAhead(piece, white) else e
  }

  /** The entry `e` with the double push ORed in when the pawn may make it. */
  function DoubleStage(e: bv64, piece: bv64, white: bool, occupied: bv64): bv64
  {
    if Meets(piece, StartRank(white)) && Meets(OneAhead(piece, white), !occupied) && Meets(TwoAhead(piece, white), !occupied)
    then e | TwoAhead(piece, white) else e
  }

  /**
   * The loop's `attacks`: the capture squares on enemy pieces, with the
   * en-passant square added when it is set, lies on an enemy piece and on a
   * capture square.
   */
  function PawnAttacks(piece: bv64, white: bool, enemy: bv64, enPassant: bv64): bv64
  {
    if enPassant != 0 && Meets(enPassant, enemy) && Meets(Diagonals(piece, white), enPassant)
    then (Diagonals(piece, white) & enemy) | (Diagonals(piece, white) & enPassant)
    else Diagonals(piece, white) & enemy
  }

  /** The legal entry of a pawn after the loop body, from the entry `e` it had. */
  function PawnEntry(e: bv64, piece: bv64, white: bool, occupied: bv64, enemy: bv64, enPassant: bv64): bv64
  {
    DoubleStage(SingleStage(e, piece, white, occupied), piece, white, occupied) | PawnAttacks(piece, white, enemy, enPassant)
  }

  /** One pass of the pawn loop body for `piece`. */
  function PawnStep(gs: GameState, piece: bv64, white: bool, m: Moves): Moves
  {
    Put(m, piece, Diagonals(piece, white), PawnEntry(Lookup(m.legal, piece), piece, white, Occupied(gs), Enemy(gs, white), gs.enPassant))
  }

  /** The white pawn loop over the remaining white pawns `rest`, lowest bit first. */
  function WhitePawnsFrom(gs: GameState, rest: bv64, m: Moves): Moves
    decreases rest
  {
    if rest == 0 then m else WhitePawnsFrom(gs, ClearLowest(rest), PawnStep(gs, LowestBit(rest), true, m))
  }

  /** The black pawn loop over the remaining black pawns `rest`, lowest bit first. */
  function BlackPawnsFrom(gs: GameState, rest: bv64, m: Moves): Moves
    decreases rest
  {
    if rest == 0 then m else BlackPawnsFrom(gs, ClearLowest(rest), PawnStep(gs, LowestBit(rest), false, m))
  }

  /**
   * The body of the pawn loops for one pawn: its legal entry gains the
   * pushes and captures, its pseudo-legal entry becomes its capture squares.
   */
  method AddPawnMoves(gs: GameState, piece: bv64, white: bool, maps: MoveMaps)
    modifies maps
    ensures maps.Current() == PawnStep(gs, piece, white, old(maps.Current()))
  {
    maps.legal := maps.legal[Key(piece) := PawnEntry(Lookup(maps.legal, piece), piece, white, Occupied(gs), Enemy(gs, white), gs.enPassant)];
    maps.pseudo := maps.pseudo[Key(piece) := Diagonals(piece, white)];
  }

  /** The white pawn loop of `generatePawnMoves`. */
  method AddWhitePawns(gs: GameState, maps: MoveMaps)
    modifies maps
    ensures maps.Current() == WhitePawns(gs, old(maps.Current()))
  {
    ghost var start := maps.Current();
    var rest := gs.pawnBitboard & gs.whiteBitboard;
    while rest != 0
      invariant WhitePawnsFrom(gs, rest, maps.Current()) == WhitePawnsFrom(gs, gs.pawnBitboard & gs.whiteBitboard, start)
      decreases BitCount(rest)
    {
      var piece := LowestBit(rest);
      AddPawnMoves(gs, piece, true, maps);
      rest := ClearLowest(rest);
    }
  }

  /** The black pawn loop of `generatePawnMoves`. */
  method AddBlackPawns(gs: GameState, maps: MoveMaps)
    modifies maps
    ensures maps.Current() == BlackPawns(gs, old(maps.Current()))
  {
    ghost var start := maps.Current();
    var rest := gs.pawnBitboard & gs.blackBitboard;
    while rest != 0
      invariant BlackPawnsFrom(gs, rest, maps.Current()) == BlackPawnsFrom(gs, gs.pawnBitboard & gs.blackBitboard, start)
      decreases BitCount(rest)
    {
      var piece := LowestBit(rest);
      AddPawnMoves(gs, piece, false, maps);
      rest := ClearLowest(rest);
    }
  }

  /** `generatePawnMoves`: the loop over the white pawns, then the loop over the black pawns. */
  method GeneratePawnMoves(gs: GameState, maps: MoveMaps)
    modifies maps
    ensures maps.Current() == BlackPawns(gs, WhitePawns(gs, old(maps.Current())))
  {
    AddWhitePawns(gs, maps);
    AddBlackPawns(gs, maps);
  }

  /**
   * A piece's targets with the squares of its own side removed: the white
   * side when the piece is on a white square, else the black side when it is
   * on a black one; a piece of neither side keeps them all.
   */
  function WithoutOwnSide(white: bv64, black: bv64, piece: bv64, targets: bv64): bv64
  {
    if Meets(white, piece) then targets & !white
    else if Meets(black, piece) then targets & !black
    else targets
  }

  lemma WhiteOwnSide(white: bv64, black: bv64, piece: bv64, traced: bv64)
    requires Meets(white, piece)
    ensures WithoutOwnSide(white, black, piece, traced) == traced & !white
  {
  }

  lemma BlackOwnSide(white: bv64, black: bv64, piece: bv64, traced: bv64)
    requires !Meets(white, piece) && Meets(black, piece)
    ensures WithoutOwnSide(white, black, piece, traced) == traced & !black
  {
  }

  lemma NoOwnSide(white: bv64, black: bv64, piece: bv64, traced: bv64)
    requires !Meets(white, piece) && !Meets(black, piece)
    ensures WithoutOwnSide(white, black, piece, traced) == traced
  {
  }

  /** A knight's targets: its table entry without the squares of its own side. */
  function KnightTargets(gs: GameState, tables: AttackTables, piece: bv64): bv64
  {
    WithoutOwnSide(gs.whiteBitboard, gs.blackBitboard, piece, Lookup(tables.knight, piece))
  }

  /** One pass of the knight loop body: both maps get the knight's targets. */
  function KnightStep(gs: GameState, tables: AttackTables, piece: bv64, m: Moves): Moves
  {
    Put(m, piece, KnightTargets(gs, tables, piece), KnightTargets(gs, tables, piece))
  }

  /** The knight loop over the remaining knights `rest`, lowest bit first. */
  function KnightsFrom(gs: GameState, tables: AttackTables, rest: bv64, m: Moves): Moves
    decreases rest
  {
    if rest == 0 then m else KnightsFrom(gs, tables, ClearLowest(rest), KnightStep(gs, tables, LowestBit(rest), m))
  }

  lemma KnightsFromOn(gs: GameState, tables: AttackTables, rest: bv64, m: Moves)
    requires rest != 0
    ensures KnightsFrom(gs, tables, rest, m) == KnightsFrom(gs, tables, ClearLowest(rest), KnightStep(gs, tables, LowestBit(rest), m))
  {
  }

  /** The body of the knight loop for one knight. */
  method AddKnightMoves(gs: GameState, tables: AttackTables, piece: bv64, maps: MoveMaps)
    modifies maps
    ensures maps.Current() == KnightStep(gs, tables, piece, old(maps.Current()))
  {
    var white, black := gs.whiteBitboard, gs.blackBitboard;
    var knightMoves := Lookup(tables.knight, piece);
    if Meets(white, piece) {
      WhiteOwnSide(white, black, piece, knightMoves);
      knightMoves := knightMoves & !white;
    } else if Meets(black, piece) {
      BlackOwnSide(white, black, piece, knightMoves);
      knightMoves := knightMoves & !black;
    } else {
      NoOwnSide(white, black, piece, knightMoves);
    }
    maps.legal := maps.legal[Key(piece) := knightMoves];
    maps.pseudo := maps.pseudo[Key(piece) := knightMoves];
  }

  /** `generateKnightMoves`. */
  method GenerateKnightMoves(gs: GameState, tables: AttackTables, maps: MoveMaps)
    modifies maps
    ensures maps.Current() == Knights(gs, tables, old(maps.Current()))
  {
    ghost var start := maps.Current();
    var knights := gs.knightBitboard;
    while knights != 0
      invariant KnightsFrom(gs, tables, knights, maps.Current()) == KnightsFrom(gs, tables, gs.knightBitboard, start)
      decreases BitCount(knights)
    {
      var piece := LowestBit(knights);
      KnightsFromOn(gs, tables, knights, maps.Current());
      AddKnightMoves(gs, tables, piece, maps);
      knights := ClearLowest(knights);
    }
  }

  /** The three sliding piece types. */
  datatype Slider = Bishop | Rook | Queen

  /** A slider's table entry; a queen moves as a bishop and a rook together. */
  function SliderAttacks(tables: AttackTables, kind: Slider, piece: bv64): bv64
  {
    match kind
    case Bishop => Lookup(tables.bishop, piece)
    case Rook => Lookup(tables.rook, piece)
    case Queen => Lookup(tables.bishop, piece) | Lookup(tables.rook, piece)
  }

  lemma QueenAttacks(tables: AttackTables, piece: bv64)
    ensures SliderAttacks(tables, Queen, piece) == Lookup(tables.bishop, piece) | Lookup(tables.rook, piece)
  {
  }

  function Directions(kind: Slider): (ds: seq<int>)
    ensures Rays.AreDirections(ds)
  {
    match kind
    case Bishop => Rays.BishopDirections
    case Rook => Rays.RookDirections
    case Queen => Rays.QueenDirections
  }

  function SliderBoard(gs: GameState, kind: Slider): bv64
  {
    match kind
    case Bishop => gs.bishopBitboard
    case Rook => gs.rookBitboard
    case Queen => gs.queenBitboard
  }

  /** `removeBlockedMoves`: the moves that lie on the traced rays from the piece. */
  function Blocked(piece: bv64, moves: bv64, occupied: bv64, ds: seq<int>): bv64
    requires piece != 0 && Rays.AreDirections(ds)
  {
    ShiftCountBound(piece);
    moves & Rays.Rays(ShiftCount(piece), ds, occupied)
  }

  /** `removeBlockedMoves`, stated through `Blocked`. */
  method Trace(piece: bv64, moves: bv64, occupied: bv64, ds: seq<int>) returns (r: bv64)
    requires IsBit(piece) && Rays.AreDirections(ds)
    ensures r == Blocked(piece, moves, occupied, ds)
  {
    r := Rays.RemoveBlockedMoves(piece, moves, occupied, ds);
  }

  /**
   * A slider's pseudo-legal entry: for a piece of either side, its rays
   * traced as if the enemy king were not on the board (so they run through
   * it), without its own side; for a piece of neither side, the raw table
   * entry. `pastBlackKing` and `pastWhiteKing` are the table entry cut down
   * to the rays traced without the black, respectively the white, king.
   */
  function SliderPseudo(white: bv64, black: bv64, piece: bv64, attacks: bv64, pastBlackKing: bv64, pastWhiteKing: bv64): bv64
  {
    if Meets(white, piece) then !white & pastBlackKing
    else if Meets(black, piece) then !black & pastWhiteKing
    else attacks
  }

  /** The pseudo-legal entry of a slider on `piece` with table entry `attacks` and directions `ds`. */
  function SliderPseudoEntry(white: bv64, black: bv64, king: bv64, piece: bv64, attacks: bv64, ds: seq<int>): bv64
    requires piece != 0 && Rays.AreDirections(ds)
  {
    SliderPseudo(white, black, piece, attacks,
                 Blocked(piece, attacks, (white | black) & !(black & king), ds),
                 Blocked(piece, attacks, (white | black) & !(white & king), ds))
  }

  /** The legal entry of a slider on `piece` with table entry `attacks` and directions `ds`. */
  function SliderLegalEntry(white: bv64, black: bv64, piece: bv64, attacks: bv64, ds: seq<int>): bv64
    requires piece != 0 && Rays.AreDirections(ds)
  {
    WithoutOwnSide(white, black, piece, Blocked(piece, attacks, white | black, ds))
  }

  /**
   * The entries a slider on `piece` receives, on a board whose white,
   * black and king bitboards are `white`, `black` and `king`.
   */
  function SliderEntries(white: bv64, black: bv64, king: bv64, piece: bv64, attacks: bv64, ds: seq<int>, m: Moves): Moves
    requires piece != 0 && Rays.AreDirections(ds)
  {
    Put(m, piece, SliderPseudoEntry(white, black, king, piece, attacks, ds), SliderLegalEntry(white, black, piece, attacks, ds))
  }

  function SliderStep(gs: GameState, tables: AttackTables, kind: Slider, piece: bv64, m: Moves): Moves
    requires piece != 0
  {
    SliderEntries(gs.whiteBitboard, gs.blackBitboard, gs.kingBitboard, piece, SliderAttacks(tables, kind, piece), Directions(kind), m)
  }

  function SlidersFrom(gs: GameState, tables: AttackTables, kind: Slider, rest: bv64, m: Moves): Moves
    decreases rest
  {
    if rest == 0 then m else SlidersFrom(gs, tables, kind, ClearLowest(rest), SliderStep(gs, tables, kind, LowestBit(rest), m))
  }

  lemma SlidersFromOn(gs: GameState, tables: AttackTables, kind: Slider, rest: bv64, m: Moves)
    requires rest != 0
    ensures SlidersFrom(gs, tables, kind, rest, m) == SlidersFrom(gs, tables, kind, ClearLowest(rest), SliderStep(gs, tables, kind, LowestBit(rest), m))
  {
  }

  /** The pseudo-legal entry of a white slider, from its rays traced past the black king. */
  lemma WhitePseudoEntry(white: bv64, black: bv64, king: bv64, piece: bv64, attacks: bv64, ds: seq<int>, occupied: bv64, unblocked: bv64)
    requires piece != 0 && Rays.AreDirections(ds) && Meets(white, piece)
    requires occupied == (white | black) & !(black & king) && unblocked == Blocked(piece, attacks, occupied, ds)
    ensures SliderPseudoEntry(white, black, king, piece, attacks, ds) == !white & unblocked
  {
    WhitePseudo(white, black, piece, attacks, unblocked, Blocked(piece, attacks, (white | black) & !(white & king), ds));
  }

  /** The pseudo-legal entry of a black slider, from its rays traced past the white king. */
  lemma BlackPseudoEntry(white: bv64, black: bv64, king: bv64, piece: bv64, attacks: bv64, ds: seq<int>, occupied: bv64, unblocked: bv64)
    requires piece != 0 && Rays.AreDirections(ds) && !Meets(white, piece) && Meets(black, piece)
    requires occupied == (white | black) & !(white & king) && unblocked == Blocked(piece, attacks, occupied, ds)
    ensures SliderPseudoEntry(white, black, king, piece, attacks, ds) == !black & unblocked
  {
    BlackPseudo(white, black, piece, attacks, Blocked(piece, attacks, (white | black) & !(black & king), ds), unblocked);
  }

  /** The pseudo-legal entry of a slider of neither side is its table entry. */
  lemma ColourlessPseudoEntry(white: bv64, black: bv64, king: bv64, piece: bv64, attacks: bv64, ds: seq<int>)
    requires piece != 0 && Rays.AreDirections(ds) && !Meets(white, piece) && !Meets(black, piece)
    ensures SliderPseudoEntry(white, black, king, piece, attacks, ds) == attacks
  {
    ColourlessPseudo(white, black, piece, attacks,
                     Blocked(piece, attacks, (white | black) & !(black & king), ds),
                     Blocked(piece, attacks, (white | black) & !(white & king), ds));
  }

  lemma WhitePseudo(white: bv64, black: bv64, piece: bv64, attacks: bv64, pastBlackKing: bv64, pastWhiteKing: bv64)
    requires Meets(white, piece)
    ensures SliderPseudo(white, black, piece, attacks, pastBlackKing, pastWhiteKing) == !white & pastBlackKing
  {
  }

  lemma BlackPseudo(white: bv64, black: bv64, piece: bv64, attacks: bv64, pastBlackKing: bv64, pastWhiteKing: bv64)
    requires !Meets(white, piece) && Meets(black, piece)
    ensures SliderPseudo(white, black, piece, attacks, pastBlackKing, pastWhiteKing) == !black & pastWhiteKing
  {
  }

  lemma ColourlessPseudo(white: bv64, black: bv64, piece: bv64, attacks: bv64, pastBlackKing: bv64, pastWhiteKing: bv64)
    requires !Meets(white, piece) && !Meets(black, piece)
    ensures SliderPseudo(white, black, piece, attacks, pastBlackKing, pastWhiteKing) == attacks
  {
  }

  /** The legal entry of a slider: its traced rays without its own side. */
  lemma LegalEntryIs(white: bv64, black: bv64, piece: bv64, attacks: bv64, ds: seq<int>, traced: bv64)
    requires piece != 0 && Rays.AreDirections(ds)
    requires traced == Blocked(piece, attacks, white | black, ds)
    ensures SliderLegalEntry(white, black, piece, attacks, ds) == WithoutOwnSide(white, black, piece, traced)
  {
  }

  /**
   * The legal entry the slider loops store: the table entry cut down to the
   * rays traced over all occupied squares, then without the piece's own side.
   */
  method SliderLegalTargets(white: bv64, black: bv64, piece: bv64, attacks: bv64, rayDirections: seq<int>)
    returns (sliderMoves: bv64)
    requires IsBit(piece) && Rays.AreDirections(rayDirections)
    ensures sliderMoves == SliderLegalEntry(white, black, piece, attacks, rayDirections)
  {
    var allOccupied := white | black;
    sliderMoves := Trace(piece, attacks, allOccupied, rayDirections);
    LegalEntryIs(white, black, piece, attacks, rayDirections, sliderMoves);
    if Meets(white, piece) {
      WhiteOwnSide(white, black, piece, sliderMoves);
      sliderMoves := sliderMoves & !white;
    } else if Meets(black, piece) {
      BlackOwnSide(white, black, piece, sliderMoves);
      sliderMoves := sliderMoves & !black;
    } else {
      NoOwnSide(white, black, piece, sliderMoves);
    }
  }

  /**
   * The pseudo-legal entry the slider loops store, starting from the entry
   * `stored` they wrote first: for a piece of either side, `stored` cut down
   * to the rays traced past the enemy king, without the piece's own side.
   */
  method SliderPseudoTargets(white: bv64, black: bv64, king: bv64, piece: bv64, stored: bv64, rayDirections: seq<int>)
    returns (pseudoEntry: bv64)
    requires IsBit(piece) && Rays.AreDirections(rayDirections)
    ensures pseudoEntry == SliderPseudoEntry(white, black, king, piece, stored, rayDirections)
  {
    var allOccupied := white | black;
    pseudoEntry := stored;
    if Meets(white, piece) {
      var blackKingBitboard := black & king;
      var unblocked := Trace(piece, stored, allOccupied & !blackKingBitboard, rayDirections);
      WhitePseudoEntry(white, black, king, piece, stored, rayDirections, allOccupied & !blackKingBitboard, unblocked);
      pseudoEntry := !white & unblocked;
    } else if Meets(black, piece) {
      var whiteKingBitboard := white & king;
      var unblocked := Trace(piece, stored, allOccupied & !whiteKingBitboard, rayDirections);
      BlackPseudoEntry(white, black, king, piece, stored, rayDirections, allOccupied & !whiteKingBitboard, unblocked);
      pseudoEntry := !black & unblocked;
    } else {
      ColourlessPseudoEntry(white, black, king, piece, stored, rayDirections);
    }
  }

  /**
   * The loop body shared by `generateBishopMoves`, `generateRookMoves` and
   * `generateQueenMoves`, after the table lookup: the table entry is stored
   * as the pseudo-legal entry, then replaced by its traced form.
   */
  method AddSliderMoves(gs: GameState, ghost tables: AttackTables, ghost kind: Slider, piece: bv64, attacks: bv64, rayDirections: seq<int>, maps: MoveMaps)
    requires IsBit(piece) && attacks == SliderAttacks(tables, kind, piece) && rayDirections == Directions(kind)
    modifies maps
    ensures maps.Current() == SliderStep(gs, tables, kind, piece, old(maps.Current()))
  {
    ghost var start := maps.Current();
    maps.pseudo := maps.pseudo[Key(piece) := attacks];
    var sliderMoves := SliderLegalTargets(gs.whiteBitboard, gs.blackBitboard, piece, attacks, rayDirections);
    // the entry just stored is read back: it is `attacks`
    var pseudoEntry := SliderPseudoTargets(gs.whiteBitboard, gs.blackBitboard, gs.kingBitboard, piece, attacks, rayDirections);
    Overwritten(start.pseudo, Key(piece), attacks, pseudoEntry);
    maps.pseudo := maps.pseudo[Key(piece) := pseudoEntry];
    maps.legal := maps.legal[Key(piece) := sliderMoves];
  }

  /** A second write to the same key replaces the first. */
  lemma Overwritten(m: MoveMap, k: Key, first: bv64, second: bv64)
    ensures m[k := first][k := second] == m[k := second]
  {
  }

  /** `generateBishopMoves`. */
  method GenerateBishopMoves(gs: GameState, tables: AttackTables, maps: MoveMaps)
    modifies maps
    ensures maps.Current() == Bishops(gs, tables, old(maps.Current()))
  {
    ghost var start := maps.Current();
    var bishops := gs.bishopBitboard;
    while bishops != 0
      invariant SlidersFrom(gs, tables, Bishop, bishops, maps.Current()) == SlidersFrom(gs, tables, Bishop, gs.bishopBitboard, start)
      decreases BitCount(bishops)
    {
      var piece := LowestBit(bishops);
      var bishopMoves := Lookup(tables.bishop, piece);
      SlidersFromOn(gs, tables, Bishop, bishops, maps.Current());
      AddSliderMoves(gs, tables, Bishop, piece, bishopMoves, Rays.BishopDirections, maps);
      bishops := ClearLowest(bishops);
    }
  }

  /** `generateRookMoves`. */
  method GenerateRookMoves(gs: GameState, tables: AttackTables, maps: MoveMaps)
    modifies maps
    ensures maps.Current() == Rooks(gs, tables, old(maps.Current()))
  {
    ghost var start := maps.Current();
    var rooks := gs.rookBitboard;
    while rooks != 0
      invariant SlidersFrom(gs, tables, Rook, rooks, maps.Current()) == SlidersFrom(gs, tables, Rook, gs.rookBitboard, start)
      decreases BitCount(rooks)
    {
      var piece := LowestBit(rooks);
      var rookMoves := Lookup(tables.rook, piece);
      SlidersFromOn(gs, tables, Rook, rooks, maps.Current());
      AddSliderMoves(gs, tables, Rook, piece, rookMoves, Rays.RookDirections, maps);
      rooks := ClearLowest(rooks);
    }
  }

  /** `generateQueenMoves`. */
  method GenerateQueenMoves(gs: GameState, tables: AttackTables, maps: MoveMaps)
    modifies maps
    ensures maps.Current() == Queens(gs, tables, old(maps.Current()))
  {
    ghost var start := maps.Current();
    var queens := gs.queenBitboard;
    while queens != 0
      invariant SlidersFrom(gs, tables, Queen, queens, maps.Current()) == SlidersFrom(gs, tables, Queen, gs.queenBitboard, start)
      decreases BitCount(queens)
    {
      var piece := LowestBit(queens);
      var queenMoves := Lookup(tables.bishop, piece) | Lookup(tables.rook, piece);
      SlidersFromOn(gs, tables, Queen, queens, maps.Current());
      QueenAttacks(tables, piece);
      AddSliderMoves(gs, tables, Queen, piece, queenMoves, Rays.QueenDirections, maps);
      queens := ClearLowest(queens);
    }
  }

  /** The single-bit boards of the squares castling inspects, `1 << PositionToIndex("e1")` and so on. */
  const B1: bv64 := 0x02
  const C1: bv64 := 0x04
  const D1: bv64 := 0x08
  const E1: bv64 := 0x10
  const F1: bv64 := 0x20
  const G1: bv64 := 0x40
  const B8: bv64 := 0x0200_0000_0000_0000
  const C8: bv64 := 0x0400_0000_0000_0000
  const D8: bv64 := 0x0800_0000_0000_0000
  const E8: bv64 := 0x1000_0000_0000_0000
  const F8: bv64 := 0x2000_0000_0000_0000
  const G8: bv64 := 0x4000_0000_0000_0000

  /**
   * White may castle king side: the rights hold "K", f1 and g1 are empty,
   * and none of e1, f1, g1 is attacked.
   */
  predicate WhiteKingSide(rights: string, white: bv64, black: bv64, attacked: bv64)
  {
    'K' in rights && !Meets(white, F1) && !Meets(white, G1) && !Meets(black, F1) && !Meets(black, G1) &&
    !Meets(attacked, E1) && !Meets(attacked, F1) && !Meets(attacked, G1)
  }

  /**
   * White may castle queen side: the rights hold "Q", d1, c1 and b1 are
   * empty, and none of e1, d1, c1 is attacked.
   */
  predicate WhiteQueenSide(rights: string, white: bv64, black: bv64, attacked: bv64)
  {
    'Q' in rights && !Meets(white, D1) && !Meets(white, C1) && !Meets(white, B1) &&
    !Meets(black, D1) && !Meets(black, C1) && !Meets(black, B1) &&
    !Meets(attacked, E1) && !Meets(attacked, D1) && !Meets(attacked, C1)
  }

  /** Black's king-side test: "k", f8 and g8 empty, e8, f8, g8 not attacked. */
  predicate BlackKingSide(rights: string, white: bv64, black: bv64, attacked: bv64)
  {
    'k' in rights && !Meets(black, F8) && !Meets(black, G8) && !Meets(white, F8) && !Meets(white, G8) &&
    !Meets(attacked, E8) && !Meets(attacked, F8) && !Meets(attacked, G8)
  }

  /** Black's queen-side test: "q", d8, c8 and b8 empty, e8, d8, c8 not attacked. */
  predicate BlackQueenSide(rights: string, white: bv64, black: bv64, attacked: bv64)
  {
    'q' in rights && !Meets(black, D8) && !Meets(black, C8) && !Meets(black, B8) &&
    !Meets(white, D8) && !Meets(white, C8) && !Meets(white, B8) &&
    !Meets(attacked, E8) && !Meets(attacked, D8) && !Meets(attacked, C8)
  }

  /** The castling targets of a white king on `piece`: g1 and c1 as allowed, and only from e1. */
  function WhiteCastling(piece: bv64, rights: string, white: bv64, black: bv64, attacked: bv64): bv64
  {
    if piece != E1 then 0
    else (if WhiteKingSide(rights, white, black, attacked) then G1 else 0) |
         (if WhiteQueenSide(rights, white, black, attacked) then C1 else 0)
  }

  /** The castling targets of a black king on `piece`: g8 and c8 as allowed, and only from e8. */
  function BlackCastling(piece: bv64, rights: string, white: bv64, black: bv64, attacked: bv64): bv64
  {
    if piece != E8 then 0
    else (if BlackKingSide(rights, white, black, attacked) then G8 else 0) |
         (if BlackQueenSide(rights, white, black, attacked) then C8 else 0)
  }

  /** A king's steps: its table entry without its own side's squares and without the attacked ones. */
  function KingSteps(stored: bv64, own: bv64, attacked: bv64): bv64
  {
    (stored & !own) & !attacked
  }

  /** A white king's targets: its steps clear of white pieces and black attacks, plus castling. */
  function WhiteKingEntry(piece: bv64, stored: bv64, rights: string, white: bv64, black: bv64, pseudo: MoveMap): bv64
  {
    KingSteps(stored, white, Attacks.Attacked(black, pseudo)) |
    WhiteCastling(piece, rights, white, black, Attacks.Attacked(black, pseudo))
  }

  /** A black king's targets: its steps clear of black pieces and white attacks, plus castling. */
  function BlackKingEntry(piece: bv64, stored: bv64, rights: string, white: bv64, black: bv64, pseudo: MoveMap): bv64
  {
    KingSteps(stored, black, Attacks.Attacked(white, pseudo)) |
    BlackCastling(piece, rights, white, black, Attacks.Attacked(white, pseudo))
  }

  /**
   * A king's targets, given the pseudo-legal map built so far: a white king
   * steps to squares free of white pieces and of black attacks and may add
   * its castling squares, a black king likewise, a king of neither side
   * keeps its table entry.
   */
  function KingTargets(gs: GameState, tables: AttackTables, piece: bv64, pseudo: MoveMap): bv64
  {
    if Meets(gs.whiteBitboard, piece) then
      WhiteKingEntry(piece, Lookup(tables.king, piece), gs.castlingRights, gs.whiteBitboard, gs.blackBitboard, pseudo)
    else if Meets(gs.blackBitboard, piece) then
      BlackKingEntry(piece, Lookup(tables.king, piece), gs.castlingRights, gs.whiteBitboard, gs.blackBitboard, pseudo)
    else Lookup(tables.king, piece)
  }

  /** One pass of the king loop body: both maps get the king's targets. */
  function KingStep(gs: GameState, tables: AttackTables, piece: bv64, m: Moves): Moves
  {
    Put(m, piece, KingTargets(gs, tables, piece, m.pseudo), KingTargets(gs, tables, piece, m.pseudo))
  }

  /** The king loop over the remaining kings `rest`, lowest bit first. */
  function KingsFrom(gs: GameState, tables: AttackTables, rest: bv64, m: Moves): Moves
    decreases rest
  {
    if rest == 0 then m else KingsFrom(gs, tables, ClearLowest(rest), KingStep(gs, tables, LowestBit(rest), m))
  }

  lemma KingsFromOn(gs: GameState, tables: AttackTables, rest: bv64, m: Moves)
    requires rest != 0
    ensures KingsFrom(gs, tables, rest, m) == KingsFrom(gs, tables, ClearLowest(rest), KingStep(gs, tables, LowestBit(rest), m))
  {
  }

  /** The castling tests of a white king, in the order the source makes them. */
  method CastleWhite(piece: bv64, rights: string, white: bv64, black: bv64, attacked: bv64, steps: bv64)
    returns (kingMoves: bv64)
    ensures kingMoves == steps | WhiteCastling(piece, rights, white, black, attacked)
  {
    kingMoves := steps;
    if piece == E1 {
      if WhiteKingSide(rights, white, black, attacked) {
        kingMoves := kingMoves | G1;
      }
      if WhiteQueenSide(rights, white, black, attacked) {
        kingMoves := kingMoves | C1;
      }
    }
  }

  /** The castling tests of a black king, in the order the source makes them. */
  method CastleBlack(piece: bv64, rights: string, white: bv64, black: bv64, attacked: bv64, steps: bv64)
    returns (kingMoves: bv64)
    ensures kingMoves == steps | BlackCastling(piece, rights, white, black, attacked)
  {
    kingMoves := steps;
    if piece == E8 {
      if BlackKingSide(rights, white, black, attacked) {
        kingMoves := kingMoves | G8;
      }
      if BlackQueenSide(rights, white, black, attacked) {
        kingMoves := kingMoves | C8;
      }
    }
  }

  lemma WhiteKingTargets(gs: GameState, tables: AttackTables, piece: bv64, pseudo: MoveMap)
    requires Meets(gs.whiteBitboard, piece)
    ensures KingTargets(gs, tables, piece, pseudo) ==
      WhiteKingEntry(piece, Lookup(tables.king, piece), gs.castlingRights, gs.whiteBitboard, gs.blackBitboard, pseudo)
  {
  }

  lemma BlackKingTargets(gs: GameState, tables: AttackTables, piece: bv64, pseudo: MoveMap)
    requires !Meets(gs.whiteBitboard, piece) && Meets(gs.blackBitboard, piece)
    ensures KingTargets(gs, tables, piece, pseudo) ==
      BlackKingEntry(piece, Lookup(tables.king, piece), gs.castlingRights, gs.whiteBitboard, gs.blackBitboard, pseudo)
  {
  }

  lemma ColourlessKingTargets(gs: GameState, tables: AttackTables, piece: bv64, pseudo: MoveMap)
    requires !Meets(gs.whiteBitboard, piece) && !Meets(gs.blackBitboard, piece)
    ensures KingTargets(gs, tables, piece, pseudo) == Lookup(tables.king, piece)
  {
  }

  /** The white branch of the king loop body. */
  method WhiteKingMoves(piece: bv64, stored: bv64, rights: string, white: bv64, black: bv64, pseudo: MoveMap)
    returns (kingMoves: bv64)
    ensures kingMoves == WhiteKingEntry(piece, stored, rights, white, black, pseudo)
  {
    kingMoves := stored & !white;
    var attackedSquares := Attacks.GetAttackedSquares(black, pseudo);
    kingMoves := kingMoves & !attackedSquares;
    kingMoves := CastleWhite(piece, rights, white, black, attackedSquares, kingMoves);
  }

  /** The black branch of the king loop body. */
  method BlackKingMoves(piece: bv64, stored: bv64, rights: string, white: bv64, black: bv64, pseudo: MoveMap)
    returns (kingMoves: bv64)
    ensures kingMoves == BlackKingEntry(piece, stored, rights, white, black, pseudo)
  {
    kingMoves := stored & !black;
    var attackedSquares := Attacks.GetAttackedSquares(white, pseudo);
    kingMoves := kingMoves & !attackedSquares;
    kingMoves := CastleBlack(piece, rights, white, black, attackedSquares, kingMoves);
  }

  /** The king's targets as the loop body computes them, reading the pseudo-legal map built so far. */
  method KingMoves(gs: GameState, tables: AttackTables, piece: bv64, pseudo: MoveMap) returns (kingMoves: bv64)
    ensures kingMoves == KingTargets(gs, tables, piece, pseudo)
  {
    var white, black := gs.whiteBitboard, gs.blackBitboard;
    var stored := Lookup(tables.king, piece);
    if Meets(white, piece) {
      kingMoves := WhiteKingMoves(piece, stored, gs.castlingRights, white, black, pseudo);
      WhiteKingTargets(gs, tables, piece, pseudo);
    } else if Meets(black, piece) {
      kingMoves := BlackKingMoves(piece, stored, gs.castlingRights, white, black, pseudo);
      BlackKingTargets(gs, tables, piece, pseudo);
    } else {
      kingMoves := stored;
      ColourlessKingTargets(gs, tables, piece, pseudo);
    }
  }

  /** The body of the king loop for one king. */
  method AddKingMoves(gs: GameState, tables: AttackTables, piece: bv64, maps: MoveMaps)
    modifies maps
    ensures maps.Current() == KingStep(gs, tables, piece, old(maps.Current()))
  {
    var kingMoves := KingMoves(gs, tables, piece, maps.pseudo);
    maps.legal := maps.legal[Key(piece) := kingMoves];
    maps.pseudo := maps.pseudo[Key(piece) := kingMoves];
  }

  /** `generateKingMoves`. */
  method GenerateKingMoves(gs: GameState, tables: AttackTables, maps: MoveMaps)
    modifies maps
    ensures maps.Current() == Kings(gs, tables, old(maps.Current()))
  {
    ghost var start := maps.Current();
    var kings := gs.kingBitboard;
    while kings != 0
      invariant KingsFrom(gs, tables, kings, maps.Current()) == KingsFrom(gs, tables, gs.kingBitboard, start)
      decreases BitCount(kings)
    {
      var piece := LowestBit(kings);
      KingsFromOn(gs, tables, kings, maps.Current());
      AddKingMoves(gs, tables, piece, maps);
      kings := ClearLowest(kings);
    }
  }

  function WhitePawns(gs: GameState, m: Moves): Moves
  {
    WhitePawnsFrom(gs, gs.pawnBitboard & gs.whiteBitboard, m)
  }

  function BlackPawns(gs: GameState, m: Moves): Moves
  {
    BlackPawnsFrom(gs, gs.pawnBitboard & gs.blackBitboard, m)
  }

  function Knights(gs: GameState, tables: AttackTables, m: Moves): Moves
  {
    KnightsFrom(gs, tables, gs.knightBitboard, m)
  }

  function Bishops(gs: GameState, tables: AttackTables, m: Moves): Moves
  {
    SlidersFrom(gs, tables, Bishop, gs.bishopBitboard, m)
  }

  function Rooks(gs: GameState, tables: AttackTables, m: Moves): Moves
  {
    SlidersFrom(gs, tables, Rook, gs.rookBitboard, m)
  }

  function Queens(gs: GameState, tables: AttackTables, m: Moves): Moves
  {
    SlidersFrom(gs, tables, Queen, gs.queenBitboard, m)
  }

  function Kings(gs: GameState, tables: AttackTables, m: Moves): Moves
  {
    KingsFrom(gs, tables, gs.kingBitboard, m)
  }

  /**
   * The maps `GenerateInitialMoves` returns: starting from two empty maps,
   * the white pawns, black pawns, knights, bishops, rooks, queens and kings
   * in turn, each generator seeing the entries of those before it.
   */
  function InitialMoves(gs: GameState, tables: AttackTables): Moves
  {
    Kings(gs, tables, Queens(gs, tables, Rooks(gs, tables, Bishops(gs, tables,
      Knights(gs, tables, BlackPawns(gs, WhitePawns(gs, Moves(map[], map[]))))))))
  }

  /** `GenerateInitialMoves`: runs the six generators over two fresh maps. */
  method GenerateInitialMoves(gs: GameState, tables: AttackTables) returns (pseudo: MoveMap, legal: MoveMap)
    ensures Moves(pseudo, legal) == InitialMoves(gs, tables)
  {
    var maps := new MoveMaps();
    GeneratePawnMoves(gs, maps);
    GenerateKnightMoves(gs, tables, maps);
    GenerateBishopMoves(gs, tables, maps);
    GenerateRookMoves(gs, tables, maps);
    GenerateQueenMoves(gs, tables, maps);
    GenerateKingMoves(gs, tables, maps);
    pseudo, legal := maps.pseudo, maps.legal;
  }
}
