/**
 * Playing a move on a copy of the position, as the legality test does before
 * asking whether the mover's king is attacked (bitboard_legal_moves.go,
 * `simulateMove`).
 */
module Simulation {
  import opened Bits
  import opened GameStateRecord

  type BoardIndex = b: nat | b < 8

  /**
   * The eight boards of a position by number: 0 white, 1 black, then the
   * piece types in the order `simulateMove` tests them: 2 pawn, 3 knight,
   * 4 bishop, 5 rook, 6 queen, 7 king.
   */
  function Board(gs: GameState, b: BoardIndex): bv64
  {
    match b
    case 0 => gs.whiteBitboard
    case 1 => gs.blackBitboard
    case 2 => gs.pawnBitboard
    case 3 => gs.knightBitboard
    case 4 => gs.bishopBitboard
    case 5 => gs.rookBitboard
    case 6 => gs.queenBitboard
    case _ => gs.kingBitboard
  }

  /** The mover is white when the piece meets the white board; otherwise it counts as black. */
  predicate MoverIsWhite(gs: GameState, piece: bv64)
  {
    Meets(gs.whiteBitboard, piece)
  }

  /** The colour board of the mover: 0 (white) or 1 (black). */
  function MoverColour(gs: GameState, piece: bv64): nat
  {
    if MoverIsWhite(gs, piece) then 0 else 1
  }

  /** The first type board, in the order pawn .. king, that holds the piece; 8 when none does. */
  function MoverType(gs: GameState, piece: bv64): (t: nat)
    ensures 2 <= t <= 8
    ensures t < 8 ==> Meets(Board(gs, t), piece)
    ensures forall b: BoardIndex :: 2 <= b < t ==> !Meets(Board(gs, b), piece)
  {
    if Meets(gs.pawnBitboard, piece) then 2
    else if Meets(gs.knightBitboard, piece) then 3
    else if Meets(gs.bishopBitboard, piece) then 4
    else if Meets(gs.rookBitboard, piece) then 5
    else if Meets(gs.queenBitboard, piece) then 6
    else if Meets(gs.kingBitboard, piece) then 7
    else 8
  }

  /**
   * One board under `simulateMove`: the piece is lifted off it when
   * `lift` holds, the target square is emptied, and the target is set again
   * when `drop` holds.
   */
  function Placed(x: bv64, lift: bool, piece: bv64, move: bv64, drop: bool): bv64
  {
    ((if lift then x & !piece else x) & !move) | Added(move, drop)
  }

  /** Whether board `b` is one of the mover's: its colour board or its first type board. */
  predicate IsMoverBoard(gs: GameState, piece: bv64, b: BoardIndex)
  {
    b == MoverColour(gs, piece) || b == MoverType(gs, piece)
  }

  /** Whether `simulateMove` lifts the piece off board `b`: every board but the other colour's. */
  predicate LiftsFrom(gs: GameState, piece: bv64, b: BoardIndex)
  {
    b != 1 - MoverColour(gs, piece)
  }

  /** Of the two colour boards, exactly the mover's own receives the target. */
  lemma MoverColourBoards(gs: GameState, piece: bv64)
    ensures IsMoverBoard(gs, piece, 0) == MoverIsWhite(gs, piece)
    ensures IsMoverBoard(gs, piece, 1) == !MoverIsWhite(gs, piece)
  {
  }

  /** The eight boards of `SimulateMove`, each under `Placed`. */
  function Lifted(gs: GameState, piece: bv64, move: bv64): GameState
  {
    gs.(
      whiteBitboard := Placed(gs.whiteBitboard, LiftsFrom(gs, piece, 0), piece, move, IsMoverBoard(gs, piece, 0)),
      blackBitboard := Placed(gs.blackBitboard, LiftsFrom(gs, piece, 1), piece, move, IsMoverBoard(gs, piece, 1)),
      pawnBitboard := Placed(gs.pawnBitboard, LiftsFrom(gs, piece, 2), piece, move, IsMoverBoard(gs, piece, 2)),
      knightBitboard := Placed(gs.knightBitboard, LiftsFrom(gs, piece, 3), piece, move, IsMoverBoard(gs, piece, 3)),
      bishopBitboard := Placed(gs.bishopBitboard, LiftsFrom(gs, piece, 4), piece, move, IsMoverBoard(gs, piece, 4)),
      rookBitboard := Placed(gs.rookBitboard, LiftsFrom(gs, piece, 5), piece, move, IsMoverBoard(gs, piece, 5)),
      queenBitboard := Placed(gs.queenBitboard, LiftsFrom(gs, piece, 6), piece, move, IsMoverBoard(gs, piece, 6)),
      kingBitboard := Placed(gs.kingBitboard, LiftsFrom(gs, piece, 7), piece, move, IsMoverBoard(gs, piece, 7)))
  }

  /**
   * `simulateMove` on a copy of the position. Go's three passes (lift the
   * piece off its colour board and every type board, clear the target
   * square on all eight boards, set the target on the mover's colour board
   * and first type board) touch each board independently, so each board is
   * given by `Placed`.
   */
  function SimulateMove(gs: GameState, piece: bv64, move: bv64): (r: GameState)
    ensures (if MoverIsWhite(gs, piece) then r.whiteBitboard else r.blackBitboard) & move == move
    ensures (if MoverIsWhite(gs, piece) then r.blackBitboard else r.whiteBitboard) & move == 0
    ensures r.enPassant == gs.enPassant && r.castlingRights == gs.castlingRights && r.turn == gs.turn
  {
    MoverColourBoards(gs, piece);
    PlacedTarget(gs.whiteBitboard, LiftsFrom(gs, piece, 0), piece, move, IsMoverBoard(gs, piece, 0));
    PlacedTarget(gs.blackBitboard, LiftsFrom(gs, piece, 1), piece, move, IsMoverBoard(gs, piece, 1));
    Lifted(gs, piece, move)
  }

  lemma BoardAfter0(gs: GameState, piece: bv64, move: bv64)
    ensures Board(SimulateMove(gs, piece, move), 0) ==
      Placed(Board(gs, 0), LiftsFrom(gs, piece, 0), piece, move, IsMoverBoard(gs, piece, 0))
  {
    assert SimulateMove(gs, piece, move).whiteBitboard == Placed(gs.whiteBitboard, LiftsFrom(gs, piece, 0), piece, move, IsMoverBoard(gs, piece, 0));
  }

  lemma BoardAfter1(gs: GameState, piece: bv64, move: bv64)
    ensures Board(SimulateMove(gs, piece, move), 1) ==
      Placed(Board(gs, 1), LiftsFrom(gs, piece, 1), piece, move, IsMoverBoard(gs, piece, 1))
  {
    assert SimulateMove(gs, piece, move).blackBitboard == Placed(gs.blackBitboard, LiftsFrom(gs, piece, 1), piece, move, IsMoverBoard(gs, piece, 1));
  }

  lemma BoardAfter2(gs: GameState, piece: bv64, move: bv64)
    ensures Board(SimulateMove(gs, piece, move), 2) ==
      Placed(Board(gs, 2), LiftsFrom(gs, piece, 2), piece, move, IsMoverBoard(gs, piece, 2))
  {
    assert SimulateMove(gs, piece, move).pawnBitboard == Placed(gs.pawnBitboard, LiftsFrom(gs, piece, 2), piece, move, IsMoverBoard(gs, piece, 2));
  }

  lemma BoardAfter3(gs: GameState, piece: bv64, move: bv64)
    ensures Board(SimulateMove(gs, piece, move), 3) ==
      Placed(Board(gs, 3), LiftsFrom(gs, piece, 3), piece, move, IsMoverBoard(gs, piece, 3))
  {
    assert SimulateMove(gs, piece, move).knightBitboard == Placed(gs.knightBitboard, LiftsFrom(gs, piece, 3), piece, move, IsMoverBoard(gs, piece, 3));
  }

  lemma BoardAfter4(gs: GameState, piece: bv64, move: bv64)
    ensures Board(SimulateMove(gs, piece, move), 4) ==
      Placed(Board(gs, 4), LiftsFrom(gs, piece, 4), piece, move, IsMoverBoard(gs, piece, 4))
  {
    assert SimulateMove(gs, piece, move).bishopBitboard == Placed(gs.bishopBitboard, LiftsFrom(gs, piece, 4), piece, move, IsMoverBoard(gs, piece, 4));
  }

  lemma BoardAfter5(gs: GameState, piece: bv64, move: bv64)
    ensures Board(SimulateMove(gs, piece, move), 5) ==
      Placed(Board(gs, 5), LiftsFrom(gs, piece, 5), piece, move, IsMoverBoard(gs, piece, 5))
  {
    assert SimulateMove(gs, piece, move).rookBitboard == Placed(gs.rookBitboard, LiftsFrom(gs, piece, 5), piece, move, IsMoverBoard(gs, piece, 5));
  }

  lemma BoardAfter6(gs: GameState, piece: bv64, move: bv64)
    ensures Board(SimulateMove(gs, piece, move), 6) ==
      Placed(Board(gs, 6), LiftsFrom(gs, piece, 6), piece, move, IsMoverBoard(gs, piece, 6))
  {
    assert SimulateMove(gs, piece, move).queenBitboard == Placed(gs.queenBitboard, LiftsFrom(gs, piece, 6), piece, move, IsMoverBoard(gs, piece, 6));
  }

  lemma BoardAfter7(gs: GameState, piece: bv64, move: bv64)
    ensures Board(SimulateMove(gs, piece, move), 7) ==
      Placed(Board(gs, 7), LiftsFrom(gs, piece, 7), piece, move, IsMoverBoard(gs, piece, 7))
  {
    assert SimulateMove(gs, piece, move).kingBitboard == Placed(gs.kingBitboard, LiftsFrom(gs, piece, 7), piece, move, IsMoverBoard(gs, piece, 7));
  }

  /** Each board after the move is its own board under `Placed`. */
  lemma BoardAfter(gs: GameState, piece: bv64, move: bv64, b: BoardIndex)
    ensures Board(SimulateMove(gs, piece, move), b) ==
      Placed(Board(gs, b), LiftsFrom(gs, piece, b), piece, move, IsMoverBoard(gs, piece, b))
  {
    if b == 0 {
      BoardAfter0(gs, piece, move);
    } else if b == 1 {
      BoardAfter1(gs, piece, move);
    } else if b == 2 {
      BoardAfter2(gs, piece, move);
    } else if b == 3 {
      BoardAfter3(gs, piece, move);
    } else if b == 4 {
      BoardAfter4(gs, piece, move);
    } else if b == 5 {
      BoardAfter5(gs, piece, move);
    } else if b == 6 {
      BoardAfter6(gs, piece, move);
    } else {
      BoardAfter7(gs, piece, move);
    }
  }

  function Added(move: bv64, drop: bool): bv64
  {
    if drop then move else 0
  }

  lemma AddedMisses(move: bv64, drop: bool, q: bv64)
    requires q & move == 0
    ensures Added(move, drop) & q == 0
  {
  }

  lemma TargetDropped(x: bv64, lift: bool, piece: bv64, move: bv64)
    ensures Placed(x, lift, piece, move, true) & move == move
  {
  }

  lemma TargetEmptied(x: bv64, lift: bool, piece: bv64, move: bv64)
    ensures Placed(x, lift, piece, move, false) & move == 0
  {
  }

  lemma PlacedTarget(x: bv64, lift: bool, piece: bv64, move: bv64, drop: bool)
    ensures Placed(x, lift, piece, move, drop) & move == if drop then move else 0
  {
    if drop {
      TargetDropped(x, lift, piece, move);
    } else {
      TargetEmptied(x, lift, piece, move);
    }
  }

  lemma SourceLifted(x: bv64, piece: bv64, move: bv64, drop: bool)
    requires piece & move == 0
    ensures Placed(x, true, piece, move, drop) & piece == 0
  {
    AddedMisses(move, drop, piece);
  }

  lemma SourceKept(x: bv64, piece: bv64, move: bv64, drop: bool)
    requires piece & move == 0
    ensures Placed(x, false, piece, move, drop) & piece == x & piece
  {
    AddedMisses(move, drop, piece);
  }

  lemma PlacedSource(x: bv64, lift: bool, piece: bv64, move: bv64, drop: bool)
    requires piece & move == 0
    ensures Placed(x, lift, piece, move, drop) & piece == if lift then 0 else x & piece
  {
    if lift {
      SourceLifted(x, piece, move, drop);
    } else {
      SourceKept(x, piece, move, drop);
    }
  }

  lemma ElsewhereLifted(x: bv64, piece: bv64, move: bv64, drop: bool, q: bv64)
    requires q & piece == 0 && q & move == 0
    ensures Placed(x, true, piece, move, drop) & q == x & q
  {
    AddedMisses(move, drop, q);
  }

  lemma ElsewhereKept(x: bv64, piece: bv64, move: bv64, drop: bool, q: bv64)
    requires q & move == 0
    ensures Placed(x, false, piece, move, drop) & q == x & q
  {
    AddedMisses(move, drop, q);
  }

  lemma PlacedElsewhere(x: bv64, lift: bool, piece: bv64, move: bv64, drop: bool, q: bv64)
    requires q & piece == 0 && q & move == 0
    ensures Placed(x, lift, piece, move, drop) & q == x & q
  {
    if lift {
      ElsewhereLifted(x, piece, move, drop, q);
    } else {
      ElsewhereKept(x, piece, move, drop, q);
    }
  }

  /**
   * After the move the target square is set exactly on the mover's colour
   * board and first type board, and empty on the other six.
   */
  lemma TargetAfter(gs: GameState, piece: bv64, move: bv64, b: BoardIndex)
    ensures Board(SimulateMove(gs, piece, move), b) & move == if IsMoverBoard(gs, piece, b) then move else 0
  {
    BoardAfter(gs, piece, move, b);
    PlacedTarget(Board(gs, b), LiftsFrom(gs, piece, b), piece, move, IsMoverBoard(gs, piece, b));
  }

  /**
   * After a move to another square the source square is empty on every
   * board except the other colour's, which keeps whatever it had there.
   */
  lemma SourceAfter(gs: GameState, piece: bv64, move: bv64, b: BoardIndex)
    requires piece & move == 0
    ensures Board(SimulateMove(gs, piece, move), b) & piece == if LiftsFrom(gs, piece, b) then 0 else Board(gs, b) & piece
  {
    BoardAfter(gs, piece, move, b);
    PlacedSource(Board(gs, b), LiftsFrom(gs, piece, b), piece, move, IsMoverBoard(gs, piece, b));
  }

  /** Every square other than the source and the target is unchanged on every board. */
  lemma ElsewhereAfter(gs: GameState, piece: bv64, move: bv64, b: BoardIndex, q: bv64)
    requires q & piece == 0 && q & move == 0
    ensures Board(SimulateMove(gs, piece, move), b) & q == Board(gs, b) & q
  {
    BoardAfter(gs, piece, move, b);
    PlacedElsewhere(Board(gs, b), LiftsFrom(gs, piece, b), piece, move, IsMoverBoard(gs, piece, b), q);
  }

  /** A piece on at most one colour board leaves its source square empty on all eight boards. */
  lemma SourceCleared(gs: GameState, piece: bv64, move: bv64, b: BoardIndex)
    requires IsBit(piece) && piece & move == 0
    requires gs.whiteBitboard & gs.blackBitboard & piece == 0
    ensures Board(SimulateMove(gs, piece, move), b) & piece == 0
  {
    SourceAfter(gs, piece, move, b);
    if MoverIsWhite(gs, piece) {
      SingleBitMeets(piece, gs.whiteBitboard);
    }
  }

  lemma SingleBitMeets(piece: bv64, x: bv64)
    requires IsBit(piece) && Meets(x, piece)
    ensures x & piece == piece
  {
  }

  /** Castling rights, en passant square and turn are carried over unchanged. */
  lemma OtherFieldsAfter(gs: GameState, piece: bv64, move: bv64)
    ensures var r := SimulateMove(gs, piece, move);
      r.enPassant == gs.enPassant && r.castlingRights == gs.castlingRights && r.turn == gs.turn
  {
  }
}
