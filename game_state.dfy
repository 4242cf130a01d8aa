/**
 * The bitboard position record `dao.GameState` read by the bitboard engine.
 * Each board is a 64-bit word whose bit k marks square k (a1 = 0, h8 = 63).
 * Only the fields of `dao.GameState` that the engine reads are kept.
 */
module GameStateRecord {

  datatype GameState = GameState(
    whiteBitboard: bv64,
    blackBitboard: bv64,
    pawnBitboard: bv64,
    knightBitboard: bv64,
    bishopBitboard: bv64,
    rookBitboard: bv64,
    queenBitboard: bv64,
    kingBitboard: bv64,
    enPassant: bv64,
    castlingRights: string,
    turn: string)
}
