/**
 * `GenerateLegalMovesForAllPositions` (bitboard_legal_moves.go): the
 * filtered move map of a position together with its status word. White's
 * check and mate are reported only when it is white's turn; black's are
 * reported on either turn, and only when white's are not.
 */
module GameStatus {
  import opened Bits
  import opened GameStateRecord
  import Attacks
  import Generators
  import Legal
  import CorrectedFilter

  /** The status word for a position, given its pseudo-legal and filtered move maps. */
  function Status(gs: GameState, pseudo: MoveMap, legal: MoveMap): string
  {
    if Attacks.InCheck(gs, pseudo, true) && gs.turn == "w" then
      (if !Attacks.MoveLeft(gs.whiteBitboard, legal) then "white_checkmate" else "white_check")
    else if Attacks.InCheck(gs, pseudo, false) then
      (if !Attacks.MoveLeft(gs.blackBitboard, legal) then "black_checkmate" else "black_check")
    else ""
  }

  /** No piece of `side` has a target left in `legal`. */
  ghost predicate NoMoves(side: bv64, legal: MoveMap)
  {
    forall p :: BitOf(p, side) ==> Lookup(legal, p) == 0
  }

  /** `checkIsMoveLeft` fails exactly when no piece of the side has a target left. */
  lemma NoMovesIff(side: bv64, legal: MoveMap)
    ensures !Attacks.MoveLeft(side, legal) <==> NoMoves(side, legal)
  {
    if Attacks.MoveLeft(side, legal) {
      var p := Attacks.MovingPiece(side, legal);
    }
    forall p | BitOf(p, side) && Lookup(legal, p) != 0
      ensures Attacks.MoveLeft(side, legal)
    {
      Attacks.PieceMoves(side, legal, p);
    }
  }

  /** What each status word means. */
  lemma StatusMeaning(gs: GameState, pseudo: MoveMap, legal: MoveMap)
    ensures Status(gs, pseudo, legal) == "white_checkmate" <==>
      gs.turn == "w" && Attacks.InCheck(gs, pseudo, true) && NoMoves(gs.whiteBitboard, legal)
    ensures Status(gs, pseudo, legal) == "white_check" <==>
      gs.turn == "w" && Attacks.InCheck(gs, pseudo, true) && !NoMoves(gs.whiteBitboard, legal)
    ensures Status(gs, pseudo, legal) == "black_checkmate" <==>
      !(gs.turn == "w" && Attacks.InCheck(gs, pseudo, true)) && Attacks.InCheck(gs, pseudo, false) &&
      NoMoves(gs.blackBitboard, legal)
    ensures Status(gs, pseudo, legal) == "black_check" <==>
      !(gs.turn == "w" && Attacks.InCheck(gs, pseudo, true)) && Attacks.InCheck(gs, pseudo, false) &&
      !NoMoves(gs.blackBitboard, legal)
    ensures Status(gs, pseudo, legal) == "" <==>
      !(gs.turn == "w" && Attacks.InCheck(gs, pseudo, true)) && !Attacks.InCheck(gs, pseudo, false)
  {
    NoMovesIff(gs.whiteBitboard, legal);
    NoMovesIff(gs.blackBitboard, legal);
  }

  /** A side whose king is off the board is never reported in check or mated. */
  lemma NoKingNoStatus(gs: GameState, pseudo: MoveMap, legal: MoveMap)
    requires gs.kingBitboard & gs.whiteBitboard == 0 && gs.kingBitboard & gs.blackBitboard == 0
    ensures Status(gs, pseudo, legal) == ""
  {
    Attacks.NoKingNoCheck(gs, pseudo, true);
    Attacks.NoKingNoCheck(gs, pseudo, false);
  }

  /** `GenerateLegalMovesForAllPositions`: the filtered moves, with the pawn pass corrected, and the status word. */
  method GenerateLegalMovesForAllPositions(gs: GameState, tables: Generators.AttackTables)
    returns (legalMoves: MoveMap, status: string)
    ensures legalMoves == CorrectedFilter.IntendedFiltered(gs, tables, Generators.InitialMoves(gs, tables).pseudo,
                                                           Generators.InitialMoves(gs, tables).legal)
    ensures status == Status(gs, Generators.InitialMoves(gs, tables).pseudo, legalMoves)
  {
    var pseudo, legal := Generators.GenerateInitialMoves(gs, tables);
    legalMoves := CorrectedFilter.IntendedFilterLegalMoves(gs, tables, legal, pseudo);
    status := ReportStatus(gs, pseudo, legalMoves);
  }

  /** The checks that close `GenerateLegalMovesForAllPositions`: white's king first, then black's. */
  method ReportStatus(gs: GameState, pseudo: MoveMap, legalMoves: MoveMap) returns (status: string)
    ensures status == Status(gs, pseudo, legalMoves)
  {
    var order := Legal.KeyOrder(pseudo);
    var whiteInCheck, whiteAttacker := Attacks.CheckIfKingIsInCheck(gs, pseudo, true, order);
    if whiteInCheck && gs.turn == "w" {
      var whiteLeft := Attacks.CheckIsMoveLeft(gs.whiteBitboard, legalMoves);
      if !whiteLeft {
        return "white_checkmate";
      }
      return "white_check";
    }
    order := Legal.KeyOrder(pseudo);
    var blackInCheck, blackAttacker := Attacks.CheckIfKingIsInCheck(gs, pseudo, false, order);
    if blackInCheck {
      var blackLeft := Attacks.CheckIsMoveLeft(gs.blackBitboard, legalMoves);
      if !blackLeft {
        return "black_checkmate";
      }
      return "black_check";
    }
    return "";
  }
}
