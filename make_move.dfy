/**
 * Applying a move to a stored game (make_move.go). The game's board is the
 * decoded JSON map from square name to the pair [square colour, piece
 * code]; `MakeMove` checks the move, writes the piece into the destination
 * and "---" into the source, and hands the turn to the other side. Every
 * `pkg.PanicException` and every Go runtime panic (indexing a missing square
 * or slicing an empty code) becomes a `Failed` outcome that leaves the game
 * as it was.
 */
module MakeMove {
  import opened Wrappers
  import AllowedMoves
  import Layout

  /** The decoded board: square name to [colour, piece code]. */
  type Board = map<string, seq<string>>

  /** The piece code of an empty square. */
  const Empty: string := "---"

  /** The fields of `dto.Move` that `MakeMove` reads. */
  datatype Move = Move(piece: string, source: string, destination: string)

  /** Why a move was refused. */
  datatype MoveError =
    | SourceMismatch   // the request's piece is not the one on the source square
    | EmptySource      // the source square holds "---"
    | WrongTurn        // the piece's colour letter is not the side to move
    | NotAllowed       // the destination is not listed for the piece
    | IndexPanic       // Go indexes a square missing from the board, or slices an empty code

  /** Go's `error` result: nil, or the reason the move was refused. */
  datatype Outcome = Done | Failed(reason: MoveError)

  /** The game record `MakeMove` updates through its pointer. */
  class ChessGame {
    var board: Board
    var turn: string

    constructor(board: Board, turn: string)
      ensures this.board == board && this.turn == turn
    {
      this.board := board;
      this.turn := turn;
    }
  }

  /** A square Go can index at `[1]`: present, with a colour and a piece slot. */
  predicate HasCell(board: Board, square: string)
  {
    square in board && |board[square]| >= 2
  }

  /** The side to move admits a piece of colour letter `color`; any turn other than "white" or "black" admits all. */
  predicate TurnAdmits(turn: string, color: string)
  {
    !((turn == "white" && color != "w") || (turn == "black" && color != "b"))
  }

  /** The destinations the allowed-move table lists for `piece`; nil when it has no entry. */
  function Listed(allowed: map<string, seq<string>>, piece: string): seq<string>
  {
    if piece in allowed then allowed[piece] else []
  }

  /** The first check of `MakeMove` that fails, in the order the code makes them; `None` when all pass. */
  function Rejection(board: Board, turn: string, move: Move, allowed: map<string, seq<string>>): Option<MoveError>
  {
    if !HasCell(board, move.source) then Some(IndexPanic)
    else if move.piece != board[move.source][1] then Some(SourceMismatch)
    else if move.piece == Empty then Some(EmptySource)
    else if |move.piece| == 0 then Some(IndexPanic)
    else if !TurnAdmits(turn, move.piece[..1]) then Some(WrongTurn)
    else if move.destination !in Listed(allowed, move.piece) then Some(NotAllowed)
    else if !HasCell(board, move.destination) then Some(IndexPanic)
    else None
  }

  /** The board after the two writes: the piece into the destination's slot, then "---" into the source's. */
  function Moved(board: Board, move: Move): Board
    requires HasCell(board, move.source) && HasCell(board, move.destination)
  {
    var placed := board[move.destination := board[move.destination][1 := move.piece]];
    placed[move.source := placed[move.source][1 := Empty]]
  }

  /** `switchTurn`: "white" hands over to "black", anything else to "white". */
  function SwitchTurn(currentTurn: string): (next: string)
    ensures next == "black" <==> currentTurn == "white"
    ensures next == "white" || next == "black"
  {
    if currentTurn == "white" then "black" else "white"
  }

  /** Switching twice restores a turn that is "white" or "black", and only such a turn. */
  lemma SwitchTwice(currentTurn: string)
    ensures SwitchTurn(SwitchTurn(currentTurn)) == currentTurn <==> currentTurn == "white" || currentTurn == "black"
  {
  }

  /** `contains`: scans the slice for the value. */
  method Contains(slice: seq<string>, value: string) returns (found: bool)
    ensures found <==> value in slice
  {
    for i := 0 to |slice|
      invariant value !in slice[..i]
    {
      if slice[i] == value {
        return true;
      }
    }
    return false;
  }

  /**
   * The checks and writes of `MakeMove` with its allowed-move table given as
   * `allowed`. On a refusal nothing is written; on success the board gets
   * the two writes and the turn flips.
   */
  method MakeMoveWith(game: ChessGame, move: Move, allowed: map<string, seq<string>>) returns (outcome: Outcome)
    modifies game
    ensures Rejection(old(game.board), old(game.turn), move, allowed).Some? ==>
      outcome == Failed(Rejection(old(game.board), old(game.turn), move, allowed).value) &&
      game.board == old(game.board) && game.turn == old(game.turn)
    ensures Rejection(old(game.board), old(game.turn), move, allowed).None? ==>
      outcome == Done && game.board == Moved(old(game.board), move) && game.turn == SwitchTurn(old(game.turn))
  {
    var board := game.board;
    var sourcePiece := move.piece;
    if !HasCell(board, move.source) {
      return Failed(IndexPanic);
    }
    if sourcePiece != board[move.source][1] {
      return Failed(SourceMismatch);
    }
    if sourcePiece == Empty {
      return Failed(EmptySource);
    }
    var currentTurn := game.turn;
    if |sourcePiece| == 0 {
      return Failed(IndexPanic);
    }
    var pieceColor := sourcePiece[..1];
    if (currentTurn == "white" && pieceColor != "w") || (currentTurn == "black" && pieceColor != "b") {
      return Failed(WrongTurn);
    }
    var found := Contains(Listed(allowed, move.piece), move.destination);
    if !found {
      return Failed(NotAllowed);
    }
    if !HasCell(board, move.destination) {
      return Failed(IndexPanic);
    }
    board := board[move.destination := board[move.destination][1 := sourcePiece]];
    board := board[move.source := board[move.source][1 := Empty]];
    game.board := board;
    game.turn := SwitchTurn(currentTurn);
    return Done;
  }

  /**
   * `MakeMove`: the allowed-move table comes from `GetAllowedMoves`, which
   * is always empty, so every move is refused and the game never changes.
   */
  method MakeMove(game: ChessGame, move: Move) returns (outcome: Outcome)
    modifies game
    ensures outcome.Failed? && outcome == Failed(Rejection(old(game.board), old(game.turn), move, map[]).value)
    ensures game.board == old(game.board) && game.turn == old(game.turn)
  {
    var allowedMoves := AllowedMoves.GetAllowedMoves();
    EmptyTableRejects(game.board, game.turn, move);
    outcome := MakeMoveWith(game, move, allowedMoves);
  }

  /** With an empty table no move passes the checks; a move that got that far is refused as not allowed. */
  lemma EmptyTableRejects(board: Board, turn: string, move: Move)
    ensures Rejection(board, turn, move, map[]).Some?
    ensures Rejection(board, turn, move, map[]) != Some(IndexPanic) ==>
      Rejection(board, turn, move, map[]) in {Some(SourceMismatch), Some(EmptySource), Some(WrongTurn), Some(NotAllowed)}
  {
  }

  /**
   * An accepted move moves a piece of the stored code from a non-empty
   * square, and when the turn is "white" or "black" the piece belongs to
   * that side.
   */
  lemma AcceptedMove(board: Board, turn: string, move: Move, allowed: map<string, seq<string>>)
    requires Rejection(board, turn, move, allowed).None?
    ensures HasCell(board, move.source) && HasCell(board, move.destination)
    ensures board[move.source][1] == move.piece && move.piece != Empty
    ensures move.destination in allowed[move.piece]
    ensures turn == "white" ==> move.piece[0] == 'w'
    ensures turn == "black" ==> move.piece[0] == 'b'
  {
    if turn == "white" {
      assert move.piece[..1] == "w";
      assert move.piece[..1][0] == move.piece[0];
    } else if turn == "black" {
      assert move.piece[..1] == "b";
      assert move.piece[..1][0] == move.piece[0];
    }
  }

  /**
   * The two writes: the destination holds the piece (unless it is the
   * source itself), the source holds "---", every square keeps its colour
   * and no other square changes.
   */
  lemma MovedCells(board: Board, move: Move, square: string)
    requires HasCell(board, move.source) && HasCell(board, move.destination)
    ensures Moved(board, move).Keys == board.Keys
    ensures Moved(board, move)[move.source][1] == Empty
    ensures move.destination != move.source ==> Moved(board, move)[move.destination][1] == move.piece
    ensures square in board ==> |Moved(board, move)[square]| == |board[square]|
    ensures square in board && |board[square]| >= 1 ==> Moved(board, move)[square][0] == board[square][0]
    ensures square in board && square != move.source && square != move.destination ==>
      Moved(board, move)[square] == board[square]
  {
  }

  /** `isPawnPromotion`: a white pawn reaching rank 8 or a black pawn reaching rank 1. */
  predicate IsPawnPromotion(piece: string, destinationSquare: string)
    requires piece == "wP" || piece == "bP" ==> |destinationSquare| >= 2
    ensures IsPawnPromotion(piece, destinationSquare) ==> piece == "wP" || piece == "bP"
    ensures piece == "wP" ==> (IsPawnPromotion(piece, destinationSquare) <==> destinationSquare[1] == '8')
    ensures piece == "bP" ==> (IsPawnPromotion(piece, destinationSquare) <==> destinationSquare[1] == '1')
  {
    if piece == "wP" && destinationSquare[1] == '8' then true
    else if piece == "bP" && destinationSquare[1] == '1' then true
    else false
  }

  /** On the display layout, white pawns promote on the top row and black pawns on the bottom row. */
  lemma PromotionRows(row: nat, col: nat)
    requires row < 8 && col < 8
    ensures IsPawnPromotion("wP", Layout.SquareAt(row, col)) <==> row == 0
    ensures IsPawnPromotion("bP", Layout.SquareAt(row, col)) <==> row == 7
    ensures forall piece :: piece != "wP" && piece != "bP" ==> !IsPawnPromotion(piece, Layout.SquareAt(row, col))
  {
    var s := Layout.SquareAt(row, col);
    assert s[1] == ('8' as int - row) as char;
  }

  /** `promotePawn`: the requested piece, or a queen of the pawn's colour when none was requested. */
  function PromotePawn(pawn: string, promotionPiece: string): (piece: string)
    requires promotionPiece == "" ==> |pawn| >= 1
    ensures promotionPiece != "" ==> piece == promotionPiece
    ensures promotionPiece == "" ==> |piece| == 2 && piece[0] == pawn[0] && piece[1] == 'Q'
  {
    if promotionPiece != "" then promotionPiece else pawn[..1] + "Q"
  }
}
