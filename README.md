# Chess engine core, modelled in Dafny

This project models the move logic of a small online chess server and the
board client that talks to it:

- **The bitboard engine** (`app/engine/bitboard_legal_moves.go`,
  `app/engine/bitboard_utils.go`). A position is a `GameState` of 64-bit
  bitboards: one per colour, one per piece type, plus the en-passant square,
  the castling rights and the side to move.
  - Per-type generators fill two maps from a one-bit piece bitboard to a
    target bitboard:
    - the *legal* moves (what the piece may do);
    - the *pseudo* moves (the squares it attacks).
  - Sliding pieces are cut at the first occupied square of each ray.
  - The king avoids attacked squares and may castle.
  - `filterLegalMoves` keeps only the moves whose simulated result leaves the
    mover's king out of check. Its pawn pass is modelled twice: as written
    (`Legal`) and corrected (`CorrectedFilter`, see "Findings").
  - The position is then classed as check or checkmate for either side.
  - Helpers turn bitboards into square names, maps from square names to
    piece codes, and lists of target names.
- **The string-keyed engine** (`app/engine/allowed_moves.go`,
  `make_move.go`, `layout.go`):
  - per-piece generators on a map from square names ("e4") to piece codes
    ("wP", "---" for empty);
  - `MakeMove`, which checks a requested move against the stored board and
    the side to move, then writes it and switches the turn;
  - the 8×8 display layout of square names and square colours.
- **The serializer** (`app/serializer/bitboard.go`): a bitboard to and from
  8 big-endian bytes.
- **The board client** (`app/static/js/board.js`, `index.js`):
  - the click, drag and drop handlers;
  - highlighting of the allowed targets;
  - the optional flip of the drawn layout;
  - the display form of a user name.
- **Request helpers** (`app/pkg/utils.go`):
  - the random string and user-name generators;
  - `ExtractString`;
  - `BindPayloadToStruct`.

## How the model is built

- Bitboards are `bv64`. A Go `map[uint64]uint64` is a `map<Key, bv64>`, and a
  missing key reads as 0 (`Bits.Lookup`).
- The Go loops `for b := x; b != 0; b &= b - 1 { piece := b & -b … }` become
  methods with loop invariants. Each is proved equal to a fold that follows
  the same lowest-bit-first order (`KnightsFrom`, `AttackedFrom`,
  `SafeFrom`, …). Lemmas then state what the fold means bit by bit.
- The two move maps the generators mutate are fields of a `MoveMaps` object.
  Each `Generate…Moves` method states the new maps as a function of the old.
- Go's unspecified map iteration order is modelled in two ways:
  - an `order` sequence covering exactly the map's keys, passed in as a
    parameter;
  - an arbitrary choice `:|` where the map is built inside the method.
  Results that depend on the order say so, e.g. which attacker
  `CheckIfKingIsInCheck` reports, or which square wins in `AllowedMovesOn`.
- The attack tables (`KnightAttackBitboard` and the others, computed
  elsewhere) are an input, `Generators.AttackTables`.
- What `GenerateInitialMoves` leaves for each kind of piece is stated in
  `InitialMoveProperties`, chaining the per-generator fold lemmas of
  `GeneratorProperties`. These statements assume a well-formed position:
  the two colour boards, and the six piece-type boards, are pairwise
  disjoint (`GeneratorProperties.SeparateBoards`; the king statements need
  only the colour boards disjoint).
  The generators themselves are modelled on every position. On a position
  with overlapping boards, a later generator overwrites an earlier one's
  entry, and the per-kind statements do not apply.
- In board.js, the DOM is modelled by these fields of a `BoardView.View`
  object:
  - the drawn squares in document order (`order`);
  - the piece shown on each drawn square (`pieces`);
  - the set of highlighted squares (`highlighted`);
  - the selection;
  - the log of moves handed to `sendMove` (`sent`).

  A piece element is identified by the render that drew it (`generation`),
  its square and its code.
- Where the repository's documentation and the code disagree, the model
  follows the code. The documentation shows a client's "wP e2→e4" move
  being accepted and the turn passing to black. As written, `MakeMove`
  validates moves against `GetAllowedMoves`, whose table is always empty
  (its board is never filled). So every move is refused, and
  `MakeMove.MakeMove` proves exactly that. The checks and writes of a move
  that passes are modelled separately in `MakeMove.MakeMoveWith`, with the
  table as a parameter.

## Model

| member | source | states |
|---|---|---|
| Bits.LowestBit | app/engine/bitboard_legal_moves.go:36-37 | `x & -x` of a non-zero board is one of its bits; of zero it is zero |
| Bits.ClearLowest | app/engine/bitboard_legal_moves.go:36 | `x & (x - 1)` is strictly smaller than a non-zero `x`, so every bit loop terminates |
| Bits.ClearLowestRemovesLowest | app/engine/bitboard_legal_moves.go:36-37 | `x & (x - 1)` is `x` with exactly its lowest bit removed |
| Bits.BitIndex | app/engine/bitboard_legal_moves.go:421-443 | every one-bit board is `1 << n` for the `n` counted by shifting it right down to 1 |
| Bits.ShiftCountHighest | app/engine/bitboard_utils.go:125-129 | for any non-empty board, shifting right until 1 is left counts to a set bit with no set bit above it: the highest set bit, not the lowest |
| Rays.Amount | app/engine/bitboard_legal_moves.go:421-443 | a ray direction shifts by 1, 7, 8 or 9 places |
| Rays.StepBit | app/engine/bitboard_legal_moves.go:428-432 | one step of a ray moves square `i` to `i + d`, and falls off the board (0) outside 0..63 |
| Rays.CrossesBoundaryIffWraps | app/engine/bitboard_legal_moves.go:445-452 | a diagonal step lands on the A or H file guard exactly when it changed file in the wrong direction, i.e. wrapped around the board edge |
| Rays.OnHFile | app/engine/bitboard_legal_moves.go:445-452 | a square meets the H-file mask exactly when it is in file 7 |
| Rays.OnAFile | app/engine/bitboard_legal_moves.go:445-452 | a square meets the A-file mask exactly when it is in file 0 |
| Rays.TraceRay | app/engine/bitboard_legal_moves.go:421-443 | `traceRay` returns the recursive ray `Ray(start, d, occupied)`: every square up to and including the first occupied one, stopping at the edge or on a wrap |
| Rays.RayOff | app/engine/bitboard_legal_moves.go:428-433 | a ray whose first step leaves the board or wraps is empty |
| Rays.RayHit | app/engine/bitboard_legal_moves.go:435-437 | a ray whose first square is occupied is that square alone |
| Rays.RayOn | app/engine/bitboard_legal_moves.go:434-439 | a ray through an empty square is that square plus the ray from it |
| Rays.RayExcludesStart | app/engine/bitboard_legal_moves.go:421-443 | a ray never contains its own starting square |
| Rays.RayAhead | app/engine/bitboard_legal_moves.go:421-443 | every square of a ray lies strictly further along the direction than its start |
| Rays.RayStopsAtBlocker | app/engine/bitboard_legal_moves.go:434-437 | no square of a ray lies beyond an occupied square of that ray |
| Rays.BlockerHit | app/engine/bitboard_legal_moves.go:435-437 | when the first square is occupied, the ray holds exactly one square |
| Rays.RemoveBlockedMoves | app/engine/bitboard_legal_moves.go:411-419 | the result is the moves intersected with the union of the traced rays in every direction |
| Rays.RaysExcludeStart | app/engine/bitboard_legal_moves.go:411-419 | the union of the rays never contains the piece's own square |
| Rays.BlockedMovesKept | app/engine/bitboard_legal_moves.go:411-419 | `removeBlockedMoves` only removes targets: it adds nothing outside the moves and never the piece's own square |
| Attacks.GetAttackedSquares | app/engine/bitboard_legal_moves.go:397-409 | the result is the fold `Attacked` of the enemy pieces' move entries |
| Attacks.AttackCovers | app/engine/bitboard_legal_moves.go:397-409 | every move of every enemy piece is among the attacked squares |
| Attacks.AttackerOf | app/engine/bitboard_legal_moves.go:397-409 | every attacked square is a move of some enemy piece (with the witness) |
| Attacks.GatheredKept | app/engine/bitboard_legal_moves.go:397-409 | the accumulator only grows |
| Attacks.CheckIsMoveLeft | app/engine/bitboard_legal_moves.go:477-486 | `checkIsMoveLeft` answers `MoveLeft`, which scans the side's pieces lowest first for a non-empty entry |
| Attacks.MovingPiece | app/engine/bitboard_legal_moves.go:477-486 | when a move is left, some piece of the side has a non-empty entry (with the witness) |
| Attacks.PieceMoves | app/engine/bitboard_legal_moves.go:477-486 | a piece of the side with a non-empty entry means a move is left |
| Attacks.CheckIfKingIsInCheck | app/engine/bitboard_legal_moves.go:454-475 | the answer is true exactly when some other-side piece's entry meets the king, in whatever order the map is visited; the reported attacker is such a piece, and 0 when there is none |
| Attacks.NoKingNoCheck | app/engine/bitboard_legal_moves.go:454-475 | a side without a king is never in check |
| Simulation.MoverType | app/engine/bitboard_legal_moves.go:100-113 | the first type board, in the order pawn, knight, bishop, rook, queen, king, that holds the piece; 8 (none) when no type board holds it, so that the move then sets no type board |
| Simulation.BoardAfter | app/engine/bitboard_legal_moves.go:71-115 | each of the eight boards after `simulateMove` is the old board with the source lifted when it held the piece, and the target set on the mover's colour and type boards and cleared elsewhere |
| Simulation.TargetAfter | app/engine/bitboard_legal_moves.go:92-113 | after the move, the target square is set exactly on the mover's colour and type boards (captures vanish) |
| Simulation.SourceAfter | app/engine/bitboard_legal_moves.go:92-113 | after the move, the source square is cleared on every board that held the piece and unchanged on the others |
| Simulation.ElsewhereAfter | app/engine/bitboard_legal_moves.go:71-115 | no other square changes on any board |
| Simulation.SourceCleared | app/engine/bitboard_legal_moves.go:71-115 | when the source belongs to one colour, every board is empty at the source after the move |
| Simulation.OtherFieldsAfter | app/engine/bitboard_legal_moves.go:71-115 | en passant, the castling rights and the side to move are copied unchanged |
| Simulation.SimulateMove | app/engine/bitboard_legal_moves.go:71-115 | the target square ends up on the mover's colour board and off the other colour's board; en passant, the castling rights and the side to move are copied unchanged (each board in full is given by BoardAfter) |
| Generators.QueenAttacks | app/engine/bitboard_legal_moves.go:300 | the queen's attack set is the union of the bishop and rook tables |
| Generators.Directions | app/engine/bitboard_legal_moves.go:241 | every slider's direction list is made of valid ray directions |
| Generators.AddPawnMoves | app/engine/bitboard_legal_moves.go:141-172 | one pawn updates both maps as the `PawnStep` function states: pushes and captures or-ed into legal, the two diagonals written into pseudo |
| Generators.AddWhitePawns | app/engine/bitboard_legal_moves.go:141-172 | the white-pawn loop folds `PawnStep` over the white pawns, lowest first |
| Generators.AddBlackPawns | app/engine/bitboard_legal_moves.go:175-206 | the black-pawn loop folds `PawnStep` over the black pawns, lowest first |
| Generators.GeneratePawnMoves | app/engine/bitboard_legal_moves.go:138-207 | the maps become the black-pawn fold applied after the white-pawn fold |
| Generators.WhiteOwnSide | app/engine/bitboard_legal_moves.go:217-219 | a white piece's targets lose the white-occupied squares |
| Generators.BlackOwnSide | app/engine/bitboard_legal_moves.go:220-222 | a black piece's targets lose the black-occupied squares |
| Generators.NoOwnSide | app/engine/bitboard_legal_moves.go:217-223 | a piece of neither colour keeps its table targets |
| Generators.AddKnightMoves | app/engine/bitboard_legal_moves.go:213-226 | one knight writes its own-side-free table targets into both maps |
| Generators.KnightsFromOn | app/engine/bitboard_legal_moves.go:211 | the knight fold handles the lowest knight first, then the rest |
| Generators.GenerateKnightMoves | app/engine/bitboard_legal_moves.go:209-228 | the maps become the knight fold over the old maps |
| Generators.Trace | app/engine/bitboard_legal_moves.go:243 | the slider's traced moves are `removeBlockedMoves` of its table entry |
| Generators.SliderLegalTargets | app/engine/bitboard_legal_moves.go:243-257 | the legal entry is the traced table entry without the squares of the piece's own side |
| Generators.LegalEntryIs | app/engine/bitboard_legal_moves.go:243-257 | the legal entry of a slider equals the own-side filter applied to its traced attacks |
| Generators.SliderPseudoTargets | app/engine/bitboard_legal_moves.go:239-256 | the pseudo entry is traced with the enemy king removed from the blockers, then loses the own side; a colourless piece keeps its raw table entry |
| Generators.WhitePseudoEntry | app/engine/bitboard_legal_moves.go:245-249 | a white slider's pseudo entry sees through the black king and excludes white squares |
| Generators.BlackPseudoEntry | app/engine/bitboard_legal_moves.go:251-255 | a black slider's pseudo entry sees through the white king and excludes black squares |
| Generators.ColourlessPseudoEntry | app/engine/bitboard_legal_moves.go:238-239 | a piece of neither colour keeps its table entry as pseudo moves |
| Generators.AddSliderMoves | app/engine/bitboard_legal_moves.go:236-259 | one slider writes its pseudo and legal entries as `SliderStep` states |
| Generators.SlidersFromOn | app/engine/bitboard_legal_moves.go:234 | the slider fold handles the lowest piece first, then the rest |
| Generators.GenerateBishopMoves | app/engine/bitboard_legal_moves.go:230-261 | the maps become the bishop fold over the old maps |
| Generators.GenerateRookMoves | app/engine/bitboard_legal_moves.go:263-290 | the maps become the rook fold over the old maps |
| Generators.GenerateQueenMoves | app/engine/bitboard_legal_moves.go:292-320 | the maps become the queen fold, with the union of the bishop and rook tables |
| Generators.CastleWhite | app/engine/bitboard_legal_moves.go:333-358 | g1 and c1 are added exactly when the king stands on e1, the right is listed, the squares between are empty and the crossed squares are not attacked |
| Generators.CastleBlack | app/engine/bitboard_legal_moves.go:364-389 | the same for e8 with g8 and c8 |
| Generators.WhiteKingMoves | app/engine/bitboard_legal_moves.go:328-358 | a white king's targets are its table steps minus white squares and squares black attacks, plus castling |
| Generators.BlackKingMoves | app/engine/bitboard_legal_moves.go:359-389 | a black king's targets are its table steps minus black squares and squares white attacks, plus castling |
| Generators.WhiteKingTargets | app/engine/bitboard_legal_moves.go:328-358 | for a white king, the king entry is the white-king rule |
| Generators.BlackKingTargets | app/engine/bitboard_legal_moves.go:359-389 | for a black king, the king entry is the black-king rule |
| Generators.ColourlessKingTargets | app/engine/bitboard_legal_moves.go:326 | a king of neither colour keeps its table steps |
| Generators.KingMoves | app/engine/bitboard_legal_moves.go:326-390 | the king's entry is `KingTargets` |
| Generators.AddKingMoves | app/engine/bitboard_legal_moves.go:324-393 | one king writes the same entry into both maps |
| Generators.KingsFromOn | app/engine/bitboard_legal_moves.go:323 | the king fold handles the lowest king first, then the rest |
| Generators.GenerateKingMoves | app/engine/bitboard_legal_moves.go:322-395 | the maps become the king fold, the attacked squares read from the pseudo map built so far |
| Generators.GenerateInitialMoves | app/engine/bitboard_legal_moves.go:124-136 | the two maps are the six generators chained from two empty maps, in the code's order |
| GeneratorProperties.KnightsFromOther | app/engine/bitboard_legal_moves.go:211-227 | the knight loop leaves the entries of a square that is not a knight unchanged |
| GeneratorProperties.KnightsFromWritten | app/engine/bitboard_legal_moves.go:211-227 | after the knight loop, every knight's legal and pseudo entries are its own-side-free table targets, whatever the maps held before |
| GeneratorProperties.SlidersFromOther | app/engine/bitboard_legal_moves.go:234-260 | a slider loop leaves the entries of a square that is not one of its pieces unchanged |
| GeneratorProperties.SlidersFromWritten | app/engine/bitboard_legal_moves.go:234-260 | after a slider loop, each of its pieces holds its own traced legal entry and its pseudo entry |
| GeneratorProperties.KingsFromOther | app/engine/bitboard_legal_moves.go:323-394 | the king loop leaves the entries of a square that is not a king unchanged |
| GeneratorProperties.KingViewOther | app/engine/bitboard_legal_moves.go:330 | the pseudo map a king's attacked squares are read from agrees, off the king board, with the map the loop started from |
| GeneratorProperties.KingsFromWritten | app/engine/bitboard_legal_moves.go:323-394 | after the king loop, every king holds the king rule applied to the pseudo map as it stood when that king was reached |
| GeneratorProperties.WhitePawnsFromOther | app/engine/bitboard_legal_moves.go:141-172 | the white-pawn loop leaves the entries of a square that is not a white pawn unchanged |
| GeneratorProperties.WhitePawnsFromWritten | app/engine/bitboard_legal_moves.go:141-172 | after the white-pawn loop, a white pawn's legal entry is its old entry with pushes and captures or'ed in, and its pseudo entry is its two diagonals |
| GeneratorProperties.BlackPawnsFromOther | app/engine/bitboard_legal_moves.go:175-206 | the black-pawn loop leaves the entries of a square that is not a black pawn unchanged |
| GeneratorProperties.BlackPawnsFromWritten | app/engine/bitboard_legal_moves.go:175-206 | the same for a black pawn, pushing and capturing downwards |
| GeneratorProperties.WhiteCut | app/engine/bitboard_legal_moves.go:217-219 | the own-side filter of a white piece keeps only table targets and no white square |
| GeneratorProperties.BlackCut | app/engine/bitboard_legal_moves.go:220-222 | the own-side filter of a black piece keeps only table targets and no black square |
| GeneratorProperties.CutWithin | app/engine/bitboard_legal_moves.go:217-223 | the own-side filter never adds a square to the table targets |
| GeneratorProperties.WhiteCastlingOwnClear | app/engine/bitboard_legal_moves.go:333-357 | squares added by white castling are never white |
| GeneratorProperties.WhiteCastlingSafe | app/engine/bitboard_legal_moves.go:333-357 | squares added by white castling are never attacked |
| GeneratorProperties.BlackCastlingOwnClear | app/engine/bitboard_legal_moves.go:364-388 | squares added by black castling are never black |
| GeneratorProperties.BlackCastlingSafe | app/engine/bitboard_legal_moves.go:364-388 | squares added by black castling are never attacked |
| GeneratorProperties.WhiteKingAvoids | app/engine/bitboard_legal_moves.go:328-358 | a white king's entry holds no white square and no square black attacks, castling included |
| GeneratorProperties.BlackKingAvoids | app/engine/bitboard_legal_moves.go:359-389 | a black king's entry holds no black square and no square white attacks, castling included |
| PawnEntries.SinglePushRule | app/engine/bitboard_legal_moves.go:144-148 | a pawn's fresh entry holds the square one ahead exactly when that square is empty (lines 178-182 for black) |
| PawnEntries.DoublePushRule | app/engine/bitboard_legal_moves.go:150-155 | a pawn's fresh entry holds the square two ahead exactly when the pawn is on its start rank and both squares ahead are empty (lines 184-189 for black) |
| PawnEntries.CapturesOfEntry | app/engine/bitboard_legal_moves.go:157-170 | on its diagonals, a pawn's fresh entry is exactly the enemy pieces there plus the en passant square when it is non-zero, holds an enemy piece and lies on a diagonal (lines 191-204 for black) |
| PawnEntries.PawnEntryWithin | app/engine/bitboard_legal_moves.go:144-170 | a pawn's fresh entry lies within the two squares ahead and its two diagonals |
| InitialMoveProperties.KeptByKings | app/engine/bitboard_legal_moves.go:124-136 | the king pass does not change the entries of a square that is not a king |
| InitialMoveProperties.KeptByQueens | app/engine/bitboard_legal_moves.go:124-136 | the queen and king passes do not change the entries of a square that is neither |
| InitialMoveProperties.KeptByRooks | app/engine/bitboard_legal_moves.go:124-136 | likewise for the rook, queen and king passes |
| InitialMoveProperties.KeptByBishops | app/engine/bitboard_legal_moves.go:124-136 | likewise for the bishop, rook, queen and king passes |
| InitialMoveProperties.KeptByKnights | app/engine/bitboard_legal_moves.go:124-136 | likewise for every pass after the pawns |
| InitialMoveProperties.KeptPastPawns | app/engine/bitboard_legal_moves.go:124-136 | with separate boards, a pawn keeps the entries the pawn pass gave it |
| InitialMoveProperties.InitialPawn | app/engine/bitboard_legal_moves.go:138-207 | with separate boards, a pawn's final legal entry is its push and capture entry built from an empty one, and its pseudo entry is its two diagonals |
| InitialMoveProperties.InitialPawnSinglePush | app/engine/bitboard_legal_moves.go:144-148 | a pawn's final legal entry holds the square one ahead exactly when that square is empty |
| InitialMoveProperties.InitialPawnDoublePush | app/engine/bitboard_legal_moves.go:150-155 | a pawn's final legal entry holds the square two ahead exactly when it stands on its start rank and both squares ahead are empty |
| InitialMoveProperties.InitialPawnCaptures | app/engine/bitboard_legal_moves.go:157-170 | on its diagonals, a pawn's final legal entry is exactly its captures, en passant included |
| InitialMoveProperties.InitialPawnWithin | app/engine/bitboard_legal_moves.go:144-170 | a pawn's final legal entry lies within the two squares ahead and its two diagonals |
| InitialMoveProperties.InitialKnight | app/engine/bitboard_legal_moves.go:209-228 | with separate boards, a knight's final legal and pseudo entries are both its own-side-free table targets |
| InitialMoveProperties.InitialWhiteKnight | app/engine/bitboard_legal_moves.go:217-219 | a white knight's final legal entry holds no white square |
| InitialMoveProperties.InitialBlackKnight | app/engine/bitboard_legal_moves.go:220-222 | a black knight's final legal entry holds no black square |
| InitialMoveProperties.InitialSlider | app/engine/bitboard_legal_moves.go:230-320 | with separate boards, a bishop's, rook's or queen's final entries are the ones its own pass traced |
| InitialMoveProperties.InitialBishop | app/engine/bitboard_legal_moves.go:230-261 | the bishop case of `InitialSlider` |
| InitialMoveProperties.InitialRook | app/engine/bitboard_legal_moves.go:263-290 | the rook case of `InitialSlider` |
| InitialMoveProperties.InitialQueen | app/engine/bitboard_legal_moves.go:292-320 | the queen case of `InitialSlider` |
| InitialMoveProperties.InitialWhiteSlider | app/engine/bitboard_legal_moves.go:243-249 | a white slider's final legal entry holds no white square |
| InitialMoveProperties.InitialBlackSlider | app/engine/bitboard_legal_moves.go:251-255 | a black slider's final legal entry holds no black square |
| InitialMoveProperties.InitialKing | app/engine/bitboard_legal_moves.go:322-395 | a king's final legal and pseudo entries are the king rule applied to the pseudo map as it stood when the king loop reached it (`KingSees`) |
| InitialMoveProperties.KingSeesOthers | app/engine/bitboard_legal_moves.go:330 | those pseudo moves are, for every square that is not a king, the final pseudo entries |
| InitialMoveProperties.InitialWhiteKing | app/engine/bitboard_legal_moves.go:328-329 | a white king's final legal entry holds no white square |
| InitialMoveProperties.InitialWhiteKingSafe | app/engine/bitboard_legal_moves.go:330-331 | a white king's final legal entry holds no square black attacks |
| InitialMoveProperties.InitialBlackKing | app/engine/bitboard_legal_moves.go:359-360 | a black king's final legal entry holds no black square |
| InitialMoveProperties.InitialBlackKingSafe | app/engine/bitboard_legal_moves.go:361-362 | a black king's final legal entry holds no square white attacks |
| InitialMoveProperties.WhiteCastlingG1 | app/engine/bitboard_legal_moves.go:333-345 | white castling adds g1 exactly when the king is on e1, "K" is in the rights, f1 and g1 are empty and e1, f1, g1 are not attacked |
| InitialMoveProperties.WhiteCastlingC1 | app/engine/bitboard_legal_moves.go:346-357 | white castling adds c1 exactly when the king is on e1, "Q" is in the rights, d1, c1, b1 are empty and e1, d1, c1 are not attacked |
| InitialMoveProperties.BlackCastlingG8 | app/engine/bitboard_legal_moves.go:364-375 | black castling adds g8 exactly when the king is on e8 with "k", f8 and g8 empty and e8, f8, g8 not attacked |
| InitialMoveProperties.BlackCastlingC8 | app/engine/bitboard_legal_moves.go:377-387 | black castling adds c8 exactly when the king is on e8 with "q", d8, c8, b8 empty and e8, d8, c8 not attacked |
| InitialMoveProperties.WhiteKingSideNeeded | app/engine/bitboard_legal_moves.go:328-345 | g1 in a white king's entry, when it is not a table step, means the king is on e1 with the king-side conditions met |
| InitialMoveProperties.WhiteKingSideGranted | app/engine/bitboard_legal_moves.go:333-345 | conversely, on e1 with the king-side conditions met, g1 is in the entry |
| InitialMoveProperties.WhiteQueenSideNeeded | app/engine/bitboard_legal_moves.go:328-357 | the same for c1 and the queen-side conditions |
| InitialMoveProperties.WhiteQueenSideGranted | app/engine/bitboard_legal_moves.go:346-357 | the converse for c1 |
| InitialMoveProperties.BlackKingSideNeeded | app/engine/bitboard_legal_moves.go:359-375 | the same for a black king, g8 and e8 |
| InitialMoveProperties.BlackKingSideGranted | app/engine/bitboard_legal_moves.go:364-375 | the converse for g8 |
| InitialMoveProperties.BlackQueenSideNeeded | app/engine/bitboard_legal_moves.go:359-388 | the same for a black king, c8 and e8 |
| InitialMoveProperties.BlackQueenSideGranted | app/engine/bitboard_legal_moves.go:377-387 | the converse for c8 |
| InitialMoveProperties.InitialWhiteKingSideNeeded | app/engine/bitboard_legal_moves.go:333-345 | in the final maps, a white king reaches g1 beyond its table steps only from e1, with "K", f1 and g1 empty and e1, f1, g1 not attacked by black |
| InitialMoveProperties.InitialWhiteKingSideGranted | app/engine/bitboard_legal_moves.go:333-345 | in the final maps, a white king on e1 with those conditions has g1 in its entry |
| InitialMoveProperties.InitialWhiteQueenSideNeeded | app/engine/bitboard_legal_moves.go:346-357 | in the final maps, a white king reaches c1 beyond its table steps only from e1 with the queen-side conditions |
| InitialMoveProperties.InitialWhiteQueenSideGranted | app/engine/bitboard_legal_moves.go:346-357 | in the final maps, a white king on e1 with the queen-side conditions has c1 in its entry |
| InitialMoveProperties.InitialBlackKingSideNeeded | app/engine/bitboard_legal_moves.go:364-375 | in the final maps, a black king reaches g8 beyond its table steps only from e8 with the king-side conditions |
| InitialMoveProperties.InitialBlackKingSideGranted | app/engine/bitboard_legal_moves.go:364-375 | in the final maps, a black king on e8 with the king-side conditions has g8 in its entry |
| InitialMoveProperties.InitialBlackQueenSideNeeded | app/engine/bitboard_legal_moves.go:377-387 | in the final maps, a black king reaches c8 beyond its table steps only from e8 with the queen-side conditions |
| InitialMoveProperties.InitialBlackQueenSideGranted | app/engine/bitboard_legal_moves.go:377-387 | in the final maps, a black king on e8 with the queen-side conditions has c8 in its entry |
| Legal.KeyOrder | app/engine/bitboard_legal_moves.go:47 | an iteration order covers exactly the keys of the map |
| Legal.IsKingInCheck | app/engine/bitboard_legal_moves.go:117-122 | `isKingInCheck` regenerates the position's pseudo moves and asks whether the side's king is attacked |
| Legal.NoKingNotInCheck | app/engine/bitboard_legal_moves.go:117-122 | a side without a king is never in check after a simulated move |
| Legal.SafeFromBits | app/engine/bitboard_legal_moves.go:36-44 | a target survives the first pass exactly when it was a move and its simulated position is safe |
| Legal.SafeTargetsBits | app/engine/bitboard_legal_moves.go:36-44 | a piece's filtered targets are exactly its moves whose simulated position leaves its king out of check |
| Legal.SafeTargetsSome | app/engine/bitboard_legal_moves.go:36-44 | the filtered entry is non-empty exactly when some move is safe |
| Legal.IsSafe | app/engine/bitboard_legal_moves.go:39-41 | one test is the simulated position followed by the check test |
| Legal.KeepSafe | app/engine/bitboard_legal_moves.go:36-44 | the inner loop records exactly the safe targets, and records nothing when none is safe |
| Legal.KeepSafeStep | app/engine/bitboard_legal_moves.go:35-45 | one piece of the first loop adds its safe targets to the map |
| Legal.KeepSafeMoves | app/engine/bitboard_legal_moves.go:33-45 | the first loop's result is `FirstPass`: every piece with a safe move mapped to its safe targets |
| Legal.KeepCaptures | app/engine/bitboard_legal_moves.go:51-57 | a pawn's entry is cut down to the opposite colour's squares |
| Legal.WhitePawnOpposite | app/engine/bitboard_legal_moves.go:51-53 | for a white pawn the opposite colour is black |
| Legal.OtherPawnOpposite | app/engine/bitboard_legal_moves.go:54-56 | for any other pawn it is white |
| Legal.JoinIfSafe | app/engine/bitboard_legal_moves.go:59-64 | one pawn target adds the pawn's whole move list when its simulated position is safe |
| Legal.JoinSafeMoves | app/engine/bitboard_legal_moves.go:58-65 | the pawn loop adds the whole move list once any single move is safe |
| Legal.PawnEntryIs | app/engine/bitboard_legal_moves.go:51-65 | the pawn's final entry is its captures-only entry, plus its whole list if any move is safe |
| Legal.KeepSafePawn | app/engine/bitboard_legal_moves.go:48-65 | one pawn's entry is rewritten as `PawnEntry` states |
| Legal.RewriteStep | app/engine/bitboard_legal_moves.go:47-66 | one key of the second loop rewrites a pawn's entry and leaves other pieces alone |
| Legal.RewritePawns | app/engine/bitboard_legal_moves.go:47-67 | the second loop overlays the pawn entries on the first-pass map, in any key order |
| Legal.FilterLegalMoves | app/engine/bitboard_legal_moves.go:31-69 | `filterLegalMoves` returns `Filtered`: the first pass, with the pawn entries rewritten |
| LegalProperties.FirstPassLookup | app/engine/bitboard_legal_moves.go:33-45 | after the first pass, a piece's entry is its safe targets, and it has a key exactly when it has one |
| LegalProperties.NonPawnTargets | app/engine/bitboard_legal_moves.go:31-69 | for every piece that is not a pawn with a legal entry, a square is a filtered target exactly when it was a pseudo move and its simulated position is safe |
| LegalProperties.NonPawnPresent | app/engine/bitboard_legal_moves.go:31-69 | such a piece appears in the result exactly when one of its moves is safe |
| LegalProperties.PawnTargets | app/engine/bitboard_legal_moves.go:47-67 | a pawn's filtered targets are its safe captures onto the opposite colour, plus every listed move once any listed move is safe |
| LegalProperties.PawnPassAsWritten | app/engine/bitboard_legal_moves.go:58-65 | a pawn move whose simulated position leaves the king in check is still kept when another move of that pawn is safe |
| CorrectedFilter.IntendedPawnValueAt | app/engine/bitboard_legal_moves.go:48-65 | the corrected pass writes a listed pawn's entry from its first-pass entry and its listed moves |
| CorrectedFilter.AddIfSafe | app/engine/bitboard_legal_moves.go:59-64 | one pawn target, corrected: the target alone is added to the pawn's entry when its simulated position is safe |
| CorrectedFilter.AddedPass | app/engine/bitboard_legal_moves.go:59-64 | adding a safe target to the entry in the map is the accumulator step of the fold |
| CorrectedFilter.AddSafeMoves | app/engine/bitboard_legal_moves.go:58-65 | the corrected pawn loop adds exactly the safe moves, one by one, to the captures-only entry |
| CorrectedFilter.IntendedKeepSafePawn | app/engine/bitboard_legal_moves.go:48-65 | one pawn's corrected entry: its kept captures onto the opposite colour, then its safe moves |
| CorrectedFilter.IntendedRewriteStep | app/engine/bitboard_legal_moves.go:47-66 | one key of the corrected second loop rewrites a pawn's entry and leaves other pieces alone |
| CorrectedFilter.IntendedRewritePawns | app/engine/bitboard_legal_moves.go:47-67 | the corrected second loop overlays the corrected pawn entries on the first-pass map, in any key order |
| CorrectedFilter.IntendedFilterLegalMoves | app/engine/bitboard_legal_moves.go:31-69 | the corrected `filterLegalMoves` returns `IntendedFiltered`: the first pass, with the corrected pawn entries |
| CorrectedFilter.IntendedPawnLookup | app/engine/bitboard_legal_moves.go:47-67 | under the corrected pass a listed pawn's entry is built from its safe pseudo targets and its listed moves |
| CorrectedFilter.IntendedOtherLookup | app/engine/bitboard_legal_moves.go:33-45 | under the corrected pass every other piece keeps its first-pass entry |
| CorrectedFilter.IntendedEntryBits | app/engine/bitboard_legal_moves.go:51-65 | a square is in a corrected pawn entry exactly when it is a kept capture onto the opposite colour or a listed move whose simulated position is safe |
| CorrectedFilter.SafeFromAndBits | app/engine/bitboard_legal_moves.go:51-65 | the fold started from the captures-only entry holds those captures and the passing moves, and nothing else |
| CorrectedFilter.IntendedAllSafe | app/engine/bitboard_legal_moves.go:31-69 | every target left by the corrected filter, for every piece, leaves the mover's king out of check |
| CorrectedFilter.IntendedPawnComplete | app/engine/bitboard_legal_moves.go:58-65 | every listed pawn move whose simulated position is safe survives the corrected filter |
| CorrectedFilter.IntendedNonPawnTargets | app/engine/bitboard_legal_moves.go:31-69 | for every other piece the corrected filter keeps exactly the safe pseudo targets, as the code as written does |
| GameStatus.NoMovesIff | app/engine/bitboard_legal_moves.go:477-486 | no move is left for a side exactly when each of its pieces has an empty filtered entry |
| GameStatus.StatusMeaning | app/engine/bitboard_legal_moves.go:12-28 | the status is white check or checkmate only when white is to move and in check (mate when white has no move); otherwise black check or mate when black's king is attacked (whatever the turn); otherwise "" |
| GameStatus.NoKingNoStatus | app/engine/bitboard_legal_moves.go:12-28 | without kings the status is always "" |
| GameStatus.ReportStatus | app/engine/bitboard_legal_moves.go:12-28 | the status the code computes is `Status` |
| GameStatus.GenerateLegalMovesForAllPositions | app/engine/bitboard_legal_moves.go:8-29 | the returned moves are the initial moves run through the corrected filter (see Findings), and the status is read from the unfiltered pseudo moves and those filtered moves |
| BitboardUtils.PositionToIndex | app/engine/bitboard_utils.go:136-142 | the index is computed in byte arithmetic and always lies in 0..255 |
| BitboardUtils.PositionToIndexOnBoard | app/engine/bitboard_utils.go:136-142 | on a square name a1..h8 the index is `8 × rank + file`, below 64 |
| BitboardUtils.SquareName | app/engine/bitboard_utils.go:119-134 | every bit index names a square a1..h8 |
| BitboardUtils.IndexNameRoundTrip | app/engine/bitboard_utils.go:119-142 | naming a bit index and indexing the name gives the index back |
| BitboardUtils.NameIndexRoundTrip | app/engine/bitboard_utils.go:119-142 | indexing a square name and naming the index gives the name back |
| BitboardUtils.SquareNameDistinct | app/engine/bitboard_utils.go:119-134 | distinct bit indices have distinct names |
| BitboardUtils.BitToSquare | app/engine/bitboard_utils.go:119-134 | `bitToSquare` names the square whose index is the number of right shifts that bring the board down to 1, which is its highest set bit (`Bits.ShiftCountHighest`); "" for an empty board |
| BitboardUtils.SquareOfSingleBit | app/engine/bitboard_utils.go:119-134 | a one-bit board is named by its own square, and indexing that name gives the bit's index |
| BitboardUtils.TargetSquares | app/engine/bitboard_utils.go:99-112 | the target list of a move board is `Targets` over all 64 squares |
| BitboardUtils.TargetsMembers | app/engine/bitboard_utils.go:99-112 | a name is listed exactly when its square is set in the move board |
| BitboardUtils.TargetsAscending | app/engine/bitboard_utils.go:99-112 | targets are listed in increasing square order, so without repeats |
| BitboardUtils.TargetsOfEmpty | app/engine/bitboard_utils.go:99-112 | an empty move board lists no targets |
| BitboardUtils.ConvertLegalMovesToMap | app/engine/bitboard_utils.go:92-117 | each piece's square name is mapped to its target list, filed in the map's iteration order |
| BitboardUtils.ConvertedNames | app/engine/bitboard_utils.go:92-117 | a square name is a key exactly when some piece stands there, and its list is that piece's targets |
| BitboardUtils.ConvertedOwnList | app/engine/bitboard_utils.go:92-117 | a piece alone on its square gets its own target list |
| BitboardUtils.GetPieceCode | app/engine/bitboard_utils.go:8-31 | the code is the first matching type letter in the order pawn, rook, knight, bishop, queen, king; lower-case for black; "" when none matches |
| BitboardUtils.PieceCodeNone | app/engine/bitboard_utils.go:8-31 | the code is "" exactly when no type board holds the bit |
| BitboardUtils.PieceCodeFirst | app/engine/bitboard_utils.go:8-31 | the code is the letter of the first type board, in the code's order, that holds the bit |
| BitboardUtils.ConvertGameStateToMap | app/engine/bitboard_utils.go:33-60 | the board map is `Filled` over the 64 squares |
| BitboardUtils.BoardSquare | app/engine/bitboard_utils.go:33-60 | a square is a key exactly when a piece of either colour stands on it, and then it maps to that piece's code |
| BitboardSerializer.Serialize | app/serializer/bitboard.go:10-17 | a uint64 gives 8 big-endian bytes that read back as the value; any other value is an error |
| BitboardSerializer.Deserialize | app/serializer/bitboard.go:19-25 | 8 bytes into a non-nil `*uint64` store their big-endian value; anything else is an error that leaves the destination unchanged |
| BitboardSerializer.RoundTrip | app/serializer/bitboard.go:10-25 | reading the written bytes gives the value back |
| BitboardSerializer.BytesRoundTrip | app/serializer/bitboard.go:10-25 | writing the read value gives the same 8 bytes back |
| BitboardSerializer.SerializeThenDeserialize | app/serializer/bitboard.go:10-25 | serializing a uint64 always succeeds and deserializes to the same value |
| BitboardSerializer.DeserializeThenSerialize | app/serializer/bitboard.go:10-25 | any 8 bytes deserialize to a value that serializes back to them |
| AllowedMoves.Digits | app/engine/allowed_moves.go:134 | `%d` prints at least one digit |
| AllowedMoves.SquareName | app/engine/allowed_moves.go:134 | an on-board file and rank print as a square name a1..h8 |
| AllowedMoves.LeapTargets | app/engine/allowed_moves.go:116-153 | one step per offset, in table order, kept when on the board and vacant or held by the other colour |
| AllowedMoves.GetAllowedMovesKnight | app/engine/allowed_moves.go:101-154 | the knight's targets are the single leaps of its eight offsets |
| AllowedMoves.GetAllowedMovesKing | app/engine/allowed_moves.go:324-377 | the king's targets are the single leaps of its eight offsets |
| AllowedMoves.LeapsSound | app/engine/allowed_moves.go:120-151 | there are at most as many leap targets as offsets, and each is a square name the mover may land on |
| AllowedMoves.Slide | app/engine/allowed_moves.go:171-206 | one direction appends its ray to the targets found so far |
| AllowedMoves.RayTargets | app/engine/allowed_moves.go:171-206 | a slider's targets are its rays, concatenated in table order |
| AllowedMoves.GetAllowedMovesBishop | app/engine/allowed_moves.go:156-209 | the bishop's targets are its four diagonal rays |
| AllowedMoves.GetAllowedMovesRook | app/engine/allowed_moves.go:211-264 | the rook's targets are its four straight rays |
| AllowedMoves.GetAllowedMovesQueen | app/engine/allowed_moves.go:265-322 | the queen's targets are its four straight rays, then its four diagonal rays |
| AllowedMoves.RayOff | app/engine/allowed_moves.go:180-183 | a ray that steps off the board is empty |
| AllowedMoves.RayVacant | app/engine/allowed_moves.go:190-193 | a ray through a vacant square lists it and continues |
| AllowedMoves.RayBlocked | app/engine/allowed_moves.go:194-203 | a ray stops at the first occupied square, listing it only when it holds the other colour |
| AllowedMoves.RayLine | app/engine/allowed_moves.go:171-206 | a ray's targets are consecutive steps of its direction from the start |
| AllowedMoves.RayStops | app/engine/allowed_moves.go:171-206 | every target but the last of a ray is vacant, and every target is one the mover may land on |
| AllowedMoves.RaysSound | app/engine/allowed_moves.go:171-206 | every slider target is a square name the mover may land on |
| AllowedMoves.GetAllowedMovesPawn | app/engine/allowed_moves.go:48-100 | the pawn's targets are the forward steps, then the diagonal captures |
| AllowedMoves.AddCaptures | app/engine/allowed_moves.go:85-97 | the captures on the left then the right diagonal are appended to the forward steps |
| AllowedMoves.DiagonalCapture | app/engine/allowed_moves.go:86-96 | a diagonal square is listed exactly when it holds a piece of the other colour |
| AllowedMoves.CapturesNext | app/engine/allowed_moves.go:85-97 | each diagonal adds at most its own square, in order |
| AllowedMoves.CapturesSound | app/engine/allowed_moves.go:85-97 | every capture target is a diagonal holding the other colour |
| AllowedMoves.PawnTargetsMeaning | app/engine/allowed_moves.go:67-97 | one step ahead is listed exactly when it is vacant; two ahead exactly when the pawn is on its start rank and that square is vacant (the square between is not tested); anything else listed is a capture |
| AllowedMoves.AheadName | app/engine/allowed_moves.go:67-82 | the square ahead keeps the file and moves the rank by the colour's direction |
| AllowedMoves.AheadDistinct | app/engine/allowed_moves.go:67-82 | the one- and two-step squares differ |
| AllowedMoves.AllowedMovesOn | app/engine/allowed_moves.go:18-44 | every piece of a known type gets an entry keyed by its full code; each entry is the moves of some square holding that code; no other code gets one |
| AllowedMoves.GetAllowedMoves | app/engine/allowed_moves.go:8-47 | the board the loop ranges over is never filled, so the table is empty |
| Layout.SquareAt | app/engine/layout.go:8-9 | each cell is named by a file a–h and a rank 1–8 |
| Layout.ColorAt | app/engine/layout.go:11 | each cell's colour is "w" or "b" |
| Layout.GetBoardLayout | app/engine/layout.go:3-16 | the 8×8×2 layout holds at row r, column c the name `SquareAt(r, c)` and the colour `ColorAt(r, c)` |
| Layout.SquaresDistinct | app/engine/layout.go:6-14 | no two cells carry the same name |
| Layout.CellOf | app/engine/layout.go:6-14 | every square name a1..h8 is some cell's name |
| Layout.RowNeighboursDiffer | app/engine/layout.go:11 | horizontally adjacent cells alternate colour |
| Layout.ColumnNeighboursDiffer | app/engine/layout.go:11 | vertically adjacent cells alternate colour |
| Layout.SquareAtIndex | app/engine/layout.go:8-9 | row r, column c is the square the bitboard engine numbers `8 × (7 − r) + c` |
| MakeMove.SwitchTurn | app/engine/make_move.go:95-100 | the next turn is "black" exactly when the current one is "white", and is always "white" or "black" |
| MakeMove.SwitchTwice | app/engine/make_move.go:95-100 | switching twice restores the turn exactly when it was "white" or "black" |
| MakeMove.Contains | app/engine/make_move.go:85-92 | `contains` is true exactly when the value is in the slice |
| MakeMove.MakeMoveWith | app/engine/make_move.go:14-82 | the first failing check, in the code's order, refuses the move and changes nothing; otherwise the piece is written into the destination, "---" into the source, and the turn switches |
| MakeMove.MakeMove | app/engine/make_move.go:14-82 | with the always-empty allowed table, every move is refused and the game is unchanged |
| MakeMove.EmptyTableRejects | app/engine/make_move.go:46-50 | an empty table refuses every move, at the latest as not allowed |
| MakeMove.AcceptedMove | app/engine/make_move.go:26-50 | an accepted move names the piece on the source, which is not "---", is listed for the destination and belongs to the side to move |
| MakeMove.MovedCells | app/engine/make_move.go:59-60 | after the writes, the source holds "---", a different destination holds the piece, colours and cell sizes are kept and no other square changes |
| MakeMove.PromotionRows | app/engine/make_move.go:103-111 | on the layout, a white pawn promotes exactly on the top row and a black pawn exactly on the bottom row; nothing else promotes |
| MakeMove.IsPawnPromotion | app/engine/make_move.go:103-111 | only "wP" and "bP" promote: a white pawn exactly when the destination's rank character is '8', a black pawn exactly when it is '1' |
| MakeMove.PromotePawn | app/engine/make_move.go:114-121 | the requested piece, or else a queen of the pawn's colour |
| BoardView.ReverseInPlace | app/static/js/board.js:51 | `row.reverse()` leaves the array holding its old contents reversed |
| BoardView.FlipLayout | app/static/js/board.js:50-52 | every row array is reversed in place, and the returned list of rows is the old list reversed |
| BoardView.FlipTwice | app/static/js/board.js:50-52 | flipping the layout twice restores it |
| BoardView.FlattenFlipped | app/static/js/board.js:50-54 | drawing a flipped layout visits the squares in exactly the reverse order |
| BoardView.OrientedKeys | app/static/js/board.js:50-54 | flipping draws the same set of squares |
| BoardView.Find | app/static/js/board.js:225-227 | `querySelector` finds the first drawn square with that file and rank, or none |
| BoardView.HighlightsMeaning | app/static/js/board.js:216-233 | a drawn square is highlighted exactly when it is the first with the file and rank of some listed move |
| BoardView.HighlightsDrawn | app/static/js/board.js:216-233 | only drawn squares are highlighted |
| BoardView.NoEntryNoHighlights | app/static/js/board.js:217-222 | a piece with no entry, or an empty one, highlights nothing |
| BoardView.DrawStep | app/static/js/board.js:55-86 | drawing one more square appends it and shows its piece when the code is not "---" |
| BoardView.View.constructor | app/static/js/board.js:3-6 | the page starts with no moves, no selection, no flip and nothing drawn |
| BoardView.View.Render | app/static/js/board.js:45-88 | the board is redrawn from the layout, flipped when `flip` is set (and the row arrays reversed in place); every piece of an earlier render is gone; highlights are cleared; the selection is kept |
| BoardView.View.OrientLayout | app/static/js/board.js:50-52 | the rows drawn are the layout, or its flip when `flip` is set |
| BoardView.View.Redraw | app/static/js/board.js:46-87 | the page shows exactly the squares and pieces of the rows, with the new allowed moves and no highlights |
| BoardView.View.Draw | app/static/js/board.js:54-87 | the rows are drawn in order, with a piece on every square whose code is not "---" |
| BoardView.View.DrawSquare | app/static/js/board.js:55-85 | one square is appended, with its piece when it holds one |
| BoardView.View.MovePieceOnBoard | app/static/js/board.js:265-280 | the source square's piece is removed when the square is found; a missing source square throws and changes nothing |
| BoardView.View.ClearHighlightedSquares | app/static/js/board.js:236-241 | no square remains highlighted |
| BoardView.View.HighlightAllowedMoves | app/static/js/board.js:216-233 | the piece's allowed targets are added to the highlights |
| BoardView.View.Select | app/static/js/board.js:210-212 | the piece and its square become the selection and exactly its targets are highlighted |
| BoardView.View.HandlePieceClick | app/static/js/board.js:181-214 | clicking the selected piece deselects it; clicking an unhighlighted piece selects it instead; clicking a highlighted piece moves the selection there, logs the move and clears the highlights but keeps the selection |
| BoardView.View.HandleSquareClick | app/static/js/board.js:244-262 | with a selection and a target square, the move is made and logged and the selection and highlights are cleared; otherwise nothing changes |
| BoardView.View.HandleDrop | app/static/js/board.js:156-178 | dropping onto a square moves and logs the dragged piece, whatever the selection; dropping elsewhere does nothing |
| UserName.Split | app/static/js/index.js:6 | `split` always gives at least one part |
| UserName.SplitJoin | app/static/js/index.js:6 | joining the parts with the separator gives the name back |
| UserName.SplitPieces | app/static/js/index.js:6 | no part contains the separator |
| UserName.SplitWhole | app/static/js/index.js:6 | a name without the separator is one part |
| UserName.Capitalize | app/static/js/index.js:6 | only the first character is upper-cased, the rest is kept |
| UserName.CapitalizeAll | app/static/js/index.js:6 | every part is capitalised, in order |
| UserName.FormatShape | app/static/js/index.js:2-7 | a non-empty name shows as its first part capitalised, then a space and the second part capitalised when there is one |
| UserName.AnonymousNames | app/static/js/index.js:2-7 | "Anonymous" is shown exactly for the empty name and for "Anonymous" and "anonymous" themselves |
| UserName.FormatNoDash | app/static/js/index.js:2-7 | a formatted non-empty name contains no '-' |
| UserName.FormatSingleWord | app/static/js/index.js:2-7 | a name without '-' comes back with only its first character upper-cased |
| UserName.FormatGeneratedName | app/static/js/index.js:2-7 | a generated "first-second-digits" name shows as the two words capitalised, without the digits |
| UserName.FormatUserName | app/static/js/index.js:2-7 | an empty name shows as "Anonymous"; a non-empty name without '-' shows as itself capitalised |
| Utils.RandomFrom | app/pkg/utils.go:14-24 | a string of the requested length, each character drawn from the charset |
| Utils.GenerateRandomString | app/pkg/utils.go:14-24 | `length` alphanumeric characters |
| Utils.GenerateRandomNumericString | app/pkg/utils.go:26-36 | `length` decimal digits |
| Utils.GenerateRandomUserName | app/pkg/utils.go:44-46 | the petname words, a '-', and four digits |
| Utils.ExtractString | app/pkg/utils.go:48-60 | no error exactly when the key holds a string, which is returned; otherwise "" with the missing-key or wrong-type message |
| Utils.FirstFailure | app/pkg/utils.go:72-84 | the first field, in order, whose key cannot be extracted, with every earlier one extractable; none when all are |
| Utils.Struct.constructor | app/pkg/utils.go:63-70 | a struct value starts with every field at "" |
| Utils.BindPayloadToStruct | app/pkg/utils.go:63-87 | a non-struct target is refused; otherwise the fields are set in order from their tags until the first failing key, whose error is returned wrapped, leaving the later fields untouched |
| Utils.FirstFailureAt | app/pkg/utils.go:72-84 | a failing field with no failing field before it is the one binding stops at |
| Utils.BindAll | app/pkg/utils.go:72-86 | when every tag names a string, binding succeeds and sets every field to its string |

## Left out

- JSON marshalling and unmarshalling, `reflect`, logging and HTTP handling are not modelled. Boards and payloads are already-decoded maps, and a struct is a list of string fields with their json tags.
- The Go panics in the JSON paths of `MakeMove` (a board that fails to decode or encode) are not modelled. The other `pkg.PanicException` calls, and indexing a missing square or an empty code, are the `Failed` outcomes of `MakeMove.MakeMoveWith`.
- AllowedMoves generators: a piece code of "" would make Go panic when it slices the colour letter. The generators instead require every code to be non-empty (`Readable`), and `AllowedMovesOn` requires square names and codes of at least two characters (`Sliceable`).
- AllowedMoves.GetAllowedMovesPawn: requires a square name of at least two characters. Go panics on `square[1]` for a shorter one (allowed_moves.go:64); that panic is not modelled. The only caller, `AllowedMovesOn`, passes the layout's square names, which it requires to be `Sliceable`.
- AllowedMoves.GetAllowedMovesKnight: requires a square name of at least two characters. Go panics on `square[1]` for a shorter one (allowed_moves.go:117); that panic is not modelled. The only caller, `AllowedMovesOn`, passes the layout's square names, which it requires to be `Sliceable`.
- AllowedMoves.GetAllowedMovesBishop: requires a square name of at least two characters. Go panics on `square[1]` for a shorter one (allowed_moves.go:168); that panic is not modelled. The only caller, `AllowedMovesOn`, passes the layout's square names, which it requires to be `Sliceable`.
- AllowedMoves.GetAllowedMovesRook: requires a square name of at least two characters. Go panics on `square[1]` for a shorter one (allowed_moves.go:223); that panic is not modelled. The only caller, `AllowedMovesOn`, passes the layout's square names, which it requires to be `Sliceable`.
- AllowedMoves.GetAllowedMovesQueen: requires a square name of at least two characters. Go panics on `square[1]` for a shorter one (allowed_moves.go:281); that panic is not modelled. The only caller, `AllowedMovesOn`, passes the layout's square names, which it requires to be `Sliceable`.
- AllowedMoves.GetAllowedMovesKing: requires a square name of at least two characters. Go panics on `square[1]` for a shorter one (allowed_moves.go:340); that panic is not modelled. The only caller, `AllowedMovesOn`, passes the layout's square names, which it requires to be `Sliceable`.
- AllowedMoves.LeapTargets: requires a square name of at least two characters. Go panics on `square[1]` for a shorter one (allowed_moves.go:117, on behalf of the knight and king generators); that panic is not modelled. The only caller, `AllowedMovesOn`, passes the layout's square names, which it requires to be `Sliceable`.
- The unused `game` parameter of `GetAllowedMoves` is dropped, since the function never reads it.
- The attack tables `KnightAttackBitboard`, `BishopAttackBitboard`, `RookAttackBitboard` and `KingAttackBitboard` are inputs (`Generators.AttackTables`). `app/engine/bitboard_moves.go`, which builds them, is not part of this model.
- Randomness is an arbitrary choice (`:|`). The petname words are a parameter of `Utils.GenerateRandomUserName`. `GenerateRandomBool` is not modelled: it only returns an arbitrary boolean. `ConvertUint64ToString` is not part of this model.
- Utils.BindPayloadToStruct: Go's `SetString` panics on a struct field that is not a string and on an unexported field (utils.go:84). Neither panic is modelled: the model's structs hold only string fields, and every field is set as if exported. No caller of `BindPayloadToStruct` is part of this model.
- Utils.RandomFrom takes the length as a `nat`. Go's `make` panics on a negative length (utils.go:19); that panic is not modelled.
- Utils.GenerateRandomString takes the length as a `nat`, so the negative-length panic of utils.go:19 is not modelled. No caller of it is part of this model.
- Utils.GenerateRandomNumericString takes the length as a `nat`, so the negative-length panic of utils.go:31 is not modelled. Its only caller, utils.go:45, passes 4.
- UserName.Capitalize upper-cases the first character through UserName.Upper, so it too handles only ASCII a–z; see the next line.
- UserName.Upper: only ASCII a–z is upper-cased. JavaScript's full Unicode case mapping is not modelled. A name that is not a string (`null`, `undefined`) is not modelled either; the model's empty string stands for every falsy name.
- board.js:
  - Drawing, images, CSS classes and the DOM tree are state fields of `BoardView.View`, not elements.
  - `sendMove` and its socket envelope become an append to the `sent` log.
  - `fetchChessState` and the socket handlers are not part of this model.
  - `JSON.parse` errors in `handleDrop` are not modelled: the drag data is a `DragData` value.
  - A click on a highlighted square holding a piece fires both `handlePieceClick` and, through bubbling, `handleSquareClick`. The model treats each handler call on its own.
- BoardView.View.Render: the source never sets `flip` to true. The model keeps it as a field so that the flip step is modelled as written.
- BoardView.View.Render also requires the layout's row arrays to be distinct objects (`DistinctRows`). Aliased rows, which would be reversed twice, are not modelled.
- Attacks.CheckIfKingIsInCheck: which attacker is reported depends on Go's map order, so the contract only says it is one of the checking pieces.
- Legal.FilterLegalMoves models the code as written, and its pawn pass keeps unsafe pawn moves (see "Findings").
- GameStatus.GenerateLegalMovesForAllPositions returns the moves filtered by the corrected pawn pass in CorrectedFilter, not by the pass as written. On a position where a pawn has both a safe and an unsafe move, its result differs from the source's.
- BoardView.View.Render requires every square key of the layout to name a board entry with two strings (`Drawable`). board.js:57 and board.js:70 would throw on any other key, after lines 46-48 have already cleared the board and stored the moves. That half-drawn state is not modelled. The callers seen, board.js:38 and socket.js:41, pass the board and layout the server sent together.
- BoardView.View.Redraw and BoardView.View.Draw carry the same `Drawable` requirement, for the same reason.
- BitboardSerializer.Deserialize: a nil `*uint64` destination with 8 bytes would make Go panic on the store (bitboard.go:21). That panic is not modelled: `Dest.Uint64Ptr` always holds a cell. No caller of `Deserialize` is part of this model.
- BitboardUtils.PositionToIndex requires a name of at least two characters. Go panics on a shorter one (bitboard_utils.go:139-140). That panic is not modelled. Every call in the engine passes a two-character literal ("e1", "f1", …, bitboard_legal_moves.go:333-387).
- BitboardUtils.ByteOf reads a character as its code point modulo 256. Go indexes the UTF-8 bytes of a string, so the two agree only on ASCII names, which are the only names the engine uses.
- MakeMove.IsPawnPromotion requires a destination of at least two characters when the piece is "wP" or "bP". Go would panic on a shorter one (make_move.go:105 and 107). The only call site is commented out (make_move.go:53-54).
- MakeMove.PromotePawn requires a non-empty pawn code when no promotion piece is given. Go's `pawn[:1]` would panic on "" (make_move.go:120). Its only call site is also commented out (make_move.go:53-54).

## Findings

| source | as written | input that shows it | evidently intended | confidence | as-written member | corrected member |
|---|---|---|---|---|---|---|
| app/engine/bitboard_legal_moves.go:58-65 | inside the loop over a pawn's moves, each safe move does `filteredMoves[piece] \|= legalMoves[piece]`, adding the pawn's whole move list | white Ke1, a white pawn on e2 pinned by a black rook on e8, a black piece on d3: the push e2-e3 is safe, so the capture exd3, which exposes the king, is kept as well | `filteredMoves[piece] \|= movePosition`, adding only the move just found safe | high (not executed) | LegalProperties.PawnPassAsWritten | CorrectedFilter.IntendedFilterLegalMoves, CorrectedFilter.IntendedAllSafe |
