/**
 * Sliding pieces: rays traced square by square from a piece until the edge
 * of the board or the first occupied square (bitboard_legal_moves.go,
 * `traceRay`, `crossesBoundary`, `removeBlockedMoves`).
 */
module Rays {
  import opened Bits

  /** The a-file and the h-file. */
  const AFile: bv64 := 0x0101010101010101
  const HFile: bv64 := 0x8080808080808080

  const BishopDirections: seq<int> := [-9, -7, 7, 9]
  const RookDirections: seq<int> := [-8, 8, -1, 1]
  const QueenDirections: seq<int> := [-8, 8, -1, 1, -9, -7, 7, 9]

  /** A step on the board as an index offset: one rank, one file or one diagonal. */
  predicate IsDirection(d: int)
  {
    d == -9 || d == -8 || d == -7 || d == -1 || d == 1 || d == 7 || d == 8 || d == 9
  }

  predicate AreDirections(ds: seq<int>)
  {
    forall n :: 0 <= n < |ds| ==> IsDirection(ds[n])
  }

  /** The shift distance of a direction. */
  function Amount(d: int): (k: Idx)
    requires IsDirection(d)
    ensures k == 1 || k == 7 || k == 8 || k == 9
  {
    if d == 1 || d == -1 then 1 else if d == 7 || d == -7 then 7 else if d == 8 || d == -8 then 8 else 9
  }

  /** Go's `ray <<= direction` for a positive direction, `ray >>= -direction` otherwise. */
  function Step(ray: bv64, d: int): bv64
    requires IsDirection(d)
  {
    if d > 0 then ray << Amount(d) else ray >> Amount(d)
  }

  /**
   * `crossesBoundary`: a step towards the a-file that lands on the h-file,
   * or towards the h-file that lands on the a-file, has wrapped around the
   * board. Straight steps are never reported.
   */
  function CrossesBoundary(bitboard: bv64, d: int): bool
  {
    if d == -9 || d == 7 then Meets(bitboard, HFile)
    else if d == -7 || d == 9 then Meets(bitboard, AFile)
    else false
  }

  lemma ShiftUp(a: Idx, k: Idx)
    requires a < 64 && (k == 1 || k == 7 || k == 8 || k == 9)
    ensures ((1 as bv64) << a) << k == if a as int + k as int < 64 then (1 as bv64) << (a + k) else 0
  {
  }

  lemma ShiftDown(a: Idx, k: Idx)
    requires a < 64 && (k == 1 || k == 7 || k == 8 || k == 9)
    ensures ((1 as bv64) << a) >> k == if a >= k then (1 as bv64) << (a - k) else 0
  {
  }

  lemma BitUp(i: nat, n: nat, k: Idx)
    requires i < 64 && (n == 1 || n == 7 || n == 8 || n == 9) && k as int == n
    ensures Bit(i) << k == if i + n < 64 then Bit(i + n) else 0
  {
    var a := i as Idx;
    IdxOf(i);
    BitIsShift(i, a);
    ShiftUp(a, k);
    if i + n < 64 {
      BitIsShift(i + n, a + k);
    }
  }

  lemma BitDown(i: nat, n: nat, k: Idx)
    requires i < 64 && (n == 1 || n == 7 || n == 8 || n == 9) && k as int == n
    ensures Bit(i) >> k == if i >= n then Bit(i - n) else 0
  {
    var a := i as Idx;
    IdxOf(i);
    BitIsShift(i, a);
    ShiftDown(a, k);
    if i >= n {
      BitIsShift(i - n, a - k);
    }
  }

  /** The shift distance of a direction is its size. */
  lemma AmountSize(d: int)
    requires IsDirection(d)
    ensures Amount(d) as int == if d > 0 then d else -d
  {
  }

  /** A step up the board from square `i` lands on square `i + d`, or leaves the word. */
  lemma StepUp(i: nat, d: int)
    requires i < 64 && IsDirection(d) && d > 0
    ensures Step(Bit(i), d) == if i + d < 64 then Bit(i + d) else 0
  {
    var k := Amount(d);
    AmountSize(d);
    assert Step(Bit(i), d) == Bit(i) << k;
    BitUp(i, d, k);
  }

  /** A step down the board from square `i` lands on square `i + d`, or leaves the word. */
  lemma StepDown(i: nat, d: int)
    requires i < 64 && IsDirection(d) && d < 0
    ensures Step(Bit(i), d) == if 0 <= i + d then Bit(i + d) else 0
  {
    var k := Amount(d);
    AmountSize(d);
    assert Step(Bit(i), d) == Bit(i) >> k;
    BitDown(i, -d, k);
  }

  /** Shifting the word of square `i` by a direction gives the word of square `i + d`, or 0 off the board. */
  lemma StepBit(i: nat, d: int)
    requires i < 64 && IsDirection(d)
    ensures Step(Bit(i), d) == if 0 <= i + d < 64 then Bit(i + d) else 0
  {
    if d > 0 {
      StepUp(i, d);
    } else {
      StepDown(i, d);
    }
  }

  /** The step from square `i` in direction `d` leaves the board or wraps around its side. */
  predicate Off(i: nat, d: int)
    requires IsDirection(d)
  {
    i + d < 0 || i + d >= 64 || CrossesBoundary(Bit(i + d), d)
  }

  /**
   * The squares `traceRay` collects after square `i`: each next square in
   * direction `d`, up to and including the first occupied one, stopping
   * when the step leaves the board or wraps around its side.
   */
  function Ray(i: nat, d: int, occupied: bv64): bv64
    requires i < 64 && IsDirection(d)
    decreases if d > 0 then 64 - i else i
  {
    if Off(i, d) then 0
    else if Meets(Bit(i + d), occupied) then Bit(i + d)
    else Bit(i + d) | Ray(i + d, d, occupied)
  }

  lemma RayOff(i: nat, d: int, occupied: bv64)
    requires i < 64 && IsDirection(d) && Off(i, d)
    ensures Ray(i, d, occupied) == 0
  {
  }

  lemma RayHit(i: nat, d: int, occupied: bv64)
    requires i < 64 && IsDirection(d) && !Off(i, d) && Meets(Bit(i + d), occupied)
    ensures Ray(i, d, occupied) == Bit(i + d)
  {
  }

  lemma RayOn(i: nat, d: int, occupied: bv64)
    requires i < 64 && IsDirection(d) && !Off(i, d) && !Meets(Bit(i + d), occupied)
    ensures Ray(i, d, occupied) == Bit(i + d) | Ray(i + d, d, occupied)
  {
  }

  lemma OrStep(blocked: bv64, next: bv64, rest: bv64)
    ensures blocked | (next | rest) == (blocked | next) | rest
  {
  }

  lemma OrZero(x: bv64)
    ensures 0 | x == x && x | 0 == x
  {
  }

  /** `ray` is where one step in direction `d` from square `i` lands: the next square's word, or 0 off the board. */
  predicate Landed(ray: bv64, i: nat, d: int)
    requires i < 64 && IsDirection(d)
  {
    ray == if 0 <= i + d < 64 then Bit(i + d) else 0
  }

  /**
   * The shift at the head of `traceRay`'s loop: `ray <<= direction` for a
   * positive direction, `ray >>= -direction` otherwise.
   */
  method Advance(ray: bv64, direction: int, ghost i: nat) returns (next: bv64)
    requires i < 64 && IsDirection(direction) && ray == Bit(i)
    ensures Landed(next, i, direction)
  {
    next := Step(ray, direction);
    StepBit(i, direction);
  }

  /** Loop invariant of `traceRay`: `blocked` and the rest of the ray from square `i` make up the ray from `origin`. */
  predicate Traced(blocked: bv64, i: nat, d: int, occupied: bv64, origin: nat)
    requires IsDirection(d) && origin < 64
  {
    i < 64 && blocked | Ray(i, d, occupied) == Ray(origin, d, occupied)
  }

  /** The walk ends when the step leaves the board or wraps: the collected squares are the whole ray. */
  lemma TracedOff(blocked: bv64, i: nat, d: int, occupied: bv64, origin: nat, ray: bv64)
    requires IsDirection(d) && origin < 64 && Traced(blocked, i, d, occupied, origin)
    requires Landed(ray, i, d) && (ray == 0 || CrossesBoundary(ray, d))
    ensures blocked == Ray(origin, d, occupied)
  {
    if 0 <= i + d < 64 {
      BitNonZero(i + d);
    }
    RayOff(i, d, occupied);
    OrZero(blocked);
  }

  /** The walk ends on an occupied square, which is collected too. */
  lemma TracedHit(blocked: bv64, i: nat, d: int, occupied: bv64, origin: nat, ray: bv64)
    requires IsDirection(d) && origin < 64 && Traced(blocked, i, d, occupied, origin)
    requires Landed(ray, i, d) && !(ray == 0 || CrossesBoundary(ray, d)) && Meets(ray, occupied)
    ensures blocked | ray == Ray(origin, d, occupied)
  {
    RayHit(i, d, occupied);
  }

  /** The walk goes on from the empty square it landed on. */
  lemma TracedOn(blocked: bv64, i: nat, d: int, occupied: bv64, origin: nat, ray: bv64)
    requires IsDirection(d) && origin < 64 && Traced(blocked, i, d, occupied, origin)
    requires Landed(ray, i, d) && !(ray == 0 || CrossesBoundary(ray, d)) && !Meets(ray, occupied)
    ensures 0 <= i + d < 64 && ray == Bit(i + d)
    ensures Traced(blocked | ray, i + d, d, occupied, origin)
  {
    RayOn(i, d, occupied);
    OrStep(blocked, Bit(i + d), Ray(i + d, d, occupied));
  }

  /** `traceRay`: the squares reachable from the single square `start` along direction `direction`. */
  method TraceRay(start: bv64, direction: int, allOccupied: bv64) returns (blocked: bv64)
    requires IsBit(start) && IsDirection(direction)
    ensures ShiftCount(start) < 64 && blocked == Ray(ShiftCount(start), direction, allOccupied)
  {
    ghost var origin := ShiftCount(start);
    BitIndex(start);
    blocked := 0;
    var ray := start;
    ghost var i: int := origin;
    OrZero(Ray(origin, direction, allOccupied));
    while true
      invariant 0 <= i < 64 && ray == Bit(i) && Traced(blocked, i, direction, allOccupied, origin)
      decreases if direction > 0 then 64 - i else i
    {
      ray := Advance(ray, direction, i);
      if ray == 0 || CrossesBoundary(ray, direction) {
        TracedOff(blocked, i, direction, allOccupied, origin, ray);
        break;
      }
      ghost var before := blocked;
      blocked := blocked | ray;
      if Meets(ray, allOccupied) {
        TracedHit(before, i, direction, allOccupied, origin, ray);
        break;
      }
      TracedOn(before, i, direction, allOccupied, origin, ray);
      i := i + direction;
    }
  }

  lemma MeetsZero(p: bv64)
    ensures !Meets(0, p)
  {
  }

  lemma MeetsUnion(a: bv64, b: bv64, p: bv64)
    ensures Meets(a | b, p) <==> Meets(a, p) || Meets(b, p)
  {
    assert (a | b) & p == (a & p) | (b & p);
  }

  lemma ShiftsMeet(a: Idx, b: Idx)
    requires a < 64 && b < 64
    ensures ((1 as bv64) << a) & ((1 as bv64) << b) != 0 <==> a == b
  {
  }

  /** The words of two squares share a bit only when the squares are the same. */
  lemma BitsMeet(j: nat, k: nat)
    requires j < 64 && k < 64
    ensures Meets(Bit(j), Bit(k)) <==> j == k
  {
    var a, b := j as Idx, k as Idx;
    IdxOf(j);
    IdxOf(k);
    BitIsShift(j, a);
    BitIsShift(k, b);
    ShiftsMeet(a, b);
  }

  /** Square `k` lies strictly beyond square `i` in direction `d`. */
  predicate Beyond(k: nat, i: nat, d: int)
  {
    (d > 0 ==> k > i) && (d < 0 ==> k < i)
  }

  lemma AheadHit(i: nat, d: int, occupied: bv64, k: nat)
    requires i < 64 && IsDirection(d) && k < 64 && !Off(i, d) && Meets(Bit(i + d), occupied)
    requires Meets(Ray(i, d, occupied), Bit(k))
    ensures Beyond(k, i, d)
  {
    RayHit(i, d, occupied);
    BitsMeet(i + d, k);
  }

  lemma AheadOn(i: nat, d: int, occupied: bv64, k: nat)
    requires i < 64 && IsDirection(d) && k < 64 && !Off(i, d) && !Meets(Bit(i + d), occupied)
    requires Meets(Ray(i, d, occupied), Bit(k))
    requires Meets(Ray(i + d, d, occupied), Bit(k)) ==> Beyond(k, i + d, d)
    ensures Beyond(k, i, d)
  {
    RayOn(i, d, occupied);
    MeetsUnion(Bit(i + d), Ray(i + d, d, occupied), Bit(k));
    BitsMeet(i + d, k);
  }

  /** Every square of a ray lies strictly beyond its starting square in the ray's direction. */
  lemma {:induction false} RayAhead(i: nat, d: int, occupied: bv64, k: nat)
    requires i < 64 && IsDirection(d) && k < 64
    requires Meets(Ray(i, d, occupied), Bit(k))
    ensures Beyond(k, i, d)
    decreases if d > 0 then 64 - i else i
  {
    if Off(i, d) {
      RayOff(i, d, occupied);
      MeetsZero(Bit(k));
    } else if Meets(Bit(i + d), occupied) {
      AheadHit(i, d, occupied, k);
    } else {
      if Meets(Ray(i + d, d, occupied), Bit(k)) {
        RayAhead(i + d, d, occupied, k);
      }
      AheadOn(i, d, occupied, k);
    }
  }

  /** `traceRay` never returns its own starting square. */
  lemma RayExcludesStart(i: nat, d: int, occupied: bv64)
    requires i < 64 && IsDirection(d)
    ensures !Meets(Ray(i, d, occupied), Bit(i))
  {
    if Meets(Ray(i, d, occupied), Bit(i)) {
      RayAhead(i, d, occupied, i);
    }
  }

  lemma BlockerHit(i: nat, d: int, occupied: bv64, k: nat, m: nat)
    requires i < 64 && IsDirection(d) && k < 64 && m < 64 && !Off(i, d) && Meets(Bit(i + d), occupied)
    requires Meets(Ray(i, d, occupied), Bit(k)) && Meets(Ray(i, d, occupied), Bit(m))
    ensures k == m
  {
    RayHit(i, d, occupied);
    BitsMeet(i + d, k);
    BitsMeet(i + d, m);
  }

  /** Past an empty first square, the rest of the ray holds every square of the ray but the first. */
  lemma RestOfRay(i: nat, d: int, occupied: bv64, m: nat)
    requires i < 64 && IsDirection(d) && m < 64 && !Off(i, d) && !Meets(Bit(i + d), occupied)
    requires Meets(Ray(i, d, occupied), Bit(m))
    ensures m == i + d || Meets(Ray(i + d, d, occupied), Bit(m))
  {
    RayOn(i, d, occupied);
    MeetsUnion(Bit(i + d), Ray(i + d, d, occupied), Bit(m));
    BitsMeet(i + d, m);
  }

  /**
   * A ray ends at its first occupied square: no square of the ray lies
   * beyond an occupied square of the ray.
   */
  lemma {:induction false} RayStopsAtBlocker(i: nat, d: int, occupied: bv64, k: nat, m: nat)
    requires i < 64 && IsDirection(d) && k < 64 && m < 64
    requires Meets(Ray(i, d, occupied), Bit(k)) && Meets(Bit(k), occupied)
    requires Meets(Ray(i, d, occupied), Bit(m))
    ensures !Beyond(m, k, d)
    decreases if d > 0 then 64 - i else i
  {
    if Off(i, d) {
      RayOff(i, d, occupied);
      MeetsZero(Bit(k));
    } else if Meets(Bit(i + d), occupied) {
      BlockerHit(i, d, occupied, k, m);
    } else {
      RestOfRay(i, d, occupied, k);
      RestOfRay(i, d, occupied, m);
      RayAhead(i + d, d, occupied, k);
      if m != i + d {
        RayStopsAtBlocker(i + d, d, occupied, k, m);
      }
    }
  }

  lemma ShiftOnHFile(a: Idx)
    requires a < 64
    ensures ((1 as bv64) << a) & HFile != 0 <==> a % 8 == 7
  {
  }

  lemma ShiftOnAFile(a: Idx)
    requires a < 64
    ensures ((1 as bv64) << a) & AFile != 0 <==> a % 8 == 0
  {
  }

  lemma IdxFile(j: nat)
    requires j < 64
    ensures ((j as Idx) % 8) as int == j % 8
  {
  }

  /** Square `j` is on the h-file exactly when its file index is 7. */
  lemma OnHFile(j: nat)
    requires j < 64
    ensures Meets(Bit(j), HFile) <==> j % 8 == 7
  {
    var a := j as Idx;
    IdxOf(j);
    IdxFile(j);
    BitIsShift(j, a);
    ShiftOnHFile(a);
  }

  /** Square `j` is on the a-file exactly when its file index is 0. */
  lemma OnAFile(j: nat)
    requires j < 64
    ensures Meets(Bit(j), AFile) <==> j % 8 == 0
  {
    var a := j as Idx;
    IdxOf(j);
    IdxFile(j);
    BitIsShift(j, a);
    ShiftOnAFile(a);
  }

  /**
   * `crossesBoundary` reports exactly the diagonal steps that wrap around the
   * side of the board: a diagonal step it lets through moves to an adjacent
   * file, and one it reports does not.
   */
  lemma CrossesBoundaryIffWraps(i: nat, d: int)
    requires i < 64 && IsDirection(d) && (d == -9 || d == -7 || d == 7 || d == 9) && 0 <= i + d < 64
    ensures !CrossesBoundary(Bit(i + d), d) <==> (i + d) % 8 == i % 8 + (if d == 9 || d == -7 then 1 else -1)
  {
    OnHFile(i + d);
    OnAFile(i + d);
  }

  /** The union of the rays from square `i` in each of the directions `ds`. */
  function Rays(i: nat, ds: seq<int>, occupied: bv64): bv64
    requires i < 64 && AreDirections(ds)
  {
    if |ds| == 0 then 0 else Rays(i, ds[..|ds| - 1], occupied) | Ray(i, ds[|ds| - 1], occupied)
  }

  lemma RaysPrefix(i: nat, ds: seq<int>, n: nat, occupied: bv64, blocked: bv64, ray: bv64)
    requires i < 64 && AreDirections(ds) && n < |ds|
    requires blocked == Rays(i, ds[..n], occupied) && ray == Ray(i, ds[n], occupied)
    ensures blocked | ray == Rays(i, ds[..n + 1], occupied)
  {
    assert ds[..n + 1][..n] == ds[..n];
  }

  /**
   * `removeBlockedMoves`: of the attack set `moves`, keep the squares some
   * ray from `piece` reaches.
   */
  method RemoveBlockedMoves(piece: bv64, moves: bv64, allOccupied: bv64, rayDirections: seq<int>) returns (r: bv64)
    requires IsBit(piece) && AreDirections(rayDirections)
    ensures ShiftCount(piece) < 64
    ensures r == moves & Rays(ShiftCount(piece), rayDirections, allOccupied)
  {
    ShiftCountBound(piece);
    ghost var i := ShiftCount(piece);
    var blockedMoves: bv64 := 0;
    for n := 0 to |rayDirections|
      invariant blockedMoves == Rays(i, rayDirections[..n], allOccupied)
    {
      var ray := TraceRay(piece, rayDirections[n], allOccupied);
      RaysPrefix(i, rayDirections, n, allOccupied, blockedMoves, ray);
      blockedMoves := blockedMoves | ray;
    }
    assert rayDirections[..|rayDirections|] == rayDirections;
    r := moves & blockedMoves;
  }

  lemma RaysStartStep(a: bv64, b: bv64, p: bv64)
    requires !Meets(a, p) && !Meets(b, p)
    ensures !Meets(a | b, p)
  {
    MeetsUnion(a, b, p);
  }

  /** No ray from a square, in any direction, contains that square. */
  lemma {:induction false} RaysExcludeStart(i: nat, ds: seq<int>, occupied: bv64)
    requires i < 64 && AreDirections(ds)
    ensures !Meets(Rays(i, ds, occupied), Bit(i))
  {
    if |ds| == 0 {
      MeetsZero(Bit(i));
    } else {
      RaysExcludeStart(i, ds[..|ds| - 1], occupied);
      RayExcludesStart(i, ds[|ds| - 1], occupied);
      RaysStartStep(Rays(i, ds[..|ds| - 1], occupied), Ray(i, ds[|ds| - 1], occupied), Bit(i));
    }
  }

  lemma AndKeepsOut(moves: bv64, rays: bv64, p: bv64)
    requires !Meets(rays, p)
    ensures !Meets(moves & rays, p) && (moves & rays) & !moves == 0
  {
  }

  /**
   * What `removeBlockedMoves` keeps is part of the attack set and never the
   * piece's own square.
   */
  lemma BlockedMovesKept(piece: bv64, moves: bv64, allOccupied: bv64, rayDirections: seq<int>)
    requires IsBit(piece) && AreDirections(rayDirections)
    ensures ShiftCount(piece) < 64
    ensures var r := moves & Rays(ShiftCount(piece), rayDirections, allOccupied);
      !Meets(r, piece) && r & !moves == 0
  {
    BitIndex(piece);
    RaysExcludeStart(ShiftCount(piece), rayDirections, allOccupied);
    AndKeepsOut(moves, Rays(ShiftCount(piece), rayDirections, allOccupied), piece);
  }
}
