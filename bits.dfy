/**
 * Bitboards as 64-bit words. Bit k stands for the square with index k
 * (a1 = 0, b1 = 1, ..., h8 = 63). A "square" of a bitboard is a word with
 * exactly one bit set that lies inside the bitboard.
 */
module Bits {

  /** A shift amount for a 64-bit word. */
  type Idx = bv7

  /** A word with exactly one bit set. */
  predicate IsBit(p: bv64)
  {
    p != 0 && p & (p - 1) == 0
  }

  /** `p` is one of the set bits of `x`. */
  predicate BitOf(p: bv64, x: bv64)
  {
    IsBit(p) && p & x == p
  }

  /** Go's `x & -x`: the lowest set bit. */
  function LowestBit(x: bv64): (p: bv64)
    ensures x != 0 ==> BitOf(p, x)
    ensures x == 0 ==> p == 0
  {
    x & -x
  }

  /** Go's `x &= x - 1`: the word without its lowest set bit. */
  function ClearLowest(x: bv64): (r: bv64)
    ensures x != 0 ==> r < x
  {
    x & (x - 1)
  }

  /** The number of set bits: a loop over the bits of a word runs this often. */
  function BitCount(x: bv64): nat
    decreases x
  {
    if x == 0 then 0 else 1 + BitCount(ClearLowest(x))
  }

  /** Clearing the lowest bit removes exactly that bit. */
  lemma ClearLowestRemovesLowest(x: bv64)
    ensures ClearLowest(x) == x & !LowestBit(x)
  {
  }

  /**
   * A key of a `map[uint64]uint64` move map: the word of the square a piece
   * stands on. The word is wrapped in a datatype because Dafny 4.11 reads a
   * map at a bit-vector key through a conversion to an integer that its map
   * axioms never relate to the map's updates, so a value stored under a
   * bare bit-vector key could not be read back in a proof.
   */
  datatype Key = Key(bit: bv64)

  /** A Go `map[uint64]uint64` from a piece's square to a bitboard. */
  type MoveMap = map<Key, bv64>

  /** Go's `m[k]` on a `map[uint64]uint64`: a missing key reads 0. */
  function Lookup(m: MoveMap, k: bv64): bv64
  {
    if Key(k) in m then m[Key(k)] else 0
  }

  /**
   * Go's `uint64(1) << uint(i)`: the single-bit word of square `i`, written
   * as `i` doublings of 1 (see `BitIsShift`).
   */
  function Bit(i: nat): bv64
    requires i < 64
  {
    if i == 0 then 1 else Bit(i - 1) << 1
  }

  lemma ShiftOneMore(k: Idx)
    requires 0 < k < 64
    ensures ((1 as bv64) << (k - 1)) << 1 == (1 as bv64) << k
  {
  }

  /** `Bit(k)` is 1 shifted left by `k`. */
  lemma {:induction false} BitIsShift(i: nat, k: Idx)
    requires i == k as int && i < 64
    ensures Bit(i) == (1 as bv64) << k
    decreases i
  {
    if i != 0 {
      BitIsShift(i - 1, k - 1);
      ShiftOneMore(k);
    }
  }

  lemma ShiftIsBit(k: Idx)
    requires k < 64
    ensures IsBit((1 as bv64) << k)
  {
  }

  lemma IdxOf(i: nat)
    requires i < 64
    ensures (i as Idx) as int == i
  {
  }

  /** The word of square `i` has exactly one bit set. */
  lemma BitIsBit(i: nat)
    requires i < 64
    ensures IsBit(Bit(i))
  {
    var k := i as Idx;
    IdxOf(i);
    BitIsShift(i, k);
    ShiftIsBit(k);
  }

  /** The word `x` holds square `i`. */
  predicate Has(x: bv64, i: nat)
    requires i < 64
  {
    x & Bit(i) != 0
  }

  /** The board `board` shares a bit with `bit`. */
  predicate Meets(board: bv64, bit: bv64)
  {
    board & bit != 0
  }

  /** Two different single bits share no bit. */
  lemma DistinctBits(p: bv64, q: bv64)
    requires IsBit(p) && IsBit(q) && p != q
    ensures p & q == 0
  {
  }

  /** Removing bits disjoint from `p` does not change which bits of `p` are present. */
  lemma AndNotDisjoint(p: bv64, x: bv64, q: bv64)
    requires p & q == 0
    ensures p & (x & !q) == p & x
  {
  }

  /**
   * Splitting `x` into a single bit `l` of it and the rest `r` splits its
   * set bits the same way.
   */
  lemma BitOfSplit(p: bv64, x: bv64, l: bv64, r: bv64)
    requires IsBit(p) && (x != 0 ==> BitOf(l, x)) && (x == 0 ==> l == 0) && r == x & !l
    ensures BitOf(p, x) <==> (x != 0 && p == l) || BitOf(p, r)
  {
    if x == 0 {
    } else if p != l {
      DistinctBits(p, l);
      AndNotDisjoint(p, x, l);
    } else {
      assert p & (x & !p) == 0;
    }
  }

  /** A set bit of `x` is either its lowest bit or a set bit of the rest. */
  lemma BitOfClearLowest(p: bv64, x: bv64)
    requires IsBit(p)
    ensures BitOf(p, x) <==> (x != 0 && p == LowestBit(x)) || BitOf(p, ClearLowest(x))
  {
    ClearLowestRemovesLowest(x);
    BitOfSplit(p, x, LowestBit(x), ClearLowest(x));
  }

  /** The lowest bit of `x` is not a set bit of the rest of `x`. */
  lemma LowestNotInRest(x: bv64)
    requires x != 0
    ensures !BitOf(LowestBit(x), ClearLowest(x))
  {
  }

  /** A single bit lies in a union iff it lies in one of the parts. */
  lemma BitOfUnion(p: bv64, a: bv64, b: bv64)
    requires IsBit(p)
    ensures BitOf(p, a | b) <==> BitOf(p, a) || BitOf(p, b)
  {
    assert p & (a | b) == (p & a) | (p & b);
  }

  /** A bit lies in an intersection iff it lies in both parts. */
  lemma BitOfAnd(p: bv64, a: bv64, b: bv64)
    ensures BitOf(p, a & b) <==> BitOf(p, a) && BitOf(p, b)
  {
    WithinAnd(p, a, b);
  }

  lemma WithinAnd(p: bv64, a: bv64, b: bv64)
    ensures (p & (a & b) == p) <==> (p & a == p && p & b == p)
  {
    WithinAndLeft(p, a, b);
    WithinAndRight(p, a, b);
  }

  lemma WithinAndLeft(p: bv64, a: bv64, b: bv64)
    ensures (p & (a & b) == p) ==> (p & a == p && p & b == p)
  {
  }

  lemma WithinAndRight(p: bv64, a: bv64, b: bv64)
    ensures (p & a == p && p & b == p) ==> (p & (a & b) == p)
  {
  }

  /**
   * The number of right shifts by one that bring a non-zero word down to 1:
   * the index of its highest set bit.
   */
  function ShiftCount(x: bv64): nat
    requires x != 0
    decreases x
  {
    if x == 1 then 0 else 1 + ShiftCount(x >> 1)
  }

  lemma ShiftRightSplit(x: bv64, n: Idx)
    requires 0 < n < 64
    ensures (x >> 1) >> (n - 1) == x >> n
  {
  }

  /** A word that `k` shifts bring down to at most 1 has its highest bit at most at `k`. */
  lemma {:induction false} ShiftCountAtMost(x: bv64, k: Idx)
    requires x != 0 && k < 64 && x >> k <= 1
    ensures ShiftCount(x) <= k as int
    decreases k
  {
    if x != 1 {
      assert k != 0;
      ShiftRightSplit(x, k);
      ShiftCountAtMost(x >> 1, k - 1);
    }
  }

  /** Every non-zero word has its highest set bit at an index below 64. */
  lemma ShiftCountBound(x: bv64)
    requires x != 0
    ensures ShiftCount(x) < 64
  {
    ShiftCountAtMost(x, 63);
  }

  lemma HalfNonZero(x: bv64)
    ensures x != 0 && x != 1 ==> x >> 1 != 0
  {
  }

  lemma ShiftUpMeets(x: bv64, b: bv64)
    ensures (x >> 1) & b != 0 ==> x & (b << 1) != 0
  {
  }

  lemma ShiftUpMisses(x: bv64, b: bv64)
    ensures (x >> 1) & b == 0 ==> x & (b << 1) == 0
  {
  }

  lemma OneMissesShifted(b: bv64)
    ensures 1 & (b << 1) == 0
  {
  }

  /** Square `c` of `x >> 1` is square `c + 1` of `x`. */
  lemma SetBitUp(x: bv64, c: nat)
    requires c < 63
    ensures Has(x >> 1, c) ==> Has(x, c + 1)
  {
    ShiftUpMeets(x, Bit(c));
  }

  lemma ClearBitUp(x: bv64, j: nat)
    requires 0 < j < 64
    ensures !Has(x >> 1, j - 1) ==> !Has(x, j)
  {
    ShiftUpMisses(x, Bit(j - 1));
  }

  lemma OneMisses(j: nat)
    requires 0 < j < 64
    ensures !Has(1, j)
  {
    OneMissesShifted(Bit(j - 1));
  }

  /** The square `ShiftCount(x)` is set in `x`. */
  lemma {:induction false} ShiftCountIsSet(x: bv64)
    requires x != 0
    ensures ShiftCount(x) < 64 && Has(x, ShiftCount(x))
    decreases x
  {
    ShiftCountBound(x);
    if x != 1 {
      HalfNonZero(x);
      ShiftCountIsSet(x >> 1);
      SetBitUp(x, ShiftCount(x >> 1));
    }
  }

  /** No square above `ShiftCount(x)` is set in `x`. */
  lemma {:induction false} NoneAboveShiftCount(x: bv64, j: nat)
    requires x != 0 && ShiftCount(x) < j < 64
    ensures !Has(x, j)
    decreases x
  {
    if x == 1 {
      OneMisses(j);
    } else {
      HalfNonZero(x);
      NoneAboveShiftCount(x >> 1, j - 1);
      ClearBitUp(x, j);
    }
  }

  /** `ShiftCount(x)` is the index of the highest set bit of a non-zero word. */
  lemma ShiftCountHighest(x: bv64)
    requires x != 0
    ensures ShiftCount(x) < 64 && Has(x, ShiftCount(x))
    ensures forall j: nat :: ShiftCount(x) < j < 64 ==> !Has(x, j)
  {
    ShiftCountIsSet(x);
    forall j: nat | ShiftCount(x) < j < 64
      ensures !Has(x, j)
    {
      NoneAboveShiftCount(x, j);
    }
  }

  lemma OneShiftDown(i: Idx)
    requires 0 < i < 64
    ensures ((1 as bv64) << i) >> 1 == (1 as bv64) << (i - 1) && (1 as bv64) << i != 1
  {
  }

  /** The highest set bit of `1 << i` is `i`. */
  lemma {:induction false} ShiftCountOfShift(i: Idx)
    requires i < 64
    ensures (1 as bv64) << i != 0 && ShiftCount((1 as bv64) << i) == i as int
    decreases i
  {
    if i != 0 {
      OneShiftDown(i);
      ShiftCountOfShift(i - 1);
    }
  }

  /** The highest set bit of the single-bit word of square `i` is `i`. */
  lemma ShiftCountOfBit(i: nat)
    requires i < 64
    ensures Bit(i) != 0 && ShiftCount(Bit(i)) == i
  {
    var k := i as Idx;
    IdxOf(i);
    BitIsShift(i, k);
    ShiftCountOfShift(k);
  }

  lemma BitNonZero(i: nat)
    requires i < 64
    ensures Bit(i) != 0
  {
    ShiftCountOfBit(i);
  }

  lemma HalveBit(p: bv64)
    requires IsBit(p) && p != 1
    ensures IsBit(p >> 1) && (p >> 1) << 1 == p && p >> 1 != 0
  {
  }

  /** A single-bit word is the word of the square its highest bit names. */
  lemma {:induction false} BitIndex(p: bv64)
    requires IsBit(p)
    ensures ShiftCount(p) < 64 && Bit(ShiftCount(p)) == p
    decreases p
  {
    ShiftCountBound(p);
    if p != 1 {
      HalveBit(p);
      BitIndex(p >> 1);
    }
  }
}
