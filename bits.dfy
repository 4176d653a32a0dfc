/** Bit-level facts about 32-bit unsigned words, the `unsigned int` of the
    source. A bit position of such a word is a `bv5` (0 to 31), so shift
    amounts stay in the bit-vector theory. Note that in Dafny `&` binds more
    tightly than `<<` and `>>`, so every mixed expression is parenthesised. */
module Bits {

  /** A bit position within a 32-bit word. */
  type BitIndex = bv5

  /** Bit `k` of `w`, computed as the source does: `(w >> k) & 1`. */
  function BitOf(w: bv32, k: BitIndex): (b: nat)
    ensures b <= 1
  {
    if (w >> k) & 1 == 1 then 1 else 0
  }

  /** `unsigned int` addition: the sum modulo 2^32. */
  function Add32(x: bv32, y: bv32): bv32
  {
    x + y
  }

  /** `1 << m` has bit `m` set and every other bit clear. */
  lemma ShiftedOneBit(m: BitIndex, k: BitIndex)
    ensures BitOf((1 as bv32) << m, k) == if k == m then 1 else 0
  {
  }

  /** A bit of an OR is set iff it is set in either operand. */
  lemma OrBit(x: bv32, y: bv32, k: BitIndex)
    ensures BitOf(x | y, k) == 1 <==> BitOf(x, k) == 1 || BitOf(y, k) == 1
  {
  }

  /** Adding a bit that is clear in `x` cannot carry, so the sum equals
      the OR. */
  lemma AddFreshBit(x: bv32, m: BitIndex)
    requires BitOf(x, m) == 0
    ensures Add32(x, (1 as bv32) << m) == x | ((1 as bv32) << m)
  {
  }

  /** Two words whose bits from position `k` upwards agree have equal `>> k`. */
  lemma {:induction false} HighBitsAgree(x: bv32, y: bv32, k: bv6)
    requires k <= 32
    requires forall j: BitIndex :: k <= j as bv6 ==> BitOf(x, j) == BitOf(y, j)
    ensures x >> k == y >> k
    decreases 32 - k as int
  {
    if k < 32 {
      HighBitsAgree(x, y, k + 1);
      assert BitOf(x, k as BitIndex) == BitOf(y, k as BitIndex);
    }
  }

  /** A 32-bit word is determined by its 32 bits. */
  lemma BitsDetermineWord(x: bv32, y: bv32)
    requires forall k: BitIndex :: BitOf(x, k) == BitOf(y, k)
    ensures x == y
  {
    HighBitsAgree(x, y, 0);
  }
}
