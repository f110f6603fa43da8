/**
 * The buffer-growth policy rounds a byte count up to a power of two.
 * The helper that does this lives in the engine's math library, which is
 * not part of this model; here it is defined as the least power of two that
 * is at least the given count (1 for counts of 0 and 1), and that assumed
 * meaning is proved about the definition.
 */
module PowerOfTwo {

  /** 2 to the power k. */
  function Pow2(k: nat): (r: nat)
    ensures r >= 1
  {
    if k == 0 then 1 else 2 * Pow2(k - 1)
  }

  /** The least exponent whose power of two reaches n. */
  function CeilLog2(n: nat): (k: nat)
    ensures n <= Pow2(k)
    ensures k == 0 || Pow2(k - 1) < n
    decreases n
  {
    if n <= 1 then 0 else CeilLog2((n + 1) / 2) + 1
  }

  /** The least power of two that is at least n. */
  function NextPowerOfTwo(n: nat): (r: nat)
    ensures n <= r
    ensures exists k: nat :: r == Pow2(k)
    ensures 1 <= n ==> r < 2 * n
  {
    var k := CeilLog2(n);
    Pow2(k)
  }

  lemma {:induction false} Pow2Monotone(j: nat, k: nat)
    requires j <= k
    ensures Pow2(j) <= Pow2(k)
    decreases k
  {
    if j < k {
      Pow2Monotone(j, k - 1);
    }
  }

  /** No power of two below NextPowerOfTwo(n) reaches n. */
  lemma NextPowerOfTwoIsLeast(n: nat, j: nat)
    requires n <= Pow2(j)
    ensures NextPowerOfTwo(n) <= Pow2(j)
  {
    var k := CeilLog2(n);
    if j < k {
      Pow2Monotone(j, k - 1);
      assert false;
    } else {
      Pow2Monotone(k, j);
    }
  }
}
