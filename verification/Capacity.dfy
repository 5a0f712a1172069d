/** How the two registries grow their block of callbacks, in 32-bit unsigned arithmetic. */
module Capacity {

  const WORD: nat := 0x1_0000_0000

  /** What storing -1 in the unsigned `size` leaves there: the mark of a finished run. */
  const DRAINED_SIZE: nat := WORD - 1

  /** The most callbacks a registry is meant to hold. */
  const MAX_CALLBACKS: nat := 0x8000_0000

  function Pow2(k: nat): (p: nat)
    ensures p >= 1
  {
    if k == 0 then 1 else 2 * Pow2(k - 1)
  }

  /** The block size that a registration leaves behind when it finds `n` entries in a block of `size`. */
  function Grown(n: nat, size: nat): nat
  {
    if n < size then size else if size != 0 then (2 * size) % WORD else 32
  }

  /** The sizes a block in use can have. */
  ghost predicate IsCapacity(size: nat)
  {
    exists k: nat :: k <= 26 && size == 32 * Pow2(k)
  }

  lemma {:induction false} Pow2Monotone(j: nat, k: nat)
    requires j <= k
    ensures Pow2(j) <= Pow2(k)
    ensures j < k ==> 2 * Pow2(j) <= Pow2(k)
  {
    if j < k {
      Pow2Monotone(j, k - 1);
    }
  }

  lemma {:induction false} Pow2Of26()
    ensures Pow2(26) == 0x400_0000
  {
    assert Pow2(8) == 256;
    assert Pow2(16) == 0x1_0000 by {
      assert Pow2(12) == 0x1000;
    }
    assert Pow2(20) == 0x10_0000;
    assert Pow2(24) == 0x100_0000;
  }

  lemma {:induction false} CapacityBounds(size: nat)
    requires IsCapacity(size)
    ensures 32 <= size <= MAX_CALLBACKS
    ensures size != DRAINED_SIZE
  {
    var k: nat :| k <= 26 && size == 32 * Pow2(k);
    Pow2Monotone(k, 26);
    Pow2Of26();
  }

  lemma {:induction false} DoubledIsCapacity(size: nat)
    requires IsCapacity(size) && size < MAX_CALLBACKS
    ensures IsCapacity(2 * size) && 2 * size <= MAX_CALLBACKS
  {
    var k: nat :| k <= 26 && size == 32 * Pow2(k);
    Pow2Of26();
    assert 2 * size == 32 * Pow2(k + 1);
    CapacityBounds(2 * size);
  }

  lemma {:induction false} FirstCapacity()
    ensures IsCapacity(32)
  {
    assert Pow2(0) == 1;
  }

  /**
    Below the limit the doubling never wraps and always makes room: the new
    size is again a capacity, above `n`, and differs from the finished mark.
   */
  lemma {:induction false} GrownMakesRoom(n: nat, size: nat)
    requires n <= size && n < MAX_CALLBACKS
    requires size == 0 || IsCapacity(size)
    ensures IsCapacity(Grown(n, size))
    ensures n < Grown(n, size) && size <= Grown(n, size)
    ensures n < size ==> Grown(n, size) == size
    ensures n == size > 0 ==> Grown(n, size) == 2 * size
    ensures size == 0 ==> Grown(n, size) == 32
  {
    if size == 0 {
      FirstCapacity();
    } else if n == size {
      DoubledIsCapacity(size);
    }
  }

  /** At the limit the doubling does wrap, to zero. */
  lemma {:induction false} GrownWrapsAtLimit()
    ensures IsCapacity(MAX_CALLBACKS)
    ensures Grown(MAX_CALLBACKS, MAX_CALLBACKS) == 0
  {
    Pow2Of26();
  }

  /** The block size after `n` registrations with a fresh registry. */
  function SizeAfter(n: nat): nat
  {
    if n == 0 then 0 else Grown(n - 1, SizeAfter(n - 1))
  }

  /** The entries that the reallocations of `n` registrations with a fresh registry move, in all. */
  function MovedBy(n: nat): nat
  {
    if n == 0 then 0 else MovedBy(n - 1) + if n - 1 < SizeAfter(n - 1) then 0 else n - 1
  }

  lemma {:induction false} GrowthInvariant(n: nat)
    requires n <= MAX_CALLBACKS
    ensures n <= SizeAfter(n)
    ensures n > 0 ==> IsCapacity(SizeAfter(n))
    ensures n > 0 ==> MovedBy(n) == SizeAfter(n) - 32
    ensures SizeAfter(n) <= 32 || SizeAfter(n) < 2 * n
  {
    if n > 0 {
      GrowthInvariant(n - 1);
      GrownMakesRoom(n - 1, SizeAfter(n - 1));
    }
  }

  /** Registration is amortised constant: growing to `n` entries moves fewer than 2n of them. */
  lemma {:induction false} AmortisedGrowth(n: nat)
    requires 0 < n <= MAX_CALLBACKS
    ensures MovedBy(n) < 2 * n
    ensures MovedBy(n) == SizeAfter(n) - 32
    ensures n <= SizeAfter(n) && (SizeAfter(n) == 32 || SizeAfter(n) < 2 * n)
  {
    GrowthInvariant(n);
    CapacityBounds(SizeAfter(n));
  }
}
