/** Go's fixed-width integers and powers of two. */
module MachineInts {

  const MIN_INT64: int := -0x8000_0000_0000_0000
  const MAX_INT64: int := 0x7fff_ffff_ffff_ffff
  const MAX_UINT64: int := 0xffff_ffff_ffff_ffff
  const MAX_INT32: int := 0x7fff_ffff

  function WrapInt64(x: int): (r: int)
    ensures MIN_INT64 <= r <= MAX_INT64
    ensures MIN_INT64 <= x <= MAX_INT64 ==> r == x
    ensures (r - x) % 0x1_0000_0000_0000_0000 == 0
  {
    (x - MIN_INT64) % 0x1_0000_0000_0000_0000 + MIN_INT64
  }

  function WrapInt32(x: int): (r: int)
    ensures -MAX_INT32 - 1 <= r <= MAX_INT32
    ensures -MAX_INT32 - 1 <= x <= MAX_INT32 ==> r == x
    ensures (r - x) % 0x1_0000_0000 == 0
  {
    (x + MAX_INT32 + 1) % 0x1_0000_0000 - MAX_INT32 - 1
  }

  function Pow2(k: nat): (p: nat)
    ensures p > 0
  {
    if k == 0 then 1 else 2 * Pow2(k - 1)
  }

  lemma {:induction false} Pow2Monotone(j: nat, k: nat)
    requires j <= k
    ensures Pow2(j) <= Pow2(k)
  {
    if j < k {
      Pow2Monotone(j, k - 1);
    }
  }

  lemma Pow2Values()
    ensures Pow2(30) == 0x4000_0000 && Pow2(31) == 0x8000_0000 && Pow2(32) == 0x1_0000_0000
  {
    assert Pow2(10) == 0x400;
    assert Pow2(20) == 0x10_0000;
  }

  lemma MulMonotone(a: int, b: int, c: int)
    requires a <= b && c >= 0
    ensures a * c <= b * c
  {
  }

  lemma Floor(r: int, d: int)
    requires d > 0
    ensures (r / d) * d <= r < (r / d) * d + d
  {
  }

  /** n steps of d fit into r exactly when n is at most the quotient. */
  lemma QuotientIsLargest(n: int, d: int, r: int)
    requires d > 0
    ensures n * d <= r <==> n <= r / d
  {
    Floor(r, d);
    if n <= r / d {
      MulMonotone(n, r / d, d);
    } else {
      MulMonotone(r / d + 1, n, d);
      assert (r / d + 1) * d == (r / d) * d + d;
    }
  }
}
