/** Machine-word bounds and powers of two. */
module Words {
  const U64_MAX: nat := 0xFFFF_FFFF_FFFF_FFFF
  const U64_LIMIT: nat := 0x1_0000_0000_0000_0000

  function Pow2(n: nat): nat { if n == 0 then 1 else 2 * Pow2(n - 1) }
}
