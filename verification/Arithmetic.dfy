/** Machine integers, and the facts about division that the other modules use. */
module Arithmetic {
  const UINT32: nat := 0x1_0000_0000

  /** The signed 32-bit number with the same low bits. */
  function ToInt32(n: int): int {
    (n + 0x8000_0000) % UINT32 - 0x8000_0000
  }

  /** Quotient and remainder are determined by their defining equation. */
  lemma DivMod(n: int, d: int, q: int, r: int)
    requires d > 0 && n == q * d + r && 0 <= r < d
    ensures n / d == q && n % d == r
  {
    var a := n / d - q;
    assert a * d == n / d * d - q * d;
    if a != 0 {
      LargeMultiple(a, d);
    }
  }

  lemma LargeMultiple(a: int, d: int)
    requires a != 0 && d > 0
    ensures a * d >= d || a * d <= -d
  {
    if a >= 1 {
      PositiveMultiple(a, d);
    } else {
      PositiveMultiple(-a, d);
      assert a * d == -(-a * d);
    }
  }

  lemma PositiveMultiple(a: int, d: int)
    requires a >= 1 && d > 0
    ensures a * d >= d
  {
  }
}
