/** Machine words of the ARM target: the signed 32-bit range of `int32_t`
    and `fixed_t`, and the modulo-2^32 arithmetic of `uint32_t`. */
module Words {

  const INT_MIN: int := -0x8000_0000
  const INT_MAX: int := 0x7FFF_FFFF
  /** 2^32, the modulus of `uint32_t` arithmetic. */
  const WORD: int := 0x1_0000_0000

  predicate IsInt32(x: int) {
    INT_MIN <= x <= INT_MAX
  }

  predicate IsUint32(x: int) {
    0 <= x < WORD
  }

  /** The bit pattern C keeps when an integer is stored in a 32-bit word:
      `uint32_t` wrap-around, and the modular conversion the target performs
      when that pattern is stored back into an `int32_t`. */
  function U32(x: int): (r: int)
    ensures IsUint32(r)
    ensures IsUint32(x) ==> r == x
  {
    x % WORD
  }

  /** Adding a multiple of the modulus does not change the stored word. */
  lemma {:induction false} U32AddMultiple(x: int, k: int)
    ensures U32(x + k * WORD) == U32(x)
  {
    var q := x / WORD;
    var r := x % WORD;
    assert x == q * WORD + r;
    assert x + k * WORD == (q + k) * WORD + r;
  }

  /** Reducing a summand before the addition does not change the stored word:
      the usual congruence of `uint32_t` addition. */
  lemma U32AddLeft(x: int, y: int)
    ensures U32(U32(x) + y) == U32(x + y)
  {
    U32AddMultiple(U32(x) + y, x / WORD);
    assert U32(x) + y + (x / WORD) * WORD == x + y;
  }

  /** Reducing a factor before the multiplication does not change the stored
      word: the congruence of `uint32_t` multiplication. */
  lemma U32MulLeft(x: int, y: int)
    ensures U32(U32(x) * y) == U32(x * y)
  {
    var q := x / WORD;
    assert x == q * WORD + U32(x);
    assert x * y == U32(x) * y + (q * y) * WORD;
    U32AddMultiple(U32(x) * y, q * y);
  }
}
