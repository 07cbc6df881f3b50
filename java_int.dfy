/** Java's 32-bit `int`, as used by the per-caller invocation counters. */
module JavaInt {

  const INT_MIN: int := -0x8000_0000
  const INT_MAX: int := 0x7fff_ffff
  const MODULUS: int := 0x1_0000_0000

  newtype int32 = x: int | -0x8000_0000 <= x < 0x8000_0000

  /** `Integer::sum`: two's-complement addition, which wraps around modulo 2^32. */
  function Sum(a: int32, b: int32): (r: int32)
    ensures (r as int - (a as int + b as int)) % MODULUS == 0
    ensures INT_MIN <= a as int + b as int <= INT_MAX ==> r as int == a as int + b as int
    ensures a as int + b as int > INT_MAX ==> r as int == a as int + b as int - MODULUS
    ensures a as int + b as int < INT_MIN ==> r as int == a as int + b as int + MODULUS
  {
    var s := a as int + b as int;
    var w := (s - INT_MIN) % MODULUS + INT_MIN;
    WrapCases(s);
    w as int32
  }

  /** The remainder-based wrap-around agrees with an explicit case split on the sum. */
  lemma WrapCases(s: int)
    requires 2 * INT_MIN <= s <= 2 * INT_MAX
    ensures var w := (s - INT_MIN) % MODULUS + INT_MIN;
      && INT_MIN <= w <= INT_MAX
      && (INT_MIN <= s <= INT_MAX ==> w == s)
      && (s > INT_MAX ==> w == s - MODULUS)
      && (s < INT_MIN ==> w == s + MODULUS)
  {
  }

  /** The largest counter value wraps to the smallest on the next increment. */
  lemma IncrementWrapsAtMax()
    ensures Sum(INT_MAX as int32, 1) == INT_MIN as int32
  {
  }
}
