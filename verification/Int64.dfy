/** Go's 64-bit signed arithmetic. */
module Int64 {
  const MAX_INT64 := 0x7FFF_FFFF_FFFF_FFFF

  /** The value of a two's complement 64-bit product. */
  function WrapInt64(x: int): int {
    (x + MAX_INT64 + 1) % (2 * (MAX_INT64 + 1)) - (MAX_INT64 + 1)
  }

  /** The result is the one value in range that differs from x by a multiple of 2^64. */
  lemma WrapsExactly(x: int, y: int)
    ensures WrapInt64(x) == y <==>
            -9223372036854775808 <= y <= 9223372036854775807 && exists k: int :: x == y + 18446744073709551616 * k
  {
    var m := 18446744073709551616;
    assert x == WrapInt64(x) + m * ((x + MAX_INT64 + 1) / m);
    if -9223372036854775808 <= y <= 9223372036854775807 && exists k: int :: x == y + m * k {
      var k: int :| x == y + m * k;
      Unwraps(y, k);
    }
  }

  lemma Unwraps(y: int, k: int)
    requires -9223372036854775808 <= y <= 9223372036854775807
    ensures WrapInt64(y + 18446744073709551616 * k) == y
  {
    var m, z := 18446744073709551616, y + MAX_INT64 + 1;
    assert (z + m * k) / m == k && (z + m * k) % m == z;
  }

  lemma WrapSmall(x: int)
    requires 0 <= x <= MAX_INT64
    ensures WrapInt64(x) == x
  {
  }

  lemma WrapLarge(x: int)
    requires MAX_INT64 < x <= 2 * MAX_INT64 + 1
    ensures WrapInt64(x) < 0
  {
    assert WrapInt64(x) == x - 2 * (MAX_INT64 + 1);
  }
}
