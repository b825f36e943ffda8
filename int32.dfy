/** Java's 32-bit `int`: the range, the wrap-around of `+` and the narrowing cast `(int)` of a `long`. */
module Int32 {

  const TWO_31: int := 0x8000_0000
  const TWO_32: int := 0x1_0000_0000

  predicate InRange(x: int) { -TWO_31 <= x < TWO_31 }

  /** A value that fits in a Java `int`. */
  type int32 = x: int | InRange(x)

  /** The Java `int` congruent to `x` modulo 2^32: what `(int) x` and an overflowing `a + b` yield. */
  function Wrap(x: int): (r: int32)
    ensures (r - x) % TWO_32 == 0
    ensures InRange(x) ==> r == x
  {
    (x + TWO_31) % TWO_32 - TWO_31
  }

  /** Wrapping is exactly the identity on the `int` range and changes every other value. */
  lemma WrapIdentityIff(x: int)
    ensures Wrap(x) == x <==> InRange(x)
  {
  }

  /** Adding to an already wrapped sum wraps like adding to the exact sum: a running
      `int` total equals the wrapped exact total. */
  lemma WrapAddLeft(a: int, b: int)
    ensures Wrap(Wrap(a) + b) == Wrap(a + b)
  {
    var q := (a + TWO_31) / TWO_32;
    assert Wrap(a) == a - q * TWO_32;
    assert Wrap(a) + b + TWO_31 == (a + b + TWO_31) - q * TWO_32;
    ModShift(a + b + TWO_31, q);
  }

  /** A running total that was wrapped after each addition equals the wrapped exact total. */
  lemma WrapAccumulate(x: int, a: int, b: int, total: int)
    requires x == Wrap(a) && total == a + b
    ensures Wrap(x + b) == Wrap(total)
  {
    WrapAddLeft(a, b);
  }

  lemma ModShift(x: int, q: int)
    ensures (x - q * TWO_32) % TWO_32 == x % TWO_32
  {
    var k := x / TWO_32;
    var r := x % TWO_32;
    assert x - q * TWO_32 == (k - q) * TWO_32 + r;
    assert 0 <= r < TWO_32;
  }
}
