/** Java's narrowing cast from `long` to `int`: keep the low 32 bits, read as two's complement. */
module Int32 {

  const TWO_32: int := 0x1_0000_0000
  const MIN_INT: int := -0x8000_0000
  const MAX_INT: int := 0x7fff_ffff

  predicate InRange(x: int) { MIN_INT <= x <= MAX_INT }

  /** `(int) x` for a Java `long` x. */
  function Wrap(x: int): (r: int)
    ensures InRange(r)
    ensures InRange(x) ==> r == x
  {
    var low := (x - MIN_INT) % TWO_32;
    low + MIN_INT
  }

  /** The cast keeps x modulo 2^32: only whole multiples of 2^32 are dropped. */
  lemma WrapKeepsLowBits(x: int)
    ensures (x - Wrap(x)) % TWO_32 == 0
  {
    var low := (x - MIN_INT) % TWO_32;
    var q := (x - MIN_INT) / TWO_32;
    assert x - MIN_INT == TWO_32 * q + low;
    assert x - Wrap(x) == TWO_32 * q;
    ModAddMultiple(0, q);
  }

  /** Two values that agree modulo 2^32 are cast to the same `int`. */
  lemma WrapCongruent(x: int, y: int)
    requires (x - y) % TWO_32 == 0
    ensures Wrap(x) == Wrap(y)
  {
    var k := (x - y) / TWO_32;
    assert x - MIN_INT == (y - MIN_INT) + TWO_32 * k;
    ModAddMultiple(y - MIN_INT, k);
  }

  lemma ModAddMultiple(a: int, k: int)
    ensures (a + TWO_32 * k) % TWO_32 == a % TWO_32
  {
  }
}
