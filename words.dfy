/** The firmware's `uint32_t` and `int32_t` arithmetic on unbounded
    integers: unsigned results are reduced modulo 2^32, and a value stored
    into an `int32_t` is reinterpreted in two's complement. */
module Words {
  const TWO32: int := 0x1_0000_0000
  const TWO31: int := 0x8000_0000

  type uint32 = x: int | 0 <= x < TWO32

  predicate IsInt32(x: int)
  {
    -TWO31 <= x < TWO31
  }

  /** `a + b` on `uint32_t`. */
  function Add(a: uint32, b: uint32): uint32
  {
    (a + b) % TWO32
  }

  /** `a - b` on `uint32_t`. */
  function Sub(a: uint32, b: uint32): uint32
  {
    (a - b) % TWO32
  }

  /** An integer stored into an `int32_t`: the low 32 bits, two's complement. */
  function ToInt32(x: int): (r: int)
    ensures IsInt32(r)
    ensures IsInt32(x) ==> r == x
  {
    (x + TWO31) % TWO32 - TWO31
  }

  /** `b - a` and `a - b` on `uint32_t` are each other's negation modulo 2^32. */
  lemma SubAntisymmetric(a: uint32, b: uint32)
    ensures Sub(a, b) + Sub(b, a) == 0 || Sub(a, b) + Sub(b, a) == TWO32
  {
    if a >= b {
      assert Sub(a, b) == a - b;
    } else {
      assert Sub(b, a) == b - a;
    }
  }

  /** Storing into an `int32_t` ignores multiples of 2^32. */
  lemma ToInt32Shift(x: int)
    ensures ToInt32(x + TWO32) == ToInt32(x)
  {
    assert (x + TWO32 + TWO31) % TWO32 == (x + TWO31) % TWO32;
  }

  /** The time elapsed since a start stamp is measured correctly even when
      the clock wraps past 2^32 in between. */
  lemma ElapsedAcrossWrap(start: uint32, d: uint32)
    ensures Sub(Add(start, d), start) == d
  {
    if start + d >= TWO32 {
      assert Add(start, d) == start + d - TWO32;
      assert Add(start, d) - start == d - TWO32;
    }
  }
}
