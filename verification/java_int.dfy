/** Java's 32-bit `int`: its range and the wrap-around of its arithmetic. */
module JavaInt {

  const Modulus: int := 0x1_0000_0000

  /** A 32-bit Java int. */
  type Int32 = i: int | -0x8000_0000 <= i < 0x8000_0000

  /** The int an exact result wraps to: the one congruent to it modulo 2^32. */
  function Wrap(x: int): (r: Int32)
    ensures (x - r) % Modulus == 0
    ensures -0x8000_0000 <= x < 0x8000_0000 ==> r == x
  {
    var m := (x + 0x8000_0000) % Modulus;
    assert x - (m - 0x8000_0000) == ((x + 0x8000_0000) / Modulus) * Modulus;
    m - 0x8000_0000
  }
}
