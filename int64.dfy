/** Go's `int64`: signed 64-bit integers whose `+` and `-` wrap around modulo 2^64. */
module Int64 {
  const Modulus: int := 0x1_0000_0000_0000_0000
  const MinValue: int := -0x8000_0000_0000_0000
  const MaxValue: int := 0x7fff_ffff_ffff_ffff

  newtype int64 = x: int | -0x8000_0000_0000_0000 <= x < 0x8000_0000_0000_0000

  predicate InRange(x: int) {
    MinValue <= x <= MaxValue
  }

  /** The two's-complement reading of the low 64 bits of `x`. */
  function Wrap(x: int): (r: int64)
    ensures (x - r as int) % Modulus == 0
    ensures InRange(x) ==> r as int == x
  {
    ((x - MinValue) % Modulus + MinValue) as int64
  }

  /** Go's `a + b` on int64. */
  function Add(a: int64, b: int64): (r: int64)
    ensures (a as int + b as int - r as int) % Modulus == 0
    ensures InRange(a as int + b as int) ==> r as int == a as int + b as int
  {
    Wrap(a as int + b as int)
  }

  /** Go's `a - b` on int64. */
  function Sub(a: int64, b: int64): (r: int64)
    ensures (a as int - b as int - r as int) % Modulus == 0
    ensures InRange(a as int - b as int) ==> r as int == a as int - b as int
  {
    Wrap(a as int - b as int)
  }

  /** `Wrap` forgets multiples of 2^64: it depends only on the residue of its argument. */
  lemma WrapCongruent(x: int, y: int)
    requires (x - y) % Modulus == 0
    ensures Wrap(x) == Wrap(y)
  {
    var k := (x - y) / Modulus;
    assert x - MinValue == (y - MinValue) + k * Modulus;
  }

  /** Wrapping an intermediate result changes nothing: `Wrap(Wrap(x) + y) == Wrap(x + y)`. */
  lemma WrapAbsorbs(x: int, y: int)
    ensures Wrap(Wrap(x) as int + y) == Wrap(x + y)
  {
    WrapCongruent(Wrap(x) as int + y, x + y);
  }
}
