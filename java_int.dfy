/** Java's fixed-width integers: the `int` and `long` ranges and `int` wrap-around. */
module JavaInt {

  const Int32Min: int := -0x8000_0000
  const Int32Max: int := 0x7fff_ffff
  const Int64Min: int := -0x8000_0000_0000_0000
  const Int64Max: int := 0x7fff_ffff_ffff_ffff

  /** 2^32, the modulus of Java `int` arithmetic. */
  const IntModulus: int := 0x1_0000_0000

  /** A Java `int` value (an ARGB pixel, a coordinate). */
  newtype int32 = v: int | -0x8000_0000 <= v <= 0x7fff_ffff

  /** A Java `long` value; arithmetic on it is checked never to leave the range. */
  newtype int64 = v: int | -0x8000_0000_0000_0000 <= v <= 0x7fff_ffff_ffff_ffff

  predicate InInt32(v: int) { Int32Min <= v <= Int32Max }

  predicate InInt64(v: int) { Int64Min <= v <= Int64Max }

  /** The Java `int` that an exact result `v` is stored as: `v` reduced modulo 2^32 into the signed range. */
  function Wrap32(v: int): (r: int)
    ensures InInt32(r)
    ensures InInt32(v) ==> r == v
  {
    (v - Int32Min) % IntModulus + Int32Min
  }

  /** The only `int` congruent to `v` modulo 2^32 is `Wrap32(v)`. */
  lemma WrapUnique(v: int, r: int, k: int)
    requires InInt32(r) && r == v + k * IntModulus
    ensures Wrap32(v) == r
  {
    var q := (v - Int32Min) / IntModulus;
    assert Wrap32(v) == v - q * IntModulus;
    assert r - Wrap32(v) == (k + q) * IntModulus;
  }

  /** Wrapping an intermediate sum does not change the wrapped total: `int` `+=` in a loop
      yields the exact sum reduced once at the end. */
  lemma WrapAddLeft(a: int, b: int)
    ensures Wrap32(Wrap32(a) + b) == Wrap32(a + b)
  {
    var q1 := (a - Int32Min) / IntModulus;
    var q2 := (a + b - Int32Min) / IntModulus;
    assert Wrap32(a) == a - q1 * IntModulus;
    assert Wrap32(a + b) == a + b - q2 * IntModulus;
    WrapUnique(Wrap32(a) + b, Wrap32(a + b), q1 - q2);
  }
}
