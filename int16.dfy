/** Signed 16-bit integer arithmetic as NumPy performs it on `np.int16`
    arrays: integer casts and in-place additions wrap around modulo 2^16,
    and a cast from a floating-point value first truncates toward zero. */
module Int16 {

  const Min: int := -32768
  const Max: int := 32767
  /** The number of distinct int16 values, 2^16. */
  const Modulus: int := 65536

  predicate InRange(x: int) {
    Min <= x <= Max
  }

  /** Two's-complement wrap-around: the int16 value that `x` becomes
      under `astype(np.int16)` or an overflowing int16 addition. */
  function Wrap(x: int): (r: int)
    ensures InRange(r)
    ensures (x - r) % Modulus == 0
    ensures InRange(x) ==> r == x
  {
    var q := (x - Min) / Modulus;
    assert x - ((x - Min) % Modulus + Min) == q * Modulus;
    (x - Min) % Modulus + Min
  }

  /** An in-range value congruent to `x` modulo 2^16 is the wrapped `x`:
      wrap-around loses nothing but the multiple of 2^16. */
  lemma {:induction false} WrapUnique(x: int, y: int)
    requires InRange(y)
    requires (x - y) % Modulus == 0
    ensures Wrap(x) == y
  {
    var w := Wrap(x);
    var a := (x - y) / Modulus;
    var b := (x - w) / Modulus;
    assert x - y == a * Modulus;
    assert x - w == b * Modulus;
    assert w - y == (a - b) * Modulus;
  }

  /** Adding a multiple of 2^16 does not change the wrapped value. */
  lemma {:induction false} WrapShift(x: int, q: int)
    ensures Wrap(x + q * Modulus) == Wrap(x)
  {
    var w := Wrap(x);
    var b := (x - w) / Modulus;
    assert x - w == b * Modulus;
    assert (x + q * Modulus) - w == (b + q) * Modulus;
    WrapUnique(x + q * Modulus, w);
  }

  /** Conversion of a floating-point value to an integer: rounding toward
      zero, as a C cast and NumPy's float-to-integer cast do. */
  function Trunc(x: real): (r: int)
    ensures 0.0 <= x ==> r as real <= x < r as real + 1.0
    ensures x < 0.0 ==> r as real - 1.0 < x <= r as real
  {
    if x >= 0.0 then x.Floor else -((-x).Floor)
  }

  /** `np.int16(x)` for a floating-point `x`: truncation toward zero
      followed by wrap-around into the int16 range. */
  function FromReal(x: real): (r: int)
    ensures InRange(r)
    ensures InRange(Trunc(x)) ==> r == Trunc(x)
  {
    Wrap(Trunc(x))
  }
}
