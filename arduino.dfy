/** The pieces of the Arduino core and of C++ integer semantics that the firmware relies on:
    C integer division (truncating toward zero), the core's `map` and `constrain`, and the
    C integer types the structs use. */
module Arduino {

  /** `int8_t`. */
  type Int8 = x: int | -0x80 <= x < 0x80

  const ULONG_MODULUS: int := 0x1_0000_0000

  /** `unsigned long` on the 8-bit AVR core: 32 bits. */
  type ULong = x: int | 0 <= x < ULONG_MODULUS

  /** Conversion of any C integer to `unsigned long`: reduction modulo 2^32. */
  function ToULong(x: int): (u: ULong)
    ensures 0 <= x < ULONG_MODULUS ==> u == x
    ensures -ULONG_MODULUS <= x < 0 ==> u == ULONG_MODULUS + x
  {
    x % ULONG_MODULUS
  }

  /** Integer division as C99 and C++11 define it: the quotient is truncated toward zero, so the
      remainder `n - q * d` is smaller than the divisor in magnitude and carries the sign of the
      dividend. Negative operands are reduced to Dafny's division of naturals by sign symmetry. */
  function CDiv(n: int, d: int): (q: int)
    requires d != 0
    ensures d > 0 && n >= 0 ==> 0 <= n - q * d < d
    ensures d > 0 && n < 0 ==> -d < n - q * d <= 0
    ensures d < 0 && n >= 0 ==> 0 <= n - q * d < -d
    ensures d < 0 && n < 0 ==> d < n - q * d <= 0
    decreases if d < 0 then 2 else if n < 0 then 1 else 0
  {
    if d < 0 then
      var q := CDiv(n, -d);
      NegateFactor(q, d);
      -q
    else if n < 0 then
      var q := CDiv(-n, d);
      NegateFactor(q, d);
      -q
    else
      n / d
  }

  /** Moving a sign between the factors of a product. */
  lemma NegateFactor(a: int, b: int)
    ensures (-a) * b == a * (-b) == -(a * b)
  {
  }

  lemma MulStep(q1: int, q2: int, d: int)
    requires q1 > q2 && d > 0
    ensures q1 * d >= q2 * d + d
  {
    assert q1 * d - q2 * d == (q1 - q2) * d;
    assert (q1 - q2 - 1) * d >= 0;
  }

  lemma DivMonotone(a: nat, b: nat, d: int)
    requires a <= b && d > 0
    ensures a / d <= b / d
  {
    var qa, qb := a / d, b / d;
    if qa > qb {
      MulStep(qa, qb, d);
    }
  }

  /** Division of naturals: an exact multiple divides back to its factor. */
  lemma DivExactNat(k: nat, d: int)
    requires d > 0
    ensures (k * d) / d == k
  {
    var q, r := (k * d) / d, (k * d) % d;
    assert k * d == q * d + r && 0 <= r < d;
    if q > k {
      MulStep(q, k, d);
    } else if q < k {
      MulStep(k, q, d);
    }
  }

  /** Dividing an exact multiple gives the factor back. */
  lemma CDivExact(k: int, d: int)
    requires d != 0
    ensures CDiv(k * d, d) == k
    decreases if d < 0 then 2 else if k < 0 then 1 else 0
  {
    if d < 0 {
      NegateFactor(k, d);
      NegateFactor(-k, -d);
      CDivExact(-k, -d);
    } else if k < 0 {
      NegateFactor(k, d);
      CDivExact(-k, d);
    } else {
      DivExactNat(k, d);
    }
  }

  lemma DivNonNegative(a: nat, d: int)
    requires d > 0
    ensures a / d >= 0
  {
  }

  lemma CDivNegative(n: int, d: int)
    requires n < 0 && d > 0
    ensures CDiv(n, d) == -((-n) / d)
  {
  }

  /** Division by a positive divisor preserves order, also across zero where truncation and
      flooring differ. */
  lemma CDivMonotone(n1: int, n2: int, d: int)
    requires n1 <= n2 && d > 0
    ensures CDiv(n1, d) <= CDiv(n2, d)
  {
    if n1 >= 0 {
      DivMonotone(n1, n2, d);
    } else if n2 < 0 {
      CDivNegative(n1, d);
      CDivNegative(n2, d);
      DivMonotone(-n2, -n1, d);
    } else {
      CDivNegative(n1, d);
      DivNonNegative(-n1, d);
      DivNonNegative(n2, d);
    }
  }

  /** The AVR core's `map`: `(x - in_min) * (out_max - out_min) / (in_max - in_min) + out_min`,
      evaluated in `long` with C division. The core does not guard the denominator. */
  function Map(x: int, inMin: int, inMax: int, outMin: int, outMax: int): (r: int)
    requires inMax != inMin
    ensures x == inMin ==> r == outMin
    ensures x == inMax ==> r == outMax
  {
    var d := inMax - inMin;
    var n := (x - inMin) * (outMax - outMin);
    assert x == inMax ==> CDiv(n, d) == outMax - outMin by {
      if x == inMax {
        assert n == (outMax - outMin) * d;
        CDivExact(outMax - outMin, d);
      }
    }
    CDiv(n, d) + outMin
  }

  lemma MapMonotone(x1: int, x2: int, inMin: int, inMax: int, outMin: int, outMax: int)
    requires x1 <= x2 && inMin < inMax && outMin <= outMax
    ensures Map(x1, inMin, inMax, outMin, outMax) <= Map(x2, inMin, inMax, outMin, outMax)
  {
    var k := outMax - outMin;
    assert (x2 - inMin) * k - (x1 - inMin) * k == (x2 - x1) * k;
    assert (x2 - x1) * k >= 0;
    CDivMonotone((x1 - inMin) * k, (x2 - inMin) * k, inMax - inMin);
  }

  /** The Arduino `constrain(amt, low, high)` macro:
      `amt < low ? low : (amt > high ? high : amt)`. */
  function Constrain(amt: int, low: int, high: int): (r: int)
    ensures low <= high ==> low <= r <= high
    ensures low <= amt <= high ==> r == amt
    ensures amt < low ==> r == low
    ensures low <= high < amt ==> r == high
  {
    if amt < low then low else if amt > high then high else amt
  }

  lemma ConstrainMonotone(a: int, b: int, low: int, high: int)
    requires a <= b && low <= high
    ensures Constrain(a, low, high) <= Constrain(b, low, high)
  {
  }
}
