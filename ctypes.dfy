/**
 * Fixed-width C++ integer arithmetic and the small size helpers that the
 * samples take from nvrhi and donut (`sizeof`, `nvrhi::align`, `div_ceil`).
 */
module CTypes {
  const U16_LIMIT: int := 0x1_0000
  const U32_LIMIT: int := 0x1_0000_0000

  /** sizeof of the vector and index types used in the samples' buffers. */
  const SIZEOF_FLOAT2: nat := 8
  const SIZEOF_FLOAT3: nat := 12
  const SIZEOF_UINT16: nat := 2
  const SIZEOF_UINT32: nat := 4

  predicate IsU16(x: int) { 0 <= x < U16_LIMIT }
  predicate IsU32(x: int) { 0 <= x < U32_LIMIT }

  /** Truncation of an integer to `uint16_t`, as the samples' casts and stores do. */
  function U16(x: int): (r: int)
    ensures IsU16(r)
    ensures IsU16(x) ==> r == x
  {
    x % U16_LIMIT
  }

  /** Wrap-around of a `uint32_t` result. */
  function U32(x: int): (r: int)
    ensures IsU32(r)
    ensures IsU32(x) ==> r == x
  {
    x % U32_LIMIT
  }

  /** A `uint32_t` converted to `int`: the same 32 bits read as two's complement. */
  function I32(x: int): (r: int)
    ensures -0x8000_0000 <= r < 0x8000_0000
    ensures U32(r) == U32(x)
  {
    var u := U32(x);
    if u < 0x8000_0000 then u else u - U32_LIMIT
  }

  /** Rounds `x` up to the next multiple of `a` (nvrhi::align). */
  function Align(x: nat, a: nat): (r: nat)
    requires a > 0
    ensures r % a == 0
    ensures x <= r < x + a
  {
    var q := (x + a - 1) / a;
    DivBounds(x + a - 1, a, q);
    MultipleMod(q, a);
    q * a
  }

  lemma DivBounds(n: nat, a: nat, q: nat)
    requires a > 0 && q == n / a
    ensures q * a <= n < q * a + a
  {
  }

  /** A multiple of `a` leaves no remainder. */
  lemma MultipleMod(k: nat, a: nat)
    requires a > 0
    ensures (k * a) % a == 0 && (k * a) / a == k
  {
    DivModUnique(k * a, a, k, 0);
  }

  lemma MulAtLeast(d: int, a: int)
    requires a > 0 && d >= 1
    ensures d * a >= a
  {
  }

  /** Quotient and remainder are determined by `n == q * a + r` with `0 <= r < a`. */
  lemma DivModUnique(n: int, a: int, q: int, r: int)
    requires a > 0 && n == q * a + r && 0 <= r < a
    ensures n % a == r && n / a == q
  {
    var q2, r2 := n / a, n % a;
    assert (q2 - q) * a == r - r2;
    if q2 > q { MulAtLeast(q2 - q, a); assert false; }
    if q2 < q { MulAtLeast(q - q2, a); assert false; }
  }

  /** Integer division rounded up: the least `q` with `q * d >= x`. */
  function CeilDiv(x: nat, d: nat): (q: nat)
    requires d > 0
    ensures q * d >= x
    ensures q == 0 || (q - 1) * d < x
  {
    (x + d - 1) / d
  }

  /** CeilDiv is the only such quotient. */
  lemma CeilDivUnique(x: nat, d: nat, q: nat)
    requires d > 0 && q * d >= x && (q == 0 || (q - 1) * d < x)
    ensures q == CeilDiv(x, d)
  {
    var c := CeilDiv(x, d);
    if c < q {
      MulLe(c, q - 1, d);
    } else if c > q {
      MulLe(q, c - 1, d);
    }
  }

  lemma MulLe(a: int, b: int, d: nat)
    requires a <= b
    ensures a * d <= b * d
  {
    assert b * d - a * d == (b - a) * d;
  }

  /** m·k by repeated addition. The mesh models count vertices and indices
    * with it so that their inductive proofs stay linear; `TimesValue`
    * converts to the product. */
  function Times(m: nat, k: nat): nat
  {
    if m == 0 then 0 else Times(m - 1, k) + k
  }

  lemma MulStep(a: nat, b: nat, k: nat)
    requires b == a + 1
    ensures b * k == a * k + k
  {
  }

  lemma {:induction false} TimesValue(m: nat, k: nat)
    ensures Times(m, k) == m * k
  {
    if m > 0 {
      TimesValue(m - 1, k);
      MulStep(m - 1, m, k);
    }
  }

  lemma {:induction false} TimesMono(a: nat, b: nat, k: nat)
    requires a <= b
    ensures Times(a, k) <= Times(b, k)
  {
    if a < b { TimesMono(a, b - 1, k); }
  }
}
