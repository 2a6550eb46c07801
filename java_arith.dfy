/** Java's fixed-width integer arithmetic, written out over unbounded
    integers: two's-complement wrap-around of `long` and `int`, truncating
    division, the saturating `(int)` cast of a quotient and `Math.round`. */
module JavaArith {

  const LONG_MIN: int := -0x8000_0000_0000_0000
  const LONG_MAX: int := 0x7FFF_FFFF_FFFF_FFFF
  const TWO_64: int := 0x1_0000_0000_0000_0000

  const INT_MIN: int := -0x8000_0000
  const INT_MAX: int := 0x7FFF_FFFF
  const TWO_32: int := 0x1_0000_0000

  predicate IsLong(x: int) { LONG_MIN <= x <= LONG_MAX }

  predicate IsInt(x: int) { INT_MIN <= x <= INT_MAX }

  /** The values of a Java `long`. */
  type int64 = x: int | LONG_MIN <= x <= LONG_MAX

  /** The values of a Java `int`. */
  type int32 = x: int | INT_MIN <= x <= INT_MAX

  /** The `long` that the exact value `x` wraps to. */
  function WrapLong(x: int): (r: int)
    ensures IsLong(r)
    ensures IsLong(x) ==> r == x
    ensures (x - r) % TWO_64 == 0
  {
    (x - LONG_MIN) % TWO_64 + LONG_MIN
  }

  /** The `int` that the exact value `x` wraps to. */
  function WrapInt(x: int): (r: int)
    ensures IsInt(r)
    ensures IsInt(x) ==> r == x
    ensures (x - r) % TWO_32 == 0
  {
    (x - INT_MIN) % TWO_32 + INT_MIN
  }

  /** `a + b` on Java longs. */
  function LAdd(a: int, b: int): (r: int)
    ensures IsLong(r)
    ensures IsLong(a + b) ==> r == a + b
  {
    WrapLong(a + b)
  }

  /** `a - b` on Java longs. */
  function LSub(a: int, b: int): (r: int)
    ensures IsLong(r)
    ensures IsLong(a - b) ==> r == a - b
  {
    WrapLong(a - b)
  }

  /** `a + b` on Java ints. */
  function IAdd(a: int, b: int): (r: int)
    ensures IsInt(r)
    ensures IsInt(a + b) ==> r == a + b
  {
    WrapInt(a + b)
  }

  /** `a - b` on Java ints. */
  function ISub(a: int, b: int): (r: int)
    ensures IsInt(r)
    ensures IsInt(a - b) ==> r == a - b
  {
    WrapInt(a - b)
  }

  /** `a * b` on Java ints. */
  function IMul(a: int, b: int): (r: int)
    ensures IsInt(r)
    ensures IsInt(a * b) ==> r == a * b
  {
    WrapInt(a * b)
  }

  function Min(a: int, b: int): int { if a <= b then a else b }

  function Max(a: int, b: int): int { if a >= b then a else b }

  /** Java's `/`: the quotient rounded toward zero (Dafny's `/` is Euclidean). */
  function Quot(n: int, d: int): (q: int)
    requires d != 0
    ensures n >= 0 && d > 0 ==> q == n / d
    ensures d > 0 ==> (if n >= 0 then d * q <= n < d * q + d else d * q - d < n <= d * q)
  {
    var a := if n >= 0 then n else -n;
    var b := if d >= 0 then d else -d;
    if (n >= 0) == (d > 0) then a / b else -(a / b)
  }

  /** Java's `(int)` cast of a double: saturates at the ends of the `int` range. */
  function SaturateInt(x: int): (r: int)
    ensures IsInt(r)
    ensures IsInt(x) ==> r == x
    ensures x < INT_MIN ==> r == INT_MIN
    ensures x > INT_MAX ==> r == INT_MAX
  {
    Max(INT_MIN, Min(INT_MAX, x))
  }

  /** Java's `Math.round(double)` result range: saturates at the ends of `long`. */
  function SaturateLong(x: int): (r: int)
    ensures IsLong(r)
    ensures IsLong(x) ==> r == x
  {
    Max(LONG_MIN, Min(LONG_MAX, x))
  }

  /** `Math.round(n / d)` for `d > 0`, without floating point: the nearest
      integer, halves rounded up (floor of `n / d + 1/2`). */
  function RoundQuot(n: int, d: int): (r: int)
    requires d > 0
    ensures 2 * d * r <= 2 * n + d < 2 * d * r + 2 * d
  {
    (2 * n + d) / (2 * d)
  }

  lemma {:induction false} ModShift(x: int, k: int, m: int)
    requires m > 0
    ensures (x + m * k) % m == x % m
  {
    var q, r := x / m, x % m;
    assert x == m * q + r && 0 <= r < m;
    assert x + m * k == m * (q + k) + r;
    DivModUnique(x + m * k, q + k, r, m);
  }

  lemma {:induction false} DivModUnique(a: int, q: int, r: int, m: int)
    requires m > 0 && 0 <= r < m && a == m * q + r
    ensures a % m == r && a / m == q
  {
    var q', r' := a / m, a % m;
    assert a == m * q' + r' && 0 <= r' < m;
    var d := q - q';
    assert m * d == r' - r;
    if d > 0 {
      MulMonotone(m, d - 1);
    } else if d < 0 {
      MulMonotone(m, -d - 1);
    }
  }

  lemma MulMonotone(a: int, b: int)
    requires a >= 0 && b >= 0
    ensures a * b >= 0
  {
  }

  /** Wrapping after every step of a sum is the same as wrapping once. */
  lemma {:induction false} WrapLongCongruent(x: int, y: int)
    requires (x - y) % TWO_64 == 0
    ensures WrapLong(x) == WrapLong(y)
  {
    var k := (x - y) / TWO_64;
    assert x - y == TWO_64 * k;
    ModShift(y - LONG_MIN, k, TWO_64);
    assert x - LONG_MIN == (y - LONG_MIN) + TWO_64 * k;
  }

  lemma {:induction false} WrapIntCongruent(x: int, y: int)
    requires (x - y) % TWO_32 == 0
    ensures WrapInt(x) == WrapInt(y)
  {
    var k := (x - y) / TWO_32;
    assert x - y == TWO_32 * k;
    ModShift(y - INT_MIN, k, TWO_32);
    assert x - INT_MIN == (y - INT_MIN) + TWO_32 * k;
  }

  /** A running `long` sum may wrap at any step: `WrapLong(WrapLong(a) + b)`
      equals `WrapLong(a + b)`. */
  lemma {:induction false} WrapLongAdd(a: int, b: int)
    ensures LAdd(WrapLong(a), b) == WrapLong(a + b)
  {
    var w := WrapLong(a);
    var k := (a - w) / TWO_64;
    assert a - w == TWO_64 * k;
    assert (a + b) - (w + b) == TWO_64 * k;
    ModShift(0, k, TWO_64);
    WrapLongCongruent(a + b, w + b);
  }

  /** One step of the 17/37 hash fold on ints: wrapping inside the step
      changes nothing. */
  lemma {:induction false} WrapIntStep(h: int, x: int)
    ensures IAdd(IMul(37, WrapInt(h)), x) == WrapInt(37 * h + x)
  {
    var w := WrapInt(h);
    var k := (h - w) / TWO_32;
    assert h - w == TWO_32 * k;
    var p := WrapInt(37 * w);
    var k2 := (37 * w - p) / TWO_32;
    assert 37 * w - p == TWO_32 * k2;
    assert (37 * h + x) - (p + x) == TWO_32 * (37 * k + k2);
    ModShift(0, 37 * k + k2, TWO_32);
    WrapIntCongruent(37 * h + x, p + x);
  }
}
