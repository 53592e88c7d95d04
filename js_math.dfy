/**
 * The parts of JavaScript's `Math` object and number operators that the
 * dashboard's formulas use, over exact reals.
 *
 * - `Math.round(x)` is floor(x + 1/2) (JavaScript rounds halves upward).
 * - The `%` operator on numbers is the TRUNCATED remainder: its sign follows
 *   the dividend, unlike Dafny's Euclidean `%`.
 * - `Math.cos`, `Math.sin`, `Math.sqrt` and `Math.PI` have no exact
 *   counterpart; they are carried by a `Transcendentals` record that callers
 *   pass in, and `Sound()` states the only facts the model relies on.
 */
module JsMath {

  /** Math.abs */
  function Abs(x: real): (r: real)
    ensures r >= 0.0
    ensures r == x || r == -x
  {
    if x < 0.0 then -x else x
  }

  /** Math.min of two numbers */
  function Min(x: real, y: real): (r: real)
    ensures r <= x && r <= y
    ensures r == x || r == y
  {
    if x <= y then x else y
  }

  /** Math.max of two numbers */
  function Max(x: real, y: real): (r: real)
    ensures r >= x && r >= y
    ensures r == x || r == y
  {
    if x >= y then x else y
  }

  /** The idiom `Math.min(hi, Math.max(lo, x))` used for every 0..100 clamp. */
  function Clamp(lo: real, hi: real, x: real): (r: real)
    requires lo <= hi
    ensures lo <= r <= hi
    ensures lo <= x <= hi ==> r == x
    ensures x < lo ==> r == lo
    ensures x > hi ==> r == hi
  {
    Min(hi, Max(lo, x))
  }

  /** Math.round: the integer nearest to x, halves rounded up. */
  function Round(x: real): (r: int)
    ensures x - 0.5 < r as real <= x + 0.5
  {
    (x + 0.5).Floor
  }

  lemma RoundMonotone(x: real, y: real)
    requires x <= y
    ensures Round(x) <= Round(y)
  {
  }

  lemma RoundOfInteger(n: int)
    ensures Round(n as real) == n
  {
  }

  /** Rounding a value that lies between two integers stays between them. */
  lemma RoundBetween(x: real, lo: int, hi: int)
    requires lo as real <= x <= hi as real
    ensures lo <= Round(x) <= hi
  {
    RoundMonotone(lo as real, x);
    RoundMonotone(x, hi as real);
    RoundOfInteger(lo);
    RoundOfInteger(hi);
  }

  /** Truncation toward zero, as JavaScript's remainder uses it. */
  function Trunc(x: real): (r: int)
    ensures x >= 0.0 ==> 0.0 <= r as real <= x < r as real + 1.0
    ensures x < 0.0 ==> x <= r as real <= 0.0 && r as real - 1.0 < x
  {
    if x >= 0.0 then x.Floor else -((-x).Floor)
  }

  /** The `%` operator on numbers: a - b * trunc(a / b), for a positive divisor. */
  function TruncRem(a: real, b: real): (r: real)
    requires b > 0.0
    ensures a >= 0.0 ==> 0.0 <= r < b
    ensures a < 0.0 ==> -b < r <= 0.0
  {
    QuotientBounds(a, b);
    a - b * (Trunc(a / b) as real)
  }

  /** b * trunc(a / b) is the multiple of b next to a on the side of zero. */
  lemma QuotientBounds(a: real, b: real)
    requires b > 0.0
    ensures a >= 0.0 ==> b * (Trunc(a / b) as real) <= a < b * (Trunc(a / b) as real) + b
    ensures a < 0.0 ==> b * (Trunc(a / b) as real) - b < a <= b * (Trunc(a / b) as real)
  {
    if a >= 0.0 {
      QuotientBelow(a, b, a / b, Trunc(a / b) as real);
    } else {
      QuotientAbove(a, b, a / b, Trunc(a / b) as real);
    }
  }

  lemma QuotientBelow(a: real, b: real, d: real, q: real)
    requires b > 0.0 && d == a / b && q <= d < q + 1.0
    ensures b * q <= a < b * q + b
  {
    DivSign(a, b);
    MulMonotone(b, q, d);
    ScaleUpper(a, b, d, q);
  }

  lemma QuotientAbove(a: real, b: real, d: real, q: real)
    requires b > 0.0 && d == a / b && q - 1.0 < d <= q
    ensures b * q - b < a <= b * q
  {
    DivSign(a, b);
    MulMonotone(b, d, q);
    ScaleLower(a, b, d, q);
  }

  /** Dividing by a positive number keeps the sign of the dividend. */
  lemma DivSign(a: real, b: real)
    requires b > 0.0
    ensures b * (a / b) == a
    ensures a >= 0.0 <==> a / b >= 0.0
  {
    if a / b < 0.0 { MulStrict(b, a / b, 0.0); }
    else { MulMonotone(b, 0.0, a / b); }
  }

  lemma MulMonotone(b: real, x: real, y: real)
    requires b >= 0.0 && x <= y
    ensures b * x <= b * y
  {
    assert b * y - b * x == b * (y - x);
  }

  lemma MulStrict(b: real, x: real, y: real)
    requires b > 0.0 && x < y
    ensures b * x < b * y
  {
    assert b * y - b * x == b * (y - x);
  }

  lemma ScaleUpper(a: real, b: real, d: real, q: real)
    requires b > 0.0 && b * d == a && d < q + 1.0
    ensures a < b * q + b
  {
    MulStrict(b, d, q + 1.0);
    assert b * (q + 1.0) == b * q + b;
  }

  lemma ScaleLower(a: real, b: real, d: real, q: real)
    requires b > 0.0 && b * d == a && q - 1.0 < d
    ensures b * q - b < a
  {
    MulStrict(b, q - 1.0, d);
    assert b * (q - 1.0) == b * q - b;
  }

  /** On a dividend already inside (-b, b) the remainder is the dividend itself. */
  lemma TruncRemSmall(a: real, b: real)
    requires b > 0.0 && -b < a < b
    ensures TruncRem(a, b) == a
  {
    DivSign(a, b);
    UnitQuotient(a, b, a / b);
    assert Trunc(a / b) == 0;
  }

  /** For non-negative dividends, adding one divisor does not change the remainder. */
  lemma TruncRemShift(a: real, b: real)
    requires b > 0.0 && a >= 0.0
    ensures TruncRem(a + b, b) == TruncRem(a, b)
  {
    var d, e := a / b, (a + b) / b;
    DivSign(a, b);
    DivSign(a + b, b);
    assert b * (d + 1.0) == b * d + b;
    MulCancel(b, e, d + 1.0);
    assert Trunc(e) == Trunc(d) + 1;
  }

  lemma UnitQuotient(a: real, b: real, d: real)
    requires b > 0.0 && -b < a < b && b * d == a
    ensures -1.0 < d < 1.0
  {
    if d >= 1.0 { MulMonotone(b, 1.0, d); }
    if d <= -1.0 { MulMonotone(b, d, -1.0); }
  }

  lemma MulCancel(b: real, x: real, y: real)
    requires b != 0.0 && b * x == b * y
    ensures x == y
  {
    assert b * (x - y) == 0.0;
  }

  /** The `%` operator on integer-valued numbers (truncated, sign of the dividend). */
  function TruncRemInt(a: int, b: int): (r: int)
    requires b > 0
    ensures a >= 0 ==> 0 <= r < b
    ensures a < 0 ==> -b < r <= 0
  {
    if a >= 0 then a % b else -((-a) % b)
  }

  /** `Math.random() * extent` lies in [0, extent] for a draw in [0, 1). */
  lemma ScaledDraw(r: real, extent: real)
    requires 0.0 <= r < 1.0 && extent >= 0.0
    ensures 0.0 <= r * extent <= extent
  {
    MulMonotone(extent, r, 1.0);
    MulMonotone(extent, 0.0, r);
  }

  /**
   * The transcendental members of `Math` the components call. They are
   * total functions chosen by the caller; `Sound()` holds the only facts
   * the proofs use about them.
   */
  datatype Transcendentals = Transcendentals(
    cos: real -> real,
    sin: real -> real,
    sqrt: real -> real,
    pi: real)
  {
    ghost predicate Sound() {
      && (forall x :: -1.0 <= cos(x) <= 1.0)
      && (forall x :: -1.0 <= sin(x) <= 1.0)
      && (forall x :: 0.0 <= sqrt(x))
      && sqrt(0.0) == 0.0
      && cos(0.0) == 1.0
      && pi > 0.0
    }
  }

  /** The facts in `Sound()` are consistent: some record has them all. */
  lemma SoundSatisfiable()
    ensures exists m: Transcendentals :: m.Sound()
  {
    var m := Transcendentals(x => 1.0, x => 0.0, x => if x < 0.0 then -x else x, 3.0);
    assert m.Sound();
  }
}
