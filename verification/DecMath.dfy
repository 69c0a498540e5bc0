/**
 Scale and tick rounding of pkg/decmath/decmath.go, on exact reals.

 The tie rule of RoundToScale is a parameter: everything proved holds for each of them.
 */
module DecMath {
  /** Whether a value half-way between two representable ones is rounded up. */
  type Ties = real -> bool

  function Pow10(n: int): (r: real)
    ensures r > 0.0
    decreases if n < 0 then -n else n
  {
    if n == 0 then 1.0 else if n > 0 then 10.0 * Pow10(n - 1) else Pow10(n + 1) / 10.0
  }

  function Ceil(x: real): int {
    -((-x).Floor)
  }

  function FloorBy(v: real, p: real): real
    requires p > 0.0
  {
    (v * p).Floor as real / p
  }

  function FloorToScale(v: real, scale: int): real {
    FloorBy(v, Pow10(scale))
  }

  /** The nearest whole number; a tie goes up when `up` says so. */
  function Nearest(x: real, up: bool): (n: int)
    ensures -0.5 <= n as real - x <= 0.5
  {
    var fraction := x - x.Floor as real;
    if fraction < 0.5 || (fraction == 0.5 && !up) then x.Floor else x.Floor + 1
  }

  function RoundBy(v: real, p: real, up: bool): real
    requires p > 0.0
  {
    Nearest(v * p, up) as real / p
  }

  function RoundToScale(v: real, scale: int, ties: Ties): real {
    RoundBy(v, Pow10(scale), ties(v))
  }

  function SnapToTickFloor(price: real, tick: real): real {
    if tick == 0.0 then price else (price / tick).Floor as real * tick
  }

  function SnapToTickCeil(price: real, tick: real): real {
    if tick == 0.0 then price else Ceil(price / tick) as real * tick
  }

  function Mul(a: real, b: real): real {
    a * b
  }

  function Div(a: real, b: real): real {
    if b == 0.0 then 0.0 else a / b
  }

  function Max(a: real, b: real): real {
    if a < b then b else a
  }

  function Min(a: real, b: real): real {
    if b < a then b else a
  }

  function Abs(a: real): real {
    if a < 0.0 then -a else a
  }

  function Times(k: int, step: real): real {
    k as real * step
  }

  /** The smallest value with the given number of decimals. */
  function Unit(scale: int): (r: real)
    ensures r > 0.0
  {
    1.0 / Pow10(scale)
  }

  /** x is a whole number of steps. */
  ghost predicate IsMultiple(x: real, step: real) {
    exists k: int :: x == Times(k, step)
  }

  /** x has at most `scale` decimals. */
  ghost predicate HasScale(x: real, scale: int) {
    IsMultiple(x, Unit(scale))
  }

  /** Each further decimal makes the unit a tenth; no decimals make it 1. */
  lemma UnitIsATenth(scale: int)
    ensures Unit(0) == 1.0
    ensures Unit(scale) == 10.0 * Unit(scale + 1)
  {
    if scale >= 0 {
      TenTimes(Pow10(scale));
    } else {
      TenTimes(Pow10(scale + 1) / 10.0);
    }
  }

  lemma TenTimes(p: real)
    requires p > 0.0
    ensures 1.0 / p == 10.0 * (1.0 / (10.0 * p))
  {
    var r := 1.0 / (10.0 * p);
    assert r * (10.0 * p) == 1.0;
    assert (10.0 * r) * p == 1.0;
    DivUnique(1.0, p, 10.0 * r);
  }

  lemma MulMono(a: real, b: real, c: real)
    requires c > 0.0
    ensures a <= b <==> a * c <= b * c
    ensures a < b <==> a * c < b * c
  {
  }

  lemma DivUnique(a: real, b: real, c: real)
    requires b > 0.0 && c * b == a
    ensures a / b == c
  {
    var q := a / b;
    assert q * b == a;
    assert (q - c) * b == 0.0;
    MulMono(q, c, b);
    MulMono(c, q, b);
  }

  lemma DivIsTimes(a: real, b: real)
    requires b > 0.0
    ensures a / b == a * (1.0 / b)
  {
    var r := 1.0 / b;
    assert r * b == 1.0;
    assert (a * r) * b == a * (r * b);
    DivUnique(a, b, a * r);
  }

  /** n steps are at most x exactly when n is at most the floor of x over the step. */
  lemma FloorOfQuotient(x: real, step: real, n: int)
    requires step > 0.0
    ensures Times(n, step) <= x <==> n <= (x / step).Floor
    ensures Times((x / step).Floor + 1, step) == Times((x / step).Floor, step) + step
  {
    var q := x / step;
    assert q * step == x;
    MulMono(n as real, q, step);
    var f := q.Floor;
    assert (f + 1) as real == f as real + 1.0;
    assert (f as real + 1.0) * step == f as real * step + step;
  }

  /** Snapping down gives the greatest multiple of the tick that is at most the price. */
  lemma SnapFloorIsGreatest(price: real, tick: real, k: int)
    requires tick > 0.0
    ensures IsMultiple(SnapToTickFloor(price, tick), tick)
    ensures price - tick < SnapToTickFloor(price, tick) <= price
    ensures Times(k, tick) <= price ==> Times(k, tick) <= SnapToTickFloor(price, tick)
  {
    var f := (price / tick).Floor;
    assert SnapToTickFloor(price, tick) == Times(f, tick);
    FloorOfQuotient(price, tick, f);
    FloorOfQuotient(price, tick, f + 1);
    FloorOfQuotient(price, tick, k);
    MulMono(k as real, f as real, tick);
  }

  lemma SnapCeilMirrors(price: real, tick: real)
    requires tick > 0.0
    ensures SnapToTickCeil(price, tick) == -SnapToTickFloor(-price, tick)
  {
    var q := price / tick;
    assert q * tick == price;
    assert (-q) * tick == -price;
    DivUnique(-price, tick, -q);
    var f := (-q).Floor;
    assert (-f) as real == -(f as real);
    assert (-(f as real)) * tick == -(f as real * tick);
  }

  lemma TimesNegates(k: int, step: real)
    ensures Times(-k, step) == -Times(k, step)
  {
    assert (-k) as real == -(k as real);
  }

  /** Snapping up gives the least multiple of the tick that is at least the price. */
  lemma SnapCeilIsLeast(price: real, tick: real, k: int)
    requires tick > 0.0
    ensures IsMultiple(SnapToTickCeil(price, tick), tick)
    ensures price <= SnapToTickCeil(price, tick) < price + tick
    ensures Times(k, tick) >= price ==> Times(k, tick) >= SnapToTickCeil(price, tick)
  {
    SnapCeilMirrors(price, tick);
    SnapFloorIsGreatest(-price, tick, -k);
    TimesNegates(k, tick);
    var m: int :| SnapToTickFloor(-price, tick) == Times(m, tick);
    TimesNegates(m, tick);
    assert SnapToTickCeil(price, tick) == Times(-m, tick);
  }

  /** Scaling by p is counting steps of 1/p. */
  lemma ScalingCountsSteps(v: real, p: real, n: int)
    requires p > 0.0
    ensures n as real / p == Times(n, 1.0 / p)
    ensures v / (1.0 / p) == v * p
    ensures (v * p) * (1.0 / p) == v
    ensures Times(n, 1.0 / p) * p == n as real
  {
    var u := 1.0 / p;
    DivIsTimes(n as real, p);
    assert u * p == 1.0;
    assert (v * p) * u == v * (u * p);
    DivUnique(v, u, v * p);
    assert (n as real * u) * p == n as real * (u * p);
  }

  /** Rounding gives a value with the scale, at most half a unit away, and leaves one that has the scale alone. */
  lemma RoundIsNearest(v: real, scale: int, ties: Ties)
    ensures HasScale(RoundToScale(v, scale, ties), scale)
    ensures -0.5 * Unit(scale) <= RoundToScale(v, scale, ties) - v <= 0.5 * Unit(scale)
    ensures HasScale(v, scale) ==> RoundToScale(v, scale, ties) == v
  {
    NearestStep(v, Pow10(scale), ties(v));
  }

  lemma StepDistance(n: int, x: real, u: real)
    requires u > 0.0 && -0.5 <= n as real - x <= 0.5
    ensures -0.5 * u <= Times(n, u) - x * u <= 0.5 * u
  {
    var d := n as real - x;
    MulMono(-0.5, d, u);
    MulMono(d, 0.5, u);
    assert -0.5 * u <= d * u && d * u <= 0.5 * u;
    assert d * u == Times(n, u) - x * u;
  }

  lemma RoundBySteps(v: real, p: real, up: bool)
    requires p > 0.0
    ensures RoundBy(v, p, up) == Times(Nearest(v * p, up), 1.0 / p)
  {
    ScalingCountsSteps(v, p, Nearest(v * p, up));
  }

  lemma RoundOfMultiple(v: real, p: real, up: bool, k: int)
    requires p > 0.0 && v == Times(k, 1.0 / p)
    ensures RoundBy(v, p, up) == v
  {
    ScalingCountsSteps(v, p, k);
    assert Nearest(v * p, up) == k;
    RoundBySteps(v, p, up);
  }

  lemma NearestStep(v: real, p: real, up: bool)
    requires p > 0.0
    ensures
      var r := RoundBy(v, p, up);
      && IsMultiple(r, 1.0 / p)
      && -0.5 * (1.0 / p) <= r - v <= 0.5 * (1.0 / p)
      && (IsMultiple(v, 1.0 / p) ==> r == v)
  {
    var u, n := 1.0 / p, Nearest(v * p, up);
    ScalingCountsSteps(v, p, n);
    RoundBySteps(v, p, up);
    StepDistance(n, v * p, u);
    if IsMultiple(v, u) {
      var k: int :| v == Times(k, u);
      RoundOfMultiple(v, p, up, k);
    }
  }

  /** A multiple of a tick that has the scale has the scale. */
  lemma MultipleHasScale(x: real, tick: real, scale: int)
    requires IsMultiple(x, tick) && HasScale(tick, scale)
    ensures HasScale(x, scale)
  {
    var k: int :| x == Times(k, tick);
    var m: int :| tick == Times(m, Unit(scale));
    TimesTimes(k, m, Unit(scale));
  }

  lemma TimesTimes(k: int, m: int, step: real)
    ensures Times(k, Times(m, step)) == Times(k * m, step)
  {
    var a, b := k as real, m as real;
    assert (k * m) as real == a * b;
    assert a * (b * step) == (a * b) * step;
  }

  /** Flooring to a scale gives the greatest value with that scale at most v. */
  lemma FloorToScaleIsGreatest(v: real, scale: int, k: int)
    ensures HasScale(FloorToScale(v, scale), scale)
    ensures v - Unit(scale) < FloorToScale(v, scale) <= v
    ensures Times(k, Unit(scale)) <= v ==> Times(k, Unit(scale)) <= FloorToScale(v, scale)
  {
    FloorStep(v, Pow10(scale));
    SnapFloorIsGreatest(v, Unit(scale), k);
  }

  lemma FloorStep(v: real, p: real)
    requires p > 0.0
    ensures FloorBy(v, p) == SnapToTickFloor(v, 1.0 / p)
  {
    ScalingCountsSteps(v, p, (v * p).Floor);
  }
}
