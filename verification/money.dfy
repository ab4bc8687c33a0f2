/**
 * Decimal rounding of amounts. The game rounds rates to 3 or 4 decimals and
 * trade totals to 2 decimals (RM cents) with `toFixed`; on the non-negative
 * values it is applied to, that rounds to the nearest step, halves upwards.
 */
module Money {

  /** 10 to the power `n` */
  function Pow10(n: nat): (r: nat)
    ensures r >= 1
  {
    if n == 0 then 1 else 10 * Pow10(n - 1)
  }

  /** Number of steps of `places` decimals in one unit */
  function Scale(places: nat): (s: real)
    ensures s >= 1.0
  {
    Pow10(places) as real
  }

  /** `x` is a whole number of steps of size 1/s */
  predicate Stepped(x: real, s: real) {
    (x * s).Floor as real == x * s
  }

  /** `x` has at most `places` decimals */
  predicate OnGrid(x: real, places: nat) {
    Stepped(x, Scale(places))
  }

  /** `x` rounded to `places` decimals, halves upwards */
  function RoundTo(x: real, places: nat): (r: real)
    ensures OnGrid(r, places)
    ensures x - 0.5 / Scale(places) < r <= x + 0.5 / Scale(places)
  {
    RoundAt(x, Scale(places))
  }

  /** Rounding to RM cents, as `toFixed(2)` */
  function Round2(x: real): (r: real)
    ensures OnGrid(r, 2)
    ensures x - 0.005 < r <= x + 0.005
  {
    assert Scale(2) == 100.0;
    RoundTo(x, 2)
  }

  /** Rounding never leaves an interval whose ends are on the grid */
  lemma RoundWithin(x: real, lo: real, hi: real, places: nat)
    requires OnGrid(lo, places) && OnGrid(hi, places)
    requires lo <= x <= hi
    ensures lo <= RoundTo(x, places) <= hi
  {
    StepWithin(x, lo, hi, Scale(places));
  }

  /** Sums and differences of amounts on the grid stay on it */
  lemma GridClosed(a: real, b: real, places: nat)
    requires OnGrid(a, places) && OnGrid(b, places)
    ensures OnGrid(a + b, places) && OnGrid(a - b, places)
  {
    StepClosed(a, b, Scale(places));
  }

  /** Whole amounts are on every grid */
  lemma WholeOnGrid(k: int, places: nat)
    ensures OnGrid(k as real, places)
  {
    assert k as real * Scale(places) == (k * Pow10(places)) as real;
  }

  // Rounding over an abstract scale `s`, where the arithmetic is proved.

  function RoundAt(x: real, s: real): (r: real)
    requires s >= 1.0
    ensures Stepped(r, s) && x - 0.5 / s < r <= x + 0.5 / s
  {
    RoundStep(x, s);
    (x * s + 0.5).Floor as real / s
  }

  lemma RoundStep(x: real, s: real)
    requires s >= 1.0
    ensures var r := (x * s + 0.5).Floor as real / s;
      Stepped(r, s) && x - 0.5 / s < r <= x + 0.5 / s
  {
    var n := (x * s + 0.5).Floor;
    DivMul(n as real, s);
    DivideBounds(x * s - 0.5, n as real, x * s + 0.5, s);
    Split(x * s, 0.5, s);
    DivMul(x, s);
  }

  lemma StepWithin(x: real, lo: real, hi: real, s: real)
    requires s >= 1.0 && Stepped(lo, s) && Stepped(hi, s)
    requires lo <= x <= hi
    ensures lo <= RoundAt(x, s) <= hi
  {
    StepAbove(x, lo, s);
    StepBelow(x, hi, s);
  }

  lemma StepAbove(x: real, lo: real, s: real)
    requires s >= 1.0 && Stepped(lo, s) && lo <= x
    ensures lo <= RoundAt(x, s)
  {
    var n, l := (x * s + 0.5).Floor, (lo * s).Floor;
    MulMonotone(lo, x, s);
    FloorAbove(x * s + 0.5, l);
    DivMonotone(l as real, n as real, s);
    DivMul(lo, s);
  }

  lemma StepBelow(x: real, hi: real, s: real)
    requires s >= 1.0 && Stepped(hi, s) && x <= hi
    ensures RoundAt(x, s) <= hi
  {
    var n, h := (x * s + 0.5).Floor, (hi * s).Floor;
    MulMonotone(x, hi, s);
    FloorBelow(x * s + 0.5, h);
    DivMonotone(n as real, h as real, s);
    DivMul(hi, s);
  }

  lemma StepClosed(a: real, b: real, s: real)
    requires Stepped(a, s) && Stepped(b, s)
    ensures Stepped(a + b, s) && Stepped(a - b, s)
  {
    var m, n := (a * s).Floor, (b * s).Floor;
    Distribute(a, b, s);
    FloorWhole((a + b) * s, m + n);
    FloorWhole((a - b) * s, m - n);
  }

  // Facts of real arithmetic, stated apart so that each is proved on its own.

  lemma DivMonotone(a: real, b: real, s: real)
    requires s > 0.0 && a <= b
    ensures a / s <= b / s
  {
  }

  lemma FloorWhole(y: real, k: int)
    requires y == k as real
    ensures y.Floor == k
  {
  }

  lemma FloorAbove(y: real, k: int)
    requires k as real <= y
    ensures k <= y.Floor
  {
  }

  lemma FloorBelow(y: real, k: int)
    requires y < k as real + 1.0
    ensures y.Floor <= k
  {
  }

  lemma DivideBounds(lo: real, y: real, hi: real, s: real)
    requires s > 0.0 && lo < y <= hi
    ensures lo / s < y / s <= hi / s
  {
  }

  lemma DivMul(a: real, s: real)
    requires s > 0.0
    ensures a / s * s == a && a * s / s == a
  {
  }

  lemma Split(a: real, b: real, s: real)
    requires s > 0.0
    ensures (a + b) / s == a / s + b / s && (a - b) / s == a / s - b / s
  {
  }

  lemma MulMonotone(a: real, b: real, s: real)
    requires s > 0.0 && a <= b
    ensures a * s <= b * s
  {
  }

  lemma Distribute(a: real, b: real, s: real)
    ensures (a + b) * s == a * s + b * s && (a - b) * s == a * s - b * s
  {
  }
}
