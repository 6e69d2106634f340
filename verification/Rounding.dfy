/** Directed rounding of exact decimals, and the arithmetic facts its users need. */
module Rounding {
  /** The smallest money amount the repository keeps. */
  const QUANTUM: real := 0.00000001

  type Positive = x: real | 0.0 < x witness 1.0

  function FloorTo(x: real, unit: Positive): real {
    (x / unit).Floor as real * unit
  }

  function CeilTo(x: real, unit: Positive): real {
    -FloorTo(-x, unit)
  }

  predicate MultipleOf(x: real, unit: Positive) {
    FloorTo(x, unit) == x
  }

  lemma NonNegativeProduct(x: real, y: real)
    requires x >= 0.0 && y >= 0.0
    ensures x * y >= 0.0
  {
  }

  lemma ScaleInequality(q: real, x: real, y: real)
    requires q >= 0.0 && x <= y
    ensures q * x <= q * y
  {
  }

  lemma StrictScale(q: real, x: real, y: real)
    requires q > 0.0 && x < y
    ensures q * x < q * y
  {
  }

  lemma FloorToBounds(x: real, unit: real)
    requires unit > 0.0
    ensures FloorTo(x, unit) <= x < FloorTo(x, unit) + unit
    ensures x >= 0.0 ==> FloorTo(x, unit) >= 0.0
  {
    var ratio := x / unit;
    assert unit * ratio == x;
    ScaledFloor(x, unit, ratio);
  }

  lemma ScaledFloor(x: real, unit: real, ratio: real)
    requires unit > 0.0 && unit * ratio == x
    ensures ratio.Floor as real * unit <= x < ratio.Floor as real * unit + unit
    ensures x >= 0.0 ==> ratio.Floor as real * unit >= 0.0
  {
    ScaledSteps(x, unit, ratio, ratio.Floor as real);
    if x >= 0.0 {
      if ratio < 0.0 {
        StrictScale(unit, ratio, 0.0);
        assert false;
      }
      NonNegativeProduct(ratio.Floor as real, unit);
    }
  }

  lemma ScaledSteps(x: real, unit: real, ratio: real, steps: real)
    requires unit > 0.0 && unit * ratio == x && steps <= ratio < steps + 1.0
    ensures steps * unit <= x < steps * unit + unit
  {
    var part := ratio - steps;
    assert x == steps * unit + part * unit;
    assert 0.0 <= part * unit < unit by {
      NonNegativeProduct(part, unit);
      StrictScale(unit, part, 1.0);
    }
  }

  lemma CeilToBounds(x: real, unit: real)
    requires unit > 0.0
    ensures CeilTo(x, unit) - unit < x <= CeilTo(x, unit)
  {
    FloorToBounds(-x, unit);
  }

  lemma FloorToMonotone(x: real, y: real, unit: Positive)
    requires x <= y
    ensures FloorTo(x, unit) <= FloorTo(y, unit)
  {
    var p, q := x / unit, y / unit;
    assert unit * p == x && unit * q == y;
    RatioMonotone(unit, p, q);
    ScaleInequality(unit, p.Floor as real, q.Floor as real);
  }

  lemma RatioMonotone(unit: Positive, p: real, q: real)
    requires unit * p <= unit * q
    ensures p <= q && p.Floor <= q.Floor
  {
    if p > q {
      StrictScale(unit, q, p);
      assert false;
    }
  }

  lemma CeilToMonotone(x: real, y: real, unit: Positive)
    requires x <= y
    ensures CeilTo(x, unit) <= CeilTo(y, unit)
  {
    FloorToMonotone(-y, -x, unit);
  }
}
