/** Conversions between rates (multiples of the sell price) and integer prices.
    Rates are exact reals here; the engine computes them in binary floating point. */
module Rates {

  /** Smallest integer not below `x`. */
  function Ceil(x: real): (c: int)
    ensures c as real - 1.0 < x <= c as real
  {
    -((-x).Floor)
  }

  /** Lowest rate whose price rounds to the observed price `b`: scaled back by the sell price it
      is `b - 0.5`. */
  function MinRate(sellPrice: int, b: int): (r: real)
    requires sellPrice > 0
    ensures r * sellPrice as real == b as real - 0.5
  {
    (b as real - 0.5) / sellPrice as real
  }

  /** Highest rate whose price rounds to the observed price `b`: scaled back by the sell price
      it is `b + 0.5`. */
  function MaxRate(sellPrice: int, b: int): (r: real)
    requires sellPrice > 0
    ensures r * sellPrice as real == b as real + 0.5
  {
    (b as real + 0.5) / sellPrice as real
  }

  /** Lower price bound of rate `r`: the price rounded down. */
  function MinRatePrice(sellPrice: int, r: real): (p: int)
    ensures p as real <= r * sellPrice as real < p as real + 1.0
  {
    (r * sellPrice as real).Floor
  }

  /** Upper price bound of rate `r`: the price rounded up. */
  function MaxRatePrice(sellPrice: int, r: real): (p: int)
    ensures p as real - 1.0 < r * sellPrice as real <= p as real
  {
    Ceil(r * sellPrice as real)
  }

  /** `[MinRate, MaxRate)` holds exactly the rates whose price rounds (half up) to `b`. */
  lemma RateIntervalTight(sellPrice: int, b: int, r: real)
    requires sellPrice > 0
    ensures MinRate(sellPrice, b) <= r < MaxRate(sellPrice, b)
        <==> b as real - 0.5 <= r * sellPrice as real < b as real + 0.5
  {
    var s := sellPrice as real;
    assert MinRate(sellPrice, b) * s == b as real - 0.5;
    assert MaxRate(sellPrice, b) * s == b as real + 0.5;
    if MinRate(sellPrice, b) <= r {
      MulMonotone(MinRate(sellPrice, b), r, s);
    }
    if r < MaxRate(sellPrice, b) {
      MulStrictMonotone(r, MaxRate(sellPrice, b), s);
    }
    if b as real - 0.5 <= r * s {
      MulMonotoneBack(MinRate(sellPrice, b), r, s);
    }
    if r * s < b as real + 0.5 {
      MulStrictMonotoneBack(r, MaxRate(sellPrice, b), s);
    }
  }

  /** Rounding a lower rate down never exceeds rounding a higher rate up. */
  lemma RatePriceOrder(sellPrice: int, lo: real, hi: real)
    requires sellPrice > 0 && lo <= hi
    ensures MinRatePrice(sellPrice, lo) <= MaxRatePrice(sellPrice, hi)
  {
    MulMonotone(lo, hi, sellPrice as real);
  }

  /** Both price bounds grow with the rate. */
  lemma RatePriceMonotone(sellPrice: int, r1: real, r2: real)
    requires sellPrice > 0 && r1 <= r2
    ensures MinRatePrice(sellPrice, r1) <= MinRatePrice(sellPrice, r2)
    ensures MaxRatePrice(sellPrice, r1) <= MaxRatePrice(sellPrice, r2)
  {
    MulMonotone(r1, r2, sellPrice as real);
  }

  lemma MulMonotone(x: real, y: real, s: real)
    requires x <= y && s > 0.0
    ensures x * s <= y * s
  {
    assert (y - x) * s >= 0.0;
  }

  lemma MulStrictMonotone(x: real, y: real, s: real)
    requires x < y && s > 0.0
    ensures x * s < y * s
  {
    assert (y - x) * s > 0.0;
  }

  lemma MulMonotoneBack(x: real, y: real, s: real)
    requires x * s <= y * s && s > 0.0
    ensures x <= y
  {
    if y < x {
      MulStrictMonotone(y, x, s);
    }
  }

  lemma MulStrictMonotoneBack(x: real, y: real, s: real)
    requires x * s < y * s && s > 0.0
    ensures x < y
  {
    if y <= x {
      MulMonotone(y, x, s);
    }
  }
}
