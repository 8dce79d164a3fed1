/**
 * Exact decimals as scaled integers. Prices are in ten-thousandths of a credit,
 * amounts in cents.
 */
module Money {

  const PRICE_SCALE := 10_000
  const PRICE_PER_CENT := 100

  /** n / unit rounded to the nearest integer, a tie going up. */
  function RoundHalfUp(n: nat, unit: nat): (r: nat)
    requires unit > 0
    ensures 2 * n - unit < 2 * (r * unit) <= 2 * n + unit
  {
    var r := (2 * n + unit) / (2 * unit);
    assert 2 * (r * unit) == (2 * n + unit) - (2 * n + unit) % (2 * unit);
    r
  }

  lemma MultiplesApart(a: int, b: int, unit: nat)
    requires a < b
    ensures a * unit + unit <= b * unit
  {
    assert (b - a - 1) * unit >= 0;
    assert b * unit == a * unit + unit + (b - a - 1) * unit;
  }

  /** The rounding is the only integer that close. */
  lemma RoundHalfUpUnique(n: nat, unit: nat, r: nat)
    requires unit > 0 && 2 * n - unit < 2 * (r * unit) <= 2 * n + unit
    ensures r == RoundHalfUp(n, unit)
  {
    var q := RoundHalfUp(n, unit);
    if r < q {
      MultiplesApart(r, q, unit);
    } else if q < r {
      MultiplesApart(q, r, unit);
    }
  }

  /** The cents owed for a quantity at a price in ten-thousandths. */
  function Amount(quantity: nat, price: nat): nat {
    RoundHalfUp(quantity * price, PRICE_PER_CENT)
  }
}
