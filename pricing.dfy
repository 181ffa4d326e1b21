/**
  Quantised port prices (src/utils/pricing.ts): each good's price is drawn from a band
  in steps of 5.
*/
module Pricing {
  import JsMath

  /** Number of price points in the band: `Math.floor((max - min) / 5) + 1`. */
  function Steps(min: int, max: int): (n: int)
    requires min <= max
    ensures n >= 1 && min + 5 * (n - 1) <= max < min + 5 * n
  {
    (max - min) / 5 + 1
  }

  /** The inner `price(min, max)` for the draw `u`: `min` plus five times a drawn index. */
  function Price(min: int, max: int, u: real): (p: int)
    requires min <= max && 0.0 <= u < 1.0
    ensures min <= p <= max
    ensures (p - min) % 5 == 0
  {
    min + JsMath.RandomIndex(Steps(min, max), u) * 5
  }

  /** Every point of the band is the price for some draw: the `k`-th point is drawn by
      `u = k / steps`, so the cheapest (`k = 0`) and the dearest (`k = steps - 1`) are
      both reachable. */
  lemma PriceReaches(min: int, max: int, k: int)
    requires min <= max && 0 <= k < Steps(min, max)
    ensures var u := k as real / Steps(min, max) as real;
      0.0 <= u < 1.0 && Price(min, max, u) == min + 5 * k
  {
    var n := Steps(min, max) as real;
    var u := k as real / n;
    assert u * n == k as real;
    assert 0.0 <= u;
    assert u < 1.0 by {
      assert k as real < n;
    }
    assert (u * n).Floor == k;
    assert JsMath.RandomIndex(Steps(min, max), u) == k;
  }

  /** The price is one of the band's points and no other. */
  lemma PriceIsPoint(min: int, max: int, u: real)
    requires min <= max && 0.0 <= u < 1.0
    ensures exists k :: 0 <= k <= (max - min) / 5 && Price(min, max, u) == min + 5 * k
  {
    var k := JsMath.RandomIndex(Steps(min, max), u);
    assert Price(min, max, u) == min + 5 * k;
  }

  datatype Prices = Prices(wheat: int, olives: int, copper: int)

  /** `generatePrices` for three draws: Wheat 35-200, Olives 70-400, Copper 150-1000. */
  function GeneratePrices(u1: real, u2: real, u3: real): (p: Prices)
    requires 0.0 <= u1 < 1.0 && 0.0 <= u2 < 1.0 && 0.0 <= u3 < 1.0
    ensures 35 <= p.wheat <= 200 && 70 <= p.olives <= 400 && 150 <= p.copper <= 1000
    ensures p.wheat % 5 == 0 && p.olives % 5 == 0 && p.copper % 5 == 0
  {
    Prices(Price(35, 200, u1), Price(70, 400, u2), Price(150, 1000, u3))
  }

  /** The generated prices as the `{ Wheat, Olives, Copper }` record the game indexes by
      good name. */
  function AsMap(p: Prices): (m: map<string, int>)
    ensures m.Keys == {"Wheat", "Olives", "Copper"}
    ensures m["Wheat"] == p.wheat && m["Olives"] == p.olives && m["Copper"] == p.copper
  {
    map["Wheat" := p.wheat, "Olives" := p.olives, "Copper" := p.copper]
  }

  /** Each band's top is a point of the band, so the highest price equals the band's max. */
  lemma BandTopsReachable()
    ensures Price(35, 200, 33.0 / 34.0) == 200
    ensures Price(70, 400, 66.0 / 67.0) == 400
    ensures Price(150, 1000, 170.0 / 171.0) == 1000
  {
    PriceReaches(35, 200, 33);
    PriceReaches(70, 400, 66);
    PriceReaches(150, 1000, 170);
  }
}
