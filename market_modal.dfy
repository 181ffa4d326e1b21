/**
  The market dialog (src/components/MarketModal.tsx): how much the player may trade
  (what the purse buys, or what the hold carries) and the guard that passes a trade
  on; also the file's own `randomPrice` helper.
*/
module MarketModal {
  import opened Cargo
  import opened Maybe
  import MarketTrade
  import Pricing
  import JsMath

  /** `Math.floor(u * span)` for a draw `u` and a span that need not be whole. */
  function DrawIndex(u: real, span: real): (k: int)
    requires 0.0 <= u < 1.0 && span > 0.0
    ensures 0 <= k && k as real < span
  {
    assert span - u * span == (1.0 - u) * span;
    (u * span).Floor
  }

  /** `randomPrice` as written: `min + Math.floor(u * ((max - min) / 5 + 1)) * 5`, where
      the division by 5 is not floored. */
  function RandomPrice(min: int, max: int, u: real): (p: int)
    requires min <= max && 0.0 <= u < 1.0
    ensures min <= p < max + 5
    ensures (p - min) % 5 == 0
  {
    var span := (max - min) as real / 5.0 + 1.0;
    var k := DrawIndex(u, span);
    assert 5.0 * span == (max - min) as real + 5.0;
    min + k * 5
  }

  /** When the band is a whole number of steps wide the helper agrees with the
      quantised price of src/utils/pricing.ts. */
  lemma RandomPriceOnSteps(min: int, max: int, u: real)
    requires min <= max && 0.0 <= u < 1.0 && (max - min) % 5 == 0
    ensures RandomPrice(min, max, u) == Pricing.Price(min, max, u)
  {
    var n := Pricing.Steps(min, max);
    assert (max - min) == 5 * (n - 1);
    var span := (max - min) as real / 5.0 + 1.0;
    assert span == n as real;
    assert DrawIndex(u, span) == JsMath.RandomIndex(n, u);
    assert RandomPrice(min, max, u) == min + DrawIndex(u, span) * 5;
  }

  /** Otherwise it can overshoot its own maximum: for the band 0..7 a draw of 0.9
      gives 10. */
  lemma RandomPriceOvershoots()
    ensures RandomPrice(0, 7, 0.9) == 10 > 7
    ensures Pricing.Price(0, 7, 0.9) <= 7
  {
    assert 0.9 * ((7 - 0) as real / 5.0 + 1.0) == 2.16;
  }

  /** `maxAffordable`: `Math.floor(balance / price)` when buying, the good's held
      amount (0 when not held) when selling. */
  function MaxAffordable(isBuy: bool, balance: int, price: int, cargo: seq<Stack>, kind: string): (m: int)
    requires price > 0
    ensures isBuy ==> m * price <= balance < (m + 1) * price
    ensures !isBuy ==> m == AmountOf(cargo, kind)
  {
    if isBuy then balance / price else AmountOf(cargo, kind)
  }

  datatype TradeRequest = TradeRequest(kind: string, quantity: int, isBuy: bool)

  class MarketDialog {
    var kind: string
    var quantity: int
    var isBuy: bool
    var open: bool

    constructor ()
      ensures kind == "Wheat" && quantity == 0 && isBuy && !open
    {
      kind := "Wheat";
      quantity := 0;
      isBuy := true;
      open := false;
    }

    /** `handleTrade`: pass the trade on only when `0 < quantity <= maxAffordable`, then
        clear the quantity and close; otherwise nothing happens. */
    method HandleTrade(balance: int, cargo: seq<Stack>, prices: map<string, int>) returns (request: Option<TradeRequest>)
      requires kind in prices && prices[kind] > 0
      modifies this`quantity, this`open
      ensures request.Some? <==> 0 < old(quantity) <= MaxAffordable(isBuy, balance, prices[kind], cargo, kind)
      ensures request.Some? ==> request.value == TradeRequest(kind, old(quantity), isBuy) && quantity == 0 && !open
      ensures request.None? ==> quantity == old(quantity) && open == old(open)
    {
      request := None;
      var maxAffordable := MaxAffordable(isBuy, balance, prices[kind], cargo, kind);
      if quantity > 0 && quantity <= maxAffordable {
        request := Some(TradeRequest(kind, quantity, isBuy));
        quantity := 0;
        open := false;
      }
    }
  }

  /** A trade the dialog lets through never overdraws the purse on a purchase, and on a
      sale takes exactly the tons sold (the `max(0, ...)` clamp never bites). */
  lemma PassedTradeIsCovered(balance: int, cargo: seq<Stack>, price: int, kind: string, quantity: int, isBuy: bool)
    requires price > 0 && 0 < quantity <= MaxAffordable(isBuy, balance, price, cargo, kind)
    ensures var r := MarketTrade.Trade(MarketTrade.Purse(balance, cargo), price, kind, quantity, isBuy);
      && (isBuy ==> r.balance >= 0 && AmountOf(r.cargo, kind) == AmountOf(cargo, kind) + quantity)
      && (!isBuy ==> r.balance > balance && AmountOf(r.cargo, kind) == AmountOf(cargo, kind) - quantity)
  {
    var r := MarketTrade.Trade(MarketTrade.Purse(balance, cargo), price, kind, quantity, isBuy);
    if isBuy {
      assert r.balance == balance - price * quantity;
      FewerCostLess(quantity, MaxAffordable(isBuy, balance, price, cargo, kind), price);
      DepositAmount(cargo, kind, quantity);
    } else {
      assert r.balance == balance + price * quantity;
      if !Has(cargo, kind) {
        AbsentAmount(cargo, kind);
      }
      WithdrawAmount(cargo, kind, quantity);
    }
  }

  lemma FewerCostLess(a: int, b: int, price: int)
    requires a <= b && price >= 0
    ensures price * a <= b * price
  {
  }
}
