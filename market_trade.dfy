/**
  Trading at the port's own prices (src/hooks/useMarketTrade.ts). The price is read
  from the per-port table for the current port; a purchase is charged in full and
  added to the hold, a sale credited in full and taken from it (never below zero).
*/
module MarketTrade {
  import opened Cargo
  import opened Ledger

  /** The purse and the hold together. */
  datatype Purse = Purse(balance: int, cargo: seq<Stack>)

  /** The effect of one trade of `quantity` tons of `kind` at `price` a ton. */
  function Trade(p: Purse, price: int, kind: string, quantity: int, isBuy: bool): (r: Purse)
    ensures price >= 0 && quantity >= 0 ==> (if isBuy then r.balance <= p.balance else r.balance >= p.balance)
    ensures isBuy ==> Has(r.cargo, kind)
    ensures !isBuy ==> SameKinds(r.cargo, p.cargo)
  {
    if isBuy then Purse(p.balance - price * quantity, Deposit(p.cargo, kind, quantity))
    else Purse(p.balance + price * quantity, Withdraw(p.cargo, kind, quantity))
  }

  /** `handleMarketTrade`: trade at `pricesByCountry[country][kind]`; only the purse
      and the hold change, and the clock does not move. */
  method HandleMarketTrade(ledger: Ledger, pricesByCountry: map<string, map<string, int>>, country: string,
                           kind: string, quantity: int, isBuy: bool)
    requires country in pricesByCountry && kind in pricesByCountry[country]
    modifies ledger`balance, ledger`cargo
    ensures Purse(ledger.balance, ledger.cargo) ==
      Trade(Purse(old(ledger.balance), old(ledger.cargo)), pricesByCountry[country][kind], kind, quantity, isBuy)
  {
    var price := pricesByCountry[country][kind];
    if isBuy {
      ledger.balance := ledger.balance - price * quantity;
      ledger.cargo := Deposit(ledger.cargo, kind, quantity);
    } else {
      ledger.balance := ledger.balance + price * quantity;
      ledger.cargo := Withdraw(ledger.cargo, kind, quantity);
    }
  }

  /** A purchase costs `price * q` and raises the good by `q` (appending it when it is
      not listed); no other good moves. */
  lemma BuyEffect(p: Purse, price: int, kind: string, quantity: int, other: string)
    requires other != kind
    ensures var r := Trade(p, price, kind, quantity, true);
      && r.balance == p.balance - price * quantity
      && AmountOf(r.cargo, kind) == AmountOf(p.cargo, kind) + quantity
      && AmountOf(r.cargo, other) == AmountOf(p.cargo, other)
      && (!Has(p.cargo, kind) ==> r.cargo == p.cargo + [Stack(kind, quantity)])
  {
    DepositAmount(p.cargo, kind, quantity);
    DepositOthers(p.cargo, kind, quantity, other);
    DepositShape(p.cargo, kind, quantity);
  }

  /** A sale brings `price * q` whatever is held, leaves the good at `max(0, a - q)`
      and no other good moves; selling a good that is not listed leaves the hold as is. */
  lemma SellEffect(p: Purse, price: int, kind: string, quantity: int, other: string)
    requires other != kind
    ensures var r := Trade(p, price, kind, quantity, false);
      && r.balance == p.balance + price * quantity
      && (Has(p.cargo, kind) ==> AmountOf(r.cargo, kind) == Max(0, AmountOf(p.cargo, kind) - quantity))
      && (!Has(p.cargo, kind) ==> r.cargo == p.cargo)
      && AmountOf(r.cargo, other) == AmountOf(p.cargo, other)
  {
    WithdrawAmount(p.cargo, kind, quantity);
    WithdrawOthers(p.cargo, kind, quantity, other);
  }

  /** Buying `q` tons and selling them back at the same price restores the purse and
      the hold; when the good was not listed before, a zero entry for it stays behind. */
  lemma BuyThenSell(p: Purse, price: int, kind: string, quantity: int)
    requires NonNegative(p.cargo) && quantity >= 0
    ensures var r := Trade(Trade(p, price, kind, quantity, true), price, kind, quantity, false);
      && r.balance == p.balance
      && (Has(p.cargo, kind) ==> r.cargo == p.cargo)
      && (!Has(p.cargo, kind) ==> r.cargo == p.cargo + [Stack(kind, 0)])
  {
    WithdrawAfterDeposit(p.cargo, kind, quantity);
  }
}
