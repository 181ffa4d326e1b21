/**
  The escort-hiring dialog (src/components/DefendShipsModal.tsx): the unit price is 8%
  of the player's worth clamped to [300, 4000], at most five escorts can be hired and
  never more than the purse pays for, and the confirm button stays disabled while the
  chosen number costs more than the purse holds.
*/
module DefendShipsModal {
  import opened Cargo
  import opened Maybe
  import JsMath

  /** `Math.max(300, Math.min(Math.round(totalValue * 0.08), 4000))`. */
  function PricePerShip(balance: int, cargoValue: int): (p: int)
    ensures 300 <= p <= 4000
    ensures 300 <= JsMath.Round((balance + cargoValue) as real * 0.08) <= 4000 ==>
      p == JsMath.Round((balance + cargoValue) as real * 0.08)
    ensures JsMath.Round((balance + cargoValue) as real * 0.08) < 300 ==> p == 300
    ensures JsMath.Round((balance + cargoValue) as real * 0.08) > 4000 ==> p == 4000
  {
    Max(300, Min(JsMath.Round((balance + cargoValue) as real * 0.08), 4000))
  }

  /** `Math.min(5, Math.floor(balance / pricePerShip))`: the most escorts the purse
      pays for, and never more than five. */
  function MaxShips(balance: int, price: int): (n: int)
    requires price > 0
    ensures n <= 5
    ensures balance >= 0 ==> 0 <= n && n * price <= balance
    ensures n < 5 ==> (n + 1) * price > balance
  {
    Min(5, balance / price)
  }

  /** `[...Array(maxShips + 1).keys()]`: the counts offered, 0 to `maxShips`. A
      `maxShips` below -1 would make the array constructor throw. */
  function ShipChoices(maxShips: int): (r: seq<int>)
    requires maxShips >= -1
    ensures |r| == maxShips + 1
    ensures forall i :: 0 <= i < |r| ==> r[i] == i
    decreases maxShips + 1
  {
    if maxShips < 0 then [] else ShipChoices(maxShips - 1) + [maxShips]
  }

  /** The confirm button's `disabled`. */
  predicate ConfirmDisabled(selected: int, price: int, balance: int)
    ensures !ConfirmDisabled(selected, price, balance) ==> balance - selected * price >= 0
  {
    selected * price > balance
  }

  /** Any count the dialog offers is affordable: hiring it leaves the purse at zero or
      more, so the confirm button is never disabled on an offered count. */
  lemma OfferedCountsAffordable(balance: int, cargoValue: int, selected: int)
    requires balance >= 0
    requires selected in ShipChoices(MaxShips(balance, PricePerShip(balance, cargoValue)))
    ensures var price := PricePerShip(balance, cargoValue);
      !ConfirmDisabled(selected, price, balance) && balance - selected * price >= 0
  {
    var price := PricePerShip(balance, cargoValue);
    var m := MaxShips(balance, price);
    var r := ShipChoices(m);
    var i :| 0 <= i < |r| && r[i] == selected;
    assert 0 <= selected <= m;
    ScaleMonotone(selected, m, price);
  }

  lemma ScaleMonotone(a: int, b: int, p: int)
    requires 0 <= a <= b && p >= 0
    ensures a * p <= b * p
  {
    assert b * p == a * p + (b - a) * p;
  }

  class EscortDialog {
    /** `selected`. */
    var selected: int

    constructor ()
      ensures selected == 0
    {
      selected := 0;
    }

    /** A click on one of the offered counts. */
    method Select(n: int)
      modifies this
      ensures selected == n
    {
      selected := n;
    }

    /** The confirm button: when enabled, hand `(selected, pricePerShip)` on. */
    method Confirm(balance: int, cargoValue: int) returns (hire: Option<(int, int)>)
      ensures var price := PricePerShip(balance, cargoValue);
        && (hire.Some? <==> !ConfirmDisabled(selected, price, balance))
        && (hire.Some? ==> hire.value == (selected, price) && hire.value.0 * hire.value.1 <= balance)
    {
      var price := PricePerShip(balance, cargoValue);
      if ConfirmDisabled(selected, price, balance) {
        return None;
      }
      hire := Some((selected, price));
    }
  }
}
