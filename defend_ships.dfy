/**
  Hiring escorts (src/hooks/useDefendShips.ts): the number of escorts and their unit
  cost are recorded, and the purse pays for them at once.
*/
module DefendShips {
  import opened Ledger

  class Escorts {
    /** `defendShips`. */
    var count: int
    /** `defendShipCost`. */
    var cost: int

    constructor ()
      ensures count == 0 && cost == 0
    {
      count := 0;
      cost := 0;
    }

    /** `setDefendShips`: record the hire (replacing, not adding to, any earlier one)
        and charge `num * pricePerShip`. */
    method SetDefendShips(num: int, pricePerShip: int, ledger: Ledger)
      modifies this, ledger`balance
      ensures count == num && cost == pricePerShip
      ensures ledger.balance == old(ledger.balance) - num * pricePerShip
      ensures num == 0 ==> ledger.balance == old(ledger.balance)
    {
      count := num;
      cost := pricePerShip;
      ledger.balance := ledger.balance - num * pricePerShip;
    }

    /** `clearDefendShips`: forget the escorts; nothing is refunded. */
    method ClearDefendShips()
      modifies this
      ensures count == 0 && cost == 0
    {
      count := 0;
      cost := 0;
    }
  }
}
