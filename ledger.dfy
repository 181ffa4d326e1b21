/**
  The game-wide state cells that the trading, escort, expansion and event hooks write
  through their setters: the coin balance, the cargo hold and the ship's capacity.
*/
module Ledger {
  import opened Cargo

  class Ledger {
    var balance: int
    var cargo: seq<Stack>
    var shipCapacity: int

    constructor (balance: int, cargo: seq<Stack>, shipCapacity: int)
      ensures this.balance == balance && this.cargo == cargo && this.shipCapacity == shipCapacity
    {
      this.balance := balance;
      this.cargo := cargo;
      this.shipCapacity := shipCapacity;
    }
  }
}
