/**
  The capacity-doubling offer (src/hooks/useCargoExpansion.ts): from the second day
  on, a player holding at least 6000 coins is offered, with probability 0.4, a hold
  twice the size; accepting sets the new capacity, declining discards the offer.
*/
module CargoExpansion {
  import opened Maybe
  import opened Ledger

  datatype Offer = Offer(price: real, newCapacity: int)

  /** `Math.min(Math.max(5000, balance * 0.1), balance * 0.5)`. */
  function OfferPrice(balance: int): (p: real)
    ensures p <= balance as real * 0.5
    ensures p >= (if 5000.0 <= balance as real * 0.5 then 5000.0 else balance as real * 0.5)
    ensures balance >= 6000 ==> 0.0 < p < balance as real
  {
    var b := balance as real;
    var atLeast := if 5000.0 >= b * 0.1 then 5000.0 else b * 0.1;
    if atLeast <= b * 0.5 then atLeast else b * 0.5
  }

  class Expansion {
    /** `cargoExpansionOffer`. */
    var offer: Option<Offer>
    /** `cargoExpansionModalOpen`. */
    var modalOpen: bool

    constructor ()
      ensures offer == None && !modalOpen
    {
      offer := None;
      modalOpen := false;
    }

    /** `maybeShowCargoExpansion`: nothing on the first day, below 6000 coins, or when
        the draw `u` is not under 0.4; otherwise a fresh offer replaces any pending one
        and the dialog opens. */
    method MaybeShow(newDay: int, balance: int, shipCapacity: int, u: real) returns (offered: bool)
      requires 0.0 <= u < 1.0
      modifies this
      ensures offered <==> newDay > 1 && balance >= 6000 && u < 0.4
      ensures offered ==> offer == Some(Offer(OfferPrice(balance), shipCapacity * 2)) && modalOpen
      ensures !offered ==> offer == old(offer) && modalOpen == old(modalOpen)
    {
      offered := false;
      if newDay > 1 {
        if balance < 6000 {
          return;
        }
        if u < 0.4 {
          offer := Some(Offer(OfferPrice(balance), shipCapacity * 2));
          modalOpen := true;
          offered := true;
        }
      }
    }

    /** `acceptCargoExpansion`: with an offer pending, take its capacity and close; the
        price is not charged. Without one, nothing happens. */
    method Accept(ledger: Ledger)
      modifies this, ledger`shipCapacity
      ensures old(offer).Some? ==>
        ledger.shipCapacity == old(offer).value.newCapacity && offer == None && !modalOpen
      ensures old(offer).None? ==>
        ledger.shipCapacity == old(ledger.shipCapacity) && offer == None && modalOpen == old(modalOpen)
    {
      if offer.Some? {
        ledger.shipCapacity := offer.value.newCapacity;
        offer := None;
        modalOpen := false;
      }
    }

    /** `declineCargoExpansion`: discard the offer and close. */
    method Decline()
      modifies this
      ensures offer == None && !modalOpen
    {
      offer := None;
      modalOpen := false;
    }
  }

  /** An accepted offer doubles the capacity the offer was made for, and the balance
      that qualified for it always covers its price. */
  lemma OfferDoubles(balance: int, shipCapacity: int)
    requires balance >= 6000
    ensures var o := Offer(OfferPrice(balance), shipCapacity * 2);
      o.newCapacity == 2 * shipCapacity && o.price < balance as real
      && (balance <= 10000 ==> o.price == balance as real * 0.5)
      && (10000 <= balance <= 50000 ==> o.price == 5000.0)
      && (balance >= 50000 ==> o.price == balance as real * 0.1)
  {
  }
}
