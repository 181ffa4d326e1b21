/**
  The bank dialog (src/components/BankModal.tsx): a deposit or withdrawal is passed on
  only when the amount is positive and within the tab's limit, after which the amount
  is cleared and the dialog closes.
*/
module BankModal {
  import opened Maybe

  datatype Tab = DepositTab | WithdrawTab

  /** The check `handleBank` makes before passing the request on. */
  predicate Guard(tab: Tab, amount: int, maxDeposit: int, maxWithdraw: int)
    ensures Guard(tab, amount, maxDeposit, maxWithdraw) ==> 0 < amount <= (if tab == DepositTab then maxDeposit else maxWithdraw)
    ensures amount <= 0 ==> !Guard(tab, amount, maxDeposit, maxWithdraw)
  {
    amount > 0 && ((tab == DepositTab && amount <= maxDeposit) || (tab == WithdrawTab && amount <= maxWithdraw))
  }

  /** The button's `disabled`. */
  predicate Disabled(tab: Tab, amount: int, maxDeposit: int, maxWithdraw: int)
    ensures !Disabled(tab, amount, maxDeposit, maxWithdraw) ==> 1 <= amount <= (if tab == DepositTab then maxDeposit else maxWithdraw)
  {
    amount < 1 || (if tab == DepositTab then amount > maxDeposit else amount > maxWithdraw)
  }

  /** On whole amounts the button is disabled exactly when the guard would refuse. */
  lemma DisabledIsNotGuard(tab: Tab, amount: int, maxDeposit: int, maxWithdraw: int)
    ensures Disabled(tab, amount, maxDeposit, maxWithdraw) <==> !Guard(tab, amount, maxDeposit, maxWithdraw)
  {
  }

  class BankDialog {
    var activeTab: Tab
    var amount: int
    var open: bool

    constructor ()
      ensures activeTab == DepositTab && amount == 0 && !open
    {
      activeTab := DepositTab;
      amount := 0;
      open := false;
    }

    /** `handleBank`: pass `(tab, amount)` on when the guard holds, then clear the
        amount and close; otherwise nothing happens. */
    method HandleBank(maxDeposit: int, maxWithdraw: int) returns (request: Option<(Tab, int)>)
      modifies this`amount, this`open
      ensures request.Some? <==> Guard(activeTab, old(amount), maxDeposit, maxWithdraw)
      ensures request.Some? ==> request.value == (activeTab, old(amount)) && amount == 0 && !open
      ensures request.Some? ==> 0 < request.value.1 <= (if activeTab == DepositTab then maxDeposit else maxWithdraw)
      ensures request.None? ==> amount == old(amount) && open == old(open)
    {
      request := None;
      if amount > 0 && ((activeTab == DepositTab && amount <= maxDeposit) || (activeTab == WithdrawTab && amount <= maxWithdraw)) {
        request := Some((activeTab, amount));
        amount := 0;
        open := false;
      }
    }
  }
}
