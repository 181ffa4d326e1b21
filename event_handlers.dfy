/**
  Risk-event resolution (src/hooks/useEventHandlers.ts): the storm and deserted-ships
  events that resolve on their own, the pirate encounter that waits for a choice, and
  the player's choices (escape, negotiate, fight, and the storm choices throw and
  brave). The hook writes the balance and the hold through the game's setters (the
  `Ledger`), the event payload through the dialog's setters, and pauses the voyage.
*/
module EventHandlers {
  import opened Cargo
  import opened CargoLoss
  import opened Events
  import opened Maybe
  import opened Sailing
  import opened Ledger
  import JsMath

  // ------------------------------------------------------------------ draws

  /** `base + Math.floor(Math.random() * span)`: a whole number in `[base, base + span)`. */
  function Draw(base: int, span: int, u: real): (r: int)
    requires span >= 1 && 0.0 <= u < 1.0
    ensures base <= r < base + span
  {
    base + JsMath.RandomIndex(span, u)
  }

  /** `Math.max(0, b - toll)`: a toll takes what it asks or leaves the purse empty,
      never less than nothing. */
  function Pay(balance: int, toll: int): (r: int)
    ensures r >= 0
    ensures balance >= toll ==> r == balance - toll
    ensures balance < toll ==> r == 0
  {
    Max(0, balance - toll)
  }

  /** The storm's loss share `0.1 + Math.random() * 0.2`. */
  function StormFraction(u: real): (f: real)
    requires 0.0 <= u < 1.0
    ensures 0.1 <= f < 0.3
  {
    0.1 + u * 0.2
  }

  /** The pirates' share after a failed escape, `0.3 + Math.random() * 0.5`. */
  function PlunderFraction(u: real): (f: real)
    requires 0.0 <= u < 1.0
    ensures 0.3 <= f < 0.8
  {
    0.3 + u * 0.5
  }

  // ------------------------------------------------------------------ storm

  /** `handleStormEvent`: with an empty hold nothing happens (the dialog does not open
      and the voyage is not paused); otherwise a share of the hold is drained first-fit
      and the loss is reported. */
  method HandleStormEvent(ledger: Ledger, dialog: EventDialog, sailing: SailingState, u: real)
    requires 0.0 <= u < 1.0
    modifies ledger`cargo, dialog`data, dialog`open, sailing`paused
    ensures Total(old(ledger.cargo)) == 0 ==>
      && ledger.cargo == old(ledger.cargo) && dialog.data == old(dialog.data)
      && dialog.open == old(dialog.open) && sailing.paused == old(sailing.paused)
    ensures Total(old(ledger.cargo)) != 0 ==>
      var d := FirstFit(old(ledger.cargo), LossQuota(Total(old(ledger.cargo)), StormFraction(u)));
      && ledger.cargo == d.cargo
      && dialog.data == EventData("Storm", StormLoss(d.lost), [])
      && dialog.open && sailing.paused
  {
    var totalCargo := Total(ledger.cargo);
    if totalCargo == 0 {
      return;
    }
    var actualLoss := LossQuota(totalCargo, StormFraction(u));
    var updatedCargo, cargoLost := DrainFirstFit(ledger.cargo, actualLoss);
    ledger.cargo := updatedCargo;
    dialog.data := EventData("Storm", StormLoss(cargoLost), []);
    dialog.open := true;
    sailing.PauseSailing();
  }

  /** A storm on a loaded hold throws overboard exactly `max(1, floor(total * share))`
      units, at least one and at most the whole hold, first-fit in hold order; the list
      of losses adds up to the same amount and no good goes negative. */
  lemma StormLossExact(cargo: seq<Stack>, u: real)
    requires 0.0 <= u < 1.0 && NonNegative(cargo) && Total(cargo) != 0
    ensures var q := LossQuota(Total(cargo), StormFraction(u));
      var d := FirstFit(cargo, q);
      && 1 <= q <= Total(cargo)
      && Total(d.cargo) == Total(cargo) - q
      && Total(d.lost) == q
      && SameKinds(d.cargo, cargo)
      && (forall i :: 0 <= i < |cargo| ==> 0 <= d.cargo[i].amount <= cargo[i].amount)
      && (forall i, j :: 0 <= j < i < |cargo| && d.cargo[i].amount < cargo[i].amount ==> d.cargo[j].amount == 0)
  {
    TotalNonNegative(cargo);
    var q := LossQuota(Total(cargo), StormFraction(u));
    FirstFitTotals(cargo, q);
    FirstFitBounded(cargo, q);
    FirstFitOrder(cargo, q);
  }

  // --------------------------------------------------------- deserted ships

  const SALVAGE_KINDS: seq<string> := ["Wheat", "Olives", "Copper"]

  function SalvageKind(u: real): (k: string)
    requires 0.0 <= u < 1.0
    ensures k in SALVAGE_KINDS
  {
    SALVAGE_KINDS[JsMath.RandomIndex(|SALVAGE_KINDS|, u)]
  }

  /** Tons found: `Math.floor(worth * (0.05 + u * 0.15) / price)`, a 5-20% share of the
      player's worth in units of the drawn good. */
  function SalvageUnits(worth: int, u: real, price: int): (n: int)
    requires price > 0 && 0.0 <= u < 1.0
    ensures worth >= 0 ==> 0 <= n && n as real * price as real <= worth as real * 0.2
    ensures worth >= 20 * price ==> n >= 1
  {
    var share := 0.05 + u * 0.15;
    var x := worth as real * share / price as real;
    SalvageUnitsBounds(worth as real, share, price as real, x);
    x.Floor
  }

  lemma SalvageUnitsBounds(w: real, share: real, p: real, x: real)
    requires p >= 1.0 && 0.05 <= share < 0.2 && x == w * share / p
    ensures w >= 0.0 ==> 0.0 <= x && x * p <= w * 0.2
    ensures w >= 20.0 * p ==> x >= 1.0
  {
    assert x * p == w * share;
    if w >= 0.0 {
      assert w * share <= w * 0.2;
    }
    if w >= 20.0 * p {
      assert w * share >= 20.0 * p * 0.05;
    }
  }

  /** The outcome of `handleDesertedShipsEvent`: the player's worth (balance plus cargo
      value) times a 5-20% share `0.05 + u1 * 0.15`, turned into tons of a drawn good
      at the destination port's price, and capped by the free space in the hold. The
      checks come in the source's order: a full hold, no destination, no usable price,
      nothing worth taking. */
  function SalvageOutcome(balance: int, cargoValue: int, cargo: seq<Stack>, shipCapacity: int,
                          voyage: Option<Voyage>, prices: map<string, map<string, int>>,
                          u1: real, u2: real): (n: Narrative)
    requires 0.0 <= u1 < 1.0 && 0.0 <= u2 < 1.0
    ensures n.Salvaged? || n == HoldFull || n == CurrentsBlock || n == AlreadyLooted || n == NothingFound
    ensures n != HoldFull <==> shipCapacity - Total(cargo) > 0
    ensures n.Salvaged? ==>
      && 0 < n.amount <= shipCapacity - Total(cargo)
      && n.kind == SalvageKind(u2)
      && voyage.Some? && voyage.value.to in prices && n.kind in prices[voyage.value.to]
      && prices[voyage.value.to][n.kind] > 0
      && n.amount == Min(SalvageUnits(balance + cargoValue, u1, prices[voyage.value.to][n.kind]),
                         shipCapacity - Total(cargo))
    ensures n.Salvaged? && balance + cargoValue >= 0 ==>
      n.amount as real * prices[voyage.value.to][n.kind] as real <= (balance + cargoValue) as real * 0.2
    ensures shipCapacity - Total(cargo) > 0 && voyage.Some? && voyage.value.to != ""
      && voyage.value.to in prices && SalvageKind(u2) in prices[voyage.value.to]
      && 0 < prices[voyage.value.to][SalvageKind(u2)]
      && 20 * prices[voyage.value.to][SalvageKind(u2)] <= balance + cargoValue
      ==> n.Salvaged? && n.kind == SalvageKind(u2)
  {
    var availableSpace := shipCapacity - Total(cargo);
    if availableSpace <= 0 then HoldFull
    else if voyage.None? || voyage.value.to == "" then CurrentsBlock
    else
      var destination := voyage.value.to;
      var kind := SalvageKind(u2);
      if destination !in prices || kind !in prices[destination] || prices[destination][kind] <= 0 then
        AlreadyLooted
      else
        var units := SalvageUnits(balance + cargoValue, u1, prices[destination][kind]);
        var gainAmount := Min(units, availableSpace);
        ScaleDown(gainAmount, units, prices[destination][kind]);
        if gainAmount <= 0 then NothingFound else Salvaged(kind, gainAmount)
  }

  lemma ScaleDown(a: int, b: int, p: int)
    requires a <= b && p > 0
    ensures a as real * p as real <= b as real * p as real
  {
  }

  /** `handleDesertedShipsEvent`: every outcome opens the dialog and pauses; only a
      salvage changes the hold, depositing the gain on the drawn good. */
  method HandleDesertedShipsEvent(ledger: Ledger, dialog: EventDialog, sailing: SailingState,
                                  prices: map<string, map<string, int>>, cargoValue: int, u1: real, u2: real)
    requires 0.0 <= u1 < 1.0 && 0.0 <= u2 < 1.0
    modifies ledger`cargo, dialog`data, dialog`open, sailing`paused
    ensures var n := SalvageOutcome(old(ledger.balance), cargoValue, old(ledger.cargo), old(ledger.shipCapacity),
                                    old(sailing.voyage), prices, u1, u2);
      && dialog.data == EventData("Deserted Ships", n, [])
      && ledger.cargo == (if n.Salvaged? then Deposit(old(ledger.cargo), n.kind, n.amount) else old(ledger.cargo))
    ensures dialog.open && sailing.paused
  {
    var cargo := ledger.cargo;
    var balance := ledger.balance;
    var totalValue := balance + cargoValue;
    var availableSpace := ledger.shipCapacity - Total(cargo);
    var voyage := sailing.voyage;
    var description: Narrative;
    if availableSpace <= 0 {
      description := HoldFull;
    } else if voyage.None? || voyage.value.to == "" {
      description := CurrentsBlock;
    } else {
      var destination := voyage.value.to;
      var randomType := SalvageKind(u2);
      if destination !in prices || randomType !in prices[destination] || prices[destination][randomType] <= 0 {
        description := AlreadyLooted;
      } else {
        var price := prices[destination][randomType];
        var gainAmount := SalvageUnits(totalValue, u1, price);
        gainAmount := Min(gainAmount, availableSpace);
        if gainAmount <= 0 {
          description := NothingFound;
        } else {
          ledger.cargo := Deposit(cargo, randomType, gainAmount);
          description := Salvaged(randomType, gainAmount);
        }
      }
    }
    assert description == SalvageOutcome(balance, cargoValue, cargo, old(ledger.shipCapacity),
                                         voyage, prices, u1, u2);
    dialog.data := EventData("Deserted Ships", description, []);
    dialog.open := true;
    sailing.PauseSailing();
  }

  /** A salvage raises the drawn good by exactly the gain (appending it when the hold
      did not list it), leaves every other good as it was, and on a hold that lists
      each good once never fills it past its capacity. */
  lemma SalvageEffect(cargo: seq<Stack>, shipCapacity: int, kind: string, gain: int, other: string)
    requires 0 < gain <= shipCapacity - Total(cargo) && other != kind
    ensures AmountOf(Deposit(cargo, kind, gain), kind) == AmountOf(cargo, kind) + gain
    ensures AmountOf(Deposit(cargo, kind, gain), other) == AmountOf(cargo, other)
    ensures !Has(cargo, kind) ==> Deposit(cargo, kind, gain) == cargo + [Stack(kind, gain)]
    ensures UniqueKinds(cargo) ==> Total(Deposit(cargo, kind, gain)) <= shipCapacity
  {
    DepositAmount(cargo, kind, gain);
    DepositOthers(cargo, kind, gain, other);
    DepositShape(cargo, kind, gain);
    if UniqueKinds(cargo) {
      DepositTotal(cargo, kind, gain);
    }
  }

  // ------------------------------------------------------------ dispatch

  /** `triggerEvent`: storms and deserted ships resolve at once, with the effects of
      their handlers on the hold and the dialog; a pirate encounter opens the dialog
      with the three choices and leaves the hold alone. */
  method TriggerEvent(risk: Risk, ledger: Ledger, dialog: EventDialog, sailing: SailingState,
                      prices: map<string, map<string, int>>, cargoValue: int, u1: real, u2: real)
    requires 0.0 <= u1 < 1.0 && 0.0 <= u2 < 1.0
    modifies ledger`cargo, dialog`data, dialog`open, sailing`paused
    ensures risk == Pirate ==>
      && dialog.data == EventData("Pirate", PirateApproach, PIRATE_OPTIONS)
      && ledger.cargo == old(ledger.cargo)
    ensures risk != Pirate ==> dialog.data == old(dialog.data) || dialog.data.options == []
    ensures risk == Storm && Total(old(ledger.cargo)) == 0 ==>
      ledger.cargo == old(ledger.cargo) && dialog.data == old(dialog.data) && dialog.open == old(dialog.open) && sailing.paused == old(sailing.paused)
    ensures !(risk == Storm && Total(old(ledger.cargo)) == 0) ==> dialog.open && sailing.paused
    ensures dialog.data != old(dialog.data) ==> dialog.data.kind == RiskName(risk)
    ensures risk == Storm && Total(old(ledger.cargo)) != 0 ==>
      var d := FirstFit(old(ledger.cargo), LossQuota(Total(old(ledger.cargo)), StormFraction(u1)));
      && ledger.cargo == d.cargo
      && dialog.data == EventData("Storm", StormLoss(d.lost), [])
    ensures risk == DesertedShips ==>
      var n := SalvageOutcome(old(ledger.balance), cargoValue, old(ledger.cargo), old(ledger.shipCapacity),
                              old(sailing.voyage), prices, u1, u2);
      && dialog.data == EventData("Deserted Ships", n, [])
      && ledger.cargo == (if n.Salvaged? then Deposit(old(ledger.cargo), n.kind, n.amount) else old(ledger.cargo))
  {
    match risk
    case Storm =>
      HandleStormEvent(ledger, dialog, sailing, u1);
    case DesertedShips =>
      HandleDesertedShipsEvent(ledger, dialog, sailing, prices, cargoValue, u1, u2);
    case Pirate =>
      dialog.data := EventData("Pirate", PirateApproach, PIRATE_OPTIONS);
      dialog.open := true;
      sailing.PauseSailing();
  }

  // --------------------------------------------------------------- choices

  /** What a choice led to, in place of the sentence the dialog shows. */
  datatype Outcome =
    | Escaped
    | EscapeRansom(toll: int)
    | EscapeLooted(lost: seq<Stack>)
    | NegotiateToll(toll: int)
    | NegotiateTribute
    | FightWon(plunder: int)
    | FightToll(toll: int)
    | FightTribute
    | Jettisoned(units: int)
    | StormDamage(stormy: bool, units: int)
    | SafePassage
    | Silent

  /** The balance and hold after a choice, and its outcome. */
  datatype Effect = Effect(balance: int, cargo: seq<Stack>, outcome: Outcome)

  /** 45% to slip away, 52% when the voyage's drawn risk is pirates. */
  function EscapeChance(voyage: Option<Voyage>): (p: real)
    ensures p == 0.45 || p == 0.52
  {
    0.45 + (if voyage.Some? && voyage.value.risk == Some(Pirate) then 0.07 else 0.0)
  }

  /** Specification of `handleEventOption` for the draws `u1` (the first
      `Math.random()` of the branch) and `u2` (the second). */
  function OptionEffect(val: string, balance: int, cargo: seq<Stack>, voyage: Option<Voyage>,
                        weather: string, u1: real, u2: real): (e: Effect)
    requires 0.0 <= u1 < 1.0 && 0.0 <= u2 < 1.0
    ensures balance >= 0 ==> e.balance >= 0
    ensures balance >= 0 ==> (e.balance > balance <==> val == "fight" && u1 < 0.18)
    ensures e.balance != balance ==> e.cargo == cargo
    ensures SameKinds(e.cargo, cargo)
  {
    if val == "escape" then
      if u1 < EscapeChance(voyage) then Effect(balance, cargo, Escaped)
      else if Total(cargo) == 0 then
        var toll := Draw(200, 300, u2);
        Effect(Pay(balance, toll), cargo, EscapeRansom(toll))
      else
        var d := Plunder(cargo, LossQuota(Total(cargo), PlunderFraction(u2)));
        Effect(balance, d.cargo, EscapeLooted(d.lost))
    else if val == "negotiate" then
      if Total(cargo) == 0 then
        var toll := Draw(150, 200, u1);
        Effect(Pay(balance, toll), cargo, NegotiateToll(toll))
      else Effect(balance, LoseOneEach(cargo), NegotiateTribute)
    else if val == "fight" then
      if u1 < 0.18 then
        var plunder := Draw(350, 400, u2);
        Effect(balance + plunder, cargo, FightWon(plunder))
      else if Total(cargo) == 0 then
        var toll := Draw(100, 200, u2);
        Effect(Pay(balance, toll), cargo, FightToll(toll))
      else Effect(balance, LoseOneEach(cargo), FightTribute)
    else if val == "throw" then
      var toLose := Draw(2, 2, u1);
      Effect(balance, FirstFit(cargo, toLose).cargo, Jettisoned(toLose))
    else if val == "brave" then
      var stormy := weather == "Stormy";
      if u1 < (if stormy then 0.85 else 0.55) then
        var toLose := Draw(3, 3, u2);
        Effect(balance, FirstFit(cargo, toLose).cargo, StormDamage(stormy, toLose))
      else Effect(balance, cargo, SafePassage)
    else Effect(balance, cargo, Silent)
  }

  /** `handleEventOption`: resolve the player's choice against the balance and hold. */
  method HandleEventOption(val: string, ledger: Ledger, voyage: Option<Voyage>, weather: string, u1: real, u2: real)
    returns (outcome: Outcome)
    requires 0.0 <= u1 < 1.0 && 0.0 <= u2 < 1.0
    modifies ledger`balance, ledger`cargo
    ensures var e := OptionEffect(val, old(ledger.balance), old(ledger.cargo), voyage, weather, u1, u2);
      ledger.balance == e.balance && ledger.cargo == e.cargo && outcome == e.outcome
  {
    outcome := Silent;
    if val == "escape" {
      if u1 < EscapeChance(voyage) {
        outcome := Escaped;
      } else {
        var totalCargo := Total(ledger.cargo);
        if totalCargo == 0 {
          var coinLoss := Draw(200, 300, u2);
          ledger.balance := Max(0, ledger.balance - coinLoss);
          outcome := EscapeRansom(coinLoss);
        } else {
          var totalToLose := LossQuota(totalCargo, PlunderFraction(u2));
          var updatedCargo, cargoLost := TakeLargestFirst(ledger.cargo, totalToLose);
          ledger.cargo := updatedCargo;
          outcome := EscapeLooted(cargoLost);
        }
      }
    } else if val == "negotiate" {
      if Total(ledger.cargo) == 0 {
        var coinLoss := Draw(150, 200, u1);
        ledger.balance := Max(0, ledger.balance - coinLoss);
        outcome := NegotiateToll(coinLoss);
      } else {
        ledger.cargo := LoseOneEach(ledger.cargo);
        outcome := NegotiateTribute;
      }
    } else if val == "fight" {
      if u1 < 0.18 {
        var plunder := Draw(350, 400, u2);
        ledger.balance := ledger.balance + plunder;
        outcome := FightWon(plunder);
      } else if Total(ledger.cargo) == 0 {
        var coinLoss := Draw(100, 200, u2);
        ledger.balance := Max(0, ledger.balance - coinLoss);
        outcome := FightToll(coinLoss);
      } else {
        ledger.cargo := LoseOneEach(ledger.cargo);
        outcome := FightTribute;
      }
    } else if val == "throw" {
      var toLose := Draw(2, 2, u1);
      var updatedCargo, _ := DrainFirstFit(ledger.cargo, toLose);
      ledger.cargo := updatedCargo;
      outcome := Jettisoned(toLose);
    } else if val == "brave" {
      var stormy := weather == "Stormy";
      var lossChance := if stormy then 0.85 else 0.55;
      if u1 < lossChance {
        var toLose := Draw(3, 3, u2);
        var updatedCargo, _ := DrainFirstFit(ledger.cargo, toLose);
        ledger.cargo := updatedCargo;
        outcome := StormDamage(stormy, toLose);
      } else {
        outcome := SafePassage;
      }
    }
  }

  /** Coins: a toll is 200-499 after a failed escape, 150-349 to negotiate and 100-299
      after a lost fight, and takes `max(0, b - toll)`; a won fight brings 350-749;
      nothing else touches the purse. So a purse that is not negative never becomes
      negative. */
  lemma OptionCoins(val: string, balance: int, cargo: seq<Stack>, voyage: Option<Voyage>, weather: string, u1: real, u2: real)
    requires 0.0 <= u1 < 1.0 && 0.0 <= u2 < 1.0
    ensures var e := OptionEffect(val, balance, cargo, voyage, weather, u1, u2);
      && (e.outcome.EscapeRansom? ==> 200 <= e.outcome.toll <= 499 && e.balance == Max(0, balance - e.outcome.toll))
      && (e.outcome.NegotiateToll? ==> 150 <= e.outcome.toll <= 349 && e.balance == Max(0, balance - e.outcome.toll))
      && (e.outcome.FightToll? ==> 100 <= e.outcome.toll <= 299 && e.balance == Max(0, balance - e.outcome.toll))
      && (e.outcome.FightWon? ==> 350 <= e.outcome.plunder <= 749 && e.balance == balance + e.outcome.plunder)
      && (!e.outcome.EscapeRansom? && !e.outcome.NegotiateToll? && !e.outcome.FightToll? && !e.outcome.FightWon? ==>
            e.balance == balance)
      && (balance >= 0 ==> e.balance >= 0)
  {
  }

  /** Tolls are charged only on an empty hold, and then leave it as it is; goods are
      handed over as tribute (`LoseOneEach`, one unit of every good that has any) only
      from a loaded one. */
  lemma TollOrTribute(val: string, balance: int, cargo: seq<Stack>, voyage: Option<Voyage>, weather: string, u1: real, u2: real)
    requires 0.0 <= u1 < 1.0 && 0.0 <= u2 < 1.0
    ensures var e := OptionEffect(val, balance, cargo, voyage, weather, u1, u2);
      && (e.outcome.EscapeRansom? || e.outcome.NegotiateToll? || e.outcome.FightToll? ==>
            Total(cargo) == 0 && e.cargo == cargo)
      && (e.outcome == NegotiateTribute || e.outcome == FightTribute ==>
            Total(cargo) != 0 && e.cargo == LoseOneEach(cargo) && e.balance == balance)
  {
  }

  /** A failed escape with cargo aboard loses exactly `max(1, floor(total * share))`
      units, between one and the whole hold, the first of them from the largest good,
      and no good loses units before every good that outranks it is emptied; no good
      goes negative or grows. */
  lemma EscapeLoss(balance: int, cargo: seq<Stack>, voyage: Option<Voyage>, weather: string, u1: real, u2: real)
    requires 0.0 <= u1 < 1.0 && 0.0 <= u2 < 1.0 && NonNegative(cargo)
    requires OptionEffect("escape", balance, cargo, voyage, weather, u1, u2).outcome.EscapeLooted?
    ensures var e := OptionEffect("escape", balance, cargo, voyage, weather, u1, u2);
      var q := LossQuota(Total(cargo), PlunderFraction(u2));
      && 1 <= q <= Total(cargo)
      && Total(e.cargo) == Total(cargo) - q
      && Total(e.outcome.lost) == q
      && SameKinds(e.cargo, cargo) && NonNegative(e.cargo)
      && (forall i :: 0 <= i < |cargo| ==> e.cargo[i].amount <= cargo[i].amount)
      && (exists i :: IsLargest(cargo, i) && e.outcome.lost[0] == Stack(cargo[i].kind, Min(cargo[i].amount, q)))
      && (forall i, j | 0 <= i < |cargo| && 0 <= j < |cargo| && i != j
            && e.cargo[j].amount < cargo[j].amount && Outranks(cargo, i, j) :: e.cargo[i].amount == 0)
  {
    TotalNonNegative(cargo);
    var q := LossQuota(Total(cargo), PlunderFraction(u2));
    PlunderRemoves(cargo, q);
    PlunderStartsAtLargest(cargo, q);
    PlunderOrder(cargo, q);
  }

  /** Throwing cargo overboard takes 2 or 3 units, braving the storm (when it goes
      badly) 3 to 5, first-fit in hold order, and never more than the hold carries. */
  lemma StormChoiceLoss(val: string, balance: int, cargo: seq<Stack>, voyage: Option<Voyage>, weather: string, u1: real, u2: real)
    requires 0.0 <= u1 < 1.0 && 0.0 <= u2 < 1.0 && NonNegative(cargo)
    requires val == "throw" || val == "brave"
    ensures var e := OptionEffect(val, balance, cargo, voyage, weather, u1, u2);
      && (e.outcome.Jettisoned? ==>
            2 <= e.outcome.units <= 3 && Total(e.cargo) == Total(cargo) - Min(e.outcome.units, Total(cargo)))
      && (e.outcome.StormDamage? ==>
            3 <= e.outcome.units <= 5 && Total(e.cargo) == Total(cargo) - Min(e.outcome.units, Total(cargo)))
      && (e.outcome == SafePassage ==> e.cargo == cargo)
      && e.balance == balance
  {
    var e := OptionEffect(val, balance, cargo, voyage, weather, u1, u2);
    if e.outcome.Jettisoned? || e.outcome.StormDamage? {
      FirstFitTotals(cargo, e.outcome.units);
    }
  }

  /** `translateGoodType`: the three goods in Hebrew, anything else as is. */
  function TranslateGoodType(kind: string): (s: string)
    ensures kind !in {"Wheat", "Olives", "Copper"} ==> s == kind
    ensures kind in {"Wheat", "Olives", "Copper"} ==> s != kind
  {
    if kind == "Wheat" then "חיטה"
    else if kind == "Olives" then "זיתים"
    else if kind == "Copper" then "נחושת"
    else kind
  }
}
