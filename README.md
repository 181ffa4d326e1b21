# Mediterranean market voyage — the voyage economy in Dafny

This project models the economy of a browser trading game set in the eastern
Mediterranean. The player holds a purse and a hold of goods (Wheat, Olives,
Copper), trades in port markets, banks coins, hires escort ships and sails
between Israel, Turkey, Egypt, Cyprus and Greece. Each voyage may meet
pirates, a storm or deserted ships, and the player's choice resolves the
encounter. Over seven days the clock moves Morning, Midday, Evening, Night.
At the end a top-ten leaderboard keeps the best scores.

Each source file of the core becomes one Dafny module:

- Hooks that keep state (sailing, cargo expansion, escorts, the game-logic
  hook, the index page and the dialogs) are classes. Their methods update
  fields in place and are proved against specification functions.
- Pure helpers (pricing, formatting, leaderboard ordering, cargo arithmetic)
  are datatypes, functions and lemmas.
- The state cells shared by the event handlers and the trade hook (balance,
  cargo, ship capacity) form the class `Ledger.Ledger`.
- A cargo hold is a `seq<Stack>`, a list of (kind, amount) pairs, as in the
  source.

Every `Math.random()` draw is an explicit `real` parameter `u` with
`0 <= u < 1`, so `Math.floor(Math.random() * n)` becomes `(u * n).Floor`.
`Math.round(x)` is `JsMath.Round`, that is `floor(x + 0.5)`. The truncating
`%` of JavaScript is written out in `GameHeader.JsRem`.

React state updaters are modelled as applied once, one after the other.
Callbacks deferred with `setTimeout` are applied immediately. Toasts are
dropped.

## Model

| member | source | states |
|---|---|---|
| GameHelpers.InitialCargoEmpty | src/utils/gameHelpers.ts:3-7 | the starting hold lists Wheat, Olives and Copper, all at amount 0 |
| GameHelpers.RandomWeather | src/utils/gameHelpers.ts:16-18 | the drawn weather is always one of Sunny, Stormy, Overcast |
| GameHelpers.EveryWeatherDrawn | src/utils/gameHelpers.ts:16-18 | every weather name is produced by some draw |
| GameHelpers.ValueOfDigits | src/utils/gameHelpers.ts:21 | number-to-text support for the clock label, standing in for the JavaScript runtime: the decimal text of a number reads back as that number |
| GameHelpers.DigitsNoLeadingZero | src/utils/gameHelpers.ts:21 | number-to-text support (runtime, not a game rule): the text of a positive number does not start with '0' |
| GameHelpers.DigitsLength | src/utils/gameHelpers.ts:21 | number-to-text support (runtime, not a game rule): numbers below 10 have one digit, 10 to 99 two, larger ones at least three |
| GameHelpers.PadStart | src/utils/gameHelpers.ts:21 | padding adds only leading '0's, up to the width, and never cuts a longer text |
| GameHelpers.FormatTime | src/utils/gameHelpers.ts:20-22 | a time label always ends in ":00" and has at least five characters |
| GameHelpers.FormatTimeTwoDigits | src/utils/gameHelpers.ts:20-22 | hours 0 to 99 give five characters, with a leading '0' exactly below 10, and the hour reads back from the first two |
| GameHelpers.FormatTimeWide | src/utils/gameHelpers.ts:20-22 | hours of three or more digits are written in full, followed by ":00" |
| JsMath.Round | src/hooks/useSailing.ts:37 | `Math.round` lands within one half of its argument |
| JsMath.RandomIndex | src/utils/gameHelpers.ts:17 | `floor(u * n)` is a valid index below n |
| Pricing.Steps | src/utils/pricing.ts:7 | the step count is the number of multiples of 5 from min that do not pass max |
| Pricing.Price | src/utils/pricing.ts:6-10 | a price lies in [min, max] and is min plus a multiple of 5 |
| Pricing.PriceReaches | src/utils/pricing.ts:6-10 | every price on the 5-grid between min and max is drawn by some u |
| Pricing.PriceIsPoint | src/utils/pricing.ts:8 | every drawn price is min + 5k for some k from 0 to (max-min)/5 |
| Pricing.GeneratePrices | src/utils/pricing.ts:12-16 | the three prices stay in the bands 35-200, 70-400 and 150-1000, each a multiple of 5 |
| Pricing.AsMap | src/utils/pricing.ts:12-16 | the price record has exactly the keys Wheat, Olives and Copper, with their prices |
| Pricing.BandTopsReachable | src/utils/pricing.ts:13-15 | the top of each band (200, 400, 1000) can be drawn |
| Cargo.TotalNonNegative | src/hooks/useSailing.ts:47 | a hold without negative amounts has total at least 0, and the total is 0 exactly when every amount is 0 |
| Cargo.AmountOf | src/components/MarketModal.tsx:42 | the amount held of a good is 0 when the hold does not list it, and never negative on a hold without negative amounts |
| Cargo.Deposit | src/hooks/useMarketTrade.ts:25-32 | after a purchase the hold lists the good, keeps every earlier entry's kind in place, and grows by at most one entry |
| Cargo.Withdraw | src/hooks/useMarketTrade.ts:36-40 | a sale keeps the hold's list of kinds, position by position |
| Cargo.DepositAmount | src/hooks/useMarketTrade.ts:25-32 | buying raises the good's amount by the quantity, or appends the good when it was absent |
| Cargo.DepositOthers | src/hooks/useMarketTrade.ts:25-32 | buying leaves every other good's amount unchanged |
| Cargo.DepositShape | src/hooks/useMarketTrade.ts:25-32 | buying keeps the list of kinds when the good is present, and adds one entry when it is absent |
| Cargo.DepositTotal | src/hooks/useMarketTrade.ts:25-32 | buying raises the hold's total by exactly the quantity |
| Cargo.DepositUnique | src/hooks/useMarketTrade.ts:25-32 | buying keeps each kind listed at most once |
| Cargo.WithdrawAmount | src/hooks/useMarketTrade.ts:36-40 | selling lowers the good to max(0, amount - quantity) |
| Cargo.WithdrawOthers | src/hooks/useMarketTrade.ts:36-40 | selling leaves every other good's amount unchanged |
| Cargo.WithdrawAfterDeposit | src/hooks/useMarketTrade.ts:21-43 | selling what was just bought restores the hold; if the good was absent, a zero entry remains |
| Cargo.LoseOneEach | src/hooks/useEventHandlers.ts:233-238 | paying tribute keeps the kinds and lowers no amount below zero |
| Cargo.LoseOneEachEffect | src/hooks/useEventHandlers.ts:233-238 | tribute removes one unit from each loaded good, so the total drops by the number of loaded goods |
| CargoLoss.LossQuota | src/hooks/useEventHandlers.ts:23-25 | the storm quota is at least 1 and, for a loaded hold, at most its total |
| CargoLoss.FirstFit | src/hooks/useEventHandlers.ts:31-41 | the first-fit loss keeps the list of kinds |
| CargoLoss.FirstFitBounded | src/hooks/useEventHandlers.ts:31-41 | no good grows and none goes below zero |
| CargoLoss.FirstFitTotals | src/hooks/useEventHandlers.ts:31-41 | exactly min(max(quota, 0), total) units are lost, and the hold shrinks by that much |
| CargoLoss.FirstFitOrder | src/hooks/useEventHandlers.ts:31-41 | a good loses units only after every earlier good has been emptied |
| CargoLoss.DrainFirstFit | src/hooks/useEventHandlers.ts:31-41 | the draining loop computes exactly the first-fit hold and list of losses |
| CargoLoss.LargestIndexSpec | src/hooks/useEventHandlers.ts:194-196 | the chosen good has the largest amount, and it is the first good with that amount |
| CargoLoss.LargestUnique | src/hooks/useEventHandlers.ts:194-196 | only one index is the first largest good |
| CargoLoss.FindLargest | src/hooks/useEventHandlers.ts:194-196 | the search loop returns the first good with the largest amount |
| CargoLoss.Plunder | src/hooks/useEventHandlers.ts:192-212 | the largest-first loss keeps the list of kinds; its totals (PlunderRemoves), first stack (PlunderStartsAtLargest) and full order (PlunderOrder) are proved in the lemmas beside it |
| CargoLoss.PlunderRemoves | src/hooks/useEventHandlers.ts:192-212 | looting takes exactly min(quota, total) units, keeps the kinds and grows no good |
| CargoLoss.PlunderStartsAtLargest | src/hooks/useEventHandlers.ts:192-212 | the first unit looted comes from the first largest good |
| CargoLoss.PlunderOrder | src/hooks/useEventHandlers.ts:192-212 | a stack loses units only after every stack that outranks it (more units, or as many and earlier) has been emptied |
| CargoLoss.TakeLargestFirst | src/hooks/useEventHandlers.ts:192-212 | the looting loop computes exactly the largest-first loss |
| EventHandlers.Draw | src/hooks/useEventHandlers.ts:181-182 | `base + floor(u * span)` lies in [base, base + span) |
| EventHandlers.Pay | src/hooks/useEventHandlers.ts:182 | a toll leaves balance - toll when covered, otherwise 0, and never a negative balance |
| EventHandlers.StormFraction | src/hooks/useEventHandlers.ts:23 | the storm's loss share lies in [0.1, 0.3) |
| EventHandlers.PlunderFraction | src/hooks/useEventHandlers.ts:186 | the pirates' loss share lies in [0.3, 0.8) |
| EventHandlers.HandleStormEvent | src/hooks/useEventHandlers.ts:18-60 | an empty hold changes nothing; otherwise the cargo becomes the first-fit loss, the storm dialog opens and sailing pauses |
| EventHandlers.StormLossExact | src/hooks/useEventHandlers.ts:23-41 | a storm on a loaded hold loses between 1 unit and the whole hold, in first-fit order, keeping the kinds |
| EventHandlers.SalvageKind | src/hooks/useEventHandlers.ts:89-90 | the salvaged good is one of the three goods |
| EventHandlers.SalvageUnits | src/hooks/useEventHandlers.ts:64-66 | the tons found are never negative for a non-negative worth, are worth at most 20% of it at the drawn price, and are at least one once the worth reaches 20 times the price |
| EventHandlers.SalvageUnitsBounds | src/hooks/useEventHandlers.ts:103 | the share of the worth divided by the price is non-negative, at most a fifth of the worth in value, and at least 1 when the worth covers 20 prices |
| EventHandlers.SalvageOutcome | src/hooks/useEventHandlers.ts:62-134 | the outcome is one of the five cases; "hold full" happens exactly when no space is left; a salvage is the drawn good, priced at the destination, positive, min(tons found at that price, free space), and worth at most 20% of the player's worth at that price; with free space, a priced destination and a worth of at least 20 prices the outcome is a salvage of the drawn good |
| EventHandlers.HandleDesertedShipsEvent | src/hooks/useEventHandlers.ts:62-134 | the cargo and the dialog follow the salvage outcome: a salvage is deposited, every other case leaves the cargo unchanged |
| EventHandlers.SalvageEffect | src/hooks/useEventHandlers.ts:114-123 | a salvage raises only its good, by exactly the gain, and keeps the hold within capacity |
| EventHandlers.TriggerEvent | src/hooks/useEventHandlers.ts:136-167 | pirates open the three-option dialog without touching cargo; a storm on an empty hold changes nothing; a storm on a loaded hold leaves the first-fit hold and the storm dialog; deserted ships leave the salvage outcome's hold and dialog; every other case opens the dialog and pauses sailing |
| EventHandlers.EscapeChance | src/hooks/useEventHandlers.ts:173 | escape succeeds with probability 0.52 on a pirate voyage and 0.45 otherwise |
| EventHandlers.HandleEventOption | src/hooks/useEventHandlers.ts:169-311 | the chosen option changes the balance and cargo exactly as the option's effect function says |
| EventHandlers.OptionEffect | src/hooks/useEventHandlers.ts:169-311 | a choice never drives a non-negative purse below zero, raises it exactly on a won fight, costs coins or cargo but never both, and keeps the list of kinds |
| EventHandlers.OptionCoins | src/hooks/useEventHandlers.ts:169-311 | tolls are 200-499 (escape), 150-349 (negotiate) and 100-299 (fight), each charged as max(0, balance - toll); plunder is 350-749; other outcomes keep the balance; a non-negative balance stays non-negative |
| EventHandlers.TollOrTribute | src/hooks/useEventHandlers.ts:224-240 | a negotiation either charges a toll or takes one unit of each good, never both |
| EventHandlers.EscapeLoss | src/hooks/useEventHandlers.ts:186-212 | a failed escape with cargo aboard loses exactly its quota (capped by the hold), the first units from the largest good, and no good loses units before every good outranking it is emptied; the kinds are kept and no good grows |
| EventHandlers.StormChoiceLoss | src/hooks/useEventHandlers.ts:267-309 | throwing cargo loses 2-3 units, braving the storm 3-5 when it hits, each capped by the hold; safe passage keeps the cargo |
| EventHandlers.TranslateGoodType | src/hooks/useEventHandlers.ts:314-325 | Wheat, Olives and Copper are translated, and every other name is returned unchanged |
| Events.EventDialog.constructor | src/hooks/useGameLogic.ts:30-35 | the event dialog starts closed, with an empty type, description and option list |
| Sailing.RouteHours | src/hooks/useSailing.ts:37-41 | the routes take 1, 6 and 12 hours, and each may leave only at the hours that arrive by 20:00 |
| Sailing.EventChance | src/hooks/useSailing.ts:43-53 | the chance of an event lies between 0.35 and 0.65 |
| Sailing.TravelHours | src/hooks/useSailing.ts:37 | the hours are the travel days times twelve, rounded to the nearest hour, and never negative for a non-negative trip |
| Sailing.PirateChance | src/hooks/useSailing.ts:44 | pirates come with chance 0.3 from 18:00 on and 0.2 before |
| Sailing.StormChance | src/hooks/useSailing.ts:48 | a storm can be drawn only when the hold carries cargo, with chance at most 0.2 |
| Sailing.PickRisk | src/hooks/useSailing.ts:55-66 | an event happens exactly when the first draw is below the total chance, and a storm needs cargo |
| Sailing.PickRiskPartition | src/hooks/useSailing.ts:55-66 | the second draw picks pirates, storm or deserted ships by their shares of the total chance |
| Sailing.SailingState.constructor | src/hooks/useSailing.ts:6-34 | no voyage, not paused, dialog closed |
| Sailing.SailingState.StartSail | src/hooks/useSailing.ts:36-71 | a voyage starts exactly when it arrives by 20:00; it records origin, destination, time and the drawn risk, unpaused and with no event yet; a refused voyage changes nothing |
| Sailing.SailingState.SetHasEventOccurred | src/hooks/useSailing.ts:73-77 | the flag is set on the current voyage, and the absence of a voyage is kept |
| Sailing.SailingState.PauseSailing | src/hooks/useSailing.ts:79-81 | sailing is paused |
| Sailing.SailingState.ResumeSailing | src/hooks/useSailing.ts:82-84 | sailing is resumed |
| Sailing.SailingState.FinishSail | src/hooks/useSailing.ts:85-96 | arrival reports the event flag of the voyage, moves to the destination, draws weather, advances the clock by the travel hours and clears the voyage |
| GameHeader.JsRem | src/components/GameHeader.tsx:56 | the truncating remainder has the sign of the dividend and magnitude below the divisor |
| GameHeader.JsRemSeven | src/components/GameHeader.tsx:56 | the truncating remainder by 7 equals the Euclidean one, or is 7 less for a negative dividend |
| GameHeader.DoubleRemEuclidean | src/components/GameHeader.tsx:56 | adding 7 and taking the truncating remainder again gives the Euclidean remainder by 7, negative dividends included |
| GameHeader.DayIdx | src/components/GameHeader.tsx:56 | the day index lies in 0..6 and equals (day - 1) mod 7 for every day, zero and negative days included |
| GameHeader.DayName | src/components/GameHeader.tsx:57 | the header shows one of the seven day names, the ((day - 1) mod 7)-th |
| GameHeader.DayIdxWeek | src/components/GameHeader.tsx:56-57 | day 1 is the first day name, and days a week apart share their name |
| GameHeader.CountryLabel | src/components/GameHeader.tsx:79 | Turkey, Israel and Egypt get their own label, and every other country keeps its name |
| GameHeader.WeatherLabel | src/components/GameHeader.tsx:83 | Sunny, Stormy and Overcast get their own label, and every other weather keeps its name |
| GameHeader.LabelsDistinct | src/components/GameHeader.tsx:79-83 | the translated labels are pairwise different |
| Leaderboard.Load | src/utils/leaderboard.ts:10-18 | a missing or unparsable slot reads as the empty board; a saved one reads as itself |
| Leaderboard.MinScore | src/utils/leaderboard.ts:27 | the minimum is attained by an entry and no entry scores lower |
| Leaderboard.Qualifies | src/utils/leaderboard.ts:24-29 | a score qualifies exactly when the board has fewer than 10 entries or the score beats the lowest |
| Leaderboard.Insert | src/utils/leaderboard.ts:34 | inserting adds exactly the entry: one longer, the old entries plus the entry as a multiset |
| Leaderboard.InsertSorted | src/utils/leaderboard.ts:34 | inserting into a board sorted by descending score keeps it sorted |
| Leaderboard.SortSorted | src/utils/leaderboard.ts:34 | the sort's result is ordered by descending score |
| Leaderboard.SortAppend | src/utils/leaderboard.ts:34-35 | sorting after a push is inserting the entry into the sorted board |
| Leaderboard.SortByScore | src/utils/leaderboard.ts:34 | the sort is a permutation of the board |
| Leaderboard.AddedTop | src/utils/leaderboard.ts:31-38 | the new board has min(10, n + 1) entries, sorted by descending score, drawn from the old board plus the entry; it holds the entry whenever the entry qualified, and every entry cut off scores no higher than every entry kept |
| Leaderboard.CutScoresLower | src/utils/leaderboard.ts:34-35 | cutting a board sorted by descending score after k entries drops exactly the tail, and no dropped entry scores above a kept one |
| Leaderboard.Store.AddToLeaderboard | src/utils/leaderboard.ts:31-38 | the stored board and the returned board are both the trimmed, sorted board |
| GameLogic.IndexOf | src/hooks/useGameLogic.ts:44 | -1 exactly when the slot is absent, otherwise its first position |
| GameLogic.Advance | src/hooks/useGameLogic.ts:42-55 | the day moves by at most one, the weather changes only with the day, and a new day starts in the Morning |
| GameLogic.AdvanceSlotValid | src/hooks/useGameLogic.ts:42-55 | the clock stays on one of the four slots |
| GameLogic.AdvanceDay | src/hooks/useGameLogic.ts:45-49 | a rest or any move from Night starts the next day in the Morning, and nothing else changes the day |
| GameLogic.AdvanceSlots | src/hooks/useGameLogic.ts:50-54 | a short move goes one slot forward within the day, and a long move goes to Night |
| GameLogic.AdvanceGameOver | src/hooks/useGameLogic.ts:183 | the game is over after a move exactly when it already was, or the seventh day rolled over |
| GameLogic.TradePrice | src/hooks/useGameLogic.ts:59-69 | the fixed prices are 9/8, 25/22 and 55/52 to buy/sell Wheat, Olives and anything else |
| GameLogic.BuyAboveSell | src/hooks/useGameLogic.ts:59-69 | buying always costs more than selling pays: 1 more for Wheat, 3 for the rest |
| GameLogic.Find | src/hooks/useGameLogic.ts:38-39 | the lookup finds the first stack of the kind, or reports its absence |
| GameLogic.Game.constructor | src/hooks/useGameLogic.ts:18-35 | day 1, Morning, Israel, the initial purse and hold, no bank, no event |
| GameLogic.Game.CargoGood | src/hooks/useGameLogic.ts:38-39 | the good's amount, or 0 when the hold does not list it |
| GameLogic.Game.AdvanceTime | src/hooks/useGameLogic.ts:42-55 | the clock moves as the advance function says, with the drawn weather on a new day; the slot stays one of the four, and in such a state a short daytime step moves exactly one slot on |
| GameLogic.Game.IsGameOver | src/hooks/useGameLogic.ts:183 | the game is over only from day 8 on, and never during the first seven days |
| GameLogic.Game.HandleMarketTrade | src/hooks/useGameLogic.ts:58-93 | buying charges price × quantity and deposits the goods, selling pays and withdraws them, and then the clock moves a short step |
| GameLogic.Game.HandleBankAction | src/hooks/useGameLogic.ts:95-106 | coins move between purse and bank with their sum unchanged, and the clock moves a short step |
| GameLogic.Game.HandleSail | src/hooks/useGameLogic.ts:108-135 | the ship moves to the destination with drawn weather; a journey of a day or more moves to Night, a shorter one a short step; pirates, drawn at 18% in the Evening and 10% otherwise, open the pirate dialog |
| GameLogic.Game.HandleRest | src/hooks/useGameLogic.ts:149-152 | resting starts the next day in the Morning with drawn weather, and the game is over exactly when the seventh day ended |
| GameLogic.Game.ResetGame | src/hooks/useGameLogic.ts:154-162 | day 1, Morning, Turkey, initial purse and hold, empty bank |
| MarketTrade.HandleMarketTrade | src/hooks/useMarketTrade.ts:21-43 | the purse and hold become the trade function of the old ones at the current country's price |
| MarketTrade.Trade | src/hooks/useMarketTrade.ts:21-43 | at a non-negative price a purchase never raises the purse and a sale never lowers it; a purchase leaves the good listed and a sale keeps the list of kinds |
| MarketTrade.BuyEffect | src/hooks/useMarketTrade.ts:23-33 | buying charges price × quantity, raises the good by the quantity, appends it when absent, and moves no other good |
| MarketTrade.SellEffect | src/hooks/useMarketTrade.ts:34-42 | selling pays price × quantity, lowers a listed good to max(0, amount - quantity), leaves an unlisted one absent, and moves no other good |
| MarketTrade.BuyThenSell | src/hooks/useMarketTrade.ts:21-43 | buying then selling the same quantity at one price restores the purse, and restores the hold up to a zero entry for a new good |
| CargoExpansion.OfferPrice | src/hooks/useCargoExpansion.ts:24 | the price is at most half the balance, at least min(5000, half the balance), and below the balance when an offer can appear |
| CargoExpansion.Expansion.constructor | src/hooks/useCargoExpansion.ts:12-13 | no offer, modal closed |
| CargoExpansion.Expansion.MaybeShow | src/hooks/useCargoExpansion.ts:15-30 | an offer appears exactly after day 1, with at least 6000 coins, on a draw below 0.4; it doubles the capacity at the computed price |
| CargoExpansion.Expansion.Accept | src/hooks/useCargoExpansion.ts:32-42 | accepting sets the capacity to the offer's and clears the offer; the balance is never charged |
| CargoExpansion.Expansion.Decline | src/hooks/useCargoExpansion.ts:43-46 | declining clears the offer and closes the modal |
| CargoExpansion.OfferDoubles | src/hooks/useCargoExpansion.ts:25 | an offered capacity is twice the current one |
| DefendShips.Escorts.constructor | src/hooks/useDefendShips.ts:5-7 | no escorts, no cost |
| DefendShips.Escorts.SetDefendShips | src/hooks/useDefendShips.ts:9-13 | the count and price are recorded, and the balance drops by count × price |
| DefendShips.Escorts.ClearDefendShips | src/hooks/useDefendShips.ts:15-18 | count and cost return to 0 |
| DefendShipsModal.PricePerShip | src/components/DefendShipsModal.tsx:24-25 | the price is 8% of balance plus cargo value, rounded: that value inside [300, 4000], exactly 300 below the band and exactly 4000 above it |
| DefendShipsModal.MaxShips | src/components/DefendShipsModal.tsx:30 | at most 5 ships, affordable, and one more would not be |
| DefendShipsModal.ShipChoices | src/components/DefendShipsModal.tsx:53 | the buttons offer 0, 1, …, maxShips |
| DefendShipsModal.OfferedCountsAffordable | src/components/DefendShipsModal.tsx:53-80 | every offered count is affordable, so its confirm button is enabled |
| DefendShipsModal.ConfirmDisabled | src/components/DefendShipsModal.tsx:80 | an enabled confirm button means the hire leaves the purse non-negative |
| DefendShipsModal.EscortDialog.constructor | src/components/DefendShipsModal.tsx:27 | no ships selected |
| DefendShipsModal.EscortDialog.Select | src/components/DefendShipsModal.tsx:58 | the choice is recorded |
| DefendShipsModal.EscortDialog.Confirm | src/components/DefendShipsModal.tsx:78-80 | a hire is confirmed exactly when the confirm button is enabled, with the count and price per ship, and its cost is within the balance |
| BankModal.DisabledIsNotGuard | src/components/BankModal.tsx:25-35 | the button is disabled exactly when the action would be refused |
| BankModal.Guard | src/components/BankModal.tsx:26-30 | a passed request is a positive amount within the active tab's limit |
| BankModal.Disabled | src/components/BankModal.tsx:72 | an enabled button means a whole amount of at least 1 within the active tab's limit |
| BankModal.BankDialog.constructor | src/components/BankModal.tsx:22-23 | deposit tab, amount 0 |
| BankModal.BankDialog.HandleBank | src/components/BankModal.tsx:25-35 | an action is sent exactly when the amount is positive and within the tab's limit; the dialog then resets and closes, and otherwise nothing changes |
| MarketModal.DrawIndex | src/components/MarketModal.tsx:9 | `floor(u * span)` lies in [0, span) |
| MarketModal.RandomPrice | src/components/MarketModal.tsx:8-11 | as written, a price lies in [min, max + 5) on the 5-grid from min, and may pass max |
| MarketModal.RandomPriceOnSteps | src/components/MarketModal.tsx:8-11 | when max - min is a multiple of 5 the helper agrees with the pricing draw |
| MarketModal.RandomPriceOvershoots | src/components/MarketModal.tsx:8-11 | for min 0, max 7 the helper can return 10, while the pricing draw stays at most 7 |
| MarketModal.MaxAffordable | src/components/MarketModal.tsx:42-45 | buying allows as many units as the balance covers, selling as many as are held |
| MarketModal.MarketDialog.constructor | src/components/MarketModal.tsx:37-39 | Wheat, quantity 0, buying |
| MarketModal.MarketDialog.HandleTrade | src/components/MarketModal.tsx:47-53 | a trade is sent exactly when the quantity is positive and within reach; the dialog then resets and closes, and otherwise nothing changes |
| MarketModal.PassedTradeIsCovered | src/components/MarketModal.tsx:47-53 | a trade the dialog lets through keeps the balance and the good's amount non-negative |
| SailModal.RoutesSymmetric | src/components/SailModal.tsx:14-20 | every route takes the same time both ways, and staying costs 0 |
| SailModal.SailableRoutes | src/components/SailModal.tsx:14-20 | every reachable route takes 0, 0.104, 0.5 or 1 day |
| SailModal.Destinations | src/components/SailModal.tsx:43 | a port is listed exactly when it is a known port other than the current one |
| SailModal.SailDisabled | src/components/SailModal.tsx:81 | an enabled sail button means a destination is chosen and its route takes 0, 0.104, 0.5 or 1 day |
| SailModal.FourDestinations | src/components/SailModal.tsx:43 | from any known port, four destinations are listed |
| SailModal.SailDialog.constructor | src/components/SailModal.tsx:41 | no destination chosen |
| SailModal.SailDialog.HandleSail | src/components/SailModal.tsx:45-54 | the voyage is sent exactly when a reachable destination is chosen, with its route time; the dialog then resets and closes, and otherwise nothing changes |
| SailModal.FormatTravelTime | src/components/SailModal.tsx:22-26 | a day or more is shown in days, plural above one; under an hour in minutes; otherwise in hours |
| SailModal.RouteLabels | src/components/SailModal.tsx:22-26 | the three route lengths read as 2 hours, 12 hours and 1 day |
| IndexPage.Index.constructor | src/pages/Index.tsx:15-18 | no fade and no toast yet |
| IndexPage.Index.HandleSailSuccess | src/pages/Index.tsx:20-31 | the toast and fade are raised exactly on the first uneventful arrival |
| IndexPage.Index.HandleMapMidpoint | src/pages/Index.tsx:74-79 | the event fires exactly once per voyage that carries a risk, and the voyage is then marked; a pirate risk leaves the hold and opens the three choices, a storm leaves the first-fit hold and dialog (nothing on an empty hold), deserted ships leave the salvage outcome; otherwise nothing changes |
| IndexPage.Index.OnEventClose | src/pages/Index.tsx:85-88 | sailing resumes and the dialog closes |
| IndexPage.Index.HandleAnimationEnd | src/pages/Index.tsx:90-103 | with a voyage under way, it finishes at its destination after its travel hours under the drawn weather, and the toast and fade are raised exactly when the voyage had no event; with no voyage both flags clear and nothing else changes |
| IndexPage.Index.OnSail | src/pages/Index.tsx:133-135 | sailing resets the toast flag |

## Left out

- Toasts, notification text, images, styling and the map animation have no
  effect on the economy, so they are not modelled. The narrative strings of
  event dialogs are kept only as plain data.
- Browser storage, and JSON text in it, is a value of type `Leaderboard.Stored`
  (missing, unparsable, or a saved board). The parser is not modelled.
  `saveLeaderboard` is the assignment to that slot.
- Floating-point arithmetic is modelled with exact reals, so rounding at the
  last bit of a double is not captured.
- Timer delays (`setTimeout` 300, 700 and 1000 ms) are applied at once. Any
  interleaving of other events during the delay is not modelled.
- Dialog amounts and quantities are integers. The dialogs' number inputs could
  carry fractions.
- Each React setter is applied exactly once, in order. A batched render that
  reads a stale value is not modelled.
- `useGameLogic.handleEventOption` (src/hooks/useGameLogic.ts:137-147) only
  shows a toast and changes no state, so it is not modelled. The
  event-handler hook's version is.
- In the throw and brave options, the source shuffles the hold before the
  loss loop but never reads the shuffled copy. The model does not draw that
  shuffle.
- How the game-logic hook wires its sub-hooks together is not part of this
  model: it is not in the files modelled. Each hook is modelled with the
  state it names. The sailing hook's `onSailSuccess` is a returned report.
- MarketTrade.HandleMarketTrade: requires the current country's price for the
  good to exist. The source would compute with `undefined` and store NaN.
- MarketModal.MarketDialog.HandleTrade: requires a positive price for the
  chosen good. The source would divide by zero for a zero price.
- DefendShipsModal.ShipChoices: requires `maxShips >= -1`. With a balance
  below minus one ship's price, `[...Array(maxShips + 1).keys()]` throws a
  RangeError in the source; that error path is not modelled.
- IndexPage.Index.HandleAnimationEnd: requires a voyage, or the fade flag, to
  be set. The source reads `sailing.to` unguarded otherwise.
- The number of escort ships is recorded but not fed into the encounter
  odds. The modelled hooks never read it.
- SailModal.Destinations: states which ports are listed, not their order. The
  source's filter keeps the order of the port table.
- Sailing.SailingState.FinishSail: the clock is the elapsed-hours counter.
  The hook's `advanceTime(hours)` callback belongs to a host not modelled.

## Findings

| source | as written | input that shows it | evidently intended | confidence | as-written member | corrected member |
|---|---|---|---|---|---|---|
| src/components/MarketModal.tsx:8-11 | `randomPrice` draws from `(max - min) / 5 + 1` slots without flooring the quotient, so for a span that is not a multiple of 5 the last slot lies past `max` | min 0, max 7, draw 0.9 gives 10 | a price between min and max inclusive, on the 5-grid from min (its comment and the pricing utility) | not executed; latent, because `randomPrice` has no caller in the source and prices come from the pricing utility | MarketModal.RandomPriceOvershoots | Pricing.Price |
