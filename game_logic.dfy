/**
  The self-contained game hook of src/hooks/useGameLogic.ts: a day split into four
  slots, fixed buy and sell prices, a bank beside the purse, a sail that may meet
  pirates, and the end of the game after the seventh day. Its constants and weather
  draw are the same as those of src/utils/gameHelpers.ts and are taken from there.
*/
module GameLogic {
  import opened Cargo
  import opened Maybe
  import opened Events
  import GameHelpers

  /** The four slots of a day, in order. */
  const ORDER: seq<string> := ["Morning", "Midday", "Evening", "Night"]

  /** `Array.prototype.indexOf`: the first position holding `x`, or -1. */
  function IndexOf(s: seq<string>, x: string): (r: int)
    ensures -1 <= r < |s|
    ensures r == -1 <==> x !in s
    ensures r >= 0 ==> s[r] == x && forall j :: 0 <= j < r ==> s[j] != x
  {
    if s == [] then -1
    else if s[0] == x then 0
    else
      var k := IndexOf(s[1..], x);
      if k < 0 then -1 else k + 1
  }

  /** How far `advanceTime` moves the clock. */
  datatype Span = Short | Long | Rest

  /** The clock's three cells: the day, its slot and the day's weather. */
  datatype Clock = Clock(day: int, slot: string, weather: string)

  /** `advanceTime`: a rest, or any step taken at night, starts the next morning under
      fresh weather; otherwise a short step moves one slot on (not past Night) and a
      long one goes to Night. */
  function Advance(c: Clock, span: Span, u: real): (n: Clock)
    requires 0.0 <= u < 1.0
    ensures c.day <= n.day <= c.day + 1
    ensures n.day == c.day ==> n.weather == c.weather
    ensures n.day == c.day + 1 ==> n.slot == "Morning"
  {
    if span == Rest || c.slot == "Night" then Clock(c.day + 1, "Morning", GameHelpers.RandomWeather(u))
    else if span == Short then c.(slot := ORDER[Min(IndexOf(ORDER, c.slot) + 1, 3)])
    else c.(slot := "Night")
  }

  /** Whatever slot the clock showed, it shows one of the four afterwards. */
  lemma AdvanceSlotValid(c: Clock, span: Span, u: real)
    requires 0.0 <= u < 1.0
    ensures Advance(c, span, u).slot in ORDER
  {
  }

  /** The day turns over exactly on a rest or a step taken at night, and then by one
      day, to the morning; at any other time neither the day nor the weather moves. */
  lemma AdvanceDay(c: Clock, span: Span, u: real)
    requires 0.0 <= u < 1.0
    ensures var n := Advance(c, span, u);
      && ((span == Rest || c.slot == "Night") <==> n.day == c.day + 1)
      && ((span == Rest || c.slot == "Night") ==> n.slot == "Morning" && n.weather in GameHelpers.WEATHER_TYPES)
      && (!(span == Rest || c.slot == "Night") ==> n.day == c.day && n.weather == c.weather)
  {
  }

  /** A short step from a daytime slot moves exactly one slot forward; a long one
      ends at Night. */
  lemma AdvanceSlots(c: Clock, u: real)
    requires 0.0 <= u < 1.0 && c.slot in ORDER && c.slot != "Night"
    ensures IndexOf(ORDER, Advance(c, Short, u).slot) == IndexOf(ORDER, c.slot) + 1
    ensures Advance(c, Long, u).slot == "Night"
  {
    var i := IndexOf(ORDER, c.slot);
    assert i != 3;
    assert Advance(c, Short, u) == c.(slot := ORDER[i + 1]);
    SlotAt(i + 1);
  }

  /** The slots are distinct, so each one's position reads back. */
  lemma SlotAt(i: int)
    requires 0 <= i < |ORDER|
    ensures IndexOf(ORDER, ORDER[i]) == i
  {
    assert ORDER[0] != ORDER[1] && ORDER[0] != ORDER[2] && ORDER[1] != ORDER[2];
    assert ORDER[3] != ORDER[0] && ORDER[3] != ORDER[1] && ORDER[3] != ORDER[2];
  }

  /** The game ends (`day > 7`) exactly when the seventh day turns over, and once
      over it stays over. */
  lemma AdvanceGameOver(c: Clock, span: Span, u: real)
    requires 0.0 <= u < 1.0
    ensures Advance(c, span, u).day > 7 <==> c.day > 7 || (c.day == 7 && (span == Rest || c.slot == "Night"))
  {
  }

  /** The fixed trade prices: buying Wheat 9, Olives 25, anything else 55; selling 8,
      22 and 52. */
  function TradePrice(kind: string, isBuy: bool): (p: int)
    ensures p > 0
  {
    if isBuy then (if kind == "Wheat" then 9 else if kind == "Olives" then 25 else 55)
    else (if kind == "Wheat" then 8 else if kind == "Olives" then 22 else 52)
  }

  /** No good can be bought back for what it sells for: the spread is 1 on Wheat and
      3 on the rest, so a round trip always loses coin. */
  lemma BuyAboveSell(kind: string)
    ensures TradePrice(kind, true) - TradePrice(kind, false) == (if kind == "Wheat" then 1 else 3)
  {
  }

  /** `cargo.find(g => g.type === kind)`. */
  function Find(c: seq<Stack>, kind: string): (r: Option<Stack>)
    ensures r.Some? <==> Has(c, kind)
    ensures r.Some? ==> r.value in c && r.value.kind == kind && r.value.amount == AmountOf(c, kind)
  {
    if c == [] then None
    else if c[0].kind == kind then Some(c[0])
    else Find(c[1..], kind)
  }

  class Game {
    var day: int
    var timeOfDay: string
    var country: string
    var weather: string
    var balance: int
    var cargo: seq<Stack>
    var bank: int
    var eventOpen: bool
    var eventData: EventData

    /** The slot is always one of the four. */
    predicate Valid()
      reads this
    {
      timeOfDay in ORDER
    }

    function Now(): Clock
      reads this
    {
      Clock(day, timeOfDay, weather)
    }

    /** The starting state: day 1, morning, in Israel, 5000 coins, an empty hold of the
        three goods and nothing in the bank. */
    constructor (u: real)
      requires 0.0 <= u < 1.0
      ensures Valid()
      ensures day == 1 && timeOfDay == "Morning" && country == "Israel" && weather == GameHelpers.RandomWeather(u)
      ensures balance == GameHelpers.INITIAL_BALANCE && cargo == GameHelpers.INITIAL_CARGO && bank == 0
      ensures !eventOpen && eventData == EventData("", Blank, [])
    {
      day := 1;
      timeOfDay := "Morning";
      country := "Israel";
      weather := GameHelpers.RandomWeather(u);
      balance := GameHelpers.INITIAL_BALANCE;
      cargo := GameHelpers.INITIAL_CARGO;
      bank := 0;
      eventOpen := false;
      eventData := EventData("", Blank, []);
    }

    /** `cargoGood`: the held entry for `kind`, or an empty one. */
    function CargoGood(kind: string): (g: Stack)
      reads this
      ensures g.kind == kind && g.amount == AmountOf(cargo, kind)
      ensures !Has(cargo, kind) ==> g == Stack(kind, 0)
    {
      var found := Find(cargo, kind);
      if found.Some? then found.value else AbsentAmount(cargo, kind); Stack(kind, 0)
    }

    /** `isGameOver`: the game ends once the seventh day is over, never during it. */
    predicate IsGameOver()
      reads this
      ensures IsGameOver() ==> day >= 8
      ensures day <= 7 ==> !IsGameOver()
    {
      day > 7
    }

    /** `advanceTime`. In a game whose slot is one of the four (which every method
        keeps), a short step by day moves exactly one slot on. */
    method AdvanceTime(span: Span, u: real)
      requires 0.0 <= u < 1.0
      modifies this`day, this`timeOfDay, this`weather
      ensures Now() == Advance(old(Now()), span, u)
      ensures Valid()
      ensures old(Valid()) && span == Short && old(timeOfDay) != "Night" ==>
        IndexOf(ORDER, timeOfDay) == IndexOf(ORDER, old(timeOfDay)) + 1
    {
      ghost var c := Now();
      AdvanceSlotValid(c, span, u);
      var idx := IndexOf(ORDER, timeOfDay);
      if span == Rest || timeOfDay == "Night" {
        day := day + 1;
        timeOfDay := "Morning";
        weather := GameHelpers.RandomWeather(u);
      } else if span == Short {
        timeOfDay := ORDER[Min(idx + 1, 3)];
        assert Now() == c.(slot := ORDER[Min(idx + 1, 3)]);
        if c.slot in ORDER {
          AdvanceSlots(c, u);
        }
      } else if span == Long {
        timeOfDay := "Night";
      }
    }

    /** `handleMarketTrade` at the fixed prices: a purchase is charged in full and
        added to the good (appended when not listed); a sale is credited in full and the
        good drops to `max(0, a - q)`, so the credit is not limited to what is held.
        Every trade takes a short step of the clock. */
    method HandleMarketTrade(kind: string, quantity: int, isBuy: bool, u: real)
      requires 0.0 <= u < 1.0
      modifies this`balance, this`cargo, this`day, this`timeOfDay, this`weather
      ensures isBuy ==>
        balance == old(balance) - TradePrice(kind, true) * quantity && cargo == Deposit(old(cargo), kind, quantity)
      ensures !isBuy ==>
        balance == old(balance) + TradePrice(kind, false) * quantity && cargo == Withdraw(old(cargo), kind, quantity)
      ensures Now() == Advance(old(Now()), Short, u) && Valid()
    {
      var price := TradePrice(kind, isBuy);
      if isBuy {
        balance := balance - price * quantity;
        cargo := Deposit(cargo, kind, quantity);
      } else {
        balance := balance + price * quantity;
        cargo := Withdraw(cargo, kind, quantity);
      }
      AdvanceTime(Short, u);
    }

    /** `handleBankAction`: move coin between purse and bank, then take a short step. */
    method HandleBankAction(deposit: bool, amount: int, u: real)
      requires 0.0 <= u < 1.0
      modifies this`balance, this`bank, this`day, this`timeOfDay, this`weather
      ensures balance + bank == old(balance + bank)
      ensures balance == old(balance) + (if deposit then -amount else amount)
      ensures Now() == Advance(old(Now()), Short, u) && Valid()
    {
      if deposit {
        balance := balance - amount;
        bank := bank + amount;
      } else {
        balance := balance + amount;
        bank := bank - amount;
      }
      AdvanceTime(Short, u);
    }

    /** `handleSail`: pirates are drawn first (18% in the evening, 10% otherwise), the
        ship lands at once under fresh weather, a voyage of a day or more ends the day's
        sailing at Night and a shorter one takes a short step; pirates open the event
        dialog with the three choices. Purse, hold and bank are untouched. */
    method HandleSail(dest: string, travelDays: real, u1: real, u2: real, u3: real) returns (pirates: bool)
      requires 0.0 <= u1 < 1.0 && 0.0 <= u2 < 1.0 && 0.0 <= u3 < 1.0
      modifies this`country, this`weather, this`day, this`timeOfDay, this`eventData, this`eventOpen
      ensures pirates <==> u1 < (if old(timeOfDay) == "Evening" then 0.18 else 0.1)
      ensures country == dest
      ensures Now() == Advance(Clock(old(day), old(timeOfDay), GameHelpers.RandomWeather(u2)),
                               if travelDays >= 1.0 then Long else Short, u3)
      ensures Valid()
      ensures pirates ==> eventData == EventData("Pirate", PirateApproach, PIRATE_OPTIONS) && eventOpen
      ensures !pirates ==> eventData == old(eventData) && eventOpen == old(eventOpen)
    {
      pirates := u1 < (if timeOfDay == "Evening" then 0.18 else 0.1);
      country := dest;
      weather := GameHelpers.RandomWeather(u2);
      if travelDays >= 1.0 {
        AdvanceTime(Long, u3);
      } else {
        AdvanceTime(Short, u3);
      }
      if pirates {
        eventData := EventData("Pirate", PirateApproach, PIRATE_OPTIONS);
        eventOpen := true;
      }
    }

    /** `handleRest`: sleep to the next morning. */
    method HandleRest(u: real)
      requires 0.0 <= u < 1.0
      modifies this`day, this`timeOfDay, this`weather
      ensures day == old(day) + 1 && timeOfDay == "Morning" && weather == GameHelpers.RandomWeather(u)
      ensures IsGameOver() <==> old(day) >= 7
    {
      AdvanceTime(Rest, u);
    }

    /** `resetGame`: back to the first morning with the starting purse and hold, but in
        Turkey rather than the starting Israel. */
    method ResetGame(u: real)
      requires 0.0 <= u < 1.0
      modifies this`day, this`timeOfDay, this`country, this`weather, this`balance, this`cargo, this`bank
      ensures day == 1 && timeOfDay == "Morning" && country == "Turkey" && weather == GameHelpers.RandomWeather(u)
      ensures balance == GameHelpers.INITIAL_BALANCE && cargo == GameHelpers.INITIAL_CARGO && bank == 0
      ensures Valid() && !IsGameOver()
    {
      day := 1;
      timeOfDay := "Morning";
      country := "Turkey";
      weather := GameHelpers.RandomWeather(u);
      balance := GameHelpers.INITIAL_BALANCE;
      cargo := GameHelpers.INITIAL_CARGO;
      bank := 0;
    }
  }
}
