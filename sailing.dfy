/**
  The voyage state machine (src/hooks/useSailing.ts): the current voyage and the paused
  flag, with the port, weather and clock cells the hook writes through its setters.
*/
module Sailing {
  import opened Cargo
  import opened Maybe
  import opened Events
  import JsMath
  import GameHelpers

  /** The `sailing` cell: where from, where to, how long, which risk, and whether the
      risk has already been played out. */
  datatype Voyage = Voyage(from: string, to: string, travelTime: real, risk: Option<Risk>, hasEventOccurred: bool)

  /** What `finishSail` hands to the success callback: the port reached and whether an
      event happened on the way. */
  datatype SailReport = SailReport(dest: string, hadEvent: bool)

  /** `Math.round(travelDays * 12)`: a day at sea takes twelve hours of the clock. */
  function TravelHours(travelDays: real): (h: int)
    ensures travelDays * 12.0 - 0.5 < h as real <= travelDays * 12.0 + 0.5
    ensures travelDays >= 0.0 ==> h >= 0
  {
    JsMath.Round(travelDays * 12.0)
  }

  /** The route lengths the sail dialog offers take 1, 6 and 12 hours, so the ship may
      leave at most 19, 14 and 8 o'clock respectively. */
  lemma RouteHours(currentHour: int)
    ensures TravelHours(0.104) == 1 && TravelHours(0.5) == 6 && TravelHours(1.0) == 12
    ensures currentHour + TravelHours(1.0) <= GameHelpers.DAY_END_HOUR <==> currentHour <= 8
    ensures currentHour + TravelHours(0.5) <= GameHelpers.DAY_END_HOUR <==> currentHour <= 14
    ensures currentHour + TravelHours(0.104) <= GameHelpers.DAY_END_HOUR <==> currentHour <= 19
  {
    assert (0.104 * 12.0 + 0.5).Floor == 1;
    assert (0.5 * 12.0 + 0.5).Floor == 6;
    assert (1.0 * 12.0 + 0.5).Floor == 12;
  }

  /** Pirates are likelier from 18:00 on. */
  function PirateChance(currentHour: int): (p: real)
    ensures p == 0.2 || p == 0.3
    ensures p == 0.3 <==> currentHour >= 18
  {
    if currentHour >= 18 then 0.3 else 0.2
  }

  /** A storm is possible only with cargo aboard. */
  function StormChance(totalCargo: int): (p: real)
    ensures 0.0 <= p <= 0.2
    ensures p > 0.0 <==> totalCargo > 0
  {
    if totalCargo > 0 then 0.2 else 0.0
  }

  const DESERTED_SHIPS_CHANCE: real := 0.15

  function EventChance(currentHour: int, totalCargo: int): (p: real)
    ensures 0.35 <= p <= 0.65
  {
    PirateChance(currentHour) + StormChance(totalCargo) + DESERTED_SHIPS_CHANCE
  }

  /** The risk drawn at departure: a first draw `u1` decides whether any event happens,
      a second draw `u2` scaled to the total chance picks one from the weighted
      partition pirate | storm | deserted ships. */
  function PickRisk(currentHour: int, totalCargo: int, u1: real, u2: real): (r: Option<Risk>)
    requires 0.0 <= u1 < 1.0 && 0.0 <= u2 < 1.0
    ensures r.Some? <==> u1 < EventChance(currentHour, totalCargo)
    ensures r == Some(Storm) ==> totalCargo > 0
  {
    var total := EventChance(currentHour, totalCargo);
    if u1 < total then
      var roll := u2 * total;
      if roll < PirateChance(currentHour) then Some(Pirate)
      else if roll < PirateChance(currentHour) + StormChance(totalCargo) then Some(Storm)
      else Some(DesertedShips)
    else None
  }

  /** Each risk owns one interval of the event roll: pirates the first `pirateChance`,
      storms the next `stormChance` (empty for an empty hold), deserted ships the rest. */
  lemma PickRiskPartition(currentHour: int, totalCargo: int, u1: real, u2: real)
    requires 0.0 <= u1 < 1.0 && 0.0 <= u2 < 1.0
    ensures var total := EventChance(currentHour, totalCargo);
      var roll := u2 * total;
      var r := PickRisk(currentHour, totalCargo, u1, u2);
      && (r == Some(Pirate) <==> u1 < total && roll < PirateChance(currentHour))
      && (r == Some(Storm) <==> u1 < total && PirateChance(currentHour) <= roll < PirateChance(currentHour) + StormChance(totalCargo))
      && (r == Some(DesertedShips) <==> u1 < total && PirateChance(currentHour) + StormChance(totalCargo) <= roll)
      && roll < total
  {
    var total := EventChance(currentHour, totalCargo);
    assert u2 * total < total by {
      assert (1.0 - u2) * total > 0.0;
    }
  }

  class SailingState {
    var country: string
    var weather: string
    var sailOpen: bool
    /** Hours handed to `advanceTime`, whose clock belongs to the caller. */
    var elapsedHours: int
    var voyage: Option<Voyage>
    var paused: bool

    constructor (country: string, weather: string)
      ensures this.country == country && this.weather == weather
      ensures voyage == None && !paused && !sailOpen && elapsedHours == 0
    {
      this.country := country;
      this.weather := weather;
      sailOpen := false;
      elapsedHours := 0;
      voyage := None;
      paused := false;
    }

    /** `startSail`: refuse a voyage that would land after 20:00, otherwise draw its
        risk and set sail unpaused with the event not yet played. */
    method StartSail(dest: string, travelDays: real, currentHour: int, cargo: seq<Stack>, u1: real, u2: real)
      returns (accepted: bool)
      requires 0.0 <= u1 < 1.0 && 0.0 <= u2 < 1.0
      modifies this`voyage, this`paused, this`sailOpen
      ensures accepted <==> currentHour + TravelHours(travelDays) <= GameHelpers.DAY_END_HOUR
      ensures !accepted ==> voyage == old(voyage) && paused == old(paused) && sailOpen == old(sailOpen)
      ensures accepted ==>
        && voyage == Some(Voyage(country, dest, travelDays, PickRisk(currentHour, Total(cargo), u1, u2), false))
        && !paused && !sailOpen
    {
      var travelHours := TravelHours(travelDays);
      if currentHour + travelHours > 20 {
        return false;
      }
      var risk := PickRisk(currentHour, Total(cargo), u1, u2);
      voyage := Some(Voyage(country, dest, travelDays, risk, false));
      paused := false;
      sailOpen := false;
      accepted := true;
    }

    /** `setSailingHasEventOccurred`: nothing without a voyage, otherwise only the flag. */
    method SetHasEventOccurred(val: bool)
      modifies this`voyage
      ensures old(voyage).None? ==> voyage == None
      ensures old(voyage).Some? ==> voyage == Some(old(voyage).value.(hasEventOccurred := val))
    {
      if voyage.Some? {
        voyage := Some(voyage.value.(hasEventOccurred := val));
      }
    }

    method PauseSailing()
      modifies this`paused
      ensures paused
    {
      paused := true;
    }

    method ResumeSailing()
      modifies this`paused
      ensures !paused
    {
      paused := false;
    }

    /** `finishSail`: report the voyage's event flag (false when unset), land at `dest`
        under fresh weather, pass the travel hours to the clock, clear the voyage and
        unpause. */
    method FinishSail(dest: string, travelDays: real, u: real) returns (report: Option<SailReport>)
      requires 0.0 <= u < 1.0
      modifies this`country, this`weather, this`elapsedHours, this`voyage, this`paused
      ensures old(voyage).Some? ==> report == Some(SailReport(dest, old(voyage).value.hasEventOccurred))
      ensures old(voyage).None? ==> report == None
      ensures country == dest && weather == GameHelpers.RandomWeather(u)
      ensures elapsedHours == old(elapsedHours) + TravelHours(travelDays)
      ensures voyage == None && !paused
    {
      report := None;
      if voyage.Some? {
        report := Some(SailReport(dest, voyage.value.hasEventOccurred));
      }
      country := dest;
      weather := GameHelpers.RandomWeather(u);
      elapsedHours := elapsedHours + TravelHours(travelDays);
      voyage := None;
      paused := false;
    }
  }
}
