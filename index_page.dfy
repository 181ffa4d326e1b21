/**
  The page that drives a voyage (src/pages/Index.tsx): the map calls back at its
  midpoint, where the voyage's drawn risk is played at most once, and at the end of its
  animation, where the voyage is finished; the smooth-sailing notice and the map's
  fade-out are gated by two flags. Deferred callbacks (`setTimeout`) run at once here.
*/
module IndexPage {
  import opened Cargo
  import opened Maybe
  import opened Events
  import opened Sailing
  import opened Ledger
  import EventHandlers
  import GameHelpers
  import CargoLoss

  /** The midpoint plays an event exactly when a voyage is under way, carries a risk
      and has not played its event yet. */
  predicate MidpointFires(voyage: Option<Voyage>)
  {
    voyage.Some? && voyage.value.risk.Some? && !voyage.value.hasEventOccurred
  }

  class Index {
    /** `mapShouldFadeOut`. */
    var mapShouldFadeOut: bool
    /** `hasShownSmoothSailingToast.current`. */
    var smoothToastShown: bool

    constructor ()
      ensures !mapShouldFadeOut && !smoothToastShown
    {
      mapShouldFadeOut := false;
      smoothToastShown := false;
    }

    /** `handleSailSuccess`: raise the smooth-sailing notice (and ask the map to fade)
        once per voyage, and only when no event was played. */
    method HandleSailSuccess(destination: string, hadEvent: bool) returns (raised: bool)
      modifies this
      ensures raised <==> !hadEvent && !old(smoothToastShown)
      ensures smoothToastShown == (old(smoothToastShown) || raised)
      ensures mapShouldFadeOut == (old(mapShouldFadeOut) || raised)
    {
      raised := false;
      if !hadEvent && !smoothToastShown {
        smoothToastShown := true;
        raised := true;
        mapShouldFadeOut := true;
      }
    }

    /** `handleMapMidpoint`: play the voyage's risk and mark its event as played, so a
        second midpoint on the same voyage plays nothing. */
    method HandleMapMidpoint(sailing: SailingState, ledger: Ledger, dialog: EventDialog,
                             prices: map<string, map<string, int>>, cargoValue: int, u1: real, u2: real)
      returns (fired: bool)
      requires 0.0 <= u1 < 1.0 && 0.0 <= u2 < 1.0
      modifies sailing`voyage, sailing`paused, ledger`cargo, dialog`data, dialog`open
      ensures fired <==> MidpointFires(old(sailing.voyage))
      ensures fired ==> sailing.voyage == Some(old(sailing.voyage).value.(hasEventOccurred := true))
      ensures !fired ==>
        && sailing.voyage == old(sailing.voyage) && ledger.cargo == old(ledger.cargo)
        && dialog.data == old(dialog.data) && dialog.open == old(dialog.open) && sailing.paused == old(sailing.paused)
      ensures !MidpointFires(sailing.voyage)
      ensures fired && old(sailing.voyage).value.risk == Some(Pirate) ==>
        dialog.open && sailing.paused && dialog.data.options == PIRATE_OPTIONS
          && ledger.cargo == old(ledger.cargo)
      ensures fired && old(sailing.voyage).value.risk == Some(Storm) && Total(old(ledger.cargo)) != 0 ==>
        var d := CargoLoss.FirstFit(old(ledger.cargo),
                   CargoLoss.LossQuota(Total(old(ledger.cargo)), EventHandlers.StormFraction(u1)));
        && ledger.cargo == d.cargo
        && dialog.data == EventData("Storm", StormLoss(d.lost), [])
        && dialog.open && sailing.paused
      ensures fired && old(sailing.voyage).value.risk == Some(Storm) && Total(old(ledger.cargo)) == 0 ==>
        && ledger.cargo == old(ledger.cargo) && dialog.data == old(dialog.data)
        && dialog.open == old(dialog.open) && sailing.paused == old(sailing.paused)
      ensures fired && old(sailing.voyage).value.risk == Some(DesertedShips) ==>
        var n := EventHandlers.SalvageOutcome(old(ledger.balance), cargoValue, old(ledger.cargo),
                   old(ledger.shipCapacity), old(sailing.voyage), prices, u1, u2);
        && dialog.data == EventData("Deserted Ships", n, [])
        && ledger.cargo == (if n.Salvaged? then Deposit(old(ledger.cargo), n.kind, n.amount) else old(ledger.cargo))
        && dialog.open && sailing.paused
    {
      fired := false;
      if sailing.voyage.Some? && sailing.voyage.value.risk.Some? && !sailing.voyage.value.hasEventOccurred {
        EventHandlers.TriggerEvent(sailing.voyage.value.risk.value, ledger, dialog, sailing, prices, cargoValue, u1, u2);
        sailing.SetHasEventOccurred(true);
        fired := true;
      }
    }

    /** `onEventClose`: resume the voyage and close the event dialog. */
    method OnEventClose(sailing: SailingState, dialog: EventDialog)
      modifies sailing`paused, dialog`open
      ensures !sailing.paused && !dialog.open
    {
      sailing.ResumeSailing();
      dialog.open := false;
    }

    /** The action panel's sail button: forget the previous voyage's notice. */
    method OnSail()
      modifies this`smoothToastShown
      ensures !smoothToastShown
    {
      smoothToastShown := false;
    }

    /** `handleAnimationEnd`: clear the fade and the notice flag, then finish the voyage
        at its own destination and travel time; the success callback then raises the
        notice (and the fade) again exactly when the voyage played no event. Without a
        pending fade the source reads the voyage unguarded, so one must be under way. */
    method HandleAnimationEnd(sailing: SailingState, u: real) returns (raised: bool)
      requires 0.0 <= u < 1.0
      requires mapShouldFadeOut || sailing.voyage.Some?
      modifies this, sailing`country, sailing`weather, sailing`elapsedHours, sailing`voyage, sailing`paused
      ensures old(sailing.voyage).Some? ==>
        && sailing.country == old(sailing.voyage).value.to
        && sailing.elapsedHours == old(sailing.elapsedHours) + TravelHours(old(sailing.voyage).value.travelTime)
        && sailing.voyage == None && !sailing.paused
        && (raised <==> !old(sailing.voyage).value.hasEventOccurred)
        && smoothToastShown == raised && mapShouldFadeOut == raised
        && sailing.weather == GameHelpers.RandomWeather(u)
      ensures old(sailing.voyage).None? ==>
        && !raised && !smoothToastShown && !mapShouldFadeOut
        && sailing.voyage == None && sailing.country == old(sailing.country)
        && sailing.elapsedHours == old(sailing.elapsedHours) && sailing.weather == old(sailing.weather)
    {
      raised := false;
      if mapShouldFadeOut {
        mapShouldFadeOut := false;
        smoothToastShown := false;
        if sailing.voyage.Some? {
          var report := sailing.FinishSail(sailing.voyage.value.to, sailing.voyage.value.travelTime, u);
          raised := HandleSailSuccess(report.value.dest, report.value.hadEvent);
        }
      } else {
        smoothToastShown := false;
        var report := sailing.FinishSail(sailing.voyage.value.to, sailing.voyage.value.travelTime, u);
        raised := HandleSailSuccess(report.value.dest, report.value.hadEvent);
      }
    }
  }
}
