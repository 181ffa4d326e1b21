/**
  The sail dialog (src/components/SailModal.tsx): the route table between the five
  ports, in days, where 999 marks a route that cannot be sailed; the list of ports
  other than the current one; the guard that passes a voyage on; and the travel-time
  label.
*/
module SailModal {
  import opened Maybe
  import JsMath

  /** The "no route" sentinel. */
  const UNREACHABLE: real := 999.0

  const DESTS: seq<string> := ["Turkey", "Israel", "Greece", "Cyprus", "Egypt"]

  const ROUTES: map<string, map<string, real>> := map[
    "Egypt" := map["Israel" := 0.5, "Turkey" := 1.0, "Greece" := 999.0, "Cyprus" := 999.0, "Egypt" := 0.0],
    "Israel" := map["Egypt" := 0.5, "Turkey" := 0.5, "Cyprus" := 0.104, "Greece" := 1.0, "Israel" := 0.0],
    "Turkey" := map["Israel" := 0.5, "Egypt" := 1.0, "Cyprus" := 999.0, "Greece" := 999.0, "Turkey" := 0.0],
    "Cyprus" := map["Israel" := 0.104, "Egypt" := 999.0, "Turkey" := 999.0, "Greece" := 999.0, "Cyprus" := 0.0],
    "Greece" := map["Israel" := 1.0, "Egypt" := 999.0, "Turkey" := 999.0, "Cyprus" := 999.0, "Greece" := 0.0]
  ]

  /** Every port lists every port, itself at distance 0, and a route is as long one
      way as the other. */
  lemma RoutesSymmetric(a: string, b: string)
    requires a in DESTS && b in DESTS
    ensures a in ROUTES && b in ROUTES[a] && a in ROUTES[b]
    ensures ROUTES[a][b] == ROUTES[b][a]
    ensures ROUTES[a][a] == 0.0
  {
  }

  /** A route that can be sailed takes 0.104, 0.5 or 1 day (or 0 to stay put). */
  lemma SailableRoutes(a: string, b: string)
    requires a in ROUTES && b in ROUTES[a] && ROUTES[a][b] != UNREACHABLE
    ensures ROUTES[a][b] in {0.0, 0.104, 0.5, 1.0}
  {
  }

  /** `DESTS.filter(d => d.name !== currentCountry)`. */
  function Destinations(dests: seq<string>, current: string): (r: seq<string>)
    ensures forall x :: x in r <==> x in dests && x != current
    ensures |r| <= |dests|
  {
    if dests == [] then []
    else (if dests[0] != current then [dests[0]] else []) + Destinations(dests[1..], current)
  }

  /** From any of the five ports four destinations are offered. */
  lemma FourDestinations(current: string)
    requires current in DESTS
    ensures |Destinations(DESTS, current)| == 4
  {
  }

  /** The sail button's `disabled`: no destination picked (or an empty name), or the
      route is the sentinel. */
  predicate SailDisabled(current: string, dest: Option<string>)
    requires current in ROUTES
    requires dest.Some? && dest.value != "" ==> dest.value in ROUTES[current]
    ensures !SailDisabled(current, dest) ==> dest.Some? && dest.value != "" && ROUTES[current][dest.value] in {0.0, 0.104, 0.5, 1.0}
  {
    dest.None? || dest.value == "" || ROUTES[current][dest.value] == UNREACHABLE
  }

  class SailDialog {
    var dest: Option<string>
    var open: bool

    constructor ()
      ensures dest == None && !open
    {
      dest := None;
      open := false;
    }

    /** `handleSail`: pass `(dest, ROUTES[current][dest])` on unless there is no
        destination or the route is unreachable, then clear the choice and close. */
    method HandleSail(current: string) returns (sail: Option<(string, real)>)
      requires current in ROUTES
      requires dest.Some? && dest.value != "" ==> dest.value in ROUTES[current]
      modifies this
      ensures sail.Some? <==> !SailDisabled(current, old(dest))
      ensures sail.Some? ==>
        && sail.value == (old(dest).value, ROUTES[current][old(dest).value])
        && sail.value.1 != UNREACHABLE
        && dest == None && !open
      ensures sail.None? ==> dest == old(dest) && open == old(open)
    {
      sail := None;
      if dest.Some? && dest.value != "" {
        var travelTime := ROUTES[current][dest.value];
        if travelTime != UNREACHABLE {
          sail := Some((dest.value, travelTime));
          dest := None;
          open := false;
        }
      }
    }
  }

  /** What `formatTravelTime` shows: whole days, or else minutes below an hour and
      hours above. */
  datatype TravelLabel = Days(days: real, plural: bool) | Minutes(minutes: int) | Hours(hours: int)

  function FormatTravelTime(days: real): (l: TravelLabel)
    ensures l.Days? <==> days >= 1.0
    ensures l.Days? ==> l.days == days && (l.plural <==> days > 1.0)
    ensures l.Minutes? <==> days < 1.0 && days * 24.0 < 1.0
  {
    if days >= 1.0 then Days(days, days > 1.0)
    else if days * 24.0 < 1.0 then Minutes(JsMath.Round(days * 24.0 * 60.0))
    else Hours(JsMath.Round(days * 24.0))
  }

  /** The table's three lengths read "2 hours", "12 hours" and "1 day". */
  lemma RouteLabels()
    ensures FormatTravelTime(0.104) == Hours(2)
    ensures FormatTravelTime(0.5) == Hours(12)
    ensures FormatTravelTime(1.0) == Days(1.0, false)
  {
    assert (0.104 * 24.0 + 0.5).Floor == 2;
    assert (0.5 * 24.0 + 0.5).Floor == 12;
  }
}
