/**
  The header's day name and its Hebrew country and weather labels
  (src/components/GameHeader.tsx).
*/
module GameHeader {

  /** JavaScript's `a % b` for `b > 0`: the remainder takes the sign of `a`
      (truncating division), unlike Dafny's Euclidean `%`. */
  function JsRem(a: int, b: int): (r: int)
    requires b > 0
    ensures -b < r < b
    ensures a >= 0 ==> r >= 0
    ensures a <= 0 ==> r <= 0
  {
    if a >= 0 then a % b else -((-a) % b)
  }

  /** `((day - 1) % 7 + 7) % 7` with JavaScript's `%`: an index into the seven day
      names for every day, zero and negative days included, equal to the mathematical
      (Euclidean) remainder of `day - 1`. */
  function DayIdx(day: int): (i: int)
    ensures 0 <= i < 7
    ensures i == (day - 1) % 7
  {
    DoubleRemEuclidean(day - 1);
    JsRem(JsRem(day - 1, 7) + 7, 7)
  }

  /** By seven, the truncating remainder is the Euclidean one, or that minus seven
      when the dividend is negative and not a multiple of seven. */
  lemma JsRemSeven(a: int)
    ensures JsRem(a, 7) == a % 7 || (a < 0 && JsRem(a, 7) == a % 7 - 7)
  {
    if a < 0 {
      var m := -a;
      var q, t := m / 7, m % 7;
      assert m == 7 * q + t && 0 <= t < 7;
      if t == 0 {
        assert a == 7 * (-q);
      } else {
        assert a == 7 * (-q - 1) + (7 - t);
        assert a % 7 == 7 - t;
      }
    }
  }

  /** Adding seven and taking the truncating remainder again turns the truncating
      remainder into the Euclidean one. */
  lemma DoubleRemEuclidean(a: int)
    ensures JsRem(JsRem(a, 7) + 7, 7) == a % 7
  {
    var r := JsRem(a, 7);
    JsRemSeven(a);
    JsRemSeven(r + 7);
    if r == a % 7 {
      assert (r + 7) % 7 == r;
    } else {
      assert r + 7 == a % 7;
    }
  }

  /** Day 1 shows the first name, and the names repeat every seven days. */
  lemma DayIdxWeek(day: int)
    ensures DayIdx(1) == 0
    ensures DayIdx(day + 7) == DayIdx(day)
  {
    WeekLater(day - 1);
  }

  lemma WeekLater(a: int)
    ensures (a + 7) % 7 == a % 7
  {
    var q, e := a / 7, a % 7;
    assert a + 7 == 7 * (q + 1) + e;
  }

  const DAY_NAMES: seq<string> :=
    ["יום ראשון", "יום שני", "יום שלישי", "יום רביעי", "יום חמישי", "יום שישי", "שבת"]

  /** The header's day name: the week starts on the first name at day 1 and runs
      through the seven names in order. */
  function DayName(day: int): (s: string)
    ensures s in DAY_NAMES
    ensures s == DAY_NAMES[(day - 1) % 7]
  {
    DAY_NAMES[DayIdx(day)]
  }

  /** Turkey, Israel and Egypt are shown in Hebrew; every other name is shown as is. */
  function CountryLabel(country: string): (s: string)
    ensures country !in {"Turkey", "Israel", "Egypt"} ==> s == country
    ensures country in {"Turkey", "Israel", "Egypt"} ==> s != country
  {
    if country == "Turkey" then "טורקיה"
    else if country == "Israel" then "ישראל"
    else if country == "Egypt" then "מצרים"
    else country
  }

  /** The three weather names are shown in Hebrew; anything else is shown as is. */
  function WeatherLabel(weather: string): (s: string)
    ensures weather !in {"Sunny", "Stormy", "Overcast"} ==> s == weather
    ensures weather in {"Sunny", "Stormy", "Overcast"} ==> s != weather
  {
    if weather == "Sunny" then "שמשי"
    else if weather == "Stormy" then "סוער"
    else if weather == "Overcast" then "מעונן"
    else weather
  }

  /** Distinct known names get distinct labels. */
  lemma LabelsDistinct()
    ensures |{CountryLabel("Turkey"), CountryLabel("Israel"), CountryLabel("Egypt")}| == 3
    ensures |{WeatherLabel("Sunny"), WeatherLabel("Stormy"), WeatherLabel("Overcast")}| == 3
  {
  }
}
