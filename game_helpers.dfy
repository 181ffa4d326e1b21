/**
  Game constants and the clock label (src/utils/gameHelpers.ts).
*/
module GameHelpers {
  import opened Cargo
  import JsMath

  const INITIAL_BALANCE: int := 5000
  const INITIAL_CARGO: seq<Stack> := [Stack("Wheat", 0), Stack("Olives", 0), Stack("Copper", 0)]
  const WEATHER_TYPES: seq<string> := ["Sunny", "Stormy", "Overcast"]
  const COUNTRIES: seq<string> := ["Israel", "Turkey", "Egypt"]
  const DAY_START_HOUR: int := 8
  const DAY_END_HOUR: int := 20
  const SHIP_CAPACITY: int := 100

  /** The starting hold carries the three goods, each empty. */
  lemma InitialCargoEmpty()
    ensures |INITIAL_CARGO| == 3 && NonNegative(INITIAL_CARGO) && Total(INITIAL_CARGO) == 0
    ensures Has(INITIAL_CARGO, "Wheat") && Has(INITIAL_CARGO, "Olives") && Has(INITIAL_CARGO, "Copper")
  {
    assert INITIAL_CARGO[1..][1..][1..] == [];
  }

  /** `getRandomWeather` for the draw `u`. */
  function RandomWeather(u: real): (w: string)
    requires 0.0 <= u < 1.0
    ensures w in WEATHER_TYPES
  {
    WEATHER_TYPES[JsMath.RandomIndex(|WEATHER_TYPES|, u)]
  }

  /** Every weather name is drawn by some `u`. */
  lemma EveryWeatherDrawn(k: int)
    requires 0 <= k < |WEATHER_TYPES|
    ensures RandomWeather(k as real / 3.0) == WEATHER_TYPES[k]
  {
    assert k as real / 3.0 * 3.0 == k as real;
  }

  // ------------------------------------------------------------ number text

  /* Support for the clock label only. JavaScript turns the hour into decimal text
     inside the template literal of `formatTime`; the functions and lemmas in this
     section stand in for that runtime conversion and state facts about it, not
     rules of the game. The game's own property is in `FormatTime` and the two
     lemmas after it. */

  function DigitChar(d: int): char
    requires 0 <= d < 10
  {
    ('0' as int + d) as char
  }

  function CharValue(c: char): int
  {
    if '0' <= c <= '9' then c as int - '0' as int else 0
  }

  /** Decimal digits of a natural number, most significant first, no leading zero. */
  function Digits(n: nat): (s: seq<char>)
    ensures 1 <= |s|
    ensures forall i :: 0 <= i < |s| ==> '0' <= s[i] <= '9'
    decreases n
  {
    if n < 10 then [DigitChar(n)] else Digits(n / 10) + [DigitChar(n % 10)]
  }

  /** Reads a string of decimal digits back as a number. */
  function Value(s: seq<char>): int
  {
    if s == [] then 0 else Value(s[..|s| - 1]) * 10 + CharValue(s[|s| - 1])
  }

  /** `Digits` and `Value` are inverse. */
  lemma {:induction false} ValueOfDigits(n: nat)
    ensures Value(Digits(n)) == n
    decreases n
  {
    var s := Digits(n);
    if n < 10 {
      assert s == [DigitChar(n)];
      assert s[..0] == [];
    } else {
      assert s[..|s| - 1] == Digits(n / 10);
      assert s[|s| - 1] == DigitChar(n % 10);
      ValueOfDigits(n / 10);
      assert Value(s) == (n / 10) * 10 + n % 10;
    }
  }

  /** No leading '0' on a positive number. */
  lemma {:induction false} DigitsNoLeadingZero(n: nat)
    requires n > 0
    ensures Digits(n)[0] != '0'
    decreases n
  {
    if n >= 10 {
      DigitsNoLeadingZero(n / 10);
    }
  }

  /** Digit count by magnitude. */
  lemma DigitsLength(n: nat)
    ensures n < 10 ==> |Digits(n)| == 1
    ensures 10 <= n < 100 ==> |Digits(n)| == 2
    ensures n >= 100 ==> |Digits(n)| >= 3
  {
    if n >= 100 {
      assert |Digits(n / 10)| >= 2 by { DigitsLength(n / 10); }
    }
  }

  /** `Number.prototype.toString()` for an integer. */
  function IntToString(n: int): string
  {
    if n < 0 then "-" + Digits(-n) else Digits(n)
  }

  /** `String.prototype.padStart(width, "0")`: pads on the left, never cuts. */
  function PadStart(s: string, width: int): (r: string)
    ensures |s| >= width ==> r == s
    ensures |s| < width ==> |r| == width && r[width - |s|..] == s
    ensures forall i :: 0 <= i < |r| - |s| ==> r[i] == '0'
  {
    if |s| >= width then s else seq(width - |s|, _ => '0') + s
  }

  /** `formatTime(hour)`: the hour padded to two digits, then ":00". */
  function FormatTime(hour: int): (r: string)
    ensures |r| >= 5 && r[|r| - 3..] == ":00"
  {
    PadStart(IntToString(hour), 2) + ":00"
  }

  /** For hours 0 to 99 the label has five characters, with a leading '0' exactly
      below 10, and the hour reads back from its first two characters. */
  lemma FormatTimeTwoDigits(hour: int)
    requires 0 <= hour <= 99
    ensures |FormatTime(hour)| == 5
    ensures FormatTime(hour)[0] == '0' <==> hour < 10
    ensures Value(FormatTime(hour)[..2]) == hour
  {
    DigitsLength(hour);
    ValueOfDigits(hour);
    var r := FormatTime(hour);
    if hour < 10 {
      assert r[..2] == ['0'] + Digits(hour);
      assert Value(['0'] + Digits(hour)) == Value(['0']) * 10 + CharValue(Digits(hour)[0]) by {
        assert (['0'] + Digits(hour))[..1] == ['0'];
      }
      assert Value(['0']) == 0 by { assert ['0'][..0] == []; }
      assert Digits(hour)[..0] == [];
    } else {
      DigitsNoLeadingZero(hour);
      assert r[..2] == Digits(hour);
    }
  }

  /** Hours of three or more digits are written in full: `padStart` never truncates. */
  lemma FormatTimeWide(hour: int)
    requires hour >= 100
    ensures FormatTime(hour) == Digits(hour) + ":00"
    ensures Value(FormatTime(hour)[..|FormatTime(hour)| - 3]) == hour
  {
    DigitsLength(hour);
    ValueOfDigits(hour);
    assert FormatTime(hour)[..|FormatTime(hour)| - 3] == Digits(hour);
  }
}
