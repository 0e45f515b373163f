/**
 * The text a flight card derives from a `FlightResult`
 * (src/components/FlightResults/FlightCard.tsx): the 12-hour clock, the
 * currency symbol and the stops label.
 */
module FlightCard {
  import opened Text

  /** `h % 12 || 12`: the hour on a 12-hour clock face. */
  function TwelveHour(h: nat): (r: nat)
    ensures 1 <= r <= 12 && r % 12 == h % 12
  {
    if h % 12 == 0 then 12 else h % 12
  }

  /** `h >= 12 ? 'PM' : 'AM'`. */
  function Meridiem(h: nat): string
  {
    if h >= 12 then "PM" else "AM"
  }

  /** On a 24-hour day, the 12-hour face and the AM/PM suffix together identify the hour. */
  lemma ClockFaceIdentifiesHour(h1: nat, h2: nat)
    requires h1 < 24 && h2 < 24
    requires TwelveHour(h1) == TwelveHour(h2) && Meridiem(h1) == Meridiem(h2)
    ensures h1 == h2
  {
  }

  /**
   * `formatTime`: split at `:`, read the hour with `parseInt`, and print
   * `"<hour>:<minutes> <AM|PM>"`. Without a `:` the minutes print as
   * `undefined`; an unreadable hour is `NaN`, which prints as 12 AM.
   */
  function FormatTime(time: string): string
  {
    var parts := Split(time, ':');
    var minutes := if |parts| >= 2 then parts[1] else "undefined";
    match ParseInt(parts[0])
    case Num(h) => NatToString(TwelveHour(h)) + ":" + minutes + " " + Meridiem(h)
    case NaN => "12:" + minutes + " AM"
  }

  /**
   * An hour in digits followed by `:` shows its 12-hour form, keeps the
   * minutes text exactly as written, and is AM exactly before noon.
   */
  lemma FormatTimeShape(hours: string, minutes: string, rest: string)
    requires |hours| > 0 && AllDigits(hours)
    requires ':' !in minutes && (rest == [] || rest[0] == ':')
    ensures FormatTime(hours + ":" + minutes + rest)
         == NatToString(TwelveHour(DigitsValue(hours))) + ":" + minutes + " " + Meridiem(DigitsValue(hours))
  {
    var time := hours + ":" + minutes + rest;
    SplitHourMinutes(time, hours, minutes, rest);
    FormatTimeOfParts(time, hours, minutes);
  }

  /** A digit hour, `:`, and minutes up to the next `:` split into those two parts first. */
  lemma SplitHourMinutes(time: string, hours: string, minutes: string, rest: string)
    requires AllDigits(hours) && ':' !in minutes && (rest == [] || rest[0] == ':')
    requires time == hours + ":" + minutes + rest
    ensures var parts := Split(time, ':');
            |parts| >= 2 && parts[0] == hours && parts[1] == minutes
  {
    assert ':' !in hours by {
      forall k | 0 <= k < |hours| ensures hours[k] != ':' {
        assert IsDigit(hours[k]);
      }
    }
    SplitAtFirst(time, hours, minutes + rest, ':');
    if rest != [] {
      SplitAtFirst(minutes + rest, minutes, rest[1..], ':');
    }
  }

  /** `formatTime` once the hour and minutes parts are known. */
  lemma FormatTimeOfParts(time: string, hours: string, minutes: string)
    requires |hours| > 0 && AllDigits(hours)
    requires var parts := Split(time, ':');
             |parts| >= 2 && parts[0] == hours && parts[1] == minutes
    ensures FormatTime(time)
         == NatToString(TwelveHour(DigitsValue(hours))) + ":" + minutes + " " + Meridiem(DigitsValue(hours))
  {
    ParseIntOfDigits(hours, []);
    assert hours + [] == hours;
  }

  /** The clock text `"H:MM"` prints as H on a 12-hour clock, the same MM, AM before noon. */
  lemma FormatClock(hour: nat, minute: nat)
    requires minute < 100
    ensures FormatTime(NatToString(hour) + ":" + PadStart(NatToString(minute), 2, '0'))
         == NatToString(TwelveHour(hour)) + ":" + PadStart(NatToString(minute), 2, '0') + " "
            + (if hour < 12 then "AM" else "PM")
  {
    var mm := PadStart(NatToString(minute), 2, '0');
    PadTwoDigits(minute);
    assert ':' !in mm;
    FormatTimeShape(NatToString(hour), mm, []);
    assert NatToString(hour) + ":" + mm + [] == NatToString(hour) + ":" + mm;
  }

  /** `getCurrencySymbol`. */
  function CurrencySymbol(currency: string): string
  {
    match currency
    case "USD" => "$"
    case "EUR" => "\U{20AC}"
    case "GBP" => "\U{A3}"
    case "JPY" => "\U{A5}"
    case _ => "$"
  }

  /** The symbol is `$` exactly for USD and for every code the table does not list. */
  lemma CurrencySymbolDollar(currency: string)
    ensures CurrencySymbol(currency) == "$" <==> currency != "EUR" && currency != "GBP" && currency != "JPY"
  {
  }

  /** `getStopsLabel`. */
  function StopsLabel(stops: int): string
  {
    if stops == 0 then "Nonstop"
    else if stops == 1 then "1 Stop"
    else IntToString(stops) + " Stops"
  }

  /** Different stop counts get different labels. */
  lemma StopsLabelInjective(a: int, b: int)
    requires StopsLabel(a) == StopsLabel(b)
    ensures a == b
  {
    StopsLabelShape(a);
    StopsLabelShape(b);
    if a != 0 && a != 1 && b != 0 && b != 1 {
      var la, lb := IntToString(a), IntToString(b);
      assert la == StopsLabel(a)[..|StopsLabel(a)| - 6];
      assert lb == StopsLabel(b)[..|StopsLabel(b)| - 6];
      IntToStringInjective(a, b);
    }
  }

  /** Only the counted labels have a space six characters from the end. */
  lemma StopsLabelShape(n: int)
    ensures var l := StopsLabel(n);
            |l| >= 6 && (l[|l| - 6] == ' ' <==> n != 0 && n != 1)
  {
  }

  /** Two or more stops read `"<n> Stops"`, and the label reads back as `n`. */
  lemma StopsLabelMany(stops: int)
    requires stops >= 2
    ensures var l := StopsLabel(stops);
            && l == NatToString(stops) + " Stops"
            && ToNumber(l[..|l| - 6]) == Num(stops)
  {
    var l := StopsLabel(stops);
    assert l[..|l| - 6] == IntToString(stops);
    ToNumberOfIntToString(stops);
  }
}
