/**
 * The results panel (src/components/FlightResults/index.tsx): filtering by
 * the criteria, the three sort orders with their duration and time parsers,
 * the default price cap, the airline list offered as filters, and the
 * fallback to the unfiltered list.
 */
module FlightResults {
  import opened Wrappers
  import opened Seqs
  import opened Text
  import opened StableSort
  import opened SearchContext
  import opened FilterSection

  /** The sort criteria `'price' | 'duration' | 'departure'`. */
  datatype SortCriteria = ByPrice | ByDuration | ByDeparture

  // ------------------------------------------------------------ durations

  /** `\s` of an ECMAScript regular expression: white space and line terminators. */
  predicate IsRegexSpace(c: char)
  {
    || c == '\t' || c == '\n' || c == '\U{B}' || c == '\U{C}' || c == '\r' || c == ' '
    || c == '\U{A0}' || c == '\U{1680}' || '\U{2000}' <= c <= '\U{200A}'
    || c == '\U{2028}' || c == '\U{2029}' || c == '\U{202F}' || c == '\U{205F}'
    || c == '\U{3000}' || c == '\U{FEFF}'
  }

  predicate AllSpaces(s: string)
  {
    forall i :: 0 <= i < |s| ==> IsRegexSpace(s[i])
  }

  /** Length of the longest run of `\s` characters starting at `i`. */
  function SpaceRun(s: string, i: nat): (n: nat)
    requires i <= |s|
    ensures i + n <= |s| && AllSpaces(s[i..i + n])
    ensures i + n == |s| || !IsRegexSpace(s[i + n])
    decreases |s| - i
  {
    if i < |s| && IsRegexSpace(s[i]) then
      var n := 1 + SpaceRun(s, i + 1);
      assert s[i..i + n] == [s[i]] + s[i + 1..i + n];
      n
    else 0
  }

  /**
   * The pattern `(\d+)h\s*(\d+)m` occurs at index `i`, with `a` digits, `w`
   * spaces and `b` digits: the reference meaning of the regular expression.
   */
  ghost predicate PatternAt(s: string, i: nat, a: nat, w: nat, b: nat)
  {
    && 0 < a && 0 < b
    && i + a + 1 + w + b + 1 <= |s|
    && AllDigits(s[i..i + a]) && s[i + a] == 'h'
    && AllSpaces(s[i + a + 1..i + a + 1 + w])
    && AllDigits(s[i + a + 1 + w..i + a + 1 + w + b]) && s[i + a + 1 + w + b] == 'm'
  }

  /** The number written by the `n` digits at index `i`. */
  function RunValue(s: string, i: nat, n: nat): nat
    requires i + n <= |s| && AllDigits(s[i..i + n])
  {
    DigitsValue(s[i..i + n])
  }

  /** Matching the pattern at `i`: each run is taken whole, since the next character must end it. */
  function MatchAt(s: string, i: nat): Option<(nat, nat)>
    requires i <= |s|
  {
    var a := DigitRun(s, i);
    if a == 0 || i + a >= |s| || s[i + a] != 'h' then None
    else
      var k := i + a + 1 + SpaceRun(s, i + a + 1);
      var b := DigitRun(s, k);
      if b == 0 || k + b >= |s| || s[k + b] != 'm' then None
      else Some((RunValue(s, i, a), RunValue(s, k, b)))
  }

  /** `duration.match(...)`: the leftmost match at or after `i`, as its two numbers. */
  function FirstMatch(s: string, i: nat): Option<(nat, nat)>
    requires i <= |s|
    decreases |s| - i
  {
    if MatchAt(s, i).Some? then MatchAt(s, i)
    else if i < |s| then FirstMatch(s, i + 1)
    else None
  }

  /** `getDurationMinutes`: hours * 60 + minutes of the first match, 0 without one. */
  function DurationMinutes(duration: string): nat
  {
    match FirstMatch(duration, 0)
    case Some((hours, minutes)) => hours * 60 + minutes
    case None => 0
  }

  /** An occurrence of the pattern is matched, with its own two numbers. */
  lemma PatternMatched(s: string, i: nat, a: nat, w: nat, b: nat)
    requires PatternAt(s, i, a, w, b)
    ensures MatchAt(s, i)
         == Some((RunValue(s, i, a), RunValue(s, i + a + 1 + w, b)))
  {
    var j := i + a + 1;
    var k := j + w;
    DigitRunIs(s, i, a);
    SpaceRunIs(s, j, w);
    DigitRunIs(s, k, b);
    MatchOfRuns(s, i, a, w, b);
  }

  /** `MatchAt` in terms of the run lengths it measures. */
  lemma MatchOfRuns(s: string, i: nat, a: nat, w: nat, b: nat)
    requires 0 < a && 0 < b && i + a + 1 + w + b < |s|
    requires DigitRun(s, i) == a && s[i + a] == 'h'
    requires SpaceRun(s, i + a + 1) == w
    requires DigitRun(s, i + a + 1 + w) == b && s[i + a + 1 + w + b] == 'm'
    ensures MatchAt(s, i)
         == Some((RunValue(s, i, a), RunValue(s, i + a + 1 + w, b)))
  {
  }

  lemma {:induction false} SpaceRunIs(s: string, i: nat, n: nat)
    requires i + n < |s| && !IsRegexSpace(s[i + n])
    requires AllSpaces(s[i..i + n])
    ensures SpaceRun(s, i) == n
    decreases n
  {
    if n > 0 {
      assert s[i] == s[i..i + n][0];
      assert s[i + 1..i + n] == s[i..i + n][1..];
      SpaceRunIs(s, i + 1, n - 1);
    }
  }

  /** A match is only ever found where the pattern occurs. */
  lemma MatchIsPattern(s: string, i: nat)
    requires i <= |s| && MatchAt(s, i).Some?
    ensures exists a, w, b :: PatternAt(s, i, a, w, b)
  {
    var a := DigitRun(s, i);
    var w := SpaceRun(s, i + a + 1);
    var b := DigitRun(s, i + a + 1 + w);
    assert PatternAt(s, i, a, w, b);
  }

  lemma {:induction false} FirstMatchReaches(s: string, j: nat, i: nat)
    requires j <= i <= |s| && MatchAt(s, i).Some?
    requires forall t :: j <= t < i ==> MatchAt(s, t).None?
    ensures FirstMatch(s, j) == MatchAt(s, i)
    decreases i - j
  {
    if j < i {
      FirstMatchReaches(s, j + 1, i);
    }
  }

  lemma {:induction false} FirstMatchNone(s: string, j: nat)
    requires j <= |s|
    requires forall t :: j <= t <= |s| ==> MatchAt(s, t).None?
    ensures FirstMatch(s, j) == None
    decreases |s| - j
  {
    if j < |s| {
      FirstMatchNone(s, j + 1);
    }
  }

  /** The leftmost occurrence of the pattern gives the duration. */
  lemma DurationOfFirstPattern(s: string, i: nat, a: nat, w: nat, b: nat)
    requires PatternAt(s, i, a, w, b)
    requires forall j: nat, a': nat, w': nat, b': nat :: j < i ==> !PatternAt(s, j, a', w', b')
    ensures DurationMinutes(s)
         == DigitsValue(s[i..i + a]) * 60 + DigitsValue(s[i + a + 1 + w..i + a + 1 + w + b])
  {
    PatternMatched(s, i, a, w, b);
    forall t | 0 <= t < i ensures MatchAt(s, t).None? {
      if MatchAt(s, t).Some? {
        MatchIsPattern(s, t);
      }
    }
    FirstMatchReaches(s, 0, i);
  }

  /** A duration in which the pattern does not occur counts as 0 minutes. */
  lemma DurationWithoutPattern(s: string)
    requires forall i: nat, a: nat, w: nat, b: nat :: !PatternAt(s, i, a, w, b)
    ensures DurationMinutes(s) == 0
  {
    forall t | 0 <= t <= |s| ensures MatchAt(s, t).None? {
      if MatchAt(s, t).Some? {
        MatchIsPattern(s, t);
      }
    }
    FirstMatchNone(s, 0);
  }

  /** `"Hh Mm"` lasts H * 60 + M minutes. */
  lemma DurationOfText(hours: nat, minutes: nat)
    ensures DurationMinutes(DurationText(hours, minutes)) == hours * 60 + minutes
  {
    var s := DurationText(hours, minutes);
    var hs, ms := NatToString(hours), NatToString(minutes);
    var a, b := |hs|, |ms|;
    assert s == hs + "h " + ms + "m";
    assert s[0..a] == hs;
    assert s[a] == 'h';
    assert s[a + 1..a + 2] == " ";
    assert s[a + 2..a + 2 + b] == ms;
    assert s[a + 2 + b] == 'm';
    assert PatternAt(s, 0, a, 1, b);
    DurationOfFirstPattern(s, 0, a, 1, b);
  }

  // ------------------------------------------------------------ departure times

  /** A time whose first two `:`-separated parts are digit strings (so `Number` reads them). */
  predicate IsClockTime(time: string)
  {
    var parts := Split(time, ':');
    |parts| >= 2 && AllDigits(parts[0]) && AllDigits(parts[1])
  }

  /** `getTimeMinutes`: minutes since midnight of `"H:MM"`. */
  function TimeMinutes(time: string): nat
    requires IsClockTime(time)
  {
    var parts := Split(time, ':');
    DigitsValue(parts[0]) * 60 + DigitsValue(parts[1])
  }

  /** `"H:MM"` is H * 60 + MM minutes after midnight. */
  lemma TimeMinutesOfClockText(hour: nat, minute: nat)
    requires minute < 100
    ensures IsClockTime(ClockText(hour, minute))
    ensures TimeMinutes(ClockText(hour, minute)) == hour * 60 + minute
  {
    var hs := NatToString(hour);
    var ms := PadStart(NatToString(minute), 2, '0');
    PadTwoDigits(minute);
    assert ':' !in hs && ':' !in ms;
    assert Join([hs, ms], ':') == ClockText(hour, minute);
    SplitJoin([hs, ms], ':');
  }

  // ------------------------------------------------------------ sorting

  /** The comparator key of each criterion. */
  function SortKey(criteria: SortCriteria): FlightResult -> int
  {
    match criteria
    case ByPrice => PriceOf
    case ByDuration => (f: FlightResult) => DurationMinutes(f.duration)
    case ByDeparture => (f: FlightResult) => if IsClockTime(f.departTime) then TimeMinutes(f.departTime) else 0
  }

  /** Departure order needs readable departure times. */
  predicate SortableBy(flights: seq<FlightResult>, criteria: SortCriteria)
  {
    criteria == ByDeparture ==> forall f :: f in flights ==> IsClockTime(f.departTime)
  }

  /** `sortFlights`: a sorted copy. */
  function SortFlights(flights: seq<FlightResult>, criteria: SortCriteria): (r: seq<FlightResult>)
    requires SortableBy(flights, criteria)
    ensures multiset(r) == multiset(flights)
    ensures SortedBy(r, SortKey(criteria))
  {
    SortBy(flights, SortKey(criteria))
  }

  /** The sort orders flights by the chosen field, parsed as the source parses it. */
  lemma SortFlightsOrder(flights: seq<FlightResult>, criteria: SortCriteria, i: nat, j: nat)
    requires SortableBy(flights, criteria)
    requires i < j < |SortFlights(flights, criteria)|
    ensures var r := SortFlights(flights, criteria);
            && r[i] in flights && r[j] in flights
            && match criteria
               case ByPrice => r[i].price <= r[j].price
               case ByDuration => DurationMinutes(r[i].duration) <= DurationMinutes(r[j].duration)
               case ByDeparture => TimeMinutes(r[i].departTime) <= TimeMinutes(r[j].departTime)
  {
    var r := SortFlights(flights, criteria);
    assert r[i] in multiset(r) && r[j] in multiset(r);
    assert SortKey(criteria)(r[i]) <= SortKey(criteria)(r[j]);
  }

  /** Flights with equal keys keep their input order (a stable sort). */
  lemma SortFlightsStable(flights: seq<FlightResult>, criteria: SortCriteria, v: int)
    requires SortableBy(flights, criteria)
    ensures Filter(SortFlights(flights, criteria), KeyIs(SortKey(criteria), v))
         == Filter(flights, KeyIs(SortKey(criteria), v))
  {
    SortByIsStable(flights, SortKey(criteria), v);
  }

  /** The mock provider's list is already in price order: sorting it by price changes nothing. */
  lemma MockResultsInPriceOrder(params: SearchParams, currency: string, draws: seq<MockDraw>)
    requires ValidDraws(draws)
    ensures SortFlights(MockResults(params, currency, draws), ByPrice) == MockResults(params, currency, draws)
  {
    var r := MockResults(params, currency, draws);
    StableSortIsUnique(r, r, PriceOf);
  }

  /** Mock flights carry well-formed times and durations, so every sort order reads them. */
  lemma MockFlightReadable(params: SearchParams, currency: string, i: nat, d: MockDraw)
    requires ValidDraw(d)
    ensures var f := MockFlight(params, currency, i, d);
            && IsClockTime(f.departTime) && IsClockTime(f.arrivalTime)
            && TimeMinutes(f.departTime) == d.departHour * 60 + d.departMinute
            && DurationMinutes(f.duration) == (2 + d.durationHours) * 60 + d.durationMinutes
  {
    var f := MockFlight(params, currency, i, d);
    assert f.departTime == ClockText(d.departHour, d.departMinute);
    assert f.arrivalTime == ClockText(d.arrivalHour, d.arrivalMinute);
    assert f.duration == DurationText(2 + d.durationHours, d.durationMinutes);
    TimeMinutesOfClockText(d.departHour, d.departMinute);
    TimeMinutesOfClockText(d.arrivalHour, d.arrivalMinute);
    DurationOfText(2 + d.durationHours, d.durationMinutes);
  }

  // ------------------------------------------------------------ filtering

  function PriceWithin(maxPrice: int): FlightResult -> bool
  {
    (f: FlightResult) => f.price <= maxPrice
  }

  function StopsWithin(maxStops: int): FlightResult -> bool
  {
    (f: FlightResult) => f.stops <= maxStops
  }

  function FromAirlines(airlines: seq<string>): FlightResult -> bool
  {
    (f: FlightResult) => f.airline in airlines
  }

  /** The criteria as one predicate: the airline test applies only to a non-empty list. */
  function Accepts(filters: Filters): FlightResult -> bool
  {
    (f: FlightResult) => f.price <= filters.maxPrice && f.stops <= filters.maxStops
         && (|filters.airlines| == 0 || f.airline in filters.airlines)
  }

  /** The flights that meet the criteria, in input order. */
  function FilterFlights(flights: seq<FlightResult>, filters: Filters): seq<FlightResult>
  {
    Filter(flights, Accepts(filters))
  }

  /** What the panel shows when filtering keeps something: the kept flights, sorted. */
  function FilteredView(flights: seq<FlightResult>, filters: Filters, criteria: SortCriteria): seq<FlightResult>
    requires SortableBy(flights, criteria)
  {
    var kept := FilterFlights(flights, filters);
    assert SortableBy(kept, criteria) by {
      forall f | f in kept ensures f in flights {
        FilterMembership(flights, Accepts(filters), f);
      }
    }
    SortFlights(kept, criteria)
  }

  /** A flight is kept exactly when it is within both caps and, given a list, on a listed airline. */
  lemma FilterFlightsMembership(flights: seq<FlightResult>, filters: Filters, f: FlightResult)
    ensures f in FilterFlights(flights, filters)
        <==> && f in flights
             && f.price <= filters.maxPrice && f.stops <= filters.maxStops
             && (|filters.airlines| > 0 ==> f.airline in filters.airlines)
  {
    FilterMembership(flights, Accepts(filters), f);
  }

  /**
   * The filtered, sorted list is a permutation of the part of the input that
   * meets the criteria: each accepted flight as often as in the input, no other.
   */
  lemma FilteredViewCounts(flights: seq<FlightResult>, filters: Filters, criteria: SortCriteria, f: FlightResult)
    requires SortableBy(flights, criteria)
    ensures multiset(FilteredView(flights, filters, criteria))[f]
         == if Accepts(filters)(f) then multiset(flights)[f] else 0
    ensures SortedBy(FilteredView(flights, filters, criteria), SortKey(criteria))
  {
    FilterMultiset(flights, Accepts(filters), f);
  }

  /** A cap below every price filters everything out. */
  lemma PriceCapBelowAll(flights: seq<FlightResult>, filters: Filters)
    requires forall f :: f in flights ==> filters.maxPrice < f.price
    ensures FilterFlights(flights, filters) == []
  {
    FilterNone(flights, Accepts(filters));
  }

  // ------------------------------------------------------------ panel values

  /** `Math.max(...prices)` of a non-empty list. */
  function MaxPrice(flights: seq<FlightResult>): (m: int)
    requires |flights| > 0
    ensures forall i :: 0 <= i < |flights| ==> flights[i].price <= m
    ensures exists i :: 0 <= i < |flights| && flights[i].price == m
  {
    if |flights| == 1 then flights[0].price
    else
      var rest := MaxPrice(flights[1..]);
      assert forall i :: 1 <= i < |flights| ==> flights[i] == flights[1..][i - 1];
      if flights[0].price >= rest then flights[0].price else rest
  }

  /** `Math.ceil(x / 100) * 100`. */
  function CeilHundred(x: int): (r: int)
    ensures r % 100 == 0 && x <= r < x + 100
  {
    -((-x) / 100) * 100
  }

  /**
   * `getMaxPrice`: 2000 without results, else the least multiple of 100 that
   * is at least every price.
   */
  function PriceCeiling(flights: seq<FlightResult>): (r: int)
    ensures |flights| == 0 ==> r == 2000
    ensures |flights| > 0 ==> && r % 100 == 0
                              && (forall i :: 0 <= i < |flights| ==> flights[i].price <= r)
                              && (exists i :: 0 <= i < |flights| && r - 100 < flights[i].price)
  {
    if |flights| == 0 then 2000 else CeilHundred(MaxPrice(flights))
  }

  function AirlineOf(f: FlightResult): string
  {
    f.airline
  }

  /** `getUniqueAirlines`. */
  function UniqueAirlines(flights: seq<FlightResult>): seq<string>
  {
    Dedup(Map(flights, AirlineOf))
  }

  /**
   * The airline list has no repeats, names exactly the airlines of the
   * results, and lists them in the order they first appear.
   */
  lemma UniqueAirlinesSpec(flights: seq<FlightResult>)
    ensures NoDup(UniqueAirlines(flights))
    ensures forall a :: a in UniqueAirlines(flights) <==> exists f :: f in flights && f.airline == a
    ensures var names := Map(flights, AirlineOf);
            var r := UniqueAirlines(flights);
            forall i, j :: 0 <= i < j < |r| ==> FirstIndex(names, r[i]) < FirstIndex(names, r[j])
  {
    var names := Map(flights, AirlineOf);
    DedupFirstOccurrenceOrder(names);
    forall a ensures a in UniqueAirlines(flights) <==> exists f :: f in flights && f.airline == a {
      if a in UniqueAirlines(flights) {
        var k :| 0 <= k < |names| && names[k] == a;
        assert flights[k] in flights;
      }
      if exists f :: f in flights && f.airline == a {
        var f :| f in flights && f.airline == a;
        var k :| 0 <= k < |flights| && flights[k] == f;
        assert names[k] == a;
      }
    }
  }

  /** `displayedResults`: the filtered list, or the whole list when filtering kept nothing. */
  function Displayed(filteredResults: seq<FlightResult>, flightResults: seq<FlightResult>): (r: seq<FlightResult>)
    ensures |filteredResults| > 0 ==> r == filteredResults
    ensures |filteredResults| == 0 ==> r == flightResults
  {
    if |filteredResults| > 0 then filteredResults else flightResults
  }

  /**
   * The list shown for some results is never empty: it is the accepted
   * flights, sorted, when there are any, and every result otherwise.
   */
  lemma DisplayedView(flights: seq<FlightResult>, filters: Filters, criteria: SortCriteria)
    requires SortableBy(flights, criteria)
    ensures var d := Displayed(FilteredView(flights, filters, criteria), flights);
            && (|flights| > 0 ==> |d| > 0)
            && ((forall f :: f in flights ==> !Accepts(filters)(f)) ==> d == flights)
            && ((exists f :: f in flights && Accepts(filters)(f))
                ==> d == FilteredView(flights, filters, criteria)
                    && forall g :: g in d ==> g in flights && Accepts(filters)(g))
  {
    var view := FilteredView(flights, filters, criteria);
    forall g ensures g in view <==> g in flights && Accepts(filters)(g) {
      FilteredViewCounts(flights, filters, criteria, g);
    }
    if exists f :: f in flights && Accepts(filters)(f) {
      var f :| f in flights && Accepts(filters)(f);
      assert f in view;
    } else if view != [] {
      assert view[0] in view;
    }
  }

  /** Over-constrained filters show every result rather than none. */
  lemma OverConstrainedShowsAll(flights: seq<FlightResult>, filters: Filters, criteria: SortCriteria)
    requires SortableBy(flights, criteria)
    requires forall f :: f in flights ==> filters.maxPrice < f.price
    ensures Displayed(FilteredView(flights, filters, criteria), flights) == flights
  {
    DisplayedView(flights, filters, criteria);
  }

  /** When every flight meets the criteria, the view is all of them, sorted. */
  lemma AllAcceptedView(flights: seq<FlightResult>, filters: Filters, criteria: SortCriteria)
    requires SortableBy(flights, criteria)
    requires forall i :: 0 <= i < |flights| ==> Accepts(filters)(flights[i])
    ensures FilteredView(flights, filters, criteria) == SortFlights(flights, criteria)
  {
    FilterAll(flights, Accepts(filters));
  }

  /** Two flights (500, 1 stop) and (300, nonstop) under generous caps show cheapest first. */
  lemma CheapestFirstExample(x: FlightResult, y: FlightResult)
    requires x.price == 500 && x.stops == 1 && y.price == 300 && y.stops == 0
    ensures FilteredView([x, y], Filters(1000, 2, []), ByPrice) == [y, x]
  {
    var filters := Filters(1000, 2, []);
    assert Accepts(filters)(x) && Accepts(filters)(y);
    AllAcceptedView([x, y], filters, ByPrice);
    SortTwo(x, y, PriceOf);
  }

  /** The component's `sortCriteria`, `filters` and `filteredResults` state. */
  class ResultsPanel {
    var sortCriteria: SortCriteria
    var filters: Filters
    var filteredResults: seq<FlightResult>

    constructor ()
      ensures sortCriteria == ByPrice && filters == Filters(2000, 2, []) && filteredResults == []
    {
      sortCriteria := ByPrice;
      filters := Filters(2000, 2, []);
      filteredResults := [];
    }

    /** `applyFilters`: narrow a copy of the results filter by filter, sort it, store it. */
    method ApplyFilters(flightResults: seq<FlightResult>)
      requires SortableBy(flightResults, sortCriteria)
      modifies this`filteredResults
      ensures filteredResults == FilteredView(flightResults, filters, sortCriteria)
    {
      var results := flightResults;
      results := Filter(results, PriceWithin(filters.maxPrice));
      results := Filter(results, StopsWithin(filters.maxStops));
      var caps := filters;
      var withinCaps := (f: FlightResult) => f.price <= caps.maxPrice && f.stops <= caps.maxStops;
      FilterTwice(flightResults, PriceWithin(caps.maxPrice), StopsWithin(caps.maxStops), withinCaps);
      if |filters.airlines| > 0 {
        results := Filter(results, FromAirlines(filters.airlines));
        FilterTwice(flightResults, withinCaps, FromAirlines(filters.airlines), Accepts(filters));
      } else {
        FilterAgree(flightResults, withinCaps, Accepts(filters));
      }
      assert results == FilterFlights(flightResults, filters);
      assert SortableBy(results, sortCriteria) by {
        forall f | f in results ensures f in flightResults {
          FilterFlightsMembership(flightResults, filters, f);
        }
      }
      results := SortFlights(results, sortCriteria);
      filteredResults := results;
    }

    /** The effect run when results, criteria or sort order change. */
    method Refresh(flightResults: seq<FlightResult>)
      requires SortableBy(flightResults, sortCriteria)
      modifies this`filteredResults
      ensures filteredResults
           == if |flightResults| > 0 then FilteredView(flightResults, filters, sortCriteria) else []
    {
      if |flightResults| > 0 {
        ApplyFilters(flightResults);
      } else {
        filteredResults := [];
      }
    }

    method HandleFilterChange(newFilters: Filters)
      modifies this`filters
      ensures filters == newFilters
    {
      filters := newFilters;
    }

    method HandleSortChange(criteria: SortCriteria)
      modifies this`sortCriteria
      ensures sortCriteria == criteria
    {
      sortCriteria := criteria;
    }

    /** The "Reset Filters" button of the empty state. */
    method ResetFilters(flightResults: seq<FlightResult>)
      modifies this`filters
      ensures filters == Filters(PriceCeiling(flightResults), 2, [])
    {
      filters := Filters(PriceCeiling(flightResults), 2, []);
    }

    /** The list the panel renders. */
    function DisplayedResults(flightResults: seq<FlightResult>): seq<FlightResult>
      reads this
    {
      Displayed(filteredResults, flightResults)
    }
  }
}
