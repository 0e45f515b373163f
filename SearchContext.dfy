/**
 * The search state container (src/context/FlightSearchContext.tsx): the query
 * and result records, the bounded recent-search history, the query-string
 * encoding used for deep links, the mock provider's price rule and ordering,
 * and the container object whose cells the search operations update.
 */
module SearchContext {
  import opened Wrappers
  import opened Seqs
  import opened Text
  import opened StableSort

  /** A user's query. `returnDate` is `""` for a one-way trip. */
  datatype SearchParams = SearchParams(
    origin: string,
    destination: string,
    departDate: string,
    returnDate: string,
    passengers: int,
    cabinClass: string)

  /** One priced itinerary as the provider returns it. */
  datatype FlightResult = FlightResult(
    id: string,
    airline: string,
    airlineLogo: string,
    flightNumber: string,
    origin: string,
    destination: string,
    departTime: string,
    arrivalTime: string,
    duration: string,
    stops: int,
    price: int,
    currency: string)

  /** The option values of the cabin-class menu. */
  const Economy := "economy"
  const PremiumEconomy := "premium_economy"
  const Business := "business"
  const First := "first"

  /**
   * `defaultSearchParams`. The two dates are computed from the clock when the
   * module loads (a week and two weeks ahead), so they are inputs here.
   */
  function DefaultSearchParams(departDate: string, returnDate: string): (d: SearchParams)
    ensures d.origin == "" && d.destination == ""
    ensures d.passengers == 1 && d.cabinClass == Economy
  {
    SearchParams("", "", departDate, returnDate, 1, Economy)
  }

  // ------------------------------------------------------------ recent searches

  const MaxRecentSearches := 5

  /** Two searches with the same origin and destination. */
  predicate SameRoute(a: SearchParams, b: SearchParams)
  {
    a.origin == b.origin && a.destination == b.destination
  }

  /** The filter callback that drops entries on `p`'s route. */
  function OtherRoute(p: SearchParams): SearchParams -> bool
  {
    s => !SameRoute(s, p)
  }

  /** No two entries of the history share a route. */
  predicate DistinctRoutes(h: seq<SearchParams>)
  {
    Pairwise(h, (a: SearchParams, b: SearchParams) => !SameRoute(a, b))
  }

  /**
   * The history after searching `p`: `p` first, then the older entries on
   * other routes, newest first, cut at five entries.
   */
  function UpdateHistory(history: seq<SearchParams>, p: SearchParams): (r: seq<SearchParams>)
    ensures 1 <= |r| <= MaxRecentSearches && r[0] == p
    ensures forall i :: 1 <= i < |r| ==> !SameRoute(r[i], p)
    // the older entries kept are a leading run of those on other routes ...
    ensures r[1..] <= Filter(history, OtherRoute(p))
    // ... and that run is cut short only when the history is full
    ensures |r| < MaxRecentSearches ==> r[1..] == Filter(history, OtherRoute(p))
  {
    var candidates := [p] + Filter(history, OtherRoute(p));
    assert candidates[1..] == Filter(history, OtherRoute(p));
    if |candidates| <= MaxRecentSearches then candidates else candidates[..MaxRecentSearches]
  }

  /** The older entries that survive keep their relative order. */
  lemma HistoryKeepsOrder(history: seq<SearchParams>, p: SearchParams)
    ensures IsSubseq(UpdateHistory(history, p)[1..], history)
  {
    var r := UpdateHistory(history, p);
    var kept := Filter(history, OtherRoute(p));
    FilterIsSubseq(history, OtherRoute(p));
    SubseqPrefix(kept, history, |r| - 1);
    assert kept[..|r| - 1] == r[1..];
  }

  /** A history without repeated routes stays so. */
  lemma HistoryDistinctRoutes(history: seq<SearchParams>, p: SearchParams)
    requires DistinctRoutes(history)
    ensures DistinctRoutes(UpdateHistory(history, p))
  {
    var r := UpdateHistory(history, p);
    var differ := (a: SearchParams, b: SearchParams) => !SameRoute(a, b);
    var kept := Filter(history, OtherRoute(p));
    FilterPairwise(history, OtherRoute(p), differ);
    assert r[1..] == kept[..|r| - 1];
    forall i, j | 0 <= i < j < |r| ensures differ(r[i], r[j]) {
      if i > 0 {
        assert r[i] == kept[i - 1] && r[j] == kept[j - 1];
      }
    }
  }

  /** Repeating the same search leaves the history as one search left it. */
  lemma HistoryIdempotent(history: seq<SearchParams>, p: SearchParams)
    ensures UpdateHistory(UpdateHistory(history, p), p) == UpdateHistory(history, p)
  {
    var r := UpdateHistory(history, p);
    assert r == [p] + r[1..];
    FilterConcat([p], r[1..], OtherRoute(p));
    FilterSingleton(p, OtherRoute(p));
    FilterAll(r[1..], OtherRoute(p));
    assert Filter(r, OtherRoute(p)) == r[1..];
  }

  /** Searching (A,B), then (C,D), then (A,B) again leaves two entries, (A,B) first. */
  lemma HistoryRepeatedRoute(ab: SearchParams, cd: SearchParams, ab2: SearchParams)
    requires !SameRoute(ab, cd) && SameRoute(ab, ab2)
    ensures UpdateHistory(UpdateHistory(UpdateHistory([], ab), cd), ab2) == [ab2, cd]
  {
    var h1 := UpdateHistory([], ab);
    assert h1 == [ab];
    var h2 := UpdateHistory(h1, cd);
    FilterSingleton(ab, OtherRoute(cd));
    assert h2 == [cd, ab];
    assert [cd, ab] == [cd] + [ab];
    FilterConcat([cd], [ab], OtherRoute(ab2));
    FilterSingleton(cd, OtherRoute(ab2));
    FilterSingleton(ab, OtherRoute(ab2));
  }

  // ------------------------------------------------------------ query string

  /** The path of the results page. */
  const SearchPath := "/search"

  /** The six query keys: the field names of `SearchParams`. */
  const QueryKeys: set<string> :=
    {"origin", "destination", "departDate", "returnDate", "passengers", "cabinClass"}

  /** `new URLSearchParams({...})` built from a search: one key per field. */
  function EncodeQuery(p: SearchParams): (q: map<string, string>)
    ensures q.Keys == QueryKeys
  {
    map["origin" := p.origin,
        "destination" := p.destination,
        "departDate" := p.departDate,
        "returnDate" := p.returnDate,
        "passengers" := IntToString(p.passengers),
        "cabinClass" := p.cabinClass]
  }

  /** `params.get(key)`, with a missing key read as `""` (both are falsy). */
  function Param(q: map<string, string>, key: string): string
  {
    if key in q then q[key] else ""
  }

  /** `value || fallback` on strings. */
  function OrDefault(value: string, fallback: string): string
  {
    if value != "" then value else fallback
  }

  /** `Number(value) || fallback`: 0 and `NaN` are falsy. */
  function NumberOrDefault(value: string, fallback: int): int
  {
    match ToNumber(value)
    case Num(n) => if n != 0 then n else fallback
    case NaN => fallback
  }

  /**
   * The URL effect's decoding: a search exists only when both origin and
   * destination are given; every other missing or empty field takes its
   * default.
   */
  function DecodeQuery(q: map<string, string>, defaults: SearchParams): (r: Option<SearchParams>)
    ensures r.Some? <==> Param(q, "origin") != "" && Param(q, "destination") != ""
    ensures r.Some? ==> (r.value.origin == Param(q, "origin")
                         && r.value.destination == Param(q, "destination"))
  {
    var origin := Param(q, "origin");
    var destination := Param(q, "destination");
    if origin != "" && destination != "" then
      Some(SearchParams(
        origin,
        destination,
        OrDefault(Param(q, "departDate"), defaults.departDate),
        OrDefault(Param(q, "returnDate"), defaults.returnDate),
        NumberOrDefault(Param(q, "passengers"), defaults.passengers),
        OrDefault(Param(q, "cabinClass"), defaults.cabinClass)))
    else None
  }

  /** Missing or empty optional parameters come back as the defaults. */
  lemma DecodeUsesDefaults(q: map<string, string>, defaults: SearchParams)
    requires DecodeQuery(q, defaults).Some?
    ensures var p := DecodeQuery(q, defaults).value;
            && (Param(q, "departDate") == "" ==> p.departDate == defaults.departDate)
            && (Param(q, "returnDate") == "" ==> p.returnDate == defaults.returnDate)
            && (Param(q, "cabinClass") == "" ==> p.cabinClass == defaults.cabinClass)
            && (Param(q, "departDate") != "" ==> p.departDate == Param(q, "departDate"))
            && (Param(q, "returnDate") != "" ==> p.returnDate == Param(q, "returnDate"))
            && (Param(q, "cabinClass") != "" ==> p.cabinClass == Param(q, "cabinClass"))
  {
  }

  /** A passenger count that is 0, missing or not a number becomes the default, 1. */
  lemma DecodePassengers(q: map<string, string>, departDate: string, returnDate: string)
    requires DecodeQuery(q, DefaultSearchParams(departDate, returnDate)).Some?
    ensures var n := DecodeQuery(q, DefaultSearchParams(departDate, returnDate)).value.passengers;
            var v := ToNumber(Param(q, "passengers"));
            && n != 0
            && (v == NaN || v == Num(0) ==> n == 1)
            && (v.Num? && v.value != 0 ==> n == v.value)
            && (Param(q, "passengers") == "" ==> n == 1)
  {
  }

  /** What decoding an encoded search gives back: empty fields and 0 passengers become defaults. */
  function Normalized(p: SearchParams, defaults: SearchParams): SearchParams
  {
    p.(departDate := OrDefault(p.departDate, defaults.departDate),
       returnDate := OrDefault(p.returnDate, defaults.returnDate),
       passengers := if p.passengers != 0 then p.passengers else defaults.passengers,
       cabinClass := OrDefault(p.cabinClass, defaults.cabinClass))
  }

  /** Decoding an encoded search returns it, up to the defaults for empty fields. */
  lemma DecodeEncode(p: SearchParams, defaults: SearchParams)
    ensures DecodeQuery(EncodeQuery(p), defaults)
         == if p.origin != "" && p.destination != "" then Some(Normalized(p, defaults)) else None
  {
    ToNumberOfIntToString(p.passengers);
  }

  /** In particular a complete search survives the round trip unchanged. */
  lemma DecodeEncodeComplete(p: SearchParams, defaults: SearchParams)
    requires p.origin != "" && p.destination != "" && p.departDate != "" && p.returnDate != ""
    requires p.cabinClass != "" && p.passengers != 0
    ensures DecodeQuery(EncodeQuery(p), defaults) == Some(p)
  {
    DecodeEncode(p, defaults);
  }

  /** A query holding exactly the six keys, non-empty, with a canonical passenger count. */
  predicate CanonicalQuery(q: map<string, string>)
  {
    && q.Keys == QueryKeys
    && (forall k :: k in q ==> q[k] != "")
    && ToNumber(q["passengers"]).Num?
    && ToNumber(q["passengers"]).value != 0
    && IntToString(ToNumber(q["passengers"]).value) == q["passengers"]
  }

  /** The other direction: re-encoding a decoded canonical query gives the query back. */
  lemma EncodeDecode(q: map<string, string>, defaults: SearchParams)
    requires CanonicalQuery(q)
    ensures DecodeQuery(q, defaults).Some?
    ensures EncodeQuery(DecodeQuery(q, defaults).value) == q
  {
    var e := EncodeQuery(DecodeQuery(q, defaults).value);
    assert e.Keys == q.Keys;
    forall k | k in q ensures e[k] == q[k] {
    }
  }

  // ------------------------------------------------------------ mock provider

  datatype Airline = Airline(name: string, logo: string)

  /** The carriers the mock provider picks from. */
  const MockAirlines: seq<Airline> := [
    Airline("Delta Air Lines", "https://logo.clearbit.com/delta.com"),
    Airline("American Airlines", "https://logo.clearbit.com/aa.com"),
    Airline("United Airlines", "https://logo.clearbit.com/united.com"),
    Airline("Southwest Airlines", "https://logo.clearbit.com/southwest.com"),
    Airline("JetBlue Airways", "https://logo.clearbit.com/jetblue.com"),
    Airline("British Airways", "https://logo.clearbit.com/britishairways.com"),
    Airline("Lufthansa", "https://logo.clearbit.com/lufthansa.com"),
    Airline("Air France", "https://logo.clearbit.com/airfrance.com")]

  /** How many flights one mock search returns. */
  const MockCount := 10

  /**
   * The random numbers drawn for one mock flight, each of them
   * `Math.floor(Math.random() * n)` for the `n` that `ValidDraw` bounds.
   */
  datatype MockDraw = MockDraw(
    airline: nat,
    stops: nat,
    priceOffset: nat,
    flightNumber: nat,
    departHour: nat,
    departMinute: nat,
    arrivalHour: nat,
    arrivalMinute: nat,
    durationHours: nat,
    durationMinutes: nat)

  predicate ValidDraw(d: MockDraw)
  {
    && d.airline < |MockAirlines|
    && d.stops < 3
    && d.priceOffset < 800
    && d.flightNumber < 1000
    && d.departHour < 24 && d.departMinute < 60
    && d.arrivalHour < 24 && d.arrivalMinute < 60
    && d.durationHours < 10 && d.durationMinutes < 60
  }

  /** The cabin-class price rule applied to a base fare. */
  function AdjustedPrice(cabinClass: string, basePrice: int): int
  {
    if cabinClass == Economy then basePrice
    else if cabinClass == Business then basePrice * 3
    else basePrice * 5
  }

  /** The rule on the four menu classes: premium economy is priced like first class. */
  lemma CabinPriceRule(basePrice: int)
    ensures AdjustedPrice(Economy, basePrice) == basePrice
    ensures AdjustedPrice(Business, basePrice) == 3 * basePrice
    ensures AdjustedPrice(PremiumEconomy, basePrice) == 5 * basePrice
    ensures AdjustedPrice(First, basePrice) == 5 * basePrice
    ensures basePrice > 0 ==> AdjustedPrice(PremiumEconomy, basePrice) > AdjustedPrice(Business, basePrice)
  {
  }

  /** `"H:MM"`, the mock's time-of-day format. */
  function ClockText(hour: nat, minute: nat): string
  {
    NatToString(hour) + ":" + PadStart(NatToString(minute), 2, '0')
  }

  /** `"Hh Mm"`, the mock's duration format. */
  function DurationText(hours: nat, minutes: nat): string
  {
    NatToString(hours) + "h " + NatToString(minutes) + "m"
  }

  /** The id of the `i`-th generated flight, counting from 0. */
  function MockId(i: nat): string
  {
    "flight-" + NatToString(i + 1)
  }

  /** Mock ids are distinct. */
  lemma MockIdInjective(i: nat, j: nat)
    requires MockId(i) == MockId(j)
    ensures i == j
  {
    var prefix := "flight-";
    assert NatToString(i + 1) == MockId(i)[|prefix|..];
    assert NatToString(j + 1) == MockId(j)[|prefix|..];
  }

  /** The `i`-th generated flight before sorting. */
  function MockFlight(params: SearchParams, currency: string, i: nat, d: MockDraw): (f: FlightResult)
    requires ValidDraw(d)
    ensures f.origin == params.origin && f.destination == params.destination
    ensures f.currency == currency && f.id == MockId(i)
    ensures 0 <= f.stops < 3 && f.airline == MockAirlines[d.airline].name
  {
    var airline := MockAirlines[d.airline];
    var code := if |airline.name| >= 2 then airline.name[..2] else airline.name;
    FlightResult(
      MockId(i),
      airline.name,
      airline.logo,
      ToUpper(code) + NatToString(d.flightNumber + 100),
      params.origin,
      params.destination,
      ClockText(d.departHour, d.departMinute),
      ClockText(d.arrivalHour, d.arrivalMinute),
      DurationText(2 + d.durationHours, d.durationMinutes),
      d.stops,
      AdjustedPrice(params.cabinClass, 200 + d.priceOffset),
      currency)
  }

  function PriceOf(f: FlightResult): int
  {
    f.price
  }

  function IdOf(f: FlightResult): string
  {
    f.id
  }

  predicate ValidDraws(draws: seq<MockDraw>)
  {
    |draws| == MockCount && forall i :: 0 <= i < |draws| ==> ValidDraw(draws[i])
  }

  /** The generated flights in generation order. */
  function UnsortedMockResults(params: SearchParams, currency: string, draws: seq<MockDraw>): (r: seq<FlightResult>)
    requires ValidDraws(draws)
    ensures |r| == MockCount
  {
    seq(MockCount, i requires 0 <= i < MockCount => MockFlight(params, currency, i, draws[i]))
  }

  /** `generateMockResults`: the generated flights, cheapest first. */
  function MockResults(params: SearchParams, currency: string, draws: seq<MockDraw>): (r: seq<FlightResult>)
    requires ValidDraws(draws)
    ensures |r| == MockCount
    ensures SortedBy(r, PriceOf)
    ensures multiset(r) == multiset(UnsortedMockResults(params, currency, draws))
  {
    var u := UnsortedMockResults(params, currency, draws);
    var r := SortBy(u, PriceOf);
    assert |r| == |multiset(r)| == |multiset(u)| == |u|;
    r
  }

  /** Every mock flight is priced by the cabin rule from a base fare in 200..999. */
  lemma MockPrices(params: SearchParams, currency: string, draws: seq<MockDraw>, f: FlightResult)
    requires ValidDraws(draws)
    requires f in MockResults(params, currency, draws)
    ensures exists base :: 200 <= base < 1000 && f.price == AdjustedPrice(params.cabinClass, base)
    ensures f.origin == params.origin && f.destination == params.destination && f.currency == currency
  {
    var u := UnsortedMockResults(params, currency, draws);
    assert f in multiset(MockResults(params, currency, draws));
    assert f in multiset(u);
    var i :| 0 <= i < |u| && u[i] == f;
    UnsortedMockFlight(params, currency, draws, i);
  }

  /** The `i`-th generated flight: the route and currency of the search, a base fare in 200..999. */
  lemma UnsortedMockFlight(params: SearchParams, currency: string, draws: seq<MockDraw>, i: nat)
    requires ValidDraws(draws) && i < MockCount
    ensures var f := UnsortedMockResults(params, currency, draws)[i];
            && 200 <= 200 + draws[i].priceOffset < 1000
            && f.price == AdjustedPrice(params.cabinClass, 200 + draws[i].priceOffset)
            && f.origin == params.origin && f.destination == params.destination && f.currency == currency
            && f.id == MockId(i)
  {
    assert UnsortedMockResults(params, currency, draws)[i] == MockFlight(params, currency, i, draws[i]);
  }

  /** `flight-1` .. `flight-10`. */
  function MockIds(): (ids: seq<string>)
    ensures |ids| == MockCount
  {
    seq(MockCount, i requires 0 <= i < MockCount => MockId(i))
  }

  lemma MockIdsDistinct()
    ensures NoDup(MockIds())
  {
    var ids := MockIds();
    forall i, j | 0 <= i < j < |ids| ensures ids[i] != ids[j] {
      if ids[i] == ids[j] {
        MockIdInjective(i, j);
      }
    }
  }

  /** The ids of the returned flights are a permutation of flight-1 .. flight-10. */
  lemma MockIdsPermutation(params: SearchParams, currency: string, draws: seq<MockDraw>)
    requires ValidDraws(draws)
    ensures multiset(Map(MockResults(params, currency, draws), IdOf)) == multiset(MockIds())
    ensures NoDup(Map(MockResults(params, currency, draws), IdOf))
  {
    var u := UnsortedMockResults(params, currency, draws);
    var r := MockResults(params, currency, draws);
    MapPermutation(r, u, IdOf);
    UnsortedMockIds(params, currency, draws);
    MockIdsDistinct();
    PermutationNoDup(Map(r, IdOf), MockIds());
  }

  /** Before sorting, the i-th flight has the i-th id. */
  lemma UnsortedMockIds(params: SearchParams, currency: string, draws: seq<MockDraw>)
    requires ValidDraws(draws)
    ensures Map(UnsortedMockResults(params, currency, draws), IdOf) == MockIds()
  {
    var ids := Map(UnsortedMockResults(params, currency, draws), IdOf);
    forall i | 0 <= i < MockCount ensures ids[i] == MockIds()[i] {
      UnsortedMockFlight(params, currency, draws, i);
    }
  }

  // ------------------------------------------------------------ the container

  /** What the delayed completion of a search closes over. */
  datatype PendingSearch = PendingSearch(params: SearchParams, currency: string)

  /** The provider's state cells and the browser store of the history. */
  class SearchState {
    const defaults: SearchParams
    var searchParams: SearchParams
    var flightResults: seq<FlightResult>
    var isLoading: bool
    var error: Option<string>
    var recentSearches: seq<SearchParams>
    var currency: string
    /** The `recentSearches` entry of local storage; `None` when it is absent. */
    var savedSearches: Option<seq<SearchParams>>

    constructor (departDate: string, returnDate: string, saved: Option<seq<SearchParams>>)
      ensures defaults == DefaultSearchParams(departDate, returnDate)
      ensures searchParams == defaults
      ensures flightResults == [] && !isLoading && error == None
      ensures recentSearches == [] && currency == "USD"
      ensures savedSearches == saved
    {
      defaults := DefaultSearchParams(departDate, returnDate);
      searchParams := DefaultSearchParams(departDate, returnDate);
      flightResults := [];
      isLoading := false;
      error := None;
      recentSearches := [];
      currency := "USD";
      savedSearches := saved;
    }

    /** The mount effect: restore the history from local storage when it is there. */
    method LoadSavedSearches()
      modifies this`recentSearches
      ensures recentSearches == if savedSearches.Some? then savedSearches.value else old(recentSearches)
    {
      if savedSearches.Some? {
        recentSearches := savedSearches.value;
      }
    }

    /**
     * `performSearch`: marks the search as loading, clears the error, records
     * it in the history and its store, and returns the navigation to the
     * results page (when not already there) and what the delayed completion
     * will use.
     */
    method PerformSearch(params: SearchParams, pathname: string)
      returns (navigation: Option<map<string, string>>, pending: PendingSearch)
      modifies this
      ensures isLoading && error == None
      ensures recentSearches == UpdateHistory(old(recentSearches), params)
      ensures |recentSearches| <= MaxRecentSearches && recentSearches[0] == params
      ensures savedSearches == Some(recentSearches)
      ensures navigation == if pathname != SearchPath then Some(EncodeQuery(params)) else None
      ensures pending == PendingSearch(params, currency)
      ensures searchParams == old(searchParams) && flightResults == old(flightResults)
      ensures currency == old(currency)
    {
      navigation, pending := PerformSearchSeeing(params, pathname, recentSearches);
    }

    /**
     * `performSearch` as a closure created at a render that saw the history
     * `seen`: the new history is built from `seen`, whatever the history
     * cell holds when the closure runs.
     */
    method PerformSearchSeeing(params: SearchParams, pathname: string, seen: seq<SearchParams>)
      returns (navigation: Option<map<string, string>>, pending: PendingSearch)
      modifies this
      ensures isLoading && error == None
      ensures recentSearches == UpdateHistory(seen, params)
      ensures savedSearches == Some(recentSearches)
      ensures navigation == if pathname != SearchPath then Some(EncodeQuery(params)) else None
      ensures pending == PendingSearch(params, currency)
      ensures searchParams == old(searchParams) && flightResults == old(flightResults)
      ensures currency == old(currency)
    {
      isLoading := true;
      error := None;
      var updated := UpdateHistory(seen, params);
      recentSearches := updated;
      savedSearches := Some(updated);
      var queryParams := EncodeQuery(params);
      if pathname != SearchPath {
        navigation := Some(queryParams);
      } else {
        navigation := None;
      }
      pending := PendingSearch(params, currency);
    }

    /**
     * The two mount effects of the first render, in order: restore the
     * stored history, then decode the page's query. Both run with the
     * closures of the first render, so a search started by the query is
     * recorded against the history that render saw, the empty one: a deep
     * link to `/search` replaces the stored history by that one search.
     */
    method Mount(pathname: string, query: map<string, string>)
      returns (pending: Option<PendingSearch>)
      requires recentSearches == []
      modifies this
      ensures var decoded := DecodeQuery(query, defaults);
              if pathname == SearchPath && decoded.Some? then
                && searchParams == decoded.value
                && isLoading && error == None
                && recentSearches == [decoded.value]
                && savedSearches == Some([decoded.value])
                && pending == Some(PendingSearch(decoded.value, currency))
                && flightResults == old(flightResults) && currency == old(currency)
              else
                && pending == None
                && recentSearches == (if old(savedSearches).Some? then old(savedSearches).value else [])
                && savedSearches == old(savedSearches)
                && searchParams == old(searchParams) && isLoading == old(isLoading)
                && error == old(error)
                && flightResults == old(flightResults) && currency == old(currency)
    {
      var firstRender := recentSearches;
      LoadSavedSearches();
      pending := None;
      if pathname == SearchPath {
        var decoded := DecodeQuery(query, defaults);
        if decoded.Some? {
          searchParams := decoded.value;
          var navigation, p := PerformSearchSeeing(decoded.value, pathname, firstRender);
          assert UpdateHistory(firstRender, decoded.value) == [decoded.value];
          pending := Some(p);
        }
      }
    }

    /** The timer callback of a search: store the generated results and stop loading. */
    method CompleteSearch(pending: PendingSearch, draws: seq<MockDraw>)
      requires ValidDraws(draws)
      modifies this`flightResults, this`isLoading
      ensures flightResults == MockResults(pending.params, pending.currency, draws)
      ensures !isLoading
    {
      flightResults := MockResults(pending.params, pending.currency, draws);
      isLoading := false;
    }

    /** `clearRecentSearches`: empty the history and remove it from local storage. */
    method ClearRecentSearches()
      modifies this`recentSearches, this`savedSearches
      ensures recentSearches == [] && savedSearches == None
    {
      recentSearches := [];
      savedSearches := None;
    }

    method SetSearchParams(params: SearchParams)
      modifies this`searchParams
      ensures searchParams == params
    {
      searchParams := params;
    }

    method SetCurrency(code: string)
      modifies this`currency
      ensures currency == code
    {
      currency := code;
    }

    /**
     * The location effect on a change of location after mounting: on the
     * results page, a query with an origin and a destination becomes the
     * current search and is searched against the current history.
     */
    method LocationChanged(pathname: string, query: map<string, string>)
      returns (pending: Option<PendingSearch>)
      modifies this
      ensures var decoded := DecodeQuery(query, defaults);
              if pathname == SearchPath && decoded.Some? then
                && searchParams == decoded.value
                && isLoading && error == None
                && recentSearches == UpdateHistory(old(recentSearches), decoded.value)
                && savedSearches == Some(recentSearches)
                && pending == Some(PendingSearch(decoded.value, currency))
                && flightResults == old(flightResults) && currency == old(currency)
              else
                && pending == None
                && searchParams == old(searchParams) && isLoading == old(isLoading)
                && error == old(error) && recentSearches == old(recentSearches)
                && savedSearches == old(savedSearches)
                && flightResults == old(flightResults) && currency == old(currency)
    {
      pending := None;
      if pathname == SearchPath {
        var decoded := DecodeQuery(query, defaults);
        if decoded.Some? {
          searchParams := decoded.value;
          var navigation, p := PerformSearch(decoded.value, pathname);
          pending := Some(p);
        }
      }
    }
  }
}
