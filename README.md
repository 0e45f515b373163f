# Flight search: a verified model of the client logic

This project models the deterministic logic of a small React flight-search
front end in Dafny, and proves properties of it. The front end has five parts:

- **Search state container** (`SearchContext`, a class with one field per
  state cell):
  - `performSearch` marks the search as loading and rewrites the bounded
    recent-search history. When not already on the results page, it returns
    the query string to navigate to.
  - A later completion step stores the results of the mock provider. The
    provider prices each flight by cabin class, then sorts the list by price.
  - The URL effect decodes a query string into a search, falling back to
    the defaults.
- **Results panel** (`FlightResults`):
  - Filtering by price cap, stop cap and an optional airline list.
  - Sorting by price, by a duration parsed with the regular expression
    `(\d+)h\s*(\d+)m`, or by a departure time parsed from `H:MM`.
  - The default price cap, the list of distinct airlines, and the fallback
    to the unfiltered list when filtering keeps nothing.
- **Filter panel** (`FilterSection`): the airline checkbox toggle, and the
  panel's local copy of the criteria.
- **Text shown on a flight card** (`FlightCard`, `CurrencySelector`): the
  12-hour clock, the currency symbols and the stops label.
- **Search form** (`SearchForm`, `CityInput`):
  - Swapping origin and destination, the trip-type switch, the single-field
    updaters, and submission.
  - The case-insensitive airport suggestions drawn from a fixed table.

`Array.prototype.sort`, which is stable, is modelled by a stable insertion
sort (`StableSort`). `StableSort.StableSortIsUnique` shows that the insertion
sort is not an arbitrary choice: every sorted, stable arrangement of a list is
the same list. The JavaScript conversions the code relies on are written out
in `Text`:

- `Number`, `parseInt` and `toString`.
- `split`, `padStart` and `includes`.
- `toLowerCase` and `toUpperCase`.

The mock provider's price rule is taken from the code. Economy is the base
fare, business is three times the base fare, and every other class is five
times the base fare. Premium economy is therefore priced like first class.

## Model

| member | source | states |
|---|---|---|
| SearchContext.DefaultSearchParams | src/context/FlightSearchContext.tsx:43-50 | the default search has no route, one passenger and economy class; its dates are inputs |
| SearchContext.UpdateHistory | src/context/FlightSearchContext.tsx:115-120 | the new history starts with the search and has at most 5 entries; no later entry shares its route; the older entries kept are a leading run of those on other routes, cut short only when the history is full |
| SearchContext.HistoryKeepsOrder | src/context/FlightSearchContext.tsx:115-120 | the older entries that survive keep their relative order |
| SearchContext.HistoryDistinctRoutes | src/context/FlightSearchContext.tsx:117-119 | a history without two entries on one route stays so |
| SearchContext.HistoryIdempotent | src/context/FlightSearchContext.tsx:115-120 | doing the same search twice leaves the history that doing it once leaves |
| SearchContext.HistoryRepeatedRoute | src/context/FlightSearchContext.tsx:115-120 | searching (A,B), (C,D), then (A,B) again gives the two-entry history [(A,B), (C,D)] |
| SearchContext.EncodeQuery | src/context/FlightSearchContext.tsx:126-133 | the query has exactly the six field names as keys |
| SearchContext.DecodeQuery | src/context/FlightSearchContext.tsx:92-100 | a search is decoded exactly when both origin and destination are non-empty, and it carries them unchanged |
| SearchContext.DecodeUsesDefaults | src/context/FlightSearchContext.tsx:96-99 | each missing or empty date or cabin class takes its default; a non-empty one is kept |
| SearchContext.DecodePassengers | src/context/FlightSearchContext.tsx:98 | a passenger count that is missing, 0 or not a number becomes 1; any other number is kept; the result is never 0 |
| SearchContext.DecodeEncode | src/context/FlightSearchContext.tsx:92-133 | decoding an encoded search gives it back, with empty fields and 0 passengers replaced by the defaults, and nothing when the route is incomplete |
| SearchContext.DecodeEncodeComplete | src/context/FlightSearchContext.tsx:92-133 | a search with every field filled in and a non-zero passenger count survives the round trip unchanged |
| SearchContext.EncodeDecode | src/context/FlightSearchContext.tsx:92-133 | a query with exactly the six keys, none empty, and a canonical non-zero passenger count decodes to a search that re-encodes to the same query |
| SearchContext.CabinPriceRule | src/context/FlightSearchContext.tsx:173-178 | economy pays the base fare, business three times it, premium economy and first class five times it |
| SearchContext.MockIdInjective | src/context/FlightSearchContext.tsx:181 | different flight indexes get different ids |
| SearchContext.MockFlight | src/context/FlightSearchContext.tsx:170-193 | a generated flight carries the search's route, the current currency, the id of its index, 0 to 2 stops and a listed airline |
| SearchContext.MockResults | src/context/FlightSearchContext.tsx:194 | the ten generated flights come back as a permutation of themselves, in non-decreasing price order |
| SearchContext.MockPrices | src/context/FlightSearchContext.tsx:173-193 | every returned flight is priced by the cabin rule from a base fare in 200..999, on the searched route, in the current currency |
| SearchContext.UnsortedMockFlight | src/context/FlightSearchContext.tsx:170-193 | the i-th generated flight has id `flight-<i+1>` and a cabin-rule price from a base fare in 200..999 |
| SearchContext.MockIdsPermutation | src/context/FlightSearchContext.tsx:170-194 | the ids of the returned flights are a permutation of `flight-1` .. `flight-10`, so they are distinct |
| SearchContext.SearchState.constructor | src/context/FlightSearchContext.tsx:67-72 | the initial cells: the default search, no results, not loading, no error, an empty history, USD |
| SearchContext.SearchState.LoadSavedSearches | src/context/FlightSearchContext.tsx:78-83 | a stored history replaces the in-memory one; without a stored one nothing changes |
| SearchContext.SearchState.PerformSearch | src/context/FlightSearchContext.tsx:110-139 | loading is set and the error cleared; the history becomes UpdateHistory of the old one and is stored; the encoded query is the navigation target unless already on `/search`; the query, the results and the currency are unchanged |
| SearchContext.SearchState.PerformSearchSeeing | src/context/FlightSearchContext.tsx:110-139 | the effects of `performSearch` when the closure saw the history `seen`: the new history is UpdateHistory of `seen`, whatever the cell holds |
| SearchContext.SearchState.Mount | src/context/FlightSearchContext.tsx:78-106 | the first render's two effects: without a decodable `/search` query the stored history is restored; with one, the decoded search is searched and the history, stored copy included, becomes that one search |
| SearchContext.SearchState.CompleteSearch | src/context/FlightSearchContext.tsx:141-149 | the results become the sorted mock results for the pending search, loading ends, and nothing else changes |
| SearchContext.SearchState.ClearRecentSearches | src/context/FlightSearchContext.tsx:152-155 | the history and its stored copy are both emptied |
| SearchContext.SearchState.SetSearchParams | src/context/FlightSearchContext.tsx:67 | the query cell takes the new value and nothing else changes |
| SearchContext.SearchState.SetCurrency | src/context/FlightSearchContext.tsx:72 | the currency cell takes the new code and nothing else changes |
| SearchContext.SearchState.LocationChanged | src/context/FlightSearchContext.tsx:86-106 | on a later change of location to `/search` with a decodable query, the decoded search becomes the query and is searched; otherwise no cell changes |
| FlightResults.PatternMatched | src/components/FlightResults/index.tsx:62 | wherever `(\d+)h\s*(\d+)m` occurs, the matcher at that index finds it, with its own two numbers |
| FlightResults.MatchIsPattern | src/components/FlightResults/index.tsx:62 | the matcher succeeds only where the pattern occurs |
| FlightResults.DurationOfFirstPattern | src/components/FlightResults/index.tsx:61-67 | the duration is hours * 60 + minutes of the leftmost occurrence of the pattern |
| FlightResults.DurationWithoutPattern | src/components/FlightResults/index.tsx:61-67 | a duration in which the pattern does not occur counts as 0 minutes |
| FlightResults.DurationOfText | src/components/FlightResults/index.tsx:61-67 | the text `"Hh Mm"` lasts H * 60 + M minutes |
| FlightResults.TimeMinutesOfClockText | src/components/FlightResults/index.tsx:71-74 | the text `"H:MM"` is a readable time H * 60 + MM minutes after midnight |
| FlightResults.SortFlights | src/components/FlightResults/index.tsx:55-79 | the sorted copy is a permutation of its input, non-decreasing in the chosen key |
| FlightResults.SortFlightsOrder | src/components/FlightResults/index.tsx:55-79 | an earlier flight in the sorted copy has a price, parsed duration or parsed departure time no greater than a later one, and both come from the input |
| FlightResults.SortFlightsStable | src/components/FlightResults/index.tsx:56 | flights with equal keys keep their input order |
| FlightResults.MockResultsInPriceOrder | src/context/FlightSearchContext.tsx:194 | the provider's list is already in price order: the panel's price sort returns it unchanged |
| FlightResults.MockFlightReadable | src/context/FlightSearchContext.tsx:187-189 | a generated flight's times are readable and its departure minutes and duration minutes are the drawn numbers |
| FlightResults.FilterFlightsMembership | src/components/FlightResults/index.tsx:39-47 | a flight is kept exactly when it is in the input, within both caps and, if an airline list is given, on a listed airline |
| FlightResults.FilteredViewCounts | src/components/FlightResults/index.tsx:36-52 | the filtered, sorted list holds every accepted flight as often as the input does and no other flight, in key order |
| FlightResults.PriceCapBelowAll | src/components/FlightResults/index.tsx:39 | a price cap below every price keeps nothing |
| FlightResults.AllAcceptedView | src/components/FlightResults/index.tsx:36-52 | when every flight meets the criteria, the view is the sorted input |
| FlightResults.CheapestFirstExample | src/components/FlightResults/index.tsx:35-79 | (500, 1 stop) and (300, nonstop) under caps 1000 and 2 show the 300 flight first |
| FlightResults.MaxPrice | src/components/FlightResults/index.tsx:95 | the maximum is at least every price and is the price of some flight |
| FlightResults.CeilHundred | src/components/FlightResults/index.tsx:95 | the least multiple of 100 at or above the argument |
| FlightResults.PriceCeiling | src/components/FlightResults/index.tsx:93-96 | 2000 without results; otherwise a multiple of 100 at least every price and less than 100 above some price |
| FlightResults.UniqueAirlinesSpec | src/components/FlightResults/index.tsx:89-91 | the airline list has no repeats, names exactly the airlines of the results, and lists them in order of first appearance |
| FlightResults.Displayed | src/components/FlightResults/index.tsx:98 | the filtered list when it is non-empty, the whole list otherwise |
| FlightResults.DisplayedView | src/components/FlightResults/index.tsx:98 | with results, the list shown is never empty; it is the filtered, sorted view, holding only accepted flights, when some flight is accepted, and every result when none is |
| FlightResults.OverConstrainedShowsAll | src/components/FlightResults/index.tsx:98 | filters that keep nothing show every result |
| FlightResults.ResultsPanel.constructor | src/components/FlightResults/index.tsx:12-21 | price order, caps 2000 and 2, no airlines, nothing filtered |
| FlightResults.ResultsPanel.ApplyFilters | src/components/FlightResults/index.tsx:35-53 | filtering field by field and sorting the copy stores the filtered, sorted view |
| FlightResults.ResultsPanel.Refresh | src/components/FlightResults/index.tsx:23-29 | with results the view is recomputed; without results it is emptied |
| FlightResults.ResultsPanel.HandleFilterChange | src/components/FlightResults/index.tsx:81-83 | the criteria take the new value |
| FlightResults.ResultsPanel.HandleSortChange | src/components/FlightResults/index.tsx:85-87 | the sort order takes the new value |
| FlightResults.ResultsPanel.ResetFilters | src/components/FlightResults/index.tsx:171-175 | the criteria become the price ceiling, 2 stops and no airlines |
| StableSort.SortBy | src/components/FlightResults/index.tsx:56 | the sort result is a permutation of its input, non-decreasing in the key |
| StableSort.SortByIsStable | src/components/FlightResults/index.tsx:56 | for every key value, the elements with that key appear in input order |
| StableSort.StableSortIsUnique | src/components/FlightResults/index.tsx:56 | any arrangement that is a permutation, sorted and stable equals the sort result |
| Text.ToNumberOfIntToString | src/context/FlightSearchContext.tsx:131 | `Number` reads the decimal rendering of an integer back as that integer |
| Text.ParseInt | src/components/FlightResults/FlightCard.tsx:18 | `parseInt` gives a number exactly when the text starts with a digit, and that number is not negative |
| FlightCard.TwelveHour | src/components/FlightResults/FlightCard.tsx:20 | the displayed hour is in 1..12 and agrees with the hour modulo 12 |
| FlightCard.ClockFaceIdentifiesHour | src/components/FlightResults/FlightCard.tsx:19-20 | within one day, the 12-hour face and the AM/PM suffix together identify the hour |
| FlightCard.FormatTimeShape | src/components/FlightResults/FlightCard.tsx:16-22 | a digit hour followed by `:` prints as its 12-hour form, then the minutes exactly as written, then AM or PM |
| FlightCard.FormatClock | src/components/FlightResults/FlightCard.tsx:16-22 | the text `"H:MM"` prints the 12-hour H, the same MM, and AM exactly when H < 12 |
| FlightCard.CurrencySymbolDollar | src/components/FlightResults/FlightCard.tsx:24-32 | the symbol is `$` exactly for USD and for the codes the table does not list |
| FlightCard.StopsLabelInjective | src/components/FlightResults/FlightCard.tsx:34-38 | different stop counts get different labels |
| FlightCard.StopsLabelMany | src/components/FlightResults/FlightCard.tsx:37 | two or more stops read `"<n> Stops"`, and the number in the label reads back as n |
| FilterSection.ToggleMembership | src/components/FlightResults/FilterSection.tsx:40-44 | toggling flips the clicked airline's membership and no other airline's |
| FilterSection.ToggleRemoves | src/components/FlightResults/FilterSection.tsx:40-41 | unticking removes every copy of the airline, keeps every other entry as often as before, and keeps their order |
| FilterSection.ToggleTwice | src/components/FlightResults/FilterSection.tsx:40-44 | ticking an absent airline and unticking it again restores the list |
| FilterSection.ToggleNoDup | src/components/FlightResults/FilterSection.tsx:40-44 | a list without duplicates stays without duplicates |
| FilterSection.FilterPanel.constructor | src/components/FlightResults/FilterSection.tsx:21 | the local criteria start as the prop |
| FilterSection.FilterPanel.SyncFromProps | src/components/FlightResults/FilterSection.tsx:23-25 | the local criteria are replaced by the prop |
| FilterSection.FilterPanel.PriceChange | src/components/FlightResults/FilterSection.tsx:27-31 | only the price cap changes, and the new criteria are what is reported |
| FilterSection.FilterPanel.StopsChange | src/components/FlightResults/FilterSection.tsx:33-36 | only the stop cap changes, and the new criteria are what is reported |
| FilterSection.FilterPanel.AirlineChange | src/components/FlightResults/FilterSection.tsx:38-48 | only the airline list changes, by the toggle; the clicked checkbox flips; the new criteria are reported |
| FilterSection.FilterPanel.Reset | src/components/FlightResults/FilterSection.tsx:50-58 | the criteria become the price prop, 2 stops and no airlines, and the same value is reported |
| CityInput.MatchingMembership | src/components/SearchForm/CityInput.tsx:59-64 | an airport is suggested exactly when it is in the table and its city, code or name contains the query, ignoring case |
| CityInput.MatchingInTableOrder | src/components/SearchForm/CityInput.tsx:59-64 | suggestions keep table order |
| CityInput.SuggestionsFromTable | src/components/SearchForm/CityInput.tsx:58-90 | the lists set by typing and by focusing are both subsequences of the table |
| CityInput.MatchingIgnoresCase | src/components/SearchForm/CityInput.tsx:61-63 | upper-casing the query does not change the suggestions |
| CityInput.CityPrefixSuggests | src/components/SearchForm/CityInput.tsx:61 | typing the start of a listed city's name suggests that airport |
| CityInput.CityField.constructor | src/components/SearchForm/CityInput.tsx:25-27 | the field starts with the prop value, unfocused, with no suggestions |
| CityInput.CityField.SyncValue | src/components/SearchForm/CityInput.tsx:31-33 | the text follows the `value` prop |
| CityInput.CityField.InputChange | src/components/SearchForm/CityInput.tsx:53-69 | the text becomes the typed value; the suggestions become the matches, or none for empty input |
| CityInput.CityField.SuggestionClick | src/components/SearchForm/CityInput.tsx:71-76 | the text and the reported value are both `"<city> (<code>)"`, the suggestions are cleared and focus is dropped |
| CityInput.CityField.Focus | src/components/SearchForm/CityInput.tsx:78-91 | focus is set; the suggestions are the matches, or the first five airports for empty text |
| CityInput.CityField.MouseDown | src/components/SearchForm/CityInput.tsx:36-45 | a press outside both the field and the list drops focus; any other press changes nothing |
| SearchForm.Swapped | src/components/SearchForm/index.tsx:22-28 | origin and destination trade places and every other field is kept |
| SearchForm.SwapTwice | src/components/SearchForm/index.tsx:22-28 | switching twice gives back the original search |
| SearchForm.SwapReversesRoute | src/components/SearchForm/index.tsx:22-28 | the switched search is on the reverse route |
| SearchForm.OneWayClearsReturn | src/components/SearchForm/index.tsx:34-38 | one-way clears the return date and changes nothing else |
| SearchForm.RoundTripReturnDate | src/components/SearchForm/index.tsx:39-43 | round trip keeps a non-empty return date, otherwise takes the one rendered with the form, and changes nothing else |
| SearchForm.OneWayThenRoundTrip | src/components/SearchForm/index.tsx:30-45 | one-way, a re-render, then round trip leaves the return date empty |
| SearchForm.OneWayThenRoundTripBatched | src/components/SearchForm/index.tsx:30-45 | one-way then round trip within one render restores the search |
| SearchForm.EditChangesOneField | src/components/SearchForm/index.tsx:88-165 | each field updater sets its own field to the new value and keeps the other five |
| SearchForm.EditSameValue | src/components/SearchForm/index.tsx:88-165 | an updater that writes back the current value changes nothing |
| SearchForm.Form.constructor | src/components/SearchForm/index.tsx:15 | the form starts as a round trip |
| SearchForm.Form.Submit | src/components/SearchForm/index.tsx:17-20 | submitting performs a search for the provider's current query, with all of PerformSearch's effects |
| SearchForm.Form.SwitchLocations | src/components/SearchForm/index.tsx:22-28 | the provider's query becomes the switched one |
| SearchForm.Form.TripTypeChange | src/components/SearchForm/index.tsx:30-45 | the flag is set exactly for `round`; the query gets the round-trip or one-way update |
| SearchForm.Form.EditField | src/components/SearchForm/index.tsx:88-165 | the provider's query gets the field update |
| CurrencySelector.Find | src/components/FlightResults/CurrencySelector.tsx:26 | nothing is found exactly when no entry has the code; otherwise the first entry with the code |
| CurrencySelector.SymbolOfListedCurrency | src/components/FlightResults/CurrencySelector.tsx:5-28 | each listed currency shows its own symbol |
| CurrencySelector.UnknownCodeIsDollar | src/components/FlightResults/CurrencySelector.tsx:25-28 | a code the table does not list shows `$` |
| CurrencySelector.SymbolTablesAgree | src/components/FlightResults/CurrencySelector.tsx:5-10 | the menu and the flight cards show the same symbol for every code |
| CurrencySelector.Menu.constructor | src/components/FlightResults/CurrencySelector.tsx:14 | the menu starts closed |
| CurrencySelector.Menu.Toggle | src/components/FlightResults/CurrencySelector.tsx:16-18 | the menu flips between open and closed |
| CurrencySelector.Menu.Select | src/components/FlightResults/CurrencySelector.tsx:20-23 | the provider's currency becomes the chosen code and the menu closes |

## Left out

- Random numbers. Each `Math.random()` draw of the mock provider is an input: one `MockDraw` record per flight, with the ranges its `Math.floor` calls give.
- The 1.5-second timer. Completion is the separate method `SearchState.CompleteSearch`. It takes the ticket that `PerformSearch` returns.
- A guard against superseded completions. The code has none. Every search completes after the same delay, so completions arrive in the order the searches were made. The first search's completion therefore ends loading and shows its results while a later search is still pending, and the later completion then replaces them. A design that tags each call with a sequence number would discard the superseded one; this model does not.
- A failure path. The code's mock provider never fails and never sets `error`, so the model only ever clears it.
- Browser storage. The stored history is the field `savedSearches`. JSON serialisation and storage failures are not modelled.
- Routing. Navigation is returned as the query map. `SearchState.LocationChanged` takes the path and the decoded query map. The code's test that `location.search` is non-empty adds nothing: an empty query has no origin.
- `URLSearchParams`. Percent-encoding (section 5 of the WHATWG URL Standard) and repeated keys are not modelled. A query is a map from key to value.
- The default dates. They are computed from the clock with date-fns, so they are parameters of the constructor.
- Text.ToNumber: models `Number` only on optionally signed decimal digits and the empty string. Surrounding white space, a `+` sign, fractions, exponents and hexadecimal are read as `NaN` here.
- Text.ParseInt: models `parseInt` without leading white space, a sign or a `0x`/`0X` prefix. `parseInt` reads `"0x1A"` as hexadecimal 26 and `"0x"` as `NaN`, while the model reads both as 0. The only text it reads is the hour of a flight time, which is decimal. `FilterPanel.PriceChange` takes the price as an integer, because a range input always holds one.
- Text.ToLower and Text.ToUpper: map only ASCII letters. Unicode case mapping is not modelled. Every string in the airport table is ASCII.
- Numbers are unbounded integers. Prices, stop counts and passenger counts are never fractional in this code, and floating-point rounding is not modelled.
- FlightResults.SortFlights: requires departure times in digit form `H:MM` when sorting by departure. A malformed time makes the comparator return `NaN`, and the order is then up to the engine.
- Stale closures. The filter panel reports `{...localFilters, ...}` as it was at render time. With one event per render, that equals the new local criteria, which is what the model states. For the trip-type switch, the render-time query is the explicit parameter `rendered`.
- The blur handler of the airport field. It delays by 200 ms, then reports the typed text when focus has moved away. It depends on the timer and on the document's focus.
- UI-only state: the expanded card, the visible filter panel, the header menu. Also the `ref` checks of the click-outside listener; both elements are assumed mounted.
- Rendering, and the presentational components: the home and results pages, the header and footer, the recent-search list, the loading skeleton, and the sort, date, passenger and cabin-class widgets.
- The SERP API client. It is a network stub with no logic, so it is not part of this model.
