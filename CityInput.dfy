/**
 * The airport field of the search form (src/components/SearchForm/CityInput.tsx):
 * the fixed table of popular airports, the case-insensitive suggestion
 * filter, and the handlers that set the typed text, the suggestion list
 * and the focus flag.
 */
module CityInput {
  import opened Seqs
  import opened Text

  datatype Airport = Airport(code: string, name: string, city: string)

  /** `popularAirports`, in table order. */
  const PopularAirports: seq<Airport> := [
    Airport("JFK", "John F. Kennedy International Airport", "New York"),
    Airport("LAX", "Los Angeles International Airport", "Los Angeles"),
    Airport("LHR", "Heathrow Airport", "London"),
    Airport("CDG", "Charles de Gaulle Airport", "Paris"),
    Airport("DXB", "Dubai International Airport", "Dubai"),
    Airport("HND", "Haneda Airport", "Tokyo"),
    Airport("SYD", "Sydney Airport", "Sydney"),
    Airport("SIN", "Singapore Changi Airport", "Singapore"),
    Airport("AMS", "Amsterdam Airport Schiphol", "Amsterdam"),
    Airport("FCO", "Leonardo da Vinci International Airport", "Rome")
  ]

  /** How many airports focusing an empty field offers. */
  const FocusCount := 5

  /** The suggestion test: city, code or name contains the query, ignoring case. */
  function MatchesQuery(query: string): Airport -> bool
  {
    var q := ToLower(query);
    (a: Airport) => Contains(ToLower(a.city), q) || Contains(ToLower(a.code), q) || Contains(ToLower(a.name), q)
  }

  /** `popularAirports.filter(...)` for a query. */
  function Matching(query: string): seq<Airport>
  {
    Filter(PopularAirports, MatchesQuery(query))
  }

  /** The suggestions `handleInputChange` sets for the typed value. */
  function TypedSuggestions(value: string): seq<Airport>
  {
    if |value| > 0 then Matching(value) else []
  }

  /** The suggestions `handleFocus` sets for the current value. */
  function FocusSuggestions(value: string): seq<Airport>
  {
    if |value| > 0 then Matching(value) else PopularAirports[..FocusCount]
  }

  /** `"<city> (<code>)"`, the text a chosen suggestion puts in the field. */
  function Label(a: Airport): string
  {
    a.city + " (" + a.code + ")"
  }

  /** An airport is suggested exactly when it is in the table and one of its fields contains the query, ignoring case. */
  lemma MatchingMembership(query: string, a: Airport)
    ensures var q := ToLower(query);
            a in Matching(query)
            <==> && a in PopularAirports
                 && (Contains(ToLower(a.city), q) || Contains(ToLower(a.code), q) || Contains(ToLower(a.name), q))
  {
    FilterMembership(PopularAirports, MatchesQuery(query), a);
  }

  /** Suggestions keep table order. */
  lemma MatchingInTableOrder(query: string)
    ensures IsSubseq(Matching(query), PopularAirports)
  {
    FilterIsSubseq(PopularAirports, MatchesQuery(query));
  }

  /** Every suggestion list a handler sets is drawn from the table, in table order. */
  lemma SuggestionsFromTable(value: string)
    ensures IsSubseq(TypedSuggestions(value), PopularAirports)
    ensures IsSubseq(FocusSuggestions(value), PopularAirports)
  {
    MatchingInTableOrder(value);
    SubseqRefl(PopularAirports);
    SubseqPrefix(PopularAirports, PopularAirports, FocusCount);
  }

  lemma LowerUpperChar(c: char)
    ensures LowerChar(UpperChar(c)) == LowerChar(c)
  {
  }

  /** Upper-casing the query does not change the suggestions: the match ignores case. */
  lemma MatchingIgnoresCase(query: string)
    ensures Matching(ToUpper(query)) == Matching(query)
  {
    var up := ToUpper(query);
    assert ToLower(up) == ToLower(query) by {
      forall i | 0 <= i < |query| ensures ToLower(up)[i] == ToLower(query)[i] {
        LowerUpperChar(query[i]);
      }
    }
    FilterAgree(PopularAirports, MatchesQuery(up), MatchesQuery(query));
  }

  /** Typing the start of a city name suggests that city's airport. */
  lemma CityPrefixSuggests(a: Airport, n: nat)
    requires a in PopularAirports && 0 < n <= |a.city|
    ensures a in TypedSuggestions(a.city[..n])
  {
    var q := ToLower(a.city[..n]);
    assert OccursAt(ToLower(a.city), q, 0) by {
      assert ToLower(a.city)[..n] == q;
    }
    MatchingMembership(a.city[..n], a);
  }

  /** The component's `inputValue`, `isFocused` and `suggestions` state. */
  class CityField {
    var inputValue: string
    var isFocused: bool
    var suggestions: seq<Airport>

    /** Suggestions always come from the table, in its order. */
    predicate Valid()
      reads this
    {
      IsSubseq(suggestions, PopularAirports)
    }

    constructor (value: string)
      ensures inputValue == value && !isFocused && suggestions == []
      ensures Valid()
    {
      inputValue := value;
      isFocused := false;
      suggestions := [];
    }

    /** The effect that copies a new `value` prop into the field. */
    method SyncValue(value: string)
      requires Valid()
      modifies this`inputValue
      ensures inputValue == value
      ensures Valid()
    {
      inputValue := value;
    }

    /** `handleInputChange`. */
    method InputChange(value: string)
      modifies this`inputValue, this`suggestions
      ensures inputValue == value && suggestions == TypedSuggestions(value)
      ensures Valid()
    {
      inputValue := value;
      if |value| > 0 {
        suggestions := Filter(PopularAirports, MatchesQuery(value));
      } else {
        suggestions := [];
      }
      SuggestionsFromTable(value);
    }

    /** `handleSuggestionClick`: returns the value sent to `onChange`. */
    method SuggestionClick(airport: Airport) returns (emitted: string)
      modifies this`inputValue, this`suggestions, this`isFocused
      ensures inputValue == Label(airport) && emitted == Label(airport)
      ensures suggestions == [] && !isFocused
      ensures Valid()
    {
      inputValue := Label(airport);
      emitted := Label(airport);
      suggestions := [];
      isFocused := false;
    }

    /** `handleFocus`. */
    method Focus()
      modifies this`isFocused, this`suggestions
      ensures isFocused && suggestions == FocusSuggestions(inputValue)
      ensures Valid()
    {
      isFocused := true;
      if |inputValue| > 0 {
        suggestions := Filter(PopularAirports, MatchesQuery(inputValue));
      } else {
        suggestions := PopularAirports[..FocusCount];
      }
      SuggestionsFromTable(inputValue);
    }

    /** The document `mousedown` listener: a press outside both the field and the list unfocuses. */
    method MouseDown(outsideField: bool, outsideList: bool)
      requires Valid()
      modifies this`isFocused
      ensures isFocused == (old(isFocused) && !(outsideField && outsideList))
      ensures Valid()
    {
      if outsideField && outsideList {
        isFocused := false;
      }
    }
  }
}
