/**
 * The search form (src/components/SearchForm/index.tsx): the trip-type flag,
 * the record updates it passes to `setSearchParams`, and submission.
 */
module SearchForm {
  import opened Wrappers
  import opened SearchContext

  /** `prev => ({...prev, origin: prev.destination, destination: prev.origin})`. */
  function Swapped(p: SearchParams): (r: SearchParams)
    ensures r.origin == p.destination && r.destination == p.origin
    ensures r.departDate == p.departDate && r.returnDate == p.returnDate
    ensures r.passengers == p.passengers && r.cabinClass == p.cabinClass
  {
    p.(origin := p.destination, destination := p.origin)
  }

  /** Switching locations twice gives back the original search. */
  lemma SwapTwice(p: SearchParams)
    ensures Swapped(Swapped(p)) == p
  {
  }

  /** Switching locations puts the search on the reverse route, and only there. */
  lemma SwapReversesRoute(p: SearchParams, q: SearchParams)
    ensures SameRoute(Swapped(p), q) <==> q.origin == p.destination && q.destination == p.origin
  {
  }

  /** The one-way update: `returnDate: ''`. */
  function OneWay(p: SearchParams): SearchParams
  {
    p.(returnDate := "")
  }

  /**
   * The round-trip update `prev.returnDate || searchParams.returnDate`: the
   * current return date unless it is empty, else the one the form showed
   * when it was rendered.
   */
  function RoundTrip(prev: SearchParams, rendered: SearchParams): SearchParams
  {
    prev.(returnDate := if prev.returnDate != "" then prev.returnDate else rendered.returnDate)
  }

  /** One-way clears the return date and nothing else. */
  lemma OneWayClearsReturn(p: SearchParams)
    ensures OneWay(p).returnDate == ""
    ensures OneWay(p).(returnDate := p.returnDate) == p
  {
  }

  /** Round trip keeps a non-empty return date, and otherwise takes the rendered one; nothing else changes. */
  lemma RoundTripReturnDate(prev: SearchParams, rendered: SearchParams)
    ensures prev.returnDate != "" ==> RoundTrip(prev, rendered) == prev
    ensures prev.returnDate == "" ==> RoundTrip(prev, rendered).returnDate == rendered.returnDate
    ensures RoundTrip(prev, rendered).(returnDate := prev.returnDate) == prev
  {
  }

  /**
   * One-way then round trip in separate renders: the second update sees the
   * cleared date in both places, so the return date stays empty.
   */
  lemma OneWayThenRoundTrip(p: SearchParams)
    ensures RoundTrip(OneWay(p), OneWay(p)).returnDate == ""
  {
  }

  /** One-way then round trip within one render: the rendered date comes back. */
  lemma OneWayThenRoundTripBatched(p: SearchParams)
    ensures RoundTrip(OneWay(p), p) == p
  {
  }

  /** The six fields the form edits. */
  datatype Field = Origin | Destination | DepartDate | ReturnDate | Passengers | CabinClass

  datatype FieldValue = Text(text: string) | Count(count: int)

  function Get(p: SearchParams, f: Field): FieldValue
  {
    match f
    case Origin => Text(p.origin)
    case Destination => Text(p.destination)
    case DepartDate => Text(p.departDate)
    case ReturnDate => Text(p.returnDate)
    case Passengers => Count(p.passengers)
    case CabinClass => Text(p.cabinClass)
  }

  /** The fields determine the record. */
  lemma FieldsDetermineParams(p: SearchParams, q: SearchParams)
    requires forall f :: Get(p, f) == Get(q, f)
    ensures p == q
  {
    assert Get(p, Origin) == Get(q, Origin) && Get(p, Destination) == Get(q, Destination);
    assert Get(p, DepartDate) == Get(q, DepartDate) && Get(p, ReturnDate) == Get(q, ReturnDate);
    assert Get(p, Passengers) == Get(q, Passengers) && Get(p, CabinClass) == Get(q, CabinClass);
  }

  /** The `onChange` updaters of the six inputs. */
  datatype Edit =
    | SetOrigin(origin: string)
    | SetDestination(destination: string)
    | SetDepartDate(departDate: string)
    | SetReturnDate(returnDate: string)
    | SetPassengers(passengers: int)
    | SetCabinClass(cabinClass: string)

  function Target(e: Edit): Field
  {
    match e
    case SetOrigin(_) => Origin
    case SetDestination(_) => Destination
    case SetDepartDate(_) => DepartDate
    case SetReturnDate(_) => ReturnDate
    case SetPassengers(_) => Passengers
    case SetCabinClass(_) => CabinClass
  }

  function NewValue(e: Edit): FieldValue
  {
    match e
    case SetOrigin(v) => Text(v)
    case SetDestination(v) => Text(v)
    case SetDepartDate(v) => Text(v)
    case SetReturnDate(v) => Text(v)
    case SetPassengers(n) => Count(n)
    case SetCabinClass(v) => Text(v)
  }

  /** `prev => ({...prev, <field>: value})`. */
  function ApplyEdit(p: SearchParams, e: Edit): SearchParams
  {
    match e
    case SetOrigin(v) => p.(origin := v)
    case SetDestination(v) => p.(destination := v)
    case SetDepartDate(v) => p.(departDate := v)
    case SetReturnDate(v) => p.(returnDate := v)
    case SetPassengers(n) => p.(passengers := n)
    case SetCabinClass(v) => p.(cabinClass := v)
  }

  /** Each updater sets its own field to the new value and keeps every other field. */
  lemma EditChangesOneField(p: SearchParams, e: Edit, f: Field)
    ensures Get(ApplyEdit(p, e), f) == if f == Target(e) then NewValue(e) else Get(p, f)
  {
  }

  /** An updater that writes back the current value changes nothing. */
  lemma EditSameValue(p: SearchParams, e: Edit)
    requires NewValue(e) == Get(p, Target(e))
    ensures ApplyEdit(p, e) == p
  {
    forall f ensures Get(ApplyEdit(p, e), f) == Get(p, f) {
      EditChangesOneField(p, e, f);
    }
    FieldsDetermineParams(ApplyEdit(p, e), p);
  }

  /** The component's own state: the trip-type radio buttons. */
  class Form {
    var isRoundTrip: bool

    constructor ()
      ensures isRoundTrip
    {
      isRoundTrip := true;
    }

    /** `handleSubmit`: search for the params held by the provider. */
    method Submit(ctx: SearchState, pathname: string)
      returns (navigation: Option<map<string, string>>, pending: PendingSearch)
      modifies ctx
      ensures ctx.isLoading && ctx.error == None
      ensures ctx.recentSearches == UpdateHistory(old(ctx.recentSearches), old(ctx.searchParams))
      ensures ctx.savedSearches == Some(ctx.recentSearches)
      ensures navigation == if pathname != SearchPath then Some(EncodeQuery(old(ctx.searchParams))) else None
      ensures pending == PendingSearch(old(ctx.searchParams), old(ctx.currency))
      ensures ctx.searchParams == old(ctx.searchParams) && ctx.flightResults == old(ctx.flightResults)
      ensures ctx.currency == old(ctx.currency)
    {
      navigation, pending := ctx.PerformSearch(ctx.searchParams, pathname);
    }

    /** `handleSwitchLocations`. */
    method SwitchLocations(ctx: SearchState)
      modifies ctx`searchParams
      ensures ctx.searchParams == Swapped(old(ctx.searchParams))
    {
      ctx.SetSearchParams(Swapped(ctx.searchParams));
    }

    /**
     * `handleTripTypeChange` for the radio value `value`; `rendered` is the
     * `searchParams` the handler closed over when the form was rendered.
     */
    method TripTypeChange(ctx: SearchState, value: string, rendered: SearchParams)
      modifies this`isRoundTrip, ctx`searchParams
      ensures isRoundTrip == (value == "round")
      ensures ctx.searchParams
           == if value == "round" then RoundTrip(old(ctx.searchParams), rendered)
              else OneWay(old(ctx.searchParams))
    {
      var isRound := value == "round";
      isRoundTrip := isRound;
      if !isRound {
        ctx.SetSearchParams(OneWay(ctx.searchParams));
      } else {
        ctx.SetSearchParams(RoundTrip(ctx.searchParams, rendered));
      }
    }

    /** One of the six field `onChange` handlers. */
    method EditField(ctx: SearchState, e: Edit)
      modifies ctx`searchParams
      ensures ctx.searchParams == ApplyEdit(old(ctx.searchParams), e)
    {
      ctx.SetSearchParams(ApplyEdit(ctx.searchParams, e));
    }
  }
}
