/**
 * The filter panel (src/components/FlightResults/FilterSection.tsx): the
 * filter criteria record, the airline checkbox toggle, and the panel's local
 * copy of the criteria, which every handler updates and reports upwards.
 */
module FilterSection {
  import opened Seqs

  /** The filter criteria: a price cap, a stop cap and an airline list (empty: any airline). */
  datatype Filters = Filters(maxPrice: int, maxStops: int, airlines: seq<string>)

  /** The stop cap after a reset. */
  const DefaultMaxStops := 2

  /** The list after clicking `airline`'s checkbox: every copy removed if present, else appended. */
  function ToggleAirline(airlines: seq<string>, airline: string): seq<string>
  {
    if airline in airlines then Filter(airlines, a => a != airline) else airlines + [airline]
  }

  /** Toggling flips exactly the clicked airline's membership. */
  lemma ToggleMembership(airlines: seq<string>, airline: string, x: string)
    ensures x in ToggleAirline(airlines, airline) <==> (x in airlines) != (x == airline)
  {
    FilterMembership(airlines, a => a != airline, x);
  }

  /** Unticking removes every copy, and only copies, of the airline, keeping the others' order. */
  lemma ToggleRemoves(airlines: seq<string>, airline: string)
    requires airline in airlines
    ensures var r := ToggleAirline(airlines, airline);
            && airline !in r
            && IsSubseq(r, airlines)
            && forall x :: x != airline ==> multiset(r)[x] == multiset(airlines)[x]
  {
    var keep := (a: string) => a != airline;
    FilterMembership(airlines, keep, airline);
    FilterIsSubseq(airlines, keep);
    forall x | x != airline ensures multiset(ToggleAirline(airlines, airline))[x] == multiset(airlines)[x] {
      FilterMultiset(airlines, keep, x);
    }
  }

  /** Ticking an absent airline and unticking it again restores the list. */
  lemma ToggleTwice(airlines: seq<string>, airline: string)
    requires airline !in airlines
    ensures ToggleAirline(ToggleAirline(airlines, airline), airline) == airlines
  {
    var keep := (a: string) => a != airline;
    var added := airlines + [airline];
    assert airline in added;
    FilterConcat(airlines, [airline], keep);
    FilterAll(airlines, keep);
    FilterSingleton(airline, keep);
  }

  /** A list without duplicates stays without duplicates. */
  lemma ToggleNoDup(airlines: seq<string>, airline: string)
    requires NoDup(airlines)
    ensures NoDup(ToggleAirline(airlines, airline))
  {
    if airline in airlines {
      FilterNoDup(airlines, a => a != airline);
    }
  }

  /** The criteria `handleReset` installs. */
  function ResetFilters(maxPrice: int): Filters
  {
    Filters(maxPrice, DefaultMaxStops, [])
  }

  /** The panel's `localFilters` state. Each handler returns what it passes to `onChange`. */
  class FilterPanel {
    var localFilters: Filters

    constructor (filters: Filters)
      ensures localFilters == filters
    {
      localFilters := filters;
    }

    /** Whether `airline`'s checkbox is ticked. */
    predicate IsChecked(airline: string)
      reads this
    {
      airline in localFilters.airlines
    }

    /** The effect that copies the `filters` prop whenever it changes. */
    method SyncFromProps(filters: Filters)
      modifies this
      ensures localFilters == filters
    {
      localFilters := filters;
    }

    method PriceChange(value: int) returns (emitted: Filters)
      modifies this
      ensures localFilters == old(localFilters).(maxPrice := value)
      ensures emitted == localFilters
    {
      emitted := localFilters.(maxPrice := value);
      localFilters := localFilters.(maxPrice := value);
    }

    method StopsChange(stops: int) returns (emitted: Filters)
      modifies this
      ensures localFilters == old(localFilters).(maxStops := stops)
      ensures emitted == localFilters
    {
      emitted := localFilters.(maxStops := stops);
      localFilters := localFilters.(maxStops := stops);
    }

    method AirlineChange(airline: string) returns (emitted: Filters)
      modifies this
      ensures localFilters == old(localFilters).(airlines := ToggleAirline(old(localFilters).airlines, airline))
      ensures emitted == localFilters
      ensures IsChecked(airline) == !old(IsChecked(airline))
    {
      var updatedAirlines := ToggleAirline(localFilters.airlines, airline);
      ToggleMembership(localFilters.airlines, airline, airline);
      emitted := localFilters.(airlines := updatedAirlines);
      localFilters := localFilters.(airlines := updatedAirlines);
    }

    /** `handleReset`, given the panel's `maxPrice` prop. */
    method Reset(maxPrice: int) returns (emitted: Filters)
      modifies this
      ensures localFilters == ResetFilters(maxPrice) && emitted == localFilters
      ensures localFilters.maxStops == 2 && localFilters.airlines == []
    {
      var resetFilters := ResetFilters(maxPrice);
      localFilters := resetFilters;
      emitted := resetFilters;
    }
  }
}
