/**
 * The currency menu (src/components/FlightResults/CurrencySelector.tsx): the
 * table of offered currencies, the symbol shown for the current one, and the
 * open/close and select handlers.
 */
module CurrencySelector {
  import opened Wrappers
  import opened SearchContext
  import FlightCard

  datatype Currency = Currency(code: string, symbol: string, name: string)

  /** `currencies`, in menu order. */
  const Currencies: seq<Currency> := [
    Currency("USD", "$", "US Dollar"),
    Currency("EUR", "\U{20AC}", "Euro"),
    Currency("GBP", "\U{A3}", "British Pound"),
    Currency("JPY", "\U{A5}", "Japanese Yen")
  ]

  /** `table.find(c => c.code === code)`: the first entry with that code. */
  function Find(table: seq<Currency>, code: string): (r: Option<Currency>)
    ensures r.None? <==> forall i :: 0 <= i < |table| ==> table[i].code != code
    ensures r.Some? ==> exists i :: && 0 <= i < |table| && table[i] == r.value && r.value.code == code
                                    && forall j :: 0 <= j < i ==> table[j].code != code
  {
    if table == [] then None
    else if table[0].code == code then Some(table[0])
    else
      var r := Find(table[1..], code);
      assert forall i :: 1 <= i < |table| ==> table[i] == table[1..][i - 1];
      if r.Some? then
        var k :| && 0 <= k < |table[1..]| && table[1..][k] == r.value
                 && forall j :: 0 <= j < k ==> table[1..][j].code != code;
        assert table[k + 1] == r.value;
        r
      else r
  }

  /** `getCurrentSymbol`: the table's symbol for the code, `$` when the code is not in the table. */
  function CurrentSymbol(code: string): string
  {
    match Find(Currencies, code)
    case Some(c) => c.symbol
    case None => "$"
  }

  /** The codes in the table are distinct, so each entry is the one found for its code. */
  lemma SymbolOfListedCurrency(c: Currency)
    requires c in Currencies
    ensures CurrentSymbol(c.code) == c.symbol
  {
  }

  /** A code the table does not list shows `$`. */
  lemma UnknownCodeIsDollar(code: string)
    requires forall c :: c in Currencies ==> c.code != code
    ensures CurrentSymbol(code) == "$"
  {
    assert forall i :: 0 <= i < |Currencies| ==> Currencies[i] in Currencies;
  }

  /** The menu and the flight cards show the same symbol for every code. */
  lemma SymbolTablesAgree(code: string)
    ensures CurrentSymbol(code) == FlightCard.CurrencySymbol(code)
  {
    if code != "USD" && code != "EUR" && code != "GBP" && code != "JPY" {
      UnknownCodeIsDollar(code);
    }
  }

  /** The component's `isOpen` state. */
  class Menu {
    var isOpen: bool

    constructor ()
      ensures !isOpen
    {
      isOpen := false;
    }

    /** `toggleDropdown`. */
    method Toggle()
      modifies this
      ensures isOpen == !old(isOpen)
    {
      isOpen := !isOpen;
    }

    /** `handleSelect`: make `code` the provider's currency and close the menu. */
    method Select(ctx: SearchState, code: string)
      modifies this, ctx`currency
      ensures ctx.currency == code && !isOpen
    {
      ctx.SetCurrency(code);
      isOpen := false;
    }
  }
}
