/**
 * The currency provider: on mount it picks the display currency from the
 * saved preference, then from the visitor's country, and otherwise keeps the
 * US dollar; once loading is over it saves the choice as JSON; and it
 * formats amounts as the currency symbol followed by two decimals.
 *
 * The browser storage slot, `JSON.parse`/`JSON.stringify` and the location
 * service are inputs: the saved text, a parse function, an encode function
 * and the outcome of the lookup.
 */
module CurrencyContext {
  import opened Common
  import opened JsonData
  import opened Constants
  import opened NumberText

  /** The outcome of fetching the location service and reading its JSON body. */
  datatype Lookup =
    | LookupFailed          // the fetch threw, the response was not ok, or its body was not JSON
    | Located(data: Json)   // the parsed body

  /** The JSON object JSON.stringify writes for a currency record. */
  function CurrencyJson(c: Currency): Json
  {
    JObject(map["code" := JString(c.code), "symbol" := JString(c.symbol), "name" := JString(c.name)])
  }

  /**
   * The saved preference, when it is usable: the stored text is non-empty,
   * parses, is truthy, and has a truthy string `code` that names a listed
   * currency; that currency's table entry (not the stored record) is used.
   */
  function SavedChoice(saved: Option<string>, parse: string -> Option<Json>): (r: Option<Currency>)
    ensures r.Some? ==> r.value in Currencies.Values && r.value == Currencies[r.value.code]
    ensures r.Some? ==> saved.Some? && saved.value != "" && parse(saved.value).Some?
  {
    if saved.None? || saved.value == "" then None
    else
      match parse(saved.value)
      case None => None
      case Some(j) =>
        var code := NonEmptyString(Get(j, "code"));
        if Truthy(Some(j)) && code.Some? && code.value in Currencies then
          TablesConsistent();
          Some(Currencies[code.value])
        else None
  }

  /**
   * The currency the location lookup selects: the table entry for the
   * country code, when the lookup succeeded, the body is not null and its
   * `country_code` is a mapped country.
   */
  function LocatedChoice(lookup: Lookup): (r: Option<Currency>)
    ensures r.Some? ==> r.value in Currencies.Values
    ensures r.Some? <==> (lookup.Located? && !lookup.data.JNull? &&
                          NonEmptyString(Get(lookup.data, "country_code")).Some? &&
                          NonEmptyString(Get(lookup.data, "country_code")).value in CountryToCurrency)
  {
    match lookup
    case LookupFailed => None
    case Located(data) =>
      if data.JNull? then None
      else
        var cc := NonEmptyString(Get(data, "country_code"));
        if cc.Some? && cc.value in CountryToCurrency then
          TablesConsistent();
          Some(Currencies[CountryToCurrency[cc.value]])
        else None
  }

  /** The currency after detection: the saved choice, else the located one, else the current one. */
  function Resolve(saved: Option<string>, parse: string -> Option<Json>, lookup: Lookup, current: Currency): Currency
  {
    match SavedChoice(saved, parse)
    case Some(c) => c
    case None =>
      match LocatedChoice(lookup)
      case Some(c) => c
      case None => current
  }

  /** A usable saved preference wins whatever the lookup would have said. */
  lemma SavedWins(saved: string, parse: string -> Option<Json>, code: string, lookup: Lookup, current: Currency)
    requires saved != "" && code in Currencies
    requires parse(saved).Some? && parse(saved).value.JObject?
    requires Get(parse(saved).value, "code") == Some(JString(code))
    ensures Resolve(Some(saved), parse, lookup, current) == Currencies[code]
  {
  }

  /** A saved value that is empty, does not parse, or names no listed currency is as good as none. */
  lemma UnusableSavedFallsThrough(saved: Option<string>, parse: string -> Option<Json>, lookup: Lookup, current: Currency)
    requires saved.Some? && saved.value != "" ==>
      parse(saved.value).None? ||
      NonEmptyString(Get(parse(saved.value).value, "code")).None? ||
      NonEmptyString(Get(parse(saved.value).value, "code")).value !in Currencies
    ensures Resolve(saved, parse, lookup, current) == Resolve(None, parse, lookup, current)
  {
  }

  /** Without a usable preference, a mapped country gives that country's currency. */
  lemma CountryDecides(saved: Option<string>, parse: string -> Option<Json>, country: string, data: Json, current: Currency)
    requires SavedChoice(saved, parse).None?
    requires country in CountryToCurrency && data.JObject?
    requires Get(data, "country_code") == Some(JString(country))
    ensures Resolve(saved, parse, Located(data), current) == Currencies[CountryToCurrency[country]]
  {
  }

  /** A failed lookup, a null body or an unmapped country keeps the current currency, and raises nothing. */
  lemma NoCountryKeepsCurrent(saved: Option<string>, parse: string -> Option<Json>, lookup: Lookup, current: Currency)
    requires SavedChoice(saved, parse).None?
    requires lookup.Located? && !lookup.data.JNull? ==>
      var cc := NonEmptyString(Get(lookup.data, "country_code"));
      cc.None? || cc.value !in CountryToCurrency
    ensures Resolve(saved, parse, lookup, current) == current
  {
  }

  /** Detection either keeps the current currency or picks a listed one. */
  lemma ResolveListed(saved: Option<string>, parse: string -> Option<Json>, lookup: Lookup, current: Currency)
    ensures var r := Resolve(saved, parse, lookup, current);
      r == current || r in Currencies.Values
  {
  }

  /**
   * Saving a listed currency and reading it back on the next visit gives the
   * same currency, whatever the lookup says, provided JSON.parse inverts
   * JSON.stringify on the saved record.
   */
  lemma PersistThenReload(c: Currency, parse: string -> Option<Json>, encode: Json -> string, lookup: Lookup, current: Currency)
    requires c in Currencies.Values
    requires encode(CurrencyJson(c)) != "" && parse(encode(CurrencyJson(c))) == Some(CurrencyJson(c))
    ensures SavedChoice(Some(encode(CurrencyJson(c))), parse) == Some(c)
    ensures Resolve(Some(encode(CurrencyJson(c))), parse, lookup, current) == c
  {
    TablesConsistent();
    var code :| code in Currencies && Currencies[code] == c;
    assert c.code == code;
  }

  /** The provider's state: the chosen currency, the loading flag and the saved preference's slot. */
  class CurrencyProvider {
    var currency: Currency
    var isLoading: bool
    var saved: Option<string>

    /** First render: the default currency, still loading; the storage slot holds what earlier visits left. */
    constructor (saved: Option<string>)
      ensures currency == DefaultCurrency && isLoading && this.saved == saved
    {
      currency := DefaultCurrency;
      isLoading := true;
      this.saved := saved;
    }

    /**
     * detectLocationAndSetCurrency: use the saved preference and return
     * early, or look the visitor up; loading ends on every path. `looked`
     * tells whether the location service was asked.
     */
    method DetectLocation(parse: string -> Option<Json>, lookup: Lookup) returns (looked: bool)
      modifies this
      ensures currency == Resolve(old(saved), parse, lookup, old(currency))
      ensures !isLoading && saved == old(saved)
      ensures looked <==> SavedChoice(old(saved), parse).None?
    {
      var choice := SavedChoice(saved, parse);
      if choice.Some? {
        currency := choice.value;
        isLoading := false;
        return false;
      }
      looked := true;
      var located := LocatedChoice(lookup);
      if located.Some? {
        currency := located.value;
      }
      isLoading := false;
    }

    /** The context's setCurrency. */
    method SetCurrency(c: Currency)
      modifies this
      ensures currency == c && isLoading == old(isLoading) && saved == old(saved)
    {
      currency := c;
    }

    /** The persistence effect: once loading is over, the currency is saved as JSON; before that nothing is written. */
    method Persist(encode: Json -> string)
      modifies this
      ensures saved == if old(isLoading) then old(saved) else Some(encode(CurrencyJson(currency)))
      ensures currency == old(currency) && isLoading == old(isLoading)
    {
      if !isLoading {
        saved := Some(encode(CurrencyJson(currency)));
      }
    }

    /**
     * formatAmount: the symbol followed by the amount with exactly two
     * decimals, which reads back as the amount rounded to the cent.
     */
    function FormatAmount(amount: real): (r: string)
      reads this
      ensures |r| >= |currency.symbol| && r[..|currency.symbol|] == currency.symbol
      ensures r[|currency.symbol|..] == ToFixed2(amount)
      ensures ParseFloat(r[|currency.symbol|..]) == Some(Rounded2(amount))
      ensures -0.005 <= Rounded2(amount) - amount <= 0.005
    {
      var r := currency.symbol + ToFixed2(amount);
      assert r[|currency.symbol|..] == ToFixed2(amount);
      ParseFixed(amount);
      RoundedClose(amount);
      r
    }
  }
}
