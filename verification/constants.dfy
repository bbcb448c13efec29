/**
 * The application's constant tables: the supported currencies, the
 * country-to-currency map used by location detection, storage keys, session
 * settings and API paths.
 */
module Constants {

  /** One currency: ISO code, display symbol and English name. */
  datatype Currency = Currency(code: string, symbol: string, name: string)

  /** CURRENCIES, keyed by code. */
  const Currencies: map<string, Currency> := map[
    "USD" := Currency("USD", "$", "US Dollar"),
    "EUR" := Currency("EUR", "€", "Euro"),
    "GBP" := Currency("GBP", "£", "British Pound"),
    "JPY" := Currency("JPY", "¥", "Japanese Yen"),
    "CNY" := Currency("CNY", "¥", "Chinese Yuan"),
    "INR" := Currency("INR", "₹", "Indian Rupee"),
    "CAD" := Currency("CAD", "C$", "Canadian Dollar"),
    "AUD" := Currency("AUD", "A$", "Australian Dollar"),
    "NGN" := Currency("NGN", "₦", "Nigerian Naira")
  ]

  /** COUNTRY_TO_CURRENCY: ISO country code to currency code; every other country is unmapped. */
  const CountryToCurrency: map<string, string> := map[
    "US" := "USD", "CA" := "CAD",
    "GB" := "GBP", "DE" := "EUR", "FR" := "EUR", "IT" := "EUR", "ES" := "EUR",
    "JP" := "JPY", "CN" := "CNY", "IN" := "INR",
    "AU" := "AUD", "NZ" := "AUD",
    "NG" := "NGN"
  ]

  const DefaultCurrency: Currency := Currency("USD", "$", "US Dollar")

  /** STORAGE_KEYS */
  const CurrencyStorageKey: string := "cashira_currency"
  const ThemeStorageKey: string := "cashira-theme"

  /** AUTH_CONSTANTS */
  const SessionCookieName: string := "session"
  const SessionExpiryDays: int := 5
  const SessionExpirySeconds: int := 60 * 60 * 24 * 5

  /** API_ROUTES */
  const SignInRoute: string := "/api/auth/signin"
  const SignOutRoute: string := "/api/auth/signout"
  const MeRoute: string := "/api/auth/me"
  const TransactionsBase: string := "/api/transactions"

  /** PUBLIC_ROUTES */
  const PublicRoutes: seq<string> := ["/", "/login"]

  /** API_ROUTES.TRANSACTIONS.BY_ID: the collection path, a slash, and the id. */
  function TransactionById(id: string): (r: string)
    ensures |r| == |TransactionsBase| + 1 + |id|
    ensures r[..|TransactionsBase|] == TransactionsBase && r[|TransactionsBase|] == '/'
    ensures r[|TransactionsBase| + 1..] == id
  {
    TransactionsBase + "/" + id
  }

  /** Distinct ids give distinct paths, so a path names one transaction. */
  lemma TransactionByIdInjective(a: string, b: string)
    ensures TransactionById(a) == TransactionById(b) <==> a == b
  {
    if TransactionById(a) == TransactionById(b) {
      assert a == TransactionById(a)[|TransactionsBase| + 1..];
    }
  }

  /**
   * The tables agree with each other: each currency is filed under its own
   * code, every mapped country names a listed currency, and the default is
   * the USD entry.
   */
  lemma TablesConsistent()
    ensures forall c :: c in Currencies ==> Currencies[c].code == c
    ensures forall k :: k in CountryToCurrency ==> CountryToCurrency[k] in Currencies
    ensures "USD" in Currencies && DefaultCurrency == Currencies["USD"]
  {
  }

  /** The euro countries and New Zealand; JPY and CNY share a symbol, so symbols do not identify currencies. */
  lemma TableEntries()
    ensures forall k :: k in ["DE", "FR", "IT", "ES"] ==> k in CountryToCurrency && CountryToCurrency[k] == "EUR"
    ensures "NZ" in CountryToCurrency && CountryToCurrency["NZ"] == "AUD"
    ensures Currencies["JPY"].symbol == Currencies["CNY"].symbol && Currencies["JPY"] != Currencies["CNY"]
  {
  }

  /** The seconds in `days` whole days: the product the session constants write out. */
  function DaysInSeconds(days: nat): (r: nat)
    ensures r % 86400 == 0 && r / 86400 == days
  {
    60 * 60 * 24 * days
  }

  /**
   * The two session constants agree: the lifetime in seconds is exactly
   * SESSION_EXPIRY_DAYS whole days.
   */
  lemma SessionExpiry()
    ensures SessionExpirySeconds == DaysInSeconds(SessionExpiryDays)
    ensures SessionExpirySeconds / 86400 == SessionExpiryDays
  {
  }
}
