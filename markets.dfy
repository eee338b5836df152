/**
  The closed table of markets the journal knows (`marketMeta`), the lookup
  that falls back to the global market (`getMarketMeta`) and the decision
  made by `formatPriceForMarket` before any number is formatted.
 */
module Markets {
  import opened Wrappers

  datatype Market = Global | Nse | Bse

  datatype MarketMeta = MarketMeta(
    displayLabel: string,
    currency: string,
    symbol: string,
    placeholder: string,
    locale: string)

  /** The key under which each market is stored in a trade and in the table. */
  function Key(m: Market): string
  {
    match m
    case Global => "global"
    case Nse => "nse"
    case Bse => "bse"
  }

  /** The rows of `marketMeta`. */
  function Meta(m: Market): MarketMeta
  {
    match m
    case Global => MarketMeta("Global / Crypto", "USD", "$", "e.g. BTC-USD", "en-US")
    case Nse => MarketMeta("NSE India", "INR", "₹", "e.g. NSE:INFY", "en-IN")
    case Bse => MarketMeta("BSE India", "INR", "₹", "e.g. BSE:RELIANCE", "en-IN")
  }

  /** `marketMeta[key]`: the market whose key is `key`, if there is one. */
  function Lookup(key: string): (m: Option<Market>)
    ensures m.Some? <==> exists mk :: Key(mk) == key
    ensures m.Some? ==> Key(m.value) == key
  {
    if key == "global" then assert Key(Global) == key; Some(Global)
    else if key == "nse" then assert Key(Nse) == key; Some(Nse)
    else if key == "bse" then assert Key(Bse) == key; Some(Bse)
    else
      assert Key(Global) != key && Key(Nse) != key && Key(Bse) != key;
      None
  }

  /** Every market's key leads back to that market. */
  lemma LookupKey(m: Market)
    ensures Lookup(Key(m)) == Some(m)
  {
  }

  /**
    `getMarketMeta(key)`: the row of the market named by `key`, and the
    global row for any other key.
   */
  function GetMarketMeta(key: string): (meta: MarketMeta)
    ensures forall m :: Key(m) == key ==> meta == Meta(m)
    ensures (forall m :: Key(m) != key) ==> meta == Meta(Global)
    ensures meta.symbol == "$" <==> meta == Meta(Global)
  {
    match Lookup(key)
    case Some(m) => Meta(m)
    case None => Meta(Global)
  }

  /** The JavaScript values a price field can hold when it reaches the formatter. */
  datatype PriceValue = Undefined | Null | Text(s: string) | Number(x: real)

  /**
    What the formatter shows: `"--"`, the input unchanged, or an amount
    written with the market's currency symbol in front and exactly two
    fraction digits grouped by the market's locale.
   */
  datatype PriceDisplay = Dashes | Unchanged(raw: PriceValue) | Amount(symbol: string, locale: string, value: real)

  /** The placeholder text shown for a missing price. */
  const MissingPriceText := "--"

  /**
    `formatPriceForMarket(value, key)`. `parseNumber` stands for JavaScript's
    `Number(text)`, with `None` for NaN.
   */
  function FormatPriceForMarket(value: PriceValue, key: string, parseNumber: string -> Option<real>): (d: PriceDisplay)
    ensures d == Dashes <==> value == Undefined || value == Null || value == Text("")
    ensures d.Unchanged? <==> value.Text? && value.s != "" && parseNumber(value.s).None?
    ensures d.Unchanged? ==> d.raw == value
    ensures d.Amount? ==> d.symbol == GetMarketMeta(key).symbol && d.locale == GetMarketMeta(key).locale
    ensures value.Number? ==> d == Amount(GetMarketMeta(key).symbol, GetMarketMeta(key).locale, value.x)
    ensures value.Text? && d.Amount? ==> parseNumber(value.s) == Some(d.value)
  {
    match value
    case Undefined => Dashes
    case Null => Dashes
    case Text(s) =>
      if s == "" then Dashes
      else
        (match parseNumber(s)
         case None => Unchanged(value)
         case Some(x) => Amount(GetMarketMeta(key).symbol, GetMarketMeta(key).locale, x))
    case Number(x) => Amount(GetMarketMeta(key).symbol, GetMarketMeta(key).locale, x)
  }
}
