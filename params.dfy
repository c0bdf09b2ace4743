/**
 * The closed option sets a caller passes to the endpoint builders, and the
 * wire token each variant is rendered as (the `match` tables of
 * `src/client.rs`). Every table comes with its inverse, so each token reads
 * back as the variant it came from: the tables are total and injective.
 */
module Params {
  import opened Wrappers

  /** Sort order of `coins_markets`. */
  datatype MarketsOrder =
    | MarketCapDesc | MarketCapAsc | GeckoDesc | GeckoAsc
    | VolumeDesc | VolumeAsc | IdDesc | IdAsc

  function MarketsOrderOf(t: string): Option<MarketsOrder>
  {
    if t == "market_cap_desc" then Some(MarketCapDesc)
    else if t == "market_cap_asc" then Some(MarketCapAsc)
    else if t == "gecko_desc" then Some(GeckoDesc)
    else if t == "gecko_asc" then Some(GeckoAsc)
    else if t == "volume_desc" then Some(MarketsOrder.VolumeDesc)
    else if t == "volume_asc" then Some(VolumeAsc)
    else if t == "id_desc" then Some(IdDesc)
    else if t == "id_asc" then Some(IdAsc)
    else None
  }

  function MarketsOrderToken(o: MarketsOrder): (t: string)
    ensures MarketsOrderOf(t) == Some(o)
  {
    match o
    case MarketCapDesc => "market_cap_desc"
    case MarketCapAsc => "market_cap_asc"
    case GeckoDesc => "gecko_desc"
    case GeckoAsc => "gecko_asc"
    case VolumeDesc => "volume_desc"
    case VolumeAsc => "volume_asc"
    case IdDesc => "id_desc"
    case IdAsc => "id_asc"
  }

  /** Price-change windows of `coins_markets`. */
  datatype PriceChangePercentage =
    | OneHour | TwentyFourHours | SevenDays | FourteenDays
    | ThirtyDays | TwoHundredDays | OneYear

  function PriceChangePercentageOf(t: string): Option<PriceChangePercentage>
  {
    if t == "1h" then Some(OneHour)
    else if t == "24h" then Some(TwentyFourHours)
    else if t == "7d" then Some(PriceChangePercentage.SevenDays)
    else if t == "14d" then Some(PriceChangePercentage.FourteenDays)
    else if t == "30d" then Some(PriceChangePercentage.ThirtyDays)
    else if t == "200d" then Some(TwoHundredDays)
    else if t == "1y" then Some(OneYear)
    else None
  }

  function PriceChangePercentageToken(p: PriceChangePercentage): (t: string)
    ensures PriceChangePercentageOf(t) == Some(p)
  {
    match p
    case OneHour => "1h"
    case TwentyFourHours => "24h"
    case SevenDays => "7d"
    case FourteenDays => "14d"
    case ThirtyDays => "30d"
    case TwoHundredDays => "200d"
    case OneYear => "1y"
  }

  /** The tokens of a list of windows, position by position; each reads back as its window. */
  function PriceChangeTokens(ps: seq<PriceChangePercentage>): (r: seq<string>)
    ensures |r| == |ps|
    ensures forall i :: 0 <= i < |r| ==> PriceChangePercentageOf(r[i]) == Some(ps[i])
  {
    seq(|ps|, i requires 0 <= i < |ps| => PriceChangePercentageToken(ps[i]))
  }

  /** Sort order of `coin_tickers` and `exchange_tickers`. */
  datatype TickersOrder = TrustScoreAsc | TrustScoreDesc | VolumeDesc

  function TickersOrderOf(t: string): Option<TickersOrder>
  {
    if t == "trust_score_asc" then Some(TrustScoreAsc)
    else if t == "trust_score_desc" then Some(TrustScoreDesc)
    else if t == "volume_desc" then Some(TickersOrder.VolumeDesc)
    else None
  }

  function TickersOrderToken(o: TickersOrder): (t: string)
    ensures TickersOrderOf(t) == Some(o)
  {
    match o
    case TrustScoreAsc => "trust_score_asc"
    case TrustScoreDesc => "trust_score_desc"
    case VolumeDesc => "volume_desc"
  }

  /** Day ranges of `coin_ohlc`. */
  datatype OhlcDays =
    | OneDay | SevenDays | FourteenDays | ThirtyDays
    | NinetyDays | OneHundredEightyDays | ThreeHundredSixtyFiveDays

  /** The day counts the OHLC endpoint accepts. */
  const OhlcDayCounts: set<int> := {1, 7, 14, 30, 90, 180, 365}

  function OhlcDaysOf(n: int): Option<OhlcDays>
  {
    if n == 1 then Some(OneDay)
    else if n == 7 then Some(OhlcDays.SevenDays)
    else if n == 14 then Some(OhlcDays.FourteenDays)
    else if n == 30 then Some(OhlcDays.ThirtyDays)
    else if n == 90 then Some(NinetyDays)
    else if n == 180 then Some(OneHundredEightyDays)
    else if n == 365 then Some(ThreeHundredSixtyFiveDays)
    else None
  }

  function OhlcDaysCount(d: OhlcDays): (n: int)
    ensures n in OhlcDayCounts
    ensures OhlcDaysOf(n) == Some(d)
  {
    match d
    case OneDay => 1
    case SevenDays => 7
    case FourteenDays => 14
    case ThirtyDays => 30
    case NinetyDays => 90
    case OneHundredEightyDays => 180
    case ThreeHundredSixtyFiveDays => 365
  }

  /** Ticker inclusion of `derivatives` and `derivatives_exchange`. */
  datatype DerivativesIncludeTickers = All | Unexpired

  /** The token for an optional inclusion mode: only `Some(All)` gives `all`; an absent mode means `unexpired`. */
  function IncludeTickersToken(i: Option<DerivativesIncludeTickers>): (t: string)
    ensures t == "all" <==> i == Some(All)
    ensures t == "unexpired" <==> i != Some(All)
  {
    match i
    case Some(mode) =>
      (match mode
       case All => "all"
       case Unexpired => "unexpired")
    case None => "unexpired"
  }

  /** Sort order of `derivative_exchanges`. */
  datatype DerivativeExchangeOrder =
    | NameAsc | NameDesc | OpenInterestBtcAsc | OpenInterestBtcDesc
    | TradeVolume24hBtcAsc | TradeVolume24hBtcDesc

  function DerivativeExchangeOrderOf(t: string): Option<DerivativeExchangeOrder>
  {
    if t == "name_asc" then Some(NameAsc)
    else if t == "name_desc" then Some(NameDesc)
    else if t == "open_interest_btc_asc" then Some(OpenInterestBtcAsc)
    else if t == "open_interest_btc_desc" then Some(OpenInterestBtcDesc)
    else if t == "trade_volume_24h_btc_asc" then Some(TradeVolume24hBtcAsc)
    else if t == "trade_volume_24h_btc_desc" then Some(TradeVolume24hBtcDesc)
    else None
  }

  function DerivativeExchangeOrderToken(o: DerivativeExchangeOrder): (t: string)
    ensures DerivativeExchangeOrderOf(t) == Some(o)
  {
    match o
    case NameAsc => "name_asc"
    case NameDesc => "name_desc"
    case OpenInterestBtcAsc => "open_interest_btc_asc"
    case OpenInterestBtcDesc => "open_interest_btc_desc"
    case TradeVolume24hBtcAsc => "trade_volume_24h_btc_asc"
    case TradeVolume24hBtcDesc => "trade_volume_24h_btc_desc"
  }

  /** Coins whose public-treasury holdings `companies` can list. */
  datatype CompaniesCoinId = Bitcoin | Ethereum

  const TreasuryPrefix: string := "/companies/public_treasury/"

  function CompaniesCoinIdOf(path: string): Option<CompaniesCoinId>
  {
    if path == TreasuryPrefix + "bitcoin" then Some(Bitcoin)
    else if path == TreasuryPrefix + "ethereum" then Some(Ethereum)
    else None
  }

  /** The endpoint path of `companies`: the treasury prefix followed by the coin's name. */
  function CompaniesPath(c: CompaniesCoinId): (path: string)
    ensures |path| > |TreasuryPrefix| && path[..|TreasuryPrefix|] == TreasuryPrefix
    ensures CompaniesCoinIdOf(path) == Some(c)
  {
    match c
    case Bitcoin => "/companies/public_treasury/bitcoin"
    case Ethereum => "/companies/public_treasury/ethereum"
  }
}
