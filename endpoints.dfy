/**
 * The path and query string every endpoint method of `CoinGeckoClient`
 * builds before it calls the HTTP helper (`src/client.rs`). Each builder's
 * contract gives its query as the ordered list of `key=value` fields that
 * `Query` joins with `&`; caller strings are interpolated raw, lists are
 * joined with `%2C`.
 *
 * `coins_markets`, `status_updates` and `events` accumulate their fields
 * step by step in the source; they are methods here, specified by the
 * functions `CoinsMarketsQuery`, `StatusUpdatesQuery` and `EventsQuery`.
 */
module Endpoints {
  import opened Wrappers
  import opened Text
  import opened Render
  import opened Calendar
  import opened Params
  import opened CoinGecko

  // ---------------------------------------------------------------------------
  // Endpoints without query parameters
  // ---------------------------------------------------------------------------

  /** The methods that request a fixed path with no query string. */
  datatype PlainEndpoint =
    | Ping | SupportedVsCurrencies | AssetPlatforms | CategoriesList | Categories
    | ExchangesList | IndexesList | DerivativeExchangesList | EventCountries | EventTypes
    | ExchangeRates | Trending | Global | GlobalDefi | Companies(coin: CompaniesCoinId)

  /** Which plain endpoint a path names; `/events/types` is read as `EventTypes`. */
  function PlainEndpointOf(path: string): Option<PlainEndpoint>
  {
    if path == "/ping" then Some(Ping)
    else if path == "/simple/supported_vs_currencies" then Some(SupportedVsCurrencies)
    else if path == "/asset_platforms" then Some(AssetPlatforms)
    else if path == "/coins/categories/list" then Some(CategoriesList)
    else if path == "/coins/categories" then Some(Categories)
    else if path == "/exchanges/list" then Some(ExchangesList)
    else if path == "/indexes/list" then Some(IndexesList)
    else if path == "/derivatives/exchanges/list" then Some(DerivativeExchangesList)
    else if path == "/events/types" then Some(EventTypes)
    else if path == "/exchange_rates" then Some(ExchangeRates)
    else if path == "/search/trending" then Some(Trending)
    else if path == "/global" then Some(Global)
    else if path == "/global/decentralized_finance_defi" then Some(GlobalDefi)
    else match CompaniesCoinIdOf(path)
      case Some(coin) => Some(Companies(coin))
      case None => None
  }

  /**
   * The path each plain endpoint requests. Every path names its own endpoint,
   * except that `event_countries` requests the path of `event_types`.
   */
  function PlainPath(e: PlainEndpoint): (path: string)
    ensures PlainEndpointOf(path) == Some(if e == EventCountries then EventTypes else e)
  {
    match e
    case Ping => "/ping"
    case SupportedVsCurrencies => "/simple/supported_vs_currencies"
    case AssetPlatforms => "/asset_platforms"
    case CategoriesList => "/coins/categories/list"
    case Categories => "/coins/categories"
    case ExchangesList => "/exchanges/list"
    case IndexesList => "/indexes/list"
    case DerivativeExchangesList => "/derivatives/exchanges/list"
    case EventCountries => "/events/types"
    case EventTypes => "/events/types"
    case ExchangeRates => "/exchange_rates"
    case Trending => "/search/trending"
    case Global => "/global"
    case GlobalDefi => "/global/decentralized_finance_defi"
    case Companies(coin) => CompaniesPath(coin)
  }

  /** A plain endpoint's request: its path and no query string. */
  function PlainRequest(e: PlainEndpoint): (r: Request)
    ensures r.params == None
    ensures PlainEndpointOf(r.endpoint) == Some(if e == EventCountries then EventTypes else e)
  {
    Request(PlainPath(e), None)
  }

  // ---------------------------------------------------------------------------
  // simple
  // ---------------------------------------------------------------------------

  /**
   * The fields of `price` and `token_price`: the items (ids or contract
   * addresses, under `itemsName`) and the currencies joined with `%2C`, then
   * the four flags.
   */
  function PriceQuery(itemsName: string, items: seq<string>, vsCurrencies: seq<string>,
                      includeMarketCap: bool, include24hrVol: bool, include24hrChange: bool,
                      includeLastUpdatedAt: bool): string
  {
    Query([itemsName + Join(items, ListSep),
           "vs_currencies=" + Join(vsCurrencies, ListSep),
           "include_market_cap=" + BoolText(includeMarketCap),
           "include_24hr_vol=" + BoolText(include24hrVol),
           "include_24hr_change=" + BoolText(include24hrChange),
           "include_last_updated_at=" + BoolText(includeLastUpdatedAt)])
  }

  /** `price`: ids and currencies joined with `%2C`, then the four flags. */
  function Price(ids: seq<string>, vsCurrencies: seq<string>, includeMarketCap: bool,
                 include24hrVol: bool, include24hrChange: bool, includeLastUpdatedAt: bool): (r: Request)
    ensures r == Request("/simple/price", Some(PriceQuery("ids=", ids, vsCurrencies, includeMarketCap,
                                                          include24hrVol, include24hrChange, includeLastUpdatedAt)))
  {
    Format6("?ids=", "ids=", Join(ids, ListSep),
            "&vs_currencies=", "vs_currencies=", Join(vsCurrencies, ListSep),
            "&include_market_cap=", "include_market_cap=", BoolText(includeMarketCap),
            "&include_24hr_vol=", "include_24hr_vol=", BoolText(include24hrVol),
            "&include_24hr_change=", "include_24hr_change=", BoolText(include24hrChange),
            "&include_last_updated_at=", "include_last_updated_at=", BoolText(includeLastUpdatedAt));
    Request("/simple/price",
      Some("?ids=" + Join(ids, ListSep) + "&vs_currencies=" + Join(vsCurrencies, ListSep)
        + "&include_market_cap=" + BoolText(includeMarketCap)
        + "&include_24hr_vol=" + BoolText(include24hrVol)
        + "&include_24hr_change=" + BoolText(include24hrChange)
        + "&include_last_updated_at=" + BoolText(includeLastUpdatedAt)))
  }

  /** `token_price`: the platform id in the path, addresses and currencies joined with `%2C`. */
  function TokenPrice(id: string, contractAddresses: seq<string>, vsCurrencies: seq<string>,
                      includeMarketCap: bool, include24hrVol: bool, include24hrChange: bool,
                      includeLastUpdatedAt: bool): (r: Request)
    ensures r == Request("/simple/token_price/" + id,
                         Some(PriceQuery("contract_addresses=", contractAddresses, vsCurrencies, includeMarketCap,
                                         include24hrVol, include24hrChange, includeLastUpdatedAt)))
  {
    Format6("?contract_addresses=", "contract_addresses=", Join(contractAddresses, ListSep),
            "&vs_currencies=", "vs_currencies=", Join(vsCurrencies, ListSep),
            "&include_market_cap=", "include_market_cap=", BoolText(includeMarketCap),
            "&include_24hr_vol=", "include_24hr_vol=", BoolText(include24hrVol),
            "&include_24hr_change=", "include_24hr_change=", BoolText(include24hrChange),
            "&include_last_updated_at=", "include_last_updated_at=", BoolText(includeLastUpdatedAt));
    Request("/simple/token_price/" + id,
      Some("?contract_addresses=" + Join(contractAddresses, ListSep)
        + "&vs_currencies=" + Join(vsCurrencies, ListSep)
        + "&include_market_cap=" + BoolText(includeMarketCap)
        + "&include_24hr_vol=" + BoolText(include24hrVol)
        + "&include_24hr_change=" + BoolText(include24hrChange)
        + "&include_last_updated_at=" + BoolText(includeLastUpdatedAt)))
  }

  // ---------------------------------------------------------------------------
  // coins
  // ---------------------------------------------------------------------------

  /** `coins_list`: one flag. */
  function CoinsList(includePlatform: bool): (r: Request)
    ensures r == Request("/coins/list", Some(Query(["include_platform=" + BoolText(includePlatform)])))
  {
    Format1("?include_platform=", "include_platform=", BoolText(includePlatform));
    Request("/coins/list", Some("?include_platform=" + BoolText(includePlatform)))
  }

  /** The fields of `coins_markets`; the category field sits between `ids` and `order` when given. */
  function CoinsMarketsQuery(vsCurrency: string, ids: seq<string>, category: Option<string>,
                             order: MarketsOrder, perPage: I64, page: I64, sparkline: bool,
                             priceChangePercentage: seq<PriceChangePercentage>): string
  {
    Query(["vs_currency=" + vsCurrency, "ids=" + Join(ids, ListSep)]
      + OptionalField("category=", category)
      + ["order=" + MarketsOrderToken(order),
         "per_page=" + IntText(perPage),
         "page=" + IntText(page),
         "sparkline=" + BoolText(sparkline),
         "price_change_percentage=" + Join(PriceChangeTokens(priceChangePercentage), ListSep)])
  }

  /**
   * `coins_markets`: the price-change windows are folded into a list of
   * tokens, then everything is formatted into one query string.
   */
  method CoinsMarkets(vsCurrency: string, ids: seq<string>, category: Option<string>,
                      order: MarketsOrder, perPage: I64, page: I64, sparkline: bool,
                      priceChangePercentage: seq<PriceChangePercentage>) returns (r: Request)
    ensures r == Request("/coins/markets", Some(CoinsMarketsQuery(vsCurrency, ids, category, order,
                                                                  perPage, page, sparkline,
                                                                  priceChangePercentage)))
  {
    var categoryText := match category
      case Some(c) => "&category=" + c
      case None => "";
    var orderToken := MarketsOrderToken(order);
    var tokens: seq<string> := [];
    for i := 0 to |priceChangePercentage|
      invariant |tokens| == i
      invariant forall j :: 0 <= j < i ==> tokens[j] == PriceChangePercentageToken(priceChangePercentage[j])
    {
      tokens := tokens + [PriceChangePercentageToken(priceChangePercentage[i])];
    }
    assert tokens == PriceChangeTokens(priceChangePercentage);
    var params := "?vs_currency=" + vsCurrency + "&ids=" + Join(ids, ListSep) + categoryText
      + "&order=" + orderToken + "&per_page=" + IntText(perPage) + "&page=" + IntText(page)
      + "&sparkline=" + BoolText(sparkline) + "&price_change_percentage=" + Join(tokens, ListSep);
    CoinsMarketsFormat(vsCurrency, Join(ids, ListSep), category, categoryText, orderToken,
                       IntText(perPage), IntText(page), BoolText(sparkline), Join(tokens, ListSep));
    r := Request("/coins/markets", Some(params));
  }

  /** `coin`: the coin id in the path, six flags. */
  function Coin(id: string, localization: bool, tickers: bool, marketData: bool,
                communityData: bool, developerData: bool, sparkline: bool): (r: Request)
    ensures r == Request("/coins/" + id, Some(Query([
      "localization=" + BoolText(localization),
      "tickers=" + BoolText(tickers),
      "market_data=" + BoolText(marketData),
      "community_data=" + BoolText(communityData),
      "developer_data=" + BoolText(developerData),
      "sparkline=" + BoolText(sparkline)])))
  {
    Format6("?localization=", "localization=", BoolText(localization),
            "&tickers=", "tickers=", BoolText(tickers),
            "&market_data=", "market_data=", BoolText(marketData),
            "&community_data=", "community_data=", BoolText(communityData),
            "&developer_data=", "developer_data=", BoolText(developerData),
            "&sparkline=", "sparkline=", BoolText(sparkline));
    Request("/coins/" + id,
      Some("?localization=" + BoolText(localization) + "&tickers=" + BoolText(tickers)
        + "&market_data=" + BoolText(marketData) + "&community_data=" + BoolText(communityData)
        + "&developer_data=" + BoolText(developerData) + "&sparkline=" + BoolText(sparkline)))
  }

  /** A list argument joined with `%2C`, when there is one. */
  function JoinedList(items: Option<seq<string>>): Option<string>
  {
    match items
    case Some(xs) => Some(Join(xs, ListSep))
    case None => None
  }

  /**
   * The fields of `coin_tickers` and `exchange_tickers`: the id list under
   * `idsName` when one is given, then the same four fields in both cases.
   */
  function TickersQuery(idsName: string, ids: Option<seq<string>>, includeExchangeLogo: bool,
                        page: I64, order: TickersOrder, depth: bool): string
  {
    Query(OptionalField(idsName, JoinedList(ids))
      + ["include_exchange_logo=" + BoolText(includeExchangeLogo),
         "page=" + IntText(page),
         "order=" + TickersOrderToken(order),
         "depth=" + BoolText(depth)])
  }

  /**
   * `coin_tickers`: an `exchange_ids` field first when exchange ids are
   * given, then the same four fields in both cases.
   */
  function CoinTickers(id: string, exchangeIds: Option<seq<string>>, includeExchangeLogo: bool,
                       page: I64, order: TickersOrder, depth: bool): (r: Request)
    ensures r == Request("/coins/" + id + "/tickers",
                         Some(TickersQuery("exchange_ids=", exchangeIds, includeExchangeLogo, page, order, depth)))
  {
    var order := TickersOrderToken(order);
    var endpoint := "/coins/" + id + "/tickers";
    match exchangeIds
    case Some(eIds) =>
      TickersWithIds("?exchange_ids=", "exchange_ids=", Join(eIds, ListSep), BoolText(includeExchangeLogo),
                     IntText(page), order, BoolText(depth));
      Request(endpoint, Some("?exchange_ids=" + Join(eIds, ListSep) + "&include_exchange_logo="
        + BoolText(includeExchangeLogo) + "&page=" + IntText(page) + "&order=" + order
        + "&depth=" + BoolText(depth)))
    case None =>
      TickersWithoutIds("exchange_ids=", BoolText(includeExchangeLogo), IntText(page), order, BoolText(depth));
      Request(endpoint, Some("?include_exchange_logo=" + BoolText(includeExchangeLogo)
        + "&page=" + IntText(page) + "&order=" + order + "&depth=" + BoolText(depth)))
  }

  /** The tickers format string with the list of ids first. */
  lemma TickersWithIds(lead: string, idsName: string, idsText: string, logoText: string,
                       pageText: string, orderText: string, depthText: string)
    requires Piece(lead, '?', idsName)
    ensures lead + idsText + "&include_exchange_logo=" + logoText + "&page=" + pageText
              + "&order=" + orderText + "&depth=" + depthText
         == Query(OptionalField(idsName, Some(idsText))
              + ["include_exchange_logo=" + logoText, "page=" + pageText, "order=" + orderText,
                 "depth=" + depthText])
  {
    assert OptionalField(idsName, Some(idsText))
        + ["include_exchange_logo=" + logoText, "page=" + pageText, "order=" + orderText,
           "depth=" + depthText]
        == [idsName + idsText, "include_exchange_logo=" + logoText, "page=" + pageText,
            "order=" + orderText, "depth=" + depthText];
    Format5(lead, idsName, idsText, "&include_exchange_logo=", "include_exchange_logo=", logoText,
            "&page=", "page=", pageText, "&order=", "order=", orderText,
            "&depth=", "depth=", depthText);
  }

  /** The tickers format string without a list of ids. */
  lemma TickersWithoutIds(idsName: string, logoText: string, pageText: string,
                          orderText: string, depthText: string)
    ensures "?include_exchange_logo=" + logoText + "&page=" + pageText
              + "&order=" + orderText + "&depth=" + depthText
         == Query(OptionalField(idsName, None)
              + ["include_exchange_logo=" + logoText, "page=" + pageText, "order=" + orderText,
                 "depth=" + depthText])
  {
    assert OptionalField(idsName, None)
        + ["include_exchange_logo=" + logoText, "page=" + pageText, "order=" + orderText,
           "depth=" + depthText]
        == ["include_exchange_logo=" + logoText, "page=" + pageText, "order=" + orderText,
            "depth=" + depthText];
    Format4("?include_exchange_logo=", "include_exchange_logo=", logoText,
            "&page=", "page=", pageText, "&order=", "order=", orderText,
            "&depth=", "depth=", depthText);
  }

  /** `coin_history`: the date as `DD-MM-YYYY`. */
  function CoinHistory(id: string, date: CalendarDate, localization: bool): (r: Request)
    ensures r == Request("/coins/" + id + "/history", Some(Query([
      "date=" + FormatDmy(date),
      "localization=" + BoolText(localization)])))
  {
    var formattedDate := FormatDmy(date);
    Format2("?date=", "date=", formattedDate, "&localization=", "localization=", BoolText(localization));
    Request("/coins/" + id + "/history",
      Some("?date=" + formattedDate + "&localization=" + BoolText(localization)))
  }

  /**
   * `coin_market_chart`: as in the source, the `interval=daily` field is
   * added when `useDailyInterval` is false.
   */
  function CoinMarketChart(id: string, vsCurrency: string, days: I64, useDailyInterval: bool): (r: Request)
    ensures r == Request("/coins/" + id + "/market_chart", Some(Query(
      ["vs_currency=" + vsCurrency, "days=" + IntText(days)]
      + (if useDailyInterval then [] else ["interval=daily"]))))
  {
    var endpoint := "/coins/" + id + "/market_chart";
    if useDailyInterval then
      Format2("?vs_currency=", "vs_currency=", vsCurrency, "&days=", "days=", IntText(days));
      assert ["vs_currency=" + vsCurrency, "days=" + IntText(days)] + []
          == ["vs_currency=" + vsCurrency, "days=" + IntText(days)];
      Request(endpoint, Some("?vs_currency=" + vsCurrency + "&days=" + IntText(days)))
    else
      var front := "?vs_currency=" + vsCurrency + "&days=" + IntText(days);
      Format2("?vs_currency=", "vs_currency=", vsCurrency, "&days=", "days=", IntText(days));
      Append1(front, ["vs_currency=" + vsCurrency, "days=" + IntText(days)],
              "&interval=daily", "interval=daily", "");
      assert front + "&interval=daily" + "" == front + "&interval=daily";
      assert "interval=daily" + "" == "interval=daily";
      Request(endpoint, Some("?vs_currency=" + vsCurrency + "&days=" + IntText(days) + "&interval=daily"))
  }

  /** `coin_market_chart_range`: `from` and `to` are Unix timestamps in seconds. */
  function CoinMarketChartRange(id: string, vsCurrency: string, from: I64, to: I64): (r: Request)
    ensures r == Request("/coins/" + id + "/market_chart/range", Some(Query([
      "vs_currency=" + vsCurrency, "from=" + IntText(from), "to=" + IntText(to)])))
  {
    Format3("?vs_currency=", "vs_currency=", vsCurrency, "&from=", "from=", IntText(from),
            "&to=", "to=", IntText(to));
    Request("/coins/" + id + "/market_chart/range",
      Some("?vs_currency=" + vsCurrency + "&from=" + IntText(from) + "&to=" + IntText(to)))
  }

  /** `coin_ohlc`: the day range rendered as its day count. */
  function CoinOhlc(id: string, vsCurrency: string, days: OhlcDays): (r: Request)
    ensures r == Request("/coins/" + id + "/ohlc", Some(Query([
      "vs_currency=" + vsCurrency, "days=" + IntText(OhlcDaysCount(days))])))
  {
    var days := OhlcDaysCount(days);
    Format2("?vs_currency=", "vs_currency=", vsCurrency, "&days=", "days=", IntText(days));
    Request("/coins/" + id + "/ohlc", Some("?vs_currency=" + vsCurrency + "&days=" + IntText(days)))
  }

  /** `contract`: platform id and contract address in the path, no query. */
  function Contract(id: string, contractAddress: string): (r: Request)
    ensures r.params == None
    ensures r.endpoint == "/coins/" + id + "/contract/" + contractAddress
  {
    Request("/coins/" + id + "/contract/" + contractAddress, None)
  }

  /** `contract_market_chart`: the path ends with `/`, as in the source. */
  function ContractMarketChart(id: string, contractAddress: string, vsCurrency: string,
                               days: I64): (r: Request)
    ensures r == Request("/coins/" + id + "/contract/" + contractAddress + "/market_chart/",
                         Some(Query(["vs_currency=" + vsCurrency, "days=" + IntText(days)])))
  {
    Format2("?vs_currency=", "vs_currency=", vsCurrency, "&days=", "days=", IntText(days));
    Request("/coins/" + id + "/contract/" + contractAddress + "/market_chart/",
      Some("?vs_currency=" + vsCurrency + "&days=" + IntText(days)))
  }

  /** `contract_market_chart_range`: `from` and `to` are Unix timestamps in seconds. */
  function ContractMarketChartRange(id: string, contractAddress: string, vsCurrency: string,
                                    from: I64, to: I64): (r: Request)
    ensures r == Request("/coins/" + id + "/contract/" + contractAddress + "/market_chart/range",
      Some(Query(["vs_currency=" + vsCurrency, "from=" + IntText(from), "to=" + IntText(to)])))
  {
    Format3("?vs_currency=", "vs_currency=", vsCurrency, "&from=", "from=", IntText(from),
            "&to=", "to=", IntText(to));
    Request("/coins/" + id + "/contract/" + contractAddress + "/market_chart/range",
      Some("?vs_currency=" + vsCurrency + "&from=" + IntText(from) + "&to=" + IntText(to)))
  }

  // ---------------------------------------------------------------------------
  // exchanges, finance, indexes
  // ---------------------------------------------------------------------------

  /** The `?per_page=..&page=..` query shared by the paginated list endpoints. */
  function Paging(perPage: I64, page: I64): (q: string)
    ensures q == Query(["per_page=" + IntText(perPage), "page=" + IntText(page)])
  {
    Format2("?per_page=", "per_page=", IntText(perPage), "&page=", "page=", IntText(page));
    "?per_page=" + IntText(perPage) + "&page=" + IntText(page)
  }

  /** `exchanges`: paginated. */
  function Exchanges(perPage: I64, page: I64): (r: Request)
    ensures r == Request("/exchanges", Some(Query(["per_page=" + IntText(perPage), "page=" + IntText(page)])))
  {
    Request("/exchanges", Some(Paging(perPage, page)))
  }

  /** `exchange`: the exchange id in the path, no query. */
  function Exchange(id: string): (r: Request)
    ensures r.params == None
    ensures r.endpoint == "/exchanges/" + id
  {
    Request("/exchanges/" + id, None)
  }

  /**
   * `exchange_tickers`: a `coin_ids` field first when coin ids are given,
   * then the same four fields in both cases.
   */
  function ExchangeTickers(id: string, coinIds: Option<seq<string>>, includeExchangeLogo: bool,
                           page: I64, order: TickersOrder, depth: bool): (r: Request)
    ensures r == Request("/exchanges/" + id + "/tickers",
                         Some(TickersQuery("coin_ids=", coinIds, includeExchangeLogo, page, order, depth)))
  {
    var order := TickersOrderToken(order);
    var endpoint := "/exchanges/" + id + "/tickers";
    match coinIds
    case Some(cIds) =>
      TickersWithIds("?coin_ids=", "coin_ids=", Join(cIds, ListSep), BoolText(includeExchangeLogo),
                     IntText(page), order, BoolText(depth));
      Request(endpoint, Some("?coin_ids=" + Join(cIds, ListSep) + "&include_exchange_logo="
        + BoolText(includeExchangeLogo) + "&page=" + IntText(page) + "&order=" + order
        + "&depth=" + BoolText(depth)))
    case None =>
      TickersWithoutIds("coin_ids=", BoolText(includeExchangeLogo), IntText(page), order, BoolText(depth));
      Request(endpoint, Some("?include_exchange_logo=" + BoolText(includeExchangeLogo)
        + "&page=" + IntText(page) + "&order=" + order + "&depth=" + BoolText(depth)))
  }

  /** `exchange_status_updates`: the exchange id in the path, paginated. */
  function ExchangeStatusUpdates(id: string, perPage: I64, page: I64): (r: Request)
    ensures r == Request("/exchanges/" + id + "/status_updates",
                         Some(Query(["per_page=" + IntText(perPage), "page=" + IntText(page)])))
  {
    Request("/exchanges/" + id + "/status_updates", Some(Paging(perPage, page)))
  }

  /** `exchange_volume_chart`: the exchange id in the path, a day count. */
  function ExchangeVolumeChart(id: string, days: I64): (r: Request)
    ensures r == Request("/exchanges/" + id + "/volume_chart", Some(Query(["days=" + IntText(days)])))
  {
    Format1("?days=", "days=", IntText(days));
    Request("/exchanges/" + id + "/volume_chart", Some("?days=" + IntText(days)))
  }

  /** `finance_platforms`: paginated. */
  function FinancePlatforms(perPage: I64, page: I64): (r: Request)
    ensures r == Request("/finance_platforms",
                         Some(Query(["per_page=" + IntText(perPage), "page=" + IntText(page)])))
  {
    Request("/finance_platforms", Some(Paging(perPage, page)))
  }

  /** `finance_products`: paginated. */
  function FinanceProducts(perPage: I64, page: I64): (r: Request)
    ensures r == Request("/finance_products",
                         Some(Query(["per_page=" + IntText(perPage), "page=" + IntText(page)])))
  {
    Request("/finance_products", Some(Paging(perPage, page)))
  }

  /** `indexes`: paginated. */
  function Indexes(perPage: I64, page: I64): (r: Request)
    ensures r == Request("/indexes", Some(Query(["per_page=" + IntText(perPage), "page=" + IntText(page)])))
  {
    Request("/indexes", Some(Paging(perPage, page)))
  }

  /** `indexes_market_id`: market id and index id in the path, no query. */
  function IndexesMarketId(marketId: string, id: string): (r: Request)
    ensures r.params == None
    ensures r.endpoint == "/indexes/" + marketId + "/" + id
  {
    Request("/indexes/" + marketId + "/" + id, None)
  }

  // ---------------------------------------------------------------------------
  // derivatives
  // ---------------------------------------------------------------------------

  /** `derivatives`: the inclusion mode, `unexpired` when none is given. */
  function Derivatives(includeTickers: Option<DerivativesIncludeTickers>): (r: Request)
    ensures r == Request("/derivatives", Some(Query(["include_tickers=" + IncludeTickersToken(includeTickers)])))
  {
    var includeTickers := IncludeTickersToken(includeTickers);
    Format1("?include_tickers=", "include_tickers=", includeTickers);
    Request("/derivatives", Some("?include_tickers=" + includeTickers))
  }

  /** `derivative_exchanges`: sort order, then pagination. */
  function DerivativeExchanges(order: DerivativeExchangeOrder, perPage: I64, page: I64): (r: Request)
    ensures r == Request("/derivatives/exchanges", Some(Query([
      "order=" + DerivativeExchangeOrderToken(order),
      "per_page=" + IntText(perPage),
      "page=" + IntText(page)])))
  {
    var order := DerivativeExchangeOrderToken(order);
    Format3("?order=", "order=", order, "&per_page=", "per_page=", IntText(perPage),
            "&page=", "page=", IntText(page));
    Request("/derivatives/exchanges",
      Some("?order=" + order + "&per_page=" + IntText(perPage) + "&page=" + IntText(page)))
  }

  /** `derivatives_exchange`: the exchange id in the path, the inclusion mode as in `derivatives`. */
  function DerivativesExchange(id: string, includeTickers: Option<DerivativesIncludeTickers>): (r: Request)
    ensures r == Request("/derivatives/exchanges/" + id,
                         Some(Query(["include_tickers=" + IncludeTickersToken(includeTickers)])))
  {
    var includeTickers := IncludeTickersToken(includeTickers);
    Format1("?include_tickers=", "include_tickers=", includeTickers);
    Request("/derivatives/exchanges/" + id, Some("?include_tickers=" + includeTickers))
  }

  // ---------------------------------------------------------------------------
  // status updates and events
  // ---------------------------------------------------------------------------

  /**
   * The fields of `status_updates`: the optional filters, then the page size
   * and page number as bare numbers without a `key=` (as the source pushes them).
   */
  function StatusUpdatesQuery(category: Option<string>, projectType: Option<string>,
                              perPage: I64, page: I64): string
  {
    Query(OptionalField("category=", category) + OptionalField("project_type=", projectType)
      + [IntText(perPage), IntText(page)])
  }

  /** `status_updates`: pushes the present filters and the two numbers, then joins them with `&`. */
  method StatusUpdates(category: Option<string>, projectType: Option<string>,
                       perPage: I64, page: I64) returns (r: Request)
    ensures r == Request("/status_updates", Some(StatusUpdatesQuery(category, projectType, perPage, page)))
  {
    var params: seq<string> := [];
    if category.Some? {
      params := params + ["category=" + category.value];
    }
    if projectType.Some? {
      params := params + ["project_type=" + projectType.value];
    }
    params := params + [IntText(perPage)];
    params := params + [IntText(page)];
    assert params == OptionalField("category=", category) + OptionalField("project_type=", projectType)
      + [IntText(perPage), IntText(page)];
    QueryJoin(params);
    r := Request("/status_updates", Some("?" + Join(params, "&")));
  }

  /** The filters of `events` that are present, in order. */
  function EventFilters(countryCode: Option<string>, eventType: Option<string>): seq<string>
  {
    OptionalField("country_code=", countryCode) + OptionalField("type=", eventType)
  }

  /**
   * The fields of `events`: the filters joined with `&` form the first field
   * (an empty one when there is no filter), then page, flag and date range.
   */
  function EventsQuery(countryCode: Option<string>, eventType: Option<string>, page: I64,
                       upcomingEventsOnly: bool, fromDate: CalendarDate, toDate: CalendarDate): string
  {
    Query([Join(EventFilters(countryCode, eventType), "&"),
           "page=" + IntText(page),
           "upcoming_events_only=" + BoolText(upcomingEventsOnly),
           "from_date=" + FormatYmd(fromDate),
           "to_date=" + FormatYmd(toDate)])
  }

  /** The `events` format string: the joined filters stand where a first field would. */
  lemma EventsFormat(joined: string, pageText: string, upcomingText: string,
                     fromText: string, toText: string)
    ensures "?" + joined + "&page=" + pageText + "&upcoming_events_only=" + upcomingText
              + "&from_date=" + fromText + "&to_date=" + toText
         == Query([joined, "page=" + pageText, "upcoming_events_only=" + upcomingText,
                   "from_date=" + fromText, "to_date=" + toText])
  {
    Format5("?", "", joined, "&page=", "page=", pageText,
            "&upcoming_events_only=", "upcoming_events_only=", upcomingText,
            "&from_date=", "from_date=", fromText, "&to_date=", "to_date=", toText);
    assert "" + joined == joined;
    assert "?" + "" == "?";
  }

  /** `events`: pushes the present filters, joins them, then formats the rest after them. */
  method Events(countryCode: Option<string>, eventType: Option<string>, page: I64,
                upcomingEventsOnly: bool, fromDate: CalendarDate, toDate: CalendarDate) returns (r: Request)
    ensures r == Request("/events", Some(EventsQuery(countryCode, eventType, page, upcomingEventsOnly,
                                                     fromDate, toDate)))
  {
    var params: seq<string> := [];
    if countryCode.Some? {
      params := params + ["country_code=" + countryCode.value];
    }
    if eventType.Some? {
      params := params + ["type=" + eventType.value];
    }
    assert params == EventFilters(countryCode, eventType);
    EventsFormat(Join(params, "&"), IntText(page), BoolText(upcomingEventsOnly),
                 FormatYmd(fromDate), FormatYmd(toDate));
    r := Request("/events", Some("?" + Join(params, "&") + "&page=" + IntText(page)
      + "&upcoming_events_only=" + BoolText(upcomingEventsOnly)
      + "&from_date=" + FormatYmd(fromDate) + "&to_date=" + FormatYmd(toDate)));
  }

  /** The `coins_markets` format string, with or without its category text, is the query of its fields. */
  lemma CoinsMarketsFormat(vsCurrency: string, idsText: string, category: Option<string>,
                           categoryText: string, orderText: string, perPageText: string,
                           pageText: string, sparklineText: string, changeText: string)
    requires categoryText == if category.Some? then "&category=" + category.value else ""
    ensures "?vs_currency=" + vsCurrency + "&ids=" + idsText + categoryText + "&order=" + orderText
            + "&per_page=" + perPageText + "&page=" + pageText + "&sparkline=" + sparklineText
            + "&price_change_percentage=" + changeText
         == Query(["vs_currency=" + vsCurrency, "ids=" + idsText]
              + OptionalField("category=", category)
              + ["order=" + orderText, "per_page=" + perPageText, "page=" + pageText,
                 "sparkline=" + sparklineText, "price_change_percentage=" + changeText])
  {
    CoinsMarketsFront(vsCurrency, idsText, category, categoryText);
    Append5("?vs_currency=" + vsCurrency + "&ids=" + idsText + categoryText,
            ["vs_currency=" + vsCurrency, "ids=" + idsText] + OptionalField("category=", category),
            "&order=", "order=", orderText, "&per_page=", "per_page=", perPageText,
            "&page=", "page=", pageText, "&sparkline=", "sparkline=", sparklineText,
            "&price_change_percentage=", "price_change_percentage=", changeText);
  }

  /** The `coins_markets` format string up to `&order=`. */
  lemma CoinsMarketsFront(vsCurrency: string, idsText: string, category: Option<string>,
                          categoryText: string)
    requires categoryText == if category.Some? then "&category=" + category.value else ""
    ensures "?vs_currency=" + vsCurrency + "&ids=" + idsText + categoryText
         == Query(["vs_currency=" + vsCurrency, "ids=" + idsText] + OptionalField("category=", category))
  {
    var head := ["vs_currency=" + vsCurrency, "ids=" + idsText];
    var prefix := "?vs_currency=" + vsCurrency + "&ids=" + idsText;
    match category {
      case Some(c) =>
        assert head + OptionalField("category=", category) == head + ["category=" + c]
            == ["vs_currency=" + vsCurrency, "ids=" + idsText, "category=" + c];
        Format3("?vs_currency=", "vs_currency=", vsCurrency, "&ids=", "ids=", idsText,
                "&category=", "category=", c);
        assert prefix + categoryText == prefix + "&category=" + c;
      case None =>
        assert head + OptionalField("category=", category) == head;
        assert prefix + categoryText == prefix;
        Format2("?vs_currency=", "vs_currency=", vsCurrency, "&ids=", "ids=", idsText);
    }
  }
}
