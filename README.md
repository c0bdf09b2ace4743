# coingecko-rs request construction, in Dafny

This project models how `CoinGeckoClient` in `src/client.rs` turns typed
arguments into the URL it requests: the client configuration (`new`,
`new_with_key`, `Default`), the URL builder `get_url`, and the path and query
string of every endpoint method from `ping` to `companies`, including the
`match` tables that turn the closed option enums into wire tokens.

Modules:

- `Wrappers`: `Option`.
- `Text`: Rust's `join`, its inverse `split` on one character, and a count of
  the `%2C` list separator.
- `Render`: how `format!` renders `i64` and `bool` values, each with its
  inverse parser.
- `Calendar`: the `%d-%m-%Y` and `%Y-%m-%d` date formats, each with its
  inverse parser.
- `Params`: the enum-to-token tables, each with its inverse.
- `CoinGecko`: `Client`, `Request` (an endpoint path and an optional query
  string), `GetUrl`, and `Query` / `Fields`. `Query` builds `?f1&f2&...` from
  a list of `key=value` fields; `Fields` splits a query back into its fields
  at `&`, as the server reads it.
- `Endpoints`: one builder per endpoint method. Each builder's contract
  gives its query as the field list that `Query` joins, proved against the
  `format!` string the source writes. `coins_markets`, `status_updates` and
  `events` accumulate a vector step by step in the source, so they are
  methods here, specified by `CoinsMarketsQuery`, `StatusUpdatesQuery` and
  `EventsQuery`.
- `Properties`: what the builders promise once a query is read back with
  `Fields`:
  - an optional field appears exactly when its argument is given, at its
    place, and the other fields are untouched;
  - list parameters carry one separator fewer than they have items;
  - enum tables are injective;
  - a path with caller segments splits back at `/` into those segments;
  - `get_url` appends the key field exactly once, last.

Quirks of the code are modelled as written:

- `coin_market_chart` adds `&interval=daily` when `use_daily_interval` is
  false.
- `status_updates` sends the page size and page number as bare numbers with
  no `per_page=` / `page=` key.
- `events` with no filter sends `?&page=...`, whose first field is empty.
- `event_countries` requests `/events/types`.
- The `contract_market_chart` path ends with `/`.

## Model

| member | source | states |
|---|---|---|
| CoinGecko.New | src/client.rs:65-70 | the client has the given host and no key |
| CoinGecko.NewWithKey | src/client.rs:80-85 | the client has the given host and the key, stored as given |
| CoinGecko.Default | src/client.rs:50-54 | the default client is `new` on the production host `https://api.coingecko.com/api/v3` |
| CoinGecko.QuerySegment | src/client.rs:95-100 | a definition with no contract: the four (params, key) cases of `get_url`; what it gives is stated by `GetUrl`, `GetUrlWithoutKey`, `GetUrlAppendsKey` and `GetUrlKeyOnly` |
| CoinGecko.Url | src/client.rs:115 | a definition with no contract: the URL `get` requests for a builder's request, which is `GetUrl` on its path and query |
| CoinGecko.GetUrl | src/client.rs:94-108 | the URL is host then endpoint, unaltered, followed by the query segment chosen by the four (params, key) cases |
| CoinGecko.GetUrlWithoutKey | src/client.rs:94-99 | without a key, the URL is host + endpoint + params, with params unchanged, or host + endpoint when there are none; the fields are those of the caller's query |
| CoinGecko.GetUrlAppendsKey | src/client.rs:95-96 | with a key and a query `p`, the URL is host + endpoint + p + `&x_cg_pro_api_key=` + key; the key field is appended after every field of `p`, and the key field count rises by exactly one |
| CoinGecko.GetUrlKeyOnly | src/client.rs:97 | with a key and no query, the URL is host + endpoint + `?x_cg_pro_api_key=` + key, and the key field is the one and only field |
| CoinGecko.Query | src/client.rs:1107 | every built query starts with `?` |
| CoinGecko.QueryJoin | src/client.rs:1107 | the query of a field list is `?` followed by the fields joined with `&` (`format!("?{}", v.join("&"))`) |
| CoinGecko.QueryFields | src/client.rs:1107 | round trip: reading back the query of `&`-free fields gives exactly those fields |
| CoinGecko.KeyCountAppend | src/client.rs:1093-1107 | the count of fields carrying a key is additive over concatenated field lists |
| CoinGecko.QueryPrefix | src/client.rs:160-163 | the query of a field list begins with the query of any non-empty leading part, followed by `&` |
| Text.Join | src/client.rs:163 | a definition with no contract: Rust's `join`; its partners are `SplitJoin` (round trip with `Split`), `JoinAppend`, `JoinAvoids` and `JoinSepCount` |
| Text.SplitJoin | src/client.rs:1107 | round trip: splitting a join of delimiter-free parts at the delimiter gives back the parts |
| Text.JoinAppend | src/client.rs:1154 | joining two non-empty runs of parts equals joining each, with the separator between them |
| Text.JoinSepCount | src/client.rs:160-163 | n ≥ 1 items without `%2C`, joined with `%2C`, hold exactly n − 1 separators |
| Text.JoinAvoids | src/client.rs:163 | joining adds no character absent from the parts and the separator |
| Render.NatText | src/client.rs:1103-1104 | the decimal text of a natural number is digits only, starts with `0` only when it is `0`, and denotes the number |
| Render.NatTextCanonical | src/client.rs:1103-1104 | that text is unique: every digit string without a leading zero (other than `0`) is the text of its own value |
| Render.IntText | src/client.rs:1103-1104 | an integer's decimal text reads back as the same integer; it starts with `-` exactly for negatives, and its digits have no leading zero other than `0` itself |
| Render.BoolText | src/client.rs:241-244 | a flag renders as `true` / `false`, which reads back as the same flag |
| Calendar.Pad2 | src/client.rs:442 | two-digit zero-padded text denotes the number |
| Calendar.Pad4 | src/client.rs:1148-1149 | four-digit zero-padded text denotes the number |
| Calendar.FormatDmy | src/client.rs:442 | `%d-%m-%Y` text reads back as the same date |
| Calendar.FormatYmd | src/client.rs:1148-1149 | `%Y-%m-%d` text reads back as the same date |
| Params.MarketsOrderToken | src/client.rs:299-308 | every sort order's token parses back to that order |
| Params.PriceChangePercentageToken | src/client.rs:313-321 | every price-change window's token parses back to that window |
| Params.PriceChangeTokens | src/client.rs:310-326 | the folded tokens are one per window, in order, and each parses back to its window |
| Params.TickersOrderToken | src/client.rs:394-398 | every tickers order's token parses back to that order |
| Params.OhlcDaysCount | src/client.rs:543-551 | every OHLC range is one of 1, 7, 14, 30, 90, 180, 365 and that count maps back to it |
| Params.IncludeTickersToken | src/client.rs:979-985 | the token is `all` exactly for `Some(All)` and `unexpired` otherwise, `None` included |
| Params.DerivativeExchangeOrderToken | src/client.rs:1011-1018 | every derivative exchange order's token parses back to that order |
| Params.CompaniesPath | src/client.rs:1283-1286 | the companies path is the public-treasury prefix followed by a coin name, and it maps back to its coin |
| Endpoints.PlainPath | src/client.rs:1177-1196 | each parameterless endpoint's path names that endpoint, except that `event_countries` names `event_types` |
| Endpoints.PlainRequest | src/client.rs:134-136 | a parameterless endpoint's request has no query, and its path reads back as the endpoint (`event_countries` as `event_types`) |
| Endpoints.Price | src/client.rs:151-165 | `/simple/price` with the ids and currencies joined by `%2C`, then the four flags, in that order |
| Endpoints.TokenPrice | src/client.rs:189-207 | `/simple/token_price/<id>` with the addresses and currencies joined by `%2C`, then the four flags |
| Endpoints.CoinsList | src/client.rs:241-245 | `/coins/list` with the one `include_platform` field |
| Endpoints.CoinsMarkets | src/client.rs:281-331 | the folded price-change tokens and formatted query equal the fields of `CoinsMarketsQuery`: vs_currency, ids, the category only when given, order, per_page, page, sparkline, price_change_percentage |
| Endpoints.CoinsMarketsFormat | src/client.rs:294-297 | the `coins_markets` format string, with its category text empty or `&category=c`, is the query of its field list |
| Endpoints.Coin | src/client.rs:362-364 | `/coins/<id>` with the six data flags, in order |
| Endpoints.CoinTickers | src/client.rs:385-420 | `/coins/<id>/tickers` with the `exchange_ids` field only when ids are given, then the same four fields |
| Endpoints.TickersWithIds | src/client.rs:401-412 | the tickers format string with ids is the query of the id field followed by the four common fields |
| Endpoints.TickersWithoutIds | src/client.rs:413-416 | the tickers format string without ids is the query of the four common fields alone |
| Endpoints.CoinHistory | src/client.rs:436-447 | `/coins/<id>/history` with the date as `DD-MM-YYYY` and the localization flag |
| Endpoints.CoinMarketChart | src/client.rs:464-478 | `/coins/<id>/market_chart` with vs_currency and days, plus `interval=daily` exactly when the flag is false |
| Endpoints.CoinMarketChartRange | src/client.rs:502-518 | `/coins/<id>/market_chart/range` with vs_currency and the two timestamps |
| Endpoints.CoinOhlc | src/client.rs:537-556 | `/coins/<id>/ohlc` with vs_currency and the day count of the range |
| Endpoints.Contract | src/client.rs:572-575 | `/coins/<id>/contract/<address>` and no query |
| Endpoints.ContractMarketChart | src/client.rs:591-601 | `/coins/<id>/contract/<address>/market_chart/`, with the trailing slash, and vs_currency and days |
| Endpoints.ContractMarketChartRange | src/client.rs:621-641 | `/coins/<id>/contract/<address>/market_chart/range` with vs_currency and the two timestamps |
| Endpoints.Paging | src/client.rs:707-710 | the paginated query is exactly the fields per_page then page |
| Endpoints.Exchanges | src/client.rs:707-711 | `/exchanges`, paginated |
| Endpoints.Exchange | src/client.rs:751-754 | `/exchanges/<id>` and no query |
| Endpoints.ExchangeTickers | src/client.rs:774-809 | `/exchanges/<id>/tickers` with the `coin_ids` field only when ids are given, then the same four fields |
| Endpoints.ExchangeStatusUpdates | src/client.rs:824-834 | `/exchanges/<id>/status_updates`, paginated |
| Endpoints.ExchangeVolumeChart | src/client.rs:849-857 | `/exchanges/<id>/volume_chart` with the days field |
| Endpoints.FinancePlatforms | src/client.rs:872-881 | `/finance_platforms`, paginated |
| Endpoints.FinanceProducts | src/client.rs:896-905 | `/finance_products`, paginated |
| Endpoints.Indexes | src/client.rs:920-925 | `/indexes`, paginated |
| Endpoints.IndexesMarketId | src/client.rs:940-943 | `/indexes/<market_id>/<id>` and no query |
| Endpoints.Derivatives | src/client.rs:975-990 | `/derivatives` with the `include_tickers` token |
| Endpoints.DerivativeExchanges | src/client.rs:1005-1023 | `/derivatives/exchanges` with the order token, then pagination |
| Endpoints.DerivativesExchange | src/client.rs:1038-1054 | `/derivatives/exchanges/<id>` with the `include_tickers` token |
| Endpoints.StatusUpdates | src/client.rs:1086-1110 | the pushed vector joined with `&` is the query of the present filters, then the two bare numbers |
| Endpoints.EventsFormat | src/client.rs:1152-1159 | the `events` format string is the query whose first field is the joined filters, then page, flag and date range |
| Endpoints.Events | src/client.rs:1129-1162 | `/events` with the joined filters as the first field, then page, upcoming flag and the two `YYYY-MM-DD` dates |
| Properties.KeyFieldHasKey | src/client.rs:96 | a `key=value` field carries `key` |
| Properties.KeyCountBetween | src/client.rs:294-297 | a key-carrying field placed among fields that do not carry the key makes exactly one such field, and none without it |
| Properties.OptionalFieldFields | src/client.rs:294-297 | a present optional field reads back at its place and once; an absent one leaves the other fields exactly as they are |
| Properties.CoinsMarketsCategory | src/client.rs:294-297 | `category=c` is a field of `coins_markets` exactly when the category is given, once, immediately between ids and order; removing it gives the query without a category |
| Properties.CategoryFields | src/client.rs:329 | the same statement over the rendered field values |
| Properties.TickersFields | src/client.rs:401-417 | for `exchange_ids` and `coin_ids`: with ids, the fields are the id field followed by exactly the fields without ids; the id key appears once with ids and never without |
| Properties.CoinTickersExchangeIds | src/client.rs:401-417 | `coin_tickers` sends `exchange_ids` exactly when ids are given, in front, and the rest is identical in both branches |
| Properties.ExchangeTickersCoinIds | src/client.rs:790-806 | `exchange_tickers` sends `coin_ids` exactly when ids are given, in front, and the rest is identical in both branches |
| Properties.PriceLists | src/client.rs:160-163 | the price query starts with `?ids=<joined>&vs_currencies=` (or the contract addresses); n items without `%2C` carry n − 1 separators |
| Properties.CurrenciesSecond | src/client.rs:163 | the currencies field follows the items field directly |
| Properties.LeadingPair | src/client.rs:163 | a query of at least three fields begins with its first field, `&` and the second key |
| Properties.CoinMarketChartInterval | src/client.rs:472-475 | with the flag true the query is exactly `?vs_currency=…&days=…`; with it false, that query followed by `&interval=daily` |
| Properties.IncludeTickersDefault | src/client.rs:979-988 | `None` gives the same request as `Some(Unexpired)` (`unexpired`), `Some(All)` gives `all`, in `derivatives` and `derivatives_exchange` alike |
| Properties.OptionalFieldWithout | src/client.rs:1095-1101 | an optional field whose name differs from a key never carries that key |
| Properties.StatusUpdatesFields | src/client.rs:1093-1107 | the fields are the present filters and then the two numbers, which read back as per_page and page, while no field carries the `per_page` or `page` key |
| Properties.StatusFiltersWithout | src/client.rs:1095-1101 | neither status filter (`category`, `project_type`) carries the `per_page` or the `page` key |
| Properties.BareNumbersFields | src/client.rs:1103-1104 | bare numbers read back as their own fields and add no keyed field |
| Properties.EventsWithoutFilters | src/client.rs:1152-1159 | with no filter the query is exactly `?&page=…&upcoming_events_only=…&from_date=…&to_date=…`, whose first field is empty |
| Properties.EmptyFirstField | src/client.rs:1153 | the `events` format string with no filter is the query of an empty field then the four others |
| Properties.EventsFields | src/client.rs:1138-1159 | the fields of `events` are the present filters (or one empty field when there are none), then page, flag and dates |
| Properties.JoinedFirstField | src/client.rs:1153-1154 | a joined run of filters in first place reads back as the filters themselves, or as one empty field |
| Properties.JoinedFirst | src/client.rs:1153-1154 | the same for any non-empty run of later fields |
| Properties.ContractSegments | src/client.rs:573 | the `contract` path splits at `/` into the segments `""`, `coins`, id, `contract`, address when these hold no `/` |
| Properties.ContractMarketChartSegments | src/client.rs:598 | the `contract_market_chart` path splits into the same segments then `market_chart` and an empty last segment left by the trailing `/` |
| Properties.ExchangeSegments | src/client.rs:752 | the `exchange` path splits into `""`, `exchanges`, id when the id holds no `/` |
| Properties.IndexesMarketIdSegments | src/client.rs:941 | the `indexes_market_id` path splits into `""`, `indexes`, market id, id when these hold no `/` |
| Properties.TokenTablesInjective | src/client.rs:299-321 | every enum table (market order, price window, tickers order, OHLC days, derivative exchange order, companies path) gives distinct variants distinct tokens |
| Properties.OhlcDaysOnto | src/client.rs:543-551 | an integer is an OHLC day count exactly when some range maps to it |
| Properties.PlainPathsDistinct | src/client.rs:1177-1196 | two plain endpoints request the same path exactly when they are equal or are `event_countries` and `event_types` |
| Properties.BuiltUrlWithKey | src/client.rs:94-108 | a keyed client's URL for a built query is the query plus `&x_cg_pro_api_key=key`, whose fields are the query's plus the key field, with one more key field |
| Properties.PingWithKey | src/client.rs:134-136 | `ping` on a client with key `abc` requests host + `/ping?x_cg_pro_api_key=abc` |
| Properties.PingWithoutKey | src/client.rs:134-136 | `ping` on a client without a key requests host + `/ping`, with no query |
| Properties.OhlcSevenDays | src/client.rs:543-555 | `coin_ohlc` over seven days sends `days=7` |
| Properties.PriceScenario | src/client.rs:151-165 | `price(["bitcoin"], ["usd"], true, false, false, false)` on a client without a key requests host + `/simple/price` with exactly the fields `ids=bitcoin`, `vs_currencies=usd`, `include_market_cap=true`, `include_24hr_vol=false`, `include_24hr_change=false`, `include_last_updated_at=false`, in that order |

## Left out

- The async `get` helper (src/client.rs:110-119): the HTTP request, JSON
  decoding and the response types are I/O and deserialisation, outside the
  model. A builder returns the `Request` that the source hands to `get`, and
  `Url` gives the URL `get` would request.
- The builders do not take the client, because no builder other than
  `get_url` reads it. The URL of a builder's request comes from
  `CoinGecko.Url`.
- `NaiveDateTime::timestamp()` (src/client.rs:509-510, 629-630): the Unix
  timestamps are taken as `i64` inputs.
- Calendar.FormatDmy, Calendar.FormatYmd, Endpoints.CoinHistory, Endpoints.Events: chrono's formatting is modelled for
  years 0 to 9999 only, where `%Y` writes four digits. Whether a date exists
  in the calendar is not modelled: any month 1..12 and day 1..31 is accepted.
- Response payloads, including the `f64` rows of `coin_ohlc`: the model stops
  at the request.
- Caller strings (ids, host, key, filters) are interpolated raw, as in the
  source, with no percent-encoding or validation. So the properties that read
  a query back into fields require the caller's strings to hold no `&`.
