/**
 * What the request builders of `src/client.rs` promise about the queries
 * they produce, read back field by field with `Fields`: optional fields
 * appear exactly when their argument is given and leave the other fields
 * alone, lists carry one `%2C` fewer than they have items, enum tables are
 * injective, and the URL of a request follows from `get_url`.
 *
 * Caller strings are interpolated raw, so the statements about fields
 * assume that the caller's strings hold no `&`.
 */
module Properties {
  import opened Wrappers
  import opened Text
  import opened Render
  import opened Calendar
  import opened Params
  import opened CoinGecko
  import opened Endpoints

  // ---------------------------------------------------------------------------
  // Rendered values hold neither `&` nor `=`
  // ---------------------------------------------------------------------------

  lemma IntTextPlain(i: int)
    ensures '&' !in IntText(i) && '=' !in IntText(i)
  {
    var s := IntText(i);
    forall k | 0 <= k < |s|
      ensures s[k] != '&' && s[k] != '='
    {
      assert IsDigit(s[k]) || s[k] == '-';
    }
  }

  lemma BoolTextPlain(b: bool)
    ensures '&' !in BoolText(b) && '=' !in BoolText(b)
  {
    var s := BoolText(b);
    forall k | 0 <= k < |s|
      ensures s[k] != '&' && s[k] != '='
    {
      assert 'a' <= s[k] <= 'z';
    }
  }

  lemma DateTextPlain(d: CalendarDate)
    ensures '&' !in FormatYmd(d)
  {
    var s := FormatYmd(d);
    forall k | 0 <= k < |s|
      ensures s[k] != '&'
    {
      if k < 4 {
        assert s[..4][k] == s[k];
      } else if 4 < k < 7 {
        assert s[5..7][k - 5] == s[k];
      } else if 7 < k {
        assert s[8..][k - 8] == s[k];
      }
    }
  }

  lemma MarketsOrderPlain(o: MarketsOrder)
    ensures '&' !in MarketsOrderToken(o)
  {
    match o
    case _ =>
  }

  lemma TickersOrderPlain(o: TickersOrder)
    ensures '&' !in TickersOrderToken(o)
  {
    match o
    case _ =>
  }

  lemma PriceChangeTokensPlain(ps: seq<PriceChangePercentage>)
    ensures '&' !in Join(PriceChangeTokens(ps), ListSep)
  {
    var tokens := PriceChangeTokens(ps);
    forall i | 0 <= i < |tokens|
      ensures '&' !in tokens[i]
    {
      match ps[i]
      case _ =>
    }
    JoinAvoids(tokens, ListSep, '&');
  }

  /** Joining `&`-free items with `%2C` gives `&`-free text. */
  lemma ListPlain(items: seq<string>)
    requires forall i :: 0 <= i < |items| ==> '&' !in items[i]
    ensures '&' !in Join(items, ListSep)
  {
    JoinAvoids(items, ListSep, '&');
  }

  // ---------------------------------------------------------------------------
  // Optional fields
  // ---------------------------------------------------------------------------

  /** Every field is free of `&` and none carries `key`. */
  predicate PlainWithout(fields: seq<string>, key: string)
  {
    forall j :: 0 <= j < |fields| ==> '&' !in fields[j] && !HasKey(fields[j], key)
  }

  /** A `key=` field carries `key`. */
  lemma KeyFieldHasKey(key: string, v: string)
    ensures HasKey(key + "=" + v, key)
  {
    var field := key + "=" + v;
    assert field[..|key| + 1] == key + "=";
  }

  /** Only the middle field carries `key`. */
  lemma KeyCountBetween(head: seq<string>, field: string, tail: seq<string>, key: string)
    requires HasKey(field, key)
    requires PlainWithout(head, key) && PlainWithout(tail, key)
    ensures KeyCount(head + [field] + tail, key) == 1
    ensures KeyCount(head + tail, key) == 0
  {
    KeyCountAbsent(head, key);
    KeyCountAbsent(tail, key);
    KeyCountAppend(head, tail, key);
    KeyCountAppend(head + [field], tail, key);
    KeyCountAppend(head, [field], key);
  }

  /**
   * A `key=` field placed between other fields that do not carry `key` is
   * read back in place, is the only one with that key, and taking it out
   * gives the query built without it.
   */
  lemma OptionalFieldFields(head: seq<string>, key: string, name: string, v: string, tail: seq<string>)
    requires name == key + "="
    requires |head| + |tail| >= 1
    requires '&' !in key && '&' !in v
    requires PlainWithout(head, key) && PlainWithout(tail, key)
    ensures Fields(Query(head + OptionalField(name, Some(v)) + tail)) == head + [name + v] + tail
    ensures Fields(Query(head + OptionalField(name, None) + tail)) == head + tail
    ensures KeyCount(head + [name + v] + tail, key) == 1
    ensures KeyCount(head + tail, key) == 0
  {
    var with := head + [name + v] + tail;
    var without := head + tail;
    assert head + OptionalField(name, Some(v)) + tail == with;
    assert head + OptionalField(name, None) + tail == without;
    assert forall i :: 0 <= i < |with| ==> '&' !in with[i];
    assert forall i :: 0 <= i < |without| ==> '&' !in without[i];
    QueryFields(with);
    QueryFields(without);
    KeyFieldHasKey(key, v);
    KeyCountBetween(head, name + v, tail, key);
  }

  // ---------------------------------------------------------------------------
  // coins_markets: the optional category
  // ---------------------------------------------------------------------------

  /**
   * The `category` field is there exactly when a category is given; it is
   * the third field, right after `ids` and right before `order`, and
   * dropping it gives the query built without a category.
   */
  lemma CoinsMarketsCategory(vsCurrency: string, ids: seq<string>, c: string, order: MarketsOrder,
                             perPage: I64, page: I64, sparkline: bool,
                             priceChangePercentage: seq<PriceChangePercentage>)
    requires '&' !in vsCurrency && '&' !in c
    requires forall i :: 0 <= i < |ids| ==> '&' !in ids[i]
    ensures var with := Fields(CoinsMarketsQuery(vsCurrency, ids, Some(c), order, perPage, page,
                                                  sparkline, priceChangePercentage));
            var without := Fields(CoinsMarketsQuery(vsCurrency, ids, None, order, perPage, page,
                                                     sparkline, priceChangePercentage));
            |with| == 8 && with[1] == "ids=" + Join(ids, ListSep) && with[2] == "category=" + c
            && with[3] == "order=" + MarketsOrderToken(order) && with[..2] + with[3..] == without
            && KeyCount(with, "category") == 1 && KeyCount(without, "category") == 0
  {
    ListPlain(ids);
    MarketsOrderPlain(order);
    IntTextPlain(perPage);
    IntTextPlain(page);
    BoolTextPlain(sparkline);
    PriceChangeTokensPlain(priceChangePercentage);
    CategoryFields(vsCurrency, Join(ids, ListSep), c, MarketsOrderToken(order), IntText(perPage),
                   IntText(page), BoolText(sparkline), Join(PriceChangeTokens(priceChangePercentage), ListSep));
  }

  /** `CoinsMarketsCategory` over the rendered field values. */
  lemma CategoryFields(vsCurrency: string, idsText: string, c: string, orderText: string,
                       perPageText: string, pageText: string, sparklineText: string, changeText: string)
    requires '&' !in vsCurrency && '&' !in idsText && '&' !in c
    requires '&' !in orderText && '&' !in perPageText && '&' !in pageText
    requires '&' !in sparklineText && '&' !in changeText
    ensures var head := ["vs_currency=" + vsCurrency, "ids=" + idsText];
            var tail := ["order=" + orderText, "per_page=" + perPageText, "page=" + pageText,
                         "sparkline=" + sparklineText, "price_change_percentage=" + changeText];
            var with := Fields(Query(head + OptionalField("category=", Some(c)) + tail));
            var without := Fields(Query(head + OptionalField("category=", None) + tail));
            |with| == 8 && with[1] == "ids=" + idsText && with[2] == "category=" + c
            && with[3] == "order=" + orderText && with[..2] + with[3..] == without
            && KeyCount(with, "category") == 1 && KeyCount(without, "category") == 0
  {
    var head := ["vs_currency=" + vsCurrency, "ids=" + idsText];
    var tail := ["order=" + orderText, "per_page=" + perPageText, "page=" + pageText,
                 "sparkline=" + sparklineText, "price_change_percentage=" + changeText];
    CoinsMarketsHead(vsCurrency, idsText);
    CoinsMarketsTail(orderText, perPageText, pageText, sparklineText, changeText);
    OptionalFieldFields(head, "category", "category=", c, tail);
    var with := head + ["category=" + c] + tail;
    assert with[..2] == head && with[3..] == tail;
  }

  /** The two fields before the category of `coins_markets`. */
  lemma CoinsMarketsHead(vsCurrency: string, idsText: string)
    requires '&' !in vsCurrency && '&' !in idsText
    ensures PlainWithout(["vs_currency=" + vsCurrency, "ids=" + idsText], "category")
  {
    var head := ["vs_currency=" + vsCurrency, "ids=" + idsText];
    NotKeyAt(head[0], "category", 0);
    NotKeyAt(head[1], "category", 0);
  }

  /** The five fields after the category of `coins_markets`. */
  lemma CoinsMarketsTail(orderText: string, perPageText: string, pageText: string,
                         sparklineText: string, changeText: string)
    requires '&' !in orderText && '&' !in perPageText && '&' !in pageText
    requires '&' !in sparklineText && '&' !in changeText
    ensures PlainWithout(["order=" + orderText, "per_page=" + perPageText, "page=" + pageText,
                          "sparkline=" + sparklineText, "price_change_percentage=" + changeText], "category")
  {
    var tail := ["order=" + orderText, "per_page=" + perPageText, "page=" + pageText,
             "sparkline=" + sparklineText, "price_change_percentage=" + changeText];
    NotKeyAt(tail[0], "category", 0);
    NotKeyAt(tail[1], "category", 0);
    NotKeyAt(tail[2], "category", 0);
    NotKeyAt(tail[3], "category", 0);
    NotKeyAt(tail[4], "category", 0);
  }

  // ---------------------------------------------------------------------------
  // coin_tickers and exchange_tickers: the optional id list
  // ---------------------------------------------------------------------------

  /** The four fields after the optional id list carry neither id-list key. */
  lemma TickersTail(key: string, logoText: string, pageText: string, orderText: string, depthText: string)
    requires key == "exchange_ids" || key == "coin_ids"
    requires '&' !in logoText && '&' !in pageText && '&' !in orderText && '&' !in depthText
    ensures PlainWithout(["include_exchange_logo=" + logoText, "page=" + pageText,
                          "order=" + orderText, "depth=" + depthText], key)
  {
    var tail := ["include_exchange_logo=" + logoText, "page=" + pageText,
                 "order=" + orderText, "depth=" + depthText];
    assert key[0] == 'e' || key[0] == 'c';
    forall j | 0 <= j < |tail|
      ensures '&' !in tail[j] && !HasKey(tail[j], key)
    {
      NotKeyAt(tail[j], key, 0);
    }
  }

  /**
   * The tickers query over rendered values, with and without the id-list
   * field `name` (`exchange_ids=` or `coin_ids=`, for the key `key`): the id
   * field comes first, the rest is unchanged, and the key is sent once with
   * ids and never without.
   */
  lemma TickersFields(key: string, name: string, idsText: string, logoText: string, pageText: string,
                      orderText: string, depthText: string)
    requires (key == "exchange_ids" && name == "exchange_ids=") || (key == "coin_ids" && name == "coin_ids=")
    requires '&' !in idsText && '&' !in logoText && '&' !in pageText
    requires '&' !in orderText && '&' !in depthText
    ensures var tail := ["include_exchange_logo=" + logoText, "page=" + pageText,
                         "order=" + orderText, "depth=" + depthText];
            var with := Fields(Query(OptionalField(name, Some(idsText)) + tail));
            var without := Fields(Query(OptionalField(name, None) + tail));
            with == [name + idsText] + without
            && KeyCount(with, key) == 1 && KeyCount(without, key) == 0
  {
    assert name == key + "=";
    var tail := ["include_exchange_logo=" + logoText, "page=" + pageText,
                 "order=" + orderText, "depth=" + depthText];
    TickersTail(key, logoText, pageText, orderText, depthText);
    OptionalFieldFields([], key, name, idsText, tail);
    assert [] + OptionalField(name, Some(idsText)) + tail == OptionalField(name, Some(idsText)) + tail;
    assert [] + OptionalField(name, None) + tail == OptionalField(name, None) + tail;
    assert [] + [name + idsText] + tail == [name + idsText] + tail;
    assert [] + tail == tail;
  }

  /** `coin_tickers` sends `exchange_ids` exactly when exchange ids are given, and in front. */
  lemma CoinTickersExchangeIds(exchangeIds: seq<string>, includeExchangeLogo: bool,
                               page: I64, order: TickersOrder, depth: bool)
    requires forall i :: 0 <= i < |exchangeIds| ==> '&' !in exchangeIds[i]
    ensures var with := Fields(TickersQuery("exchange_ids=", Some(exchangeIds), includeExchangeLogo, page, order, depth));
            var without := Fields(TickersQuery("exchange_ids=", None, includeExchangeLogo, page, order, depth));
            with == ["exchange_ids=" + Join(exchangeIds, ListSep)] + without
            && KeyCount(with, "exchange_ids") == 1 && KeyCount(without, "exchange_ids") == 0
  {
    ListPlain(exchangeIds);
    BoolTextPlain(includeExchangeLogo);
    IntTextPlain(page);
    TickersOrderPlain(order);
    BoolTextPlain(depth);
    TickersFields("exchange_ids", "exchange_ids=", Join(exchangeIds, ListSep), BoolText(includeExchangeLogo),
                  IntText(page), TickersOrderToken(order), BoolText(depth));
  }

  /** `exchange_tickers` sends `coin_ids` exactly when coin ids are given, and in front. */
  lemma ExchangeTickersCoinIds(coinIds: seq<string>, includeExchangeLogo: bool,
                               page: I64, order: TickersOrder, depth: bool)
    requires forall i :: 0 <= i < |coinIds| ==> '&' !in coinIds[i]
    ensures var with := Fields(TickersQuery("coin_ids=", Some(coinIds), includeExchangeLogo, page, order, depth));
            var without := Fields(TickersQuery("coin_ids=", None, includeExchangeLogo, page, order, depth));
            with == ["coin_ids=" + Join(coinIds, ListSep)] + without
            && KeyCount(with, "coin_ids") == 1 && KeyCount(without, "coin_ids") == 0
  {
    ListPlain(coinIds);
    BoolTextPlain(includeExchangeLogo);
    IntTextPlain(page);
    TickersOrderPlain(order);
    BoolTextPlain(depth);
    TickersFields("coin_ids", "coin_ids=", Join(coinIds, ListSep), BoolText(includeExchangeLogo),
                  IntText(page), TickersOrderToken(order), BoolText(depth));
  }

  // ---------------------------------------------------------------------------
  // price and token_price: list separators and the leading fields
  // ---------------------------------------------------------------------------

  /** A query of at least three fields begins with its first two fields. */
  lemma LeadingPair(k1: string, v1: string, k2: string, v2: string, rest: seq<string>)
    requires |rest| >= 1
    ensures "?" + k1 + v1 + "&" + k2 <= Query([k1 + v1, k2 + v2] + rest)
  {
    var pair := [k1 + v1, k2 + v2];
    assert pair[..1] == [k1 + v1];
    assert Query(pair) == "?" + (k1 + v1) + "&" + (k2 + v2);
    QueryPrefix(pair, rest);
    var p := "?" + (k1 + v1) + "&";
    Assoc(p, k2, v2);
    Assoc(p + k2, v2, "&");
    Assoc("?", k1, v1);
    PrefixOfAppend(p + k2, v2 + "&");
    PrefixTransitive(p + k2, Query(pair) + "&", Query(pair + rest));
  }

  lemma Assoc(a: string, b: string, c: string)
    ensures a + (b + c) == a + b + c
  {
  }

  lemma PrefixOfAppend(a: string, b: string)
    ensures a <= a + b
  {
    assert (a + b)[..|a|] == a;
  }

  lemma PrefixTransitive(a: string, b: string, c: string)
    requires a <= b && b <= c
    ensures a <= c
  {
    assert c[..|b|] == b;
    assert c[..|a|] == b[..|a|];
  }

  /**
   * `price` (items named `ids=`) and `token_price` (items named
   * `contract_addresses=`) start their query with the joined items and then
   * the currencies; `n` items without `%2C` in them are joined with exactly
   * `n - 1` separators.
   */
  lemma PriceLists(itemsName: string, items: seq<string>, vsCurrencies: seq<string>,
                   includeMarketCap: bool, include24hrVol: bool, include24hrChange: bool,
                   includeLastUpdatedAt: bool)
    requires |items| >= 1 && forall i :: 0 <= i < |items| ==> SepCount(items[i]) == 0
    ensures "?" + itemsName + Join(items, ListSep) + "&vs_currencies="
            <= PriceQuery(itemsName, items, vsCurrencies, includeMarketCap, include24hrVol,
                          include24hrChange, includeLastUpdatedAt)
    ensures SepCount(Join(items, ListSep)) == |items| - 1
  {
    JoinSepCount(items);
    CurrenciesSecond(itemsName, Join(items, ListSep), Join(vsCurrencies, ListSep),
                     "include_market_cap=" + BoolText(includeMarketCap),
                     "include_24hr_vol=" + BoolText(include24hrVol),
                     "include_24hr_change=" + BoolText(include24hrChange),
                     "include_last_updated_at=" + BoolText(includeLastUpdatedAt));
  }

  /** The currencies field comes second. */
  lemma CurrenciesSecond(itemsName: string, itemsText: string, vsText: string,
                         f3: string, f4: string, f5: string, f6: string)
    ensures "?" + itemsName + itemsText + "&vs_currencies="
            <= Query([itemsName + itemsText, "vs_currencies=" + vsText, f3, f4, f5, f6])
  {
    var pair := [itemsName + itemsText, "vs_currencies=" + vsText];
    assert pair + [f3, f4, f5, f6] == [itemsName + itemsText, "vs_currencies=" + vsText, f3, f4, f5, f6];
    LeadingPair(itemsName, itemsText, "vs_currencies=", vsText, [f3, f4, f5, f6]);
    var front := "?" + itemsName + itemsText;
    assert front + "&" + "vs_currencies=" == front + "&vs_currencies=";
  }

  // ---------------------------------------------------------------------------
  // coin_market_chart: the inverted interval flag
  // ---------------------------------------------------------------------------

  /**
   * With `useDailyInterval` true the query is exactly currency and days; with
   * it false the same query gets `&interval=daily` appended.
   */
  lemma CoinMarketChartInterval(id: string, vsCurrency: string, days: I64)
    ensures CoinMarketChart(id, vsCurrency, days, true).params
            == Some("?vs_currency=" + vsCurrency + "&days=" + IntText(days))
    ensures CoinMarketChart(id, vsCurrency, days, false).params
            == Some(CoinMarketChart(id, vsCurrency, days, true).params.value + "&interval=daily")
  {
    var pair := ["vs_currency=" + vsCurrency, "days=" + IntText(days)];
    Format2("?vs_currency=", "vs_currency=", vsCurrency, "&days=", "days=", IntText(days));
    assert pair + [] == pair;
    QuerySnoc(pair, "interval=daily");
    var q := Query(pair);
    assert q + "&" + "interval=daily" == q + "&interval=daily";
  }

  // ---------------------------------------------------------------------------
  // derivatives: the default inclusion mode
  // ---------------------------------------------------------------------------

  /**
   * No inclusion mode means `unexpired`, the same request as asking for
   * `Unexpired`; only `All` gives `all`; both derivatives endpoints send the
   * same query for the same mode.
   */
  lemma IncludeTickersDefault(id: string, includeTickers: Option<DerivativesIncludeTickers>)
    ensures Derivatives(None) == Derivatives(Some(Unexpired))
    ensures DerivativesExchange(id, None) == DerivativesExchange(id, Some(Unexpired))
    ensures Derivatives(None).params == Some("?include_tickers=unexpired")
    ensures Derivatives(Some(All)).params == Some("?include_tickers=all")
    ensures Derivatives(includeTickers).params == DerivativesExchange(id, includeTickers).params
  {
    assert Query(["include_tickers=" + "unexpired"]) == "?include_tickers=unexpired";
    assert Query(["include_tickers=" + "all"]) == "?include_tickers=all";
  }

  // ---------------------------------------------------------------------------
  // status_updates: bare page numbers
  // ---------------------------------------------------------------------------

  /** An optional field whose name differs from `key` at position `j` never carries `key`. */
  lemma OptionalFieldWithout(name: string, value: Option<string>, key: string, j: int)
    requires 0 <= j < |key| && j < |name| && name[j] != key[j]
    ensures KeyCount(OptionalField(name, value), key) == 0
  {
    if value.Some? {
      var field := name + value.value;
      assert field[j] == name[j];
      NotKeyAt(field, key, j);
      KeyCountAbsent([field], key);
    }
  }

  /**
   * `status_updates` sends the present filters and then the page size and
   * page number as bare numbers: the last two fields read back as those
   * numbers, and no field is named `per_page` or `page`.
   */
  lemma StatusUpdatesFields(category: Option<string>, projectType: Option<string>, perPage: I64, page: I64)
    requires category.Some? ==> '&' !in category.value
    requires projectType.Some? ==> '&' !in projectType.value
    ensures var fs := Fields(StatusUpdatesQuery(category, projectType, perPage, page));
            fs == OptionalField("category=", category) + OptionalField("project_type=", projectType)
                  + [IntText(perPage), IntText(page)]
            && IntOf(fs[|fs| - 2]) == Some(perPage) && IntOf(fs[|fs| - 1]) == Some(page)
            && KeyCount(fs, "per_page") == 0 && KeyCount(fs, "page") == 0
  {
    var filters := OptionalField("category=", category) + OptionalField("project_type=", projectType);
    IntTextPlain(perPage);
    IntTextPlain(page);
    StatusFiltersPlain(category, projectType);
    BareNumbersFields(filters, IntText(perPage), IntText(page));
    StatusFiltersWithout(category, projectType, "per_page");
    StatusFiltersWithout(category, projectType, "page");
  }

  /** The status filters hold no `&` when the caller's strings hold none. */
  lemma StatusFiltersPlain(category: Option<string>, projectType: Option<string>)
    requires category.Some? ==> '&' !in category.value
    requires projectType.Some? ==> '&' !in projectType.value
    ensures var filters := OptionalField("category=", category) + OptionalField("project_type=", projectType);
            forall i :: 0 <= i < |filters| ==> '&' !in filters[i]
  {
  }

  /** Neither status filter carries the `per_page` or the `page` key. */
  lemma StatusFiltersWithout(category: Option<string>, projectType: Option<string>, key: string)
    requires key == "per_page" || key == "page"
    ensures KeyCount(OptionalField("category=", category) + OptionalField("project_type=", projectType), key) == 0
  {
    assert key[0] == 'p' && key[1] != 'r';
    OptionalFieldWithout("category=", category, key, 0);
    OptionalFieldWithout("project_type=", projectType, key, 1);
    KeyCountAppend(OptionalField("category=", category), OptionalField("project_type=", projectType), key);
  }

  /**
   * Two fields without `&` and `=` after some filters: all are read back, and
   * the two carry no key, so the count of any key is that of the filters.
   */
  lemma BareNumbersFields(filters: seq<string>, n1: string, n2: string)
    requires forall i :: 0 <= i < |filters| ==> '&' !in filters[i]
    requires '&' !in n1 && '&' !in n2 && '=' !in n1 && '=' !in n2
    ensures Fields(Query(filters + [n1, n2])) == filters + [n1, n2]
    ensures forall key :: KeyCount(filters + [n1, n2], key) == KeyCount(filters, key)
  {
    var fs := filters + [n1, n2];
    assert forall i :: 0 <= i < |fs| ==> '&' !in fs[i];
    QueryFields(fs);
    forall key
      ensures KeyCount(fs, key) == KeyCount(filters, key)
    {
      NotKeyWithoutEq(n1, key);
      NotKeyWithoutEq(n2, key);
      KeyCountAbsent([n1, n2], key);
      KeyCountAppend(filters, [n1, n2], key);
    }
  }

  // ---------------------------------------------------------------------------
  // events: the joined filters as the first field
  // ---------------------------------------------------------------------------

  /** Without filters, `events` begins its query with `?&page=`: an empty first field. */
  lemma EventsWithoutFilters(page: I64, upcomingEventsOnly: bool, fromDate: CalendarDate, toDate: CalendarDate)
    ensures EventsQuery(None, None, page, upcomingEventsOnly, fromDate, toDate)
            == "?&page=" + IntText(page) + "&upcoming_events_only=" + BoolText(upcomingEventsOnly)
               + "&from_date=" + FormatYmd(fromDate) + "&to_date=" + FormatYmd(toDate)
    ensures Fields(EventsQuery(None, None, page, upcomingEventsOnly, fromDate, toDate))[0] == ""
  {
    assert EventFilters(None, None) == [];
    assert Join([], "&") == "";
    EmptyFirstField(IntText(page), BoolText(upcomingEventsOnly), FormatYmd(fromDate), FormatYmd(toDate));
    EventsFields(None, None, page, upcomingEventsOnly, fromDate, toDate);
  }

  /** The `events` format string with no filter reads as a query whose first field is empty. */
  lemma EmptyFirstField(pageText: string, upcomingText: string, fromText: string, toText: string)
    ensures "?&page=" + pageText + "&upcoming_events_only=" + upcomingText
              + "&from_date=" + fromText + "&to_date=" + toText
         == Query(["", "page=" + pageText, "upcoming_events_only=" + upcomingText,
                   "from_date=" + fromText, "to_date=" + toText])
  {
    EventsFormat("", pageText, upcomingText, fromText, toText);
    assert "?" + "" == "?";
    assert "?" + "&page=" == "?&page=";
  }

  /**
   * The fields of `events` are the present filters followed by page, flag
   * and the two dates; with no filter the first field is empty.
   */
  lemma EventsFields(countryCode: Option<string>, eventType: Option<string>, page: I64,
                     upcomingEventsOnly: bool, fromDate: CalendarDate, toDate: CalendarDate)
    requires countryCode.Some? ==> '&' !in countryCode.value
    requires eventType.Some? ==> '&' !in eventType.value
    ensures var filters := EventFilters(countryCode, eventType);
            var rest := ["page=" + IntText(page), "upcoming_events_only=" + BoolText(upcomingEventsOnly),
                         "from_date=" + FormatYmd(fromDate), "to_date=" + FormatYmd(toDate)];
            Fields(EventsQuery(countryCode, eventType, page, upcomingEventsOnly, fromDate, toDate))
            == (if filters == [] then [""] else filters) + rest
  {
    IntTextPlain(page);
    BoolTextPlain(upcomingEventsOnly);
    DateTextPlain(fromDate);
    DateTextPlain(toDate);
    EventFiltersPlain(countryCode, eventType);
    JoinedFirstField(EventFilters(countryCode, eventType),
                     "page=" + IntText(page), "upcoming_events_only=" + BoolText(upcomingEventsOnly),
                     "from_date=" + FormatYmd(fromDate), "to_date=" + FormatYmd(toDate));
  }

  /** The event filters hold no `&` when the caller's strings hold none. */
  lemma EventFiltersPlain(countryCode: Option<string>, eventType: Option<string>)
    requires countryCode.Some? ==> '&' !in countryCode.value
    requires eventType.Some? ==> '&' !in eventType.value
    ensures var filters := EventFilters(countryCode, eventType);
            forall i :: 0 <= i < |filters| ==> '&' !in filters[i]
  {
  }

  /**
   * A first field that is some `&`-free fields joined with `&` reads back as
   * those fields, or as one empty field when there are none.
   */
  lemma JoinedFirstField(filters: seq<string>, r1: string, r2: string, r3: string, r4: string)
    requires forall i :: 0 <= i < |filters| ==> '&' !in filters[i]
    requires '&' !in r1 && '&' !in r2 && '&' !in r3 && '&' !in r4
    ensures Fields(Query([Join(filters, "&"), r1, r2, r3, r4]))
            == (if filters == [] then [""] else filters) + [r1, r2, r3, r4]
  {
    FourPlain(r1, r2, r3, r4);
    FirstOfFive(Join(filters, "&"), r1, r2, r3, r4);
    JoinedFirst(filters, [r1, r2, r3, r4]);
  }

  lemma FourPlain(r1: string, r2: string, r3: string, r4: string)
    requires '&' !in r1 && '&' !in r2 && '&' !in r3 && '&' !in r4
    ensures forall i :: 0 <= i < |[r1, r2, r3, r4]| ==> '&' !in [r1, r2, r3, r4][i]
  {
  }

  lemma FirstOfFive(first: string, r1: string, r2: string, r3: string, r4: string)
    ensures [first, r1, r2, r3, r4] == [first] + [r1, r2, r3, r4]
  {
  }

  /** `JoinedFirstField` for any non-empty run of fields after the joined one. */
  lemma JoinedFirst(filters: seq<string>, rest: seq<string>)
    requires |rest| >= 1
    requires forall i :: 0 <= i < |filters| ==> '&' !in filters[i]
    requires forall i :: 0 <= i < |rest| ==> '&' !in rest[i]
    ensures Fields(Query([Join(filters, "&")] + rest)) == (if filters == [] then [""] else filters) + rest
  {
    var first := Join(filters, "&");
    var fields := (if filters == [] then [""] else filters) + rest;
    assert Query([first] + rest) == Query(fields) by {
      if filters == [] {
        assert [first] + rest == fields;
      } else {
        QueryJoin([first] + rest);
        JoinCons(first, rest, "&");
        JoinAppend(filters, rest, "&");
        QueryJoin(fields);
      }
    }
    assert forall i :: 0 <= i < |fields| ==> '&' !in fields[i] by {
      forall i | 0 <= i < |fields|
        ensures '&' !in fields[i]
      {
        if i >= |fields| - |rest| {
          assert fields[i] == rest[i - (|fields| - |rest|)];
        }
      }
    }
    QueryFields(fields);
  }

  // ---------------------------------------------------------------------------
  // Enum tables and plain paths
  // ---------------------------------------------------------------------------

  /** Every enum table gives distinct variants distinct tokens. */
  lemma TokenTablesInjective()
    ensures forall a, b :: MarketsOrderToken(a) == MarketsOrderToken(b) ==> a == b
    ensures forall a, b :: PriceChangePercentageToken(a) == PriceChangePercentageToken(b) ==> a == b
    ensures forall a, b :: TickersOrderToken(a) == TickersOrderToken(b) ==> a == b
    ensures forall a, b :: OhlcDaysCount(a) == OhlcDaysCount(b) ==> a == b
    ensures forall a, b :: DerivativeExchangeOrderToken(a) == DerivativeExchangeOrderToken(b) ==> a == b
    ensures forall a, b :: CompaniesPath(a) == CompaniesPath(b) ==> a == b
  {
  }

  /** The OHLC day counts are exactly 1, 7, 14, 30, 90, 180 and 365. */
  lemma OhlcDaysOnto(n: int)
    ensures n in OhlcDayCounts <==> exists d :: OhlcDaysCount(d) == n
  {
    if n in OhlcDayCounts {
      var d := OhlcDaysOf(n).value;
      assert OhlcDaysCount(d) == n;
    }
  }

  /** Plain endpoints request distinct paths, except `event_countries`, which shares `event_types`'s. */
  lemma PlainPathsDistinct(a: PlainEndpoint, b: PlainEndpoint)
    ensures PlainPath(a) == PlainPath(b)
            <==> a == b || (a in {EventCountries, EventTypes} && b in {EventCountries, EventTypes})
  {
    if PlainPath(a) == PlainPath(b) {
      assert PlainEndpointOf(PlainPath(a)) == PlainEndpointOf(PlainPath(b));
    }
  }

  // ---------------------------------------------------------------------------
  // Paths with caller segments
  // ---------------------------------------------------------------------------

  /** A path of three segments without `/` splits back into them. */
  lemma Segments3(a: string, b: string, c: string)
    requires '/' !in a && '/' !in b && '/' !in c
    ensures Split(a + "/" + b + "/" + c, '/') == [a, b, c]
  {
    SplitSnoc(a + "/" + b, c, '/');
    SplitSnoc(a, b, '/');
    SplitNoDelim(a, '/');
  }

  /** A path of four segments without `/` splits back into them. */
  lemma Segments4(a: string, b: string, c: string, d: string)
    requires '/' !in a && '/' !in b && '/' !in c && '/' !in d
    ensures Split(a + "/" + b + "/" + c + "/" + d, '/') == [a, b, c, d]
  {
    SplitSnoc(a + "/" + b + "/" + c, d, '/');
    Segments3(a, b, c);
  }

  /** A path of five segments without `/` splits back into them. */
  lemma Segments5(a: string, b: string, c: string, d: string, e: string)
    requires '/' !in a && '/' !in b && '/' !in c && '/' !in d && '/' !in e
    ensures Split(a + "/" + b + "/" + c + "/" + d + "/" + e, '/') == [a, b, c, d, e]
  {
    SplitSnoc(a + "/" + b + "/" + c + "/" + d, e, '/');
    Segments4(a, b, c, d);
  }

  /** `contract`: the path splits back into its segments when the caller's hold no `/`. */
  lemma ContractSegments(id: string, contractAddress: string)
    requires '/' !in id && '/' !in contractAddress
    ensures Split(Contract(id, contractAddress).endpoint, '/') == ["", "coins", id, "contract", contractAddress]
  {
    assert Contract(id, contractAddress).endpoint
        == "" + "/" + "coins" + "/" + id + "/" + "contract" + "/" + contractAddress;
    Segments5("", "coins", id, "contract", contractAddress);
  }

  /** A path ending in `/market_chart/` has the segments of its front, then `market_chart` and an empty one. */
  lemma MarketChartTail(front: string, path: string)
    requires path == front + "/market_chart/"
    ensures Split(path, '/') == Split(front, '/') + ["market_chart", ""]
  {
    assert path == front + "/" + "market_chart" + "/" + "";
    SplitSnoc(front + "/" + "market_chart", "", '/');
    SplitSnoc(front, "market_chart", '/');
  }

  /**
   * `contract_market_chart`: the trailing `/` of the path leaves an empty
   * last segment.
   */
  lemma ContractMarketChartSegments(id: string, contractAddress: string, vsCurrency: string, days: I64)
    requires '/' !in id && '/' !in contractAddress
    ensures Split(ContractMarketChart(id, contractAddress, vsCurrency, days).endpoint, '/')
            == ["", "coins", id, "contract", contractAddress, "market_chart", ""]
  {
    ContractSegments(id, contractAddress);
    MarketChartTail(Contract(id, contractAddress).endpoint, ContractMarketChart(id, contractAddress, vsCurrency, days).endpoint);
  }

  /** `exchange`: the path splits back into its segments when the id holds no `/`. */
  lemma ExchangeSegments(id: string)
    requires '/' !in id
    ensures Split(Exchange(id).endpoint, '/') == ["", "exchanges", id]
  {
    assert Exchange(id).endpoint == "" + "/" + "exchanges" + "/" + id;
    Segments3("", "exchanges", id);
  }

  /** `indexes_market_id`: the path splits back into its segments when the caller's hold no `/`. */
  lemma IndexesMarketIdSegments(marketId: string, id: string)
    requires '/' !in marketId && '/' !in id
    ensures Split(IndexesMarketId(marketId, id).endpoint, '/') == ["", "indexes", marketId, id]
  {
    assert IndexesMarketId(marketId, id).endpoint == "" + "/" + "indexes" + "/" + marketId + "/" + id;
    Segments4("", "indexes", marketId, id);
  }

  // ---------------------------------------------------------------------------
  // URLs
  // ---------------------------------------------------------------------------

  /**
   * With a key, the URL of any built query carries the caller's fields in
   * order and then the key field, one more key field than the query held.
   */
  lemma BuiltUrlWithKey(host: string, key: string, endpoint: string, fields: seq<string>)
    requires '&' !in key && |fields| >= 1
    requires forall i :: 0 <= i < |fields| ==> '&' !in fields[i]
    ensures var c := NewWithKey(host, key);
            var url := Url(c, Request(endpoint, Some(Query(fields))));
            url == host + endpoint + Query(fields) + "&x_cg_pro_api_key=" + key
            && url[..|host| + |endpoint|] == host + endpoint
            && Fields(url[|host| + |endpoint|..]) == fields + [KeyField(key)]
            && KeyCount(Fields(url[|host| + |endpoint|..]), KeyName) == KeyCount(fields, KeyName) + 1
  {
    var c := NewWithKey(host, key);
    QueryFields(fields);
    GetUrlAppendsKey(c, endpoint, Query(fields));
    var q := Query(fields);
    assert q + "&" + KeyField(key) == q + "&x_cg_pro_api_key=" + key;
  }

  /** `ping` on a client with key `abc`. */
  lemma PingWithKey(host: string)
    ensures Url(NewWithKey(host, "abc"), PlainRequest(Ping)) == host + "/ping?x_cg_pro_api_key=abc"
  {
    assert host + "/ping" + "?x_cg_pro_api_key=" + "abc" == host + "/ping?x_cg_pro_api_key=abc";
  }

  /** `ping` on a client without a key has no query at all. */
  lemma PingWithoutKey(host: string)
    ensures Url(New(host), PlainRequest(Ping)) == host + "/ping"
  {
  }

  /** `coin_ohlc` over seven days sends `days=7`. */
  lemma OhlcSevenDays(id: string, vsCurrency: string)
    ensures CoinOhlc(id, vsCurrency, OhlcDays.SevenDays).params == Some("?vs_currency=" + vsCurrency + "&days=7")
  {
    assert IntText(7) == "7";
    Format2("?vs_currency=", "vs_currency=", vsCurrency, "&days=", "days=", "7");
    var front := "?vs_currency=" + vsCurrency;
    assert front + "&days=" + "7" == front + "&days=7";
  }

  /**
   * `price` for bitcoin in US dollars with only the market cap, on a client
   * without a key: the URL holds exactly these six fields, in this order.
   */
  lemma PriceScenario(host: string)
    ensures Url(New(host), Price(["bitcoin"], ["usd"], true, false, false, false))
            == host + "/simple/price" + Query(["ids=bitcoin", "vs_currencies=usd", "include_market_cap=true",
                                               "include_24hr_vol=false", "include_24hr_change=false",
                                               "include_last_updated_at=false"])
  {
    assert Join(["bitcoin"], ListSep) == "bitcoin";
    assert Join(["usd"], ListSep) == "usd";
    assert "ids=" + "bitcoin" == "ids=bitcoin";
    assert "vs_currencies=" + "usd" == "vs_currencies=usd";
    assert "include_market_cap=" + "true" == "include_market_cap=true";
    assert "include_24hr_vol=" + "false" == "include_24hr_vol=false";
    assert "include_24hr_change=" + "false" == "include_24hr_change=false";
    assert "include_last_updated_at=" + "false" == "include_last_updated_at=false";
  }
}
