/**
 * The client configuration and the URL builder of `src/client.rs`, with the
 * representation of a built request. A query string is read back into its
 * `&`-separated fields (`Fields`), which is how the remote service sees it;
 * the lemmas here say what the URL builder does to those fields.
 */
module CoinGecko {
  import opened Wrappers
  import opened Text

  /** The public production host that `Default` uses. */
  const DefaultHost: string := "https://api.coingecko.com/api/v3"

  /** Name of the query parameter that carries the API key. */
  const KeyName: string := "x_cg_pro_api_key"

  /** `CoinGeckoClient`: a host and an optional API key, immutable once built. */
  datatype Client = Client(host: string, apiKey: Option<string>)

  /** What an endpoint method hands to the HTTP helper: a path and an optional query string. */
  datatype Request = Request(endpoint: string, params: Option<string>)

  /** `CoinGeckoClient::new`: no validation of the host, no key. */
  function New(host: string): (c: Client)
    ensures c.host == host && c.apiKey == None
  {
    Client(host, None)
  }

  /** `CoinGeckoClient::new_with_key`: the key is stored as given. */
  function NewWithKey(host: string, key: string): (c: Client)
    ensures c.host == host && c.apiKey == Some(key)
  {
    Client(host, Some(key))
  }

  /** `Default::default`: the production host and no key. */
  function Default(): (c: Client)
    ensures c == New(DefaultHost)
  {
    New("https://api.coingecko.com/api/v3")
  }

  /** The field that carries the key. */
  function KeyField(key: string): string
  {
    KeyName + "=" + key
  }

  /** The query segment `get_url` computes from the caller's params and the client's key. */
  function QuerySegment(params: Option<string>, apiKey: Option<string>): string
  {
    match (params, apiKey)
    case (Some(p), Some(k)) => p + "&x_cg_pro_api_key=" + k
    case (Some(p), None) => p
    case (None, Some(k)) => "?x_cg_pro_api_key=" + k
    case (None, None) => ""
  }

  /** `get_url`: host, endpoint and query segment, concatenated with nothing normalised. */
  function GetUrl(c: Client, endpoint: string, params: Option<string>): (url: string)
    ensures |url| >= |c.host| + |endpoint| && url[..|c.host| + |endpoint|] == c.host + endpoint
    ensures url[|c.host| + |endpoint|..] == QuerySegment(params, c.apiKey)
  {
    var url := c.host + endpoint + QuerySegment(params, c.apiKey);
    assert url[..|c.host| + |endpoint|] == c.host + endpoint;
    url
  }

  /** The URL a request resolves to for a client. */
  function Url(c: Client, r: Request): string
  {
    GetUrl(c, r.endpoint, r.params)
  }

  /** The query string `?f1&f2&...&fn` of the given fields, built left to right as `format!` does. */
  function Query(fields: seq<string>): (q: string)
    ensures |q| >= 1 && q[0] == '?'
  {
    if |fields| == 0 then "?"
    else if |fields| == 1 then "?" + fields[0]
    else Query(fields[..|fields| - 1]) + "&" + fields[|fields| - 1]
  }

  /** The `&`-separated fields of a query string that starts with `?`; none otherwise. */
  function Fields(q: string): seq<string>
  {
    if |q| >= 1 && q[0] == '?' then Split(q[1..], '&') else []
  }

  /** The field is `key=...`. */
  predicate HasKey(field: string, key: string)
  {
    |field| > |key| && field[..|key| + 1] == key + "="
  }

  /** How many fields carry `key`. */
  function KeyCount(fields: seq<string>, key: string): nat
  {
    if |fields| == 0 then 0
    else (if HasKey(fields[0], key) then 1 else 0) + KeyCount(fields[1..], key)
  }

  /** The field `name` + value (`name` is `key=`), or no field when the value is absent. */
  function OptionalField(name: string, value: Option<string>): seq<string>
  {
    match value
    case Some(v) => [name + v]
    case None => []
  }

  lemma {:induction false} KeyCountAppend(a: seq<string>, b: seq<string>, key: string)
    ensures KeyCount(a + b, key) == KeyCount(a, key) + KeyCount(b, key)
  {
    if |a| > 0 {
      KeyCountAppend(a[1..], b, key);
      assert (a + b)[1..] == a[1..] + b;
    } else {
      assert a + b == b;
    }
  }

  lemma QuerySnoc(fields: seq<string>, x: string)
    requires |fields| > 0
    ensures Query(fields + [x]) == Query(fields) + "&" + x
  {
    assert (fields + [x])[..|fields|] == fields;
  }

  /** The query of some fields is `?` followed by their `&`-join (Rust's `format!("?{}", v.join("&"))`). */
  lemma {:induction false} QueryJoin(fields: seq<string>)
    ensures Query(fields) == "?" + Join(fields, "&")
  {
    if |fields| > 1 {
      var init, last := fields[..|fields| - 1], fields[|fields| - 1];
      QueryJoin(init);
      JoinSnoc(init, last, "&");
      assert init + [last] == fields;
    }
  }

  /** Round trip: the fields of a query built from `&`-free fields are those fields. */
  lemma {:induction false} QueryFields(fields: seq<string>)
    requires |fields| >= 1
    requires forall i :: 0 <= i < |fields| ==> '&' !in fields[i]
    ensures Fields(Query(fields)) == fields
  {
    if |fields| == 1 {
      assert Query(fields)[1..] == fields[0];
      SplitNoDelim(fields[0], '&');
    } else {
      var init, last := fields[..|fields| - 1], fields[|fields| - 1];
      QueryFields(init);
      var q := Query(init);
      assert Query(fields)[1..] == q[1..] + ['&'] + last;
      SplitAppend(q[1..], last, '&');
      SplitNoDelim(last, '&');
      assert init + [last] == fields;
    }
  }

  /** `l` is a literal piece of a format string: the separator `c` followed by the key `k`. */
  predicate Piece(l: string, c: char, k: string)
  {
    |l| >= 1 && l[0] == c && l[1..] == k
  }

  lemma PieceSplit(l: string, c: char, k: string)
    requires Piece(l, c, k)
    ensures l == [c] + k
  {
    assert l == [l[0]] + l[1..];
  }

  /** A `format!` string of literal `key=` prefixes and values is the query of the `key=value` fields. */
  lemma Format1(l1: string, k1: string, v1: string)
    requires Piece(l1, '?', k1)
    ensures l1 + v1 == Query([k1 + v1])
  {
    PieceSplit(l1, '?', k1);
  }

  lemma Format2(l1: string, k1: string, v1: string, l2: string, k2: string, v2: string)
    requires Piece(l1, '?', k1)
    requires Piece(l2, '&', k2)
    ensures l1 + v1 + l2 + v2
            == Query([k1 + v1, k2 + v2])
  {
    Format1(l1, k1, v1);
    Append1(l1 + v1, [k1 + v1], l2, k2, v2);
    Lead2(k1 + v1, k2 + v2);
  }

  lemma Format3(l1: string, k1: string, v1: string, l2: string, k2: string, v2: string, l3: string,
                k3: string, v3: string)
    requires Piece(l1, '?', k1)
    requires Piece(l2, '&', k2)
    requires Piece(l3, '&', k3)
    ensures l1 + v1 + l2 + v2 + l3 + v3
            == Query([k1 + v1, k2 + v2, k3 + v3])
  {
    Format1(l1, k1, v1);
    Append2(l1 + v1, [k1 + v1], l2, k2, v2, l3, k3, v3);
    Lead3(k1 + v1, k2 + v2, k3 + v3);
  }

  lemma Format4(l1: string, k1: string, v1: string, l2: string, k2: string, v2: string, l3: string,
                k3: string, v3: string, l4: string, k4: string, v4: string)
    requires Piece(l1, '?', k1)
    requires Piece(l2, '&', k2)
    requires Piece(l3, '&', k3)
    requires Piece(l4, '&', k4)
    ensures l1 + v1 + l2 + v2 + l3 + v3 + l4 + v4
            == Query([k1 + v1, k2 + v2, k3 + v3, k4 + v4])
  {
    Format1(l1, k1, v1);
    Append3(l1 + v1, [k1 + v1], l2, k2, v2, l3, k3, v3, l4, k4, v4);
    Lead4(k1 + v1, k2 + v2, k3 + v3, k4 + v4);
  }

  lemma Format5(l1: string, k1: string, v1: string, l2: string, k2: string, v2: string, l3: string,
                k3: string, v3: string, l4: string, k4: string, v4: string, l5: string, k5: string,
                v5: string)
    requires Piece(l1, '?', k1)
    requires Piece(l2, '&', k2)
    requires Piece(l3, '&', k3)
    requires Piece(l4, '&', k4)
    requires Piece(l5, '&', k5)
    ensures l1 + v1 + l2 + v2 + l3 + v3 + l4 + v4 + l5 + v5
            == Query([k1 + v1, k2 + v2, k3 + v3, k4 + v4, k5 + v5])
  {
    Format1(l1, k1, v1);
    Append4(l1 + v1, [k1 + v1], l2, k2, v2, l3, k3, v3, l4, k4, v4, l5, k5, v5);
    Lead5(k1 + v1, k2 + v2, k3 + v3, k4 + v4, k5 + v5);
  }

  lemma Format6(l1: string, k1: string, v1: string, l2: string, k2: string, v2: string, l3: string,
                k3: string, v3: string, l4: string, k4: string, v4: string, l5: string, k5: string,
                v5: string, l6: string, k6: string, v6: string)
    requires Piece(l1, '?', k1)
    requires Piece(l2, '&', k2)
    requires Piece(l3, '&', k3)
    requires Piece(l4, '&', k4)
    requires Piece(l5, '&', k5)
    requires Piece(l6, '&', k6)
    ensures l1 + v1 + l2 + v2 + l3 + v3 + l4 + v4 + l5 + v5 + l6 + v6
            == Query([k1 + v1, k2 + v2, k3 + v3, k4 + v4, k5 + v5, k6 + v6])
  {
    Format1(l1, k1, v1);
    Append5(l1 + v1, [k1 + v1], l2, k2, v2, l3, k3, v3, l4, k4, v4, l5, k5, v5, l6, k6, v6);
    Lead6(k1 + v1, k2 + v2, k3 + v3, k4 + v4, k5 + v5, k6 + v6);
  }

  /** Formatting further `&key=value` pieces after a query appends their fields to it. */
  lemma Append1(front: string, init: seq<string>, l1: string, k1: string, v1: string)
    requires |init| >= 1 && front == Query(init)
    requires Piece(l1, '&', k1)
    ensures front + l1 + v1 == Query(init + [k1 + v1])
  {
    PieceSplit(l1, '&', k1);
    QuerySnoc(init, k1 + v1);
    Regroup(front, "&", k1, v1);
  }

  /** Regrouping a concatenation of four strings. */
  lemma Regroup(a: string, b: string, c: string, d: string)
    ensures a + (b + c) + d == a + b + (c + d)
  {
  }

  lemma Append2(front: string, init: seq<string>, l1: string, k1: string, v1: string, l2: string,
                k2: string, v2: string)
    requires |init| >= 1 && front == Query(init)
    requires Piece(l1, '&', k1)
    requires Piece(l2, '&', k2)
    ensures front + l1 + v1 + l2 + v2
            == Query(init + [k1 + v1, k2 + v2])
  {
    Append1(front, init, l1, k1, v1);
    Append1(front + l1 + v1, init + [k1 + v1], l2, k2, v2);
    Regroup2(init, k1 + v1, k2 + v2);
  }

  lemma Append3(front: string, init: seq<string>, l1: string, k1: string, v1: string, l2: string,
                k2: string, v2: string, l3: string, k3: string, v3: string)
    requires |init| >= 1 && front == Query(init)
    requires Piece(l1, '&', k1)
    requires Piece(l2, '&', k2)
    requires Piece(l3, '&', k3)
    ensures front + l1 + v1 + l2 + v2 + l3 + v3
            == Query(init + [k1 + v1, k2 + v2, k3 + v3])
  {
    Append1(front, init, l1, k1, v1);
    Append2(front + l1 + v1, init + [k1 + v1], l2, k2, v2, l3, k3, v3);
    Regroup3(init, k1 + v1, k2 + v2, k3 + v3);
  }

  lemma Append4(front: string, init: seq<string>, l1: string, k1: string, v1: string, l2: string,
                k2: string, v2: string, l3: string, k3: string, v3: string, l4: string, k4: string,
                v4: string)
    requires |init| >= 1 && front == Query(init)
    requires Piece(l1, '&', k1)
    requires Piece(l2, '&', k2)
    requires Piece(l3, '&', k3)
    requires Piece(l4, '&', k4)
    ensures front + l1 + v1 + l2 + v2 + l3 + v3 + l4 + v4
            == Query(init + [k1 + v1, k2 + v2, k3 + v3, k4 + v4])
  {
    Append1(front, init, l1, k1, v1);
    Append3(front + l1 + v1, init + [k1 + v1], l2, k2, v2, l3, k3, v3, l4, k4, v4);
    Regroup4(init, k1 + v1, k2 + v2, k3 + v3, k4 + v4);
  }

  lemma Append5(front: string, init: seq<string>, l1: string, k1: string, v1: string, l2: string,
                k2: string, v2: string, l3: string, k3: string, v3: string, l4: string, k4: string,
                v4: string, l5: string, k5: string, v5: string)
    requires |init| >= 1 && front == Query(init)
    requires Piece(l1, '&', k1)
    requires Piece(l2, '&', k2)
    requires Piece(l3, '&', k3)
    requires Piece(l4, '&', k4)
    requires Piece(l5, '&', k5)
    ensures front + l1 + v1 + l2 + v2 + l3 + v3 + l4 + v4 + l5 + v5
            == Query(init + [k1 + v1, k2 + v2, k3 + v3, k4 + v4, k5 + v5])
  {
    Append1(front, init, l1, k1, v1);
    Append4(front + l1 + v1, init + [k1 + v1], l2, k2, v2, l3, k3, v3, l4, k4, v4, l5, k5, v5);
    Regroup5(init, k1 + v1, k2 + v2, k3 + v3, k4 + v4, k5 + v5);
  }

  /** Moving the first appended field into the run that follows it. */
  lemma Regroup2(init: seq<string>, x1: string, x2: string)
    ensures (init + [x1]) + [x2] == init + [x1, x2]
  {
  }

  lemma Regroup3(init: seq<string>, x1: string, x2: string, x3: string)
    ensures (init + [x1]) + [x2, x3] == init + [x1, x2, x3]
  {
  }

  lemma Regroup4(init: seq<string>, x1: string, x2: string, x3: string, x4: string)
    ensures (init + [x1]) + [x2, x3, x4] == init + [x1, x2, x3, x4]
  {
  }

  lemma Regroup5(init: seq<string>, x1: string, x2: string, x3: string, x4: string, x5: string)
    ensures (init + [x1]) + [x2, x3, x4, x5] == init + [x1, x2, x3, x4, x5]
  {
  }

  /** A single field followed by a run of fields. */
  lemma Lead2(x1: string, x2: string)
    ensures [x1] + [x2] == [x1, x2]
  {
  }

  lemma Lead3(x1: string, x2: string, x3: string)
    ensures [x1] + [x2, x3] == [x1, x2, x3]
  {
  }

  lemma Lead4(x1: string, x2: string, x3: string, x4: string)
    ensures [x1] + [x2, x3, x4] == [x1, x2, x3, x4]
  {
  }

  lemma Lead5(x1: string, x2: string, x3: string, x4: string, x5: string)
    ensures [x1] + [x2, x3, x4, x5] == [x1, x2, x3, x4, x5]
  {
  }

  lemma Lead6(x1: string, x2: string, x3: string, x4: string, x5: string, x6: string)
    ensures [x1] + [x2, x3, x4, x5, x6] == [x1, x2, x3, x4, x5, x6]
  {
  }

  /** No field carries the key. */
  lemma {:induction false} KeyCountAbsent(fields: seq<string>, key: string)
    requires forall i :: 0 <= i < |fields| ==> !HasKey(fields[i], key)
    ensures KeyCount(fields, key) == 0
  {
    if |fields| > 0 {
      KeyCountAbsent(fields[1..], key);
    }
  }

  /** A field that differs from the key at position `j` does not carry it. */
  lemma NotKeyAt(field: string, key: string, j: int)
    requires 0 <= j < |key| && j < |field| && field[j] != key[j]
    ensures !HasKey(field, key)
  {
    assert (key + "=")[j] == key[j];
  }

  /** A field without `=` carries no key. */
  lemma NotKeyWithoutEq(field: string, key: string)
    requires '=' !in field
    ensures !HasKey(field, key)
  {
    assert (key + "=")[|key|] == '=';
  }

  /** The query of some fields begins with the query of any non-empty prefix of them and `&`. */
  lemma {:induction false} QueryPrefix(init: seq<string>, rest: seq<string>)
    requires |init| >= 1 && |rest| >= 1
    ensures Query(init) + "&" <= Query(init + rest)
  {
    var front, last := rest[..|rest| - 1], rest[|rest| - 1];
    assert init + rest == (init + front) + [last];
    QuerySnoc(init + front, last);
    if |front| == 0 {
      assert init + front == init;
    } else {
      QueryPrefix(init, front);
    }
  }

  /** Without a key the caller's query string is used unchanged, or there is none. */
  lemma GetUrlWithoutKey(c: Client, endpoint: string, params: Option<string>)
    requires c.apiKey == None
    ensures GetUrl(c, endpoint, params) == c.host + endpoint + params.GetOr("")
    ensures Fields(QuerySegment(params, c.apiKey)) == Fields(params.GetOr(""))
  {
  }

  /**
   * With a key and a query, the key field is appended once, after every field
   * of the caller's query.
   */
  lemma GetUrlAppendsKey(c: Client, endpoint: string, p: string)
    requires c.apiKey.Some? && '&' !in c.apiKey.value
    requires |p| >= 1 && p[0] == '?'
    ensures GetUrl(c, endpoint, Some(p)) == c.host + endpoint + p + "&" + KeyField(c.apiKey.value)
    ensures Fields(QuerySegment(Some(p), c.apiKey)) == Fields(p) + [KeyField(c.apiKey.value)]
    ensures KeyCount(Fields(QuerySegment(Some(p), c.apiKey)), KeyName)
            == KeyCount(Fields(p), KeyName) + 1
  {
    var field := KeyField(c.apiKey.value);
    var seg := QuerySegment(Some(p), c.apiKey);
    assert seg == p + "&" + field;
    assert seg[1..] == p[1..] + ['&'] + field;
    SplitAppend(p[1..], field, '&');
    assert '&' !in KeyName + "=";
    SplitNoDelim(field, '&');
    KeyCountAppend(Fields(p), [field], KeyName);
    assert HasKey(field, KeyName) by {
      assert field[..|KeyName| + 1] == KeyName + "=";
    }
  }

  /** With a key and no query, the key becomes the one and only field, after `?`. */
  lemma GetUrlKeyOnly(c: Client, endpoint: string)
    requires c.apiKey.Some? && '&' !in c.apiKey.value
    ensures GetUrl(c, endpoint, None) == c.host + endpoint + "?" + KeyField(c.apiKey.value)
    ensures Fields(QuerySegment(None, c.apiKey)) == [KeyField(c.apiKey.value)]
  {
    var field := KeyField(c.apiKey.value);
    assert QuerySegment(None, c.apiKey)[1..] == field;
    assert '&' !in KeyName + "=";
    SplitNoDelim(field, '&');
  }
}
