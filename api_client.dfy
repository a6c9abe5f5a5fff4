/**
 * ApiClient: HTTP GET requests to the XBO public API behind a cache-aside
 * layer. The network and json_decode are parameters of the client.
 */
module Api {
  import opened Wrappers
  import opened Json
  import opened Strings
  import opened PercentEncoding
  import opened ApiResponses
  import opened Cache

  const BASE_URL: string := "https://api.xbo.com"
  /** TTL, in seconds, of the slowly changing catalogues (currencies, trading pairs). */
  const CATALOG_TTL: int := 21600

  /** What wp_remote_get hands back: a WP_Error or a response with a status code and a body. */
  datatype HttpResult = TransportError(message: string) | HttpResponse(code: int, body: string)

  /** fetch(path): one GET of BASE_URL + path, checked in three steps. */
  function Fetch(path: string, net: string -> HttpResult, decode: string -> Json): (r: ApiResponse)
    ensures net(BASE_URL + path).TransportError? ==> r == Error(net(BASE_URL + path).message)
    ensures net(BASE_URL + path).HttpResponse? && !(200 <= net(BASE_URL + path).code < 300) ==>
      r == Error("API returned HTTP " + IntToString(net(BASE_URL + path).code), net(BASE_URL + path).code)
    ensures net(BASE_URL + path).HttpResponse? && 200 <= net(BASE_URL + path).code < 300 && !IsArray(decode(net(BASE_URL + path).body)) ==>
      r == Error("Invalid JSON response")
    ensures r.success <==> net(BASE_URL + path).HttpResponse? && 200 <= net(BASE_URL + path).code < 300 && IsArray(decode(net(BASE_URL + path).body))
    ensures r.success ==> r == Success(decode(net(BASE_URL + path).body))
  {
    match net(BASE_URL + path)
    case TransportError(message) => Error(message)
    case HttpResponse(code, body) =>
      if code < 200 || code >= 300 then Error("API returned HTTP " + IntToString(code), code)
      else if !IsArray(decode(body)) then Error("Invalid JSON response")
      else Success(decode(body))
  }

  /** A fetched response is well formed, carries an array when it succeeds, never reports a 2xx status as an error, and explains every error that is not a transport error. */
  lemma FetchOutcome(path: string, net: string -> HttpResult, decode: string -> Json)
    ensures WellFormed(Fetch(path, net, decode))
    ensures Fetch(path, net, decode).success ==> IsArray(Fetch(path, net, decode).data)
    ensures !Fetch(path, net, decode).success ==> !(200 <= Fetch(path, net, decode).statusCode < 300)
    ensures !Fetch(path, net, decode).success && net(BASE_URL + path).HttpResponse? ==> Fetch(path, net, decode).errorMessage != ""
  {
    var r := Fetch(path, net, decode);
    if !r.success && net(BASE_URL + path).HttpResponse? && !(200 <= net(BASE_URL + path).code < 300) {
      assert r.errorMessage[0] == 'A';
    } else if !r.success && net(BASE_URL + path).HttpResponse? {
      assert r.errorMessage[0] == 'I';
    }
  }

  /** to_underscore_format */
  function ToUnderscore(symbol: string): (r: string)
    ensures |r| == |symbol| && '/' !in r
    ensures forall i :: 0 <= i < |symbol| ==> r[i] == (if symbol[i] == '/' then '_' else symbol[i])
  {
    ReplaceChar(symbol, '/', '_')
  }

  /** to_slash_format */
  function ToSlash(symbol: string): (r: string)
    ensures |r| == |symbol| && '_' !in r
    ensures forall i :: 0 <= i < |symbol| ==> r[i] == (if symbol[i] == '_' then '/' else symbol[i])
  {
    ReplaceChar(symbol, '_', '/')
  }

  /** An underscore symbol survives the trip to slash format and back. */
  lemma SlashRoundTrip(symbol: string)
    requires '/' !in symbol
    ensures ToUnderscore(ToSlash(symbol)) == symbol
  {
    ReplaceCharRoundTrip(symbol, '_', '/');
  }

  /** Either spelling of a pair (BTC/USDT or BTC_USDT) reaches the same format. */
  lemma FormatsAgree(symbol: string)
    ensures ToUnderscore(ToSlash(symbol)) == ToUnderscore(symbol)
    ensures ToSlash(ToUnderscore(symbol)) == ToSlash(symbol)
  {
    var a, b := ToUnderscore(ToSlash(symbol)), ToUnderscore(symbol);
    assert |a| == |b|;
    forall i | 0 <= i < |symbol| ensures a[i] == b[i] { }
    var c, d := ToSlash(ToUnderscore(symbol)), ToSlash(symbol);
    assert |c| == |d|;
    forall i | 0 <= i < |symbol| ensures c[i] == d[i] { }
  }

  /** min(max(depth, 1), 250) */
  function ClampDepth(depth: int): (r: int)
    ensures 1 <= r <= 250
    ensures 1 <= depth <= 250 ==> r == depth
    ensures depth < 1 ==> r == 1
    ensures depth > 250 ==> r == 250
  {
    var atLeastOne := if depth > 1 then depth else 1;
    if atLeastOne < 250 then atLeastOne else 250
  }

  /** The transient key of get_orderbook: 'xbo_mk_ob_%s_%d' with the underscored symbol and clamped depth. */
  function OrderbookKey(symbol: string, depth: int): (k: string)
    ensures |k| == 10 + |symbol| + 1 + |NatToString(ClampDepth(depth))| && k[..10] == "xbo_mk_ob_"
    ensures '/' !in k
  {
    var sym, digits := ToUnderscore(symbol), NatToString(ClampDepth(depth));
    var k := "xbo_mk_ob_" + sym + "_" + digits;
    assert forall i :: 0 <= i < |k| ==> k[i] != '/' by {
      forall i | 0 <= i < |k| ensures k[i] != '/' {
        if 10 <= i < 10 + |sym| { assert k[i] == sym[i - 10]; }
        else if 10 + |sym| + 1 <= i { assert k[i] == digits[i - 10 - |sym| - 1]; }
      }
    }
    k
  }

  /** The request path of get_orderbook. */
  function OrderbookPath(symbol: string, depth: int): string {
    "/orderbook/" + ToUnderscore(symbol) + "?depth=" + IntToString(ClampDepth(depth))
  }

  /**
   * Order-book requests for one symbol share a cache entry exactly when their
   * depths clamp to the same value; both spellings of the symbol share it.
   */
  lemma OrderbookKeyByDepth(symbol: string, d1: int, d2: int)
    ensures OrderbookKey(symbol, d1) == OrderbookKey(symbol, d2) <==> ClampDepth(d1) == ClampDepth(d2)
    ensures OrderbookKey(ToSlash(symbol), d1) == OrderbookKey(symbol, d1)
    ensures OrderbookPath(ToSlash(symbol), d1) == OrderbookPath(symbol, d1)
  {
    FormatsAgree(symbol);
    var p := "xbo_mk_ob_" + ToUnderscore(symbol) + "_";
    assert OrderbookKey(symbol, d1) == p + IntToString(ClampDepth(d1));
    assert OrderbookKey(symbol, d2) == p + IntToString(ClampDepth(d2));
    if OrderbookKey(symbol, d1) == OrderbookKey(symbol, d2) {
      assert IntToString(ClampDepth(d1)) == OrderbookKey(symbol, d1)[|p|..];
      assert IntToString(ClampDepth(d2)) == OrderbookKey(symbol, d2)[|p|..];
      IntToStringInjective(ClampDepth(d1), ClampDepth(d2));
    }
  }

  /** WordPress sanitize_key: lower-case ASCII, then keep only a-z, 0-9, '_' and '-'. */
  predicate KeyChar(c: char) {
    ('a' <= c <= 'z') || ('0' <= c <= '9') || c == '_' || c == '-'
  }

  function SanitizeKey(key: string): (r: string)
    ensures forall i :: 0 <= i < |r| ==> KeyChar(r[i])
    ensures |r| <= |key|
    ensures (forall i :: 0 <= i < |key| ==> KeyChar(key[i])) ==> r == key
  {
    if key == [] then ""
    else
      var c := LowerChar(key[0]);
      (if KeyChar(c) then [c] else []) + SanitizeKey(key[1..])
  }

  /** sanitize_key changes nothing the second time. */
  lemma SanitizeKeyIdempotent(key: string)
    ensures SanitizeKey(SanitizeKey(key)) == SanitizeKey(key)
  {
  }

  /** One character's contribution: itself lower-cased when that is a key character, else nothing. */
  lemma SanitizeKeyCons(c: char, s: string)
    ensures SanitizeKey([c] + s) == (if KeyChar(LowerChar(c)) then [LowerChar(c)] else []) + SanitizeKey(s)
  {
    assert ([c] + s)[1..] == s;
  }

  /** sanitize_key works character by character: the key of a concatenation is the concatenation of the keys. */
  lemma {:induction false} SanitizeKeyAppend(a: string, b: string)
    ensures SanitizeKey(a + b) == SanitizeKey(a) + SanitizeKey(b)
  {
    if a == [] {
      assert a + b == b;
    } else {
      assert (a + b)[1..] == a[1..] + b;
      SanitizeKeyAppend(a[1..], b);
    }
  }

  /** On a key whose every character lower-cases to a key character, sanitize_key only lower-cases. */
  lemma {:induction false} SanitizeKeyLowers(key: string)
    requires forall i :: 0 <= i < |key| ==> KeyChar(LowerChar(key[i]))
    ensures SanitizeKey(key) == ToLower(key)
  {
    if key != [] {
      SanitizeKeyCons(key[0], key[1..]);
      assert [key[0]] + key[1..] == key;
      SanitizeKeyLowers(key[1..]);
    }
  }

  /** sanitize_key('BTC') is 'btc'. */
  lemma BtcSanitized()
    ensures SanitizeKey(['B', 'T', 'C']) == "btc"
  {
    SanitizeKeyLowers(['B', 'T', 'C']);
  }

  /** sanitize_key('USDT') is 'usdt'. */
  lemma UsdtSanitized()
    ensures SanitizeKey(['U', 'S', 'D', 'T']) == "usdt"
  {
    SanitizeKeyLowers(['U', 'S', 'D', 'T']);
  }

  /** A character that is no key character, between two parts, vanishes from the key. */
  lemma SanitizeKeyDrops(base: string, sep: char, quote: string)
    requires !KeyChar(LowerChar(sep))
    ensures SanitizeKey(base + [sep] + quote) == SanitizeKey(base) + SanitizeKey(quote)
  {
    assert base + [sep] + quote == base + ([sep] + quote);
    SanitizeKeyAppend(base, [sep] + quote);
    SanitizeKeyCons(sep, quote);
  }

  /** BTC, a character that is no key character, and USDT sanitize to 'btcusdt'. */
  lemma BtcUsdtSanitized(sep: char)
    requires !KeyChar(LowerChar(sep))
    ensures SanitizeKey(['B', 'T', 'C', sep, 'U', 'S', 'D', 'T']) == "btcusdt"
  {
    var base, quote := ['B', 'T', 'C'], ['U', 'S', 'D', 'T'];
    assert ['B', 'T', 'C', sep, 'U', 'S', 'D', 'T'] == base + [sep] + quote;
    SanitizeKeyDrops(base, sep, quote);
    BtcSanitized();
    UsdtSanitized();
  }

  /** The transient key of get_trades: 'xbo_mk_trades_' + sanitize_key of the slash-format symbol. */
  function TradesKey(symbol: string): (k: string)
    ensures 14 <= |k| <= 14 + |symbol| && k[..14] == "xbo_mk_trades_"
    ensures forall i :: 14 <= i < |k| ==> KeyChar(k[i])
  {
    var tail := SanitizeKey(ToSlash(symbol));
    var k := "xbo_mk_trades_" + tail;
    assert forall i :: 14 <= i < |k| ==> k[i] == tail[i - 14];
    k
  }

  /** The request path of get_trades: the slash-format symbol, percent-encoded. */
  function TradesPath(symbol: string): string {
    "/trades?symbol=" + RawUrlEncode(ToSlash(symbol))
  }

  /**
   * Trades requests for both spellings of a pair share key and path, and the
   * path is URL-safe and decodes to the slash-format symbol.
   */
  lemma TradesRequestShape(symbol: string)
    ensures TradesKey(ToUnderscore(symbol)) == TradesKey(symbol)
    ensures TradesPath(ToUnderscore(symbol)) == TradesPath(symbol)
    ensures UrlSafe(RawUrlEncode(ToSlash(symbol)))
    ensures PercentDecode(RawUrlEncode(ToSlash(symbol))) == Utf8String(ToSlash(symbol))
  {
    FormatsAgree(symbol);
    RawUrlEncodeSafe(ToSlash(symbol));
    RawUrlEncodeRoundTrip(ToSlash(symbol));
  }

  /** A symbol whose slash format is BTC/USDT caches its trades under xbo_mk_trades_btcusdt. */
  lemma TradesKeyOfBtcUsdt(symbol: string)
    requires ToSlash(symbol) == ['B', 'T', 'C', '/', 'U', 'S', 'D', 'T']
    ensures TradesKey(symbol) == "xbo_mk_trades_btcusdt"
  {
    BtcUsdtSanitized('/');
  }

  /** The slash format of both BTC/USDT and BTC_USDT is BTC/USDT. */
  lemma BtcUsdtSlashed()
    ensures ToSlash("BTC/USDT") == ['B', 'T', 'C', '/', 'U', 'S', 'D', 'T']
    ensures ToSlash("BTC_USDT") == ['B', 'T', 'C', '/', 'U', 'S', 'D', 'T']
  {
  }

  /** Both spellings of BTC/USDT cache their trades under xbo_mk_trades_btcusdt. */
  lemma BtcUsdtTradesKey()
    ensures TradesKey("BTC/USDT") == "xbo_mk_trades_btcusdt"
    ensures TradesKey("BTC_USDT") == "xbo_mk_trades_btcusdt"
  {
    BtcUsdtSlashed();
    TradesKeyOfBtcUsdt("BTC/USDT");
    TradesKeyOfBtcUsdt("BTC_USDT");
  }



  /**
   * How cached_request ends: with the response it returns, or with the
   * TypeError that ApiResponse::success(array $data) throws when the cache
   * holds a value that is not an array.
   */
  datatype Outcome = Returned(response: ApiResponse) | Threw

  /**
   * The cache-aside contract of cached_request, on the store before and
   * after: a hit answers from the cache (an array as a success, anything
   * else with the TypeError) and writes nothing; a miss fetches and stores
   * the data only when the fetch succeeded.
   */
  predicate CacheAside(before: map<string, Transient>, after: map<string, Transient>, multiplier: real,
                       key: string, path: string, ttl: int,
                       net: string -> HttpResult, decode: string -> Json, r: Outcome)
  {
    match Lookup(before, key)
    case Some(cached) => after == before && r == (if IsArray(cached) then Returned(Success(cached)) else Threw)
    case None =>
      var fetched := Fetch(path, net, decode);
      r == Returned(fetched) &&
      after == (if fetched.success then before[key := Transient(fetched.data, AdjustedTtl(ttl, multiplier))] else before)
  }

  /** Every stored value is an array, as cached_request only ever stores arrays. */
  predicate ArraysOnly(store: map<string, Transient>) {
    forall k :: k in store ==> IsArray(store[k].value)
  }

  /**
   * A store holding only arrays never makes cached_request throw, and it
   * still holds only arrays afterwards.
   */
  lemma CacheAsideKeepsArrays(before: map<string, Transient>, after: map<string, Transient>, multiplier: real,
                              key: string, path: string, ttl: int,
                              net: string -> HttpResult, decode: string -> Json, r: Outcome)
    requires CacheAside(before, after, multiplier, key, path, ttl, net, decode, r)
    requires ArraysOnly(before)
    ensures r.Returned? && ArraysOnly(after)
  {
    if Lookup(before, key).None? {
      FetchOutcome(path, net, decode);
    }
  }

  /**
   * After a successful request the entry is cached, and asking again is
   * answered from the cache with the identical response and no change to the store.
   */
  lemma CacheAsideRepeats(before: map<string, Transient>, mid: map<string, Transient>, after: map<string, Transient>,
                          multiplier: real, key: string, path: string, ttl: int,
                          net: string -> HttpResult, decode: string -> Json, r1: Outcome, r2: Outcome)
    requires CacheAside(before, mid, multiplier, key, path, ttl, net, decode, r1)
    requires r1.Returned? && r1.response.success
    requires CacheAside(mid, after, multiplier, key, path, ttl, net, decode, r2)
    ensures Lookup(mid, key) == Some(r1.response.data)
    ensures r2 == r1 && after == mid
  {
    if Lookup(before, key).None? {
      FetchOutcome(path, net, decode);
      assert IsArray(r1.response.data);
      assert mid[key].value == r1.response.data;
    }
  }

  /** A failed request leaves the store as it was. */
  lemma CacheAsideFailureKeepsStore(before: map<string, Transient>, after: map<string, Transient>, multiplier: real,
                                    key: string, path: string, ttl: int,
                                    net: string -> HttpResult, decode: string -> Json, r: Outcome)
    requires CacheAside(before, after, multiplier, key, path, ttl, net, decode, r)
    requires r.Returned? && !r.response.success
    ensures after == before
    ensures Lookup(before, key).None? && r == Returned(Fetch(path, net, decode))
  {
  }

  class ApiClient {
    const cache: CacheManager
    /** wp_remote_get, applied to the full URL. */
    const net: string -> HttpResult
    /** json_decode($body, true) */
    const decode: string -> Json
    /** xbo_market_kit_get_refresh_interval(): the filtered interval, 15 by default. */
    const refreshInterval: int

    constructor (cache: CacheManager, net: string -> HttpResult, decode: string -> Json, refreshInterval: int)
      ensures this.cache == cache && this.net == net && this.decode == decode
      ensures this.refreshInterval == refreshInterval
    {
      this.cache := cache;
      this.net := net;
      this.decode := decode;
      this.refreshInterval := refreshInterval;
    }

    /** cached_request($cache_key, $path, $ttl) */
    method CachedRequest(key: string, path: string, ttl: int) returns (r: Outcome)
      modifies cache
      ensures CacheAside(old(cache.transients), cache.transients, cache.ttlMultiplier, key, path, ttl, net, decode, r)
    {
      var cached := cache.Get(key);
      if cached.Some? {
        if !IsArray(cached.value) {
          return Threw;
        }
        return Returned(Success(cached.value));
      }
      var response := Fetch(path, net, decode);
      if response.success {
        cache.Set(key, response.data, ttl);
      }
      r := Returned(response);
    }

    method GetStats() returns (r: Outcome)
      modifies cache
      ensures CacheAside(old(cache.transients), cache.transients, cache.ttlMultiplier,
                         "xbo_mk_stats", "/trading-pairs/stats", refreshInterval, net, decode, r)
    {
      r := CachedRequest("xbo_mk_stats", "/trading-pairs/stats", refreshInterval);
    }

    method GetOrderbook(symbol: string, depth: int := 20) returns (r: Outcome)
      modifies cache
      ensures CacheAside(old(cache.transients), cache.transients, cache.ttlMultiplier,
                         OrderbookKey(symbol, depth), OrderbookPath(symbol, depth), refreshInterval, net, decode, r)
    {
      r := CachedRequest(OrderbookKey(symbol, depth), OrderbookPath(symbol, depth), refreshInterval);
    }

    method GetTrades(symbol: string) returns (r: Outcome)
      modifies cache
      ensures CacheAside(old(cache.transients), cache.transients, cache.ttlMultiplier,
                         TradesKey(symbol), TradesPath(symbol), refreshInterval, net, decode, r)
    {
      r := CachedRequest(TradesKey(symbol), TradesPath(symbol), refreshInterval);
    }

    method GetCurrencies() returns (r: Outcome)
      modifies cache
      ensures CacheAside(old(cache.transients), cache.transients, cache.ttlMultiplier,
                         "xbo_mk_currencies", "/currencies", CATALOG_TTL, net, decode, r)
    {
      r := CachedRequest("xbo_mk_currencies", "/currencies", CATALOG_TTL);
    }

    method GetTradingPairs() returns (r: Outcome)
      modifies cache
      ensures CacheAside(old(cache.transients), cache.transients, cache.ttlMultiplier,
                         "xbo_mk_pairs", "/trading-pairs", CATALOG_TTL, net, decode, r)
    {
      r := CachedRequest("xbo_mk_pairs", "/trading-pairs", CATALOG_TTL);
    }
  }
}
