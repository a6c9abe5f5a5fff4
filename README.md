# XBO Market Kit — a Dafny model of the plugin's core

XBO Market Kit is a WordPress plugin that shows live market data from the
XBO.com public API: tickers with sparklines, top movers, order books, recent
trades and a slippage calculator, as blocks, shortcodes and REST endpoints
under `xbo/v1`. This project models the plugin's core in Dafny and proves
properties of that model:

- the API layer: `ApiClient` (cache-aside requests, symbol formats, cache
  keys, error mapping), `ApiResponse` and the transient `CacheManager` with its
  cache-mode TTL multiplier (`api_client.dfy`, `api_response.dfy`,
  `cache_manager.dfy`);
- the REST controllers that reshape API data: movers, ticker, order book,
  trades, trading pairs and slippage (`movers.dfy`, `ticker_controller.dfy`,
  `orderbook_controller.dfy`, `trades_controller.dfy`, `trading_pairs.dfy`,
  `slippage.dfy`, with the shared response and symbol helpers in `rest.dfy`);
- the deterministic sparkline generator (`sparkline.dfy`);
- the browser side: the ticker's live sparkline buffer and SVG projection
  (`ticker.dfy`), the refresh-timer countdown (`refresh_timer.dfy`) and its
  server render (`refresh_timer_render.dfy`), and the editor's pair selector
  (`pairs_selector.dfy`);
- icons: the resolver, the download cascade and bulk sync (`icon_resolver.dfy`,
  `icon_sync.dfy`), and the pair catalog behind the dropdowns
  (`pair_catalog.dfy`);
- the settings sanitizer (`admin_settings.dfy`).

Decoded JSON is a `Json` datatype standing for PHP arrays and JavaScript
values (`json.dfy`). PHP and JavaScript built-ins the core relies on are
modelled once and shared: explode/split, join, trim, ASCII case mapping,
str_contains and decimal formatting (`strings.dfy`), sort, array_unique and
the stable usort (`sorting.dfy`), rawurlencode (`percent_encoding.dfy`),
min/max/abs/round (`numeric.dfy`), and `Option` (`wrappers.dfy`).

Everything the code cannot compute itself is a parameter: the HTTP
transport (`net`, `fetch`), `json_decode` (`decode`), the `(float)` cast of a
numeric string (`numeric`), `sanitize_text_field`, `crc32`, `tanh`, the
clock, and whether a file can be written (`writable`). State that the source
changes in place is modelled as classes (`CacheManager`, `ApiClient`,
`SparklineBuffer`, `TimerContext`); loops in the source are methods with
loop invariants, each proved equal to a recursive specification function
whose properties are proved as lemmas.

## Model

| member | source | states |
|---|---|---|
| AdminSettings.Field | wp-content/plugins/xbo-market-kit/includes/Admin/AdminSettings.php:124-127 | `$input[$key] ?? default`: the submitted value when the key is present and not null, otherwise the default |
| AdminSettings.Sanitize | wp-content/plugins/xbo-market-kit/includes/Admin/AdminSettings.php:121-130 | the pair list is sanitize_text_field of the submitted list or of "BTC/USDT,ETH/USDT"; the cache mode is always one of fast/normal/slow, kept exactly when the submitted value is one of those strings and "normal" otherwise; the Tailwind flag is "1" iff the field is set (present and not null) and "0" iff it is not |
| AdminSettings.ResanitizeSetsTailwind | wp-content/plugins/xbo-market-kit/includes/Admin/AdminSettings.php:121-130 | sanitizing the stored option array again keeps the pair list (when sanitize_text_field is stable on it) and the cache mode, always yields Tailwind "1", and so returns the same settings iff the flag was "1" (a stored "0" is set by isset) |
| PairsSelector.NonEmpty | wp-content/plugins/xbo-market-kit/src/blocks/shared/PairsSelector.js:24 | `.filter(Boolean)` keeps exactly the non-empty pieces and never adds any |
| PairsSelector.Tokens | wp-content/plugins/xbo-market-kit/src/blocks/shared/PairsSelector.js:23-25 | a missing or empty value gives no tokens; every token produced is non-empty, holds no comma and has no white space at either end |
| PairsSelector.Valid | wp-content/plugins/xbo-market-kit/src/blocks/shared/PairsSelector.js:29-32 | a token is kept iff it equals some known pair ignoring ASCII case; nothing else is added, so the result is no longer than the input |
| PairsSelector.HandleChange | wp-content/plugins/xbo-market-kit/src/blocks/shared/PairsSelector.js:27-34 | when no token names a known pair the stored value is the empty string |
| PairsSelector.ValidAppend | wp-content/plugins/xbo-market-kit/src/blocks/shared/PairsSelector.js:30-32 | validation works token by token: validating a concatenation is the concatenation of the validations, so the tokens keep their order |
| PairsSelector.ValidIdempotent | wp-content/plugins/xbo-market-kit/src/blocks/shared/PairsSelector.js:30-32 | validating already-validated tokens changes nothing |
| PairsSelector.NonEmptyKeepsAll | wp-content/plugins/xbo-market-kit/src/blocks/shared/PairsSelector.js:24 | pieces that are all non-empty pass the filter unchanged |
| PairsSelector.TrimAllClean | wp-content/plugins/xbo-market-kit/src/blocks/shared/PairsSelector.js:24 | trimming tokens that have no edge white space changes none of them |
| PairsSelector.JoinNotEmpty | wp-content/plugins/xbo-market-kit/src/blocks/shared/PairsSelector.js:23 | a join of parts whose first part is non-empty is a non-empty (truthy) string |
| PairsSelector.TokensOfJoin | wp-content/plugins/xbo-market-kit/src/blocks/shared/PairsSelector.js:23-25 | clean tokens joined with ',' are read back as exactly the same tokens |
| PairsSelector.StoredReadsBack | wp-content/plugins/xbo-market-kit/src/blocks/shared/PairsSelector.js:23-34 | what handleChange stores reads back as exactly the valid tokens, in order, when the known pairs hold no comma or edge space |
| ApiResponses.ConstructorsWellFormed | wp-content/plugins/xbo-market-kit/includes/Api/ApiResponse.php:27-53 | a success carries no error message and status 200, an error carries no data; no success equals an error |
| ApiResponses.Success | wp-content/plugins/xbo-market-kit/includes/Api/ApiResponse.php:40-42 | success($data) is a well-formed success (no message, status 200) carrying exactly the given data |
| ApiResponses.Error | wp-content/plugins/xbo-market-kit/includes/Api/ApiResponse.php:51-53 | error($message, $status_code = 500) is a well-formed failure (no data) carrying exactly the given message and status |
| Cache.Multiplier | wp-content/plugins/xbo-market-kit/includes/Cache/CacheManager.php:37-45 | the multiplier is 0.5 iff the cache mode is "fast", 2.0 iff it is "slow", and 1.0 iff it is anything else or missing |
| Cache.AdjustedTtl | wp-content/plugins/xbo-market-kit/includes/Cache/CacheManager.php:66-69 | max(round(ttl × multiplier), 1): at least 1, exactly the rounded scaled TTL whenever that is at least 1, and 1 otherwise |
| Cache.NormalModeTtl | wp-content/plugins/xbo-market-kit/includes/Cache/CacheManager.php:66-69 | in normal mode the TTL is kept, floored at 1 |
| Cache.SlowModeTtl | wp-content/plugins/xbo-market-kit/includes/Cache/CacheManager.php:66-69 | in slow mode the TTL is doubled, floored at 1 |
| Cache.FastModeTtl | wp-content/plugins/xbo-market-kit/includes/Cache/CacheManager.php:66-69 | in fast mode the TTL is halved with an odd TTL rounding up, (ttl + 1) / 2, floored at 1 |
| Cache.Lookup | wp-content/plugins/xbo-market-kit/includes/Cache/CacheManager.php:53-56 | get() is null exactly for a missing key, a stored `false` or a stored null, and otherwise the stored value |
| Cache.CacheManager.constructor | wp-content/plugins/xbo-market-kit/includes/Cache/CacheManager.php:37-45 | the multiplier is fixed from the settings' cache mode; the store is the existing transient store |
| Cache.CacheManager.Set | wp-content/plugins/xbo-market-kit/includes/Cache/CacheManager.php:66-69 | the key now maps to the data with the adjusted TTL, get() returns the data (null for `false` or null), and every other key reads as before |
| Cache.CacheManager.Delete | wp-content/plugins/xbo-market-kit/includes/Cache/CacheManager.php:77-79 | the key is gone, get() returns null for it, and every other key reads as before |
| Api.Fetch | wp-content/plugins/xbo-market-kit/includes/Api/ApiClient.php:141-172 | a transport error becomes an error with its message; a status outside 200-299 becomes "API returned HTTP <code>" with that status; a body that does not decode to an array becomes "Invalid JSON response"; the result succeeds iff the status is 2xx and the body decodes to an array, and then carries the decoded data |
| Api.FetchOutcome | wp-content/plugins/xbo-market-kit/includes/Api/ApiClient.php:141-172 | every fetched response is well formed, a success carries an array, an error never reports a 2xx status, and every HTTP-level error has a non-empty message |
| Api.ToUnderscore | wp-content/plugins/xbo-market-kit/includes/Api/ApiClient.php:180-182 | same length, every '/' becomes '_' and nothing else changes, so no '/' remains |
| Api.ToSlash | wp-content/plugins/xbo-market-kit/includes/Api/ApiClient.php:190-192 | same length, every '_' becomes '/' and nothing else changes, so no '_' remains |
| Api.SlashRoundTrip | wp-content/plugins/xbo-market-kit/includes/Api/ApiClient.php:180-192 | for a symbol without '/', converting to slash format and back gives the symbol |
| Api.FormatsAgree | wp-content/plugins/xbo-market-kit/includes/Api/ApiClient.php:180-192 | converting after converting the other way is the same as converting once |
| Api.ClampDepth | wp-content/plugins/xbo-market-kit/includes/Api/ApiClient.php:74 | the depth is clamped into 1..250, kept when already inside and pinned to the nearer end otherwise |
| Api.OrderbookKeyByDepth | wp-content/plugins/xbo-market-kit/includes/Api/ApiClient.php:72-78 | two order-book requests for a symbol share a cache key iff their depths clamp to the same value; the slash and underscore spellings share key and path |
| Api.OrderbookKey | wp-content/plugins/xbo-market-kit/includes/Api/ApiClient.php:72-75 | the order-book cache key starts with xbo_mk_ob_, never contains '/', and is as long as the prefix, the symbol, one '_' and the decimal clamped depth |
| Api.SanitizeKey | wp-content/plugins/xbo-market-kit/includes/Api/ApiClient.php:88 | sanitize_key keeps only a-z, 0-9, '_' and '-', never lengthens, and leaves a key made of those characters unchanged |
| Api.SanitizeKeyIdempotent | wp-content/plugins/xbo-market-kit/includes/Api/ApiClient.php:88 | sanitize_key applied twice is sanitize_key applied once |
| Api.SanitizeKeyCons | wp-content/plugins/xbo-market-kit/includes/Api/ApiClient.php:88 | sanitize_key handles each character on its own: it keeps the character lower-cased when that is a-z, 0-9, '_' or '-', and drops it otherwise |
| Api.SanitizeKeyAppend | wp-content/plugins/xbo-market-kit/includes/Api/ApiClient.php:88 | sanitize_key of a concatenation is the concatenation of the sanitized parts |
| Api.SanitizeKeyLowers | wp-content/plugins/xbo-market-kit/includes/Api/ApiClient.php:88 | a key whose every character lower-cases to a-z, 0-9, '_' or '-' is only lower-cased |
| Api.SanitizeKeyDrops | wp-content/plugins/xbo-market-kit/includes/Api/ApiClient.php:88 | a character that is no key character vanishes from between the two parts around it |
| Api.BtcUsdtSanitized | wp-content/plugins/xbo-market-kit/includes/Api/ApiClient.php:88 | BTC, any one non-key separator, then USDT sanitizes to btcusdt |
| Api.TradesKey | wp-content/plugins/xbo-market-kit/includes/Api/ApiClient.php:86-88 | the trades cache key is xbo_mk_trades_ followed by at most as many characters as the symbol has, each a-z, 0-9, '_' or '-' |
| Api.TradesKeyOfBtcUsdt | wp-content/plugins/xbo-market-kit/includes/Api/ApiClient.php:86-88 | every symbol whose slash format is BTC/USDT caches its trades under xbo_mk_trades_btcusdt |
| Api.BtcUsdtTradesKey | wp-content/plugins/xbo-market-kit/includes/Api/ApiClient.php:86-88 | BTC/USDT and BTC_USDT both cache their trades under exactly xbo_mk_trades_btcusdt |
| Api.TradesRequestShape | wp-content/plugins/xbo-market-kit/includes/Api/ApiClient.php:86-91 | both spellings of a pair give the same trades cache key and path; the path's symbol is URL-safe and decodes to the UTF-8 bytes of the slash-format symbol |
| Api.CacheAsideRepeats | wp-content/plugins/xbo-market-kit/includes/Api/ApiClient.php:122-133 | after a successful request the entry is cached, and a repeat request returns the identical response without touching the store |
| Api.CacheAsideKeepsArrays | wp-content/plugins/xbo-market-kit/includes/Api/ApiClient.php:122-133 | a store holding only arrays never makes cached_request throw, and holds only arrays afterwards, since only a fetch's array data is ever stored |
| Api.CacheAsideFailureKeepsStore | wp-content/plugins/xbo-market-kit/includes/Api/ApiClient.php:122-133 | a failed request was a cache miss, is the fetch's own response, and leaves the store unchanged |
| Api.ApiClient.constructor | wp-content/plugins/xbo-market-kit/includes/Api/ApiClient.php:48-50 | the client keeps the cache it is given (the network, the decoder and the refresh interval are its parameters) |
| Api.ApiClient.CachedRequest | wp-content/plugins/xbo-market-kit/includes/Api/ApiClient.php:122-133 | a hit (get() not null) writes nothing and returns the cached array as a success, or ends in the TypeError of ApiResponse::success for a cached non-array; a miss (including a stored null) returns the fetch's response and stores its data with the adjusted TTL only if it succeeded |
| Api.ApiClient.GetStats | wp-content/plugins/xbo-market-kit/includes/Api/ApiClient.php:57-63 | a cache-aside request for /trading-pairs/stats under key xbo_mk_stats with the refresh interval as TTL |
| Api.ApiClient.GetOrderbook | wp-content/plugins/xbo-market-kit/includes/Api/ApiClient.php:72-78 | a cache-aside request under key xbo_mk_ob_<underscored symbol>_<clamped depth> for /orderbook/<symbol>?depth=<clamped depth> |
| Api.ApiClient.GetTrades | wp-content/plugins/xbo-market-kit/includes/Api/ApiClient.php:86-91 | a cache-aside request under key xbo_mk_trades_<sanitized slash symbol> for /trades?symbol=<encoded slash symbol> |
| Api.ApiClient.GetCurrencies | wp-content/plugins/xbo-market-kit/includes/Api/ApiClient.php:98-100 | a cache-aside request for /currencies under key xbo_mk_currencies with a TTL of 21600 seconds |
| Api.ApiClient.GetTradingPairs | wp-content/plugins/xbo-market-kit/includes/Api/ApiClient.php:107-109 | a cache-aside request for /trading-pairs under key xbo_mk_pairs with a TTL of 21600 seconds |
| Rest.ErrorResponse | wp-content/plugins/xbo-market-kit/includes/Rest/AbstractController.php:51-60 | error_response($message) with its defaults: a failure with code xbo_error, the given message and status 500 |
| Rest.Slice | wp-content/plugins/xbo-market-kit/includes/Rest/TradesController.php:65 | array_slice from offset 0: a prefix of the input, of length min(length, size) for a non-negative length and all but the last -length elements otherwise |
| Rest.SpreadPct | wp-content/plugins/xbo-market-kit/includes/Rest/OrderbookController.php:91 | 0 when the best bid is not positive; otherwise the spread as a percentage of the best bid (pct × bid = (ask − bid) × 100), non-negative iff the ask is at least the bid |
| Rest.SplitSymbol | wp-content/plugins/xbo-market-kit/includes/Rest/TickerController.php:84-88 | base and quote are the first two '/'-separated pieces (quote "" when there is none), neither contains '/', and a symbol without '/' is all base |
| Rest.SplitSymbolOfPair | wp-content/plugins/xbo-market-kit/includes/Rest/TickerController.php:84-88 | a symbol BASE/QUOTE with exactly one slash splits into BASE and QUOTE |
| Slippage.Summarize | wp-content/plugins/xbo-market-kit/includes/Rest/SlippageController.php:105-115 | the reported best price, depth and cost are the walk's; the average price times the filled amount is the cost (0 when nothing filled); slippage is never negative and is 0 when the best price is not positive |
| Slippage.CalculateSlippage | wp-content/plugins/xbo-market-kit/includes/Rest/SlippageController.php:75-116 | the method's five figures are exactly the specification Expected: all zero for an empty book or a non-positive amount, otherwise the summary of the walk from the best level |
| Slippage.WalkLevels | wp-content/plugins/xbo-market-kit/includes/Rest/SlippageController.php:91-103 | the foreach leaves cost and depth equal to the recursive walk of the book, and depth plus what remains is the amount asked for |
| Slippage.WalkFills | wp-content/plugins/xbo-market-kit/includes/Rest/SlippageController.php:95-102 | with non-negative sizes the walk fills min(amount, total size), between 0 and the amount |
| Slippage.WalkCostBounds | wp-content/plugins/xbo-market-kit/includes/Rest/SlippageController.php:91-103 | when every level the walk touches is priced within [lo, hi], the cost lies between lo and hi times the amount filled |
| Slippage.AveragePriceWithinLevels | wp-content/plugins/xbo-market-kit/includes/Rest/SlippageController.php:105-106 | when something fills, the average price lies between the lowest and the highest price of the levels the walk touched |
| Slippage.DepthUsedIsMin | wp-content/plugins/xbo-market-kit/includes/Rest/SlippageController.php:99-113 | the depth used is the smaller of the amount and the book's total size: an order never fills more than was asked or than the book holds |
| Slippage.FirstLevelCovers | wp-content/plugins/xbo-market-kit/includes/Rest/SlippageController.php:75-116 | when the best level covers the amount, the order fills entirely there: cost = amount × best price, average = best price, slippage 0 |
| Slippage.MultiLevelExample | wp-content/plugins/xbo-market-kit/tests/Unit/Rest/SlippageControllerTest.php:19-31 | five at 100, five at 101, five at 102, buying 10: average 100.5, cost 1005, depth 10, slippage 0.5% |
| Slippage.ShallowBookExample | wp-content/plugins/xbo-market-kit/tests/Unit/Rest/SlippageControllerTest.php:33-39 | a book of 2 at 100 fills only 2 of 5, at a cost of 200 |
| Slippage.GetItems | wp-content/plugins/xbo-market-kit/includes/Rest/SlippageController.php:31-66 | an API failure becomes error_response with its message; otherwise the report echoes symbol, side and amount, walks the asks for "buy" and the bids otherwise, reports the five figures of Expected on that side, and the spread as best ask − best bid with its percentage of the bid |
| Ticker.SeqMin | wp-content/plugins/xbo-market-kit/assets/js/interactivity/ticker.js:23-28 | the smallest price: no price is below it and it is one of the prices |
| Ticker.SeqMax | wp-content/plugins/xbo-market-kit/assets/js/interactivity/ticker.js:23-28 | the largest price: no price is above it and it is one of the prices |
| Ticker.PriceBounds | wp-content/plugins/xbo-market-kit/assets/js/interactivity/ticker.js:23-28 | the scan leaves bufMin and bufMax at the smallest and the largest price of the series |
| Ticker.FlatLine | wp-content/plugins/xbo-market-kit/assets/js/interactivity/ticker.js:33-38 | one point per price, point k at x = k × width / (count − 1) and at mid-height |
| Ticker.ProjectedLine | wp-content/plugins/xbo-market-kit/assets/js/interactivity/ticker.js:39-50 | one point per price, point k at x = k × width / (count − 1) and at the price's clamped y in the padded range |
| Ticker.RenderSvgPoints | wp-content/plugins/xbo-market-kit/assets/js/interactivity/ticker.js:17-55 | the method's result is the specification Render: nothing for fewer than two prices, otherwise the projected line and the polygon closing it |
| Ticker.RenderShape | wp-content/plugins/xbo-market-kit/assets/js/interactivity/ticker.js:17-54 | fewer than two prices draw nothing; otherwise one point per price, and the polygon is the line followed by the bottom-right and bottom-left corners |
| Ticker.XSpread | wp-content/plugins/xbo-market-kit/assets/js/interactivity/ticker.js:36-45 | the points spread across the width: the first at x = 0, the last at x = width, every x inside [0, width] |
| Ticker.FlatSeriesMidHeight | wp-content/plugins/xbo-market-kit/assets/js/interactivity/ticker.js:33-38 | a series whose range is below 1e-12 is drawn as a horizontal line at mid-height |
| Ticker.YInsideViewBox | wp-content/plugins/xbo-market-kit/assets/js/interactivity/ticker.js:46-47 | every point's y lies inside [0, height] |
| Ticker.HigherPriceNotLower | wp-content/plugins/xbo-market-kit/assets/js/interactivity/ticker.js:40-47 | a higher price is never drawn lower on screen: y does not increase with the price |
| Ticker.Pushed | wp-content/plugins/xbo-market-kit/assets/js/interactivity/ticker.js:129-132 | the buffer ends with the new price, grows by one until it holds 40, and then keeps its length, so it never exceeds 40 |
| Ticker.PushedIsNewestSuffix | wp-content/plugins/xbo-market-kit/assets/js/interactivity/ticker.js:129-132 | after a push the buffer is the newest min(n + 1, 40) prices of old buffer plus new price, in their order |
| Ticker.SparklineBuffer.constructor | wp-content/plugins/xbo-market-kit/assets/js/interactivity/ticker.js:74-80 | a buffer starts with the server-rendered prices (an empty series when the entry has none), no live points and the server's update time (0 when the entry has none) |
| Ticker.SparklineBuffer.Update | wp-content/plugins/xbo-market-kit/assets/js/interactivity/ticker.js:118-133 | a missing, non-finite or non-positive price, or a second already seen, changes nothing; otherwise the price is pushed, the live count grows up to 40 and the second is recorded; the 40-point bound is kept |
| Ticker.BufferKey | wp-content/plugins/xbo-market-kit/assets/js/interactivity/ticker.js:94 | the key holds only lower-case letters and digits and is no longer than the symbol |
| Ticker.BufferKeyUpper | wp-content/plugins/xbo-market-kit/assets/js/interactivity/ticker.js:94 | the key ignores the case of the symbol's letters |
| Ticker.BufferKeySeparator | wp-content/plugins/xbo-market-kit/assets/js/interactivity/ticker.js:94 | a separator that is not a letter or digit vanishes: base, separator and quote key as the base's key followed by the quote's |
| Ticker.BufferKeyCons | wp-content/plugins/xbo-market-kit/assets/js/interactivity/ticker.js:94 | the key is built character by character: a letter or digit contributes itself lower-cased, anything else nothing |
| Ticker.BtcUsdtBufferKey | wp-content/plugins/xbo-market-kit/assets/js/interactivity/ticker.js:94 | BTC/USDT and BTC_USDT both key the buffer exactly btcusdt |
| Ticker.Trend | wp-content/plugins/xbo-market-kit/assets/js/interactivity/ticker.js:148 | the trend class is "positive" iff the 24-hour change is at least 0 and "negative" iff it is below 0 |
| Sparkline.NextRandom | wp-content/plugins/xbo-market-kit/includes/Sparkline/SparklineGenerator.php:116-121 | the xorshift32 step on a 64-bit PHP integer always yields a 32-bit state |
| Sparkline.NextRandomZero | wp-content/plugins/xbo-market-kit/includes/Sparkline/SparklineGenerator.php:116-121 | on 32-bit states the step maps 0 to 0 and no other state to 0 |
| Sparkline.RandomFloat | wp-content/plugins/xbo-market-kit/includes/Sparkline/SparklineGenerator.php:129-131 | random_float always lies in [0, 1) |
| Sparkline.NoiseRange | wp-content/plugins/xbo-market-kit/includes/Sparkline/SparklineGenerator.php:88 | the noise term lies in [−noise_scale, noise_scale) |
| Sparkline.SameDaySameSeed | wp-content/plugins/xbo-market-kit/includes/Sparkline/SparklineGenerator.php:104-108 | two calls on the same UTC day with the same rounded 24-hour change get the same seed, whatever the exact time and change |
| Sparkline.ComputeSeed | wp-content/plugins/xbo-market-kit/includes/Sparkline/SparklineGenerator.php:104-108 | crc32 of the symbol, the UTC day number and the rounded change; what it promises (same day and rounded change give the same seed) is stated by SameDaySameSeed |
| Sparkline.PriceRange | wp-content/plugins/xbo-market-kit/includes/Sparkline/SparklineGenerator.php:69-73 | the price range is max(abs(high − low), last_price × 0.001) whichever way high and low come, and is positive for a positive price |
| Sparkline.ShapeOf | wp-content/plugins/xbo-market-kit/includes/Sparkline/SparklineGenerator.php:73-77 | max_step is 5% and the noise amplitude 1.2% of the price range, both positive for a positive price |
| Sparkline.Clamp | wp-content/plugins/xbo-market-kit/includes/Sparkline/SparklineGenerator.php:89 | the clamped step lies in [−max_step, max_step] and a step already inside is unchanged |
| Sparkline.Step | wp-content/plugins/xbo-market-kit/includes/Sparkline/SparklineGenerator.php:87-90 | every price produced by a step is at least the floor 1e-9 |
| Sparkline.GeneratePrices | wp-content/plugins/xbo-market-kit/includes/Sparkline/SparklineGenerator.php:56-95 | the generated series is the specification Expected with the computed seed: empty for a non-positive price or fewer than two points, otherwise point j is the walk after count − 1 − j steps back |
| Sparkline.WalkBack | wp-content/plugins/xbo-market-kit/includes/Sparkline/SparklineGenerator.php:82-94 | the loop fills all count points, point j holding the price after count − 1 − j steps of the walk from the last price |
| Sparkline.StepBack | wp-content/plugins/xbo-market-kit/includes/Sparkline/SparklineGenerator.php:87-91 | one loop iteration advances the generator and the price by exactly one step of the walk |
| Sparkline.ExpectedShape | wp-content/plugins/xbo-market-kit/includes/Sparkline/SparklineGenerator.php:64-83 | the series is empty when the price is not positive or count < 2, and otherwise has count points, the last equal to the price |
| Sparkline.ExpectedPositive | wp-content/plugins/xbo-market-kit/includes/Sparkline/SparklineGenerator.php:90 | every point is positive, and every point but the last is at least 1e-9 |
| Sparkline.InvertedRangeSwapped | wp-content/plugins/xbo-market-kit/includes/Sparkline/SparklineGenerator.php:69-71 | swapping the 24-hour high and low gives the identical series |
| Sparkline.StepBounded | wp-content/plugins/xbo-market-kit/includes/Sparkline/SparklineGenerator.php:89-90 | from a price at or above the floor a step moves the price by at most max_step |
| Sparkline.ExpectedSteps | wp-content/plugins/xbo-market-kit/includes/Sparkline/SparklineGenerator.php:86-92 | for a last price of at least 1e-9, neighbouring points differ by at most 5% of the price range |
| Sparkline.SubFloorJump | wp-content/plugins/xbo-market-kit/includes/Sparkline/SparklineGenerator.php:90 | below the floor the step bound fails: from a last price of 1e-12 the first step back jumps to 1e-9, far more than 5% of the range |
| RefreshTimer.Positives | wp-content/plugins/xbo-market-kit/assets/js/interactivity/refresh-timer.js:20-27 | the collected intervals are exactly the parsed attribute values that are positive |
| RefreshTimer.SmallestOf | wp-content/plugins/xbo-market-kit/assets/js/interactivity/refresh-timer.js:28 | Math.min of a non-empty list is one of its elements and no element is smaller |
| RefreshTimer.DetectInterval | wp-content/plugins/xbo-market-kit/assets/js/interactivity/refresh-timer.js:16-29 | the detection loop settles on the specification Detected: the configured interval if positive, else the smallest positive page interval, else 15 |
| RefreshTimer.DetectedInterval | wp-content/plugins/xbo-market-kit/assets/js/interactivity/refresh-timer.js:16-29 | the detected interval is always positive; a positive setting is kept; without one it is 15 when the page offers no positive interval, and otherwise a page interval no larger than any positive one |
| RefreshTimer.CountdownFromFull | wp-content/plugins/xbo-market-kit/assets/js/interactivity/refresh-timer.js:37-51 | from a full countdown, after k < interval ticks interval − k seconds remain and nothing has pulsed |
| RefreshTimer.NextRemaining | wp-content/plugins/xbo-market-kit/assets/js/interactivity/refresh-timer.js:37-41 | one tick lowers the countdown or wraps it to the full interval; within 1..interval it stays there and wraps exactly when it was at 1 |
| RefreshTimer.Periodic | wp-content/plugins/xbo-market-kit/assets/js/interactivity/refresh-timer.js:37-46 | exactly interval ticks after a reset the countdown is full again, having pulsed exactly once |
| RefreshTimer.ProgressInRange | wp-content/plugins/xbo-market-kit/assets/js/interactivity/refresh-timer.js:48 | in a tick that does not wrap, the progress 1 − remaining / interval lies strictly between 0 and 1 |
| RefreshTimer.TimerContext.constructor | wp-content/plugins/xbo-market-kit/assets/js/interactivity/refresh-timer.js:14-35 | the context starts at the detected interval with a full countdown, offset 0, text "<interval>s" and no pulse |
| RefreshTimer.TimerContext.Tick | wp-content/plugins/xbo-market-kit/assets/js/interactivity/refresh-timer.js:37-52 | remaining drops by one, or wraps to the interval with a pulse, offset 0 and the interval's text; otherwise the offset is progress × circumference and the text shows the seconds left; 1 ≤ remaining ≤ interval is kept |
| RefreshTimer.TimerContext.EndPulse | wp-content/plugins/xbo-market-kit/assets/js/interactivity/refresh-timer.js:44-46 | the pulse ends and nothing else changes |
| RefreshTimerRender.SizeConfigOf | wp-content/plugins/xbo-market-kit/includes/Blocks/refresh-timer/render.php:11-33 | small is 80/3/18px and large 160/5/34px; a missing or unknown size is medium, 120/4/26px |
| RefreshTimerRender.Radius | wp-content/plugins/xbo-market-kit/includes/Blocks/refresh-timer/render.php:34 | the ring's diameter is the SVG's less 8 px, a 4 px margin on each side |
| RefreshTimerRender.RingFits | wp-content/plugins/xbo-market-kit/includes/Blocks/refresh-timer/render.php:11-34 | every size has a positive radius and a stroke that fits in the 4 px margin |
| RefreshTimerRender.InitialContext | wp-content/plugins/xbo-market-kit/includes/Blocks/refresh-timer/render.php:37-49 | the context keeps the interval attribute (0 when missing); remaining is the larger of it and 15; the text shows the interval, or 15 when it is not positive; offset "0" and no pulse |
| RefreshTimerRender.ShortIntervalMismatch | wp-content/plugins/xbo-market-kit/includes/Blocks/refresh-timer/render.php:42-49 | for an interval between 1 and 14 seconds the server counts from 15 but shows the interval, so remaining and text disagree until the client starts |
| RefreshTimerRender.ClientAgreesWithServer | wp-content/plugins/xbo-market-kit/includes/Blocks/refresh-timer/render.php:42-49 | with a positive interval, or none on a page without other intervals, the client's first text equals the server's, and so does the countdown unless the interval is below 15 |
| RefreshTimerRender.ShowsSeconds | wp-content/plugins/xbo-market-kit/includes/Blocks/refresh-timer/render.php:39 | the seconds span is shown unless showSeconds is false |
| RefreshTimerRender.ShowsLabel | wp-content/plugins/xbo-market-kit/includes/Blocks/refresh-timer/render.php:133 | the label span is shown for the default label and for any label other than "" and "0" (PHP's empty) |
| Movers.WithChange | wp-content/plugins/xbo-market-kit/includes/Rest/MoversController.php:68-71 | the kept items are exactly those whose change field is set and not the empty string |
| Movers.Normalize | wp-content/plugins/xbo-market-kit/includes/Rest/MoversController.php:83-91 | the mover's change is the item's sort key, and base and quote are the split of its symbol |
| Movers.MoversRanked | wp-content/plugins/xbo-market-kit/includes/Rest/MoversController.php:56-96 | at most limit movers, each reshaped from an item with a change figure; gainers largest change first, any other mode smallest change first |
| Movers.NormalizedInOrder | wp-content/plugins/xbo-market-kit/includes/Rest/MoversController.php:81-93 | reshaping a ranked list keeps the order of the change figures |
| Movers.RankedIsPermutation | wp-content/plugins/xbo-market-kit/includes/Rest/MoversController.php:68-79 | the ranking is a permutation of the filtered items: an item is ranked iff it is one of the API's and has a change figure |
| Movers.TiesKeepApiOrder | wp-content/plugins/xbo-market-kit/includes/Rest/MoversController.php:74-79 | items with equal change keep their relative API order (PHP 8's usort is stable) |
| TickerController.ParseSymbols | wp-content/plugins/xbo-market-kit/includes/Rest/TickerController.php:59 | one entry per comma-separated piece of the parameter, each trimmed of PHP white space |
| TickerController.ParseJoinedSymbols | wp-content/plugins/xbo-market-kit/includes/Rest/TickerController.php:59 | pairs without commas or edge white space are read back exactly from their comma-joined form |
| TickerController.Selected | wp-content/plugins/xbo-market-kit/includes/Rest/TickerController.php:66-71 | an item is selected iff it is one of the API's and its symbol (strictly, '' when missing) is among the requested ones |
| TickerController.SelectedBySet | wp-content/plugins/xbo-market-kit/includes/Rest/TickerController.php:66-71 | only the set of requested symbols matters: repeating or reordering them selects the same items |
| TickerController.SelectedIsSubsequence | wp-content/plugins/xbo-market-kit/includes/Rest/TickerController.php:66-71 | each item is selected at most as often as the API sent it |
| TickerController.NormalizeItem | wp-content/plugins/xbo-market-kit/includes/Rest/TickerController.php:83-97 | the symbol is the item's (or ""), base and quote are its split, and every missing numeric field reads 0 |
| TickerController.TickerReturnsRequested | wp-content/plugins/xbo-market-kit/includes/Rest/TickerController.php:57-75 | every returned item's symbol is one the request named |
| OrderbookController.Round4 | wp-content/plugins/xbo-market-kit/includes/Rest/OrderbookController.php:91 | round(x, 4) lies within half a unit of the fourth decimal of x and keeps a non-negative x non-negative |
| OrderbookController.GetItems | wp-content/plugins/xbo-market-kit/includes/Rest/OrderbookController.php:56-95 | on failure the API's error message; on success the body echoes the requested symbol and passes the API's timestamp through ("" when missing) |
| OrderbookController.BookSidesAreTopLevels | wp-content/plugins/xbo-market-kit/includes/Rest/OrderbookController.php:66-89 | each side is the API's side cut to depth levels, level i being the API's level i read as (price, amount) |
| OrderbookController.SpreadOfBestLevels | wp-content/plugins/xbo-market-kit/includes/Rest/OrderbookController.php:69-91 | spread = best ask − best bid (an empty side counts 0); the percentage is round(spread / bid × 100, 4), 0 without a positive bid, and non-negative when the ask is at least the bid |
| OrderbookController.ZeroDepthEmptyBook | wp-content/plugins/xbo-market-kit/includes/Rest/OrderbookController.php:66-91 | with depth 0 both sides are empty and spread and percentage are 0 |
| TradesController.TradesAreFirstOfApi | wp-content/plugins/xbo-market-kit/includes/Rest/TradesController.php:65-77 | the body holds min(limit, n) trades, trade i being the API's trade i reshaped, in the API's order |
| TradesController.SideIsLowerCase | wp-content/plugins/xbo-market-kit/includes/Rest/TradesController.php:70 | the side is always lower case, and a trade without a type is a buy |
| TradesController.Normalize | wp-content/plugins/xbo-market-kit/includes/Rest/TradesController.php:67-75 | every field the API sent passes through and every missing one takes its default: '' for id and timestamp, the requested symbol, side buy, 0 for price, amount and total |
| TradingPairs.NonEmptySymbols | wp-content/plugins/xbo-market-kit/includes/Rest/TradingPairsController.php:76-81 | no more symbols than entries, none empty, and every entry's non-empty symbol is among them |
| TradingPairs.NonEmptySymbolsFromData | wp-content/plugins/xbo-market-kit/includes/Rest/TradingPairsController.php:76-81 | every collected symbol is the symbol of some entry |
| TradingPairs.ExtractSymbols | wp-content/plugins/xbo-market-kit/includes/Rest/TradingPairsController.php:74-84 | the foreach and sort() give a sorted permutation of the non-empty symbols, duplicates kept |
| TradingPairs.ExtractedSymbols | wp-content/plugins/xbo-market-kit/includes/Rest/TradingPairsController.php:74-84 | a symbol is in the result iff it is the non-empty symbol of some entry; the result is no longer than the input |
| TradingPairs.GetItems | wp-content/plugins/xbo-market-kit/includes/Rest/TradingPairsController.php:56-64 | on failure the API's error message; on success a sorted permutation of the entries' non-empty symbols |
| IconResolver.TrimTrailingMore | wp-content/plugins/xbo-market-kit/includes/Icons/IconResolver.php:38-39 | rtrim with '/' ignores an extra trailing slash |
| IconResolver.UrlMirrorsPath | wp-content/plugins/xbo-market-kit/includes/Icons/IconResolver.php:48-64 | an icon on disk is served under the public URL with the same "/<symbol>.svg" tail as its path under the directory |
| IconResolver.PathIgnoresCase | wp-content/plugins/xbo-market-kit/includes/Icons/IconResolver.php:62-64 | symbols equal up to ASCII case share one icon path |
| IconResolver.TrailingSlashesIgnored | wp-content/plugins/xbo-market-kit/includes/Icons/IconResolver.php:37-40 | a directory given with a trailing slash yields the same paths, and the stored directory never ends in '/' |
| IconResolver.NewResolver | wp-content/plugins/xbo-market-kit/includes/Icons/IconResolver.php:37-40 | each stored string is the given one with trailing slashes cut: a prefix, everything cut is '/', and it does not end in '/' |
| IconResolver.Path | wp-content/plugins/xbo-market-kit/includes/Icons/IconResolver.php:62-64 | the path is the directory, one '/', the symbol lower-cased character by character, then .svg; no upper-case letter follows the directory |
| IconResolver.Exists | wp-content/plugins/xbo-market-kit/includes/Icons/IconResolver.php:72-74 | exists() is membership of the path in the set of files on disk |
| IconResolver.Url | wp-content/plugins/xbo-market-kit/includes/Icons/IconResolver.php:48-54 | an icon on disk gives the public URL, '/' and the file name; a missing one gives the data-URI prefix followed by text that decodes to the placeholder SVG's UTF-8 bytes |
| IconResolver.PlaceholderSvg | wp-content/plugins/xbo-market-kit/includes/Icons/IconResolver.php:82-90 | the placeholder is the fixed opening markup, then text without '<' or '>', then the fixed closing markup |
| IconResolver.SafeHasNoMarkup | wp-content/plugins/xbo-market-kit/includes/Icons/IconResolver.php:53 | rawurlencode output holds no quote, space or '<' |
| IconResolver.XmlEscape | wp-content/plugins/xbo-market-kit/includes/Icons/IconResolver.php:84 | the escaped text holds no '<' or '>', and text without '&', '<', '>' is unchanged |
| IconResolver.Entity | wp-content/plugins/xbo-market-kit/includes/Icons/IconResolver.php:84 | the entity table of ENT_XML1 holds no '<' or '>' and leaves every character but '&', '<' and '>' as itself |
| IconResolver.XmlEscapeChar | wp-content/plugins/xbo-market-kit/includes/Icons/IconResolver.php:84 | one character escapes to &amp;, &lt; or &gt; for '&', '<', '>' and to itself otherwise |
| IconResolver.XmlEscapeAppend | wp-content/plugins/xbo-market-kit/includes/Icons/IconResolver.php:84 | escaping a concatenation is the concatenation of the escaped parts |
| IconResolver.UnescapeEntity | wp-content/plugins/xbo-market-kit/includes/Icons/IconResolver.php:84 | an entity followed by any text reads back as its character followed by the text read back |
| IconResolver.XmlEscapeRoundTrip | wp-content/plugins/xbo-market-kit/includes/Icons/IconResolver.php:84 | reading escaped text back gives the original text: escaping loses nothing |
| IconResolver.Letter | wp-content/plugins/xbo-market-kit/includes/Icons/IconResolver.php:83-84 | the letter is empty for an empty symbol; otherwise it reads back as exactly the first character upper-cased, and never holds '<' or '>' |
| IconResolver.PlaceholderShowsLetter | wp-content/plugins/xbo-market-kit/includes/Icons/IconResolver.php:82-90 | for every symbol, exactly what stands between the fixed opening and closing markup: nothing for an empty symbol, else the first character upper-cased, or &amp;, &lt; or &gt; when that character is '&', '<' or '>' |
| IconResolver.DataUriDecodes | wp-content/plugins/xbo-market-kit/includes/Icons/IconResolver.php:53 | the data URI is the prefix followed by an encoding that decodes to the text's UTF-8 bytes and holds no quote, space or '<' |
| Movers.GetItems | wp-content/plugins/xbo-market-kit/includes/Rest/MoversController.php:56-96 | a failed stats call gives the API's error message as the error response; otherwise the body is the ranked items cut to the limit and reshaped, and what that means is proved by Movers.MoversRanked (at most limit movers, each from an API item, in change order), Movers.RankedIsPermutation, Movers.TiesKeepApiOrder and Movers.NormalizedInOrder |
| TickerController.GetItems | wp-content/plugins/xbo-market-kit/includes/Rest/TickerController.php:57-75 | a failed stats call gives the API's error message as the error response; otherwise the body reshapes exactly the selected items, one each, in the API's order |
| TradesController.GetItems | wp-content/plugins/xbo-market-kit/includes/Rest/TradesController.php:56-80 | a failed trades call gives the API's error message as the error response; otherwise the response is a success |
| IconSync.FetchSvg | wp-content/plugins/xbo-market-kit/includes/Icons/IconSync.php:117-131 | a body is accepted iff the request did not fail, the status is 2xx, the body is neither '' nor '0' and it contains '<svg'; an accepted body is returned unchanged |
| IconSync.AcceptedIsSvg | wp-content/plugins/xbo-market-kit/includes/Icons/IconSync.php:117-131 | an accepted body is non-empty and holds '<svg' at some position |
| IconSync.DownloadIcon | wp-content/plugins/xbo-market-kit/includes/Icons/IconSync.php:49-72 | the result is whether the icon's path is writable; the filesystem gains the cascade's content at that path; the URLs requested are the CDN's, then jsDelivr's only when the CDN gave no SVG |
| IconSync.DownloadCascade | wp-content/plugins/xbo-market-kit/includes/Icons/IconSync.php:49-72 | the content is the CDN's SVG, else jsDelivr's, else the placeholder, always non-empty and holding '<svg'; no other file changes, and a writable path ends up on disk |
| IconSync.PlaceholderIsSvg | wp-content/plugins/xbo-market-kit/includes/Icons/IconSync.php:71 | the placeholder written as the last resort contains '<svg' |
| IconSync.SyncAll | wp-content/plugins/xbo-market-kit/includes/Icons/IconSync.php:81-99 | the loop's tally, filesystem and requested URLs are those of the specification Sync: each symbol skipped when on disk and not forced, else downloaded or failed |
| IconSync.SyncOne | wp-content/plugins/xbo-market-kit/includes/Icons/IconSync.php:88-96 | one foreach iteration is one SyncStep |
| IconSync.SyncMissing | wp-content/plugins/xbo-market-kit/includes/Icons/IconSync.php:107-109 | sync_missing is the unforced Sync |
| IconSync.SyncCounts | wp-content/plugins/xbo-market-kit/includes/Icons/IconSync.php:81-99 | every symbol is counted exactly once; with force nothing is skipped; files are only added or rewritten, never removed |
| IconSync.SyncMissingSkipsExisting | wp-content/plugins/xbo-market-kit/includes/Icons/IconSync.php:88-91 | without force, symbols whose icons are all on disk are skipped: nothing is requested, downloaded or written |
| IconSync.ForcedSyncWritesAll | wp-content/plugins/xbo-market-kit/includes/Icons/IconSync.php:81-99 | after a forced sync every symbol whose path is writable has its icon on disk |
| PairCatalog.SplitPair | wp-content/plugins/xbo-market-kit/includes/Shortcodes/PairCatalog.php:64-70 | an entry splits iff its symbol holds a '/', and then the symbol is base + "/" + quote with no '/' in the base |
| PairCatalog.SplitAtFirstSlash | wp-content/plugins/xbo-market-kit/includes/Shortcodes/PairCatalog.php:64 | the limit 2 splits at the first slash only: "A/B/C" has base "A" and quote "B/C" |
| PairCatalog.Grouped | wp-content/plugins/xbo-market-kit/includes/Shortcodes/PairCatalog.php:63-75 | every base in the grouping has at least one quote |
| PairCatalog.KeyOrder | wp-content/plugins/xbo-market-kit/includes/Shortcodes/PairCatalog.php:72 | the insertion order of the grouping's keys has no repeats and holds exactly its keys |
| PairCatalog.TidyShape | wp-content/plugins/xbo-market-kit/includes/Shortcodes/PairCatalog.php:78-81 | array_unique then sort() gives a strictly ascending list with exactly the original quotes |
| PairCatalog.Build | wp-content/plugins/xbo-market-kit/includes/Shortcodes/PairCatalog.php:50-96 | on failure an empty catalog; otherwise the map has the grouping's keys, each base's tidied quotes, sorted bases holding the keys in insertion order, and the icon URL of every currency seen |
| PairCatalog.GroupPairs | wp-content/plugins/xbo-market-kit/includes/Shortcodes/PairCatalog.php:63-75 | the first loop builds the grouping, its key order and the currency set of the specification functions |
| PairCatalog.AddPair | wp-content/plugins/xbo-market-kit/includes/Shortcodes/PairCatalog.php:64-74 | an entry that does not split changes nothing; one that does appends its quote to its base's list, records a new base, and adds both currencies |
| PairCatalog.GroupStep | wp-content/plugins/xbo-market-kit/includes/Shortcodes/PairCatalog.php:63-75 | the specification of the first loop advances by exactly one AddPair step |
| PairCatalog.TidyAll | wp-content/plugins/xbo-market-kit/includes/Shortcodes/PairCatalog.php:78-81 | the second loop keeps the keys and replaces every base's list by its tidied form |
| PairCatalog.ResolveIcons | wp-content/plugins/xbo-market-kit/includes/Shortcodes/PairCatalog.php:87-90 | the third loop maps every currency, and nothing else, to its resolver URL |
| PairCatalog.GroupedFromPairs | wp-content/plugins/xbo-market-kit/includes/Shortcodes/PairCatalog.php:63-75 | a quote is listed under a base iff some entry splits into exactly that base and quote |
| PairCatalog.CurrenciesFromPairs | wp-content/plugins/xbo-market-kit/includes/Shortcodes/PairCatalog.php:73-74 | a currency gets an icon iff it is the base or quote of some entry that splits |
| PairCatalog.CatalogShape | wp-content/plugins/xbo-market-kit/includes/Shortcodes/PairCatalog.php:50-96 | bases are strictly ascending and exactly the map's keys; every list is non-empty, strictly ascending and holds exactly the quotes the API paired with its base |
| PairCatalog.BasesShape | wp-content/plugins/xbo-market-kit/includes/Shortcodes/PairCatalog.php:84 | ksort leaves the bases strictly ascending and exactly the grouping's keys |
| PairCatalog.QuotesShape | wp-content/plugins/xbo-market-kit/includes/Shortcodes/PairCatalog.php:78-81 | one base's tidied list is non-empty, strictly ascending and holds exactly the quotes paired with that base |
| Strings.ReplaceChar | wp-content/plugins/xbo-market-kit/includes/Api/ApiClient.php:181 | str_replace of one character keeps the length, changes exactly the occurrences of the needle, and leaves none |
| Strings.ReplaceCharRoundTrip | wp-content/plugins/xbo-market-kit/includes/Api/ApiClient.php:175-192 | replacing a character and then replacing back restores any string that did not already hold the replacement |
| Strings.Explode | wp-content/plugins/xbo-market-kit/includes/Rest/MoversController.php:86-87 | explode always gives at least one piece, no piece holds the separator, and a string without it is one piece |
| Strings.JoinExplode | wp-content/plugins/xbo-market-kit/src/blocks/shared/PairsSelector.js:24-33 | joining the pieces of a split restores the string |
| Strings.ExplodeJoin | wp-content/plugins/xbo-market-kit/src/blocks/shared/PairsSelector.js:24-33 | splitting the join of pieces without the separator gives the pieces back |
| Strings.ExplodeTwo | wp-content/plugins/xbo-market-kit/includes/Shortcodes/PairCatalog.php:64 | explode with limit 2 gives one piece iff there is no separator, otherwise the text before the first separator and the whole rest |
| Strings.ExplodeTwoAtFirst | wp-content/plugins/xbo-market-kit/includes/Shortcodes/PairCatalog.php:64 | a head without the separator, the separator and any tail split into exactly head and tail |
| Strings.ExplodeFirst | wp-content/plugins/xbo-market-kit/includes/Rest/MoversController.php:86 | the first piece of explode is the first piece of explode with limit 2, and there is a second piece in both or in neither |
| Strings.TrimStart | wp-content/plugins/xbo-market-kit/src/blocks/shared/PairsSelector.js:24 | strips exactly the leading white space: the result is a suffix not starting with white space and everything cut was white space |
| Strings.TrimEnd | wp-content/plugins/xbo-market-kit/includes/Icons/IconResolver.php:38-39 | strips exactly the trailing characters of the class: a prefix not ending in one, everything cut belonging to it |
| Strings.Trim | wp-content/plugins/xbo-market-kit/includes/Rest/TickerController.php:59 | the trimmed text is a slice of the input with no white space at either end |
| Strings.TrimUntrimmed | wp-content/plugins/xbo-market-kit/includes/Rest/TickerController.php:59 | text without edge white space is its own trim |
| Strings.ToLower | wp-content/plugins/xbo-market-kit/includes/Icons/IconResolver.php:63 | strtolower maps every character through the ASCII lower-casing and keeps the length |
| Strings.UpperOfLower | wp-content/plugins/xbo-market-kit/includes/Icons/IconSync.php:57-64 | upper-casing a lower-cased symbol gives the upper-cased symbol |
| Strings.LowerIdempotent | wp-content/plugins/xbo-market-kit/includes/Rest/TradesController.php:70 | lower-casing twice is lower-casing once |
| Strings.Contains | wp-content/plugins/xbo-market-kit/includes/Icons/IconSync.php:127 | str_contains holds iff the needle occurs at some position |
| Strings.ParseNatToString | wp-content/plugins/xbo-market-kit/includes/Api/ApiClient.php:75-76 | reading back the decimal digits of a natural number gives the number |
| Strings.IntToStringInjective | wp-content/plugins/xbo-market-kit/includes/Api/ApiClient.php:75 | distinct integers have distinct decimal texts, so cache keys built from them differ |
| Sorting.SortStrings | wp-content/plugins/xbo-market-kit/includes/Rest/TradingPairsController.php:82 | sort() gives an ascending permutation of its input |
| Sorting.DistinctPermutation | wp-content/plugins/xbo-market-kit/includes/Shortcodes/PairCatalog.php:79-84 | a rearrangement of a list without repeats has no repeats |
| Sorting.Dedupe | wp-content/plugins/xbo-market-kit/includes/Shortcodes/PairCatalog.php:79 | array_unique keeps each element once, holds exactly the input's elements and is no longer |
| Sorting.StableSortBy | wp-content/plugins/xbo-market-kit/includes/Rest/MoversController.php:74-79 | usort by a numeric key gives a permutation sorted descending or ascending as asked |
| Sorting.StableSortByStable | wp-content/plugins/xbo-market-kit/includes/Rest/MoversController.php:74-79 | elements with equal keys keep their input order |
| Numeric.RoundHalfAwayFromZero | wp-content/plugins/xbo-market-kit/includes/Cache/CacheManager.php:67 | round() lies within 0.5 of its argument, a tie going away from zero |
| PercentEncoding.RawUrlEncodeSafe | wp-content/plugins/xbo-market-kit/includes/Api/ApiClient.php:89 | rawurlencode output holds only unreserved characters and the % of its escapes |
| PercentEncoding.RawUrlEncodeRoundTrip | wp-content/plugins/xbo-market-kit/includes/Icons/IconResolver.php:53 | decoding the percent escapes of rawurlencode(s) gives the UTF-8 bytes of s |

## Left out

- Floating point: prices, TTLs and coordinates are exact reals. `round($x, 8)` in the slippage report, `toFixed` and `toLocaleString` in the browser, and binary rounding error are not modelled; the properties are stated over exact values before any rounding.
- Ticker.BufferKey: its own contract bounds only the key's alphabet and length; the key's content is pinned by `Ticker.BufferKeyCons` (each character's contribution), `Ticker.BufferKeyAppend` and the concrete `Ticker.BtcUsdtBufferKey`.
- Api.SanitizeKey: its own contract bounds only the alphabet and length and fixes keys already made of key characters; the content is pinned by `Api.SanitizeKeyCons`, `Api.SanitizeKeyAppend` and the concrete `Api.BtcUsdtSanitized`.
- IconResolver.XmlEscape: its own contract states only that no '<' or '>' is left and that plain text is unchanged; the entity table and the loss-free round trip are `IconResolver.XmlEscapeChar`, `IconResolver.XmlEscapeAppend` and `IconResolver.XmlEscapeRoundTrip`.
- Sparkline.ComputeSeed: `crc32` is a parameter, so the seed itself is not claimed; what the generator relies on, the same seed for the same day and rounded change, is `Sparkline.SameDaySameSeed`.
- OrderbookController.Round4: stated as lying within half a unit of the fourth decimal, not as PHP's exact decimal rounding of a binary double.
- Case mapping is ASCII-only, as PHP 8's `strtolower`/`strtoupper`. `mb_strtoupper` in the icon placeholder and JavaScript's `toUpperCase` in the editor's pair selector (`PairsSelector.Known`, PairsSelector.js:29-31) are full Unicode mappings ("ß" becomes "SS"), yet both are modelled by the same ASCII mapping, so the model agrees with them only on ASCII text.
- PHP's `sort()` and `ksort()` on strings are modelled as code-point lexicographic order; PHP's numeric-string comparison and the conversion of numeric-string array keys to integers are not modelled.
- PHP 8's `usort` is modelled as a stable insertion sort on the numeric key; only its result (sorted, a permutation, stable) is claimed.
- JSON objects are maps from key to value (`JDict` in json.dfy): the order of an object's keys and any duplicate keys in the API's text are lost. A text field holding something other than a string (a symbol that is a number, say) is treated as missing, where PHP would coerce it. An object where a list is expected is read as empty (`Json.Elements`), whereas PHP's `foreach`, `array_filter` and `array_slice` would iterate its values.
- The `(float)` cast of a string, `sanitize_text_field`, `crc32`, `tanh`, `json_decode` and the HTTP transport are parameters, not modelled.
- Transient expiry: the cache stores the TTL with each entry but time does not pass in the model, so expiry and the WordPress options table behind transients are not modelled.
- `CacheManager::flush_all` (the SQL delete of every `xbo_mk_` transient) is not part of this model.
- Api.ApiClient.CachedRequest: the TypeError that `ApiResponse::success` throws for a cached value that is not an array is the outcome `Threw`; how WordPress handles the uncaught error afterwards is not modelled.
- The `xbo_market_kit/api_base_url` filter (ApiClient.php:142) is not modelled; the base URL is the constant default.
- The request-parameter schemas (`get_collection_params`: defaults, enums, minimum and maximum) are not enforced; the controllers are modelled for any parameter values, as WordPress would pass them after validation.
- Route registration, permission callbacks, block and shortcode rendering other than the refresh timer's context, and the WP-CLI command are not part of this model.
- Sparkline.NextRandom: the generator's 64-bit PHP integers are modelled as bit-vectors; only the 32-bit masking that the generator itself performs is claimed.
- Sparkline.ExpectedSteps: requires a last price of at least 1e-9; below it the first step jumps to the floor, which `Sparkline.SubFloorJump` exhibits.
- Ticker: the per-symbol map of sparkline buffers is modelled as one `SparklineBuffer` per symbol; SVG points are coordinate pairs, not the formatted `"x,y"` strings; `isFinite` of a parsed price is an `Option`.
- The browser's DOM updates, the polling `setInterval` and the price flash animation are not modelled.
- The refresh ring's circumference `circumf` is a parameter of the client timer (`RefreshTimer.TimerContext`), and `Tick`'s dash offset is stated in terms of it; it is not derived from the ring's radius as render.php does with round(2π · radius, 2), and the server-rendered `Context` leaves it out.
- Loop bodies (the pair grouping, icon sync and sparkline steps) are extracted into helper methods; the second and third loops of `PairCatalog::build` visit keys in an unspecified order, which does not change their result.
- `wp_mkdir_p` before writing an icon is not modelled; the filesystem is a map from path to content.
- The editor's `useTradingPairs` hook (fetching the pair list) and the `FormTokenField` UI are not modelled; the selector is modelled from the suggestions it is given.
- WordPress option storage around `AdminSettings::sanitize` is not modelled; what sanitizing the stored array a second time does is stated as a lemma.
- The sparkline unit tests refer to `render_svg_points` and `get_trend_direction`, which `SparklineGenerator.php` does not define; those are modelled from `ticker.js` instead.
