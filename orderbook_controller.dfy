/**
 * OrderbookController: the order book of one pair, cut to the requested
 * depth on each side, with the spread between the best ask and the best bid.
 */
module OrderbookController {
  import opened Wrappers
  import opened Json
  import opened ApiResponses
  import opened Rest
  import opened Numeric

  /** The endpoint's body. `timestamp` is passed through as the API sent it. */
  datatype Book = Book(symbol: string, bids: seq<Level>, asks: seq<Level>,
                       spread: real, spreadPct: real, timestamp: Json)

  /** PHP's round($x, 4): to the nearest multiple of 0.0001, halves away from zero. */
  function Round4(x: real): (r: real)
    ensures x - 0.00005 <= r <= x + 0.00005
    ensures x >= 0.0 ==> r >= 0.0
  {
    RoundHalfAwayFromZero(x * 10000.0) as real / 10000.0
  }

  /** get_items($request) with the requested symbol and depth and the order book call's response `api`. */
  function GetItems(symbol: string, depth: int, api: ApiResponse, numeric: string -> real): (r: RestResponse<Book>)
    ensures !api.success ==> r == ErrorResponse(api.errorMessage)
    ensures api.success ==> r.Ok? && r.body.symbol == symbol
    ensures api.success ==> r.body.timestamp == Get(api.data, "timestamp").GetOr(JStr(""))
  {
    if !api.success then ErrorResponse(api.errorMessage)
    else
      var data := api.data;
      var bids := Slice(ListField(data, "bids"), depth);
      var asks := Slice(ListField(data, "asks"), depth);
      var bestBid := BestPrice(bids, numeric);
      var bestAsk := BestPrice(asks, numeric);
      var spread := bestAsk - bestBid;
      Ok(Book(symbol, Ladder(bids, numeric), Ladder(asks, numeric), spread,
              if bestBid > 0.0 then Round4(spread / bestBid * 100.0) else 0.0,
              Get(data, "timestamp").GetOr(JStr(""))))
  }

  /**
   * Each side is the API's side cut to `depth` levels, top of the book first:
   * level i is the API's level i, read as a (price, amount) pair.
   */
  lemma BookSidesAreTopLevels(symbol: string, depth: int, api: ApiResponse, numeric: string -> real)
    requires api.success && depth >= 0
    ensures var book := GetItems(symbol, depth, api, numeric).body;
      var bids := ListField(api.data, "bids");
      var asks := ListField(api.data, "asks");
      |book.bids| == (if depth < |bids| then depth else |bids|) &&
      |book.asks| == (if depth < |asks| then depth else |asks|) &&
      (forall i :: 0 <= i < |book.bids| ==> book.bids[i] == LevelOf(bids[i], numeric)) &&
      (forall i :: 0 <= i < |book.asks| ==> book.asks[i] == LevelOf(asks[i], numeric))
  {
    var bids := ListField(api.data, "bids");
    var asks := ListField(api.data, "asks");
    var sb := Slice(bids, depth);
    var sa := Slice(asks, depth);
    forall i | 0 <= i < |sb| ensures sb[i] == bids[i] { }
    forall i | 0 <= i < |sa| ensures sa[i] == asks[i] { }
  }

  /**
   * The spread is the best ask's price less the best bid's (an empty side
   * counts as price 0), and its percentage is taken of the best bid, or 0
   * when there is no positive bid.
   */
  lemma SpreadOfBestLevels(symbol: string, depth: int, api: ApiResponse, numeric: string -> real)
    requires api.success && depth >= 1
    ensures var book := GetItems(symbol, depth, api, numeric).body;
      var bid := if book.bids == [] then 0.0 else book.bids[0].price;
      var ask := if book.asks == [] then 0.0 else book.asks[0].price;
      book.spread == ask - bid &&
      (bid <= 0.0 ==> book.spreadPct == 0.0) &&
      (bid > 0.0 ==> book.spreadPct == Round4(SpreadPct(bid, ask))) &&
      (bid > 0.0 && ask >= bid ==> book.spreadPct >= 0.0)
  {
    var bids := Slice(ListField(api.data, "bids"), depth);
    var asks := Slice(ListField(api.data, "asks"), depth);
    var bid := BestPrice(bids, numeric);
    var ask := BestPrice(asks, numeric);
    if bid > 0.0 {
      assert (ask - bid) / bid * 100.0 == SpreadPct(bid, ask);
    }
  }

  /** With depth 0 both sides are empty, so the spread and its percentage are 0. */
  lemma ZeroDepthEmptyBook(symbol: string, api: ApiResponse, numeric: string -> real)
    requires api.success
    ensures var book := GetItems(symbol, 0, api, numeric).body;
      book.bids == [] && book.asks == [] && book.spread == 0.0 && book.spreadPct == 0.0
  {
  }
}
