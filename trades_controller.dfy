/**
 * TradesController: the most recent trades of one pair, cut to the requested
 * limit and reshaped.
 */
module TradesController {
  import opened Wrappers
  import opened Json
  import opened ApiResponses
  import opened Rest
  import opened Strings

  /** One trade as the endpoint returns it; `id` and `timestamp` are passed through as the API sent them. */
  datatype Trade = Trade(id: Json, symbol: Json, side: string, price: real, amount: real, total: real, timestamp: Json)

  /**
   * The array_map closure that reshapes one trade of the requested pair: a
   * field the API sent (present and not null) is passed through, a missing
   * one takes its default ('' for id and timestamp, the requested symbol,
   * side "buy", amounts 0).
   */
  function Normalize(t: Json, symbol: string, numeric: string -> real): (r: Trade)
    ensures r.id == (if Get(t, "id").Some? then Get(t, "id").value else JStr(""))
    ensures r.symbol == (if Get(t, "symbol").Some? then Get(t, "symbol").value else JStr(symbol))
    ensures r.timestamp == (if Get(t, "timeStamp").Some? then Get(t, "timeStamp").value else JStr(""))
    ensures Get(t, "type").None? ==> r.side == "buy"
    ensures Get(t, "price").None? ==> r.price == 0.0
    ensures Get(t, "volume").None? ==> r.amount == 0.0
    ensures Get(t, "quoteVolume").None? ==> r.total == 0.0
  {
    Trade(Get(t, "id").GetOr(JStr("")),
          Get(t, "symbol").GetOr(JStr(symbol)),
          ToLower(TextField(t, "type", "buy")),
          FloatField(t, "price", numeric),
          FloatField(t, "volume", numeric),
          FloatField(t, "quoteVolume", numeric),
          Get(t, "timeStamp").GetOr(JStr("")))
  }

  /** get_items($request) with the requested symbol and limit and the trades call's response `api`. */
  function GetItems(symbol: string, limit: int, api: ApiResponse, numeric: string -> real): (r: RestResponse<seq<Trade>>)
    ensures !api.success ==> r == ErrorResponse(api.errorMessage)
    ensures api.success ==> r.Ok?
  {
    if !api.success then ErrorResponse(api.errorMessage)
    else
      var trades := Slice(Elements(api.data), limit);
      Ok(seq(|trades|, i requires 0 <= i < |trades| => Normalize(trades[i], symbol, numeric)))
  }

  /**
   * The body holds the API's first `limit` trades in the API's order (the
   * most recent first, as the API lists them), each reshaped.
   */
  lemma TradesAreFirstOfApi(symbol: string, limit: int, api: ApiResponse, numeric: string -> real)
    requires api.success && limit >= 0
    ensures var body := GetItems(symbol, limit, api, numeric).body;
      var trades := Elements(api.data);
      |body| == (if limit < |trades| then limit else |trades|) &&
      forall i :: 0 <= i < |body| ==> body[i] == Normalize(trades[i], symbol, numeric)
  {
    var trades := Elements(api.data);
    var cut := Slice(trades, limit);
    forall i | 0 <= i < |cut| ensures cut[i] == trades[i] { }
  }

  /** The side is always lower case, whatever case the API used; a trade without a type is a buy. */
  lemma SideIsLowerCase(t: Json, symbol: string, numeric: string -> real)
    ensures var side := Normalize(t, symbol, numeric).side;
      ToLower(side) == side &&
      (Get(t, "type").None? ==> side == "buy")
  {
    LowerIdempotent(TextField(t, "type", "buy"));
  }
}
