/**
 * What the REST controllers share: the response shapes of the base
 * controller, PHP's array_slice from offset 0, the levels and the best
 * price of a book side, the spread and its percentage, and the base/quote split of a
 * symbol.
 */
module Rest {
  import opened Json
  import opened Strings

  /**
   * A WP_REST_Response: success_response($data) with status 200, or
   * error_response($message) with code 'xbo_error' and status 500.
   */
  datatype RestResponse<T> = Ok(body: T) | Failure(code: string, message: string, status: int)

  function ErrorResponse<T>(message: string): (r: RestResponse<T>)
    ensures r.Failure? && r.code == "xbo_error" && r.message == message && r.status == 500
  {
    Failure("xbo_error", message, 500)
  }

  /**
   * array_slice($a, 0, $length): the first `length` elements when length is
   * non-negative, otherwise all but the last -length.
   */
  function Slice<T>(s: seq<T>, length: int): (r: seq<T>)
    ensures length >= 0 ==> |r| == (if length < |s| then length else |s|)
    ensures length < 0 ==> |r| == (if |s| + length > 0 then |s| + length else 0)
    ensures r == s[..|r|]
  {
    if length >= 0 then (if length < |s| then s[..length] else s)
    else if |s| + length > 0 then s[..|s| + length] else []
  }

  /** One `[price, amount]` level after the `(float)` casts. */
  datatype Level = Level(price: real, size: real)

  function LevelOf(level: Json, numeric: string -> real): Level {
    Level(FloatOf(At(level, 0).GetOr(JNull), numeric), FloatOf(At(level, 1).GetOr(JNull), numeric))
  }

  /** A book side as foreach / array_map read it. */
  function Ladder(book: seq<Json>, numeric: string -> real): (r: seq<Level>)
    ensures |r| == |book|
    ensures forall i :: 0 <= i < |book| ==> r[i] == LevelOf(book[i], numeric)
  {
    seq(|book|, i requires 0 <= i < |book| => LevelOf(book[i], numeric))
  }

  /** `! empty($side) ? (float) $side[0][0] : 0.0` */
  function BestPrice(side: seq<Json>, numeric: string -> real): (r: real)
    ensures side == [] ==> r == 0.0
    ensures side != [] ==> r == FloatOf(At(side[0], 0).GetOr(JNull), numeric)
  {
    if side == [] then 0.0 else FloatOf(At(side[0], 0).GetOr(JNull), numeric)
  }

  /** `$best_bid > 0 ? $spread / $best_bid * 100 : 0`, before rounding. */
  function SpreadPct(bestBid: real, bestAsk: real): (r: real)
    ensures bestBid <= 0.0 ==> r == 0.0
    ensures bestBid > 0.0 ==> r * bestBid == (bestAsk - bestBid) * 100.0
    ensures bestBid > 0.0 ==> (r >= 0.0 <==> bestAsk >= bestBid)
  {
    if bestBid > 0.0 then (bestAsk - bestBid) / bestBid * 100.0 else 0.0
  }

  /** explode('/', $symbol)[0] and explode('/', $symbol)[1] ?? '' */
  datatype Pair = Pair(base: string, quote: string)

  function SplitSymbol(symbol: string): (p: Pair)
    ensures '/' !in p.base && '/' !in p.quote
    ensures '/' !in symbol ==> p == Pair(symbol, "")
    ensures p.base == Explode(symbol, '/')[0]
    ensures p.quote == (if |Explode(symbol, '/')| > 1 then Explode(symbol, '/')[1] else "")
  {
    var parts := Explode(symbol, '/');
    Pair(parts[0], if |parts| > 1 then parts[1] else "")
  }

  /** A symbol with exactly one slash splits into the text on either side of it. */
  lemma {:induction false} SplitSymbolOfPair(base: string, quote: string)
    requires '/' !in base && '/' !in quote
    ensures SplitSymbol(base + "/" + quote) == Pair(base, quote)
  {
    ExplodeOfPair(base, quote);
  }

  lemma {:induction false} ExplodeOfPair(base: string, quote: string)
    requires '/' !in base && '/' !in quote
    ensures Explode(base + "/" + quote, '/') == [base, quote]
  {
    if base == [] {
      assert base + "/" + quote == ['/'] + quote;
      assert (['/'] + quote)[1..] == quote;
    } else {
      ExplodeOfPair(base[1..], quote);
      var s := base + "/" + quote;
      assert s[1..] == base[1..] + "/" + quote;
      assert s[0] == base[0];
      assert [base[0]] + base[1..] == base;
    }
  }
}
