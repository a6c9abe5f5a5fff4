/**
 * TickerController: the stats of the requested trading pairs. The request
 * names the pairs as a comma-separated list; the endpoint keeps the API's
 * items for those pairs, in the API's order, and reshapes each.
 */
module TickerController {
  import opened Wrappers
  import opened Json
  import opened ApiResponses
  import opened Rest
  import opened Strings

  /** One ticker item as the endpoint returns it. */
  datatype TickerItem = TickerItem(symbol: string, base: string, quote: string,
                                   lastPrice: real, changePct: real, high: real, low: real,
                                   volume: real, highestBid: real, lowestAsk: real)

  /** `array_map('trim', explode(',', $symbols_raw))` */
  function ParseSymbols(raw: string): (r: seq<string>)
    ensures |r| == |Explode(raw, ',')| >= 1
    ensures forall i :: 0 <= i < |r| ==> r[i] == Trim(Explode(raw, ',')[i], IsPhpSpace)
  {
    var parts := Explode(raw, ',');
    seq(|parts|, i requires 0 <= i < |parts| => Trim(parts[i], IsPhpSpace))
  }

  /** A list of pairs, each without commas or edge white space, is read back from its comma-joined form. */
  lemma ParseJoinedSymbols(symbols: seq<string>)
    requires |symbols| >= 1
    requires forall i :: 0 <= i < |symbols| ==>
      ',' !in symbols[i] && (symbols[i] == [] || (!IsPhpSpace(symbols[i][0]) && !IsPhpSpace(symbols[i][|symbols[i]| - 1])))
    ensures ParseSymbols(Join(symbols, ',')) == symbols
  {
    ExplodeJoin(symbols, ',');
    forall i | 0 <= i < |symbols| ensures Trim(symbols[i], IsPhpSpace) == symbols[i] {
      TrimUntrimmed(symbols[i], IsPhpSpace);
    }
  }

  /**
   * `in_array($item['symbol'] ?? '', $symbols, true)`: an item without a
   * symbol is compared as '', and a symbol that is not a string matches
   * nothing under the strict comparison.
   */
  predicate Requested(item: Json, symbols: seq<string>) {
    match Get(item, "symbol")
    case None => "" in symbols
    case Some(JStr(s)) => s in symbols
    case Some(_) => false
  }

  /** array_values(array_filter(...)): the requested items in API order. */
  function Selected(items: seq<Json>, symbols: seq<string>): (r: seq<Json>)
    ensures forall x :: x in r <==> x in items && Requested(x, symbols)
    ensures |r| <= |items|
  {
    if items == [] then []
    else
      var rest := Selected(items[1..], symbols);
      assert forall x :: x in items <==> x == items[0] || x in items[1..];
      if Requested(items[0], symbols) then [items[0]] + rest else rest
  }

  /** Only the set of requested pairs matters: repeating or reordering them changes nothing. */
  lemma {:induction false} SelectedBySet(items: seq<Json>, s1: seq<string>, s2: seq<string>)
    requires forall x :: x in s1 <==> x in s2
    ensures Selected(items, s1) == Selected(items, s2)
  {
    if items != [] {
      SelectedBySet(items[1..], s1, s2);
      assert Requested(items[0], s1) == Requested(items[0], s2);
    }
  }

  /** Selection keeps each item at most as often as the API sent it, in the API's order. */
  lemma {:induction false} SelectedIsSubsequence(items: seq<Json>, symbols: seq<string>)
    ensures multiset(Selected(items, symbols)) <= multiset(items)
  {
    if items != [] {
      SelectedIsSubsequence(items[1..], symbols);
      assert items == [items[0]] + items[1..];
    }
  }

  /** normalize_item($item) */
  function NormalizeItem(item: Json, numeric: string -> real): (t: TickerItem)
    ensures t.symbol == TextField(item, "symbol", "")
    ensures Pair(t.base, t.quote) == SplitSymbol(t.symbol)
    ensures Get(item, "lastPrice").None? ==> t.lastPrice == 0.0
    ensures Get(item, "priceChangePercent24H").None? ==> t.changePct == 0.0
    ensures Get(item, "highestPrice24H").None? ==> t.high == 0.0
    ensures Get(item, "lowestPrice24H").None? ==> t.low == 0.0
    ensures Get(item, "quoteVolume").None? ==> t.volume == 0.0
    ensures Get(item, "highestBid").None? ==> t.highestBid == 0.0
    ensures Get(item, "lowestAsk").None? ==> t.lowestAsk == 0.0
  {
    var symbol := TextField(item, "symbol", "");
    var pair := SplitSymbol(symbol);
    TickerItem(symbol, pair.base, pair.quote,
               FloatField(item, "lastPrice", numeric),
               FloatField(item, "priceChangePercent24H", numeric),
               FloatField(item, "highestPrice24H", numeric),
               FloatField(item, "lowestPrice24H", numeric),
               FloatField(item, "quoteVolume", numeric),
               FloatField(item, "highestBid", numeric),
               FloatField(item, "lowestAsk", numeric))
  }

  /** get_items($request) with the raw `symbols` parameter and the stats call's response `api`. */
  function GetItems(symbolsRaw: string, api: ApiResponse, numeric: string -> real): (r: RestResponse<seq<TickerItem>>)
    ensures !api.success ==> r == ErrorResponse(api.errorMessage)
    ensures api.success ==> r.Ok?
    ensures api.success ==>
      var selected := Selected(Elements(api.data), ParseSymbols(symbolsRaw));
      |r.body| == |selected| && forall i :: 0 <= i < |selected| ==> r.body[i] == NormalizeItem(selected[i], numeric)
  {
    if !api.success then ErrorResponse(api.errorMessage)
    else
      var selected := Selected(Elements(api.data), ParseSymbols(symbolsRaw));
      Ok(seq(|selected|, i requires 0 <= i < |selected| => NormalizeItem(selected[i], numeric)))
  }

  /** Every item returned is one the request named. */
  lemma TickerReturnsRequested(symbolsRaw: string, api: ApiResponse, numeric: string -> real)
    requires api.success
    ensures var body := GetItems(symbolsRaw, api, numeric).body;
      forall i :: 0 <= i < |body| ==> body[i].symbol in ParseSymbols(symbolsRaw)
  {
    var symbols := ParseSymbols(symbolsRaw);
    var selected := Selected(Elements(api.data), symbols);
    forall i | 0 <= i < |selected| ensures NormalizeItem(selected[i], numeric).symbol in symbols {
      assert selected[i] in selected;
    }
  }
}
