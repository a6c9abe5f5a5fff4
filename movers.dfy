/**
 * MoversController: the top movers of the last 24 hours. Pairs without a
 * change figure are dropped, the rest are ranked by change (largest first
 * for gainers, smallest first otherwise), cut to the limit and reshaped.
 */
module Movers {
  import opened Wrappers
  import opened Json
  import opened ApiResponses
  import opened Rest
  import opened Sorting

  const CHANGE_KEY: string := "priceChangePercent24H"

  /** One mover as the endpoint returns it. */
  datatype Mover = Mover(symbol: string, base: string, quote: string,
                         lastPrice: real, changePct: real, volume: real)

  /** `isset($item['priceChangePercent24H']) && '' !== $item['priceChangePercent24H']` */
  predicate HasChange(item: Json) {
    Get(item, CHANGE_KEY).Some? && Get(item, CHANGE_KEY).value != JStr("")
  }

  /** array_filter with HasChange, keeping order. */
  function WithChange(items: seq<Json>): (r: seq<Json>)
    ensures forall x :: x in r <==> x in items && HasChange(x)
    ensures |r| <= |items|
  {
    if items == [] then []
    else
      var rest := WithChange(items[1..]);
      assert forall x :: x in items <==> x == items[0] || x in items[1..];
      if HasChange(items[0]) then [items[0]] + rest else rest
  }

  /** The sort key: `(float) $item['priceChangePercent24H']`. */
  function ChangeKey(numeric: string -> real): Json -> real {
    item => FloatField(item, CHANGE_KEY, numeric)
  }

  /** The ranking before the limit is applied: a stable sort on the change, descending iff the mode is 'gainers'. */
  function Ranked(mode: string, items: seq<Json>, numeric: string -> real): seq<Json> {
    StableSortBy(WithChange(items), ChangeKey(numeric), mode == "gainers")
  }

  /** The array_map closure that reshapes one item. */
  function Normalize(item: Json, numeric: string -> real): (m: Mover)
    ensures m.changePct == ChangeKey(numeric)(item)
    ensures SplitSymbol(m.symbol) == Pair(m.base, m.quote)
  {
    var symbol := TextField(item, "symbol", "");
    var pair := SplitSymbol(symbol);
    Mover(symbol, pair.base, pair.quote,
          FloatField(item, "lastPrice", numeric),
          FloatField(item, CHANGE_KEY, numeric),
          FloatField(item, "quoteVolume", numeric))
  }

  function NormalizeAll(items: seq<Json>, numeric: string -> real): (r: seq<Mover>)
    ensures |r| == |items|
    ensures forall i :: 0 <= i < |items| ==> r[i] == Normalize(items[i], numeric)
  {
    seq(|items|, i requires 0 <= i < |items| => Normalize(items[i], numeric))
  }

  /** get_items($request) with the stats call's response `api`. */
  function GetItems(mode: string, limit: int, api: ApiResponse, numeric: string -> real): (r: RestResponse<seq<Mover>>)
    ensures !api.success ==> r == ErrorResponse(api.errorMessage)
    ensures api.success ==>
      r.Ok? && r.body == NormalizeAll(Slice(Ranked(mode, Elements(api.data), numeric), limit), numeric)
  {
    if !api.success then ErrorResponse(api.errorMessage)
    else
      var items := Ranked(mode, Elements(api.data), numeric);
      Ok(NormalizeAll(Slice(items, limit), numeric))
  }

  // ---------------------------------------------------------------------------
  // Properties

  /** `m` is the reshaping of one of `items` that has a change figure. */
  predicate FromItem(m: Mover, items: seq<Json>, numeric: string -> real) {
    exists x :: x in items && HasChange(x) && m == Normalize(x, numeric)
  }

  /**
   * Gainers come largest change first, any other mode smallest change first;
   * every mover comes from an item with a change figure; there are at most
   * `limit` of them.
   */
  lemma MoversRanked(mode: string, limit: int, api: ApiResponse, numeric: string -> real)
    requires api.success && limit >= 0
    ensures var movers := GetItems(mode, limit, api, numeric).body;
      |movers| <= limit &&
      (forall i :: 0 <= i < |movers| ==> FromItem(movers[i], Elements(api.data), numeric)) &&
      (mode == "gainers" ==> forall i, j :: 0 <= i < j < |movers| ==> movers[i].changePct >= movers[j].changePct) &&
      (mode != "gainers" ==> forall i, j :: 0 <= i < j < |movers| ==> movers[i].changePct <= movers[j].changePct)
  {
    var ranked := Ranked(mode, Elements(api.data), numeric);
    var top := Slice(ranked, limit);
    var movers := NormalizeAll(top, numeric);
    assert GetItems(mode, limit, api, numeric).body == movers;
    RankedIsPermutation(mode, Elements(api.data), numeric);
    forall i | 0 <= i < |movers| ensures FromItem(movers[i], Elements(api.data), numeric) {
      var x := ranked[i];
      assert top[i] == x && x in ranked;
      assert x in Elements(api.data) && HasChange(x) && movers[i] == Normalize(x, numeric);
    }
    assert SortedBy(top, ChangeKey(numeric), mode == "gainers") by {
      forall i, j | 0 <= i < j < |top| ensures !Before(ChangeKey(numeric), mode == "gainers", top[j], top[i]) {
        assert top[i] == ranked[i] && top[j] == ranked[j];
      }
    }
    NormalizedInOrder(top, numeric, mode == "gainers");
  }

  /** Reshaping keeps the order of the change figures. */
  lemma NormalizedInOrder(top: seq<Json>, numeric: string -> real, desc: bool)
    requires SortedBy(top, ChangeKey(numeric), desc)
    ensures var movers := NormalizeAll(top, numeric);
      (desc ==> forall i, j :: 0 <= i < j < |movers| ==> movers[i].changePct >= movers[j].changePct) &&
      (!desc ==> forall i, j :: 0 <= i < j < |movers| ==> movers[i].changePct <= movers[j].changePct)
  {
    var movers := NormalizeAll(top, numeric);
    forall i, j | 0 <= i < j < |movers|
      ensures desc ==> movers[i].changePct >= movers[j].changePct
      ensures !desc ==> movers[i].changePct <= movers[j].changePct
    {
      assert !Before(ChangeKey(numeric), desc, top[j], top[i]);
    }
  }

  /** Nothing with a change figure is lost before the cut: the ranking is a permutation of the filtered items. */
  lemma RankedIsPermutation(mode: string, items: seq<Json>, numeric: string -> real)
    ensures multiset(Ranked(mode, items, numeric)) == multiset(WithChange(items))
    ensures forall x :: x in Ranked(mode, items, numeric) <==> x in items && HasChange(x)
  {
    var r := Ranked(mode, items, numeric);
    forall x ensures x in r <==> x in WithChange(items) {
      assert x in r <==> x in multiset(r);
    }
  }

  /** Items with equal change keep their order from the API (PHP 8's usort is stable). */
  lemma TiesKeepApiOrder(mode: string, items: seq<Json>, numeric: string -> real, k: real)
    ensures WithKey(Ranked(mode, items, numeric), ChangeKey(numeric), k) == WithKey(WithChange(items), ChangeKey(numeric), k)
  {
    StableSortByStable(WithChange(items), ChangeKey(numeric), mode == "gainers", k);
  }
}
