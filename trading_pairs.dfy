/**
 * TradingPairsController: the symbols of all trading pairs as one sorted
 * list. Entries without a symbol are skipped; repeated symbols are kept.
 */
module TradingPairs {
  import opened Json
  import opened ApiResponses
  import opened Rest
  import opened Sorting

  /** `$pair['symbol'] ?? ''` (a symbol that is not a string counts as missing). */
  function SymbolOf(pair: Json): string {
    TextField(pair, "symbol", "")
  }

  /** The non-empty symbols of `data`, in the API's order. */
  function NonEmptySymbols(data: seq<Json>): (r: seq<string>)
    ensures |r| <= |data|
    ensures forall s :: s in r ==> s != ""
    ensures forall i :: 0 <= i < |data| && SymbolOf(data[i]) != "" ==> SymbolOf(data[i]) in r
  {
    if data == [] then []
    else
      var front := data[..|data| - 1];
      var rest := NonEmptySymbols(front);
      assert forall i :: 0 <= i < |data| - 1 ==> data[i] == front[i];
      var s := SymbolOf(data[|data| - 1]);
      if s != "" then rest + [s] else rest
  }

  /** Every symbol kept comes from an entry of `data`. */
  lemma {:induction false} NonEmptySymbolsFromData(data: seq<Json>, s: string)
    requires s in NonEmptySymbols(data)
    ensures exists i :: 0 <= i < |data| && SymbolOf(data[i]) == s
  {
    var front := data[..|data| - 1];
    if s in NonEmptySymbols(front) {
      NonEmptySymbolsFromData(front, s);
      var i :| 0 <= i < |front| && SymbolOf(front[i]) == s;
      assert data[i] == front[i];
    } else {
      assert SymbolOf(data[|data| - 1]) == s;
    }
  }

  /** extract_symbols($data): the foreach collecting non-empty symbols, then sort(). */
  method ExtractSymbols(data: seq<Json>) returns (symbols: seq<string>)
    ensures Sorted(symbols)
    ensures multiset(symbols) == multiset(NonEmptySymbols(data))
  {
    symbols := [];
    var i := 0;
    while i < |data|
      invariant 0 <= i <= |data|
      invariant symbols == NonEmptySymbols(data[..i])
    {
      assert data[..i + 1][..i] == data[..i];
      var symbol := SymbolOf(data[i]);
      if symbol != "" {
        symbols := symbols + [symbol];
      }
      i := i + 1;
    }
    assert data[..i] == data;
    symbols := SortStrings(symbols);
  }

  /**
   * The sorted list holds exactly the non-empty symbols of the entries, each
   * as often as it occurs, and is no longer than the input.
   */
  lemma ExtractedSymbols(data: seq<Json>, symbols: seq<string>)
    requires multiset(symbols) == multiset(NonEmptySymbols(data))
    ensures |symbols| <= |data|
    ensures forall s :: s in symbols <==> s != "" && exists i :: 0 <= i < |data| && SymbolOf(data[i]) == s
  {
    var kept := NonEmptySymbols(data);
    assert |symbols| == |multiset(symbols)| == |multiset(kept)| == |kept|;
    forall s ensures s in symbols <==> s != "" && exists i :: 0 <= i < |data| && SymbolOf(data[i]) == s {
      assert s in symbols <==> s in multiset(symbols);
      assert s in kept <==> s in multiset(kept);
      if s in kept {
        NonEmptySymbolsFromData(data, s);
      }
    }
  }

  /** get_items($request) with the trading-pairs call's response `api`. */
  method GetItems(api: ApiResponse) returns (r: RestResponse<seq<string>>)
    ensures !api.success ==> r == ErrorResponse(api.errorMessage)
    ensures api.success ==> r.Ok? && Sorted(r.body)
    ensures api.success ==> multiset(r.body) == multiset(NonEmptySymbols(Elements(api.data)))
  {
    if !api.success {
      return ErrorResponse(api.errorMessage);
    }
    var symbols := ExtractSymbols(Elements(api.data));
    return Ok(symbols);
  }
}
