/**
 * PairCatalog: the data behind the pair dropdowns. Trading pairs are
 * grouped by base currency, each base's quotes deduplicated and sorted, the
 * bases sorted, and every currency that appears gets its icon URL.
 */
module PairCatalog {
  import opened Wrappers
  import opened Strings
  import opened Json
  import opened ApiResponses
  import opened Rest
  import opened Sorting
  import opened IconResolver

  /**
   * build()'s result: `pairsMap` with its keys in the order `bases`, and the
   * icon URL of every currency.
   */
  datatype Catalog = Catalog(bases: seq<string>, pairsMap: map<string, seq<string>>, icons: map<string, string>)

  /** `explode('/', $pair['symbol'] ?? '', 2)` when it gives two parts. */
  function SplitPair(pair: Json): (r: Option<Pair>)
    ensures r.Some? <==> '/' in TextField(pair, "symbol", "")
    ensures r.Some? ==> TextField(pair, "symbol", "") == r.value.base + "/" + r.value.quote && '/' !in r.value.base
  {
    var parts := ExplodeTwo(TextField(pair, "symbol", ""), '/');
    if |parts| == 2 then Some(Pair(parts[0], parts[1])) else None
  }

  /** A symbol is split at its first slash only: "A/B/C" has base "A" and quote "B/C". */
  lemma SplitAtFirstSlash(pair: Json, base: string, quote: string)
    requires TextField(pair, "symbol", "") == base + "/" + quote && '/' !in base
    ensures SplitPair(pair) == Some(Pair(base, quote))
  {
    ExplodeTwoAtFirst(base, quote, '/');
  }

  /** Every entry of the API's list, split. */
  function Splits(data: seq<Json>): (r: seq<Option<Pair>>)
    ensures |r| == |data| && forall i :: 0 <= i < |data| ==> r[i] == SplitPair(data[i])
  {
    seq(|data|, i requires 0 <= i < |data| => SplitPair(data[i]))
  }

  // ---------------------------------------------------------------------------
  // What the first loop builds from the first n split entries

  /** `$pairs_map` after n entries: each base's quotes in the API's order. */
  function Grouped(pairs: seq<Option<Pair>>, n: nat): (g: map<string, seq<string>>)
    requires n <= |pairs|
    ensures forall b :: b in g ==> g[b] != []
  {
    if n == 0 then map[]
    else
      var g := Grouped(pairs, n - 1);
      match pairs[n - 1]
      case None => g
      case Some(p) => g[p.base := (if p.base in g then g[p.base] else []) + [p.quote]]
  }

  /** The keys of `$pairs_map` after n entries, in insertion order. */
  function KeyOrder(pairs: seq<Option<Pair>>, n: nat): (order: seq<string>)
    requires n <= |pairs|
    ensures Distinct(order)
    ensures forall b :: b in order <==> b in Grouped(pairs, n)
  {
    if n == 0 then []
    else
      var order := KeyOrder(pairs, n - 1);
      match pairs[n - 1]
      case None => order
      case Some(p) => if p.base in order then order else order + [p.base]
  }

  /** The keys of `$symbols` after n entries: every base and every quote. */
  function Currencies(pairs: seq<Option<Pair>>, n: nat): set<string>
    requires n <= |pairs|
  {
    if n == 0 then {}
    else
      var s := Currencies(pairs, n - 1);
      match pairs[n - 1]
      case None => s
      case Some(p) => s + {p.base, p.quote}
  }

  /** One base's list after the second loop: array_unique, array_values, then sort(). */
  function Tidy(quotes: seq<string>): seq<string> {
    SortStrings(Dedupe(quotes))
  }

  /** A tidied list is strictly ascending and holds exactly the quotes it was made from. */
  lemma TidyShape(quotes: seq<string>)
    ensures StrictlySorted(Tidy(quotes))
    ensures forall q :: q in Tidy(quotes) <==> q in quotes
  {
    var unique := Dedupe(quotes);
    var r := SortStrings(unique);
    DistinctPermutation(unique, r);
    SortedDistinct(r);
    assert forall q :: q in r <==> q in multiset(r);
    assert forall q :: q in unique <==> q in multiset(unique);
  }

  // ---------------------------------------------------------------------------
  // build()

  /** build() over the trading-pairs response, the icon resolver and the set of files on disk. */
  method Build(api: ApiResponse, resolver: Resolver, files: set<string>) returns (c: Catalog)
    ensures !api.success ==> c == Catalog([], map[], map[])
    ensures api.success ==>
      var pairs := Splits(Elements(api.data));
      c.pairsMap.Keys == Grouped(pairs, |pairs|).Keys &&
      (forall b :: b in c.pairsMap ==> c.pairsMap[b] == Tidy(Grouped(pairs, |pairs|)[b])) &&
      Sorted(c.bases) && multiset(c.bases) == multiset(KeyOrder(pairs, |pairs|)) &&
      c.icons.Keys == Currencies(pairs, |pairs|) &&
      (forall s :: s in c.icons ==> c.icons[s] == Url(resolver, files, s))
  {
    if !api.success {
      return Catalog([], map[], map[]);
    }
    var grouped, order, symbols := GroupPairs(Elements(api.data));
    var pairsMap := TidyAll(grouped);
    var bases := SortStrings(order);
    var icons := ResolveIcons(symbols, resolver, files);
    c := Catalog(bases, pairsMap, icons);
  }

  /** The first loop: group quotes by base and collect every currency. */
  method GroupPairs(data: seq<Json>) returns (grouped: map<string, seq<string>>, order: seq<string>, symbols: set<string>)
    ensures var pairs := Splits(data);
      grouped == Grouped(pairs, |data|) && order == KeyOrder(pairs, |data|) && symbols == Currencies(pairs, |data|)
  {
    grouped, order, symbols := map[], [], {};
    var pairs := Splits(data);
    for i := 0 to |pairs|
      invariant grouped == Grouped(pairs, i)
      invariant order == KeyOrder(pairs, i)
      invariant symbols == Currencies(pairs, i)
    {
      GroupStep(pairs, i);
      grouped, order, symbols := AddPair(grouped, order, symbols, pairs[i]);
    }
  }

  /** The first loop's body for one split entry. */
  method AddPair(grouped: map<string, seq<string>>, order: seq<string>, symbols: set<string>, split: Option<Pair>)
    returns (grouped': map<string, seq<string>>, order': seq<string>, symbols': set<string>)
    ensures split.None? ==> grouped' == grouped && order' == order && symbols' == symbols
    ensures split.Some? ==>
      var b, q := split.value.base, split.value.quote;
      grouped' == grouped[b := (if b in grouped then grouped[b] else []) + [q]] &&
      order' == (if b in grouped then order else order + [b]) &&
      symbols' == symbols + {b, q}
  {
    grouped', order', symbols' := grouped, order, symbols;
    if split.None? {
      return;
    }
    var base, quote := split.value.base, split.value.quote;
    if base !in grouped' {
      order' := order' + [base];
    }
    grouped' := grouped'[base := (if base in grouped' then grouped'[base] else []) + [quote]];
    symbols' := symbols' + {base, quote};
  }

  /** One more entry: nothing changes when it does not split, else its pair is added. */
  lemma GroupStep(pairs: seq<Option<Pair>>, n: nat)
    requires n < |pairs|
    ensures pairs[n].None? ==>
      Grouped(pairs, n + 1) == Grouped(pairs, n) && KeyOrder(pairs, n + 1) == KeyOrder(pairs, n) &&
      Currencies(pairs, n + 1) == Currencies(pairs, n)
    ensures pairs[n].Some? ==>
      var b, q, g := pairs[n].value.base, pairs[n].value.quote, Grouped(pairs, n);
      Grouped(pairs, n + 1) == g[b := (if b in g then g[b] else []) + [q]] &&
      KeyOrder(pairs, n + 1) == (if b in g then KeyOrder(pairs, n) else KeyOrder(pairs, n) + [b]) &&
      Currencies(pairs, n + 1) == Currencies(pairs, n) + {b, q}
  {
  }

  /** The second loop: each base's quotes made unique and sorted, in place. */
  method TidyAll(grouped: map<string, seq<string>>) returns (pairsMap: map<string, seq<string>>)
    ensures pairsMap.Keys == grouped.Keys
    ensures forall b :: b in pairsMap ==> pairsMap[b] == Tidy(grouped[b])
  {
    pairsMap := grouped;
    var rest := grouped.Keys;
    while rest != {}
      invariant rest <= grouped.Keys && pairsMap.Keys == grouped.Keys
      invariant forall b :: b in pairsMap ==> pairsMap[b] == (if b in rest then grouped[b] else Tidy(grouped[b]))
      decreases |rest|
    {
      var base :| base in rest;
      pairsMap := pairsMap[base := Tidy(pairsMap[base])];
      rest := rest - {base};
    }
  }

  /** The third loop: one icon URL per currency. */
  method ResolveIcons(symbols: set<string>, resolver: Resolver, files: set<string>) returns (icons: map<string, string>)
    ensures icons.Keys == symbols
    ensures forall s :: s in icons ==> icons[s] == Url(resolver, files, s)
  {
    icons := map[];
    var rest := symbols;
    while rest != {}
      invariant rest <= symbols && icons.Keys == symbols - rest
      invariant forall s :: s in icons ==> icons[s] == Url(resolver, files, s)
      decreases |rest|
    {
      var s :| s in rest;
      icons := icons[s := Url(resolver, files, s)];
      rest := rest - {s};
    }
  }

  // ---------------------------------------------------------------------------
  // Properties of the catalog

  /** A quote is listed under a base exactly when one of the first n entries splits into that base and quote. */
  lemma {:induction false} GroupedFromPairs(pairs: seq<Option<Pair>>, n: nat, base: string, quote: string)
    requires n <= |pairs|
    ensures base in Grouped(pairs, n) && quote in Grouped(pairs, n)[base] <==>
      exists i :: 0 <= i < n && pairs[i] == Some(Pair(base, quote))
  {
    if n > 0 {
      GroupedFromPairs(pairs, n - 1, base, quote);
      var g := Grouped(pairs, n - 1);
      match pairs[n - 1]
      case None =>
      case Some(p) =>
        var G := Grouped(pairs, n);
        if p.base == base {
          var before := if base in g then g[base] else [];
          assert G[base] == before + [p.quote];
          assert quote in G[base] <==> quote in before || quote == p.quote;
        } else {
          assert base in G <==> base in g;
        }
    }
  }

  /** A currency gets an icon exactly when it is the base or the quote of one of the first n entries. */
  lemma {:induction false} CurrenciesFromPairs(pairs: seq<Option<Pair>>, n: nat, s: string)
    requires n <= |pairs|
    ensures s in Currencies(pairs, n) <==>
      exists i :: 0 <= i < n && pairs[i].Some? && (pairs[i].value.base == s || pairs[i].value.quote == s)
  {
    if n > 0 {
      CurrenciesFromPairs(pairs, n - 1, s);
    }
  }

  /**
   * In a successful catalog the bases are in strictly ascending order and are
   * exactly the keys of the map; every base maps to a non-empty, strictly
   * ascending list whose members are the quotes the API paired with it.
   */
  lemma CatalogShape(pairs: seq<Option<Pair>>, bases: seq<string>, pairsMap: map<string, seq<string>>)
    requires pairsMap.Keys == Grouped(pairs, |pairs|).Keys
    requires forall b :: b in pairsMap ==> pairsMap[b] == Tidy(Grouped(pairs, |pairs|)[b])
    requires Sorted(bases) && multiset(bases) == multiset(KeyOrder(pairs, |pairs|))
    ensures StrictlySorted(bases)
    ensures forall b :: b in bases <==> b in pairsMap
    ensures forall b :: b in pairsMap ==> pairsMap[b] != [] && StrictlySorted(pairsMap[b])
    ensures forall b, q :: b in pairsMap ==>
      (q in pairsMap[b] <==> exists i :: 0 <= i < |pairs| && pairs[i] == Some(Pair(b, q)))
  {
    BasesShape(pairs, bases, pairsMap.Keys);
    forall b | b in pairsMap
      ensures pairsMap[b] != [] && StrictlySorted(pairsMap[b])
      ensures forall q :: q in pairsMap[b] <==> exists i :: 0 <= i < |pairs| && pairs[i] == Some(Pair(b, q))
    {
      QuotesShape(pairs, b);
    }
  }

  /** The sorted bases are strictly ascending and are exactly the keys of the grouping. */
  lemma BasesShape(pairs: seq<Option<Pair>>, bases: seq<string>, keys: set<string>)
    requires keys == Grouped(pairs, |pairs|).Keys
    requires Sorted(bases) && multiset(bases) == multiset(KeyOrder(pairs, |pairs|))
    ensures StrictlySorted(bases)
    ensures forall b :: b in bases <==> b in keys
  {
    var order := KeyOrder(pairs, |pairs|);
    DistinctPermutation(order, bases);
    SortedDistinct(bases);
    forall b ensures b in bases <==> b in keys {
      assert b in bases <==> b in multiset(bases);
      assert b in order <==> b in multiset(order);
    }
  }

  /** One base's tidied list is non-empty, strictly ascending, and holds exactly the quotes paired with the base. */
  lemma QuotesShape(pairs: seq<Option<Pair>>, b: string)
    requires b in Grouped(pairs, |pairs|)
    ensures var t := Tidy(Grouped(pairs, |pairs|)[b]);
      t != [] && StrictlySorted(t) &&
      forall q :: q in t <==> exists i :: 0 <= i < |pairs| && pairs[i] == Some(Pair(b, q))
  {
    var g := Grouped(pairs, |pairs|)[b];
    TidyShape(g);
    assert g[0] in g;
    forall q ensures q in g <==> exists i :: 0 <= i < |pairs| && pairs[i] == Some(Pair(b, q)) {
      GroupedFromPairs(pairs, |pairs|, b, q);
    }
  }
}
