/**
 * SlippageController: estimates the execution of a market order by walking
 * one side of the order book best level first, filling as much as each
 * level offers until the requested amount is filled or the book runs out.
 */
module Slippage {
  import opened Wrappers
  import opened Json
  import opened ApiResponses
  import opened Rest
  import opened Numeric

  /** What the walk has bought: the total cost and the amount filled. */
  datatype Fill = Fill(cost: real, used: real)

  /**
   * The walk from `remaining` over `book`: each level fills
   * min(remaining, size) at its own price, and once nothing remains the
   * later levels contribute nothing.
   */
  function Walk(book: seq<Level>, remaining: real): Fill
  {
    if book == [] || remaining <= 0.0 then Fill(0.0, 0.0)
    else
      var fill := Min(remaining, book[0].size);
      var rest := Walk(book[1..], remaining - fill);
      Fill(fill * book[0].price + rest.cost, fill + rest.used)
  }

  /** How many levels the walk fills from before it stops. */
  function Consumed(book: seq<Level>, remaining: real): (n: nat)
    ensures n <= |book|
  {
    if book == [] || remaining <= 0.0 then 0
    else 1 + Consumed(book[1..], remaining - Min(remaining, book[0].size))
  }

  /** Sum of the sizes of the levels. */
  function TotalSize(book: seq<Level>): real {
    if book == [] then 0.0 else book[0].size + TotalSize(book[1..])
  }

  predicate NonNegativeSizes(book: seq<Level>) {
    forall i :: 0 <= i < |book| ==> book[i].size >= 0.0
  }

  /** The five figures calculate_slippage reports, before rounding. */
  datatype Estimate = Estimate(avgPrice: real, bestPrice: real, slippagePct: real, depthUsed: real, totalCost: real)

  const NoEstimate: Estimate := Estimate(0.0, 0.0, 0.0, 0.0, 0.0)

  /**
   * The figures reported for a walk `w` whose best level is priced `best`:
   * the average price paid and how far it lies from the best price, in percent.
   */
  function Summarize(best: real, w: Fill): (e: Estimate)
    ensures e.bestPrice == best && e.depthUsed == w.used && e.totalCost == w.cost
    ensures e.slippagePct >= 0.0
    ensures w.used > 0.0 ==> e.avgPrice * w.used == w.cost
    ensures w.used <= 0.0 ==> e.avgPrice == 0.0
    ensures best <= 0.0 ==> e.slippagePct == 0.0
  {
    var avg := if w.used > 0.0 then w.cost / w.used else 0.0;
    var slippage := if best > 0.0 then Abs(avg - best) / best * 100.0 else 0.0;
    Estimate(avg, best, slippage, w.used, w.cost)
  }

  /** The specification of calculate_slippage. */
  function Expected(book: seq<Level>, amount: real): (e: Estimate)
    ensures book == [] || amount <= 0.0 ==> e == NoEstimate
    ensures book != [] && amount > 0.0 ==> e == Summarize(book[0].price, Walk(book, amount))
  {
    if book == [] || amount <= 0.0 then NoEstimate
    else Summarize(book[0].price, Walk(book, amount))
  }

  /** The walk over the levels from index `i` on. */
  function WalkFrom(book: seq<Level>, i: nat, remaining: real): Fill
    requires i <= |book|
    decreases |book| - i
  {
    if i == |book| || remaining <= 0.0 then Fill(0.0, 0.0)
    else
      var fill := Min(remaining, book[i].size);
      var rest := WalkFrom(book, i + 1, remaining - fill);
      Fill(fill * book[i].price + rest.cost, fill + rest.used)
  }

  /** Walking from index `i` is walking the levels after the first `i`. */
  lemma {:induction false} WalkFromIsWalk(book: seq<Level>, i: nat, remaining: real)
    requires i <= |book|
    ensures WalkFrom(book, i, remaining) == Walk(book[i..], remaining)
    decreases |book| - i
  {
    if i < |book| && remaining > 0.0 {
      WalkFromIsWalk(book, i + 1, remaining - Min(remaining, book[i].size));
      assert book[i..][1..] == book[i + 1..];
    }
  }

  /** calculate_slippage($book, $amount) */
  method CalculateSlippage(book: seq<Level>, amount: real) returns (e: Estimate)
    ensures e == Expected(book, amount)
  {
    if book == [] || amount <= 0.0 {
      return NoEstimate;
    }
    var bestPrice := book[0].price;
    var totalCost, depthUsed, remaining := WalkLevels(book, amount);
    var filled := amount - remaining;
    var avgPrice := if filled > 0.0 then totalCost / filled else 0.0;
    var slippage := if bestPrice > 0.0 then Abs(avgPrice - bestPrice) / bestPrice * 100.0 else 0.0;
    e := Estimate(avgPrice, bestPrice, slippage, depthUsed, totalCost);
  }

  /** The foreach of calculate_slippage: fill from each level until nothing remains. */
  method WalkLevels(book: seq<Level>, amount: real) returns (totalCost: real, depthUsed: real, remaining: real)
    ensures Fill(totalCost, depthUsed) == Walk(book, amount)
    ensures depthUsed + remaining == amount
  {
    remaining := amount;
    totalCost := 0.0;
    depthUsed := 0.0;
    ghost var whole := WalkFrom(book, 0, amount);
    var i := 0;
    while i < |book|
      invariant 0 <= i <= |book|
      invariant depthUsed + remaining == amount
      invariant whole.cost == totalCost + WalkFrom(book, i, remaining).cost
      invariant whole.used == depthUsed + WalkFrom(book, i, remaining).used
    {
      var level := book[i];
      if remaining <= 0.0 {
        break;
      }
      var fill := Min(remaining, level.size);
      totalCost := totalCost + fill * level.price;
      depthUsed := depthUsed + fill;
      remaining := remaining - fill;
      i := i + 1;
    }
    WalkFromStart(book, amount);
  }

  /** Walking from index 0 is the whole walk. */
  lemma WalkFromStart(book: seq<Level>, amount: real)
    ensures WalkFrom(book, 0, amount) == Walk(book, amount)
  {
    WalkFromIsWalk(book, 0, amount);
    assert book[0..] == book;
  }

  /**
   * With non-negative sizes the walk fills min(remaining, total size):
   * the whole request when the book is deep enough, the whole book otherwise.
   */
  lemma {:induction false} WalkFills(book: seq<Level>, remaining: real)
    requires NonNegativeSizes(book) && remaining >= 0.0
    ensures Walk(book, remaining).used == Min(remaining, TotalSize(book))
    ensures 0.0 <= Walk(book, remaining).used <= remaining
  {
    if book == [] {
    } else if remaining <= 0.0 {
      TotalSizeNonNegative(book);
    } else {
      var fill := Min(remaining, book[0].size);
      assert NonNegativeSizes(book[1..]) by {
        forall i | 0 <= i < |book[1..]| ensures book[1..][i].size >= 0.0 {
          assert book[1..][i] == book[i + 1];
        }
      }
      WalkFills(book[1..], remaining - fill);
      TotalSizeNonNegative(book[1..]);
    }
  }

  lemma {:induction false} TotalSizeNonNegative(book: seq<Level>)
    requires NonNegativeSizes(book)
    ensures TotalSize(book) >= 0.0
  {
    if book != [] {
      assert NonNegativeSizes(book[1..]) by {
        forall i | 0 <= i < |book[1..]| ensures book[1..][i].size >= 0.0 {
          assert book[1..][i] == book[i + 1];
        }
      }
      TotalSizeNonNegative(book[1..]);
    }
  }

  /** Every unit of `f` was bought at a price in [lo, hi]. */
  predicate PricedWithin(f: Fill, lo: real, hi: real) {
    lo * f.used <= f.cost <= hi * f.used
  }

  /**
   * With non-negative sizes, every unit bought is priced within the range of
   * the levels the walk fills from: lo·used <= cost <= hi·used.
   */
  lemma {:induction false} WalkCostBounds(book: seq<Level>, remaining: real, lo: real, hi: real)
    requires NonNegativeSizes(book)
    requires forall i :: 0 <= i < Consumed(book, remaining) ==> lo <= book[i].price <= hi
    ensures PricedWithin(Walk(book, remaining), lo, hi)
  {
    if book == [] || remaining <= 0.0 {
      assert Walk(book, remaining) == Fill(0.0, 0.0);
    } else {
      var fill := Min(remaining, book[0].size);
      TailKeepsBounds(book, remaining, lo, hi);
      WalkCostBounds(book[1..], remaining - fill, lo, hi);
      WalkStepBounds(book, remaining, lo, hi);
    }
  }

  /** The inductive step of WalkCostBounds: the first level's fill joins a tail walk priced within [lo, hi]. */
  lemma WalkStepBounds(book: seq<Level>, remaining: real, lo: real, hi: real)
    requires book != [] && remaining > 0.0 && book[0].size >= 0.0 && lo <= book[0].price <= hi
    requires PricedWithin(Walk(book[1..], remaining - Min(remaining, book[0].size)), lo, hi)
    ensures PricedWithin(Walk(book, remaining), lo, hi)
  {
    var fill := Min(remaining, book[0].size);
    var w := Walk(book[1..], remaining - fill);
    StepBounds(fill, book[0].price, w, lo, hi);
    assert Walk(book, remaining) == Fill(fill * book[0].price + w.cost, fill + w.used);
  }

  /** The walk's tail meets the hypotheses of WalkCostBounds, and the first fill is non-negative. */
  lemma TailKeepsBounds(book: seq<Level>, remaining: real, lo: real, hi: real)
    requires book != [] && remaining > 0.0
    requires NonNegativeSizes(book)
    requires forall i :: 0 <= i < Consumed(book, remaining) ==> lo <= book[i].price <= hi
    ensures NonNegativeSizes(book[1..])
    ensures forall i :: 0 <= i < Consumed(book[1..], remaining - Min(remaining, book[0].size)) ==> lo <= book[1..][i].price <= hi
    ensures Min(remaining, book[0].size) >= 0.0 && lo <= book[0].price <= hi
  {
    var rest := book[1..];
    forall i | 0 <= i < |rest| ensures rest[i].size >= 0.0 {
      assert rest[i] == book[i + 1];
    }
    forall i | 0 <= i < Consumed(rest, remaining - Min(remaining, book[0].size)) ensures lo <= rest[i].price <= hi {
      assert rest[i] == book[i + 1];
    }
  }

  /** One more level: `fill` ≥ 0 units at a price p in [lo, hi] added to a walk priced within [lo, hi]. */
  lemma StepBounds(fill: real, p: real, w: Fill, lo: real, hi: real)
    requires fill >= 0.0 && lo <= p <= hi
    requires PricedWithin(w, lo, hi)
    ensures PricedWithin(Fill(fill * p + w.cost, fill + w.used), lo, hi)
  {
    ScaleLe(lo, p, fill);
    ScaleLe(p, hi, fill);
    assert lo * (fill + w.used) == lo * fill + lo * w.used;
    assert hi * (fill + w.used) == hi * fill + hi * w.used;
    assert fill * p == p * fill;
  }


  /**
   * The average price lies between the lowest and the highest price of the
   * levels filled from.
   */
  lemma AveragePriceWithinLevels(book: seq<Level>, amount: real, lo: real, hi: real)
    requires NonNegativeSizes(book) && amount > 0.0
    requires forall i :: 0 <= i < Consumed(book, amount) ==> lo <= book[i].price <= hi
    requires Expected(book, amount).depthUsed > 0.0
    ensures lo <= Expected(book, amount).avgPrice <= hi
  {
    assert book != [];
    WalkCostBounds(book, amount, lo, hi);
    AverageWithinBounds(book[0].price, Walk(book, amount), lo, hi);
  }

  /** A walk priced within [lo, hi] averages within [lo, hi]. */
  lemma AverageWithinBounds(best: real, w: Fill, lo: real, hi: real)
    requires w.used > 0.0 && PricedWithin(w, lo, hi)
    ensures lo <= Summarize(best, w).avgPrice <= hi
  {
    QuotientBounds(w.cost, w.used, Summarize(best, w).avgPrice, lo, hi);
  }

  /** With non-negative sizes the amount filled is the request, or the whole book when it is shallower. */
  lemma DepthUsedIsMin(book: seq<Level>, amount: real)
    requires NonNegativeSizes(book) && amount > 0.0
    ensures Expected(book, amount).depthUsed == Min(amount, TotalSize(book))
  {
    if book != [] {
      WalkFills(book, amount);
    }
  }

  lemma QuotientBounds(cost: real, used: real, avg: real, lo: real, hi: real)
    requires used > 0.0 && avg * used == cost
    requires lo * used <= cost <= hi * used
    ensures lo <= avg <= hi
  {
    if avg < lo {
      ScaleLt(avg, lo, used);
    }
    if avg > hi {
      ScaleLt(hi, avg, used);
    }
  }


  /** When the best level alone covers the amount, the order fills there entirely and slippage is 0. */
  lemma FirstLevelCovers(book: seq<Level>, amount: real)
    requires book != [] && 0.0 < amount <= book[0].size
    ensures Expected(book, amount).depthUsed == amount
    ensures Expected(book, amount).totalCost == amount * book[0].price
    ensures Expected(book, amount).avgPrice == book[0].price
    ensures Expected(book, amount).slippagePct == 0.0
  {
    assert Walk(book[1..], 0.0) == Fill(0.0, 0.0);
  }

  /** Five at 100, five at 101 and five at 102, buying 10: a cost of 1005 at an average of 100.5; the third level is untouched. */
  lemma MultiLevelExample()
    ensures Expected([Level(100.0, 5.0), Level(101.0, 5.0), Level(102.0, 5.0)], 10.0) == Estimate(100.5, 100.0, 0.5, 10.0, 1005.0)
  {
    var book := [Level(100.0, 5.0), Level(101.0, 5.0), Level(102.0, 5.0)];
    assert book[1..] == [Level(101.0, 5.0), Level(102.0, 5.0)];
    assert book[1..][1..] == [Level(102.0, 5.0)];
    assert Walk(book[1..][1..], 0.0) == Fill(0.0, 0.0);
  }

  /** Insufficient liquidity under-fills: one level of 2 at 100 fills 2 of the 5 asked for, at a cost of 200. */
  lemma ShallowBookExample()
    ensures Expected([Level(100.0, 2.0)], 5.0).depthUsed == 2.0
    ensures Expected([Level(100.0, 2.0)], 5.0).totalCost == 200.0
  {
    assert [Level(100.0, 2.0)][1..] == [];
  }

  /** The response get_items builds from a successful order-book fetch, before rounding. */
  datatype Report = Report(symbol: string, side: string, amount: real,
                           avgPrice: real, bestPrice: real, slippagePct: real,
                           spread: real, spreadPct: real, depthUsed: real, totalCost: real)

  /** `buy` walks the asks; any other side walks the bids. */
  function BookFor(data: Json, side: string): (book: seq<Json>)
    ensures book == ListField(data, if side == "buy" then "asks" else "bids")
  {
    if side == "buy" then ListField(data, "asks") else ListField(data, "bids")
  }

  /** get_items, given the response of get_orderbook($symbol, $depth). */
  method GetItems(symbol: string, side: string, amount: real, api: ApiResponse, numeric: string -> real)
    returns (r: RestResponse<Report>)
    ensures !api.success ==> r == ErrorResponse(api.errorMessage)
    ensures api.success ==> r.Ok?
    ensures api.success ==> r.body.symbol == symbol && r.body.side == side && r.body.amount == amount
    ensures api.success ==>
      var e := Expected(Ladder(BookFor(api.data, side), numeric), amount);
      r.body.avgPrice == e.avgPrice && r.body.bestPrice == e.bestPrice && r.body.slippagePct == e.slippagePct &&
      r.body.depthUsed == e.depthUsed && r.body.totalCost == e.totalCost
    ensures api.success ==>
      var bid := BestPrice(ListField(api.data, "bids"), numeric);
      var ask := BestPrice(ListField(api.data, "asks"), numeric);
      r.body.spread == ask - bid && r.body.spreadPct == SpreadPct(bid, ask)
  {
    if !api.success {
      return ErrorResponse(api.errorMessage);
    }
    var data := api.data;
    var book := BookFor(data, side);
    var e := CalculateSlippage(Ladder(book, numeric), amount);
    var bestBid := BestPrice(ListField(data, "bids"), numeric);
    var bestAsk := BestPrice(ListField(data, "asks"), numeric);
    var spread := bestAsk - bestBid;
    r := Ok(Report(symbol, side, amount, e.avgPrice, e.bestPrice, e.slippagePct,
                   spread, SpreadPct(bestBid, bestAsk), e.depthUsed, e.totalCost));
  }
}
