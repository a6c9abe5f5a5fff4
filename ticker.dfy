/**
 * The ticker widget's client side: the projection of a price series onto the
 * sparkline's SVG view box, the bounded buffer of live prices behind each
 * sparkline, the buffer key and the trend class.
 */
module Ticker {
  import opened Wrappers
  import opened Strings
  import opened Numeric

  /** Default view box of the sparkline. */
  const VIEW_WIDTH: real := 100.0
  const VIEW_HEIGHT: real := 30.0
  /** 1e-12: a series whose range is below it is drawn flat. */
  const FLAT_RANGE: real := 0.000000000001
  /** A buffer holds at most this many prices. */
  const BUFFER_SIZE: int := 40

  // ---------------------------------------------------------------------------
  // Projection onto the view box

  /** A point of the polyline, before its coordinates are printed with toFixed(1). */
  datatype Point = Point(x: real, y: real)

  /** The two `points` attributes: the line, and the filled area under it. */
  datatype SvgPoints = SvgPoints(polyline: seq<Point>, polygon: seq<Point>)

  /** The smallest price of a non-empty series. */
  function SeqMin(s: seq<real>): (m: real)
    requires |s| > 0
    ensures forall i :: 0 <= i < |s| ==> m <= s[i]
    ensures exists i :: 0 <= i < |s| && s[i] == m
  {
    if |s| == 1 then s[0]
    else
      var m := SeqMin(s[..|s| - 1]);
      assert forall i :: 0 <= i < |s| - 1 ==> s[..|s| - 1][i] == s[i];
      Min(m, s[|s| - 1])
  }

  /** The largest price of a non-empty series. */
  function SeqMax(s: seq<real>): (m: real)
    requires |s| > 0
    ensures forall i :: 0 <= i < |s| ==> m >= s[i]
    ensures exists i :: 0 <= i < |s| && s[i] == m
  {
    if |s| == 1 then s[0]
    else
      var m := SeqMax(s[..|s| - 1]);
      assert forall i :: 0 <= i < |s| - 1 ==> s[..|s| - 1][i] == s[i];
      Max(m, s[|s| - 1])
  }

  lemma SeqMinMaxSnoc(s: seq<real>, i: int)
    requires 0 < i < |s|
    ensures SeqMin(s[..i + 1]) == Min(SeqMin(s[..i]), s[i])
    ensures SeqMax(s[..i + 1]) == Max(SeqMax(s[..i]), s[i])
  {
    assert s[..i + 1][..i] == s[..i];
  }

  /** x of point i: `(i * viewWidth) / (count - 1)`. */
  function XAt(i: int, count: int, viewWidth: real): real
    requires count >= 2
  {
    (i as real) * viewWidth / ((count - 1) as real)
  }

  /** The bottom of the padded range: the lowest price less 10% of the range. */
  function PaddedMin(lo: real, hi: real): real {
    lo - (hi - lo) * 0.1
  }

  /** The height of the padded range: the range plus 10% on each side. */
  function PaddedRange(lo: real, hi: real): real {
    (hi + (hi - lo) * 0.1) - PaddedMin(lo, hi)
  }

  /**
   * y of a price, given the padded range: mapped upside down onto
   * [0, viewHeight], then clamped to it.
   */
  function YAt(price: real, yMin: real, yRange: real, viewHeight: real): real
    requires yRange != 0.0
  {
    Max(0.0, Min(viewHeight, viewHeight - ((price - yMin) / yRange) * viewHeight))
  }

  /** The points renderSvgPoints emits for a series of at least two prices. */
  function Points(prices: seq<real>, viewWidth: real, viewHeight: real): seq<Point>
    requires |prices| >= 2
  {
    var lo := SeqMin(prices);
    var hi := SeqMax(prices);
    var count := |prices|;
    if hi - lo < FLAT_RANGE then
      seq(count, i requires 0 <= i < count => Point(XAt(i, count, viewWidth), viewHeight / 2.0))
    else
      seq(count, i requires 0 <= i < count => Point(XAt(i, count, viewWidth), YAt(prices[i], PaddedMin(lo, hi), PaddedRange(lo, hi), viewHeight)))
  }

  /** renderSvgPoints as a function of the series and the view box. */
  function Render(prices: seq<real>, viewWidth: real, viewHeight: real): SvgPoints {
    if |prices| < 2 then SvgPoints([], [])
    else
      var line := Points(prices, viewWidth, viewHeight);
      SvgPoints(line, line + [Point(viewWidth, viewHeight), Point(0.0, viewHeight)])
  }

  /** renderSvgPoints(prices, viewWidth, viewHeight) */
  method RenderSvgPoints(prices: seq<real>, viewWidth: real, viewHeight: real) returns (r: SvgPoints)
    ensures r == Render(prices, viewWidth, viewHeight)
  {
    var count := |prices|;
    if count < 2 {
      return SvgPoints([], []);
    }

    var bufMin, bufMax := PriceBounds(prices);

    var range := bufMax - bufMin;
    var points: seq<Point>;
    if range < FLAT_RANGE {
      var mid := viewHeight / 2.0;
      points := FlatLine(count, mid, viewWidth);
    } else {
      var padding := range * 0.1;
      var yMin := bufMin - padding;
      var yRange := (bufMax + padding) - yMin;
      assert yMin == PaddedMin(bufMin, bufMax) && yRange == PaddedRange(bufMin, bufMax);
      points := ProjectedLine(prices, yMin, yRange, viewWidth, viewHeight);
    }
    PointsAll(prices, viewWidth, viewHeight);
    assert points == Points(prices, viewWidth, viewHeight);
    var polyline := points;
    var polygon := polyline + [Point(viewWidth, viewHeight), Point(0.0, viewHeight)];
    return SvgPoints(polyline, polygon);
  }

  /** The first loop of renderSvgPoints: the lowest and the highest price. */
  method PriceBounds(prices: seq<real>) returns (bufMin: real, bufMax: real)
    requires |prices| >= 1
    ensures bufMin == SeqMin(prices) && bufMax == SeqMax(prices)
  {
    bufMin := prices[0];
    bufMax := prices[0];
    var i := 1;
    while i < |prices|
      invariant 1 <= i <= |prices|
      invariant bufMin == SeqMin(prices[..i]) && bufMax == SeqMax(prices[..i])
    {
      SeqMinMaxSnoc(prices, i);
      if prices[i] < bufMin {
        bufMin := prices[i];
      }
      if prices[i] > bufMax {
        bufMax := prices[i];
      }
      i := i + 1;
    }
    assert prices[..i] == prices;
  }

  /** The loop for a flat series: every point at height `mid`. */
  method FlatLine(count: int, mid: real, viewWidth: real) returns (points: seq<Point>)
    requires count >= 2
    ensures |points| == count
    ensures forall k :: 0 <= k < count ==> points[k] == Point(XAt(k, count, viewWidth), mid)
  {
    points := [];
    var i := 0;
    while i < count
      invariant 0 <= i <= count
      invariant |points| == i
      invariant forall k :: 0 <= k < i ==> points[k] == Point(XAt(k, count, viewWidth), mid)
    {
      var x := XAt(i, count, viewWidth);
      points := points + [Point(x, mid)];
      i := i + 1;
    }
  }

  /** The loop for a series that is not flat: each price projected onto the padded range. */
  method ProjectedLine(prices: seq<real>, yMin: real, yRange: real, viewWidth: real, viewHeight: real)
    returns (points: seq<Point>)
    requires |prices| >= 2 && yRange > 0.0
    ensures |points| == |prices|
    ensures forall k :: 0 <= k < |prices| ==>
      points[k] == Point(XAt(k, |prices|, viewWidth), YAt(prices[k], yMin, yRange, viewHeight))
  {
    var count := |prices|;
    points := [];
    var i := 0;
    while i < count
      invariant 0 <= i <= count
      invariant |points| == i
      invariant forall k :: 0 <= k < i ==>
        points[k] == Point(XAt(k, count, viewWidth), YAt(prices[k], yMin, yRange, viewHeight))
    {
      var x := XAt(i, count, viewWidth);
      var y := viewHeight - ((prices[i] - yMin) / yRange) * viewHeight;
      y := Max(0.0, Min(viewHeight, y));
      points := points + [Point(x, y)];
      i := i + 1;
    }
  }

  /** Point i of the projection, and the number of points. */
  lemma PointsAt(prices: seq<real>, viewWidth: real, viewHeight: real, i: int)
    requires |prices| >= 2 && 0 <= i < |prices|
    ensures |Points(prices, viewWidth, viewHeight)| == |prices|
    ensures SeqMax(prices) - SeqMin(prices) < FLAT_RANGE ==>
      Points(prices, viewWidth, viewHeight)[i] == Point(XAt(i, |prices|, viewWidth), viewHeight / 2.0)
    ensures SeqMax(prices) - SeqMin(prices) >= FLAT_RANGE ==>
      Points(prices, viewWidth, viewHeight)[i] ==
      Point(XAt(i, |prices|, viewWidth),
            YAt(prices[i], PaddedMin(SeqMin(prices), SeqMax(prices)), PaddedRange(SeqMin(prices), SeqMax(prices)), viewHeight))
  {
  }

  /** All points of the projection at once. */
  lemma PointsAll(prices: seq<real>, viewWidth: real, viewHeight: real)
    requires |prices| >= 2
    ensures |Points(prices, viewWidth, viewHeight)| == |prices|
    ensures SeqMax(prices) - SeqMin(prices) < FLAT_RANGE ==> forall i :: 0 <= i < |prices| ==>
      Points(prices, viewWidth, viewHeight)[i] == Point(XAt(i, |prices|, viewWidth), viewHeight / 2.0)
    ensures SeqMax(prices) - SeqMin(prices) >= FLAT_RANGE ==> forall i :: 0 <= i < |prices| ==>
      Points(prices, viewWidth, viewHeight)[i] ==
      Point(XAt(i, |prices|, viewWidth),
            YAt(prices[i], PaddedMin(SeqMin(prices), SeqMax(prices)), PaddedRange(SeqMin(prices), SeqMax(prices)), viewHeight))
  {
    forall i | 0 <= i < |prices| {
      PointsAt(prices, viewWidth, viewHeight, i);
    }
    PointsAt(prices, viewWidth, viewHeight, 0);
  }

  // ---------------------------------------------------------------------------
  // Properties of the projection

  /** Fewer than two prices give nothing to draw; otherwise one point per price, and the polygon closes the line along the bottom edge. */
  lemma RenderShape(prices: seq<real>, viewWidth: real, viewHeight: real)
    ensures var r := Render(prices, viewWidth, viewHeight);
      (|prices| < 2 <==> r.polyline == []) &&
      (|prices| < 2 ==> r.polygon == []) &&
      |r.polyline| == (if |prices| < 2 then 0 else |prices|) &&
      (|prices| >= 2 ==> r.polygon == r.polyline + [Point(viewWidth, viewHeight), Point(0.0, viewHeight)])
  {
  }

  /** The points are spread evenly across the width: the first at 0, the last at viewWidth, all in between. */
  lemma XSpread(prices: seq<real>, viewWidth: real, viewHeight: real)
    requires |prices| >= 2 && viewWidth >= 0.0
    ensures var line := Render(prices, viewWidth, viewHeight).polyline;
      line[0].x == 0.0 && line[|prices| - 1].x == viewWidth &&
      forall i :: 0 <= i < |line| ==> 0.0 <= line[i].x <= viewWidth
  {
    var line := Render(prices, viewWidth, viewHeight).polyline;
    assert line == Points(prices, viewWidth, viewHeight);
    forall i | 0 <= i < |prices| ensures 0.0 <= line[i].x <= viewWidth {
      PointsAt(prices, viewWidth, viewHeight, i);
      XAtBounds(i, |prices|, viewWidth);
    }
    PointsAt(prices, viewWidth, viewHeight, 0);
    PointsAt(prices, viewWidth, viewHeight, |prices| - 1);
    XAtEnds(|prices|, viewWidth);
  }

  lemma XAtEnds(count: int, viewWidth: real)
    requires count >= 2
    ensures XAt(0, count, viewWidth) == 0.0 && XAt(count - 1, count, viewWidth) == viewWidth
  {
    var n := (count - 1) as real;
    assert XAt(count - 1, count, viewWidth) == n * viewWidth / n;
  }

  lemma XAtBounds(i: int, count: int, viewWidth: real)
    requires count >= 2 && 0 <= i < count && viewWidth >= 0.0
    ensures 0.0 <= XAt(i, count, viewWidth) <= viewWidth
  {
    var n := (count - 1) as real;
    ScaleLe(i as real, n, viewWidth);
    assert (i as real) * viewWidth / n <= n * viewWidth / n;
  }

  /** A flat series is drawn as a horizontal line at mid-height. */
  lemma FlatSeriesMidHeight(prices: seq<real>, viewWidth: real, viewHeight: real)
    requires |prices| >= 2 && SeqMax(prices) - SeqMin(prices) < FLAT_RANGE
    ensures forall p :: p in Render(prices, viewWidth, viewHeight).polyline ==> p.y == viewHeight / 2.0
  {
  }

  /** A series that is not flat stays inside the view box vertically. */
  lemma YInsideViewBox(prices: seq<real>, viewWidth: real, viewHeight: real)
    requires |prices| >= 2 && viewHeight >= 0.0
    ensures forall p :: p in Render(prices, viewWidth, viewHeight).polyline ==> 0.0 <= p.y <= viewHeight
  {
  }

  /** A higher price is never drawn lower: y does not increase with the price. */
  lemma HigherPriceNotLower(prices: seq<real>, viewWidth: real, viewHeight: real, i: int, j: int)
    requires |prices| >= 2 && viewHeight >= 0.0
    requires 0 <= i < |prices| && 0 <= j < |prices| && prices[i] >= prices[j]
    ensures var line := Render(prices, viewWidth, viewHeight).polyline;
      line[i].y <= line[j].y
  {
    var lo := SeqMin(prices);
    var hi := SeqMax(prices);
    if hi - lo >= FLAT_RANGE {
      assert PaddedRange(lo, hi) > 0.0;
      YAtAntitone(prices[j], prices[i], PaddedMin(lo, hi), PaddedRange(lo, hi), viewHeight);
    }
  }

  lemma YAtAntitone(p: real, q: real, yMin: real, yRange: real, viewHeight: real)
    requires yRange > 0.0 && p <= q && viewHeight >= 0.0
    ensures YAt(q, yMin, yRange, viewHeight) <= YAt(p, yMin, yRange, viewHeight)
  {
    assert (p - yMin) / yRange <= (q - yMin) / yRange;
    ScaleLe((p - yMin) / yRange, (q - yMin) / yRange, viewHeight);
  }

  // ---------------------------------------------------------------------------
  // The live-price buffer behind a sparkline

  /** The buffer after appending a price: it is dropped from the front once it holds more than 40. */
  function Pushed(prices: seq<real>, price: real): (r: seq<real>)
    ensures |prices| <= BUFFER_SIZE ==> |r| <= BUFFER_SIZE
    ensures |r| == if |prices| + 1 > BUFFER_SIZE then |prices| else |prices| + 1
    ensures r[|r| - 1] == price
  {
    var pushed := prices + [price];
    if |pushed| > BUFFER_SIZE then pushed[1..] else pushed
  }

  /**
   * A buffer of at most 40 prices keeps, after a push, the newest prices in
   * their order: the last min(n + 1, 40) of the old prices followed by the new one.
   */
  lemma PushedIsNewestSuffix(prices: seq<real>, price: real)
    requires |prices| <= BUFFER_SIZE
    ensures var all := prices + [price];
      var r := Pushed(prices, price);
      |r| == (if |all| < BUFFER_SIZE then |all| else BUFFER_SIZE) && r == all[|all| - |r|..]
  {
    var all := prices + [price];
    if |all| <= BUFFER_SIZE {
      assert all[0..] == all;
    }
  }

  /** One sparkline's buffer: the prices drawn, how many of them are live, and when it last took a price. */
  class SparklineBuffer {
    var prices: seq<real>
    var realCount: int
    var lastUpdatedAt: int

    /** A buffer that never held more than 40 prices, with a live count in [0, 40]. */
    predicate Valid()
      reads this
    {
      |prices| <= BUFFER_SIZE && 0 <= realCount <= BUFFER_SIZE
    }

    /**
     * Seeded from the server-rendered entry, with no live points yet: its
     * `prices` (an empty series when absent) and its `updatedAt` (0 when absent).
     */
    constructor(initial: Option<seq<real>>, updatedAt: Option<int>)
      ensures initial.Some? ==> prices == initial.value
      ensures initial.None? ==> prices == []
      ensures updatedAt.Some? ==> lastUpdatedAt == updatedAt.value
      ensures updatedAt.None? ==> lastUpdatedAt == 0
      ensures realCount == 0
      ensures |prices| <= BUFFER_SIZE ==> Valid()
    {
      prices := initial.GetOr([]);
      realCount := 0;
      lastUpdatedAt := updatedAt.GetOr(0);
    }

    /**
     * The buffer update for one ticker item: `lastPrice` is parseFloat of the
     * item's price (None when it is not finite) and `now` the current second.
     * A price that is not positive, or a second already seen, leaves the
     * buffer as it is.
     */
    method Update(lastPrice: Option<real>, now: int)
      modifies this
      ensures !lastPrice.Some? || lastPrice.value <= 0.0 || old(lastUpdatedAt) == now ==>
        prices == old(prices) && realCount == old(realCount) && lastUpdatedAt == old(lastUpdatedAt)
      ensures lastPrice.Some? && lastPrice.value > 0.0 && old(lastUpdatedAt) != now ==>
        prices == Pushed(old(prices), lastPrice.value) &&
        realCount == (if old(realCount) + 1 < BUFFER_SIZE then old(realCount) + 1 else BUFFER_SIZE) &&
        lastUpdatedAt == now
      ensures old(Valid()) ==> Valid()
    {
      if !lastPrice.Some? || lastPrice.value <= 0.0 {
        return;
      }
      if lastUpdatedAt == now {
        return;
      }
      lastUpdatedAt := now;
      prices := prices + [lastPrice.value];
      if |prices| > BUFFER_SIZE {
        prices := prices[1..];
      }
      realCount := if realCount + 1 < BUFFER_SIZE then realCount + 1 else BUFFER_SIZE;
    }
  }

  // ---------------------------------------------------------------------------
  // Keys and classes

  predicate IsAlnum(c: char) {
    'a' <= c <= 'z' || 'A' <= c <= 'Z' || '0' <= c <= '9'
  }

  /** The buffer key of a symbol: its letters and digits, lower-cased ('BTC/USDT' is 'btcusdt'). */
  function BufferKey(symbol: string): (k: string)
    ensures forall i :: 0 <= i < |k| ==> 'a' <= k[i] <= 'z' || '0' <= k[i] <= '9'
    ensures |k| <= |symbol|
  {
    if symbol == [] then []
    else
      var rest := BufferKey(symbol[1..]);
      if IsAlnum(symbol[0]) then [LowerChar(symbol[0])] + rest else rest
  }

  lemma {:induction false} BufferKeyAppend(a: string, b: string)
    ensures BufferKey(a + b) == BufferKey(a) + BufferKey(b)
  {
    if a == [] {
      assert a + b == b;
    } else {
      assert (a + b)[1..] == a[1..] + b;
      BufferKeyAppend(a[1..], b);
    }
  }

  /** The case of the letters makes no difference to the key. */
  lemma {:induction false} BufferKeyUpper(s: string)
    ensures BufferKey(ToUpper(s)) == BufferKey(s)
  {
    if s != [] {
      assert ToUpper(s)[1..] == ToUpper(s[1..]);
      BufferKeyUpper(s[1..]);
      var c := s[0];
      if 'a' <= c <= 'z' {
        assert UpperChar(c) as int == c as int - 32;
        assert LowerChar(UpperChar(c)) == c;
      }
    }
  }

  /** A separator that is not a letter or digit disappears from the key: 'BTC/USDT' and 'BTC_USDT' share one. */
  lemma BufferKeySeparator(base: string, sep: char, quote: string)
    requires !IsAlnum(sep)
    ensures BufferKey(base + [sep] + quote) == BufferKey(base) + BufferKey(quote)
  {
    assert BufferKey([sep]) == [] by {
      assert [sep][1..] == [];
    }
    BufferKeyAppend(base, [sep]);
    BufferKeyAppend(base + [sep], quote);
  }

  /** One character's contribution to the key: itself lower-cased when it is a letter or digit, else nothing. */
  lemma BufferKeyCons(c: char, s: string)
    ensures BufferKey([c] + s) == (if IsAlnum(c) then [LowerChar(c)] else []) + BufferKey(s)
  {
    assert ([c] + s)[1..] == s;
  }

  /** The quote part of a pair after a separator keys as "usdt". */
  lemma UsdtKey(sep: char)
    requires !IsAlnum(sep)
    ensures BufferKey([sep, 'U', 'S', 'D', 'T']) == "usdt"
  {
    BufferKeyCons('T', []);
    BufferKeyCons('D', ['T']);
    BufferKeyCons('S', ['D', 'T']);
    BufferKeyCons('U', ['S', 'D', 'T']);
    BufferKeyCons(sep, ['U', 'S', 'D', 'T']);
  }

  /** BTC, a separator that is not a letter or digit, and USDT key as "btcusdt". */
  lemma BtcKey(sep: char)
    requires !IsAlnum(sep)
    ensures BufferKey(['B', 'T', 'C', sep, 'U', 'S', 'D', 'T']) == "btcusdt"
  {
    UsdtKey(sep);
    BufferKeyCons('C', [sep, 'U', 'S', 'D', 'T']);
    BufferKeyCons('T', ['C', sep, 'U', 'S', 'D', 'T']);
    BufferKeyCons('B', ['T', 'C', sep, 'U', 'S', 'D', 'T']);
  }

  /** Both spellings of the pair BTC/USDT key the buffer "btcusdt". */
  lemma BtcUsdtBufferKey()
    ensures BufferKey("BTC/USDT") == "btcusdt"
    ensures BufferKey("BTC_USDT") == "btcusdt"
  {
    BtcKey('/');
    BtcKey('_');
  }

  /** The sparkline's trend class follows the sign of the 24-hour change, zero counting as positive. */
  function Trend(changePct: real): (t: string)
    ensures t == "positive" <==> changePct >= 0.0
    ensures t == "negative" <==> changePct < 0.0
  {
    if changePct >= 0.0 then "positive" else "negative"
  }
}
