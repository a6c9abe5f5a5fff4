/**
 * SparklineGenerator: synthetic price history for a sparkline. Starting
 * from the current price, it walks backwards in time with clamped random
 * steps from a seeded xorshift32 generator, so that the last point is the
 * current price and the same symbol, day and trend bucket always give the
 * same series.
 */
module Sparkline {
  import opened Strings
  import opened Numeric

  const DEFAULT_COUNT: int := 40
  const NOISE_SCALE: real := 0.012
  const DRIFT_SCALE: real := 0.005
  const MAX_STEP_SCALE: real := 0.05
  /** 1e-9: no generated point goes below it. */
  const PRICE_FLOOR: real := 0.000000001

  // ---------------------------------------------------------------------------
  // The generator

  /** PHP's 0xFFFFFFFF mask. */
  const MASK32: bv64 := 0xFFFF_FFFF

  /**
   * next_random on a 64-bit PHP integer: xorshift32 with shifts 13, 17 and 5,
   * kept to 32 bits by masking each left shift and the result.
   */
  function NextRandom(state: bv64): (r: bv64)
    ensures r <= MASK32
  {
    var a := state ^ ((state << 13) & MASK32);
    var b := a ^ (a >> 17);
    var c := b ^ ((b << 5) & MASK32);
    c & MASK32
  }

  /** On 32-bit states, 0 is a fixed point and no other state ever reaches it. */
  lemma NextRandomZero(state: bv64)
    requires state <= MASK32
    ensures NextRandom(state) == 0 <==> state == 0
  {
  }

  /** random_float: the low 31 bits of the state (`& 0x7FFFFFFF`) scaled into [0, 1). */
  function RandomFloat(state: bv64): (r: real)
    ensures 0.0 <= r < 1.0
  {
    ((state as int) % 0x8000_0000) as real / 2147483648.0
  }

  /** The noise term `(random_float(rng) - 0.5) * 2.0 * noise_scale`, given random_float(rng). */
  function Noise(u: real, noiseScale: real): real {
    (u - 0.5) * 2.0 * noiseScale
  }

  /** The noise lies in [-noise_scale, noise_scale). */
  lemma NoiseRange(state: bv64, noiseScale: real)
    requires noiseScale > 0.0
    ensures -noiseScale <= Noise(RandomFloat(state), noiseScale) < noiseScale
  {
    var r := RandomFloat(state);
    NoiseBounds(r, noiseScale);
  }

  lemma NoiseBounds(r: real, noiseScale: real)
    requires 0.0 <= r < 1.0 && noiseScale > 0.0
    ensures -noiseScale <= Noise(r, noiseScale) < noiseScale
  {
    var u := (r - 0.5) * 2.0;
    assert Noise(r, noiseScale) == u * noiseScale;
    ScaleLe(-1.0, u, noiseScale);
    ScaleLt(u, 1.0, noiseScale);
  }

  /**
   * compute_seed: crc32 of the symbol, the day number and the rounded
   * change. `now` stands for time() and `crc32` for PHP's crc32().
   */
  function ComputeSeed(symbol: string, changePct: real, now: int, crc32: string -> bv64): bv64 {
    crc32(symbol + IntToString(now / 86400) + IntToString(RoundHalfAwayFromZero(changePct)))
  }

  /** Two calls on the same UTC day with the same rounded change use the same seed. */
  lemma SameDaySameSeed(symbol: string, c1: real, c2: real, t1: int, t2: int, crc32: string -> bv64)
    requires t1 / 86400 == t2 / 86400
    requires RoundHalfAwayFromZero(c1) == RoundHalfAwayFromZero(c2)
    ensures ComputeSeed(symbol, c1, t1, crc32) == ComputeSeed(symbol, c2, t2, crc32)
  {
  }

  // ---------------------------------------------------------------------------
  // The walk

  /** `max(high - low, last_price * 0.001)` after ordering high and low. */
  function PriceRange(lastPrice: real, high: real, low: real): (r: real)
    ensures r == Max(Abs(high - low), lastPrice * 0.001)
    ensures lastPrice > 0.0 ==> r > 0.0
  {
    var lo := if high < low then high else low;
    var hi := if high < low then low else high;
    Max(hi - lo, lastPrice * 0.001)
  }

  /** The per-series parameters: noise amplitude, drift per step and maximum step. */
  datatype Shape = Shape(noiseScale: real, drift: real, maxStep: real)

  function ShapeOf(lastPrice: real, high: real, low: real, changePct: real, tanh: real -> real): (s: Shape)
    ensures s.maxStep == PriceRange(lastPrice, high, low) * MAX_STEP_SCALE
    ensures s.noiseScale == PriceRange(lastPrice, high, low) * NOISE_SCALE
    ensures lastPrice > 0.0 ==> s.maxStep > 0.0 && s.noiseScale > 0.0
  {
    var range := PriceRange(lastPrice, high, low);
    Shape(range * NOISE_SCALE, -tanh(changePct / 10.0) * range * DRIFT_SCALE, range * MAX_STEP_SCALE)
  }

  /** `max(-max_step, min(max_step, x))` */
  function Clamp(x: real, maxStep: real): (r: real)
    requires maxStep >= 0.0
    ensures -maxStep <= r <= maxStep
    ensures -maxStep <= x <= maxStep ==> r == x
  {
    Max(-maxStep, Min(maxStep, x))
  }

  /** One step back in time from `price`, with the generator already advanced to `rng`. */
  function Step(price: real, rng: bv64, w: Shape): (p: real)
    requires w.maxStep >= 0.0
    ensures p >= PRICE_FLOOR
  {
    Max(PRICE_FLOOR, price + Clamp(w.drift + Noise(RandomFloat(rng), w.noiseScale), w.maxStep))
  }

  /** The generator state and the price of the walk after `n` steps back from the seed and the last price. */
  datatype Walker = Walker(rng: bv64, price: real)

  function After(n: nat, seed: bv64, lastPrice: real, w: Shape): Walker
    requires w.maxStep >= 0.0
  {
    if n == 0 then Walker(seed, lastPrice)
    else
      var prev := After(n - 1, seed, lastPrice, w);
      var next := NextRandom(prev.rng);
      Walker(next, Step(prev.price, next, w))
  }

  /** generate_prices with the seed already computed: point j is the walk after count - 1 - j steps. */
  function Expected(lastPrice: real, high: real, low: real, changePct: real, count: int, seed: bv64, tanh: real -> real): seq<real>
  {
    if lastPrice <= 0.0 || count < 2 then []
    else
      var w := ShapeOf(lastPrice, high, low, changePct, tanh);
      seq(count, j requires 0 <= j < count => After(count - 1 - j, seed, lastPrice, w).price)
  }

  /** generate_prices($last_price, $high_24h, $low_24h, $change_pct_24h, $symbol, $count) */
  method GeneratePrices(lastPrice: real, high: real, low: real, changePct: real, symbol: string, count: int,
                        now: int, crc32: string -> bv64, tanh: real -> real)
    returns (prices: seq<real>)
    ensures prices == Expected(lastPrice, high, low, changePct, count, ComputeSeed(symbol, changePct, now, crc32), tanh)
  {
    if lastPrice <= 0.0 || count < 2 {
      return [];
    }
    var high24, low24 := high, low;
    if high24 < low24 {
      high24, low24 := low24, high24;
    }
    var priceRange := Max(high24 - low24, lastPrice * 0.001);
    var trend24 := tanh(changePct / 10.0);
    var noiseScale := priceRange * NOISE_SCALE;
    var drift := -trend24 * priceRange * DRIFT_SCALE;
    var maxStep := priceRange * MAX_STEP_SCALE;
    var w := Shape(noiseScale, drift, maxStep);
    assert w == ShapeOf(lastPrice, high, low, changePct, tanh);
    var seed := ComputeSeed(symbol, changePct, now, crc32);
    prices := WalkBack(lastPrice, count, seed, w);
    forall j | 0 <= j < count ensures prices[j] == Expected(lastPrice, high, low, changePct, count, seed, tanh)[j] {
      ExpectedAt(lastPrice, high, low, changePct, count, seed, tanh, j);
    }
  }

  /**
   * The loop of generate_prices: the last point is the price, and each
   * earlier point takes one more step of the walk.
   */
  method WalkBack(lastPrice: real, count: int, seed: bv64, w: Shape) returns (prices: seq<real>)
    requires count >= 2 && w.maxStep >= 0.0
    ensures |prices| == count
    ensures forall j :: 0 <= j < count ==> prices[j] == After(count - 1 - j, seed, lastPrice, w).price
  {
    var rng := seed;
    prices := seq(count, _ => 0.0);
    prices := prices[count - 1 := lastPrice];
    var price := lastPrice;
    var i := count - 2;
    while i >= 0
      invariant -1 <= i <= count - 2
      invariant |prices| == count
      invariant Walker(rng, price) == After(count - 2 - i, seed, lastPrice, w)
      invariant forall k :: i < k < count ==> prices[k] == After(count - 1 - k, seed, lastPrice, w).price
    {
      rng, price := StepBack(rng, price, w, count - 2 - i, seed, lastPrice);
      prices := prices[i := price];
      i := i - 1;
    }
  }

  /** One iteration of the loop of generate_prices: advance the generator, then step the price back. */
  method StepBack(rng: bv64, price: real, w: Shape, ghost n: nat, ghost seed: bv64, ghost lastPrice: real)
    returns (rng': bv64, price': real)
    requires w.maxStep >= 0.0 && Walker(rng, price) == After(n, seed, lastPrice, w)
    ensures Walker(rng', price') == After(n + 1, seed, lastPrice, w)
  {
    AfterNext(n, seed, lastPrice, w);
    rng' := NextRandom(rng);
    var rand := Noise(RandomFloat(rng'), w.noiseScale);
    var step := Max(-w.maxStep, Min(w.maxStep, w.drift + rand));
    price' := Max(PRICE_FLOOR, price + step);
  }

  /** One more step of the walk: advance the generator, then step the price. */
  lemma AfterNext(n: nat, seed: bv64, lastPrice: real, w: Shape)
    requires w.maxStep >= 0.0
    ensures var prev := After(n, seed, lastPrice, w);
      After(n + 1, seed, lastPrice, w) == Walker(NextRandom(prev.rng), Step(prev.price, NextRandom(prev.rng), w))
  {
  }

  /** Point j of the series is the walk after count - 1 - j steps. */
  lemma ExpectedAt(lastPrice: real, high: real, low: real, changePct: real, count: int, seed: bv64, tanh: real -> real, j: int)
    requires lastPrice > 0.0 && 0 <= j < count
    ensures |Expected(lastPrice, high, low, changePct, count, seed, tanh)| == if count < 2 then 0 else count
    ensures count >= 2 ==>
      Expected(lastPrice, high, low, changePct, count, seed, tanh)[j] ==
      After(count - 1 - j, seed, lastPrice, ShapeOf(lastPrice, high, low, changePct, tanh)).price
  {
  }

  // ---------------------------------------------------------------------------
  // Properties of the series

  /** Empty when the price is not positive or fewer than two points are asked for; otherwise `count` points ending at the price. */
  lemma ExpectedShape(lastPrice: real, high: real, low: real, changePct: real, count: int, seed: bv64, tanh: real -> real)
    ensures lastPrice <= 0.0 || count < 2 ==> Expected(lastPrice, high, low, changePct, count, seed, tanh) == []
    ensures lastPrice > 0.0 && count >= 2 ==>
      |Expected(lastPrice, high, low, changePct, count, seed, tanh)| == count &&
      Expected(lastPrice, high, low, changePct, count, seed, tanh)[count - 1] == lastPrice
  {
    if lastPrice > 0.0 && count >= 2 {
      assert After(0, seed, lastPrice, ShapeOf(lastPrice, high, low, changePct, tanh)).price == lastPrice;
    }
  }

  /** Every point after the first step back is at least the floor. */
  lemma AfterFloor(n: nat, seed: bv64, lastPrice: real, w: Shape)
    requires w.maxStep >= 0.0
    ensures n > 0 ==> After(n, seed, lastPrice, w).price >= PRICE_FLOOR
  {
  }

  /** Every point is positive; every point but the given last one is at least the floor. */
  lemma ExpectedPositive(lastPrice: real, high: real, low: real, changePct: real, count: int, seed: bv64, tanh: real -> real)
    ensures var p := Expected(lastPrice, high, low, changePct, count, seed, tanh);
      forall i :: 0 <= i < |p| ==> p[i] > 0.0 && (i < |p| - 1 ==> p[i] >= PRICE_FLOOR)
  {
    var p := Expected(lastPrice, high, low, changePct, count, seed, tanh);
    if p != [] {
      var w := ShapeOf(lastPrice, high, low, changePct, tanh);
      forall i | 0 <= i < |p| ensures p[i] > 0.0 && (i < |p| - 1 ==> p[i] >= PRICE_FLOOR) {
        AfterFloor(count - 1 - i, seed, lastPrice, w);
      }
    }
  }

  /** Swapping the 24-hour high and low changes nothing. */
  lemma InvertedRangeSwapped(lastPrice: real, high: real, low: real, changePct: real, count: int, seed: bv64, tanh: real -> real)
    ensures Expected(lastPrice, high, low, changePct, count, seed, tanh) == Expected(lastPrice, low, high, changePct, count, seed, tanh)
  {
    assert PriceRange(lastPrice, high, low) == PriceRange(lastPrice, low, high);
    assert ShapeOf(lastPrice, high, low, changePct, tanh) == ShapeOf(lastPrice, low, high, changePct, tanh);
  }

  /** A step from a price at or above the floor moves it by at most max_step. */
  lemma StepBounded(price: real, rng: bv64, w: Shape)
    requires w.maxStep >= 0.0 && price >= PRICE_FLOOR
    ensures Abs(Step(price, rng, w) - price) <= w.maxStep
  {
  }

  /**
   * When the price is at least the floor, neighbouring points differ by at
   * most 5% of the price range.
   */
  lemma ExpectedSteps(lastPrice: real, high: real, low: real, changePct: real, count: int, seed: bv64, tanh: real -> real)
    requires lastPrice >= PRICE_FLOOR
    ensures var p := Expected(lastPrice, high, low, changePct, count, seed, tanh);
      forall i :: 0 <= i < |p| - 1 ==> Abs(p[i] - p[i + 1]) <= MAX_STEP_SCALE * PriceRange(lastPrice, high, low)
  {
    var p := Expected(lastPrice, high, low, changePct, count, seed, tanh);
    if p != [] {
      var w := ShapeOf(lastPrice, high, low, changePct, tanh);
      forall i | 0 <= i < |p| - 1 ensures Abs(p[i] - p[i + 1]) <= MAX_STEP_SCALE * PriceRange(lastPrice, high, low) {
        ExpectedAt(lastPrice, high, low, changePct, count, seed, tanh, i);
        ExpectedAt(lastPrice, high, low, changePct, count, seed, tanh, i + 1);
        AfterStepBounded(count - 2 - i, seed, lastPrice, w);
      }
    }
  }

  /** Consecutive points of the walk differ by at most max_step when the walk starts at or above the floor. */
  lemma AfterStepBounded(n: nat, seed: bv64, lastPrice: real, w: Shape)
    requires w.maxStep >= 0.0 && lastPrice >= PRICE_FLOOR
    ensures Abs(After(n + 1, seed, lastPrice, w).price - After(n, seed, lastPrice, w).price) <= w.maxStep
  {
    var prev := After(n, seed, lastPrice, w);
    AfterFloor(n, seed, lastPrice, w);
    StepBounded(prev.price, NextRandom(prev.rng), w);
  }

  /**
   * Below the floor the step bound does not hold: from a price of 1e-12 the
   * first step back is lifted to 1e-9, far more than 5% of the range.
   */
  lemma SubFloorJump(seed: bv64, tanh: real -> real)
    ensures var p := Expected(0.000000000001, 0.000000000001, 0.000000000001, 0.0, 2, seed, tanh);
      |p| == 2 && Abs(p[0] - p[1]) > MAX_STEP_SCALE * PriceRange(0.000000000001, 0.000000000001, 0.000000000001)
  {
    var last := 0.000000000001;
    var w := ShapeOf(last, last, last, 0.0, tanh);
    assert PriceRange(last, last, last) == 0.000000000000001;
    var next := NextRandom(seed);
    var c := Clamp(w.drift + Noise(RandomFloat(next), w.noiseScale), w.maxStep);
    assert last + c < PRICE_FLOOR;
    assert After(1, seed, last, w).price == PRICE_FLOOR;
  }
}
