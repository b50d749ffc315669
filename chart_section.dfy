/** The live chart component: the initial series per range, the rolling
    window each tick keeps, the tick period, the size clamps, the time-to-x
    mapping and the nearest-point search under the mouse. Random draws are
    parameters; the price rounding to cents is not modelled. */
module ChartSection {
  import opened Wrappers

  /** The range buttons: `'1D'`, `'1W'`, `'1M'`. */
  datatype Range = OneDay | OneWeek | OneMonth

  /** How many points the initial series of a range holds. */
  function SeriesCount(r: Range): (n: nat)
    ensures r == OneDay ==> n == 24 * 60
    ensures r == OneWeek ==> n == 7 * 24
    ensures r == OneMonth ==> n == 30
  {
    match r
    case OneDay => 24 * 60
    case OneWeek => 7 * 24
    case OneMonth => 30
  }

  /** The spacing of the initial series, in milliseconds. */
  function SeriesInterval(r: Range): (ms: nat)
    ensures r == OneDay ==> ms == 60 * 1000
    ensures r == OneWeek ==> ms == 60 * 60 * 1000
    ensures r == OneMonth ==> ms == 24 * 60 * 60 * 1000
  {
    match r
    case OneDay => 60 * 1000
    case OneWeek => 60 * 60 * 1000
    case OneMonth => 24 * 60 * 60 * 1000
  }

  /** The length a tick keeps the series to, computed separately by `tick`. */
  function MaxLen(range: Range): (r: nat)
    ensures r > 0
    ensures r * SeriesInterval(range) == match range
                                         case OneDay => 24 * 60 * 60 * 1000
                                         case OneWeek => 7 * 24 * 60 * 60 * 1000
                                         case OneMonth => 30 * 24 * 60 * 60 * 1000
  {
    match range
    case OneDay => 24 * 60
    case OneWeek => 7 * 24
    case OneMonth => 30
  }

  /** The window `tick` keeps is the size of the initial series, so a fresh
      series is exactly full. */
  lemma MaxLenIsCount(r: Range)
    ensures MaxLen(r) == SeriesCount(r) && MaxLen(r) > 0
  {
  }

  datatype Point = Point(time: int, price: real)

  /** The price after `n` steps of the random walk from `start`, step `k`
      using the draw `draw(k)` in the interval [0, 1). */
  function Walk(start: real, draw: nat -> real, n: nat): (r: real)
    ensures start == 0.0 ==> r == 0.0
  {
    if n == 0 then start else Step(Walk(start, draw, n - 1), draw(n - 1))
  }

  /** One step: a move of at most 0.3 percent either way. */
  function Step(price: real, d: real): (r: real)
    ensures price >= 0.0 && 0.0 <= d < 1.0 ==> price * 0.997 <= r <= price * 1.003
  {
    Scale(price, 1.0 + (d - 0.5) * 0.006, 0.997, 1.003);
    price * (1.0 + (d - 0.5) * 0.006)
  }

  /** Scaling a non-negative amount by a factor within `[lo, hi]` lands
      within the amount scaled by `lo` and by `hi`. */
  lemma Scale(p: real, f: real, lo: real, hi: real)
    ensures p >= 0.0 && lo <= f <= hi ==> p * lo <= p * f <= p * hi
  {
    if p >= 0.0 && lo <= f <= hi {
      assert p * (f - lo) >= 0.0;
      assert p * (hi - f) >= 0.0;
    }
  }

  /** With draws in [0, 1) a positive start stays positive. */
  lemma {:induction false} WalkPositive(start: real, draw: nat -> real, n: nat)
    requires start > 0.0
    requires forall k: nat :: 0.0 <= draw(k) < 1.0
    ensures Walk(start, draw, n) > 0.0
  {
    if n > 0 {
      WalkPositive(start, draw, n - 1);
      var p := Walk(start, draw, n - 1);
      var f := 1.0 + (draw(n - 1) - 0.5) * 0.006;
      assert f > 0.0;
      assert Step(p, draw(n - 1)) == p * f;
    }
  }

  /** The time of point `k` in a series of `count` points ending at `now`. */
  function SeriesTime(now: int, count: nat, interval: nat, k: nat): int
  {
    now - (count - 1 - k) * interval
  }

  /** Later points have later times, exactly one interval apart. */
  lemma SeriesTimeStep(now: int, count: nat, interval: nat, k: nat)
    ensures SeriesTime(now, count, interval, k + 1) == SeriesTime(now, count, interval, k) + interval
  {
  }

  lemma {:induction false} SeriesTimeIncreasing(now: int, count: nat, interval: nat, j: nat, k: nat)
    requires interval > 0 && j < k
    ensures SeriesTime(now, count, interval, j) < SeriesTime(now, count, interval, k)
    decreases k - j
  {
    SeriesTimeStep(now, count, interval, j);
    if j + 1 < k {
      SeriesTimeIncreasing(now, count, interval, j + 1, k);
    }
  }

  /** `generateInitialSeries`: for `i` from `count - 1` down to 0, the point
      at `now - i * interval` with the next price of the walk. */
  method GenerateInitialSeries(range: Range, startPrice: real, now: int, draw: nat -> real)
    returns (points: seq<Point>, interval: nat)
    ensures interval == SeriesInterval(range)
    ensures |points| == SeriesCount(range)
    ensures forall k :: 0 <= k < |points| ==>
              points[k] == Point(SeriesTime(now, |points|, interval, k), Walk(startPrice, draw, k + 1))
    ensures points[|points| - 1].time == now
    ensures forall j, k :: 0 <= j < k < |points| ==> points[j].time < points[k].time
  {
    var count := SeriesCount(range);
    interval := SeriesInterval(range);
    points := [];
    var price := startPrice;
    var i: int := count - 1;
    while i >= 0
      invariant -1 <= i < count
      invariant |points| == count - 1 - i
      invariant price == Walk(startPrice, draw, |points|)
      invariant forall k :: 0 <= k < |points| ==>
                  points[k] == Point(SeriesTime(now, count, interval, k), Walk(startPrice, draw, k + 1))
    {
      var t := now - i * interval;
      price := Step(price, draw(|points|));
      points := points + [Point(t, price)];
      i := i - 1;
    }
    forall j, k | 0 <= j < k < |points|
      ensures points[j].time < points[k].time
    {
      SeriesTimeIncreasing(now, count, interval, j, k);
    }
  }

  /** The series after a tick: the new point last, the head dropped when
      the series is then longer than the window. */
  function Rolled(s: seq<Point>, p: Point, maxLen: nat): (r: seq<Point>)
    requires maxLen >= 1
    ensures |s| < maxLen ==> r == s + [p]
    ensures |s| >= maxLen ==> r == s[1..] + [p]
    ensures |r| >= 1 && r[|r| - 1] == p
  {
    var next := s + [p];
    if |next| > maxLen then next[1..] else next
  }

  /** A series that fits the window still fits it after a tick. */
  lemma RolledFits(s: seq<Point>, p: Point, maxLen: nat)
    requires 1 <= maxLen && |s| <= maxLen
    ensures |Rolled(s, p, maxLen)| <= maxLen
    ensures |s| == maxLen ==> |Rolled(s, p, maxLen)| == maxLen
  {
  }

  /** `Math.max(2000, Math.floor(intervalMs / 4))`. */
  function TickPeriod(intervalMs: nat): (ms: nat)
    ensures ms >= 2000 && ms >= intervalMs / 4
    ensures ms == intervalMs / 4 || ms == 2000
  {
    if intervalMs / 4 > 2000 then intervalMs / 4 else 2000
  }

  /** Ticks every 15 seconds, 15 minutes or 6 hours. */
  lemma TickPeriods()
    ensures TickPeriod(SeriesInterval(OneDay)) == 15000
    ensures TickPeriod(SeriesInterval(OneWeek)) == 900000
    ensures TickPeriod(SeriesInterval(OneMonth)) == 21600000
  {
  }

  function Max(a: real, b: real): real { if a >= b then a else b }

  /** `Math.round(x)`: halves go up. */
  function Round(x: real): (r: int)
    ensures r as real - 0.5 <= x < r as real + 0.5
  {
    (x + 0.5).Floor
  }

  /** The price of a tick: a move of at most half a percent either way. */
  function TickPrice(last: real, d: real): (r: real)
    ensures last >= 0.0 && 0.0 <= d < 1.0 ==> last * 0.995 <= r <= last * 1.005
  {
    Scale(last, 1.0 + (d - 0.5) * 0.01, 0.995, 1.005);
    last * (1.0 + (d - 0.5) * 0.01)
  }

  /** Width of the plotting area, after the 40 and 20 pixel margins. */
  function PlotWidth(width: real): (r: real)
    ensures r >= 10.0 && r >= width - 60.0
    ensures r == 10.0 || r == width - 60.0
  {
    Max(10.0, width - 40.0 - 20.0)
  }

  /** `toX`: the first and last times of the series (`now` when there is no
      point or its time is 0) map to the left edge 40 and to `40 + plotW`;
      a series whose ends coincide puts everything at the right edge. */
  function ToX(series: seq<Point>, time: int, width: real, now: int): (r: real)
    ensures Forward(series) && series[0].time <= time <= series[|series| - 1].time ==>
              40.0 <= r <= 40.0 + PlotWidth(width)
  {
    var t0 := if series != [] && series[0].time != 0 then series[0].time else now;
    var t1 := if series != [] && series[|series| - 1].time != 0 then series[|series| - 1].time else now;
    var pct := if t1 == t0 then 1.0 else (time - t0) as real / (t1 - t0) as real;
    Scale(PlotWidth(width), pct, 0.0, 1.0);
    40.0 + pct * PlotWidth(width)
  }

  /** A series whose first and last times are set and run forwards. */
  predicate Forward(series: seq<Point>) {
    series != [] && series[0].time != 0 && series[|series| - 1].time != 0
    && series[0].time < series[|series| - 1].time
  }

  /** `toX` is affine: moving a time by `d` moves its position by the same
      amount wherever the time starts. */
  lemma ToXAffine(series: seq<Point>, a: int, b: int, d: int, width: real, now: int)
    requires Forward(series)
    ensures ToX(series, a + d, width, now) - ToX(series, a, width, now)
         == ToX(series, b + d, width, now) - ToX(series, b, width, now)
  {
    var t0 := series[0].time;
    var span := (series[|series| - 1].time - t0) as real;
    var w := PlotWidth(width);
    assert ToX(series, a + d, width, now) - ToX(series, a, width, now)
        == ((a + d - t0) as real / span - (a - t0) as real / span) * w;
    assert ToX(series, b + d, width, now) - ToX(series, b, width, now)
        == ((b + d - t0) as real / span - (b - t0) as real / span) * w;
    DivSub((a + d - t0) as real, (a - t0) as real, span);
    DivSub((b + d - t0) as real, (b - t0) as real, span);
  }

  /** Dividing two amounts by the same span divides their difference. */
  lemma DivSub(x: real, y: real, span: real)
    requires span != 0.0
    ensures x / span - y / span == (x - y) / span
  {
    assert (x / span - y / span) * span == x - y;
  }

  /** The two ends of a series map to the two edges of the plot, and equal
      ends map everything to the right edge. */
  lemma ToXEdges(series: seq<Point>, width: real, now: int)
    requires series != [] && series[0].time != 0 && series[|series| - 1].time != 0
    ensures series[0].time == series[|series| - 1].time ==>
              forall t :: ToX(series, t, width, now) == 40.0 + PlotWidth(width)
    ensures series[0].time != series[|series| - 1].time ==>
              && ToX(series, series[0].time, width, now) == 40.0
              && ToX(series, series[|series| - 1].time, width, now) == 40.0 + PlotWidth(width)
  {
    var d := (series[|series| - 1].time - series[0].time) as real;
    if d != 0.0 {
      DivSub(d, 0.0, d);
      assert (d - 0.0) / d == 1.0;
    }
  }

  /** With a series running forwards in time, later times lie further right. */
  lemma ToXMonotone(series: seq<Point>, a: int, b: int, width: real, now: int)
    requires series != [] && series[0].time != 0 && series[|series| - 1].time != 0
    requires series[0].time < series[|series| - 1].time
    requires a <= b
    ensures ToX(series, a, width, now) <= ToX(series, b, width, now)
  {
    var t0 := series[0].time;
    var d := (series[|series| - 1].time - t0) as real;
    var pa := (a - t0) as real / d;
    var pb := (b - t0) as real / d;
    assert pa <= pb;
    var w := PlotWidth(width);
    assert pa * w <= pb * w;
  }

  function Abs(x: real): real { if x < 0.0 then -x else x }

  /** The horizontal distance of point `j` from the mouse. */
  function Gap(series: seq<Point>, j: nat, x: real, width: real, now: int): real
    requires j < |series|
  {
    Abs(ToX(series, series[j].time, width, now) - x)
  }

  /** What the tooltip shows: the point and its x position. */
  datatype Hover = Hover(x: real, point: Point)

  /** The chart's state. `loading` is the component's prop. */
  class LiveChart {
    var range: Range
    var series: seq<Point>
    var intervalMs: nat
    var width: real
    var height: real
    var hover: Option<Hover>
    var loading: bool

    /** The series is never empty and never longer than the window of its
        range, and the interval is that of the range. */
    ghost predicate Valid()
      reads this
    {
      1 <= |series| <= MaxLen(range) && intervalMs == SeriesInterval(range)
    }

    constructor (price: real, now: int, draw: nat -> real, isLoading: bool)
      ensures Valid() && range == OneDay && |series| == SeriesCount(OneDay)
      ensures width == 800.0 && height == 240.0 && hover == None && loading == isLoading
    {
      range := OneDay;
      var points, interval := GenerateInitialSeries(OneDay, price, now, draw);
      series, intervalMs := points, interval;
      width, height, hover, loading := 800.0, 240.0, None, isLoading;
    }

    /** A range button, followed by the effect that regenerates the series. */
    method SetRange(r: Range, price: real, now: int, draw: nat -> real)
      modifies this`range, this`series, this`intervalMs
      ensures Valid()
      ensures range == r && intervalMs == SeriesInterval(r) && |series| == SeriesCount(r)
      ensures series[|series| - 1].time == now
      ensures forall k :: 0 <= k < |series| ==>
                series[k] == Point(SeriesTime(now, |series|, intervalMs, k), Walk(price, draw, k + 1))
    {
      range := r;
      var points, interval := GenerateInitialSeries(r, price, now, draw);
      series, intervalMs := points, interval;
    }

    /** `tick`: no ticks run while loading; otherwise a point at `now`, one
        step of at most half a percent from the last price, goes last, and
        the head goes when the series outgrows the window. */
    method Tick(now: int, d: real)
      requires Valid()
      modifies this`series
      ensures Valid()
      ensures loading ==> series == old(series)
      ensures !loading ==>
                series == Rolled(old(series), Point(now, TickPrice(old(series)[|old(series)| - 1].price, d)),
                                 MaxLen(range))
    {
      if loading {
        return;
      }
      var last := series[|series| - 1];
      var p := Point(now, TickPrice(last.price, d));
      RolledFits(series, p, MaxLen(range));
      var next := series + [p];
      if |next| > MaxLen(range) {
        next := next[1..];
      }
      assert next == Rolled(series, p, MaxLen(range));
      series := next;
    }

    /** The resize observer: the width is at least 300, the height at least
        180 and otherwise 35 percent of the width, rounded. */
    method Resize(w: real)
      modifies this`width, this`height
      ensures width == Max(300.0, w) && width >= 300.0 && width >= w
      ensures height == Max(180.0, Round(w * 0.35) as real) && height >= 180.0
    {
      width := Max(300.0, w);
      height := Max(180.0, Round(w * 0.35) as real);
    }

    /** `handleMouse`: the point closest to `x` horizontally; on a tie the
        earliest such point wins because only a strictly closer one replaces
        it. An empty series has no point, and the tooltip stays as it was. */
    method HandleMouse(x: real, now: int) returns (k: Option<nat>)
      modifies this`hover
      ensures |series| == 0 <==> k.None?
      ensures k.None? ==> hover == old(hover)
      ensures k.Some? ==>
                && k.value < |series|
                && (forall j :: 0 <= j < |series| ==> Gap(series, k.value, x, width, now) <= Gap(series, j, x, width, now))
                && (forall j :: 0 <= j < k.value ==> Gap(series, k.value, x, width, now) < Gap(series, j, x, width, now))
                && hover == Some(Hover(ToX(series, series[k.value].time, width, now), series[k.value]))
    {
      if |series| == 0 {
        return None;
      }
      var best: nat := 0;
      var bestGap := Gap(series, 0, x, width, now);
      var i := 1;
      while i < |series|
        invariant 1 <= i <= |series| && best < i
        invariant bestGap == Gap(series, best, x, width, now)
        invariant forall j :: 0 <= j < i ==> bestGap <= Gap(series, j, x, width, now)
        invariant forall j :: 0 <= j < best ==> bestGap < Gap(series, j, x, width, now)
      {
        var g := Abs(ToX(series, series[i].time, width, now) - x);
        if g < bestGap {
          best, bestGap := i, g;
        }
        i := i + 1;
      }
      k := Some(best);
      hover := Some(Hover(ToX(series, series[best].time, width, now), series[best]));
    }
  }

  /** A fresh one-day chart is full, and a tick keeps it exactly full with
      the new point last. */
  method TickScenario(price: real, now: int, draw: nat -> real)
  {
    var chart := new LiveChart(price, now, draw, false);
    chart.Tick(now + 15000, 0.5);
    assert |chart.series| == 1440;
    assert chart.series[1439].time == now + 15000;
  }
}
