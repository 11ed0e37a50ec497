/**
 * The accelerometer `Plotter` of `src/plot/plotter.ts`: raw samples are
 * collected five at a time, each full block becomes one point (the block
 * mean), points live in a FIFO window of at most 100, a block whose time lies
 * before the last point is discarded, and the window is redrawn through a
 * trailing moving average of width 5.
 *
 * Chart-library calls are recorded as render events carrying the arrays
 * passed; numbers are reals.
 */
module Smoother {
  import opened Wrappers

  /** The most points the window keeps. */
  const MaxPoints: nat := 100
  /** The width of the trailing moving average. */
  const WindowSize: nat := 5
  /** How many raw samples make one block. */
  const BufferSize: nat := 5

  /** `reduce((sum, val) => sum + val, 0)`: the left-to-right sum. */
  function Sum(s: seq<real>): real {
    if s == [] then 0.0 else Sum(s[..|s| - 1]) + s[|s| - 1]
  }

  /** `averageBuffer`: the arithmetic mean of a non-empty buffer; a block of equal samples averages to that sample. */
  function Mean(s: seq<real>): (m: real)
    requires |s| > 0
    ensures (forall i :: 0 <= i < |s| ==> s[i] == s[0]) ==> m == s[0]
  {
    SumConstant(s);
    Sum(s) / (|s| as real)
  }

  lemma SumConstant(s: seq<real>)
    requires |s| > 0
    ensures (forall i :: 0 <= i < |s| ==> s[i] == s[0]) ==> Sum(s) == (|s| as real) * s[0]
  {
    if forall i :: 0 <= i < |s| ==> s[i] == s[0] {
      SumBounds(s, s[0], s[0]);
    }
  }

  lemma {:induction false} SumBounds(s: seq<real>, low: real, high: real)
    requires forall i :: 0 <= i < |s| ==> low <= s[i] <= high
    ensures (|s| as real) * low <= Sum(s) <= (|s| as real) * high
  {
    if s != [] {
      SumBounds(s[..|s| - 1], low, high);
      assert (|s| as real) * low == ((|s| - 1) as real) * low + low;
      assert (|s| as real) * high == ((|s| - 1) as real) * high + high;
    }
  }

  /** A mean lies between the smallest and the largest of its values. */
  lemma MeanBounds(s: seq<real>, low: real, high: real)
    requires |s| > 0
    requires forall i :: 0 <= i < |s| ==> low <= s[i] <= high
    ensures low <= Mean(s) <= high
  {
    SumBounds(s, low, high);
    QuotientBounds(Sum(s), |s| as real, low, high);
  }

  /** Dividing by a positive count keeps per-element bounds. */
  lemma QuotientBounds(total: real, n: real, low: real, high: real)
    requires n > 0.0 && n * low <= total <= n * high
    ensures low <= total / n <= high
  {
    assert total == (total / n) * n;
  }

  /** The block `[1, 2, 3, 4, 5]` averages to 3. */
  lemma BlockMeanExample()
    ensures Mean([1.0, 2.0, 3.0, 4.0, 5.0]) == 3.0
  {
    assert [1.0][..0] == [];
    assert [1.0, 2.0][..1] == [1.0];
    assert [1.0, 2.0, 3.0][..2] == [1.0, 2.0];
    assert [1.0, 2.0, 3.0, 4.0][..3] == [1.0, 2.0, 3.0];
    assert [1.0, 2.0, 3.0, 4.0, 5.0][..4] == [1.0, 2.0, 3.0, 4.0];
    assert Sum([1.0, 2.0, 3.0, 4.0]) == 10.0;
  }

  /** `Math.max(0, i - windowSize + 1)`: where the window ending at `i` starts. */
  function WindowStart(i: nat): nat {
    if i + 1 > WindowSize then i + 1 - WindowSize else 0
  }

  /** The mean of `data[max(0, i-4) ..= i]`. */
  function TrailingMean(data: seq<real>, i: nat): real
    requires i < |data|
  {
    Mean(data[WindowStart(i)..i + 1])
  }

  /**
   * `movingAverage`: the same number of values, value `i` being the mean of
   * the at most `WindowSize` values ending at `i`.
   */
  function MovingAverage(data: seq<real>): (smoothed: seq<real>)
    ensures |smoothed| == |data|
    ensures forall i :: 0 <= i < |data| ==> smoothed[i] == TrailingMean(data, i)
  {
    seq(|data|, i requires 0 <= i < |data| => TrailingMean(data, i))
  }

  /**
   * Appending a point leaves every earlier smoothed value as it was: the
   * whole-window recomputation equals an incremental one.
   */
  lemma MovingAverageExtend(data: seq<real>, v: real)
    ensures MovingAverage(data + [v]) == MovingAverage(data) + [TrailingMean(data + [v], |data|)]
  {
    var longer := data + [v];
    forall i | 0 <= i < |data|
      ensures TrailingMean(longer, i) == TrailingMean(data, i)
    {
      assert longer[WindowStart(i)..i + 1] == data[WindowStart(i)..i + 1];
    }
  }

  /** Smoothing never leaves the range of the raw points. */
  lemma MovingAverageBounded(data: seq<real>, low: real, high: real)
    requires forall i :: 0 <= i < |data| ==> low <= data[i] <= high
    ensures forall i :: 0 <= i < |data| ==> low <= MovingAverage(data)[i] <= high
  {
    forall i | 0 <= i < |data|
      ensures low <= TrailingMean(data, i) <= high
    {
      var window := data[WindowStart(i)..i + 1];
      assert forall k :: 0 <= k < |window| ==> window[k] == data[WindowStart(i) + k];
      MeanBounds(window, low, high);
    }
  }

  /** `indices.slice(-n)`: the last `n` entries, or all of them when `n` is 0 or too large. */
  function SliceFromEnd(s: seq<real>, n: nat): (r: seq<real>)
    ensures n == |s| ==> r == s
    ensures 0 < n <= |s| ==> |r| == n && r == s[|s| - n..]
  {
    if n == 0 || n >= |s| then s else s[|s| - n..]
  }

  /** The seconds of history the x axis shows, and the head room ahead of the newest point. */
  const VisibleSeconds: real := 10.0
  const FutureTimeBuffer: real := 2.5

  /**
   * `updateXAxisRange(elapsed)`: show `[max(0, elapsed - 10), elapsed + 2.5]`.
   * The axis always shows the newest point with 2.5 s to spare; after the
   * first 10 s it scrolls with a fixed width of 12.5 s, before that it
   * starts at 0.
   */
  function AxisUpdate(elapsed: real): (r: Render)
    ensures r.XAxisRange? && r.high == elapsed + FutureTimeBuffer
    ensures elapsed >= 0.0 ==> r.low <= elapsed < r.high
    ensures elapsed >= VisibleSeconds ==> r.high - r.low == VisibleSeconds + FutureTimeBuffer
    ensures elapsed <= VisibleSeconds ==> r.low == 0.0
  {
    XAxisRange(if elapsed - VisibleSeconds > 0.0 then elapsed - VisibleSeconds else 0.0, elapsed + FutureTimeBuffer)
  }

  /** Everything `updatePlot` and `resetPlot` read and write, `buffer.x/y/z` included. */
  datatype Window = Window(
    startTime: Option<real>,
    bufferX: seq<real>,
    bufferY: seq<real>,
    bufferZ: seq<real>,
    indices: seq<real>,
    xData: seq<real>,
    yData: seq<real>,
    zData: seq<real>)

  const EmptyWindow: Window := Window(None, [], [], [], [], [], [], [])

  /** One call into the chart library. */
  datatype Render =
    | NewPlot                                                        // three empty traces
    | React(x: seq<real>, smoothedX: seq<real>, smoothedY: seq<real>, smoothedZ: seq<real>)
    | XAxisRange(low: real, high: real)                              // `relayout` of `xaxis.range`

  /**
   * The shape every reachable window has: equal-length accumulators holding
   * less than a block, equal-length series of at most `MaxPoints`, and
   * nothing stored before the first sample set `startTime`.
   */
  ghost predicate WellFormed(w: Window) {
    && |w.bufferX| == |w.bufferY| == |w.bufferZ| < BufferSize
    && |w.indices| == |w.xData| == |w.yData| == |w.zData| <= MaxPoints
    && (w.startTime.None? ==> w.bufferX == [] && w.indices == [])
  }

  predicate NonDecreasing(s: seq<real>) {
    forall i, j :: 0 <= i < j < |s| ==> s[i] <= s[j]
  }

  /** `shift()` on a series when the window is full. */
  function Evict(s: seq<real>, full: bool): seq<real> {
    if full && s != [] then s[1..] else s
  }

  datatype StepResult = StepResult(window: Window, events: seq<Render>)

  /** `(timestamp - startTime) / 1000`. */
  function Elapsed(start: real, timestamp: real): real {
    (timestamp - start) / 1000.0
  }

  /** The start of `updatePlot`: fix `startTime` on the first sample and push the sample into the accumulators. */
  function Accumulate(w: Window, timestamp: real, x: real, y: real, z: real): Window {
    w.(startTime := Some(if w.startTime.None? then timestamp else w.startTime.value),
       bufferX := w.bufferX + [x], bufferY := w.bufferY + [y], bufferZ := w.bufferZ + [z])
  }

  /** A full block: empty the accumulators, then drop the oldest point of a full window. */
  function CloseBlock(w: Window): Window {
    var full := |w.indices| >= MaxPoints;
    w.(bufferX := [], bufferY := [], bufferZ := [],
       indices := Evict(w.indices, full), xData := Evict(w.xData, full),
       yData := Evict(w.yData, full), zData := Evict(w.zData, full))
  }

  /** The out-of-order guard: the block's time lies before the last kept point. */
  predicate Late(w: Window, elapsed: real) {
    |w.indices| > 0 && elapsed < w.indices[|w.indices| - 1]
  }

  /** Append one point per series. */
  function AppendPoint(w: Window, elapsed: real, meanX: real, meanY: real, meanZ: real): Window {
    w.(indices := w.indices + [elapsed], xData := w.xData + [meanX],
       yData := w.yData + [meanY], zData := w.zData + [meanZ])
  }

  /** `Plotly.react` with the smoothed series against the matching time points. */
  function Redraw(w: Window): Render {
    var smoothedX := MovingAverage(w.xData);
    React(SliceFromEnd(w.indices, |smoothedX|), smoothedX, MovingAverage(w.yData), MovingAverage(w.zData))
  }

  /**
   * One `updatePlot(timestamp, x, y, z)` call. The window stays well formed
   * and `startTime` is fixed by the first sample.
   */
  function Step(w: Window, timestamp: real, x: real, y: real, z: real): (r: StepResult)
    requires WellFormed(w)
    ensures WellFormed(r.window)
    ensures r.window.startTime == Some(if w.startTime.None? then timestamp else w.startTime.value)
  {
    var a := Accumulate(w, timestamp, x, y, z);
    var elapsed := Elapsed(a.startTime.value, timestamp);
    if |a.bufferX| < BufferSize then
      StepResult(a, [AxisUpdate(elapsed)])
    else
      var kept := CloseBlock(a);
      if Late(kept, elapsed) then
        StepResult(kept, [])
      else
        var next := AppendPoint(kept, elapsed, Mean(a.bufferX), Mean(a.bufferY), Mean(a.bufferZ));
        StepResult(next, [Redraw(next), AxisUpdate(elapsed)])
  }

  /** The branch of `Step` where the block is not yet full, as one equation. */
  lemma StepBufferCase(w: Window, timestamp: real, x: real, y: real, z: real, a: Window, elapsed: real)
    requires WellFormed(w)
    requires a == Accumulate(w, timestamp, x, y, z) && elapsed == Elapsed(a.startTime.value, timestamp)
    requires |a.bufferX| < BufferSize
    ensures Step(w, timestamp, x, y, z) == StepResult(a, [AxisUpdate(elapsed)])
  {
  }

  /** The branch of `Step` that drops a late block, as one equation. */
  lemma StepLateCase(w: Window, timestamp: real, x: real, y: real, z: real, a: Window, elapsed: real)
    requires WellFormed(w)
    requires a == Accumulate(w, timestamp, x, y, z) && elapsed == Elapsed(a.startTime.value, timestamp)
    requires |a.bufferX| >= BufferSize && Late(CloseBlock(a), elapsed)
    ensures Step(w, timestamp, x, y, z) == StepResult(CloseBlock(a), [])
  {
  }

  /** The branch of `Step` that appends a block, as one equation. */
  lemma StepAppendCase(w: Window, timestamp: real, x: real, y: real, z: real, a: Window, elapsed: real)
    requires WellFormed(w)
    requires a == Accumulate(w, timestamp, x, y, z) && elapsed == Elapsed(a.startTime.value, timestamp)
    requires |a.bufferX| >= BufferSize && !Late(CloseBlock(a), elapsed)
    ensures var next := AppendPoint(CloseBlock(a), elapsed, Mean(a.bufferX), Mean(a.bufferY), Mean(a.bufferZ));
      Step(w, timestamp, x, y, z) == StepResult(next, [Redraw(next), AxisUpdate(elapsed)])
  {
  }

  /** The redraw shows each series smoothed, against the whole time series. */
  lemma RedrawShowsSmoothed(w: Window)
    requires |w.indices| == |w.xData|
    ensures Redraw(w) == React(w.indices, MovingAverage(w.xData), MovingAverage(w.yData), MovingAverage(w.zData))
  {
  }

  /** The time series stays sorted: the guard rejects exactly the blocks that would break the order. */
  lemma {:induction false} StepKeepsOrder(w: Window, timestamp: real, x: real, y: real, z: real)
    requires WellFormed(w) && NonDecreasing(w.indices)
    ensures NonDecreasing(Step(w, timestamp, x, y, z).window.indices)
  {
    var a := Accumulate(w, timestamp, x, y, z);
    var elapsed := Elapsed(a.startTime.value, timestamp);
    if |a.bufferX| >= BufferSize {
      var kept := CloseBlock(a);
      var s := kept.indices;
      assert NonDecreasing(s) by {
        if |w.indices| >= MaxPoints {
          assert forall i :: 0 <= i < |s| ==> s[i] == w.indices[i + 1];
        }
      }
      if !Late(kept, elapsed) {
        var t := s + [elapsed];
        forall i, j | 0 <= i < j < |t|
          ensures t[i] <= t[j]
        {
          if j == |s| {
            assert t[i] == s[i] <= s[|s| - 1];
          }
        }
      }
    }
  }

  /** Before a block is full the sample only joins the accumulators. */
  lemma StepBuffers(w: Window, timestamp: real, x: real, y: real, z: real)
    requires WellFormed(w) && |w.bufferX| + 1 < BufferSize
    ensures var r := Step(w, timestamp, x, y, z);
      && r.window.bufferX == w.bufferX + [x] && r.window.bufferY == w.bufferY + [y] && r.window.bufferZ == w.bufferZ + [z]
      && r.window.indices == w.indices && r.window.xData == w.xData
      && r.window.yData == w.yData && r.window.zData == w.zData
      && r.events == [AxisUpdate(Elapsed(r.window.startTime.value, timestamp))]
  {
  }

  /**
   * The fifth sample closes the block: the accumulators are emptied and, if
   * the block is not late, one point per axis equal to the block mean is
   * appended after the oldest point was dropped from a full window, and the
   * chart is redrawn.
   */
  lemma StepAppendsBlockMean(w: Window, timestamp: real, x: real, y: real, z: real)
    requires WellFormed(w) && |w.bufferX| + 1 == BufferSize
    requires var full := |w.indices| >= MaxPoints;
             var kept := Evict(w.indices, full);
             var start := if w.startTime.None? then timestamp else w.startTime.value;
             !(|kept| > 0 && Elapsed(start, timestamp) < kept[|kept| - 1])
    ensures var r := Step(w, timestamp, x, y, z);
      var full := |w.indices| >= MaxPoints;
      var elapsed := Elapsed(r.window.startTime.value, timestamp);
      && r.window.bufferX == [] && r.window.bufferY == [] && r.window.bufferZ == []
      && r.window.indices == Evict(w.indices, full) + [elapsed]
      && r.window.xData == Evict(w.xData, full) + [Mean(w.bufferX + [x])]
      && r.window.yData == Evict(w.yData, full) + [Mean(w.bufferY + [y])]
      && r.window.zData == Evict(w.zData, full) + [Mean(w.bufferZ + [z])]
      && |r.window.indices| == (if full then MaxPoints else |w.indices| + 1)
      && r.events == [Redraw(r.window), AxisUpdate(elapsed)]
  {
  }

  /**
   * A closed block whose time lies before the last kept point is thrown
   * away, after the accumulators were emptied and the oldest point of a
   * full window was already dropped; there is no redraw and no axis update.
   */
  lemma StepDropsLateBlock(w: Window, timestamp: real, x: real, y: real, z: real)
    requires WellFormed(w) && |w.bufferX| + 1 == BufferSize
    requires var full := |w.indices| >= MaxPoints;
             var kept := Evict(w.indices, full);
             var start := if w.startTime.None? then timestamp else w.startTime.value;
             |kept| > 0 && Elapsed(start, timestamp) < kept[|kept| - 1]
    ensures var r := Step(w, timestamp, x, y, z);
      var full := |w.indices| >= MaxPoints;
      && r.window.bufferX == [] && r.window.bufferY == [] && r.window.bufferZ == []
      && r.window.indices == Evict(w.indices, full) && r.window.xData == Evict(w.xData, full)
      && r.window.yData == Evict(w.yData, full) && r.window.zData == Evict(w.zData, full)
      && r.events == []
  {
  }

  /** The last `n` entries of `s` (all of them when there are fewer). */
  function Recent(s: seq<real>, n: nat): (r: seq<real>)
    ensures |r| <= n && |r| <= |s|
  {
    if |s| <= n then s else s[|s| - n..]
  }

  /**
   * Dropping the oldest point of a full window and appending keeps exactly
   * the `MaxPoints` most recent points: if a series is the last `MaxPoints`
   * of some history, one eviction-and-append step leaves the last
   * `MaxPoints` of that history extended by the new point.
   */
  lemma EvictKeepsRecent(s: seq<real>, v: real, history: seq<real>)
    requires |s| <= MaxPoints
    requires s == Recent(history, MaxPoints)
    ensures Evict(s, |s| >= MaxPoints) + [v] == Recent(history + [v], MaxPoints)
  {
    var h := history + [v];
    if |history| > MaxPoints {
      assert s == history[|history| - MaxPoints..];
      assert s[1..] + [v] == h[|h| - MaxPoints..];
    } else if |history| == MaxPoints {
      assert s == history;
      assert s[1..] + [v] == h[|h| - MaxPoints..];
    }
  }

  /**
   * The body of `updatePlot(timestamp, x, y, z)`, step by step on the
   * plotter's window: it returns the new window and the chart calls made,
   * exactly those of `Step`.
   */
  method UpdateWindow(w: Window, timestamp: real, x: real, y: real, z: real) returns (next: Window, events: seq<Render>)
    requires WellFormed(w)
    ensures StepResult(next, events) == Step(w, timestamp, x, y, z)
  {
    var start := w.startTime;
    if start.None? {
      start := Some(timestamp);
    }
    var elapsedTime := (timestamp - start.value) / 1000.0;
    var blockX, blockY, blockZ := w.bufferX + [x], w.bufferY + [y], w.bufferZ + [z];
    var accumulated := Window(start, blockX, blockY, blockZ, w.indices, w.xData, w.yData, w.zData);
    assert accumulated == Accumulate(w, timestamp, x, y, z);

    if |blockX| < BufferSize {
      next := accumulated;
      events := [AxisUpdate(elapsedTime)];
      StepBufferCase(w, timestamp, x, y, z, accumulated, elapsedTime);
      return;
    }

    var avgX, avgY, avgZ := Mean(blockX), Mean(blockY), Mean(blockZ);
    var times, xs, ys, zs := w.indices, w.xData, w.yData, w.zData;
    if |times| >= MaxPoints {
      times, xs, ys, zs := times[1..], xs[1..], ys[1..], zs[1..];
    }
    next := Window(start, [], [], [], times, xs, ys, zs);
    assert next == CloseBlock(accumulated);

    if |times| > 0 && elapsedTime < times[|times| - 1] {
      events := [];
      StepLateCase(w, timestamp, x, y, z, accumulated, elapsedTime);
      return;
    }

    ghost var kept := next;
    times, xs, ys, zs := times + [elapsedTime], xs + [avgX], ys + [avgY], zs + [avgZ];
    next := Window(start, [], [], [], times, xs, ys, zs);
    assert next == AppendPoint(kept, elapsedTime, avgX, avgY, avgZ);
    var smoothedX, smoothedY, smoothedZ := MovingAverage(xs), MovingAverage(ys), MovingAverage(zs);
    var alignedIndices := SliceFromEnd(times, |smoothedX|);
    events := [React(alignedIndices, smoothedX, smoothedY, smoothedZ), AxisUpdate(elapsedTime)];
    StepAppendCase(w, timestamp, x, y, z, accumulated, elapsedTime);
  }

  /** The `Plotter` class of `plotter.ts`, without its layout and chart options. */
  class Plotter {
    var startTime: Option<real>
    var indices: seq<real>
    var xData: seq<real>
    var yData: seq<real>
    var zData: seq<real>
    var bufferX: seq<real>
    var bufferY: seq<real>
    var bufferZ: seq<real>
    /** The chart-library calls made so far. */
    var renders: seq<Render>

    function State(): Window
      reads this
    {
      Window(startTime, bufferX, bufferY, bufferZ, indices, xData, yData, zData)
    }

    ghost predicate Valid()
      reads this
    {
      WellFormed(State()) && NonDecreasing(indices)
    }

    constructor ()
      ensures Valid() && State() == EmptyWindow && renders == [NewPlot]
    {
      startTime := None;
      indices, xData, yData, zData := [], [], [], [];
      bufferX, bufferY, bufferZ := [], [], [];
      renders := [NewPlot];
    }

    /** `resetPlot`: empty every series and accumulator and forget the start time. */
    method ResetPlot()
      modifies this
      ensures Valid() && State() == EmptyWindow
      ensures renders == old(renders) + [NewPlot]
    {
      startTime := None;
      indices, xData, yData, zData := [], [], [], [];
      bufferX, bufferY, bufferZ := [], [], [];
      renders := renders + [NewPlot];
    }

    /** `updatePlot(timestamp, x, y, z)`. */
    method UpdatePlot(timestamp: real, x: real, y: real, z: real)
      requires Valid()
      modifies this
      ensures Valid()
      ensures var r := Step(old(State()), timestamp, x, y, z);
              State() == r.window && renders == old(renders) + r.events
    {
      // the sorted time series survives the call
      StepKeepsOrder(State(), timestamp, x, y, z);
      var next, events := UpdateWindow(State(), timestamp, x, y, z);
      startTime, bufferX, bufferY, bufferZ := next.startTime, next.bufferX, next.bufferY, next.bufferZ;
      indices, xData, yData, zData := next.indices, next.xData, next.yData, next.zData;
      renders := renders + events;
    }
  }
}
