/**
 * The older accelerometer `Plotter` of `src/plot/p.ts`. It shares the block
 * averaging and the 100-point window of `Smoother`, but it has no
 * out-of-order guard and no x-axis scrolling, its moving average is a loop,
 * and it redraws against the whole time series.
 */
module LegacySmoother {
  import opened Wrappers
  import opened Smoother

  /** The redraw of `p.ts`: each smoothed series against `indices` as they are. */
  function Chart(w: Window): Render {
    React(w.indices, MovingAverage(w.xData), MovingAverage(w.yData), MovingAverage(w.zData))
  }

  /**
   * One `updatePlot(timestamp, x, y, z)` call of `p.ts`: the window stays
   * well formed and `startTime` is fixed by the first sample.
   */
  function Update(w: Window, timestamp: real, x: real, y: real, z: real): (r: StepResult)
    requires WellFormed(w)
    ensures WellFormed(r.window)
    ensures r.window.startTime == Some(if w.startTime.None? then timestamp else w.startTime.value)
  {
    var a := Accumulate(w, timestamp, x, y, z);
    var elapsed := Elapsed(a.startTime.value, timestamp);
    if |a.bufferX| < BufferSize then
      StepResult(a, [])
    else
      var next := AppendPoint(CloseBlock(a), elapsed, Mean(a.bufferX), Mean(a.bufferY), Mean(a.bufferZ));
      StepResult(next, [Chart(next)])
  }

  /** Before a block is full the sample only joins the accumulators, and nothing is drawn. */
  lemma StepBuffers(w: Window, timestamp: real, x: real, y: real, z: real)
    requires WellFormed(w) && |w.bufferX| + 1 < BufferSize
    ensures var r := Update(w, timestamp, x, y, z);
      && r.window.bufferX == w.bufferX + [x] && r.window.bufferY == w.bufferY + [y] && r.window.bufferZ == w.bufferZ + [z]
      && r.window.indices == w.indices && r.window.xData == w.xData
      && r.window.yData == w.yData && r.window.zData == w.zData
      && r.events == []
  {
  }

  /**
   * The fifth sample always appends one point per axis, the block mean,
   * after the oldest point was dropped from a full window, whatever its time.
   */
  lemma StepAppendsBlockMean(w: Window, timestamp: real, x: real, y: real, z: real)
    requires WellFormed(w) && |w.bufferX| + 1 == BufferSize
    ensures var r := Update(w, timestamp, x, y, z);
      var full := |w.indices| >= MaxPoints;
      var elapsed := Elapsed(r.window.startTime.value, timestamp);
      && r.window.bufferX == [] && r.window.bufferY == [] && r.window.bufferZ == []
      && r.window.indices == Evict(w.indices, full) + [elapsed]
      && r.window.xData == Evict(w.xData, full) + [Mean(w.bufferX + [x])]
      && r.window.yData == Evict(w.yData, full) + [Mean(w.bufferY + [y])]
      && r.window.zData == Evict(w.zData, full) + [Mean(w.bufferZ + [z])]
      && |r.window.indices| == (if full then MaxPoints else |w.indices| + 1)
      && r.events == [React(r.window.indices, MovingAverage(r.window.xData),
                            MovingAverage(r.window.yData), MovingAverage(r.window.zData))]
  {
  }

  /**
   * Where the newer plotter keeps a block, both plotters reach the same
   * window and draw the same chart; the newer one only adds the axis update.
   */
  lemma AgreesWithSmootherInOrder(w: Window, timestamp: real, x: real, y: real, z: real)
    requires WellFormed(w)
    requires var a := Accumulate(w, timestamp, x, y, z);
             !(|a.bufferX| >= BufferSize && Late(CloseBlock(a), Elapsed(a.startTime.value, timestamp)))
    ensures var legacy := Update(w, timestamp, x, y, z);
      var current := Smoother.Step(w, timestamp, x, y, z);
      && legacy.window == current.window
      && current.events == legacy.events + [AxisUpdate(Elapsed(current.window.startTime.value, timestamp))]
  {
    var a := Accumulate(w, timestamp, x, y, z);
    var elapsed := Elapsed(a.startTime.value, timestamp);
    if |a.bufferX| >= BufferSize {
      var next := AppendPoint(CloseBlock(a), elapsed, Mean(a.bufferX), Mean(a.bufferY), Mean(a.bufferZ));
      StepAppendCase(w, timestamp, x, y, z, a, elapsed);
      RedrawShowsSmoothed(next);
    }
  }

  /**
   * Without the guard a late block is appended as it is, so the time series
   * can go backwards: a point at 1 s followed by a block stamped at the
   * start time gives `[1.0, 0.0]`.
   */
  lemma IndicesCanDecrease()
    ensures var w := Window(Some(0.0), [0.0, 0.0, 0.0, 0.0], [0.0, 0.0, 0.0, 0.0], [0.0, 0.0, 0.0, 0.0],
                            [1.0], [0.0], [0.0], [0.0]);
            && WellFormed(w) && NonDecreasing(w.indices)
            && Update(w, 0.0, 0.0, 0.0, 0.0).window.indices == [1.0, 0.0]
            && !NonDecreasing(Update(w, 0.0, 0.0, 0.0, 0.0).window.indices)
  {
    var w := Window(Some(0.0), [0.0, 0.0, 0.0, 0.0], [0.0, 0.0, 0.0, 0.0], [0.0, 0.0, 0.0, 0.0],
                    [1.0], [0.0], [0.0], [0.0]);
    var s := Update(w, 0.0, 0.0, 0.0, 0.0).window.indices;
    assert s == [1.0] + [0.0];
    assert s[0] > s[1];
  }

  /**
   * The body of `updatePlot(timestamp, x, y, z)` of `p.ts`, step by step on
   * the plotter's window: it returns the new window and the chart calls
   * made, exactly those of `Update`.
   */
  method UpdateSeries(w: Window, timestamp: real, x: real, y: real, z: real) returns (next: Window, events: seq<Render>)
    requires WellFormed(w)
    ensures StepResult(next, events) == Update(w, timestamp, x, y, z)
  {
    var start := w.startTime;
    if start.None? {
      start := Some(timestamp);
    }
    var elapsedTime := (timestamp - start.value) / 1000.0;
    var blockX, blockY, blockZ := w.bufferX + [x], w.bufferY + [y], w.bufferZ + [z];
    var accumulated := Window(start, blockX, blockY, blockZ, w.indices, w.xData, w.yData, w.zData);
    assert accumulated == Accumulate(w, timestamp, x, y, z);

    if |blockX| < BufferSize {
      return accumulated, [];
    }

    var avgX, avgY, avgZ := Mean(blockX), Mean(blockY), Mean(blockZ);
    var times, xs, ys, zs := w.indices, w.xData, w.yData, w.zData;
    if |times| >= MaxPoints {
      times, xs, ys, zs := times[1..], xs[1..], ys[1..], zs[1..];
    }
    ghost var kept := Window(start, [], [], [], times, xs, ys, zs);
    assert kept == CloseBlock(accumulated);

    times, xs, ys, zs := times + [elapsedTime], xs + [avgX], ys + [avgY], zs + [avgZ];
    next := Window(start, [], [], [], times, xs, ys, zs);
    assert next == AppendPoint(kept, elapsedTime, avgX, avgY, avgZ);
    var smoothedX := Plotter.MovingAverage(xs);
    var smoothedY := Plotter.MovingAverage(ys);
    var smoothedZ := Plotter.MovingAverage(zs);
    events := [React(times, smoothedX, smoothedY, smoothedZ)];
  }

  /** The `Plotter` class of `p.ts`, without its layout and chart options. */
  class Plotter {
    var startTime: Option<real>
    var indices: seq<real>
    var xData: seq<real>
    var yData: seq<real>
    var zData: seq<real>
    var bufferX: seq<real>
    var bufferY: seq<real>
    var bufferZ: seq<real>
    /** The chart-library calls made so far. */
    var renders: seq<Render>

    function State(): Window
      reads this
    {
      Window(startTime, bufferX, bufferY, bufferZ, indices, xData, yData, zData)
    }

    ghost predicate Valid()
      reads this
    {
      WellFormed(State())
    }

    constructor ()
      ensures Valid() && State() == EmptyWindow && renders == [NewPlot]
    {
      startTime := None;
      indices, xData, yData, zData := [], [], [], [];
      bufferX, bufferY, bufferZ := [], [], [];
      renders := [NewPlot];
    }

    /**
     * The loop-based `movingAverage`: the same values as the functional
     * moving average of the newer plotter.
     */
    static method MovingAverage(data: seq<real>) returns (result: seq<real>)
      ensures result == Smoother.MovingAverage(data)
    {
      result := [];
      for i := 0 to |data|
        invariant |result| == i
        invariant forall k :: 0 <= k < i ==> result[k] == TrailingMean(data, k)
      {
        var start := if i - WindowSize + 1 > 0 then i - WindowSize + 1 else 0;
        var end := i + 1;
        var subset := data[start..end];
        var avg := Sum(subset) / (|subset| as real);
        result := result + [avg];
      }
    }

    /** `updatePlot(timestamp, x, y, z)` of `p.ts`. */
    method UpdatePlot(timestamp: real, x: real, y: real, z: real)
      requires Valid()
      modifies this
      ensures Valid()
      ensures var r := Update(old(State()), timestamp, x, y, z);
              State() == r.window && renders == old(renders) + r.events
    {
      var next, events := UpdateSeries(State(), timestamp, x, y, z);
      startTime, bufferX, bufferY, bufferZ := next.startTime, next.bufferX, next.bufferY, next.bufferZ;
      indices, xData, yData, zData := next.indices, next.xData, next.yData, next.zData;
      renders := renders + events;
    }
  }
}
