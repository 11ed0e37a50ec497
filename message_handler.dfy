/**
 * The two message handlers of `src/utils/messageHandler.ts`: `handleConfig`,
 * which decides whether an incoming chart configuration replaces the active
 * one and shapes the per-series plot data, and `handleData`, which turns a
 * data message into the chart update for the active configuration.
 *
 * Chart-library calls are not modelled; each handler instead yields the list
 * of render events it would issue, carrying the arrays it would pass.
 */
module MessageHandler {
  import opened Wrappers

  /** One axis of a configuration: `{ label, min, max }` (`label` is a Dafny keyword, hence `caption`). */
  datatype Axis = Axis(caption: string, min: real, max: real)

  /** One entry of `config.series`; `color` and `symbol` are optional. */
  datatype Series = Series(name: string, displayName: string, color: Option<string>, symbol: Option<string>)

  /**
   * A `GraphConfig` as it arrives on the wire. The fields the handler reads
   * as objects (`x`, `y`, `series`) may be missing: the legacy device
   * scripts send `xLabel`/`sensors` instead, and reading a property of the
   * missing object throws.
   */
  datatype GraphConfig = GraphConfig(
    graphType: string,
    title: string,
    x: Option<Axis>,
    y: Option<Axis>,
    series: Option<seq<Series>>)

  /** A data message: device timestamp in milliseconds and the sampled values by series name. */
  datatype DataMessage = DataMessage(timestamp: real, values: Option<map<string, real>>)

  /** A value stored under one key of the untyped `plotData` dictionary. */
  datatype PlotValue =
    | Names(names: seq<string>)        // `x` of a bar chart, `labels` of a pie chart
    | Numbers(numbers: seq<real>)      // `y` of a bar chart, `values` of a pie chart
    | Text(text: string)               // `type`
    | BarMarker(color: seq<string>)    // `marker` of a bar chart: `{ color: [...] }`
    | PieMarker(colors: seq<string>)   // `marker` of a pie chart: `{ colors: [...] }`

  /** The contents of a `PlotData` dictionary. */
  type PlotEntries = map<string, PlotValue>

  /** The connector's `plotData` object, which `handleConfig` updates in place for bar and pie charts. */
  class PlotData {
    var entries: PlotEntries

    constructor ()
      ensures entries == map[]
    {
      entries := map[];
    }
  }

  /** One line or scatter trace handed to the chart library. */
  datatype Trace = Trace(
    name: string,
    kind: string,
    mode: string,
    lineColor: Option<string>,
    symbol: string,
    size: nat,
    markerColor: string)

  datatype Range = Range(low: real, high: real)

  /** The parts of a chart layout the handlers set. */
  datatype Layout = Layout(
    title: string,
    xLabel: Option<string>,
    xCategory: bool,
    xRange: Option<Range>,
    yLabel: Option<string>,
    yRange: Option<Range>)

  /** One call into the chart library, with the data it is given. */
  datatype RenderEvent =
    | NewPlot(data: PlotEntries, layout: Layout)             // newPlot with `[plotData]`
    | NewTracePlot(traces: seq<Trace>, layout: Layout)       // newPlot with one trace per series
    | ExtendTraces(x: seq<real>, y: seq<real>, traceIndices: seq<nat>, maxPoints: Option<nat>)
    | Restyle(attribute: string, values: seq<real>)          // update of trace 0 with `{ attribute: [values] }`

  /** The x-axis label that turns on scrolling and the point cap. */
  const TimeAxisLabel: string := "time (seconds)"
  /** How many points a scrolling trace keeps. */
  const ScrollingMaxPoints: nat := 30
  const DefaultColor: string := "blue"
  const DefaultSymbol: string := "circle"
  const MarkerSize: nat := 6

  /** JavaScript's `value || fallback` on an optional string: absent and `""` are both falsy. */
  function OrElse(value: Option<string>, fallback: string): string {
    if value.Some? && value.value != "" then value.value else fallback
  }

  predicate IsTraceKind(graphType: string) {
    graphType == "line" || graphType == "scatter"
  }

  /** `series.map((sensor) => sensor.name)`. */
  function SeriesNames(series: seq<Series>): (names: seq<string>)
    ensures |names| == |series|
    ensures forall i :: 0 <= i < |series| ==> names[i] == series[i].name
  {
    if series == [] then [] else [series[0].name] + SeriesNames(series[1..])
  }

  /** `series.map(() => 0)`. */
  function Zeros(n: nat): (zeros: seq<real>)
    ensures |zeros| == n
    ensures forall i :: 0 <= i < n ==> zeros[i] == 0.0
  {
    if n == 0 then [] else Zeros(n - 1) + [0.0]
  }

  /** `series.map((sensor) => sensor.color || "blue")`. */
  function MarkerColors(series: seq<Series>): (colors: seq<string>)
    ensures |colors| == |series|
    ensures forall i :: 0 <= i < |series| ==> colors[i] == OrElse(series[i].color, DefaultColor)
  {
    if series == [] then [] else [OrElse(series[0].color, DefaultColor)] + MarkerColors(series[1..])
  }

  /** The trace built for one series of a line or scatter chart. */
  function TraceFor(graphType: string, s: Series): Trace {
    var scatter := graphType == "scatter";
    Trace(
      name := s.displayName,
      kind := if scatter then "scatter" else "line",
      mode := if scatter then "markers" else "lines",
      lineColor := s.color,
      symbol := OrElse(s.symbol, DefaultSymbol),
      size := MarkerSize,
      markerColor := OrElse(s.color, DefaultColor))
  }

  /** The traces of a line or scatter chart: one per series, in declaration order. */
  function Traces(graphType: string, series: seq<Series>): (traces: seq<Trace>)
    ensures |traces| == |series|
    ensures forall i :: 0 <= i < |series| ==>
      traces[i].name == series[i].displayName && traces[i].symbol == OrElse(series[i].symbol, DefaultSymbol)
    ensures forall i :: 0 <= i < |series| ==> traces[i] == TraceFor(graphType, series[i])
  {
    if series == [] then [] else [TraceFor(graphType, series[0])] + Traces(graphType, series[1..])
  }

  /**
   * The bar-chart shaping of `plotData`: it keeps every other key and sets
   * `x`, `y`, `type` and `marker`.
   */
  function BarEntries(plot: PlotEntries, series: seq<Series>): (r: PlotEntries)
    ensures r.Keys == plot.Keys + {"x", "y", "type", "marker"}
    ensures r["x"] == Names(SeriesNames(series)) && r["y"] == Numbers(Zeros(|series|))
    ensures r["type"] == Text("bar") && r["marker"] == BarMarker(MarkerColors(series))
    ensures forall k :: k in plot && k !in {"x", "y", "type", "marker"} ==> r[k] == plot[k]
  {
    plot["x" := Names(SeriesNames(series))]
        ["y" := Numbers(Zeros(|series|))]
        ["type" := Text("bar")]
        ["marker" := BarMarker(MarkerColors(series))]
  }

  /**
   * The pie-chart shaping of `plotData`: it keeps every other key and sets
   * `labels`, `values`, `type` and `marker`.
   */
  function PieEntries(plot: PlotEntries, series: seq<Series>): (r: PlotEntries)
    ensures r.Keys == plot.Keys + {"labels", "values", "type", "marker"}
    ensures r["labels"] == Names(SeriesNames(series)) && r["values"] == Numbers(Zeros(|series|))
    ensures r["type"] == Text("pie") && r["marker"] == PieMarker(MarkerColors(series))
    ensures forall k :: k in plot && k !in {"labels", "values", "type", "marker"} ==> r[k] == plot[k]
  {
    plot["labels" := Names(SeriesNames(series))]
        ["values" := Numbers(Zeros(|series|))]
        ["type" := Text("pie")]
        ["marker" := PieMarker(MarkerColors(series))]
  }

  function BarLayout(title: string, x: Axis, y: Axis): Layout {
    Layout(title, Some(x.caption), true, None, Some(y.caption), Some(Range(y.min, y.max)))
  }

  function PieLayout(title: string): Layout {
    Layout(title, None, false, None, None, None)
  }

  /** A line or scatter layout: a fixed x range unless the x axis is the scrolling time axis. */
  function TraceLayout(title: string, x: Axis, y: Axis): (l: Layout)
    ensures l.xRange.None? <==> x.caption == TimeAxisLabel
  {
    Layout(title, Some(x.caption), false,
           if x.caption == TimeAxisLabel then None else Some(Range(x.min, x.max)),
           Some(y.caption), Some(Range(y.min, y.max)))
  }

  /** What one `handleConfig` call does: its completion, the new `plotData` contents, its render calls. */
  datatype ConfigResult = ConfigResult(completion: Completion<GraphConfig>, plot: PlotEntries, events: seq<RenderEvent>)

  /**
   * `handleConfig(config, current, plotData)`. A config equal to the active
   * one changes nothing; otherwise the incoming config is returned, for any
   * `graphType`, unless shaping it reads a missing `series`, `x` or `y` and
   * throws. A bar config missing `x` or `y` throws only after `plotData` was
   * reshaped.
   */
  function ApplyConfig(config: GraphConfig, current: Option<GraphConfig>, plot: PlotEntries): (r: ConfigResult)
    ensures current == Some(config) ==> r == ConfigResult(Normal(config), plot, [])
    ensures r.completion.Normal? ==> r.completion.value == config
    ensures r.completion.Abrupt? <==>
      && current != Some(config)
      && (|| ((config.graphType == "bar" || config.graphType == "pie" || IsTraceKind(config.graphType)) && config.series.None?)
          || ((config.graphType == "bar" || IsTraceKind(config.graphType)) && (config.x.None? || config.y.None?)))
    ensures r.completion.Abrupt? ==> r.events == [] && (config.graphType != "bar" || config.series.None? ==> r.plot == plot)
    ensures current != Some(config) && config.graphType == "bar" && config.series.Some? ==>
      r.plot == BarEntries(plot, config.series.value)
    ensures current != Some(config) && config.graphType == "bar" && config.series.Some? && config.x.Some? && config.y.Some? ==>
      r == ConfigResult(Normal(config), r.plot, [NewPlot(r.plot, BarLayout(config.title, config.x.value, config.y.value))])
    ensures current != Some(config) && config.graphType == "pie" && config.series.Some? ==>
      var shaped := PieEntries(plot, config.series.value);
      r == ConfigResult(Normal(config), shaped, [NewPlot(shaped, PieLayout(config.title))])
    ensures current != Some(config) && IsTraceKind(config.graphType) && config.series.Some? && config.x.Some? && config.y.Some? ==>
      r == ConfigResult(Normal(config), plot,
                        [NewTracePlot(Traces(config.graphType, config.series.value), TraceLayout(config.title, config.x.value, config.y.value))])
    ensures IsTraceKind(config.graphType) ==> r.plot == plot
    ensures config.graphType != "bar" && config.graphType != "pie" && !IsTraceKind(config.graphType) ==>
      r == ConfigResult(Normal(config), plot, [])
    ensures |r.events| <= 1
    ensures forall e :: e in r.events && e.NewPlot? ==> e.data == r.plot
  {
    if current == Some(config) then ConfigResult(Normal(config), plot, [])
    else if config.graphType == "bar" then
      if config.series.None? then ConfigResult(Abrupt, plot, [])
      else
        var shaped := BarEntries(plot, config.series.value);
        if config.x.None? || config.y.None? then ConfigResult(Abrupt, shaped, [])
        else ConfigResult(Normal(config), shaped, [NewPlot(shaped, BarLayout(config.title, config.x.value, config.y.value))])
    else if config.graphType == "pie" then
      if config.series.None? then ConfigResult(Abrupt, plot, [])
      else
        var shaped := PieEntries(plot, config.series.value);
        ConfigResult(Normal(config), shaped, [NewPlot(shaped, PieLayout(config.title))])
    else if IsTraceKind(config.graphType) then
      if config.series.None? || config.x.None? || config.y.None? then ConfigResult(Abrupt, plot, [])
      else
        var traces := Traces(config.graphType, config.series.value);
        ConfigResult(Normal(config), plot, [NewTracePlot(traces, TraceLayout(config.title, config.x.value, config.y.value))])
    else ConfigResult(Normal(config), plot, [])
  }

  /**
   * `handleConfig` as the source runs it: the bar and pie branches assign
   * the keys of the caller's `plotData` one after another, while the line
   * and scatter branch rebinds its parameter to a fresh dictionary and so
   * leaves the caller's object alone.
   */
  method HandleConfig(config: GraphConfig, current: Option<GraphConfig>, plotData: PlotData)
    returns (completion: Completion<GraphConfig>, events: seq<RenderEvent>)
    modifies plotData
    ensures plotData.entries == ApplyConfig(config, current, old(plotData.entries)).plot
    ensures completion == ApplyConfig(config, current, old(plotData.entries)).completion
    ensures events == ApplyConfig(config, current, old(plotData.entries)).events
  {
    if current == Some(config) {
      return Normal(config), [];
    }
    events := [];
    if config.graphType == "bar" {
      if config.series.None? {
        return Abrupt, [];
      }
      var series := config.series.value;
      plotData.entries := plotData.entries["x" := Names(SeriesNames(series))];
      plotData.entries := plotData.entries["y" := Numbers(Zeros(|series|))];
      plotData.entries := plotData.entries["type" := Text("bar")];
      plotData.entries := plotData.entries["marker" := BarMarker(MarkerColors(series))];
      if config.x.None? || config.y.None? {
        return Abrupt, [];
      }
      events := [NewPlot(plotData.entries, BarLayout(config.title, config.x.value, config.y.value))];
    } else if config.graphType == "pie" {
      if config.series.None? {
        return Abrupt, [];
      }
      var series := config.series.value;
      plotData.entries := plotData.entries["labels" := Names(SeriesNames(series))];
      plotData.entries := plotData.entries["values" := Numbers(Zeros(|series|))];
      plotData.entries := plotData.entries["type" := Text("pie")];
      plotData.entries := plotData.entries["marker" := PieMarker(MarkerColors(series))];
      events := [NewPlot(plotData.entries, PieLayout(config.title))];
    } else if IsTraceKind(config.graphType) {
      if config.series.None? {
        return Abrupt, [];
      }
      var traces := Traces(config.graphType, config.series.value);
      if config.x.None? || config.y.None? {
        return Abrupt, [];
      }
      events := [NewTracePlot(traces, TraceLayout(config.title, config.x.value, config.y.value))];
    }
    completion := Normal(config);
  }

  /**
   * The positions of the series whose `name` is a key of `values`, in
   * increasing order: the traces a line or scatter data message extends.
   */
  function SelectedTraces(series: seq<Series>, values: map<string, real>): (indices: seq<nat>)
    ensures forall k :: 0 <= k < |indices| ==> indices[k] < |series| && series[indices[k]].name in values
    ensures forall k, l :: 0 <= k < l < |indices| ==> indices[k] < indices[l]
    ensures forall i :: 0 <= i < |series| && series[i].name in values ==> i in indices
  {
    if series == [] then []
    else
      var init := series[..|series| - 1];
      var before := SelectedTraces(init, values);
      assert forall k :: 0 <= k < |before| ==> series[before[k]] == init[before[k]];
      if series[|series| - 1].name in values then before + [|series| - 1] else before
  }

  /** The value each selected trace receives. */
  function SelectedValues(series: seq<Series>, values: map<string, real>, indices: seq<nat>): (ys: seq<real>)
    requires forall k :: 0 <= k < |indices| ==> indices[k] < |series| && series[indices[k]].name in values
    ensures |ys| == |indices|
    ensures forall k :: 0 <= k < |indices| ==> ys[k] == values[series[indices[k]].name]
  {
    if indices == [] then []
    else SelectedValues(series, values, indices[..|indices| - 1]) + [values[series[indices[|indices| - 1]].name]]
  }

  /** `n` copies of `v`. */
  function Repeat(v: real, n: nat): (s: seq<real>)
    ensures |s| == n
    ensures forall k :: 0 <= k < n ==> s[k] == v
  {
    if n == 0 then [] else Repeat(v, n - 1) + [v]
  }

  /**
   * The `forEach` of `handleData` for line and scatter charts: it pushes one
   * x value (`timestamp / 1000`), one y value and one trace index for every
   * series that has a value in the message.
   */
  method CollectUpdate(series: seq<Series>, timestamp: real, values: map<string, real>)
    returns (xs: seq<real>, ys: seq<real>, traceIndices: seq<nat>)
    ensures traceIndices == SelectedTraces(series, values)
    ensures |xs| == |ys| == |traceIndices|
    ensures forall k :: 0 <= k < |xs| ==> xs[k] == timestamp / 1000.0
    ensures forall k :: 0 <= k < |ys| ==> ys[k] == values[series[traceIndices[k]].name]
  {
    xs, ys, traceIndices := [], [], [];
    for index := 0 to |series|
      invariant traceIndices == SelectedTraces(series[..index], values)
      invariant |xs| == |ys| == |traceIndices|
      invariant forall k :: 0 <= k < |xs| ==> xs[k] == timestamp / 1000.0
      invariant forall k :: 0 <= k < |ys| ==> ys[k] == values[series[traceIndices[k]].name]
    {
      assert series[..index + 1][..index] == series[..index];
      assert SelectedTraces(series[..index + 1], values)
          == if series[index].name in values then traceIndices + [index] else traceIndices;
      if series[index].name in values {
        xs := xs + [timestamp / 1000.0];
        ys := ys + [values[series[index].name]];
        traceIndices := traceIndices + [index];
      }
    }
    assert series[..|series|] == series;
  }

  /**
   * The latest-value vector of a bar or pie data message: one entry per
   * series, in series order, the series' value or 0 when it has none.
   */
  function LatestValues(series: seq<Series>, values: map<string, real>): (v: seq<real>)
    ensures |v| == |series|
    ensures forall i :: 0 <= i < |series| ==>
      v[i] == if series[i].name in values then values[series[i].name] else 0.0
  {
    if series == [] then []
    else [if series[0].name in values then values[series[0].name] else 0.0] + LatestValues(series[1..], values)
  }

  /** The attribute a bar or pie update replaces. */
  function LatestValuesAttribute(graphType: string): string {
    if graphType == "bar" then "y" else "values"
  }

  /**
   * `handleData(data, current)`: the render calls a data message causes.
   * Nothing happens before a configuration is active. Reading a missing
   * `series`, `values` or `x` throws.
   */
  function DataEffect(data: DataMessage, current: Option<GraphConfig>): (r: Completion<seq<RenderEvent>>)
    ensures current.None? ==> r == Normal([])
    ensures r.Normal? ==> |r.value| <= 1
    ensures r.Normal? && r.value != [] && r.value[0].ExtendTraces? ==>
      var c := current.value;
      var e := r.value[0];
      && IsTraceKind(c.graphType) && c.series.Some? && data.values.Some? && c.x.Some?
      && e.traceIndices == SelectedTraces(c.series.value, data.values.value)
      && e.traceIndices != []
      && |e.x| == |e.y| == |e.traceIndices|
      && (forall k :: 0 <= k < |e.x| ==> e.x[k] == data.timestamp / 1000.0)
      && (forall k :: 0 <= k < |e.y| ==> e.y[k] == data.values.value[c.series.value[e.traceIndices[k]].name])
      && (e.maxPoints.Some? <==> c.x.value.caption == TimeAxisLabel)
      && (e.maxPoints.Some? ==> e.maxPoints.value == ScrollingMaxPoints)
    ensures r.Normal? && r.value != [] && r.value[0].Restyle? ==>
      var c := current.value;
      var e := r.value[0];
      && (c.graphType == "bar" || c.graphType == "pie") && c.series.Some? && data.values.Some?
      && e.attribute == LatestValuesAttribute(c.graphType)
      && e.values == LatestValues(c.series.value, data.values.value)
      && e.values != []
    ensures r.Normal? && r.value != [] ==> r.value[0].ExtendTraces? || r.value[0].Restyle?
    ensures
      (&& current.Some? && IsTraceKind(current.value.graphType)
       && current.value.series.Some? && data.values.Some?
       && SelectedTraces(current.value.series.value, data.values.value) == [])
      ==> r == Normal([])
    ensures
      (&& current.Some? && (current.value.graphType == "bar" || current.value.graphType == "pie")
       && current.value.series == Some([]))
      ==> r == Normal([])
    ensures
      (&& current.Some? && IsTraceKind(current.value.graphType)
       && current.value.series.Some? && data.values.Some? && current.value.x.Some?
       && SelectedTraces(current.value.series.value, data.values.value) != [])
      ==> r.Normal? && |r.value| == 1 && r.value[0].ExtendTraces?
    ensures
      (&& current.Some? && (current.value.graphType == "bar" || current.value.graphType == "pie")
       && current.value.series.Some? && current.value.series.value != [] && data.values.Some?)
      ==> r == Normal([Restyle(LatestValuesAttribute(current.value.graphType),
                               LatestValues(current.value.series.value, data.values.value))])
    ensures r.Abrupt? <==>
      && current.Some?
      && (IsTraceKind(current.value.graphType) || current.value.graphType == "bar" || current.value.graphType == "pie")
      && (|| current.value.series.None?
          || (data.values.None? && current.value.series.value != [])
          || (&& IsTraceKind(current.value.graphType) && data.values.Some? && current.value.x.None?
              && SelectedTraces(current.value.series.value, data.values.value) != []))
  {
    if current.None? then Normal([])
    else
      var c := current.value;
      if IsTraceKind(c.graphType) then
        if c.series.None? then Abrupt
        else if data.values.None? then (if c.series.value == [] then Normal([]) else Abrupt)
        else
          var series, values := c.series.value, data.values.value;
          var indices := SelectedTraces(series, values);
          if indices == [] then Normal([])
          else if c.x.None? then Abrupt
          else
            var cap := if c.x.value.caption == TimeAxisLabel then Some(ScrollingMaxPoints) else None;
            Normal([ExtendTraces(Repeat(data.timestamp / 1000.0, |indices|), SelectedValues(series, values, indices), indices, cap)])
      else if c.graphType == "bar" || c.graphType == "pie" then
        if c.series.None? then Abrupt
        else if data.values.None? then (if c.series.value == [] then Normal([]) else Abrupt)
        else
          var latest := LatestValues(c.series.value, data.values.value);
          if latest == [] then Normal([]) else Normal([Restyle(LatestValuesAttribute(c.graphType), latest)])
      else Normal([])
  }

  /** `handleData` as the source runs it, with the `forEach` loop of the line and scatter branch. */
  method HandleData(data: DataMessage, current: Option<GraphConfig>) returns (r: Completion<seq<RenderEvent>>)
    ensures r == DataEffect(data, current)
  {
    if current.None? {
      return Normal([]);
    }
    var c := current.value;
    if IsTraceKind(c.graphType) {
      if c.series.None? {
        return Abrupt;
      }
      if data.values.None? {
        return if c.series.value == [] then Normal([]) else Abrupt;
      }
      var xs, ys, traceIndices := CollectUpdate(c.series.value, data.timestamp, data.values.value);
      if |xs| > 0 && |ys| > 0 {
        if c.x.None? {
          return Abrupt;
        }
        var cap := if c.x.value.caption == TimeAxisLabel then Some(ScrollingMaxPoints) else None;
        assert xs == Repeat(data.timestamp / 1000.0, |traceIndices|);
        assert ys == SelectedValues(c.series.value, data.values.value, traceIndices);
        assert DataEffect(data, current) == Normal([ExtendTraces(xs, ys, traceIndices, cap)]);
        r := Normal([ExtendTraces(xs, ys, traceIndices, cap)]);
      } else {
        assert traceIndices == [];
        r := Normal([]);
      }
    } else if c.graphType == "bar" || c.graphType == "pie" {
      if c.series.None? {
        return Abrupt;
      }
      if data.values.None? {
        return if c.series.value == [] then Normal([]) else Abrupt;
      }
      var latest := LatestValues(c.series.value, data.values.value);
      r := if |latest| > 0 then Normal([Restyle(LatestValuesAttribute(c.graphType), latest)]) else Normal([]);
    } else {
      r := Normal([]);
    }
  }
}
