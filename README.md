# micro:bit web app — serial ingestion and chart state

A Dafny model of the host side of the micro:bit web app: the code that turns
the serial stream of a micro:bit into chart state. It covers five parts:

- **Newline framer and dispatcher.** `MicrobitConnectorUSB.handleSerialData`
  in `connection.ts` keeps a carry-over buffer and cuts `\n`-terminated
  records out of it. It skips blank records, parses the others and routes
  them by their `type`. A record that fails is dropped and the rest are
  still handled.
- **Message handlers** in `messageHandler.ts`:
  - `handleConfig` detects an unchanged configuration. Otherwise it shapes
    the plot data: a bar or pie vector, or one trace per series.
  - `handleData` selects which traces get a point, and builds the
    latest-value vector for bar and pie charts.
- **Block-averaging smoother.** `Plotter.updatePlot` in `plotter.ts`:
  - averages 5 samples into one point;
  - keeps a window of at most 100 points;
  - drops blocks that arrive out of order;
  - redraws through a trailing moving average of width 5.
- **The older smoother** in `p.ts`. It has the same design without the order
  guard and without axis scrolling.
- **The legacy brace-scanning framer** in `c1.ts`. It extracts `{...}`
  fragments with the global regular expression `{[^}]*}`.

Modules, one per source file:

| module | file | models |
|---|---|---|
| `Wrappers` | wrappers.dfy | `Option`; `Completion`, a normal result or a thrown error |
| `JsText` | js_text.dfy | `String.prototype.trim` and `indexOf` |
| `MessageHandler` | message_handler.dfy | `src/utils/messageHandler.ts` |
| `UsbConnection` | connection.dfy | `src/microbit/connection.ts` |
| `Smoother` | plotter.dfy | `src/plot/plotter.ts` |
| `LegacySmoother` | legacy_plotter.dfy | `src/plot/p.ts` |
| `LegacyConnection` | legacy_connection.dfy | `src/microbit/c1.ts` |

Modelling conventions:

- **Where the code changes things in place, the model is imperative.** A
  class holds the source's fields, and a method runs the source's loop.
  Each method is proved equal to a pure function:
  - `HandleSerialData` against `Feed` and `Handle`;
  - `UpdatePlot` against `Step` and `Update`;
  - `HandleConfig` against `ApplyConfig`;
  - `HandleData` against `DataEffect`.

  The properties are proved as lemmas about those functions.
- **A JavaScript exception is the `Abrupt` completion.** The `try`/`catch`
  that contains it is modelled where the source has it.
- **`JSON.parse` is a parameter.** It is a function from record text to a
  typed message, and `None` means a `SyntaxError`. Routing on `type` is
  part of the message datatype.
- **Chart-library calls become a log of render events.** Each event carries
  the arrays passed to the call.
- **Numbers are reals.**

## Model

| member | source | states |
|---|---|---|
| JsText.Trim | src/microbit/connection.ts:60 | the trimmed string is a contiguous piece of the input with only whitespace cut from either end; it is empty exactly when the input is blank |
| JsText.IndexOf | src/microbit/connection.ts:56 | -1 exactly when the character is absent, otherwise the position of its first occurrence |
| UsbConnection.Frame | src/microbit/connection.ts:56-58 | records and the rest contain no newline |
| UsbConnection.FrameJoin | src/microbit/connection.ts:51-58 | the records, each followed by `\n`, then the rest, are exactly the buffered text: nothing is lost or reordered |
| UsbConnection.FrameUnique | src/microbit/connection.ts:56-58 | any split of a text into newline-free records, each ended by `\n`, and a newline-free rest is the framing |
| UsbConnection.FrameAppend | src/microbit/connection.ts:51-58 | framing `a + b` yields the records of `a`, then the records of `a`'s leftover followed by `b` |
| UsbConnection.ProcessRecord | src/microbit/connection.ts:60-79 | a blank or unparsable record changes nothing, and so does a record of any other `type` or a `null` value; a config record whose handler returns makes its config the active one and takes the handler's plot data and render calls; a data record appends the render calls of `handleData`, or changes nothing when that throws; a config record whose handler throws leaves config and renders unchanged and keeps whatever plot data the handler had already reshaped; only a config record can change config or plot data; renders only grow |
| UsbConnection.ProcessAllAppend | src/microbit/connection.ts:56-80 | handling `a + b` is handling `a`, then `b` from the state `a` left |
| UsbConnection.ParseFailureContained | src/microbit/connection.ts:65-79 | an unparsable record is dropped; the records after it are still handled, from the state before it |
| UsbConnection.HandlerFailureContained | src/microbit/connection.ts:71-79 | a throwing `handleConfig` leaves `graphConfig` and the render calls unchanged; the following records are handled from the old session with only the plot data replaced by the one the handler left behind, and exactly as if the record were absent unless it is a bar config |
| UsbConnection.ConfigReplayIsNoOp | src/utils/messageHandler.ts:23-26 | replaying the config record just accepted changes nothing |
| UsbConnection.Feed | src/microbit/connection.ts:47-81 | one event leaves a newline-free buffer that is a tail of the old buffer followed by the chunk |
| UsbConnection.FrameTwoChunks | src/microbit/connection.ts:51-58 | framing a buffer with two chunks at once equals framing the second chunk after the first chunk's leftover |
| UsbConnection.FeedTwice | src/microbit/connection.ts:47-81 | two serial events in a row have the effect of one event carrying both chunks |
| UsbConnection.ChunkingIrrelevant | src/microbit/connection.ts:47-81 | however a text is split into chunks, the final buffer and session are those of one event carrying the whole text |
| UsbConnection.MicrobitConnectorUSB.constructor | src/microbit/connection.ts:9-11 | the buffer starts empty, the config null, the plot data empty |
| UsbConnection.MicrobitConnectorUSB.HandleRecord | src/microbit/connection.ts:60-79 | one record, skipped when blank, parsed and dispatched by `type`, with thrown errors caught, has the effect `ProcessRecord` gives |
| UsbConnection.MicrobitConnectorUSB.HandleSerialData | src/microbit/connection.ts:47-81 | the buffer ends with no newline, and the new buffer and session are those of `Feed` on the old ones |
| MessageHandler.PlotData.constructor | src/microbit/connection.ts:11 | the plot data starts empty |
| MessageHandler.SeriesNames | src/utils/messageHandler.ts:31 | the series names, in order |
| MessageHandler.Zeros | src/utils/messageHandler.ts:32 | one zero per series |
| MessageHandler.MarkerColors | src/utils/messageHandler.ts:35 | each series' colour, `"blue"` when absent or empty |
| MessageHandler.Traces | src/utils/messageHandler.ts:63-78 | one trace per series in declaration order, named by `displayName`, symbol defaulting to `"circle"` |
| MessageHandler.BarEntries | src/utils/messageHandler.ts:30-36 | sets `x` to the names, `y` to zeros, `type` to `"bar"`, `marker` to the colours, and keeps every other key |
| MessageHandler.PieEntries | src/utils/messageHandler.ts:51-57 | sets `labels` to the names, `values` to zeros, `type` to `"pie"`, `marker` to the colours, and keeps every other key |
| MessageHandler.TraceLayout | src/utils/messageHandler.ts:80-87 | the x range is fixed exactly when the x label is not `"time (seconds)"` |
| MessageHandler.ApplyConfig | src/utils/messageHandler.ts:19-93 | an unchanged config returns the current one with no effect; otherwise the incoming config is returned for any `graphType`, and an unknown type has no effect; a changed bar config reshapes the plot data to `BarEntries` and, with both axes, draws it once; a changed pie config reshapes to `PieEntries` and draws it once; a changed line or scatter config draws one trace per series and leaves the plot data alone; it throws exactly for a known type without `series`, or a bar, line or scatter config without `x` or `y`, and then draws nothing and changes the plot data only for a bar config that has `series` (the throw on a missing `x` or `y` comes after the reshape) |
| MessageHandler.HandleConfig | src/utils/messageHandler.ts:19-93 | in-place version: plot data, completion and render calls are those of `ApplyConfig` |
| MessageHandler.SelectedTraces | src/utils/messageHandler.ts:110-116 | strictly increasing positions of exactly the series whose name is a key of `values` |
| MessageHandler.SelectedValues | src/utils/messageHandler.ts:113 | each selected trace gets its series' value |
| MessageHandler.Repeat | src/utils/messageHandler.ts:112 | one copy of the x value per selected trace |
| MessageHandler.CollectUpdate | src/utils/messageHandler.ts:107-116 | the `forEach` loop yields the selected trace indices, x = `timestamp / 1000` and y = the value for each |
| MessageHandler.LatestValues | src/utils/messageHandler.ts:127-129 | one value per series, in series order, the value or 0 when absent |
| MessageHandler.DataEffect | src/utils/messageHandler.ts:98-143 | no effect without a config; for line and scatter exactly one extend call when a series matches, over the selected traces with `timestamp / 1000` and their values, 30-point cap exactly for the time axis, and none when no series matches; for bar and pie exactly one update with the latest-value vector when there are series, none for an empty series list; it throws exactly when a known type lacks `series`, lacks `values` while having series, or is line or scatter with a match and no `x` |
| MessageHandler.HandleData | src/utils/messageHandler.ts:98-143 | in-place version: the result is that of `DataEffect` |
| Smoother.MeanBounds | src/plot/plotter.ts:84-86 | a block mean lies between the smallest and largest sample |
| Smoother.Mean | src/plot/plotter.ts:84-86 | a block of equal samples averages to that sample |
| Smoother.BlockMeanExample | src/plot/plotter.ts:84-86 | the block `[1, 2, 3, 4, 5]` averages to 3 |
| Smoother.MovingAverage | src/plot/plotter.ts:73-79 | same length; element `i` is the mean of the at most 5 values ending at `i` |
| Smoother.MovingAverageExtend | src/plot/plotter.ts:73-79 | appending a point leaves every earlier smoothed value unchanged |
| Smoother.MovingAverageBounded | src/plot/plotter.ts:73-79 | smoothed values stay within the range of the raw points |
| Smoother.SliceFromEnd | src/plot/plotter.ts:139 | `slice(-n)` with `n` the length keeps everything; for 0 < `n` ≤ length it keeps exactly the last `n` |
| Smoother.AxisUpdate | src/plot/plotter.ts:61-67 | the axis ends 2.5 s after the newest point and shows it, starts at 0 for the first 10 s, then scrolls at a fixed 12.5 s width |
| Smoother.Step | src/plot/plotter.ts:91-150 | the window stays well formed (equal-length accumulators under 5, equal-length series of at most 100); `startTime` is fixed by the first sample |
| Smoother.RedrawShowsSmoothed | src/plot/plotter.ts:134-145 | the aligned indices are the whole time series |
| Smoother.StepKeepsOrder | src/plot/plotter.ts:119-131 | the time series stays non-decreasing |
| Smoother.StepBuffers | src/plot/plotter.ts:97-102 | before a block is full the sample only joins the accumulators and the series are untouched |
| Smoother.StepAppendsBlockMean | src/plot/plotter.ts:102-145 | the fifth sample empties the accumulators, drops the oldest point of a full window and appends one point per axis equal to the block mean |
| Smoother.StepDropsLateBlock | src/plot/plotter.ts:107-125 | a late block still drops the oldest point of a full window; then it is discarded with no redraw and no axis update |
| Smoother.EvictKeepsRecent | src/plot/plotter.ts:112-117 | eviction then append keeps exactly the 100 most recent points |
| Smoother.UpdateWindow | src/plot/plotter.ts:91-150 | the step-by-step body yields exactly the window and calls of `Step` |
| Smoother.Plotter.constructor | src/plot/plotter.ts:16-41 | empty state and one initial plot |
| Smoother.Plotter.ResetPlot | src/plot/plotter.ts:46-59 | empties every series and accumulator, nulls `startTime` and replots |
| Smoother.Plotter.UpdatePlot | src/plot/plotter.ts:91-150 | the fields and calls follow `Step`, and the window stays well formed and sorted |
| LegacySmoother.Update | src/plot/p.ts:62-106 | the window stays well formed; `startTime` is fixed by the first sample |
| LegacySmoother.StepBuffers | src/plot/p.ts:70-74 | before a block is full the sample only joins the accumulators and nothing is drawn |
| LegacySmoother.StepAppendsBlockMean | src/plot/p.ts:74-105 | a full block always appends one point per axis equal to the block mean, after evicting from a full window, and redraws against the whole time series |
| LegacySmoother.AgreesWithSmootherInOrder | src/plot/p.ts:74-105 | where the newer plotter keeps a block, both reach the same window; the newer one only adds the axis update |
| LegacySmoother.IndicesCanDecrease | src/plot/p.ts:90-94 | without a guard, a late block makes the time series go backwards |
| LegacySmoother.UpdateSeries | src/plot/p.ts:62-106 | the step-by-step body yields exactly the window and calls of `Update` |
| LegacySmoother.Plotter.constructor | src/plot/p.ts:18-43 | empty state and one initial plot |
| LegacySmoother.Plotter.MovingAverage | src/plot/p.ts:45-55 | the loop gives the same values as the functional moving average |
| LegacySmoother.Plotter.UpdatePlot | src/plot/p.ts:62-106 | the fields and calls follow `Update`, and the window stays well formed |
| LegacyConnection.FindIsFirst | src/microbit/c1.ts:47 | the search finds the first occurrence, and none exactly when there is none |
| LegacyConnection.Exec | src/microbit/c1.ts:47-49 | a match found lies at or after `lastIndex` and within the text |
| LegacyConnection.ExecIsLeftmostMatch | src/microbit/c1.ts:47-49 | `exec` returns a match of `{[^}]*}`, with no match starting before it; it returns none exactly when no match starts at or after `lastIndex` |
| LegacyConnection.MatchesOrdered | src/microbit/c1.ts:47-50 | fragments are matches, found left to right without overlap; no `{` left over has a `}` after it |
| LegacyConnection.DrainParsesMatches | src/microbit/c1.ts:49-63 | the samples passed on are the parses of the first fragments, in scan order; the loop fails exactly when a fragment is left over, and that fragment is the one that did not parse |
| LegacyConnection.Drain | src/microbit/c1.ts:49-56 | the loop passes on at most one sample per fragment, and one for every fragment exactly when no parse throws |
| LegacyConnection.DrainExtend | src/microbit/c1.ts:49-56 | what the scan passes on for a buffer is a prefix of what it passes on once more text arrives |
| LegacyConnection.Handle | src/microbit/c1.ts:41-64 | the buffer becomes the old buffer followed by the trimmed chunk, so it never shrinks, and the calls are those of a scan of that whole buffer |
| LegacyConnection.RedeliversEarlierSamples | src/microbit/c1.ts:41-64 | every sample passed on by one event is passed on again, first and in order, by the next |
| LegacyConnection.OneObjectDeliveredTwice | src/microbit/c1.ts:41-64 | one `{}` per event over two events: the second event passes the first object on again |
| LegacyConnection.ConsumedIsLastEnd | src/microbit/c1.ts:59 | the position after the scan is the end of the last fragment |
| LegacyConnection.HandleIntended | src/microbit/c1.ts:58-59 | the corrected cut passes on the same samples as the code as written; the buffer it keeps is a tail of the old buffer and the trimmed chunk, and all of it after a parse error |
| LegacyConnection.IntendedDeliversOnce | src/microbit/c1.ts:58-59 | cutting the buffer after the last fragment passes on the same samples and leaves no complete fragment behind |
| LegacyConnection.IntendedDeliversObjectOnce | src/microbit/c1.ts:58-59 | with the intended cut, one `{}` per event passes each object on once |
| LegacyConnection.MicrobitConnector.constructor | src/microbit/c1.ts:8 | the buffer starts empty |
| LegacyConnection.MicrobitConnector.HandleSerialData | src/microbit/c1.ts:41-64 | the loop returns the samples handed to `processData`, and the new buffer is that of `Handle` |

## Left out

- Connection lifecycle: `connect`, `disconnect`, `updateStatus` and `getUsbConnection` in both connectors. Listener registration is left out too. All of these are device-driver and page calls.
- `src/main.ts` and `src/microbit/flasher.ts` are not part of this model. They are button wiring, a file fetch and a foreign flasher call.
- The chart library is not modelled:
  - Each call becomes a render event with the arrays it receives.
  - Layout objects are reduced to the fields the handlers set.
  - Whether the library keeps references to the arrays it is given (aliasing) is not modelled.
- The JSON grammar is not modelled. `JSON.parse` is a parameter, and routing on `type` is the shape of the parsed message.
- In `c1.ts` the parser also stands for the field reads `processData` makes before calling `updatePlot`. The calls come back as the method's result, because the `plotter` instance it imports from `main.ts` is not exported.
- `JSON.stringify` equality of configurations is datatype equality. Key order and other serialisation details are not modelled.
- Numbers are reals: IEEE-754 rounding, `NaN` and infinities are not modelled.
- `Smoother.Mean` requires a non-empty block. `averageBuffer` is only called on a full block.
- `handleData` looks values up with `hasOwnProperty` and `!== undefined`. Both are modelled as map membership, so inherited prototype keys such as `"constructor"` are not modelled.
- Legacy device scripts send `sensors` and `xLabel` instead of `series` and `x`. The code has no mapping for them: such a configuration reads a missing field, throws, and is dropped by the connector's `catch`.
- Commented-out code in `connection.ts` and `plotter.ts` is not modelled.

## Findings

| source | as written | input that shows it | evidently intended | confidence | as-written member | corrected member |
|---|---|---|---|---|---|---|
| src/microbit/c1.ts:59 | the loop ends when a global `exec` fails, which resets `lastIndex` to 0 (section 22.2.7.2 of ECMA-262), so `slice(lastIndex)` keeps the whole buffer and every later event passes every earlier object on again | two `serialdata` events each carrying `{}`: the second event calls `updatePlot` twice | cut the buffer after the last complete fragment, so each object is passed on once | not executed | LegacyConnection.OneObjectDeliveredTwice | LegacyConnection.IntendedDeliversObjectOnce |
