# Telemetry core of the trading demo page

A Dafny model of the real-time telemetry logic in `src/App.jsx`: the two
React components `LiveTelemetry` (a metrics poller) and `LiveChart` (a
streaming chart). Everything they do with state is a pure step function over
immutable values, and a run of a component is a left fold of its step over
the sequence of events it receives.

- `Common` (common.dfy): `Option`, the generic `Fold` with the lemmas that
  split a run (`FoldSnoc`, `FoldAppend`), and `LastN`, JavaScript's
  `slice(-k)`.
- `Metrics` (metrics.dfy): the metrics snapshot. It starts at
  `{150, 18, 42}`, and only a poll with an ok status whose body decodes
  replaces it, always wholesale.
- `SampleWindow` (window.dfy): stream messages, the `{t, c}` samples they
  carry, and the bounded window. A new sample is appended after the window is
  cut to its last 120 samples, so the window never holds more than 121.
- `ConnectionStatus` (status.dfy): `connecting…` / `live` / `disconnected`,
  the labels the component stores, and the green or amber indicator.
- `Sparkline` (sparkline.dfy): the `path` memo. It maps the window to one
  `M`/`L` command per sample in a 280 by 80 viewport. Each axis is
  normalised by its minimum and by `max(1, max - min)`, and the y axis is
  inverted. Arithmetic is over `real`. `NaN` is modelled only where an absent
  field enters JavaScript arithmetic.
- `LiveChart` (chart.dfy): the chart as one state machine driven by open,
  error and message events.

Inputs the code receives from outside are modelled as data. A stream message
is classified by how far the handler gets through it: `Unparseable`,
`NoPayload`, `NoBar`, or `BarMsg(t, c)`. A bar field is `Num(v)` or `Absent`,
because the handler stores a bar without numeric fields as it is. A poll ends
as `Response(status, body)` or `NetworkError`, and the body is `Parsed(data)`
or `Malformed`.

## Model

| member | source | states |
|---|---|---|
| Common.LastN | src/App.jsx:58 | `slice(-k)` keeps `min(n, k)` elements, and they are exactly the last ones of the input |
| Metrics.Delivered | src/App.jsx:20-25 | an outcome delivers a snapshot exactly when it is a response with an ok status (200 to 299) whose body decodes, and then it delivers the decoded data; a body whose decoding throws, a non-ok status or a failed fetch deliver nothing |
| Metrics.Poll | src/App.jsx:18-27 | one poll either leaves the snapshot alone or replaces it wholesale with the delivered one; a delivered snapshot always replaces it |
| Metrics.MetricsAreLatestSuccess | src/App.jsx:14-27 | after any sequence of poll outcomes the snapshot is the one from the most recent successful poll, or the default `{150, 18, 42}` if none succeeded |
| Metrics.FailedPollIsInvisible | src/App.jsx:21-27 | a non-ok response, an undecodable body or a failed fetch anywhere in the history changes nothing about the final snapshot |
| SampleWindow.Append | src/App.jsx:58 | a new window has `min(old length, 120) + 1` samples, at most 121; it ends with the new sample, preceded by the old window's last samples in their order |
| SampleWindow.AppendIsTrimToCap | src/App.jsx:58 | cutting to 120 and then appending is the same as appending and keeping the most recent 121 |
| SampleWindow.AppendEvictsOnlyOldest | src/App.jsx:58 | at most 120 samples nothing is evicted, so a window of 120 grows to 121; a full window of 121 loses exactly its oldest sample |
| SampleWindow.OnMessage | src/App.jsx:55-59 | a message without a bar leaves the window unchanged; a message with one grows or slides the window by that one sample |
| SampleWindow.WindowHoldsLatestSamples | src/App.jsx:55-59 | after any stream the window is exactly the last at most 121 samples the messages carried, in arrival order |
| SampleWindow.WellFormedStreamWindow | src/App.jsx:58 | for well-formed messages the window length is `min(count, 121)`, and the window holds the samples of the most recent messages |
| SampleWindow.MalformedMessageIsInvisible | src/App.jsx:55-59 | a malformed message inserted anywhere into a stream leaves the resulting window unchanged |
| SampleWindow.OnMessageAsWritten | src/App.jsx:55-59 | as written, a message with no payload or no bar throws while rendering; every other message has the same effect as in `OnMessage` |
| SampleWindow.PayloadWithoutBarThrows | src/App.jsx:57-58 | a message whose payload has no bar throws as written, where the intended handler leaves the window alone |
| ConnectionStatus.StatusIsLatestSignal | src/App.jsx:45-54 | folding the open and error handlers (`ConnectionStatus.OnSignal`) over any signal sequence gives `connecting…` before any signal and afterwards the status named by the latest one: `live` for open, `disconnected` for error |
| ConnectionStatus.LabelsDistinct | src/App.jsx:45-54 | the three stored labels are distinct, so the label string identifies the status |
| ConnectionStatus.Indicator | src/App.jsx:91 | the indicator is green exactly when the status is live, although the code compares label strings |
| Sparkline.Min | src/App.jsx:71-74 | `Math.min` is a lower bound on the list and is one of its elements |
| Sparkline.Max | src/App.jsx:72-75 | `Math.max` is an upper bound on the list and is one of its elements |
| Sparkline.Spread | src/App.jsx:73-76 | each range divisor is at least 1 and at least the axis span, and equals one of the two |
| Sparkline.Project | src/App.jsx:65-85 | fewer than two samples give no path; otherwise there is one command per sample in a 280 by 80 viewport, `M` first and `L` for every later one |
| Sparkline.ShortWindowDrawsNothing | src/App.jsx:93 | fewer than two samples draw nothing, and for any window the viewport is 280 by 80, through the fallback when there is no path |
| Sparkline.CommandPlacesSample | src/App.jsx:69-83 | with numeric timestamps, the i-th command's x is `mapX` (`Sparkline.ToX`) of the i-th sample's timestamp normalised by the window's smallest and largest timestamps; with numeric values, its y is `mapY` (`Sparkline.ToY`) of the i-th sample's value normalised by the window's smallest and largest values; an axis with an absent field puts every command at NaN on that axis |
| Sparkline.FractionsInUnit | src/App.jsx:71-79 | on an all-numeric axis every normalised position is a real number in [0, 1] |
| Sparkline.XInViewport | src/App.jsx:78 | with numeric timestamps every mapped x lies in [0, 280] |
| Sparkline.YInViewport | src/App.jsx:79 | with numeric values every mapped y lies in [0, 80] |
| Sparkline.XNonDecreasing | src/App.jsx:78 | `mapX` (`Sparkline.ToX` after normalisation) is non-decreasing: a later timestamp is never drawn further left |
| Sparkline.YNonIncreasing | src/App.jsx:79 | `mapY` (`Sparkline.ToY` after normalisation) is non-increasing: a larger value never gets a larger y |
| Sparkline.EarliestAtLeftEdge | src/App.jsx:74-78 | the earliest timestamp maps to x = 0 |
| Sparkline.ValueExtremesOnEdges | src/App.jsx:71-79 | the smallest value maps to y = 80; when the values span at least 1, the largest maps to y = 0 |
| Sparkline.LargestAtOne | src/App.jsx:71-79 | when an axis spans at least one unit, its largest value normalises to exactly 1 |
| Sparkline.FlatTimesAreFinite | src/App.jsx:76-78 | when every sample has the same timestamp, every x is the finite value 0 because the divisor floor of 1 applies |
| Sparkline.AbsentTimePoisonsPath | src/App.jsx:69-78 | one sample without a timestamp makes every x NaN, because `Math.min` and `Math.max` over the timestamps are NaN |
| Sparkline.ThreeSampleExample | src/App.jsx:65-85 | samples (0, 10), (1, 20), (2, 15) give `M 0 80`, `L 140 0`, `L 280 40`: x strictly increases, and the largest value is drawn at the top |
| LiveChart.Step | src/App.jsx:53-59 | an open event sets the status to `live` and an error event to `disconnected`, both leaving the window alone; a message applies the message handler to the window and leaves the status alone |
| LiveChart.RunSeparates | src/App.jsx:53-59 | the chart after any interleaving of events is the window of its messages paired with the status of its signals |
| LiveChart.RunState | src/App.jsx:44-59 | over any run the status is that of the latest signal, or `connecting…` before any, and the window is the latest at most 121 carried samples |
| LiveChart.StatusScenario | src/App.jsx:45-54 | start, open, error gives `connecting…`, then `live` with a green indicator, then `disconnected` with an amber one |
| LiveChart.DisconnectKeepsTrace | src/App.jsx:54 | an error signal sets `disconnected` and leaves the window and the drawn path unchanged |
| LiveChart.MalformedMessageChangesNothing | src/App.jsx:55-59 | a malformed message inserted anywhere leaves the chart and its path as they would have been without it |

## Left out

- Network and timers: `fetch`, the 5-second `setInterval`, `clearInterval`, the `EventSource` connection, `es.close()` and effect cleanup. Poll outcomes and stream events are inputs to the model instead. Responses that arrive after the component is gone are not modelled.
- Poll ordering: the fetches are asynchronous, so two polls can complete out of order. The model applies outcomes in the order they complete.
- `JSON.parse` and `res.json()`: a message or body is given already classified by what decoding yields.
- Metrics.Poll: the source stores whatever JSON the body decodes to. The model stores a decoded body only as a three-field snapshot, so bodies of another shape are not represented.
- Bar fields that are strings, booleans, `null` or objects: `Math.min` coerces these to numbers in JavaScript. The model only distinguishes numbers from absent fields.
- Floating point: coordinates are computed over `real`. Rounding, infinities and overflow are not modelled, and NaN arises only from absent fields.
- `toFixed(1)` and the joining of the commands into the `d` string: commands are `(kind, x, y)` triples.
- React rendering itself, the `Stat` and `App` components, framer-motion animation and the Spline scene, which are presentation and foreign libraries.
- The base-URL environment variable and the browser's automatic `EventSource` reconnection.

## Findings

| source | as written | input that shows it | evidently intended | confidence | as-written member | corrected member |
|---|---|---|---|---|---|---|
| src/App.jsx:57-58 | `payload.bar.t` and `payload.bar.c` are read inside the function passed to `setPoints`. React runs that function while rendering, outside the handler's `try`. | the stream message `{"payload":{}}`, or `{}` | such a message is dropped silently, like one that does not parse | medium, not executed; relies on React calling state updaters during render | SampleWindow.OnMessageAsWritten, SampleWindow.PayloadWithoutBarThrows | SampleWindow.OnMessage |

The rest of the model, `LiveChart.Step` and every lemma about runs, uses the
corrected `SampleWindow.OnMessage`.
