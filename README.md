# memplot, modelled in Dafny

memplot samples the memory footprint (resident size RSS and virtual size VSZ)
of a running process at a fixed interval and draws the samples as a line
chart. This project models the library package `memplot.go`:

- `NewMemoryCollection(pid, sd, duration)`: rejects a window that holds fewer
  than two intervals, looks the process up, then loops while the previously
  read elapsed time is within `duration`. Each pass reads the clock, probes the
  process and appends one `MemoryInstant`. Any probe error discards the whole
  collection.
- `GatherRSSXYs` / `GatherVSZXYs`: one chart point per sample, X in seconds,
  Y in kilobytes.
- `Plot(opt)`: a titled chart with a grid, plus an RSS line if `PlotRss` and a
  VSZ line if `PlotVsz`, each with its legend entry, RSS first.

Files and modules:

- `wrappers.dfy` (`Wrappers`): `Option` and `Result`.
- `gobase.dfy` (`GoBase`): Go integer widths, the truncating int64 division
  `Quo` (with the MinInt64 / -1 wrap-around), `Duration.Seconds()` as an exact
  real, and `%d` formatting (`FormatInt`) with its inverse.
- `process.dfy` (`Process`): the gopsutil values memplot reads —
  `MemoryInfoStat` (RSS, VMS) and the outcomes of a process lookup and of a
  memory probe.
- `gonum.dfy` (`Gonum`): the abstract gonum plot — a `Plot` class with title,
  axis labels, plotters and legend, and the `Add` / `Legend.Add` operations.
- `memplot.dfy` (`Memplot`): the `MemoryCollection` class and its methods,
  `NewMemoryCollection`, and the functions that specify them: `SampleFrom`
  (the loop from a given pass on), `Collect` (the whole call), `Points` (a
  series), `Series` and `PlotOutcome` (the chart's legend, or its error).
- `properties.dfy` (`MemplotProperties`): lemmas about those functions.

Time and the operating system are inputs of the model. `start` is the
`time.Now()` reading. `clock[0]` is the `time.Since(start)` reading taken
before the loop. `clock[i + 1]` is the one taken in pass `i`. So `clock[i]` is
the elapsed time that decides whether pass `i` runs. `lookup` is the outcome
of `process.NewProcess(pid)` and `probes[i]` that of `MemoryInfo()` in pass
`i`. The clock and probe outcomes are needed only when the call gets as far
as sampling. They then end where the loop ends: on a reading past
`duration`, or on a failed probe. The failures of gonum's `plot.New()` and `plotter.NewLine(data)` are
given as `newPlotErr` and as a function `lineError` of the line's data.

The model follows `memplot.go` as written, including where it behaves
differently from what the command-line help in `cmd/memplot/memplot.go`
suggests:

- A `duration` of 0 does not mean "sample until the process exits". It gives
  `0 / sd == 0` and is rejected as too few samples. No open-ended mode exists
  in `memplot.go`.
- The interval is not required to be positive. Only `sd == 0` is excluded,
  because Go's division panics on it. A negative interval passes the check
  when the window is at least two intervals long in the negative direction
  (`duration <= 2 * sd`). The one exception is `duration == MinInt64` with
  `sd == -1`: the quotient wraps to MinInt64 and the call is rejected
  (`NegativeIntervalWindow`). When a negative interval passes the check, the
  process is found and the first elapsed reading is not negative, the call
  succeeds with no samples at all (`NegativeIntervalGivesNoSamples`).
- Every failure is a plain error value passed on unchanged from gopsutil or
  gonum, apart from memplot's own "There must be at least two samples"
  (`Error.Message`). There are no separate error kinds.

## Model

| member | source | states |
|---|---|---|
| GoBase.QuoTruncates | memplot.go:29 | `duration / sd` truncates toward zero: the remainder is smaller than the divisor and is zero or has the dividend's sign; MinInt64 / -1 wraps to MinInt64 |
| GoBase.Seconds | memplot.go:74 | `Duration.Seconds()`: the result times one second in nanoseconds is the duration |
| GoBase.FormatInt | memplot.go:104 | `%d` prints a non-empty numeral, with a leading '-' exactly for negative numbers, digits otherwise |
| GoBase.FormatIntRoundTrip | memplot.go:104 | the numeral `%d` prints reads back as the same integer |
| Memplot.MemoryCollection.constructor | memplot.go:42-47 | a new collection holds the given PID, start time and interval and no samples |
| Memplot.NewMemoryCollection | memplot.go:28-68 | fails exactly when `Collect` fails, with its error; on success returns a fresh collection with the given PID, start time and interval whose samples are those of `Collect` |
| Memplot.StopIndex | memplot.go:49-54 | the pass at which the loop ends is the first whose elapsed time lies past `duration` or, failing that, whose probe fails; every earlier pass lies within the window and reads |
| Memplot.MemoryCollection.GatherRSSXYs | memplot.go:71-79 | returns the resident-size series `Points(Samples, Resident)`; changes nothing |
| Memplot.MemoryCollection.GatherVSZXYs | memplot.go:82-90 | returns the virtual-size series `Points(Samples, Virtual)`; changes nothing |
| Memplot.Kilobytes | memplot.go:75 | the kilobyte figure times 1024 is the byte count |
| Memplot.Points | memplot.go:71-90 | one point per sample; point i's X is sample i's instant in seconds and its Y is the sample's RSS (or VMS) divided by 1024 |
| Memplot.MemoryCollection.Plot | memplot.go:98-142 | fails exactly when `PlotOutcome` fails, with its error; on success returns a fresh plot titled "Memory Plot of PID <Pid>", with the axis labels, a grid first and then one line per legend entry of `PlotOutcome` |
| Memplot.Series | memplot.go:110-139 | as many legend entries as flags set; with `PlotRss` the first is "RSS" on the RSS series, black, width 1; with `PlotVsz` the last is "VSZ" on the VSZ series, blue, width 1 |
| Memplot.Drawn | memplot.go:121-138 | the chart draws one line plotter per legend entry, in legend order, on the entry's line |
| MemplotProperties.MinimumWindow | memplot.go:29-32 | for a positive interval the count check passes exactly when `duration >= 2 * sd` |
| MemplotProperties.NegativeIntervalWindow | memplot.go:29-32 | for a negative interval it passes exactly when `duration <= 2 * sd`, except for the wrapping MinInt64 / -1 |
| MemplotProperties.Recorded | memplot.go:56-63 | the samples a run of passes records: one per pass, in pass order, each holding that pass's probe reading and the clock reading taken in it |
| MemplotProperties.SampleFromSpec | memplot.go:49-65 | from any pass on, the loop succeeds iff it ends on the clock rather than on a probe error, and then appends exactly the samples the passes before record after the earlier ones; otherwise it fails with the error of the probe it ended on |
| MemplotProperties.CollectSuccess | memplot.go:28-68 | a call succeeds iff `duration / sd >= 2`, the lookup succeeds and the loop ends on the clock, every probe before then having read; the samples are then one per pass, in pass order, sample k holding probe k's reading and the elapsed time read in pass k |
| MemplotProperties.CollectFailure | memplot.go:29-37 | the too-few-samples error is returned exactly when `duration / sd < 2`; otherwise a failed lookup returns the lookup's error; otherwise a failure is the error of the first probe that fails while the elapsed time lies within the window (memplot.go:50-54), and no samples are returned |
| MemplotProperties.RejectionPrecedesSampling | memplot.go:29-32 | a rejected count does not depend on the lookup, the clock or the probes, which may be anything: nothing is looked up or sampled |
| MemplotProperties.LookupFailurePrecedesSampling | memplot.go:34-37 | a failed lookup is returned without depending on the clock or any probe |
| MemplotProperties.Overshoot | memplot.go:49-63 | in a successful collection every sample but the last lies within `duration` and the last lies past it: the loop overshoots by exactly one sample |
| MemplotProperties.AtLeastOneSample | memplot.go:40-50 | a successful collection has a sample exactly when the first elapsed reading lies within `duration` |
| MemplotProperties.InstantsNonDecreasing | memplot.go:50-63 | a clock that never runs backwards gives samples in non-decreasing time order |
| MemplotProperties.MaximalWindowNeverSucceeds | memplot.go:49-54 | with `duration` at the largest Duration no elapsed time lies past it, so the loop can end only on a probe error and the call never succeeds |
| MemplotProperties.NegativeIntervalGivesNoSamples | memplot.go:29-49 | a negative interval with a window of at least two negative intervals passes the check, and with a non-negative first elapsed reading the call succeeds with no samples |
| MemplotProperties.SeriesInTimeOrder | memplot.go:73-74 | samples in time order give a series whose X values do not decrease |
| MemplotProperties.ConstantResidentSize | memplot.go:75 | a constant resident size of 2048 bytes plots as Y = 2.0 at every point |
| MemplotProperties.PlotTitleIdentifiesPid | memplot.go:104 | different PIDs give different titles |
| MemplotProperties.SeriesFollowOptions | memplot.go:110-139 | an "RSS" entry exists iff `PlotRss`, a "VSZ" entry iff `PlotVsz`; no other labels; RSS comes before VSZ |
| MemplotProperties.SeriesCoverAllSamples | memplot.go:112-113 | every line drawn has one point per sample |
| MemplotProperties.NoSeriesStillPlots | memplot.go:110-141 | with neither flag set the chart succeeds with no series, whatever the line constructor would say |
| MemplotProperties.PlotFailuresPropagate | memplot.go:99-132 | the chart fails iff `plot.New` fails or a selected line cannot be built; the plot error comes first, then the RSS line's, then the VSZ line's, each returned unchanged |

## Left out

- `cmd/memplot/memplot.go` and `cmd/memplot.go`: flag parsing, usage text, length parsing, panics and exits on error, progress messages on stderr, and the goroutine that starts a child process and hands its PID over a one-slot channel. This is command-line plumbing and concurrency around the package.
- The "sample until the process exits" mode for a duration of 0: `memplot.go` has no such mode, and `cmd/memplot/memplot.go:102` calls a `memplot.NewCollection` that `memplot.go` does not define.
- `SavePlot` (memplot.go:144-146): image encoding and file writing are I/O in gonum.
- The operating system, the clock and sleeping: gopsutil's lookup and `MemoryInfo()` results, and the `time.Now` / `time.Since` readings, are inputs; `time.Sleep(sd)` has no effect beyond what the next clock reading shows.
- Memplot.NewMemoryCollection: when the call gets as far as sampling, requires the clock and probe outcomes to end where the loop ends (one reading more than probe outcomes, the last reading past `duration` or the last probe failed), since a finite input cannot model a loop that never stops: with `duration` at the largest Duration and every probe reading, the Go loop runs forever and that run is not modelled.
- `time.Since` saturating at the largest duration: clock readings are arbitrary inputs, so the model does not build in that cap.
- float64 rounding: seconds and kilobytes are exact reals.
- Only the RSS and VMS fields of gopsutil's `MemoryInfoStat` are kept, the only ones memplot reads.
- The plot object is a value-level abstraction: fonts, legend rendering, axis ranges and drawing are not modelled, and the line held by the plot and by its legend entry is one shared object in Go but two equal values here.
