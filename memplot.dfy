/**
 * The memplot package: sampling the memory footprint of a running process at a
 * fixed interval into a MemoryCollection, projecting the samples to chart
 * series, and choosing which series go on the chart.
 *
 * Time and the operating system enter as values supplied by the caller:
 *  - `start` is the `time.Now()` reading taken when sampling begins;
 *  - `clock[0]` is the `time.Since(start)` reading taken before the loop and
 *    `clock[i + 1]` the one taken at the top of the loop's i-th pass, so
 *    `clock[i]` is the elapsed time that decides whether pass i runs at all;
 *  - `lookup` is the outcome of `process.NewProcess(pid)` and `probes[i]` that
 *    of the `MemoryInfo()` call made in pass i;
 *  - `newPlotErr` and `lineError` are the failures of gonum's `plot.New()` and
 *    `plotter.NewLine(data)`.
 */
module Memplot {
  import opened Wrappers
  import opened GoBase
  import opened Process
  import Gonum

  /** One sample: the memory reading and the time elapsed since sampling began. */
  datatype MemoryInstant = MemoryInstant(MemoryInfo: MemoryInfoStat, Instant: Duration)

  /** The errors memplot returns: its own sample-count error, or one passed on from a library. */
  datatype Error = TooFewSamples | External(cause: string)
  {
    function Message(): string {
      match this
      case TooFewSamples => "There must be at least two samples. Sample Duration too short"
      case External(cause) => cause
    }
  }

  datatype PlotOptions = PlotOptions(PlotRss: bool, PlotVsz: bool)

  /** The two memory figures a series can show. */
  datatype Metric = Resident | Virtual

  const LineWidth: real := 1.0
  const RssColor: Gonum.RGBA := Gonum.RGBA(0, 0, 0, 255)
  const VszColor: Gonum.RGBA := Gonum.RGBA(0, 0, 255, 255)
  const XAxisLabel: string := "Time (Seconds)"
  const YAxisLabel: string := "KiloBytes"

  class MemoryCollection {
    var Pid: Int32
    var StartTime: Time
    var SampleDuration: Duration   // time between samples
    var Samples: seq<MemoryInstant>

    constructor (pid: Int32, start: Time, sd: Duration)
      ensures Pid == pid && StartTime == start && SampleDuration == sd
      ensures Samples == []
    {
      Pid, StartTime, SampleDuration := pid, start, sd;
      Samples := [];
    }

    /** The resident-size series: one point per sample, in seconds and kilobytes. */
    method GatherRSSXYs() returns (pts: seq<Gonum.XY>)
      ensures pts == Points(Samples, Resident)
    {
      var a := new Gonum.XY[|Samples|];
      for i := 0 to |Samples|
        invariant forall k :: 0 <= k < i ==> a[k] == Point(Samples[k], Resident)
      {
        a[i] := Gonum.XY(Seconds(Samples[i].Instant), Kilobytes(Samples[i].MemoryInfo.RSS));
      }
      pts := a[..];
    }

    /** The virtual-size series: one point per sample, in seconds and kilobytes. */
    method GatherVSZXYs() returns (pts: seq<Gonum.XY>)
      ensures pts == Points(Samples, Virtual)
    {
      var a := new Gonum.XY[|Samples|];
      for i := 0 to |Samples|
        invariant forall k :: 0 <= k < i ==> a[k] == Point(Samples[k], Virtual)
      {
        a[i] := Gonum.XY(Seconds(Samples[i].Instant), Kilobytes(Samples[i].MemoryInfo.VMS));
      }
      pts := a[..];
    }

    /**
     * Builds the chart of this collection: a titled plot with a grid and one
     * line with a legend entry per selected series, or the first library error.
     */
    method Plot(opt: PlotOptions, newPlotErr: Option<string>, lineError: seq<Gonum.XY> -> Option<string>)
      returns (r: Result<Gonum.Plot, Error>)
      ensures r.Failure? <==> PlotOutcome(Samples, opt, newPlotErr, lineError).Failure?
      ensures r.Failure? ==> r.error == PlotOutcome(Samples, opt, newPlotErr, lineError).error
      ensures r.Success? ==>
                fresh(r.value) &&
                r.value.Title == PlotTitle(Pid) &&
                r.value.XLabel == XAxisLabel && r.value.YLabel == YAxisLabel &&
                r.value.Legend == PlotOutcome(Samples, opt, newPlotErr, lineError).value &&
                r.value.Plotters == [Gonum.Grid] + Drawn(r.value.Legend)
    {
      if newPlotErr.Some? {
        return Failure(External(newPlotErr.value));
      }
      var p := new Gonum.Plot();
      p.Title := PlotTitle(Pid);
      p.XLabel := XAxisLabel;
      p.YLabel := YAxisLabel;
      p.Add(Gonum.Grid);
      assert p.Plotters == [Gonum.Grid] + Drawn(p.Legend);

      if opt.PlotRss {
        var rssData := GatherRSSXYs();
        var err := lineError(rssData);
        if err.Some? {
          return Failure(External(err.value));
        }
        var rssLine := Gonum.Line(rssData, LineWidth, RssColor);
        DrawnAfterGrid(p.Plotters, p.Legend, Gonum.LegendEntry("RSS", rssLine));
        p.Add(Gonum.LinePlotter(rssLine));
        p.AddLegend("RSS", rssLine);
        assert p.Plotters == [Gonum.Grid] + Drawn(p.Legend);
      }
      assert p.Legend == if opt.PlotRss then [Series(Samples, opt)[0]] else [];

      if opt.PlotVsz {
        var vszData := GatherVSZXYs();
        var err := lineError(vszData);
        if err.Some? {
          return Failure(External(err.value));
        }
        var vszLine := Gonum.Line(vszData, LineWidth, VszColor);
        DrawnAfterGrid(p.Plotters, p.Legend, Gonum.LegendEntry("VSZ", vszLine));
        p.Add(Gonum.LinePlotter(vszLine));
        p.AddLegend("VSZ", vszLine);
        assert p.Plotters == [Gonum.Grid] + Drawn(p.Legend);
      }
      assert p.Legend == Series(Samples, opt);

      r := Success(p);
    }
  }

  // ---------------------------------------------------------------------------
  // Sampling

  /**
   * The supplied clock and probe outcomes cover a whole sampling loop: one
   * clock reading per `time.Since`, one probe outcome per pass, and they end
   * where the loop must have stopped, on a reading past `duration` or on a
   * failed probe.
   */
  predicate Reaches(duration: Duration, clock: seq<Duration>, probes: seq<Probe>) {
    |clock| == |probes| + 1 &&
    (clock[|probes|] > duration || (|probes| > 0 && probes[|probes| - 1].ProbeFailed?))
  }

  /** Pass `i` lies within the supplied outcomes: it stops on the clock if it has no probe. */
  predicate InRange(duration: Duration, clock: seq<Duration>, probes: seq<Probe>, i: nat)
    requires Reaches(duration, clock, probes)
  {
    i <= |probes| && (i == |probes| ==> clock[i] > duration)
  }

  /**
   * The pass, from `j` on, at which the loop ends: the first whose elapsed time
   * lies past `duration`, or else whose probe fails.
   */
  function StopIndex(duration: Duration, clock: seq<Duration>, probes: seq<Probe>, j: nat): (n: nat)
    requires Reaches(duration, clock, probes) && InRange(duration, clock, probes, j)
    ensures j <= n <= |probes| && InRange(duration, clock, probes, n)
    ensures clock[n] > duration || probes[n].ProbeFailed?
    ensures forall k :: j <= k < n ==> clock[k] <= duration && probes[k].Reading?
    decreases |probes| - j
  {
    if clock[j] > duration || probes[j].ProbeFailed? then j
    else StopIndex(duration, clock, probes, j + 1)
  }

  /**
   * The sampling loop from pass `i` on, with `acc` the samples gathered so far
   * and `clock[i]` the elapsed time the loop condition tests.
   */
  function SampleFrom(duration: Duration, clock: seq<Duration>, probes: seq<Probe>,
                      i: nat, acc: seq<MemoryInstant>): Result<seq<MemoryInstant>, Error>
    requires Reaches(duration, clock, probes) && InRange(duration, clock, probes, i)
    decreases |probes| - i
  {
    if clock[i] > duration then Success(acc)
    else
      match probes[i]
      case ProbeFailed(cause) => Failure(External(cause))
      case Reading(info) =>
        SampleFrom(duration, clock, probes, i + 1, acc + [MemoryInstant(info, clock[i + 1])])
  }

  /** What `NewMemoryCollection` returns, as samples or an error. */
  function Collect(sd: Duration, duration: Duration, lookup: Lookup,
                   clock: seq<Duration>, probes: seq<Probe>): Result<seq<MemoryInstant>, Error>
    requires sd != 0
    requires Quo(duration, sd) >= 2 && lookup.Found? ==> Reaches(duration, clock, probes)
  {
    if Quo(duration, sd) < 2 then Failure(TooFewSamples)
    else if lookup.LookupFailed? then Failure(External(lookup.cause))
    else SampleFrom(duration, clock, probes, 0, [])
  }

  /**
   * Samples the memory of process `pid` every `sd` until more than `duration`
   * has elapsed; fails before sampling when `duration / sd` is below two or the
   * process cannot be found, and fails as a whole on the first probe error.
   */
  method NewMemoryCollection(pid: Int32, sd: Duration, duration: Duration, lookup: Lookup,
                             start: Time, clock: seq<Duration>, probes: seq<Probe>)
    returns (r: Result<MemoryCollection, Error>)
    requires sd != 0
    requires Quo(duration, sd) >= 2 && lookup.Found? ==> Reaches(duration, clock, probes)
    ensures r.Failure? <==> Collect(sd, duration, lookup, clock, probes).Failure?
    ensures r.Failure? ==> r.error == Collect(sd, duration, lookup, clock, probes).error
    ensures r.Success? ==>
              fresh(r.value) &&
              r.value.Pid == pid && r.value.StartTime == start && r.value.SampleDuration == sd &&
              r.value.Samples == Collect(sd, duration, lookup, clock, probes).value
  {
    var numsamples := Quo(duration, sd);
    if numsamples < 2 {
      return Failure(TooFewSamples);
    }
    if lookup.LookupFailed? {
      return Failure(External(lookup.cause));
    }

    var elapsed := clock[0];
    var coll := new MemoryCollection(pid, start, sd);
    var i := 0;
    while elapsed <= duration
      invariant InRange(duration, clock, probes, i) && elapsed == clock[i]
      invariant coll.Pid == pid && coll.StartTime == start && coll.SampleDuration == sd
      invariant SampleFrom(duration, clock, probes, i, coll.Samples)
                == SampleFrom(duration, clock, probes, 0, [])
      decreases |probes| - i
    {
      elapsed := clock[i + 1];
      var mem := probes[i];
      if mem.ProbeFailed? {
        return Failure(External(mem.cause));
      }
      coll.Samples := coll.Samples + [MemoryInstant(mem.info, elapsed)];
      // time.Sleep(sd) has no effect on the model beyond the next clock reading
      i := i + 1;
    }
    return Success(coll);
  }

  // ---------------------------------------------------------------------------
  // Series

  function Bytes(info: MemoryInfoStat, m: Metric): Uint64 {
    match m
    case Resident => info.RSS
    case Virtual => info.VMS
  }

  /** `float64(b) / 1024`, exactly. */
  function Kilobytes(b: Uint64): (kb: real)
    ensures kb * 1024.0 == b as real
  {
    b as real / 1024.0
  }

  function Point(s: MemoryInstant, m: Metric): Gonum.XY {
    Gonum.XY(Seconds(s.Instant), Kilobytes(Bytes(s.MemoryInfo, m)))
  }

  /** The series of one metric: point i is sample i's instant and figure. */
  function Points(samples: seq<MemoryInstant>, m: Metric): (pts: seq<Gonum.XY>)
    ensures |pts| == |samples|
    ensures forall i :: 0 <= i < |samples| ==>
              pts[i].X * (Second as real) == samples[i].Instant as real &&
              pts[i].Y * 1024.0 == Bytes(samples[i].MemoryInfo, m) as real
  {
    if samples == [] then [] else [Point(samples[0], m)] + Points(samples[1..], m)
  }

  // ---------------------------------------------------------------------------
  // Chart

  /** `fmt.Sprintf("Memory Plot of PID %d", pid)`. */
  function PlotTitle(pid: Int32): string {
    "Memory Plot of PID " + FormatInt(pid)
  }

  /** The legend entries, each naming its line, that the options select, RSS first. */
  function Series(samples: seq<MemoryInstant>, opt: PlotOptions): (es: seq<Gonum.LegendEntry>)
    ensures |es| == (if opt.PlotRss then 1 else 0) + (if opt.PlotVsz then 1 else 0)
    ensures opt.PlotRss ==> es[0] == Gonum.LegendEntry("RSS", Gonum.Line(Points(samples, Resident), LineWidth, RssColor))
    ensures opt.PlotVsz ==> es[|es| - 1] == Gonum.LegendEntry("VSZ", Gonum.Line(Points(samples, Virtual), LineWidth, VszColor))
  {
    (if opt.PlotRss then [Gonum.LegendEntry("RSS", Gonum.Line(Points(samples, Resident), LineWidth, RssColor))] else [])
    + (if opt.PlotVsz then [Gonum.LegendEntry("VSZ", Gonum.Line(Points(samples, Virtual), LineWidth, VszColor))] else [])
  }

  /** The line plotters drawn for the given legend entries, in the same order. */
  function Drawn(es: seq<Gonum.LegendEntry>): (ps: seq<Gonum.Plotter>)
    ensures |ps| == |es|
    ensures forall i :: 0 <= i < |es| ==> ps[i] == Gonum.LinePlotter(es[i].Thumb)
  {
    if es == [] then [] else [Gonum.LinePlotter(es[0].Thumb)] + Drawn(es[1..])
  }

  /** Adding a line and its legend entry keeps the plotters a grid followed by the legend's lines. */
  lemma DrawnAfterGrid(ps: seq<Gonum.Plotter>, es: seq<Gonum.LegendEntry>, e: Gonum.LegendEntry)
    requires ps == [Gonum.Grid] + Drawn(es)
    ensures ps + [Gonum.LinePlotter(e.Thumb)] == [Gonum.Grid] + Drawn(es + [e])
  {
    assert Drawn(es + [e]) == Drawn(es) + [Gonum.LinePlotter(e.Thumb)];
  }

  /** What `Plot` returns: the selected legend entries, or the first library failure. */
  function PlotOutcome(samples: seq<MemoryInstant>, opt: PlotOptions, newPlotErr: Option<string>,
                       lineError: seq<Gonum.XY> -> Option<string>): Result<seq<Gonum.LegendEntry>, Error>
  {
    if newPlotErr.Some? then Failure(External(newPlotErr.value))
    else if opt.PlotRss && lineError(Points(samples, Resident)).Some? then
      Failure(External(lineError(Points(samples, Resident)).value))
    else if opt.PlotVsz && lineError(Points(samples, Virtual)).Some? then
      Failure(External(lineError(Points(samples, Virtual)).value))
    else Success(Series(samples, opt))
  }
}
