/**
 * What the memplot package promises about sampling, series and charts, stated
 * over the specification functions of module Memplot.
 */
module MemplotProperties {
  import opened Wrappers
  import opened GoBase
  import opened Process
  import opened Memplot
  import Gonum

  // ---------------------------------------------------------------------------
  // The sample-count check

  lemma QuotientAtLeastTwo(n: nat, d: nat)
    requires d > 0
    ensures n / d >= 2 <==> n >= 2 * d
  {
    var q, m := n / d, n % d;
    assert n == q * d + m && 0 <= m < d;
    if q >= 2 {
      assert q * d >= 2 * d by { assert (q - 2) * d >= 0; }
    } else {
      assert q * d <= d by { assert (1 - q) * d >= 0; }
    }
  }

  /**
   * With a positive interval, at least two samples are demanded exactly when
   * the window spans two intervals.
   */
  lemma MinimumWindow(sd: Duration, duration: Duration)
    requires sd > 0
    ensures Quo(duration, sd) >= 2 <==> duration >= 2 * sd
  {
    if duration >= 0 {
      assert Quo(duration, sd) == duration / sd;
      QuotientAtLeastTwo(duration, sd);
    } else {
      var n := -(duration as int);
      assert Quo(duration, sd) == -(n / sd);
      QuotientBounds(n, sd);
    }
  }

  /**
   * With a negative interval the truncating division lets through every window
   * at least two intervals long in the negative direction, except where
   * MinInt64 / -1 wraps around.
   */
  lemma NegativeIntervalWindow(sd: Duration, duration: Duration)
    requires sd < 0
    ensures Quo(duration, sd) >= 2 <==> duration <= 2 * sd && !(duration == MinInt64 && sd == -1)
  {
    var q := Quo(duration, sd);
    if duration == MinInt64 && sd == -1 {
      assert q == MinInt64;
    } else if duration < 0 {
      var n, d := -(duration as int), -(sd as int);
      assert q == n / d;
      assert q >= 2 <==> n >= 2 * d by { QuotientAtLeastTwo(n, d); }
    } else {
      var d := -(sd as int);
      assert q == -(duration / d);
      QuotientBounds(duration, d);
    }
  }

  // ---------------------------------------------------------------------------
  // The sampling loop

  /**
   * The loop from pass `i` on runs up to its stop pass. It succeeds exactly
   * when it stops on the clock, and then appends the samples the passes before
   * record; otherwise it returns the error of the probe it stopped on.
   */
  lemma {:induction false} SampleFromSpec(duration: Duration, clock: seq<Duration>, probes: seq<Probe>,
                                          i: nat, acc: seq<MemoryInstant>)
    requires Reaches(duration, clock, probes) && InRange(duration, clock, probes, i)
    ensures var n := StopIndex(duration, clock, probes, i);
            var r := SampleFrom(duration, clock, probes, i, acc);
            (r.Success? <==> clock[n] > duration) &&
            (r.Success? ==> r.value == acc + Recorded(clock, probes, i, n)) &&
            (r.Failure? ==> r.error == External(probes[n].cause))
    decreases |probes| - i
  {
    var n := StopIndex(duration, clock, probes, i);
    if clock[i] > duration || probes[i].ProbeFailed? {
      assert n == i;
    } else {
      var x := MemoryInstant(probes[i].info, clock[i + 1]);
      var r := SampleFrom(duration, clock, probes, i + 1, acc + [x]);
      assert SampleFrom(duration, clock, probes, i, acc) == r;
      SampleFromSpec(duration, clock, probes, i + 1, acc + [x]);
      assert StopIndex(duration, clock, probes, i + 1) == n;
      if r.Success? {
        assert Recorded(clock, probes, i, n) == [x] + Recorded(clock, probes, i + 1, n);
        assert acc + [x] + Recorded(clock, probes, i + 1, n) == acc + Recorded(clock, probes, i, n);
      }
    }
  }

  /** Probes `i` up to `n` all returned a reading. */
  ghost predicate AllRead(probes: seq<Probe>, i: nat, n: nat)
    requires n <= |probes|
  {
    forall k :: i <= k < n ==> probes[k].Reading?
  }

  /**
   * The samples that passes `i` up to `n` record when all their probes
   * return a reading: one per pass, holding that pass's reading and the clock
   * reading taken in it.
   */
  ghost function Recorded(clock: seq<Duration>, probes: seq<Probe>, i: nat, n: nat): (s: seq<MemoryInstant>)
    requires i <= n <= |probes| && |clock| == |probes| + 1 && AllRead(probes, i, n)
    ensures |s| == n - i
    ensures forall j :: 0 <= j < |s| ==>
              probes[i + j] == Reading(s[j].MemoryInfo) && s[j].Instant == clock[i + j + 1]
    decreases n - i
  {
    if i == n then [] else [MemoryInstant(probes[i].info, clock[i + 1])] + Recorded(clock, probes, i + 1, n)
  }

  /**
   * A call succeeds exactly when the window holds two intervals, the process
   * is found and the loop stops on the clock, every probe before then having
   * returned a reading. The samples are then one per pass, in order: sample k
   * holds probe k's reading and the elapsed time read in pass k.
   */
  lemma CollectSuccess(sd: Duration, duration: Duration, lookup: Lookup,
                       clock: seq<Duration>, probes: seq<Probe>)
    requires sd != 0
    requires Quo(duration, sd) >= 2 && lookup.Found? ==> Reaches(duration, clock, probes)
    ensures var r := Collect(sd, duration, lookup, clock, probes);
            (r.Success? <==> Quo(duration, sd) >= 2 && lookup.Found? &&
                             clock[StopIndex(duration, clock, probes, 0)] > duration) &&
            (r.Success? ==>
               var n := StopIndex(duration, clock, probes, 0);
               |r.value| == n &&
               forall k :: 0 <= k < n ==>
                 probes[k] == Reading(r.value[k].MemoryInfo) && r.value[k].Instant == clock[k + 1])
  {
    if Quo(duration, sd) >= 2 && lookup.Found? {
      var r := SampleFrom(duration, clock, probes, 0, []);
      assert Collect(sd, duration, lookup, clock, probes) == r;
      SampleFromSpec(duration, clock, probes, 0, []);
      if r.Success? {
        assert r.value == Recorded(clock, probes, 0, StopIndex(duration, clock, probes, 0));
      }
    }
  }

  /**
   * Every failure is one of three, tried in this order: too few samples, the
   * lookup's error, or the error of the first probe that fails while the
   * elapsed time still lies within the window. No samples are returned with
   * any of them.
   */
  lemma CollectFailure(sd: Duration, duration: Duration, lookup: Lookup,
                       clock: seq<Duration>, probes: seq<Probe>)
    requires sd != 0
    requires Quo(duration, sd) >= 2 && lookup.Found? ==> Reaches(duration, clock, probes)
    ensures var r := Collect(sd, duration, lookup, clock, probes);
            (r == Failure(TooFewSamples) <==> Quo(duration, sd) < 2) &&
            (Quo(duration, sd) >= 2 && lookup.LookupFailed? ==> r == Failure(External(lookup.cause))) &&
            (Quo(duration, sd) >= 2 && lookup.Found? && r.Failure? ==>
               var n := StopIndex(duration, clock, probes, 0);
               r.error.External? && n < |probes| && clock[n] <= duration &&
               probes[n] == ProbeFailed(r.error.cause) &&
               forall k :: 0 <= k < n ==> clock[k] <= duration && probes[k].Reading?)
  {
    if Quo(duration, sd) >= 2 && lookup.Found? {
      SampleFromSpec(duration, clock, probes, 0, []);
    }
  }

  /**
   * The sample-count check comes before the lookup and before any clock or
   * probe reading: a rejected call does not depend on any of them.
   */
  lemma RejectionPrecedesSampling(sd: Duration, duration: Duration,
                                  lookup1: Lookup, clock1: seq<Duration>, probes1: seq<Probe>,
                                  lookup2: Lookup, clock2: seq<Duration>, probes2: seq<Probe>)
    requires sd != 0 && Quo(duration, sd) < 2
    ensures Collect(sd, duration, lookup1, clock1, probes1) == Collect(sd, duration, lookup2, clock2, probes2)
                                                         == Failure(TooFewSamples)
  {
  }

  /** A failed lookup is returned before any clock or probe reading. */
  lemma LookupFailurePrecedesSampling(sd: Duration, duration: Duration, cause: string,
                                      clock1: seq<Duration>, probes1: seq<Probe>,
                                      clock2: seq<Duration>, probes2: seq<Probe>)
    requires sd != 0 && Quo(duration, sd) >= 2
    ensures Collect(sd, duration, LookupFailed(cause), clock1, probes1)
            == Collect(sd, duration, LookupFailed(cause), clock2, probes2)
            == Failure(External(cause))
  {
  }

  /**
   * Because the loop tests the elapsed time of the previous pass, it overshoots
   * by exactly one sample: every sample but the last lies within the window,
   * the last lies past it.
   */
  lemma Overshoot(sd: Duration, duration: Duration, lookup: Lookup,
                  clock: seq<Duration>, probes: seq<Probe>)
    requires sd != 0 && Reaches(duration, clock, probes)
    requires Collect(sd, duration, lookup, clock, probes).Success?
    ensures var s := Collect(sd, duration, lookup, clock, probes).value;
            (forall k :: 0 <= k < |s| - 1 ==> s[k].Instant <= duration) &&
            (|s| > 0 ==> s[|s| - 1].Instant > duration)
  {
    CollectSuccess(sd, duration, lookup, clock, probes);
  }

  /** A successful call has a sample exactly when the first elapsed time lies within the window. */
  lemma AtLeastOneSample(sd: Duration, duration: Duration, lookup: Lookup,
                         clock: seq<Duration>, probes: seq<Probe>)
    requires sd != 0 && Reaches(duration, clock, probes)
    requires Collect(sd, duration, lookup, clock, probes).Success?
    ensures |Collect(sd, duration, lookup, clock, probes).value| >= 1 <==> clock[0] <= duration
  {
    CollectSuccess(sd, duration, lookup, clock, probes);
  }

  ghost predicate NonDecreasing(clock: seq<Duration>) {
    forall i, j :: 0 <= i < j < |clock| ==> clock[i] <= clock[j]
  }

  /** A clock that never runs backwards gives samples in time order. */
  lemma InstantsNonDecreasing(sd: Duration, duration: Duration, lookup: Lookup,
                              clock: seq<Duration>, probes: seq<Probe>)
    requires sd != 0 && Reaches(duration, clock, probes)
    requires NonDecreasing(clock)
    requires Collect(sd, duration, lookup, clock, probes).Success?
    ensures var s := Collect(sd, duration, lookup, clock, probes).value;
            forall i, j :: 0 <= i < j < |s| ==> s[i].Instant <= s[j].Instant
  {
    CollectSuccess(sd, duration, lookup, clock, probes);
  }

  /**
   * No elapsed time lies past the largest duration, so with that window the
   * loop can only end on a probe error: such a call never succeeds.
   */
  lemma MaximalWindowNeverSucceeds(sd: Duration, lookup: Lookup, clock: seq<Duration>, probes: seq<Probe>)
    requires sd != 0
    requires Quo(MaxInt64, sd) >= 2 && lookup.Found? ==> Reaches(MaxInt64, clock, probes)
    ensures Collect(sd, MaxInt64, lookup, clock, probes).Failure?
  {
    CollectSuccess(sd, MaxInt64, lookup, clock, probes);
  }

  /**
   * As written, a negative interval with a window two intervals long in the
   * negative direction passes the sample-count check, and since the elapsed
   * time never lies within a negative window, the call succeeds with no
   * samples at all.
   */
  lemma NegativeIntervalGivesNoSamples(sd: Duration, duration: Duration,
                                       clock: seq<Duration>, probes: seq<Probe>)
    requires sd < 0 && duration <= 2 * sd && !(duration == MinInt64 && sd == -1)
    requires Reaches(duration, clock, probes) && clock[0] >= 0
    ensures Collect(sd, duration, Found, clock, probes) == Success([])
  {
    NegativeIntervalWindow(sd, duration);
  }

  // ---------------------------------------------------------------------------
  // Series

  /** Samples in time order give a series whose X values do not decrease. */
  lemma SeriesInTimeOrder(samples: seq<MemoryInstant>, m: Metric)
    requires forall i, j :: 0 <= i < j < |samples| ==> samples[i].Instant <= samples[j].Instant
    ensures var pts := Points(samples, m);
            forall i, j :: 0 <= i < j < |pts| ==> pts[i].X <= pts[j].X
  {
    var pts := Points(samples, m);
    forall i, j | 0 <= i < j < |pts|
      ensures pts[i].X <= pts[j].X
    {
      assert pts[i].X * (Second as real) <= pts[j].X * (Second as real);
    }
  }

  /** A process whose resident size stays at 2048 bytes plots as 2 kilobytes throughout. */
  lemma ConstantResidentSize(samples: seq<MemoryInstant>)
    requires forall i :: 0 <= i < |samples| ==> samples[i].MemoryInfo.RSS == 2048
    ensures forall p :: p in Points(samples, Resident) ==> p.Y == 2.0
  {
  }

  // ---------------------------------------------------------------------------
  // Chart

  /** The chart's title names the process: different PIDs give different titles. */
  lemma PlotTitleIdentifiesPid(p1: Int32, p2: Int32)
    requires PlotTitle(p1) == PlotTitle(p2)
    ensures p1 == p2
  {
    var prefix := "Memory Plot of PID ";
    assert FormatInt(p1) == PlotTitle(p1)[|prefix|..];
    assert FormatInt(p2) == PlotTitle(p2)[|prefix|..];
    FormatIntInjective(p1, p2);
  }

  /**
   * The legend holds an "RSS" entry exactly when RSS is selected and a "VSZ"
   * entry exactly when VSZ is, each once, with RSS first, and nothing else.
   */
  lemma SeriesFollowOptions(samples: seq<MemoryInstant>, opt: PlotOptions)
    ensures var es := Series(samples, opt);
            ((exists i :: 0 <= i < |es| && es[i].Label == "RSS") <==> opt.PlotRss) &&
            ((exists i :: 0 <= i < |es| && es[i].Label == "VSZ") <==> opt.PlotVsz) &&
            (forall i :: 0 <= i < |es| ==> es[i].Label == "RSS" || es[i].Label == "VSZ") &&
            (forall i, j :: 0 <= i < j < |es| ==> es[i].Label == "RSS" && es[j].Label == "VSZ")
  {
    var es := Series(samples, opt);
    if opt.PlotRss {
      assert es[0].Label == "RSS";
    }
    if opt.PlotVsz {
      assert es[|es| - 1].Label == "VSZ";
    }
  }

  /** Every series drawn has one point per sample. */
  lemma SeriesCoverAllSamples(samples: seq<MemoryInstant>, opt: PlotOptions)
    ensures forall e :: e in Series(samples, opt) ==> |e.Thumb.XYs| == |samples|
  {
  }

  /**
   * With neither series selected the chart still succeeds, empty of data,
   * whatever the line constructor would have said.
   */
  lemma NoSeriesStillPlots(samples: seq<MemoryInstant>, lineError: seq<Gonum.XY> -> Option<string>)
    ensures PlotOutcome(samples, PlotOptions(false, false), None, lineError) == Success([])
  {
  }

  /**
   * A failure of the plot or line constructor is returned, never swallowed;
   * the RSS line is tried before the VSZ line.
   */
  lemma PlotFailuresPropagate(samples: seq<MemoryInstant>, opt: PlotOptions, newPlotErr: Option<string>,
                              lineError: seq<Gonum.XY> -> Option<string>)
    ensures var r := PlotOutcome(samples, opt, newPlotErr, lineError);
            var rssErr := lineError(Points(samples, Resident));
            var vszErr := lineError(Points(samples, Virtual));
            (r.Failure? <==> newPlotErr.Some? || (opt.PlotRss && rssErr.Some?) || (opt.PlotVsz && vszErr.Some?)) &&
            (newPlotErr.Some? ==> r == Failure(External(newPlotErr.value))) &&
            (newPlotErr.None? && opt.PlotRss && rssErr.Some? ==> r == Failure(External(rssErr.value))) &&
            (newPlotErr.None? && !(opt.PlotRss && rssErr.Some?) && opt.PlotVsz && vszErr.Some? ==>
               r == Failure(External(vszErr.value))) &&
            (r.Success? ==> r.value == Series(samples, opt))
  {
  }
}
