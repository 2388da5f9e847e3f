/** The autoscaler of one service as the source updates it: the metric cache, the ring of samples
    and the panic state. */
module AutoscalingState {
  import opened Basics
  import opened Options
  import opened Windows
  import opened Autoscaler

  // --- The metric cache ------------------------------------------------------------------------

  const WORD := 0x1_0000_0000

  /** 32-bit two's complement. */
  function Wrap32(x: int): (r: int)
    ensures -0x8000_0000 <= r < 0x8000_0000 && (x - r) % 0x1_0000_0000 == 0
  {
    (x + WORD / 2) % WORD - WORD / 2
  }

  ghost function Total(m: map<string, int>): int {
    if m == map[] then 0
    else
      var k :| k in m;
      m[k] + Total(m - {k})
  }

  lemma {:induction false} TotalWithout(m: map<string, int>, k: string)
    requires k in m
    ensures Total(m) == m[k] + Total(m - {k})
    decreases |m|
  {
    var j :| j in m && Total(m) == m[j] + Total(m - {j});
    if j != k {
      TotalWithout(m - {j}, k);
      TotalWithout(m - {k}, j);
      assert m - {j} - {k} == m - {k} - {j};
    }
  }

  function Reported(m: map<string, int>, name: string): int {
    if name in m then m[name] else 0
  }

  lemma TotalUpdated(m: map<string, int>, name: string, x: int)
    ensures Total(m[name := x]) == Total(m) - Reported(m, name) + x
    ensures Total(m - {name}) == Total(m) - Reported(m, name)
  {
    TotalWithout(m[name := x], name);
    if name in m {
      TotalWithout(m, name);
      assert m[name := x] - {name} == m - {name};
    } else {
      assert m[name := x] - {name} == m;
      assert m - {name} == m;
    }
  }

  datatype MetricEvent = Report(name: string, inflight: int) | Removal(name: string)

  /** What a data plane last reported, unless it was removed since. */
  function LastReport(events: seq<MetricEvent>, name: string): Option<int>
    decreases |events|
  {
    if events == [] then None
    else
      var e := events[|events| - 1];
      if e.name != name then LastReport(events[..|events| - 1], name)
      else if e.Report? then Some(e.inflight) else None
  }

  /** The map holds exactly the last reports of the data planes not removed since. */
  ghost predicate LastReports(events: seq<MetricEvent>, m: map<string, int>) {
    forall name :: LastReport(events, name) == (if name in m then Some(m[name]) else None)
  }

  /** Adding a wrapped change to a wrapped total wraps the changed total. */
  lemma WrapDelta(total: int, change: int)
    ensures Wrap32(Wrap32(total) + Wrap32(change)) == Wrap32(total + change)
  {
  }

  class MetricCache {
    var cachedScalingMetric: int
    var inflightRequestsPerDataPlane: map<string, int>

    ghost predicate Valid()
      reads this
    {
      cachedScalingMetric == Wrap32(Total(inflightRequestsPerDataPlane))
    }

    constructor ()
      ensures Valid() && inflightRequestsPerDataPlane == map[]
    {
      cachedScalingMetric, inflightRequestsPerDataPlane := 0, map[];
    }

    method SetCachedScalingMetric(name: string, inflight: int)
      requires Valid()
      modifies this
      ensures Valid() && inflightRequestsPerDataPlane == old(inflightRequestsPerDataPlane)[name := inflight]
    {
      var delta := Wrap32(inflight - Reported(inflightRequestsPerDataPlane, name));
      WrapDelta(Total(inflightRequestsPerDataPlane), inflight - Reported(inflightRequestsPerDataPlane, name));
      TotalUpdated(inflightRequestsPerDataPlane, name, inflight);
      cachedScalingMetric := Wrap32(cachedScalingMetric + delta);
      inflightRequestsPerDataPlane := inflightRequestsPerDataPlane[name := inflight];
    }

    method RemoveDataplane(name: string)
      requires Valid()
      modifies this
      ensures Valid() && inflightRequestsPerDataPlane == old(inflightRequestsPerDataPlane) - {name}
    {
      var delta := Wrap32(-Reported(inflightRequestsPerDataPlane, name));
      WrapDelta(Total(inflightRequestsPerDataPlane), -Reported(inflightRequestsPerDataPlane, name));
      TotalUpdated(inflightRequestsPerDataPlane, name, 0);
      cachedScalingMetric := Wrap32(cachedScalingMetric + delta);
      inflightRequestsPerDataPlane := inflightRequestsPerDataPlane - {name};
    }

    /** After any sequence of reports and removals the cache is the 32-bit sum of the last report of
        each data plane that was not removed since. */
    method Replay(events: seq<MetricEvent>)
      requires Valid() && inflightRequestsPerDataPlane == map[]
      modifies this
      ensures cachedScalingMetric == Wrap32(Total(inflightRequestsPerDataPlane))
      ensures LastReports(events, inflightRequestsPerDataPlane)
    {
      for k := 0 to |events|
        invariant Valid()
        invariant LastReports(events[..k], inflightRequestsPerDataPlane)
      {
        assert events[..k + 1][..k] == events[..k];
        match events[k]
        case Report(name, inflight) => SetCachedScalingMetric(name, inflight);
        case Removal(name) => RemoveDataplane(name);
      }
      assert events[..|events|] == events;
    }
  }

  // --- The decision ------------------------------------------------------------------------------

  class AutoscalingMetadata {
    const config: Config
    var actualScale: int
    var inPanicMode: bool
    var startPanicking: int
    var maxPanicPods: int
    var scalingMetrics: seq<real>
    var windowHead: int
    ghost var history: seq<real>

    ghost predicate Valid()
      reads this
    {
      config.Usable() && Represents(scalingMetrics, windowHead, history, config.StableBuckets())
    }

    ghost function View(): Scaler
      reads this
    {
      Scaler(history, Panic(inPanicMode, startPanicking, maxPanicPods))
    }

    constructor (config: Config)
      requires config.Usable()
      ensures this.config == config && Valid() && View() == NEW_SCALER
    {
      this.config := config;
      actualScale, inPanicMode, startPanicking, maxPanicPods := 0, false, 0, 0;
      scalingMetrics, windowHead, history := [], 0, [];
      NextSlot(0, config.StableBuckets());
    }

    /** autoscaling.go, windowAverage. */
    method WindowAverage(observed: real) returns (avgStable: real, avgPanic: real)
      requires Valid()
      modifies this`scalingMetrics, this`windowHead, this`history
      ensures Valid() && history == old(history) + [observed]
      ensures (avgStable, avgPanic) == Averages(config, history)
      ensures var stable, panic := config.stableSeconds / config.period, config.panicSeconds / config.period;
        avgStable == Mean(Last(history, stable)) && avgPanic == Mean(PanicSamples(history, stable, panic))
    {
      var panicBuckets, stableBuckets := config.PanicBuckets(), config.StableBuckets();
      StoreWrites(scalingMetrics, windowHead, history, stableBuckets, observed);
      if |scalingMetrics| < stableBuckets {
        scalingMetrics := scalingMetrics + [observed];
      } else {
        scalingMetrics := scalingMetrics[windowHead := observed];
      }
      history := history + [observed];
      StableIsSuffix(scalingMetrics, windowHead, history, stableBuckets);
      PanicIsSamples(scalingMetrics, windowHead, history, stableBuckets, panicBuckets);
      var windowLength := Min(stableBuckets, |scalingMetrics|);
      avgStable := SumWindow(scalingMetrics, windowHead, windowLength);
      avgStable := avgStable / (windowLength as real);
      windowLength := Min(panicBuckets, |scalingMetrics|);
      avgPanic := SumWindow(scalingMetrics, windowHead, windowLength);
      HeadMoves(scalingMetrics, windowHead, history, stableBuckets);
      windowHead := windowHead + 1;
      if windowHead >= stableBuckets {
        windowHead := 0;
      }
      avgPanic := avgPanic / (windowLength as real);
    }

    /** autoscaling.go, internalScaleAlgorithm; `now` stands for the clock. */
    method InternalScaleAlgorithm(metric: real, now: int) returns (pods: int)
      requires Valid()
      modifies this
      ensures Valid() && actualScale == old(actualScale)
      ensures (pods, View()) == Step(config, old(View()), Input(metric, actualScale, now))
      ensures history == old(history) + [metric]
      ensures var stable, panic := config.stableSeconds / config.period, config.panicSeconds / config.period;
        var over := Surges(config, actualScale, Mean(PanicSamples(history, stable, panic)));
        && (inPanicMode <==> over || (old(inPanicMode) && now <= old(startPanicking) + config.stableSeconds))
        && (over ==> startPanicking == now)
        && (!inPanicMode ==> AskedFor(config, actualScale, Mean(Last(history, stable)), pods))
        && (inPanicMode ==>
              var one, other := StablePods(config, actualScale, Mean(Last(history, stable))),
                                StablePods(config, actualScale, Mean(PanicSamples(history, stable, panic)));
              pods == maxPanicPods == Max(Max(one, other), old(maxPanicPods)))
        && (!inPanicMode ==> maxPanicPods == if old(inPanicMode) then 0 else old(maxPanicPods))
    {
      var ready := Ready(actualScale);
      var maxScaleUp := MaxUp(config, ready);
      var maxScaleDown := MaxDown(config, ready);
      var target := TargetOf(config);
      var avgStable, avgPanic := WindowAverage(metric);
      DecideExactly(config, actualScale, avgStable, avgPanic, now, old(View()).panic);
      var dspc := Ceil(Per(avgStable, target));
      var dppc := Ceil(Per(avgPanic, target));
      var stable := Limited(dspc, maxScaleDown, maxScaleUp);
      var panic := Limited(dppc, maxScaleDown, maxScaleUp);
      var over := OverThreshold(config, dppc, ready);
      if !inPanicMode && over {
        inPanicMode := true;
        startPanicking := now;
      } else if over {
        startPanicking := now;
      } else if inPanicMode && !over && startPanicking + config.stableSeconds < now {
        inPanicMode := false;
        startPanicking := 0;
        maxPanicPods := 0;
      }
      pods := stable;
      if inPanicMode {
        if pods < panic {
          pods := panic;
        }
        if pods > maxPanicPods {
          maxPanicPods := pods;
        }
        pods := maxPanicPods;
      }
    }

    method KnativeScaling(isScaleFromZero: bool, cachedScalingMetric: int, now: int) returns (scale: int)
      requires Valid()
      modifies this
      ensures Valid() && actualScale == old(actualScale)
      ensures isScaleFromZero ==> scale == 1 && View() == old(View())
      ensures !isScaleFromZero ==>
        var (pods, next) := Step(config, old(View()), Input(cachedScalingMetric as real, actualScale, now));
        scale == Clamp(pods, config.lower, config.upper) && View() == next
    {
      if isScaleFromZero {
        return 1;
      }
      var desired := InternalScaleAlgorithm(cachedScalingMetric as real, now);
      scale := Clamp(desired, config.lower, config.upper);
    }
  }
}
