/** The Knative scaling decision (internal/control_plane/autoscaling/autoscaling.go) over real
    numbers and whole seconds, arithmetic averaging only. */
module Autoscaler {
  import opened Basics
  import opened Windows

  datatype Config = Config(
    upper: int, lower: int, panicThreshold: real, upRate: real, downRate: real,
    concurrency: int, targetPercentage: int, stableSeconds: int, panicSeconds: int, period: int)
  {
    function StableBuckets(): int
      requires period > 0
    {
      stableSeconds / period
    }

    function PanicBuckets(): int
      requires period > 0
    {
      panicSeconds / period
    }

    function Target(): real {
      (if concurrency == 0 then 100.0 else concurrency as real) * (targetPercentage as real / 100.0)
    }

    predicate Usable() {
      && period > 0 && StableBuckets() >= 1 && PanicBuckets() >= 1
      && concurrency >= 0 && targetPercentage > 0
      && upRate > 0.0 && downRate > 0.0
    }
  }

  lemma TargetPositive(c: Config)
    requires c.Usable()
    ensures c.Target() > 0.0
  {
  }

  function Ceil(x: real): (n: int)
    ensures (n - 1) as real < x <= n as real
  {
    -((-x).Floor)
  }

  /** Quotient with a positive divisor. */
  function Per(x: real, d: real): real
    requires d > 0.0
  {
    x / d
  }

  lemma PerSign(x: real, d: real)
    requires d > 0.0
    ensures Per(x, d) > 0.0 <==> x > 0.0
    ensures d >= 1.0 && x >= 0.0 ==> Per(x, d) <= x
    ensures x >= 0.0 ==> Per(x, d) >= 0.0
  {
  }

  function Ready(actualScale: int): real {
    if actualScale < 1 then 1.0 else actualScale as real
  }

  function MaxUp(c: Config, ready: real): int {
    Ceil(c.upRate * ready)
  }

  function MaxDown(c: Config, ready: real): int
    requires c.downRate > 0.0
  {
    Per(ready, c.downRate).Floor
  }

  /** Limits `wanted` to what one decision may change. */
  function Limited(wanted: int, down: int, up: int): int {
    Min(if wanted < down then down else wanted, up)
  }

  /** `since` is the time of the last reading over the panic threshold. */
  datatype Panic = Panic(on: bool, since: int, maxPods: int)

  const CALM := Panic(false, 0, 0)

  function OverThreshold(c: Config, panicCount: int, ready: real): bool
    requires ready > 0.0
  {
    Per(panicCount as real, ready) >= c.panicThreshold / 100.0
  }

  function UpdatePanic(c: Config, over: bool, now: int, p: Panic): Panic {
    if over then p.(on := true, since := now)
    else if p.on && p.since + c.stableSeconds < now then CALM
    else p
  }

  /** The pod count and the panic state after one decision, from the two averages. */
  function Decide(c: Config, actualScale: int, avgStable: real, avgPanic: real, now: int, p: Panic): (int, Panic)
    requires c.Usable()
  {
    TargetPositive(c);
    var ready := Ready(actualScale);
    var up, down := MaxUp(c, ready), MaxDown(c, ready);
    var wantedPanic := Ceil(Per(avgPanic, c.Target()));
    var stable := Limited(Ceil(Per(avgStable, c.Target())), down, up);
    var panic := Limited(wantedPanic, down, up);
    var q := UpdatePanic(c, OverThreshold(c, wantedPanic, ready), now, p);
    if !q.on then (stable, q)
    else
      var larger := if stable < panic then panic else stable;
      var pods := if larger > q.maxPods then larger else q.maxPods;
      (pods, q.(maxPods := pods))
  }

  function Clamp(x: int, lo: int, hi: int): (r: int)
    ensures lo <= hi ==> lo <= r <= hi
    ensures lo <= x <= hi ==> r == x
    ensures x < lo <= hi ==> r == lo
    ensures lo <= hi < x ==> r == hi
  {
    if x <= lo then lo else if x >= hi then hi else x
  }

  // --- The decision in plain arithmetic ------------------------------------------------------

  /** `v` is `wanted` kept between the two limits; the upper one wins. */
  predicate Kept(v: int, wanted: int, down: int, up: int) {
    && v <= up
    && (down > up ==> v == up)
    && (down <= up && wanted < down ==> v == down)
    && (down <= wanted <= up ==> v == wanted)
    && (down <= up < wanted ==> v == up)
  }

  /** The pods one average asks for: as many as it takes at the target concurrency, at least the ready ones
      over the scale-down rate and at most the scale-up rate times the ready ones. */
  predicate AskedFor(c: Config, actualScale: int, avg: real, pods: int)
    requires c.Usable()
  {
    var target := (if c.concurrency == 0 then 100.0 else c.concurrency as real) * (c.targetPercentage as real / 100.0);
    var ready := if actualScale < 1 then 1.0 else actualScale as real;
    target > 0.0 && Kept(pods, Ceil(avg / target), (ready / c.downRate).Floor, Ceil(c.upRate * ready))
  }

  /** The pods asked for by the panic average, per ready pod, reach the threshold. */
  predicate Surges(c: Config, actualScale: int, avgPanic: real)
    requires c.Usable()
  {
    var target := (if c.concurrency == 0 then 100.0 else c.concurrency as real) * (c.targetPercentage as real / 100.0);
    var ready := if actualScale < 1 then 1.0 else actualScale as real;
    target > 0.0 && Ceil(avgPanic / target) as real / ready >= c.panicThreshold / 100.0
  }

  lemma AskedForIt(c: Config, actualScale: int, avg: real)
    requires c.Usable()
    ensures AskedFor(c, actualScale, avg, StablePods(c, actualScale, avg))
  {
    TargetPositive(c);
    var wanted, down, up := Ceil(avg / c.Target()), MaxDown(c, Ready(actualScale)), MaxUp(c, Ready(actualScale));
    LimitsWritten(c, actualScale);
    StablePodsAre(c, actualScale, avg);
    LimitedIsKept(wanted, down, up);
  }

  lemma LimitsWritten(c: Config, actualScale: int)
    requires c.Usable()
    ensures var ready := if actualScale < 1 then 1.0 else actualScale as real;
      && MaxDown(c, Ready(actualScale)) == (ready / c.downRate).Floor
      && MaxUp(c, Ready(actualScale)) == Ceil(c.upRate * ready)
  {
  }

  lemma StablePodsAre(c: Config, actualScale: int, avg: real)
    requires c.Usable() && c.Target() > 0.0
    ensures StablePods(c, actualScale, avg) ==
      Limited(Ceil(avg / c.Target()), MaxDown(c, Ready(actualScale)), MaxUp(c, Ready(actualScale)))
  {
  }

  lemma LimitedIsKept(wanted: int, down: int, up: int)
    ensures Kept(Limited(wanted, down, up), wanted, down, up)
  {
  }

  lemma AskedForOnce(c: Config, actualScale: int, avg: real, a: int, b: int)
    requires c.Usable() && AskedFor(c, actualScale, avg, a) && AskedFor(c, actualScale, avg, b)
    ensures a == b
  {
  }

  lemma SurgeIsOver(c: Config, actualScale: int, avgPanic: real)
    requires c.Usable()
    ensures Surges(c, actualScale, avgPanic) ==
      OverThreshold(c, Ceil(Per(avgPanic, TargetOf(c))), Ready(actualScale))
  {
  }

  /** The decision from the pods that the two averages ask for and whether the load is over the threshold. */
  lemma DecideShape(c: Config, actualScale: int, avgStable: real, avgPanic: real, now: int, p: Panic)
    requires c.Usable()
    ensures var (pods, q) := Decide(c, actualScale, avgStable, avgPanic, now, p);
      var stable, panic := StablePods(c, actualScale, avgStable), StablePods(c, actualScale, avgPanic);
      var over := OverThreshold(c, Ceil(Per(avgPanic, TargetOf(c))), Ready(actualScale));
      var r := UpdatePanic(c, over, now, p);
      && q.on == r.on && q.since == r.since
      && pods == (if r.on then Max(Max(stable, panic), r.maxPods) else stable)
      && q.maxPods == (if r.on then pods else r.maxPods)
  {
  }

  lemma Alarm(c: Config, over: bool, now: int, p: Panic)
    ensures var r := UpdatePanic(c, over, now, p);
      && (r.on <==> over || (p.on && now <= p.since + c.stableSeconds))
      && (over ==> r.since == now) && (!over && r.on ==> r.since == p.since)
      && r.maxPods == (if !r.on && p.on then 0 else p.maxPods)
  {
  }

  /** One decision: the service panics afterwards exactly if the load is over the threshold, or it panicked
      and the stable window has not gone by since the load last was; the time of that is remembered. The
      count is what the stable average asks for, and in panic mode the largest of that, of what the panic
      average asks for, and of all counts of the episode. */
  lemma DecideExactly(c: Config, actualScale: int, avgStable: real, avgPanic: real, now: int, p: Panic)
    requires c.Usable()
    ensures var (pods, q) := Decide(c, actualScale, avgStable, avgPanic, now, p);
      var stable, panic := StablePods(c, actualScale, avgStable), StablePods(c, actualScale, avgPanic);
      var over := Surges(c, actualScale, avgPanic);
      && AskedFor(c, actualScale, avgStable, stable) && AskedFor(c, actualScale, avgPanic, panic)
      && (q.on <==> over || (p.on && now <= p.since + c.stableSeconds))
      && (over ==> q.since == now) && (!over && q.on ==> q.since == p.since)
      && pods == (if q.on then Max(Max(stable, panic), p.maxPods) else stable)
      && q.maxPods == (if q.on then pods else if p.on then 0 else p.maxPods)
  {
    AskedForIt(c, actualScale, avgStable);
    AskedForIt(c, actualScale, avgPanic);
    SurgeIsOver(c, actualScale, avgPanic);
    DecideShape(c, actualScale, avgStable, avgPanic, now, p);
    Alarm(c, OverThreshold(c, Ceil(Per(avgPanic, TargetOf(c))), Ready(actualScale)), now, p);
  }

  // --- Bounds ------------------------------------------------------------------------------

  lemma UpIsPositive(c: Config, actualScale: int)
    requires c.Usable()
    ensures MaxUp(c, Ready(actualScale)) >= 1 && MaxDown(c, Ready(actualScale)) >= 0
    ensures c.upRate >= 1.0 && c.downRate >= 1.0 ==>
      MaxDown(c, Ready(actualScale)) as real <= Ready(actualScale) <= MaxUp(c, Ready(actualScale)) as real
  {
    var ready := Ready(actualScale);
    var grown := c.upRate * ready;
    assert grown > 0.0;
    PerSign(ready, c.downRate);
    if c.upRate >= 1.0 {
      assert grown - ready == (c.upRate - 1.0) * ready;
    }
  }

  /** Outside panic mode one decision stays between the two rate limits. */
  lemma RateLimited(c: Config, actualScale: int, avgStable: real, avgPanic: real, now: int, p: Panic)
    requires c.Usable() && c.upRate >= 1.0 && c.downRate >= 1.0
    ensures var (pods, q) := Decide(c, actualScale, avgStable, avgPanic, now, p);
      !q.on ==> MaxDown(c, Ready(actualScale)) <= pods <= MaxUp(c, Ready(actualScale))
  {
    UpIsPositive(c, actualScale);
  }

  /** The count asked for by the stable average alone, within the rate limits. */
  function StablePods(c: Config, actualScale: int, avg: real): int
    requires c.Usable()
  {
    TargetPositive(c);
    Limited(Ceil(Per(avg, c.Target())), MaxDown(c, Ready(actualScale)), MaxUp(c, Ready(actualScale)))
  }

  /** In panic mode a decision covers both averages and everything decided before in the episode. */
  lemma PanicCoversBoth(c: Config, actualScale: int, avgStable: real, avgPanic: real, now: int, p: Panic)
    requires c.Usable()
    ensures var (pods, q) := Decide(c, actualScale, avgStable, avgPanic, now, p);
      q.on ==> && pods >= StablePods(c, actualScale, avgStable)
               && pods >= StablePods(c, actualScale, avgPanic)
               && pods >= p.maxPods && pods == q.maxPods
  {
  }

  /** A panic episode ends only when the load is below the threshold and the stable window has gone
      by since it was last above. */
  lemma EpisodeEndsLate(c: Config, actualScale: int, avgStable: real, avgPanic: real, now: int, p: Panic)
    requires c.Usable()
    ensures var (pods, q) := Decide(c, actualScale, avgStable, avgPanic, now, p);
      p.on ==> (!q.on <==> && p.since + c.stableSeconds < now
                           && !OverThreshold(c, Ceil(Per(avgPanic, TargetOf(c))), Ready(actualScale)))
  {
  }

  function TargetOf(c: Config): (t: real)
    requires c.Usable()
    ensures t > 0.0
  {
    TargetPositive(c);
    c.Target()
  }

  /** Clamping keeps the order, so the limits of the service keep an episode from shrinking too. */
  lemma ClampKeepsOrder(x: int, y: int, lo: int, hi: int)
    requires x <= y && lo <= hi
    ensures lo <= Clamp(x, lo, hi) <= Clamp(y, lo, hi) <= hi
  {
  }

  // --- A run of decisions ---------------------------------------------------------------------

  datatype Input = Input(sample: real, actualScale: int, now: int)

  datatype Scaler = Scaler(history: seq<real>, panic: Panic)

  const NEW_SCALER := Scaler([], CALM)

  function Averages(c: Config, history: seq<real>): (real, real)
    requires c.Usable() && history != []
  {
    (Mean(Last(history, c.StableBuckets())), Mean(PanicSamples(history, c.StableBuckets(), c.PanicBuckets())))
  }

  function Step(c: Config, s: Scaler, x: Input): (int, Scaler)
    requires c.Usable()
  {
    var history := s.history + [x.sample];
    var (avgStable, avgPanic) := Averages(c, history);
    var (pods, panic) := Decide(c, x.actualScale, avgStable, avgPanic, x.now, s.panic);
    (pods, Scaler(history, panic))
  }

  function After(c: Config, s: Scaler, xs: seq<Input>): Scaler
    requires c.Usable()
    decreases |xs|
  {
    if xs == [] then s else Step(c, After(c, s, xs[..|xs| - 1]), xs[|xs| - 1]).1
  }

  /** The decision made on the last input of a non-empty run. */
  function Decision(c: Config, s: Scaler, xs: seq<Input>): int
    requires c.Usable() && xs != []
  {
    Step(c, After(c, s, xs[..|xs| - 1]), xs[|xs| - 1]).0
  }

  lemma {:induction false} HistoryIsInputs(c: Config, xs: seq<Input>)
    requires c.Usable()
    ensures var h := After(c, NEW_SCALER, xs).history;
      |h| == |xs| && forall i :: 0 <= i < |xs| ==> h[i] == xs[i].sample
    decreases |xs|
  {
    if xs != [] {
      HistoryIsInputs(c, xs[..|xs| - 1]);
    }
  }

  /** Within one panic episode the count never decreases: decision `j` is at least decision `i`. */
  lemma {:induction false} EpisodeNeverShrinks(c: Config, s: Scaler, xs: seq<Input>, i: nat, j: nat)
    requires c.Usable() && 1 <= i <= j <= |xs|
    requires forall k :: i <= k <= j ==> After(c, s, xs[..k]).panic.on
    ensures Decision(c, s, xs[..i]) <= Decision(c, s, xs[..j])
    ensures Decision(c, s, xs[..j]) == After(c, s, xs[..j]).panic.maxPods
    decreases j
  {
    var before := After(c, s, xs[..j - 1]);
    var x := xs[j - 1];
    assert xs[..j][..j - 1] == xs[..j - 1] && xs[..j][j - 1] == x;
    var (avgStable, avgPanic) := Averages(c, before.history + [x.sample]);
    PanicCoversBoth(c, x.actualScale, avgStable, avgPanic, x.now, before.panic);
    if i < j {
      EpisodeNeverShrinks(c, s, xs, i, j - 1);
    }
  }

  // --- When a service panics -------------------------------------------------------------------

  function Samples(xs: seq<Input>): seq<real> {
    seq(|xs|, i requires 0 <= i < |xs| => xs[i].sample)
  }

  function PanicMean(c: Config, history: seq<real>): real
    requires c.Usable() && history != []
  {
    Mean(PanicSamples(history, c.stableSeconds / c.period, c.panicSeconds / c.period))
  }

  /** The load is over the threshold at input `i`, going by the samples up to it. */
  predicate SurgesAt(c: Config, xs: seq<Input>, i: nat)
    requires c.Usable() && i < |xs|
  {
    Surges(c, xs[i].actualScale, PanicMean(c, Samples(xs[..i + 1])))
  }

  /** One input as the panic switch sees it. */
  datatype Reading = Reading(over: bool, now: int)

  function Readings(c: Config, xs: seq<Input>): (rs: seq<Reading>)
    requires c.Usable()
    ensures |rs| == |xs| && forall i :: 0 <= i < |xs| ==> rs[i] == Reading(SurgesAt(c, xs, i), xs[i].now)
  {
    seq(|xs|, i requires 0 <= i < |xs| => Reading(SurgesAt(c, xs, i), xs[i].now))
  }

  /** Reading `i` is the last one over the threshold, and the stable window has gone by at none since. */
  predicate AlarmedSince(rs: seq<Reading>, window: int, i: nat) {
    i < |rs| && rs[i].over && forall j | i < j < |rs| :: !rs[j].over && rs[j].now <= rs[i].now + window
  }

  lemma AlarmedMore(rs: seq<Reading>, window: int, i: nat)
    requires i < |rs| - 1
    ensures var n := |rs| - 1;
      AlarmedSince(rs, window, i) <==>
        AlarmedSince(rs[..n], window, i) && !rs[n].over && rs[n].now <= rs[i].now + window
  {
    var n := |rs| - 1;
    assert forall j :: 0 <= j < n ==> rs[..n][j] == rs[j];
  }

  /** The switch is on with its last time over the threshold. */
  ghost predicate Switched(rs: seq<Reading>, window: int, on: bool, since: int) {
    && (on <==> exists i: nat :: AlarmedSince(rs, window, i))
    && (forall i: nat :: AlarmedSince(rs, window, i) ==> since == rs[i].now)
  }

  lemma SwitchStep(rs: seq<Reading>, window: int, on: bool, since: int, on': bool, since': int)
    requires rs != [] && Switched(rs[..|rs| - 1], window, on, since)
    requires Toggles(rs[|rs| - 1], window, on, since, on', since')
    ensures Switched(rs, window, on', since')
  {
    var n := |rs| - 1;
    forall i: nat | i < n
      ensures AlarmedSince(rs, window, i) <==>
        AlarmedSince(rs[..n], window, i) && !rs[n].over && rs[n].now <= rs[i].now + window
    {
      AlarmedMore(rs, window, i);
    }
    if rs[n].over {
      assert AlarmedSince(rs, window, n);
    } else if on' {
      var i: nat :| AlarmedSince(rs[..n], window, i);
      assert AlarmedSince(rs, window, i);
    }
  }

  lemma ReadingsPrefix(c: Config, xs: seq<Input>)
    requires c.Usable() && xs != []
    ensures Readings(c, xs)[..|xs| - 1] == Readings(c, xs[..|xs| - 1])
  {
    var n := |xs| - 1;
    forall i | 0 <= i < n ensures SurgesAt(c, xs[..n], i) == SurgesAt(c, xs, i) {
      assert xs[..n][..i + 1] == xs[..i + 1];
    }
  }

  /** The panic switch after a reading. */
  predicate Toggles(r: Reading, window: int, on: bool, since: int, on': bool, since': int) {
    && (on' <==> r.over || (on && r.now <= since + window))
    && (r.over ==> since' == r.now) && (!r.over && on' ==> since' == since)
  }

  lemma StepToggles(c: Config, s: Scaler, x: Input)
    requires c.Usable()
    ensures var q := Step(c, s, x).1.panic;
      var r := Reading(Surges(c, x.actualScale, PanicMean(c, s.history + [x.sample])), x.now);
      Toggles(r, c.stableSeconds, s.panic.on, s.panic.since, q.on, q.since)
  {
    var (avgStable, avgPanic) := Averages(c, s.history + [x.sample]);
    DecideExactly(c, x.actualScale, avgStable, avgPanic, x.now, s.panic);
  }

  lemma SurgesLast(c: Config, xs: seq<Input>, history: seq<real>)
    requires c.Usable() && xs != [] && |history| == |xs| - 1
    requires forall i :: 0 <= i < |history| ==> history[i] == xs[i].sample
    ensures var x := xs[|xs| - 1];
      Readings(c, xs)[|xs| - 1] == Reading(Surges(c, x.actualScale, PanicMean(c, history + [x.sample])), x.now)
  {
    assert xs[..|xs|] == xs;
    assert history + [xs[|xs| - 1].sample] == Samples(xs);
  }

  /** After any run of decisions the service panics exactly if the load was over the threshold at some input
      and the stable window has gone by at none since the last such input, whose time it remembers. */
  lemma {:induction false} PanicsExactly(c: Config, xs: seq<Input>)
    requires c.Usable()
    ensures var p := After(c, NEW_SCALER, xs).panic; Switched(Readings(c, xs), c.stableSeconds, p.on, p.since)
    decreases |xs|
  {
    if xs != [] {
      var n := |xs| - 1;
      PanicsExactly(c, xs[..n]);
      ReadingsPrefix(c, xs);
      LastReading(c, xs);
      var p, q := After(c, NEW_SCALER, xs[..n]).panic, After(c, NEW_SCALER, xs).panic;
      SwitchStep(Readings(c, xs), c.stableSeconds, p.on, p.since, q.on, q.since);
    }
  }

  lemma LastReading(c: Config, xs: seq<Input>)
    requires c.Usable() && xs != []
    ensures var p, q := After(c, NEW_SCALER, xs[..|xs| - 1]).panic, After(c, NEW_SCALER, xs).panic;
      Toggles(Readings(c, xs)[|xs| - 1], c.stableSeconds, p.on, p.since, q.on, q.since)
  {
    var n := |xs| - 1;
    HistoryIsInputs(c, xs[..n]);
    var s := After(c, NEW_SCALER, xs[..n]);
    SurgesLast(c, xs, s.history);
    StepToggles(c, s, xs[n]);
  }

  // --- Scale to zero --------------------------------------------------------------------------

  predicate Idle(history: seq<real>, buckets: nat) {
    forall i :: 0 <= i < |Last(history, buckets)| ==> Last(history, buckets)[i] == 0.0
  }

  predicate NonNegative(history: seq<real>) {
    forall i :: 0 <= i < |history| ==> history[i] >= 0.0
  }

  lemma MeanZero(s: seq<real>)
    requires s != [] && NonNegative(s)
    ensures Mean(s) >= 0.0
    ensures Mean(s) == 0.0 <==> forall i :: 0 <= i < |s| ==> s[i] == 0.0
  {
    SumZero(s);
    var n := |s| as real;
    assert Mean(s) * n == Sum(s);
  }

  /** The rate-limited count of an average that is not negative is zero exactly when the average is
      zero and the rate limit allows it. */
  lemma NoPods(c: Config, actualScale: int, avg: real)
    requires c.Usable() && avg >= 0.0
    ensures StablePods(c, actualScale, avg) >= 0
    ensures StablePods(c, actualScale, avg) == 0 <==> avg == 0.0 && MaxDown(c, Ready(actualScale)) == 0
  {
  }

  lemma LastNonNegative(history: seq<real>, n: nat)
    requires NonNegative(history)
    ensures NonNegative(Last(history, n))
  {
  }

  /** Scale to zero, for all configurations: a decision of zero, in or out of panic mode, means that
      every sample of the stable window is zero and the scale-down limit allows zero. */
  lemma ZeroOnlyWhenIdle(c: Config, s: Scaler, x: Input)
    requires c.Usable() && NonNegative(s.history) && x.sample >= 0.0 && c.upper >= 1
    ensures var (pods, s') := Step(c, s, x);
      Clamp(pods, c.lower, c.upper) == 0 ==>
        Idle(s'.history, c.StableBuckets()) && MaxDown(c, Ready(x.actualScale)) == 0
  {
    var (pods, s') := Step(c, s, x);
    var (avgStable, avgPanic) := Averages(c, s'.history);
    LastNonNegative(s'.history, c.StableBuckets());
    MeanZero(Last(s'.history, c.StableBuckets()));
    NoPods(c, x.actualScale, avgStable);
    PanicCoversBoth(c, x.actualScale, avgStable, avgPanic, x.now, s.panic);
  }

  /** What a positive panic threshold adds: a panicking service always keeps a pod. */
  predicate KeepsPod(p: Panic) {
    p.maxPods >= 0 && (p.on ==> p.maxPods >= 1)
  }

  lemma PanicKeepsPod(c: Config, actualScale: int, avgStable: real, avgPanic: real, now: int, p: Panic)
    requires c.Usable() && c.panicThreshold > 0.0 && KeepsPod(p)
    ensures KeepsPod(Decide(c, actualScale, avgStable, avgPanic, now, p).1)
  {
  }

  lemma {:induction false} RunKeepsPod(c: Config, xs: seq<Input>)
    requires c.Usable() && c.panicThreshold > 0.0
    ensures KeepsPod(After(c, NEW_SCALER, xs).panic)
    decreases |xs|
  {
    if xs != [] {
      RunKeepsPod(c, xs[..|xs| - 1]);
      var s, x := After(c, NEW_SCALER, xs[..|xs| - 1]), xs[|xs| - 1];
      var (avgStable, avgPanic) := Averages(c, s.history + [x.sample]);
      PanicKeepsPod(c, x.actualScale, avgStable, avgPanic, x.now, s.panic);
    }
  }

  /** With a positive panic threshold, after any run of decisions, the service is scaled to zero
      exactly when it is not panicking, its stable window is idle, the scale-down limit allows it
      and no lower bound forbids it. */
  lemma ZeroExactly(c: Config, xs: seq<Input>)
    requires c.Usable() && c.panicThreshold > 0.0 && c.upper >= 1 && xs != []
    requires forall i :: 0 <= i < |xs| ==> xs[i].sample >= 0.0
    ensures var x := xs[|xs| - 1]; var s := After(c, NEW_SCALER, xs);
      Clamp(Decision(c, NEW_SCALER, xs), c.lower, c.upper) == 0 <==>
        c.lower <= 0 && !s.panic.on && Idle(s.history, c.StableBuckets()) && MaxDown(c, Ready(x.actualScale)) == 0
  {
    var before := After(c, NEW_SCALER, xs[..|xs| - 1]);
    var x := xs[|xs| - 1];
    HistoryIsInputs(c, xs);
    HistoryIsInputs(c, xs[..|xs| - 1]);
    RunKeepsPod(c, xs);
    var (avgStable, avgPanic) := Averages(c, before.history + [x.sample]);
    var history := before.history + [x.sample];
    LastNonNegative(history, c.StableBuckets());
    MeanZero(Last(history, c.StableBuckets()));
    NoPods(c, x.actualScale, avgStable);
    PanicCoversBoth(c, x.actualScale, avgStable, avgPanic, x.now, before.panic);
  }
}
