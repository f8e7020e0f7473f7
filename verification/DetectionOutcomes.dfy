/**
 * What a detection sweep does, in the counts of the buckets it read: which incidents it resolves and
 * which slices it opens an incident on (apps/api/src/domain/detector.ts:106-276 and
 * apps/api/src/app/detection.ts:45-165).
 */
module DetectionOutcomes {
  import opened Wrappers
  import opened Detection

  // ---- Resolving ----

  /** The failures stay below what the baseline and the tolerated lift would come to. */
  predicate Quiet(b: Bucket, baselineRate: real, cfg: Config) {
    b.attempts > 0 ==> b.failures as real < (baselineRate + cfg.minAbsoluteLift) * b.attempts as real
  }

  /** Some bucket carries traffic, and every one is quiet. */
  ghost predicate AllQuiet(buckets: seq<Bucket>, baselineRate: real, cfg: Config) {
    && (exists i :: 0 <= i < |buckets| && buckets[i].attempts > 0)
    && forall i :: 0 <= i < |buckets| ==> Quiet(buckets[i], baselineRate, cfg)
  }

  /**
   * The last buckets are all there, and quiet by the baseline the incident was opened against; the
   * last zero buckets are the whole series.
   */
  ghost predicate BackToNormal(series: seq<Bucket>, baselineRate: real, cfg: Config) {
    && cfg.resolveBuckets <= |series|
    && AllQuiet(if cfg.resolveBuckets > 0 then series[|series| - cfg.resolveBuckets..] else series, baselineRate, cfg)
  }

  lemma {:induction false} SomeAttempts(buckets: seq<Bucket>)
    ensures Total(buckets).attempts > 0 <==> exists i :: 0 <= i < |buckets| && buckets[i].attempts > 0
  {
    if buckets != [] {
      SomeAttempts(buckets[..|buckets|-1]);
    }
  }

  lemma QuietMeans(b: Bucket, baselineRate: real, cfg: Config)
    ensures Quiet(b, baselineRate, cfg) <==> b.attempts == 0 || Rate(b) - baselineRate < cfg.minAbsoluteLift
  {
    if b.attempts > 0 {
      var n, rate := b.attempts as real, baselineRate + cfg.minAbsoluteLift;
      assert Rate(b) * n == b.failures as real;
      assert Rate(b) < rate <==> Rate(b) * n < rate * n;
    }
  }

  lemma AllQuietMeans(buckets: seq<Bucket>, baselineRate: real, cfg: Config)
    ensures AllQuiet(buckets, baselineRate, cfg) <==>
            && Total(buckets).attempts > 0
            && forall i :: 0 <= i < |buckets| ==>
                 buckets[i].attempts == 0 || Rate(buckets[i]) - baselineRate < cfg.minAbsoluteLift
  {
    hide Quiet, Rate, Total;
    SomeAttempts(buckets);
    forall i | 0 <= i < |buckets|
      ensures Quiet(buckets[i], baselineRate, cfg)
         <==> buckets[i].attempts == 0 || Rate(buckets[i]) - baselineRate < cfg.minAbsoluteLift
    {
      QuietMeans(buckets[i], baselineRate, cfg);
    }
  }

  lemma ResolvedMeans(series: seq<Bucket>, baselineRate: real, cfg: Config)
    ensures IsResolved(series, baselineRate, cfg) <==> BackToNormal(series, baselineRate, cfg)
  {
    hide AllQuiet, Rate, Total;
    if cfg.resolveBuckets <= |series| {
      AllQuietMeans(LastOf(series, cfg.resolveBuckets), baselineRate, cfg);
    }
  }

  /** The boundary of the bucket that a time lies in. */
  lemma FloorMeans(now: int)
    ensures Floor(now) <= now < Floor(now) + 300_000 && Floor(now) % 300_000 == 0
  {
  }

  /**
   * What a sweep does to an incident there was: with the lock it resolves an open one exactly when
   * its slice is back to normal, at the time swept, and it changes nothing else.
   */
  lemma SweepResolves(root: Root, incidents: seq<Incident>, c: SweepCall, cfg: Config, k: nat)
    requires k < |incidents|
    ensures var after, to, was := Swept(root, incidents, c.now, c.locked, c.data, cfg), Floor(c.now), incidents[k];
            && k < |after| && to <= c.now < to + 300_000 && to % 300_000 == 0
            && var series := c.data.series(was.slice, to - cfg.resolveBuckets * 300_000, to);
               && (after[k].resolvedAt == Some(to) && was.resolvedAt.None? <==>
                   c.locked && was.resolvedAt.None? && BackToNormal(series, was.baselineRate, cfg))
               && (after[k] == was || after[k] == was.(resolvedAt := Some(to)))
               && (was.resolvedAt.Some? ==> after[k] == was)
  {
    hide OpenAll, IsResolved, BackToNormal;
    FloorMeans(c.now);
    if c.locked {
      var to, was := Floor(c.now), incidents[k];
      ResolvedMeans(c.data.series(was.slice, to - cfg.resolveBuckets * BUCKET_MS, to), was.baselineRate, cfg);
      OpenAllAdds(root, ResolveAll(incidents, to, c.data, cfg), c.data.active, to, c.data, cfg);
    }
  }

  lemma {:induction false} OpenAllAdds(
      root: Root, incidents: seq<Incident>, slices: seq<Slice>, to: int, data: Data, cfg: Config)
    ensures incidents <= OpenAll(root, incidents, slices, to, data, cfg)
  {
    hide Shut, Anomalous, VerdictOn;
    if slices != [] {
      OpenAllAdds(root, incidents, slices[..|slices|-1], to, data, cfg);
    }
  }

  // ---- Opening ----

  function Attempts(buckets: seq<Bucket>): nat {
    if buckets == [] then 0 else buckets[0].attempts + Attempts(buckets[1..])
  }

  function Failures(buckets: seq<Bucket>): nat {
    if buckets == [] then 0 else buckets[0].failures + Failures(buckets[1..])
  }

  /** The share of attempts that failed, taken as none when there were no attempts. */
  function Share(failures: nat, attempts: nat): real {
    if attempts > 0 then failures as real / attempts as real else 0.0
  }

  /** Any square root there is. */
  ghost predicate IsRoot(root: Root) {
    forall v :: v > 0.0 ==> root(v) > 0.0 && root(v) * root(v) == v
  }

  /** The rate a baseline is held against: no less than half a failure in its attempts. */
  function HalfAtLeast(baseline: real, baselineAttempts: nat): real {
    var half := if baselineAttempts > 0 then 0.5 / baselineAttempts as real else 0.000001;
    if baseline < half then half else baseline
  }

  /**
   * `x` lies at least `z` standard deviations above the rate `p`, over `n` attempts. For a positive
   * `z` this is a matter of squares; a score that cannot be formed is zero.
   */
  ghost predicate Deviates(root: Root, x: real, p: real, n: nat, z: real) {
    if n == 0 || p >= 1.0 then z <= 0.0
    else if z > 0.0 then x > p && (x - p) * (x - p) * n as real >= z * z * p * (1.0 - p)
    else x - p >= z * root(p * (1.0 - p) / n as real)
  }

  /** A bucket on its own is held to a laxer measure. */
  function LaxScore(cfg: Config): real {
    cfg.minZScore * cfg.sustainedZRatio
  }

  ghost predicate BadAlone(root: Root, b: Bucket, p: real, cfg: Config) {
    b.attempts > 0
    && Deviates(root, Share(b.failures, b.attempts), p, b.attempts, LaxScore(cfg))
  }

  ghost function BadPlaces(root: Root, window: seq<Bucket>, p: real, cfg: Config): set<int> {
    set i | 0 <= i < |window| && BadAlone(root, window[i], p, cfg)
  }

  /**
   * The share `x` of the window's attempts that failed stands out against the share `y` before it, by
   * all five measures: volume, the lift in points, the lift as a multiple, deviation, and enough
   * bad buckets.
   */
  ghost predicate StandsOut(root: Root, window: seq<Bucket>, x: real, y: real, baselineAttempts: nat, cfg: Config) {
    var p := HalfAtLeast(y, baselineAttempts);
    && Attempts(window) >= cfg.minAttempts && baselineAttempts >= cfg.minBaselineAttempts
    && x >= y + cfg.minAbsoluteLift
    && (if y > 0.0 then x >= cfg.minRelativeLift * y else x > 0.0 || cfg.minRelativeLift <= 0.0)
    && Deviates(root, x, p, Attempts(window), cfg.minZScore)
    && |BadPlaces(root, window, p, cfg)| >= cfg.sustainedBuckets
  }

  ghost predicate Spikes(root: Root, window: seq<Bucket>, before: seq<Bucket>, cfg: Config) {
    StandsOut(root, window, Share(Failures(window), Attempts(window)), Share(Failures(before), Attempts(before)),
              Attempts(before), cfg)
  }

  /** There is a window, a gap before it and a baseline before that, and the window spikes. */
  ghost predicate Fires(root: Root, series: seq<Bucket>, cfg: Config) {
    var end := |series| - cfg.evaluationBuckets - cfg.baselineGapBuckets;
    && end >= cfg.baselineBuckets
    && Spikes(root, series[|series| - cfg.evaluationBuckets..], series[end - cfg.baselineBuckets..end], cfg)
  }

  lemma {:induction false} TotalCounts(buckets: seq<Bucket>)
    ensures Total(buckets) == Bucket(Attempts(buckets), Failures(buckets))
  {
    if buckets != [] {
      var front, last := buckets[..|buckets|-1], buckets[|buckets|-1];
      TotalCounts(front);
      CountsAppend(front, last);
      assert front + [last] == buckets;
    }
  }

  lemma {:induction false} CountsAppend(front: seq<Bucket>, last: Bucket)
    ensures Attempts(front + [last]) == Attempts(front) + last.attempts
    ensures Failures(front + [last]) == Failures(front) + last.failures
  {
    if front != [] {
      assert (front + [last])[1..] == front[1..] + [last];
      CountsAppend(front[1..], last);
    }
  }

  lemma RateIsShare(b: Bucket)
    ensures Rate(b) == Share(b.failures, b.attempts) && Rate(b) >= 0.0
  {
    if b.attempts > 0 {
      ShareIsPositive(b.failures as real, b.attempts as real);
    }
  }

  lemma ShareIsPositive(f: real, a: real)
    requires f >= 0.0 && a > 0.0
    ensures f / a >= 0.0
  {
  }

  /** A quotient reaches a bound exactly when its numerator reaches the bound times the denominator. */
  lemma QuotientReaches(a: real, r: real, z: real)
    requires r > 0.0
    ensures a / r >= z <==> a >= z * r
  {
    assert a == (a / r) * r;
  }

  lemma SquaresReach(a: real, r: real, z: real)
    requires r > 0.0 && z > 0.0
    ensures a >= z * r <==> a > 0.0 && a * a >= (z * z) * (r * r)
  {
    var b := z * r;
    assert b > 0.0 && b * b == (z * z) * (r * r);
    if a >= b {
      assert a * a >= b * a >= b * b;
    } else if a > 0.0 {
      assert a * a < b * a < b * b;
    }
  }

  lemma TimesCount(s: real, v: real, n: real, z: real)
    requires n > 0.0
    ensures s >= (z * z) * (v / n) <==> s * n >= z * z * v
  {
    var w := v / n;
    assert w * n == v;
    assert ((z * z) * w) * n == (z * z) * v;
  }

  lemma PositiveVariance(p: real, n: nat)
    requires 0.0 < p && n > 0
    ensures Variance(p, n) > 0.0 <==> p < 1.0
    ensures Variance(p, n) == p * (1.0 - p) / n as real
  {
    var v := p * (1.0 - p);
    assert v > 0.0 <==> p < 1.0;
    assert v == (v / n as real) * n as real;
  }

  /** The score reaches `z` exactly when the observed rate deviates by it. */
  lemma ScoreDeviates(root: Root, x: real, y: real, n: nat, baselineAttempts: nat, z: real)
    requires IsRoot(root)
    ensures ZScore(root, x, y, n, baselineAttempts) >= z
       <==> Deviates(root, x, HalfAtLeast(y, baselineAttempts), n, z)
  {
    var p := HalfAtLeast(y, baselineAttempts);
    assert p > 0.0;
    if n > 0 {
      PositiveVariance(p, n);
      if p < 1.0 {
        hide Variance;
        var r := root(Variance(p, n));
        QuotientReaches(x - p, r, z);
        if z > 0.0 {
          SquaresReach(x - p, r, z);
          TimesCount((x - p) * (x - p), p * (1.0 - p), n as real, z);
        }
      }
    }
  }

  lemma BadAloneMeans(root: Root, bucket: Bucket, b: Bucket, cfg: Config)
    requires IsRoot(root)
    ensures Bad(root, bucket, b, cfg) <==> BadAlone(root, bucket, HalfAtLeast(Rate(b), b.attempts), cfg)
  {
    hide ZScore, Deviates, HalfAtLeast, IsRoot, Rate, Share;
    RateIsShare(bucket);
    ScoreDeviates(root, Rate(bucket), Rate(b), bucket.attempts, b.attempts, LaxScore(cfg));
  }

  lemma {:induction false} CountBadPlaces(root: Root, window: seq<Bucket>, b: Bucket, cfg: Config)
    requires IsRoot(root)
    ensures CountBad(root, window, b, cfg) == |BadPlaces(root, window, HalfAtLeast(Rate(b), b.attempts), cfg)|
  {
    hide HalfAtLeast, IsRoot, Rate, Bad, BadAlone;
    if window != [] {
      var front, last := window[..|window|-1], window[|window|-1];
      var p := HalfAtLeast(Rate(b), b.attempts);
      CountBadPlaces(root, front, b, cfg);
      BadAloneMeans(root, last, b, cfg);
      assert BadPlaces(root, window, p, cfg)
          == BadPlaces(root, front, p, cfg) + (if Bad(root, last, b, cfg) then {|front|} else {});
    }
  }

  /** The gates of a window against a baseline. */
  predicate GatesPass(root: Root, window: seq<Bucket>, before: seq<Bucket>, cfg: Config) {
    var e, b := Total(window), Total(before);
    && e.attempts >= cfg.minAttempts && b.attempts >= cfg.minBaselineAttempts
    && Rate(e) - Rate(b) >= cfg.minAbsoluteLift
    && LiftedEnough(Rate(e), Rate(b), cfg.minRelativeLift)
    && ZScore(root, Rate(e), Rate(b), e.attempts, b.attempts) >= cfg.minZScore
    && CountBad(root, window, b, cfg) >= cfg.sustainedBuckets
  }

  lemma LiftMeans(x: real, y: real, least: real)
    requires y >= 0.0
    ensures LiftedEnough(x, y, least) <==> (if y > 0.0 then x >= least * y else x > 0.0 || least <= 0.0)
  {
    if y > 0.0 {
      QuotientReaches(x, y, least);
    }
  }

  lemma GatesStandOut(root: Root, window: seq<Bucket>, e: Bucket, b: Bucket, cfg: Config)
    requires IsRoot(root) && e.attempts == Attempts(window)
    ensures StandsOut(root, window, Rate(e), Rate(b), b.attempts, cfg) <==>
            && e.attempts >= cfg.minAttempts && b.attempts >= cfg.minBaselineAttempts
            && Rate(e) - Rate(b) >= cfg.minAbsoluteLift
            && LiftedEnough(Rate(e), Rate(b), cfg.minRelativeLift)
            && ZScore(root, Rate(e), Rate(b), e.attempts, b.attempts) >= cfg.minZScore
            && CountBad(root, window, b, cfg) >= cfg.sustainedBuckets
  {
    hide ZScore, Deviates, HalfAtLeast, IsRoot, CountBad, BadPlaces, Rate, LiftedEnough;
    RateIsShare(b);
    ScoreDeviates(root, Rate(e), Rate(b), e.attempts, b.attempts, cfg.minZScore);
    CountBadPlaces(root, window, b, cfg);
    LiftMeans(Rate(e), Rate(b), cfg.minRelativeLift);
  }

  lemma GatesAreSpikes(root: Root, window: seq<Bucket>, before: seq<Bucket>, cfg: Config)
    requires IsRoot(root)
    ensures GatesPass(root, window, before, cfg) <==> Spikes(root, window, before, cfg)
  {
    hide ZScore, StandsOut, CountBad, LiftedEnough, IsRoot;
    TotalCounts(window);
    TotalCounts(before);
    RateIsShare(Total(window));
    RateIsShare(Total(before));
    GatesStandOut(root, window, Total(window), Total(before), cfg);
  }

  /** The five gates pass exactly when the series fires. */
  lemma AnomalousMeans(root: Root, series: seq<Bucket>, cfg: Config)
    requires IsRoot(root)
    ensures Anomalous(Evaluate(root, series, cfg)) <==> Fires(root, series, cfg)
  {
    hide ZScore, LiftedEnough, CountBad, Total, Rate, Spikes, IsRoot;
    var end := |series| - cfg.evaluationBuckets - cfg.baselineGapBuckets;
    if end >= cfg.baselineBuckets {
      GatesAreSpikes(root, series[|series| - cfg.evaluationBuckets..], series[end - cfg.baselineBuckets..end], cfg);
    }
  }

  /**
   * A sweep adds an incident on a slice exactly when it has the lock, the slice is active, its series
   * fires, and after the sweep's resolutions every earlier incident of the slice has been over for
   * more than an hour.
   */
  lemma SweepOpensMeans(root: Root, incidents: seq<Incident>, c: SweepCall, slice: Slice, cfg: Config)
    requires IsRoot(root)
    ensures var after, to := Swept(root, incidents, c.now, c.locked, c.data, cfg), Floor(c.now);
            var buckets := cfg.baselineBuckets + cfg.baselineGapBuckets + cfg.evaluationBuckets;
            && |incidents| <= |after|
            && (Adds(|incidents|, after, slice) <==>
                && c.locked && slice in c.data.active
                && Fires(root, c.data.series(slice, to - buckets * 300_000, to), cfg)
                && forall k :: 0 <= k < |incidents| && incidents[k].slice == slice ==> OverFor(after[k], to))
  {
    hide OpenAll, ResolveAll, Evaluate, Fires, IsRoot, Anomalous;
    SweepJudges(root, incidents, c, slice, cfg);
    if c.locked {
      var to := Floor(c.now);
      var mid := ResolveAll(incidents, to, c.data, cfg);
      OpenAllAdds(root, mid, c.data.active, to, c.data, cfg);
      AnomalousMeans(root, c.data.series(slice, to - RequiredBuckets(cfg) * BUCKET_MS, to), cfg);
      ResolveKeepsSlices(incidents, to, c.data, cfg);
      ShutMeans(mid, slice, to);
    }
  }

  /** The failing share of the time before the gap, which an incident is later held against. */
  function BaselineShare(series: seq<Bucket>, cfg: Config): real
    requires |series| >= cfg.baselineBuckets + cfg.baselineGapBuckets + cfg.evaluationBuckets
  {
    var end := |series| - cfg.evaluationBuckets - cfg.baselineGapBuckets;
    var before := series[end - cfg.baselineBuckets..end];
    Share(Failures(before), Attempts(before))
  }

  lemma VerdictRates(root: Root, series: seq<Bucket>, cfg: Config)
    ensures var v := Evaluate(root, series, cfg);
            && (v.Evaluated? <==> |series| >= cfg.baselineBuckets + cfg.baselineGapBuckets + cfg.evaluationBuckets)
            && (v.Evaluated? ==> v.baselineRate == BaselineShare(series, cfg))
  {
    hide ZScore, LiftedEnough, CountBad, Total, Rate, Share;
    if |series| >= RequiredBuckets(cfg) {
      var end := |series| - cfg.evaluationBuckets - cfg.baselineGapBuckets;
      TotalCounts(series[end - cfg.baselineBuckets..end]);
      RateIsShare(Total(series[end - cfg.baselineBuckets..end]));
    }
  }

  /** What a sweep adds: incidents open as of the time swept, with the baseline of what it read. */
  lemma AddedMeans(root: Root, incidents: seq<Incident>, c: SweepCall, cfg: Config, k: nat)
    requires |incidents| <= k < |Swept(root, incidents, c.now, c.locked, c.data, cfg)|
    ensures var i, to := Swept(root, incidents, c.now, c.locked, c.data, cfg)[k], Floor(c.now);
            var buckets := cfg.baselineBuckets + cfg.baselineGapBuckets + cfg.evaluationBuckets;
            var series := c.data.series(i.slice, to - buckets * 300_000, to);
            && i.openedAt == to && i.resolvedAt.None? && |series| >= buckets
            && i.baselineRate == BaselineShare(series, cfg)
  {
    hide OpenAll, ResolveAll, Evaluate, BaselineShare;
    var to := Floor(c.now);
    var mid := ResolveAll(incidents, to, c.data, cfg);
    var i := Swept(root, incidents, c.now, c.locked, c.data, cfg)[k];
    OpenAllAddsOpen(root, mid, c.data.active, to, c.data, cfg, k);
    VerdictRates(root, c.data.series(i.slice, to - RequiredBuckets(cfg) * BUCKET_MS, to), cfg);
  }

  lemma {:induction false} OpenAllAddsOpen(
      root: Root, incidents: seq<Incident>, slices: seq<Slice>, to: int, data: Data, cfg: Config, k: nat)
    requires |incidents| <= k < |OpenAll(root, incidents, slices, to, data, cfg)|
    ensures var i := OpenAll(root, incidents, slices, to, data, cfg)[k];
            && i.openedAt == to && i.resolvedAt.None? && Anomalous(i.verdict)
            && i.verdict == VerdictOn(root, i.slice, to, data, cfg) && i.baselineRate == i.verdict.baselineRate
  {
    hide Shut, VerdictOn;
    if k < |OpenAll(root, incidents, slices[..|slices|-1], to, data, cfg)| {
      OpenAllAddsOpen(root, incidents, slices[..|slices|-1], to, data, cfg, k);
    }
  }

  /** Resolved, more than an hour before `to`. */
  predicate OverFor(i: Incident, to: int) {
    i.resolvedAt.Some? && i.resolvedAt.value < to - 3_600_000
  }

  lemma ShutMeans(incidents: seq<Incident>, slice: Slice, to: int)
    ensures !Shut(incidents, slice, to) <==>
            forall k :: 0 <= k < |incidents| && incidents[k].slice == slice ==> OverFor(incidents[k], to)
  {
    forall k | 0 <= k < |incidents| && incidents[k].slice == slice
      ensures OverFor(incidents[k], to)
         <==> !IsOpen(incidents[k]) && !ResolvedSince(incidents[k], slice, to - 3_600_000)
    {
    }
  }

  lemma ResolveKeepsSlices(incidents: seq<Incident>, to: int, data: Data, cfg: Config)
    ensures var after := ResolveAll(incidents, to, data, cfg);
            |after| == |incidents| && forall k :: 0 <= k < |after| ==> after[k].slice == incidents[k].slice
  {
    hide IsResolved;
  }
}
