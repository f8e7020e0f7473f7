/**
 * The five gates of the detector (apps/api/src/domain/detector.ts:151-276) and the life of an
 * incident over sweeps and catch-ups (apps/api/src/app/detection.ts:45-264).
 */
module Detection {
  import opened Wrappers

  datatype Slice = Slice(dimension: string, value: string)

  datatype Bucket = Bucket(attempts: nat, failures: nat)

  datatype Config = Config(
    baselineBuckets: nat,
    baselineGapBuckets: nat,
    evaluationBuckets: nat,
    sustainedBuckets: nat,
    minAttempts: nat,
    minBaselineAttempts: nat,
    minAbsoluteLift: real,
    minRelativeLift: real,
    minZScore: real,
    sustainedZRatio: real,
    resolveBuckets: nat)

  const BUCKET_MS := 300_000
  const SUPPRESSION_MS := 3_600_000

  function RequiredBuckets(cfg: Config): nat {
    cfg.baselineBuckets + cfg.baselineGapBuckets + cfg.evaluationBuckets
  }

  // ---- The gates ----

  function Total(buckets: seq<Bucket>): Bucket {
    if buckets == [] then Bucket(0, 0)
    else
      var front, last := Total(buckets[..|buckets|-1]), buckets[|buckets|-1];
      Bucket(front.attempts + last.attempts, front.failures + last.failures)
  }

  method Sum(buckets: seq<Bucket>) returns (total: Bucket)
    ensures total == Total(buckets)
  {
    var attempts: nat, failures: nat := 0, 0;
    for i := 0 to |buckets|
      invariant Bucket(attempts, failures) == Total(buckets[..i])
    {
      assert buckets[..i+1][..i] == buckets[..i];
      attempts := attempts + buckets[i].attempts;
      failures := failures + buckets[i].failures;
    }
    assert buckets[..|buckets|] == buckets;
    total := Bucket(attempts, failures);
  }

  function Rate(b: Bucket): real {
    if b.attempts == 0 then 0.0 else b.failures as real / b.attempts as real
  }

  /** The square root is that of the platform. */
  type Root = real -> real

  function Variance(p0: real, n: nat): real
    requires n > 0
  {
    p0 * (1.0 - p0) / n as real
  }

  /** A baseline of zero is floored at half an observation. */
  function ZScore(root: Root, observed: real, baseline: real, n: nat, baselineAttempts: nat): real {
    if n == 0 then 0.0
    else
      var least := if baselineAttempts > 0 then 0.5 / baselineAttempts as real else 0.000001;
      var p0 := if baseline >= least then baseline else least;
      var variance := Variance(p0, n);
      // a root of a positive number that came out as zero divides to an infinity; taken as no score
      if variance <= 0.0 || root(variance) == 0.0 then 0.0 else (observed - p0) / root(variance)
  }

  function Bad(root: Root, b: Bucket, baseline: Bucket, cfg: Config): bool {
    b.attempts > 0
    && ZScore(root, Rate(b), Rate(baseline), b.attempts, baseline.attempts) >= cfg.minZScore * cfg.sustainedZRatio
  }

  function CountBad(root: Root, buckets: seq<Bucket>, baseline: Bucket, cfg: Config): nat {
    if buckets == [] then 0
    else
      CountBad(root, buckets[..|buckets|-1], baseline, cfg)
      + if Bad(root, buckets[|buckets|-1], baseline, cfg) then 1 else 0
  }

  datatype Gates = Gates(volume: bool, absoluteLift: bool, relativeLift: bool, zScore: bool, sustained: bool)

  datatype Verdict = NotEvaluated | Evaluated(gates: Gates, baselineRate: real, currentRate: real)

  /** The relative lift over a baseline of zero is infinite, or nothing when nothing failed. */
  predicate LiftedEnough(current: real, baseline: real, least: real) {
    if baseline == 0.0 then current > 0.0 || 0.0 >= least else current / baseline >= least
  }

  /** Reading backwards: the evaluation window, the gap, the baseline. */
  function Evaluate(root: Root, series: seq<Bucket>, cfg: Config): Verdict {
    if |series| < RequiredBuckets(cfg) then NotEvaluated
    else
      var evalStart := |series| - cfg.evaluationBuckets;
      var baselineEnd := evalStart - cfg.baselineGapBuckets;
      var e, b := Total(series[evalStart..]), Total(series[baselineEnd - cfg.baselineBuckets..baselineEnd]);
      var current, baseline := Rate(e), Rate(b);
      Evaluated(Gates(e.attempts >= cfg.minAttempts && b.attempts >= cfg.minBaselineAttempts,
                      current - baseline >= cfg.minAbsoluteLift,
                      LiftedEnough(current, baseline, cfg.minRelativeLift),
                      ZScore(root, current, baseline, e.attempts, b.attempts) >= cfg.minZScore,
                      CountBad(root, series[evalStart..], b, cfg) >= cfg.sustainedBuckets),
                baseline, current)
  }

  predicate AllPass(g: Gates) {
    g.volume && g.absoluteLift && g.relativeLift && g.zScore && g.sustained
  }

  predicate Anomalous(v: Verdict) {
    v.Evaluated? && AllPass(v.gates)
  }

  /** The last zero buckets of a series are, to a slice from the end, the whole of it. */
  function LastOf(series: seq<Bucket>, n: nat): seq<Bucket>
    requires n <= |series|
  {
    if n == 0 then series else series[|series| - n..]
  }

  /** The last buckets carry traffic, and each is back near the baseline the incident opened against. */
  predicate IsResolved(series: seq<Bucket>, baselineRate: real, cfg: Config) {
    && |series| >= cfg.resolveBuckets
    && var recent := LastOf(series, cfg.resolveBuckets);
       && Total(recent).attempts > 0
       && forall i :: 0 <= i < |recent| ==>
            recent[i].attempts == 0 || Rate(recent[i]) - baselineRate < cfg.minAbsoluteLift
  }

  /**
   * A verdict looks at the evaluation window and the baseline alone: whatever happened in the
   * gap between them, or before them, cannot move it.
   */
  lemma GapAndPastAreIgnored(root: Root, past: seq<Bucket>, otherPast: seq<Bucket>, baseline: seq<Bucket>,
                             gap: seq<Bucket>, otherGap: seq<Bucket>, evaluation: seq<Bucket>, cfg: Config)
    requires |baseline| == cfg.baselineBuckets && |gap| == |otherGap| == cfg.baselineGapBuckets
    requires |evaluation| == cfg.evaluationBuckets
    ensures Evaluate(root, past + baseline + gap + evaluation, cfg)
         == Evaluate(root, otherPast + baseline + otherGap + evaluation, cfg)
  {
    hide Total, CountBad, ZScore, LiftedEnough;
    Windows(past, baseline, gap, evaluation);
    Windows(otherPast, baseline, otherGap, evaluation);
  }

  lemma Windows(past: seq<Bucket>, baseline: seq<Bucket>, gap: seq<Bucket>, evaluation: seq<Bucket>)
    ensures var s := past + baseline + gap + evaluation;
            var evalStart := |s| - |evaluation|;
            var baselineEnd := evalStart - |gap|;
            s[evalStart..] == evaluation && s[baselineEnd - |baseline|..baselineEnd] == baseline
  {
  }

  // ---- Sweeps ----

  datatype Incident = Incident(
    slice: Slice, openedAt: int, baselineRate: real, verdict: Verdict, resolvedAt: Option<int>)

  /** What the queries of one sweep answer: series by range, and the slices with enough traffic. */
  datatype Answers = Answers(series: (Slice, int, int) -> seq<Bucket>, active: seq<Slice>)

  /** The active slices are the groups of a grouped query, so each is listed once. */
  type Data = a: Answers | Distinct(a.active) witness Answers((_, _, _) => [], [])

  predicate Distinct(slices: seq<Slice>) {
    forall i, j :: 0 <= i < j < |slices| ==> slices[i] != slices[j]
  }

  function Floor(now: int): int {
    now / BUCKET_MS * BUCKET_MS
  }

  predicate IsOpen(i: Incident) { i.resolvedAt.None? }

  function Resolve(i: Incident, to: int, data: Data, cfg: Config): Incident {
    if IsOpen(i) && IsResolved(data.series(i.slice, to - cfg.resolveBuckets * BUCKET_MS, to), i.baselineRate, cfg)
    then i.(resolvedAt := Some(to)) else i
  }

  function ResolveAll(incidents: seq<Incident>, to: int, data: Data, cfg: Config): (after: seq<Incident>)
    ensures |after| == |incidents| && forall k :: 0 <= k < |after| ==> after[k] == Resolve(incidents[k], to, data, cfg)
  {
    seq(|incidents|, k requires 0 <= k < |incidents| => Resolve(incidents[k], to, data, cfg))
  }

  predicate HasOpen(incidents: seq<Incident>, slice: Slice) {
    exists k :: 0 <= k < |incidents| && incidents[k].slice == slice && IsOpen(incidents[k])
  }

  /** Resolved within the last hour, or after the bucket being swept. */
  predicate Recent(incidents: seq<Incident>, slice: Slice, to: int) {
    exists k :: 0 <= k < |incidents| && ResolvedSince(incidents[k], slice, to - SUPPRESSION_MS)
  }

  predicate ResolvedSince(i: Incident, slice: Slice, since: int) {
    i.slice == slice && i.resolvedAt.Some? && i.resolvedAt.value >= since
  }

  predicate Shut(incidents: seq<Incident>, slice: Slice, to: int) {
    HasOpen(incidents, slice) || Recent(incidents, slice, to)
  }

  function VerdictOn(root: Root, slice: Slice, to: int, data: Data, cfg: Config): Verdict {
    Evaluate(root, data.series(slice, to - RequiredBuckets(cfg) * BUCKET_MS, to), cfg)
  }

  function Baseline(v: Verdict): real {
    if v.Evaluated? then v.baselineRate else 0.0
  }

  function OpenOne(root: Root, incidents: seq<Incident>, slice: Slice, to: int, data: Data,
                   cfg: Config): seq<Incident> {
    var v := VerdictOn(root, slice, to, data, cfg);
    if Shut(incidents, slice, to) || !Anomalous(v) then incidents
    else incidents + [Incident(slice, to, Baseline(v), v, None)]
  }

  function OpenAll(root: Root, incidents: seq<Incident>, slices: seq<Slice>, to: int, data: Data,
                   cfg: Config): seq<Incident>
  {
    if slices == [] then incidents
    else OpenOne(root, OpenAll(root, incidents, slices[..|slices|-1], to, data, cfg), slices[|slices|-1], to, data, cfg)
  }

  /** One sweep, if it gets the lock: resolve first, then open. */
  function Swept(root: Root, incidents: seq<Incident>, now: int, locked: bool, data: Data, cfg: Config): seq<Incident> {
    if !locked then incidents
    else OpenAll(root, ResolveAll(incidents, Floor(now), data, cfg), data.active, Floor(now), data, cfg)
  }

  class Detector {
    const root: Root
    const cfg: Config
    var incidents: seq<Incident>

    constructor (root: Root, cfg: Config)
      ensures this.root == root && this.cfg == cfg && incidents == []
    {
      this.root, this.cfg, this.incidents := root, cfg, [];
    }

    /** The resolved incidents are updated in place and taken out of the map of open slices. */
    method ResolveOpen(to: int, data: Data) returns (open: set<Slice>)
      modifies this`incidents
      ensures incidents == ResolveAll(old(incidents), to, data, cfg)
      ensures forall s :: s in open <==> HasOpen(incidents, s)
    {
      for k := 0 to |incidents|
        invariant |incidents| == |old(incidents)|
        invariant forall i :: 0 <= i < k ==> incidents[i] == Resolve(old(incidents)[i], to, data, cfg)
        invariant forall i :: k <= i < |incidents| ==> incidents[i] == old(incidents)[i]
      {
        var incident := incidents[k];
        if IsOpen(incident) {
          var series := data.series(incident.slice, to - cfg.resolveBuckets * BUCKET_MS, to);
          if IsResolved(series, incident.baselineRate, cfg) {
            incidents := incidents[k := incident.(resolvedAt := Some(to))];
          }
        }
      }
      open := set k | 0 <= k < |incidents| && IsOpen(incidents[k]) :: incidents[k].slice;
    }

    /**
     * One open incident per slice is a unique index. A violation would abort the sweep's
     * transaction, although the handler goes on as if it had not; under the lock there is none.
     */
    method OpenIncident(slice: Slice, verdict: Verdict, to: int) returns (violated: bool)
      requires verdict.Evaluated?
      modifies this`incidents
      ensures violated <==> HasOpen(old(incidents), slice)
      ensures incidents == if violated then old(incidents)
                           else old(incidents) + [Incident(slice, to, verdict.baselineRate, verdict, None)]
    {
      violated := HasOpen(incidents, slice);
      if !violated {
        incidents := incidents + [Incident(slice, to, verdict.baselineRate, verdict, None)];
      }
    }

    /** One active slice; `open` says whether it has an open incident, so the index is never violated. */
    method JudgeSlice(slice: Slice, open: set<Slice>, to: int, data: Data)
      requires slice in open <==> HasOpen(incidents, slice)
      modifies this`incidents
      ensures incidents == OpenOne(root, old(incidents), slice, to, data, cfg)
    {
      hide Evaluate, AllPass, Recent, HasOpen;
      if slice in open {
        return;
      }
      if Recent(incidents, slice, to) {
        return;
      }
      var verdict := VerdictOn(root, slice, to, data, cfg);
      if !verdict.Evaluated? {
        return;
      }
      if !Anomalous(verdict) {
        return;
      }
      var violated := OpenIncident(slice, verdict, to);
      assert !violated;
    }

    method Sweep(now: int, locked: bool, data: Data)
      modifies this`incidents
      ensures incidents == Swept(root, old(incidents), now, locked, data, cfg)
    {
      hide OpenOne, ResolveAll, HasOpen;
      if !locked {
        return;
      }
      var to := Floor(now);
      var open := ResolveOpen(to, data);
      ghost var resolved := incidents;
      for i := 0 to |data.active|
        invariant incidents == OpenAll(root, resolved, data.active[..i], to, data, cfg)
        invariant forall j :: i <= j < |data.active| ==>
                    (HasOpen(incidents, data.active[j]) <==> HasOpen(resolved, data.active[j]))
      {
        assert data.active[..i+1][..i] == data.active[..i];
        forall j | i < j < |data.active|
          ensures HasOpen(OpenOne(root, incidents, data.active[i], to, data, cfg), data.active[j])
             <==> HasOpen(incidents, data.active[j])
        {
          OpenOneElsewhere(root, incidents, data.active[i], data.active[j], to, data, cfg);
        }
        JudgeSlice(data.active[i], open, to, data);
      }
      assert data.active[..|data.active|] == data.active;
    }
  }

  /** Opening on one slice leaves every other as it was. */
  lemma OpenOneElsewhere(root: Root, incidents: seq<Incident>, slice: Slice, x: Slice, to: int, data: Data, cfg: Config)
    requires x != slice
    ensures var after := OpenOne(root, incidents, slice, to, data, cfg);
            && (HasOpen(after, x) <==> HasOpen(incidents, x)) && (Shut(after, x, to) <==> Shut(incidents, x, to))
            && incidents <= after
  {
    hide VerdictOn;
    var after := OpenOne(root, incidents, slice, to, data, cfg);
    assert forall k :: 0 <= k < |incidents| ==> after[k] == incidents[k];
    if HasOpen(incidents, x) {
      var k :| 0 <= k < |incidents| && incidents[k].slice == x && IsOpen(incidents[k]);
      assert after[k].slice == x && IsOpen(after[k]);
    }
    if Recent(incidents, x, to) {
      var k :| 0 <= k < |incidents| && ResolvedSince(incidents[k], x, to - SUPPRESSION_MS);
      assert ResolvedSince(after[k], x, to - SUPPRESSION_MS);
    }
  }

  // ---- What every sweep keeps ----

  /**
   * Of two incidents of one slice the earlier was resolved, more than an hour before the later
   * opened; and every incident opened on a bucket boundary with all five gates passing.
   */
  ghost predicate WellKept(incidents: seq<Incident>) {
    && (forall i, j :: 0 <= i < j < |incidents| && incidents[i].slice == incidents[j].slice ==>
          incidents[i].resolvedAt.Some? && incidents[i].resolvedAt.value + SUPPRESSION_MS < incidents[j].openedAt)
    && (forall i :: 0 <= i < |incidents| ==>
          Anomalous(incidents[i].verdict) && incidents[i].openedAt % BUCKET_MS == 0
          && incidents[i].baselineRate == incidents[i].verdict.baselineRate)
  }

  lemma ResolveKeeps(incidents: seq<Incident>, to: int, data: Data, cfg: Config)
    requires WellKept(incidents)
    ensures WellKept(ResolveAll(incidents, to, data, cfg))
  {
    hide IsResolved, Anomalous;
  }

  lemma OpenKeeps(root: Root, incidents: seq<Incident>, slice: Slice, to: int, data: Data, cfg: Config)
    requires WellKept(incidents) && to % BUCKET_MS == 0
    ensures WellKept(OpenOne(root, incidents, slice, to, data, cfg))
  {
    hide VerdictOn;
    if !Shut(incidents, slice, to) {
      forall i | 0 <= i < |incidents| && incidents[i].slice == slice
        ensures incidents[i].resolvedAt.Some? && incidents[i].resolvedAt.value + SUPPRESSION_MS < to
      {
      }
    }
  }

  lemma {:induction false} OpenAllKeeps(root: Root, incidents: seq<Incident>, slices: seq<Slice>, to: int,
                                        data: Data, cfg: Config)
    requires WellKept(incidents) && to % BUCKET_MS == 0
    ensures WellKept(OpenAll(root, incidents, slices, to, data, cfg))
  {
    hide OpenOne, WellKept;
    if slices != [] {
      OpenAllKeeps(root, incidents, slices[..|slices|-1], to, data, cfg);
      OpenKeeps(root, OpenAll(root, incidents, slices[..|slices|-1], to, data, cfg), slices[|slices|-1], to, data, cfg);
    }
  }

  lemma SweepKeeps(root: Root, incidents: seq<Incident>, now: int, locked: bool, data: Data, cfg: Config)
    requires WellKept(incidents)
    ensures WellKept(Swept(root, incidents, now, locked, data, cfg))
  {
    hide WellKept, OpenAll, ResolveAll;
    if locked {
      ResolveKeeps(incidents, Floor(now), data, cfg);
      OpenAllKeeps(root, ResolveAll(incidents, Floor(now), data, cfg), data.active, Floor(now), data, cfg);
    }
  }

  /** A sweep as it was asked for: when, whether it got the lock, and what it read. */
  datatype SweepCall = SweepCall(now: int, locked: bool, data: Data)

  function AfterSweeps(root: Root, incidents: seq<Incident>, calls: seq<SweepCall>, cfg: Config): seq<Incident> {
    if |calls| == 0 then incidents
    else
      var c := calls[|calls|-1];
      Swept(root, AfterSweeps(root, incidents, calls[..|calls|-1], cfg), c.now, c.locked, c.data, cfg)
  }

  /** The sweep that opened an incident: it had the lock, the slice was active, and this is what it judged. */
  ghost predicate OpenedBy(root: Root, i: Incident, c: SweepCall, cfg: Config) {
    && c.locked && i.openedAt == Floor(c.now) && i.slice in c.data.active
    && i.verdict == VerdictOn(root, i.slice, i.openedAt, c.data, cfg)
  }

  /** What an incident keeps for good. */
  predicate SameOpening(a: Incident, b: Incident) {
    a.slice == b.slice && a.openedAt == b.openedAt && a.baselineRate == b.baselineRate && a.verdict == b.verdict
  }

  lemma {:induction false} OpenAllOpens(root: Root, incidents: seq<Incident>, slices: seq<Slice>, c: SweepCall,
                                        cfg: Config)
    requires c.locked && forall s :: s in slices ==> s in c.data.active
    ensures var after := OpenAll(root, incidents, slices, Floor(c.now), c.data, cfg);
            && incidents <= after
            && forall k :: |incidents| <= k < |after| ==> OpenedBy(root, after[k], c, cfg)
  {
    hide Shut, Evaluate;
    if slices != [] {
      OpenAllOpens(root, incidents, slices[..|slices|-1], c, cfg);
      assert slices[|slices|-1] in slices;
    }
  }

  /** A sweep keeps every opening on record, and what it adds it opened itself. */
  lemma SweepOpens(root: Root, incidents: seq<Incident>, c: SweepCall, cfg: Config)
    ensures var after := Swept(root, incidents, c.now, c.locked, c.data, cfg);
            && |incidents| <= |after|
            && (forall k :: 0 <= k < |incidents| ==> SameOpening(after[k], incidents[k]))
            && forall k :: |incidents| <= k < |after| ==> OpenedBy(root, after[k], c, cfg)
  {
    hide OpenAll, OpenedBy, IsResolved;
    if c.locked {
      OpenAllOpens(root, ResolveAll(incidents, Floor(c.now), c.data, cfg), c.data.active, c, cfg);
    }
  }

  /** Every incident that a run adds was judged by one of its sweeps, on the data that sweep read. */
  lemma {:induction false} VerdictsAreJudged(
      root: Root, incidents: seq<Incident>, calls: seq<SweepCall>, cfg: Config, k: nat)
    requires |incidents| <= k < |AfterSweeps(root, incidents, calls, cfg)|
    ensures exists c :: c in calls && OpenedBy(root, AfterSweeps(root, incidents, calls, cfg)[k], c, cfg)
  {
    hide Swept, VerdictOn;
    if |calls| > 0 {
      var front, last := calls[..|calls|-1], calls[|calls|-1];
      var before, after := AfterSweeps(root, incidents, front, cfg), AfterSweeps(root, incidents, calls, cfg);
      SweepOpens(root, before, last, cfg);
      if k < |before| {
        VerdictsAreJudged(root, incidents, front, cfg, k);
        var c :| c in front && OpenedBy(root, before[k], c, cfg);
        assert OpenedBy(root, after[k], c, cfg);
      } else {
        assert OpenedBy(root, after[k], last, cfg);
      }
    }
  }

  // ---- What a sweep judges ----

  /** A sweep has something to open: with the lock, on an active slice that is not shut, by all five gates. */
  ghost predicate Opens(root: Root, incidents: seq<Incident>, c: SweepCall, slice: Slice, cfg: Config) {
    var to := Floor(c.now);
    && c.locked && slice in c.data.active && !Shut(ResolveAll(incidents, to, c.data, cfg), slice, to)
    && Anomalous(VerdictOn(root, slice, to, c.data, cfg))
  }

  predicate Adds(before: nat, after: seq<Incident>, slice: Slice) {
    exists k :: before <= k < |after| && after[k].slice == slice
  }

  lemma {:induction false} OpenAllJudges(
      root: Root, incidents: seq<Incident>, slices: seq<Slice>, slice: Slice, to: int, data: Data, cfg: Config)
    requires Distinct(slices)
    ensures var after := OpenAll(root, incidents, slices, to, data, cfg);
            && incidents <= after
            && (Adds(|incidents|, after, slice)
                <==> slice in slices && !Shut(incidents, slice, to) && Anomalous(VerdictOn(root, slice, to, data, cfg)))
            && (slice !in slices ==> (Shut(after, slice, to) <==> Shut(incidents, slice, to)))
  {
    hide VerdictOn, Shut;
    if slices != [] {
      var front, last := slices[..|slices|-1], slices[|slices|-1];
      OpenAllJudges(root, incidents, front, slice, to, data, cfg);
      var mid := OpenAll(root, incidents, front, to, data, cfg);
      var after := OpenOne(root, mid, last, to, data, cfg);
      assert mid <= after;
      assert forall k :: 0 <= k < |mid| ==> after[k] == mid[k];
      if last != slice {
        OpenOneElsewhere(root, mid, last, slice, to, data, cfg);
        AddsElsewhere(|incidents|, mid, after, slice);
      } else if |after| > |mid| {
        assert after[|mid|].slice == slice;
      }
    }
  }

  lemma AddsElsewhere(n: nat, mid: seq<Incident>, after: seq<Incident>, slice: Slice)
    requires n <= |mid| && mid <= after && forall k :: |mid| <= k < |after| ==> after[k].slice != slice
    ensures Adds(n, after, slice) <==> Adds(n, mid, slice)
  {
    assert forall k :: 0 <= k < |mid| ==> after[k] == mid[k];
    if Adds(n, mid, slice) {
      var k :| n <= k < |mid| && mid[k].slice == slice;
      assert after[k].slice == slice;
    }
  }

  /** A sweep adds an incident on a slice exactly when it has one to open. */
  lemma SweepJudges(root: Root, incidents: seq<Incident>, c: SweepCall, slice: Slice, cfg: Config)
    ensures Adds(|incidents|, Swept(root, incidents, c.now, c.locked, c.data, cfg), slice)
       <==> Opens(root, incidents, c, slice, cfg)
  {
    hide OpenAll, VerdictOn, Shut, Resolve;
    if c.locked {
      var to := Floor(c.now);
      OpenAllJudges(root, ResolveAll(incidents, to, c.data, cfg), c.data.active, slice, to, c.data, cfg);
    }
  }

  /**
   * After any sweeps, at whatever times and in whatever order: a slice has at most one open
   * incident, each was opened by all five gates, and a slice reopens only more than an hour
   * after its last resolution.
   */
  lemma {:induction false} IncidentsWellKept(root: Root, incidents: seq<Incident>, calls: seq<SweepCall>, cfg: Config)
    requires WellKept(incidents)
    ensures var after := AfterSweeps(root, incidents, calls, cfg);
            && WellKept(after)
            && forall i, j :: 0 <= i < j < |after| && after[i].slice == after[j].slice ==> !IsOpen(after[i])
  {
    hide Swept;
    if |calls| > 0 {
      var c := calls[|calls|-1];
      IncidentsWellKept(root, incidents, calls[..|calls|-1], cfg);
      SweepKeeps(root, AfterSweeps(root, incidents, calls[..|calls|-1], cfg), c.now, c.locked, c.data, cfg);
    }
  }
}
