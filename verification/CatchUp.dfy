/**
 * Catching up with the data (apps/api/src/app/detection.ts:226-264): one sweep per bucket, never
 * past the latest bucket that is ready, over any number of calls.
 */
module CatchUp {
  import opened Wrappers
  import opened Detection

  /** `Date.parse(after.toString())`: the text of a date has whole seconds, and zero falls through. */
  function CursorOf(after: int): int {
    if after / 1000 * 1000 == 0 then after else after / 1000 * 1000
  }

  /** The most buckets one call sweeps. */
  const MAX_BUCKETS := 24

  /** Not within the first second of the epoch, whose text reads back as zero. */
  predicate Readable(t: int) { t <= 0 || t >= 1000 }

  /** n instants, a bucket apart, after `start`. */
  function Ladder(start: int, n: nat): (times: seq<int>)
    ensures |times| == n && forall k :: 0 <= k < n ==> times[k] == start + (k + 1) * BUCKET_MS
  {
    seq(n, k => start + (k + 1) * BUCKET_MS)
  }

  /** The latest bucket with data, but not past what the abandonment sweep has settled. */
  function ReadyTo(latestData: Option<int>, until: Option<int>): Option<int> {
    if latestData.None? then None
    else Some(if until.Some? && until.value < latestData.value then until.value else latestData.value)
  }

  /** What is ready is the earlier of the two bounds there are, and nothing without data. */
  lemma ReadyIsEarlier(latestData: Option<int>, until: Option<int>, t: int)
    ensures ReadyTo(latestData, until).None? <==> latestData.None?
    ensures latestData.Some? ==>
              (t <= ReadyTo(latestData, until).value <==> t <= latestData.value && (until.Some? ==> t <= until.value))
  {
  }

  /** A cursor is the instant cut to whole seconds, but for the first second of the epoch. */
  lemma CursorIsWholeSecond(after: int)
    ensures 0 <= after < 1000 ==> CursorOf(after) == after
    ensures after < 0 || after >= 1000 ==> CursorOf(after) % 1000 == 0 && after - 1000 < CursorOf(after) <= after
  {
  }

  /** How many buckets one call sweeps. */
  function Steps(cursor: int, ready: Option<int>, limit: nat): nat
    decreases limit
  {
    if ready.None? || limit == 0 || cursor + BUCKET_MS > ready.value then 0
    else 1 + Steps(cursor + BUCKET_MS, ready, limit - 1)
  }

  /** What each sweep of a call finds: whether it gets the lock and what it reads. */
  type Finding = int -> (bool, Data)

  function Recorded(times: seq<int>, find: Finding): (list: seq<SweepCall>)
    ensures |list| == |times|
    ensures forall k :: 0 <= k < |times| ==> list[k] == SweepCall(times[k], find(times[k]).0, find(times[k]).1)
  {
    seq(|times|, k requires 0 <= k < |times| => SweepCall(times[k], find(times[k]).0, find(times[k]).1))
  }

  /** One more sweep of a call. */
  lemma OneMoreSweep(root: Root, cfg: Config, incidents: seq<Incident>, start: int, n: nat, find: Finding)
    ensures var list, t := Recorded(Ladder(start, n), find), start + (n + 1) * BUCKET_MS;
            var longer := list + [SweepCall(t, find(t).0, find(t).1)];
            && longer == Recorded(Ladder(start, n + 1), find)
            && AfterSweeps(root, incidents, longer, cfg)
            == Swept(root, AfterSweeps(root, incidents, list, cfg), t, find(t).0, find(t).1, cfg)
  {
    var list, t := Recorded(Ladder(start, n), find), start + (n + 1) * BUCKET_MS;
    assert (list + [SweepCall(t, find(t).0, find(t).1)])[..|list|] == list;
  }

  /** A call that throws does so with some number of its sweeps committed. */
  predicate Throws(fails: Option<nat>, n: nat) {
    fails.Some? && fails.value <= n
  }

  function Committed(fails: Option<nat>, n: nat): nat {
    if Throws(fails, n) then fails.value else n
  }

  /** None when the call throws. */
  method Run(detector: Detector, after: int, latestData: Option<int>, until: Option<int>, limit: nat, find: Finding,
             fails: Option<nat>)
    returns (sweptTo: Option<int>, ghost list: seq<SweepCall>)
    modifies detector`incidents
    ensures var n := Steps(CursorOf(after), ReadyTo(latestData, until), limit);
            && list == Recorded(Ladder(CursorOf(after), Committed(fails, n)), find)
            && sweptTo == if Throws(fails, n) then None
                          else Some(if n == 0 then after else CursorOf(after) + n * BUCKET_MS)
    ensures detector.incidents == AfterSweeps(detector.root, old(detector.incidents), list, detector.cfg)
  {
    hide Swept, AfterSweeps, Ladder, Recorded, CursorOf;
    list := [];
    EmptyCall(detector.root, detector.cfg, detector.incidents, CursorOf(after), find);
    if fails == Some(0) {
      return None, list;
    }
    if latestData.None? {
      return Some(after), list;
    }
    var latest := if until.Some? && until.value < latestData.value then until.value else latestData.value;
    var start := CursorOf(after);
    var cursor, swept := start, after;
    var i := 0;
    while i < limit
      invariant i <= limit && cursor == start + i * BUCKET_MS && list == Recorded(Ladder(start, i), find)
      invariant swept == if i == 0 then after else cursor
      invariant fails.None? || i < fails.value
      invariant Steps(start, Some(latest), limit) == i + Steps(cursor, Some(latest), limit - i)
      invariant detector.incidents == AfterSweeps(detector.root, old(detector.incidents), list, detector.cfg)
    {
      var next := cursor + BUCKET_MS;
      if next > latest {
        break;
      }
      cursor := next;
      var found := find(cursor);
      detector.Sweep(cursor, found.0, found.1);
      swept := cursor;
      OneMoreSweep(detector.root, detector.cfg, old(detector.incidents), start, i, find);
      list := list + [SweepCall(cursor, found.0, found.1)];
      i := i + 1;
      if fails == Some(i) {
        return None, list;
      }
    }
    sweptTo := Some(swept);
  }

  lemma EmptyCall(root: Root, cfg: Config, incidents: seq<Incident>, start: int, find: Finding)
    ensures Recorded(Ladder(start, 0), find) == [] && AfterSweeps(root, incidents, [], cfg) == incidents
  {
  }

  /** The runner's side: detection is due once a bucket has passed, and a call that throws moves nothing. */
  class DetectionLoop {
    const detector: Detector
    var lastDetectionMs: int

    constructor (detector: Detector, startMs: int)
      ensures this.detector == detector && lastDetectionMs == startMs
    {
      this.detector, lastDetectionMs := detector, startMs;
    }

    method RunDetection(nowMs: int, settledMs: int, latestData: Option<int>, find: Finding, fails: Option<nat>)
      returns (ghost list: seq<SweepCall>)
      modifies this`lastDetectionMs, detector`incidents
      ensures var from := old(lastDetectionMs);
              var n := Steps(CursorOf(from), ReadyTo(latestData, Some(settledMs)), MAX_BUCKETS);
              if nowMs - from < BUCKET_MS then list == [] && lastDetectionMs == from
              else
                && list == Recorded(Ladder(CursorOf(from), Committed(fails, n)), find)
                && lastDetectionMs == if Throws(fails, n) || n == 0 then from else CursorOf(from) + n * BUCKET_MS
      ensures detector.incidents == AfterSweeps(detector.root, old(detector.incidents), list, detector.cfg)
    {
      list := [];
      if nowMs - lastDetectionMs >= BUCKET_MS {
        var sweptTo;
        sweptTo, list := Run(detector, lastDetectionMs, latestData, Some(settledMs), MAX_BUCKETS, find, fails);
        if sweptTo.Some? {
          lastDetectionMs := sweptTo.value;
        }
      }
    }
  }

  // ---- Any number of calls ----

  /** A call: how far the data was ready, how many buckets it might sweep, what it found, where it threw. */
  datatype Call = Call(ready: Option<int>, limit: nat, find: Finding, fails: Option<nat>)

  /** The buckets that the calls that returned have moved the cursor by. */
  function Progress(start: int, calls: seq<Call>): nat
    decreases |calls|, 1
  {
    if |calls| == 0 then 0
    else
      var c, n := calls[|calls|-1], Wanted(start, calls);
      Progress(start, calls[..|calls|-1]) + if Throws(c.fails, n) then 0 else n
  }

  function At(start: int, m: nat): int {
    if m == 0 then start else CursorOf(start) + m * BUCKET_MS
  }

  /** How many buckets the last call would sweep. */
  function Wanted(start: int, calls: seq<Call>): nat
    requires |calls| > 0
    decreases |calls|, 0
  {
    var c := calls[|calls|-1];
    Steps(CursorOf(At(start, Progress(start, calls[..|calls|-1]))), c.ready, c.limit)
  }

  /** How many sweeps the last call committed. */
  function Made(start: int, calls: seq<Call>): nat
    requires |calls| > 0
  {
    Committed(calls[|calls|-1].fails, Wanted(start, calls))
  }

  predicate Threw(start: int, calls: seq<Call>)
    requires |calls| > 0
  {
    Throws(calls[|calls|-1].fails, Wanted(start, calls))
  }

  /** Every sweep of a run of calls, each starting from where the last that returned got to. */
  function SweepsOf(start: int, calls: seq<Call>): seq<SweepCall> {
    if |calls| == 0 then []
    else
      var front := calls[..|calls|-1];
      SweepsOf(start, front)
      + Recorded(Ladder(CursorOf(At(start, Progress(start, front))), Made(start, calls)), calls[|calls|-1].find)
  }

  /** The m-th instant after the start. */
  function Instant(start: int, m: nat): int {
    CursorOf(start) + (m + 1) * BUCKET_MS
  }

  lemma {:induction false} StepsReady(cursor: int, ready: Option<int>, limit: nat)
    ensures var n := Steps(cursor, ready, limit);
            && n <= limit && (n > 0 ==> ready.Some? && cursor + n * BUCKET_MS <= ready.value)
            && (n < limit && ready.Some? ==> cursor + (n + 1) * BUCKET_MS > ready.value)
    decreases limit
  {
    if ready.Some? && limit > 0 && cursor + BUCKET_MS <= ready.value {
      StepsReady(cursor + BUCKET_MS, ready, limit - 1);
    }
  }

  /** A cursor reads back as itself after any number of buckets. */
  lemma CursorStays(start: int, m: nat)
    requires Readable(start)
    ensures CursorOf(At(start, m)) == CursorOf(start) + m * BUCKET_MS
  {
    if m > 0 {
      assert CursorOf(start) == start / 1000 * 1000;
      assert (start / 1000 * 1000 + m * BUCKET_MS) == (start / 1000 + m * 300) * 1000;
    }
  }

  /** What the last call adds: consecutive instants from the progress made before it. */
  lemma LastCall(start: int, calls: seq<Call>)
    requires Readable(start) && |calls| > 0
    ensures var front, k := SweepsOf(start, calls[..|calls|-1]), Made(start, calls);
            var m, list := Progress(start, calls[..|calls|-1]), SweepsOf(start, calls);
            && list[..|front|] == front && |list| == |front| + k
            && (forall p :: |front| <= p < |list| ==> list[p].now == Instant(start, m + p - |front|))
            && Progress(start, calls) == m + (if Threw(start, calls) then 0 else k)
  {
    hide CursorOf, Steps;
    var m, k := Progress(start, calls[..|calls|-1]), Made(start, calls);
    CursorStays(start, m);
    forall t | 0 <= t < k
      ensures Ladder(CursorOf(At(start, m)), k)[t] == Instant(start, m + t)
    {
    }
  }

  predicate Visits(list: seq<SweepCall>, now: int) {
    exists p :: 0 <= p < |list| && list[p].now == now
  }

  /** Every bucket up to the cursor is swept at least once, and none before the one it follows. */
  ghost predicate InOrder(start: int, list: seq<SweepCall>) {
    forall p :: 0 <= p < |list| ==> Follows(start, list, p)
  }

  /** A sweep of the first bucket, or of the one after a bucket swept before. */
  ghost predicate Follows(start: int, list: seq<SweepCall>, p: nat)
    requires p < |list|
  {
    exists m: nat :: list[p].now == Instant(start, m) && (m == 0 || Visits(list[..p], Instant(start, m - 1)))
  }

  lemma VisitsGrow(list: seq<SweepCall>, longer: seq<SweepCall>, now: int)
    requires |list| <= |longer| && longer[..|list|] == list && Visits(list, now)
    ensures Visits(longer, now)
  {
    var p :| 0 <= p < |list| && list[p].now == now;
    assert longer[p] == longer[..|list|][p];
  }

  lemma {:induction false} EveryBucketSwept(start: int, calls: seq<Call>, j: nat)
    requires Readable(start) && j < Progress(start, calls)
    ensures Visits(SweepsOf(start, calls), Instant(start, j))
  {
    hide SweepsOf, Instant, Made, Threw;
    if |calls| > 0 {
      var front := calls[..|calls|-1];
      LastCall(start, calls);
      if j < Progress(start, front) {
        EveryBucketSwept(start, front, j);
        VisitsGrow(SweepsOf(start, front), SweepsOf(start, calls), Instant(start, j));
      } else {
        var p := |SweepsOf(start, front)| + (j - Progress(start, front));
        assert SweepsOf(start, calls)[p].now == Instant(start, j);
      }
    }
  }

  /** The m-th instant is in the m-th bucket after that of the start. */
  lemma ConsecutiveBuckets(start: int, m: nat)
    ensures Floor(Instant(start, m)) == Floor(CursorOf(start)) + (m + 1) * BUCKET_MS
  {
    var c, n := CursorOf(start), m + 1;
    assert (c + n * BUCKET_MS) / BUCKET_MS == c / BUCKET_MS + n;
  }

  predicate SweepsBucket(list: seq<SweepCall>, bucket: int) {
    exists p :: 0 <= p < |list| && Floor(list[p].now) == bucket
  }

  /** Every five-minute bucket from the start's own to that of the cursor was swept. */
  lemma EveryBucketCovered(start: int, calls: seq<Call>, bucket: int)
    requires Readable(start) && bucket % BUCKET_MS == 0
    requires Floor(CursorOf(start)) < bucket <= Floor(CursorOf(At(start, Progress(start, calls))))
    ensures SweepsBucket(SweepsOf(start, calls), bucket)
  {
    hide SweepsOf, Progress, CursorOf;
    var n := Progress(start, calls);
    CursorStays(start, n);
    var m := (bucket - Floor(CursorOf(start))) / BUCKET_MS - 1;
    BucketOf(CursorOf(start), n, bucket);
    ConsecutiveBuckets(start, m);
    EveryBucketSwept(start, calls, m);
    var p :| 0 <= p < |SweepsOf(start, calls)| && SweepsOf(start, calls)[p].now == Instant(start, m);
    assert Floor(SweepsOf(start, calls)[p].now) == bucket;
  }

  lemma BucketOf(c: int, n: nat, bucket: int)
    requires bucket % BUCKET_MS == 0 && Floor(c) < bucket <= Floor(c + n * BUCKET_MS)
    ensures var m := (bucket - Floor(c)) / BUCKET_MS - 1;
            0 <= m < n && Floor(c) + (m + 1) * BUCKET_MS == bucket
  {
    assert (c + n * BUCKET_MS) / BUCKET_MS == c / BUCKET_MS + n;
  }

  /**
   * Over any run of calls, whatever they throw: every bucket from the start to the cursor was swept,
   * and none before the one it follows.
   */
  lemma {:induction false} EveryBucketInOrder(start: int, calls: seq<Call>)
    requires Readable(start)
    ensures InOrder(start, SweepsOf(start, calls))
    ensures forall j :: 0 <= j < Progress(start, calls) ==> Visits(SweepsOf(start, calls), Instant(start, j))
    ensures forall bucket ::
              bucket % BUCKET_MS == 0
              && Floor(CursorOf(start)) < bucket <= Floor(CursorOf(At(start, Progress(start, calls)))) ==>
                SweepsBucket(SweepsOf(start, calls), bucket)
  {
    hide SweepsOf, Progress, Instant, Visits, Follows, Made, Threw, SweepsBucket, CursorOf, Floor;
    forall bucket | bucket % BUCKET_MS == 0
                    && Floor(CursorOf(start)) < bucket <= Floor(CursorOf(At(start, Progress(start, calls))))
      ensures SweepsBucket(SweepsOf(start, calls), bucket)
    {
      EveryBucketCovered(start, calls, bucket);
    }
    forall j | 0 <= j < Progress(start, calls)
      ensures Visits(SweepsOf(start, calls), Instant(start, j))
    {
      EveryBucketSwept(start, calls, j);
    }
    if |calls| > 0 {
      var front := calls[..|calls|-1];
      EveryBucketInOrder(start, front);
      LastCall(start, calls);
      CallInOrder(start, SweepsOf(start, front), SweepsOf(start, calls), Progress(start, front));
    } else {
      NoCalls(start, calls);
    }
  }

  /** Consecutive instants from the next one on, after a list in order. */
  lemma CallInOrder(start: int, before: seq<SweepCall>, list: seq<SweepCall>, m: nat)
    requires |before| <= |list| && list[..|before|] == before && InOrder(start, before)
    requires forall q :: |before| <= q < |list| ==> list[q].now == Instant(start, m + q - |before|)
    requires m > 0 ==> Visits(before, Instant(start, m - 1))
    ensures InOrder(start, list)
  {
    hide Instant, Visits, Follows;
    forall p | 0 <= p < |list|
      ensures Follows(start, list, p)
    {
      if p < |before| {
        FollowsStays(start, before, list, p);
      } else {
        NextFollows(start, before, list, m, p);
      }
    }
  }

  lemma FollowsStays(start: int, before: seq<SweepCall>, list: seq<SweepCall>, p: nat)
    requires p < |before| <= |list| && list[..|before|] == before && Follows(start, before, p)
    ensures Follows(start, list, p)
  {
    hide Visits, Instant;
    assert before[p] == list[..|before|][p];
    assert list[..p] == before[..p];
  }

  lemma NextFollows(start: int, before: seq<SweepCall>, list: seq<SweepCall>, m: nat, p: nat)
    requires |before| <= p < |list| && list[..|before|] == before
    requires forall q :: |before| <= q < |list| ==> list[q].now == Instant(start, m + q - |before|)
    requires m > 0 ==> Visits(before, Instant(start, m - 1))
    ensures Follows(start, list, p)
  {
    hide Visits, Instant;
    var j: nat := m + p - |before|;
    if p > |before| {
      SweptThere(list, p - 1, p);
    }
    assert p == |before| ==> list[..p] == before;
    assert list[p].now == Instant(start, j) && (j == 0 || Visits(list[..p], Instant(start, j - 1)));
  }

  lemma SweptThere(list: seq<SweepCall>, p: nat, n: nat)
    requires p < n <= |list|
    ensures Visits(list[..n], list[p].now)
  {
    assert list[..n][p] == list[p];
  }

  // ---- Repeats ----

  /** The last call that swept anything threw, so the cursor is behind what is swept. */
  predicate Behind(start: int, calls: seq<Call>) {
    |calls| > 0
    && if Made(start, calls) > 0 then Threw(start, calls) else Behind(start, calls[..|calls|-1])
  }

  ghost predicate NoRepeat(list: seq<SweepCall>) {
    forall p, q :: 0 <= p < q < |list| ==> list[p].now != list[q].now
  }

  /** Some call sweeps although the last one that swept anything threw. */
  ghost predicate SweepsAgain(start: int, calls: seq<Call>) {
    exists c :: 0 < c <= |calls| && Made(start, calls[..c]) > 0 && Behind(start, calls[..c-1])
  }

  /** What comes next was swept already if the cursor is behind; if not, everything swept is behind it. */
  lemma {:induction false} NextBucket(start: int, calls: seq<Call>)
    requires Readable(start)
    ensures Behind(start, calls) ==> Visits(SweepsOf(start, calls), Instant(start, Progress(start, calls)))
    ensures !Behind(start, calls) && !SweepsAgain(start, calls) ==>
              forall p :: 0 <= p < |SweepsOf(start, calls)| ==>
                SweepsOf(start, calls)[p].now < Instant(start, Progress(start, calls))
  {
    hide SweepsOf, Progress, Made, Threw;
    if |calls| == 0 {
      NoCalls(start, calls);
    } else {
      var front := calls[..|calls|-1];
      NextBucket(start, front);
      LastCall(start, calls);
      SweepsAgainGrows(start, calls);
      var before, list := SweepsOf(start, front), SweepsOf(start, calls);
      assert forall p :: 0 <= p < |before| ==> list[p] == list[..|before|][p];
      if Behind(start, calls) {
        if Made(start, calls) > 0 {
          assert list[|before|].now == Instant(start, Progress(start, calls));
        } else {
          VisitsGrow(before, list, Instant(start, Progress(start, calls)));
        }
      }
    }
  }

  lemma NoCalls(start: int, calls: seq<Call>)
    requires |calls| == 0
    ensures SweepsOf(start, calls) == [] && Progress(start, calls) == 0
  {
  }

  lemma SweepsAgainGrows(start: int, calls: seq<Call>)
    requires |calls| > 0
    ensures SweepsAgain(start, calls)
       <==> SweepsAgain(start, calls[..|calls|-1]) || (Made(start, calls) > 0 && Behind(start, calls[..|calls|-1]))
  {
    hide Made, Behind;
    var front := calls[..|calls|-1];
    assert calls[..|calls|] == calls;
    if SweepsAgain(start, front) {
      var c :| 0 < c <= |front| && Made(start, front[..c]) > 0 && Behind(start, front[..c-1]);
      assert front[..c] == calls[..c] && front[..c-1] == calls[..c-1];
      assert Made(start, calls[..c]) > 0 && Behind(start, calls[..c-1]);
    }
    if SweepsAgain(start, calls) {
      var c :| 0 < c <= |calls| && Made(start, calls[..c]) > 0 && Behind(start, calls[..c-1]);
      if c < |calls| {
        assert front[..c] == calls[..c] && front[..c-1] == calls[..c-1];
        assert Made(start, front[..c]) > 0 && Behind(start, front[..c-1]);
      }
    }
  }

  /**
   * No bucket is swept twice exactly when no call sweeps after one that threw with sweeps committed:
   * such a call starts over from the cursor the failed one left.
   */
  lemma {:induction false} RepeatsAfterThrow(start: int, calls: seq<Call>)
    requires Readable(start)
    ensures NoRepeat(SweepsOf(start, calls)) <==> !SweepsAgain(start, calls)
  {
    hide SweepsOf, Progress, Made, Threw, Behind, Instant;
    if |calls| == 0 {
      NoCalls(start, calls);
    } else {
      var front := calls[..|calls|-1];
      RepeatsAfterThrow(start, front);
      NextBucket(start, front);
      LastCall(start, calls);
      SweepsAgainGrows(start, calls);
      LastCallRepeats(SweepsOf(start, front), SweepsOf(start, calls), start, Progress(start, front));
    }
  }

  /** Consecutive instants after a list repeat something exactly when the first of them does. */
  lemma LastCallRepeats(before: seq<SweepCall>, list: seq<SweepCall>, start: int, m: nat)
    requires |before| <= |list| && list[..|before|] == before
    requires forall p :: |before| <= p < |list| ==> list[p].now == Instant(start, m + p - |before|)
    ensures NoRepeat(list) ==> NoRepeat(before) && (|before| < |list| ==> !Visits(before, Instant(start, m)))
    ensures NoRepeat(before) && (forall p :: 0 <= p < |before| ==> before[p].now < Instant(start, m)) ==> NoRepeat(list)
    ensures |before| == |list| ==> list == before
  {
    assert forall p :: 0 <= p < |before| ==> before[p] == list[p];
    if |before| < |list| && Visits(before, Instant(start, m)) {
      var p :| 0 <= p < |before| && before[p].now == Instant(start, m);
      assert list[p].now == list[|before|].now;
    }
  }

  /** The smallest such run: one bucket ready, a sweep that commits before its call throws, and a second call. */
  lemma ThrownCallRepeats(start: int, find: Finding)
    requires Readable(start)
    ensures var ready := Some(CursorOf(start) + BUCKET_MS);
            var list := SweepsOf(start, [Call(ready, 24, find, Some(1)), Call(ready, 24, find, None)]);
            |list| == 2 && list[0].now == list[1].now
  {
    var ready := Some(CursorOf(start) + BUCKET_MS);
    var calls := [Call(ready, 24, find, Some(1)), Call(ready, 24, find, None)];
    var first := calls[..1];
    assert Steps(CursorOf(start), ready, 24) == 1 by { OneReady(CursorOf(start)); }
    LastCall(start, first);
    LastCall(start, calls);
    assert calls[..2] == calls && first[..0] == [];
  }

  lemma OneReady(cursor: int)
    ensures Steps(cursor, Some(cursor + BUCKET_MS), 24) == 1
  {
    assert Steps(cursor + BUCKET_MS, Some(cursor + BUCKET_MS), 23) == 0;
  }

  // ---- What each call does ----

  /** No call sweeps past what was ready for it, and none that returns stops short of it but at its limit. */
  lemma NeverPastReady(start: int, calls: seq<Call>)
    requires Readable(start) && |calls| > 0
    ensures var c, k, m := calls[|calls|-1], Made(start, calls), Progress(start, calls[..|calls|-1]);
            && k <= c.limit
            && (k > 0 ==> c.ready.Some? && CursorOf(start) + (m + k) * BUCKET_MS <= c.ready.value)
            && (k < c.limit && c.ready.Some? && !Threw(start, calls) ==>
                  CursorOf(start) + (m + k + 1) * BUCKET_MS > c.ready.value)
  {
    hide Steps, CursorOf, Progress;
    var m := Progress(start, calls[..|calls|-1]);
    CursorStays(start, m);
    StepsReady(CursorOf(At(start, m)), calls[|calls|-1].ready, calls[|calls|-1].limit);
  }

  // ---- The lock ----

  function Locked(list: seq<SweepCall>): seq<SweepCall> {
    if |list| == 0 then []
    else Locked(list[..|list|-1]) + if list[|list|-1].locked then [list[|list|-1]] else []
  }

  /** The incidents are those of the sweeps that got the lock. */
  lemma {:induction false} OnlyLockedSweepsJudge(root: Root, cfg: Config, incidents: seq<Incident>,
                                                 list: seq<SweepCall>)
    ensures AfterSweeps(root, incidents, list, cfg) == AfterSweeps(root, incidents, Locked(list), cfg)
  {
    hide Swept;
    if |list| > 0 {
      var front, last := list[..|list|-1], list[|list|-1];
      OnlyLockedSweepsJudge(root, cfg, incidents, front);
      NoLockNoChange(root, cfg, AfterSweeps(root, incidents, front, cfg), last);
      var locked := Locked(list);
      if last.locked {
        assert locked == Locked(front) + [last];
        assert locked[..|locked|-1] == Locked(front) && locked[|locked|-1] == last;
      } else {
        assert locked == Locked(front);
      }
    }
  }

  lemma NoLockNoChange(root: Root, cfg: Config, incidents: seq<Incident>, c: SweepCall)
    ensures !c.locked ==> Swept(root, incidents, c.now, c.locked, c.data, cfg) == incidents
  {
  }

  /** A call whose sweeps find the lock taken moves the cursor over its buckets, and nobody judges them. */
  lemma LockTakenSkips(root: Root, cfg: Config, incidents: seq<Incident>, start: int, find: Finding, ready: int,
                       limit: nat)
    requires Readable(start) && forall t :: !find(t).0
    ensures var calls := [Call(Some(ready), limit, find, None)];
            && Progress(start, calls) == Made(start, calls) == Steps(CursorOf(start), Some(ready), limit)
            && AfterSweeps(root, incidents, SweepsOf(start, calls), cfg) == incidents
  {
    hide Steps, CursorOf, Swept;
    var calls := [Call(Some(ready), limit, find, None)];
    assert calls[..0] == [];
    LastCall(start, calls);
    NoneLocked(SweepsOf(start, calls));
    OnlyLockedSweepsJudge(root, cfg, incidents, SweepsOf(start, calls));
  }

  lemma {:induction false} NoneLocked(list: seq<SweepCall>)
    requires forall p :: 0 <= p < |list| ==> !list[p].locked
    ensures Locked(list) == []
  {
    if |list| > 0 {
      NoneLocked(list[..|list|-1]);
    }
  }

  /** A sweep of this bucket, with the lock, has something to open on what the sweeps before it left. */
  ghost predicate OpensAt(root: Root, cfg: Config, incidents: seq<Incident>, list: seq<SweepCall>, bucket: int, p: nat)
    requires p < |list|
  {
    && Floor(list[p].now) == bucket && list[p].locked
    && exists slice :: Opens(root, AfterSweeps(root, incidents, list[..p], cfg), list[p], slice, cfg)
  }

  predicate OpenedIn(before: nat, after: seq<Incident>, bucket: int) {
    exists k :: before <= k < |after| && after[k].openedAt == bucket
  }

  /**
   * A bucket is judged when one of its sweeps has the lock, and only then: an incident is opened in
   * it exactly when such a sweep finds an active slice that is not shut and passes all five gates.
   */
  lemma {:induction false} JudgedWhenLocked(
      root: Root, cfg: Config, incidents: seq<Incident>, list: seq<SweepCall>, bucket: int)
    ensures OpenedIn(|incidents|, AfterSweeps(root, incidents, list, cfg), bucket)
       <==> exists p :: 0 <= p < |list| && OpensAt(root, cfg, incidents, list, bucket, p)
  {
    hide Swept, Opens;
    if |list| > 0 {
      var front, last := list[..|list|-1], list[|list|-1];
      JudgedWhenLocked(root, cfg, incidents, front, bucket);
      var before, after := AfterSweeps(root, incidents, front, cfg), AfterSweeps(root, incidents, list, cfg);
      LastSweepJudges(root, cfg, before, last, bucket);
      forall p | 0 <= p < |front|
        ensures OpensAt(root, cfg, incidents, list, bucket, p) <==> OpensAt(root, cfg, incidents, front, bucket, p)
      {
        assert list[..p] == front[..p] && list[p] == front[p];
      }
      assert list[..|front|] == front && list[|front|] == last;
      assert OpensAt(root, cfg, incidents, list, bucket, |front|)
        <==> Floor(last.now) == bucket && last.locked && exists slice :: Opens(root, before, last, slice, cfg);
      SweepOpens(root, before, last, cfg);
      AfterSweepsGrow(root, cfg, incidents, front);
      OpenedSplits(|incidents|, before, after, bucket);
    }
  }

  lemma {:induction false} AfterSweepsGrow(root: Root, cfg: Config, incidents: seq<Incident>, list: seq<SweepCall>)
    ensures |incidents| <= |AfterSweeps(root, incidents, list, cfg)|
  {
    hide Swept;
    if |list| > 0 {
      AfterSweepsGrow(root, cfg, incidents, list[..|list|-1]);
      SweepOpens(root, AfterSweeps(root, incidents, list[..|list|-1], cfg), list[|list|-1], cfg);
    }
  }

  lemma OpenedSplits(n: nat, before: seq<Incident>, after: seq<Incident>, bucket: int)
    requires n <= |before| <= |after| && forall k :: 0 <= k < |before| ==> SameOpening(after[k], before[k])
    ensures OpenedIn(n, after, bucket) <==> OpenedIn(n, before, bucket) || OpenedIn(|before|, after, bucket)
  {
    if OpenedIn(n, before, bucket) {
      var k :| n <= k < |before| && before[k].openedAt == bucket;
      assert after[k].openedAt == bucket;
    }
    if OpenedIn(n, after, bucket) {
      var k :| n <= k < |after| && after[k].openedAt == bucket;
      assert k < |before| ==> before[k].openedAt == bucket;
    }
  }

  /** What one sweep opens, it opens in its own bucket. */
  lemma LastSweepJudges(root: Root, cfg: Config, before: seq<Incident>, c: SweepCall, bucket: int)
    ensures OpenedIn(|before|, Swept(root, before, c.now, c.locked, c.data, cfg), bucket)
       <==> Floor(c.now) == bucket && c.locked && exists slice :: Opens(root, before, c, slice, cfg)
  {
    hide Swept, VerdictOn, Shut;
    var after := Swept(root, before, c.now, c.locked, c.data, cfg);
    SweepOpens(root, before, c, cfg);
    if OpenedIn(|before|, after, bucket) {
      var k :| |before| <= k < |after| && after[k].openedAt == bucket;
      assert OpenedBy(root, after[k], c, cfg);
      SweepJudges(root, before, c, after[k].slice, cfg);
    }
    if slice :| Opens(root, before, c, slice, cfg) {
      SweepJudges(root, before, c, slice, cfg);
      var k :| |before| <= k < |after| && after[k].slice == slice;
      assert OpenedBy(root, after[k], c, cfg);
    }
  }
}
