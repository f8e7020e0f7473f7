/**
 * The candidate slices of root-cause analysis (apps/api/src/domain/rca.ts:159-333): every tuple
 * of dimensions that occurs in the window is counted once, and kept when it passes the filters.
 */
module RootCause {
  import opened Wrappers
  import opened TupleSearch
  import opened SliceLabels
  import opened SliceCovers
  import opened SlicePruning

  datatype Config = Config(
    dimensions: seq<string>,
    failureOnly: set<string>,
    maxTupleSize: nat,
    shrinkK: real,
    minAttempts: nat,
    absenceValues: set<string>)

  /** The pooled rate everything is compared with. */
  function Rate(failures: nat, attempts: nat): real {
    if attempts == 0 then 0.0 else failures as real / attempts as real
  }

  function Failures(obs: seq<Observation>): nat {
    |set i: nat | i < |obs| && obs[i].failed|
  }

  function PooledRate(window: seq<Observation>, baseline: seq<Observation>): real {
    if baseline == [] then Rate(Failures(window), |window|) else Rate(Failures(baseline), |baseline|)
  }

  /** The baseline's rate, shrunk towards the pooled one. */
  function ExpectedRate(b: Counts, pooled: real, shrinkK: real): real
    requires shrinkK > 0.0
  {
    (b.failures as real + shrinkK * pooled) / (b.attempts as real + shrinkK)
  }

  /** Observed failures less the attempts at the expected rate. */
  function Excess(c: Counts, b: Counts, pooled: real, shrinkK: real): real
    requires shrinkK > 0.0
  {
    c.failures as real - c.attempts as real * ExpectedRate(b, pooled, shrinkK)
  }

  function CountsOf(obs: seq<Observation>, names: seq<string>, values: seq<string>, failureOnly: set<string>): Counts
    requires |names| == |values|
  {
    var attempts, failures := AttemptSet(obs, names, values, failureOnly), FailureSet(obs, names, values);
    Counts(|attempts|, |failures|, Signature(attempts, failures))
  }

  // ---- Tuples that occur ----

  function Dims(o: Observation, names: seq<string>): (values: seq<Option<string>>)
    ensures |values| == |names| && forall i :: 0 <= i < |names| ==> values[i] == DimOf(o, names[i])
  {
    seq(|names|, i requires 0 <= i < |names| => DimOf(o, names[i]))
  }

  /** The labels of the tuples of these dimensions that occur, in the order they first occur. */
  function LabelsIn(window: seq<Observation>, names: seq<string>): seq<string> {
    if window == [] then []
    else
      var front := LabelsIn(window[..|window|-1], names);
      var key := KeyFor(names, Dims(window[|window|-1], names));
      if key.None? || key.value in front then front else front + [key.value]
  }

  predicate Occurs(window: seq<Observation>, names: seq<string>, text: string) {
    exists i :: 0 <= i < |window| && KeyFor(names, Dims(window[i], names)) == Some(text)
  }

  method CollectLabels(window: seq<Observation>, names: seq<string>) returns (labels: seq<string>)
    ensures labels == LabelsIn(window, names)
  {
    labels := [];
    for i := 0 to |window|
      invariant labels == LabelsIn(window[..i], names)
    {
      assert window[..i+1][..i] == window[..i];
      var key := KeyOf(names, Dims(window[i], names));
      if key.Some? && key.value !in labels {
        labels := labels + [key.value];
      }
    }
    assert window[..|window|] == window;
  }

  /** Names without spaces or equals signs, and no value that a separator could be read into. */
  predicate Readable(dimensions: seq<string>, window: seq<Observation>) {
    forall n :: n in dimensions ==>
      && Plain(n)
      && forall i :: 0 <= i < |window| && DimOf(window[i], n).Some? ==> CleanBefore(Part(n, DimOf(window[i], n).value))
  }

  /** The values behind a label of an occurring tuple. */
  ghost predicate Behind(window: seq<Observation>, names: seq<string>, values: seq<string>, text: string) {
    && |values| == |names| && text == LabelOf(names, values)
    && exists i :: 0 <= i < |window| && Known(Dims(window[i], names)) == Some(values)
  }

  lemma LabelReadsBack(window: seq<Observation>, dimensions: seq<string>, names: seq<string>, values: seq<string>)
    requires Readable(dimensions, window) && names != [] && forall n :: n in names ==> n in dimensions
    requires |values| == |names| && Behind(window, names, values, LabelOf(names, values))
    ensures Split(LabelOf(names, values)) == Parts(names, values)
    ensures ValuesOf(Split(LabelOf(names, values))) == values
  {
    var i :| 0 <= i < |window| && Known(Dims(window[i], names)) == Some(values);
    var parts := Parts(names, values);
    forall k | 0 <= k < |parts|
      ensures CleanBefore(parts[k]) && CleanLast(parts[k])
    {
      assert names[k] in dimensions && DimOf(window[i], names[k]) == Some(values[k]);
      CleanBeforeMeans(parts[k]);
    }
    SplitInvertsJoin(parts);
    assert forall k :: 0 <= k < |names| ==> names[k] in names;
    LabelGivesValues(names, values);
  }

  /** Two occurring tuples share a label only if they are the same tuple of the same dimensions. */
  lemma LabelsDiffer(window: seq<Observation>, dimensions: seq<string>, a: seq<string>, b: seq<string>, text: string)
    requires Readable(dimensions, window) && a != [] && b != []
    requires (forall n :: n in a ==> n in dimensions) && (forall n :: n in b ==> n in dimensions)
    requires Occurs(window, a, text) && Occurs(window, b, text)
    ensures a == b
  {
    var i :| 0 <= i < |window| && KeyFor(a, Dims(window[i], a)) == Some(text);
    var j :| 0 <= j < |window| && KeyFor(b, Dims(window[j], b)) == Some(text);
    var va, vb := Known(Dims(window[i], a)).value, Known(Dims(window[j], b)).value;
    LabelReadsBack(window, dimensions, a, va);
    LabelReadsBack(window, dimensions, b, vb);
    assert Parts(a, va) == Parts(b, vb);
    forall k | 0 <= k < |a|
      ensures a[k] == b[k]
    {
      assert a[k] in a && b[k] in b;
      assert Part(a[k], va[k]) == Part(b[k], vb[k]);
      NamesDiffer(a[k], va[k], b[k], vb[k]);
    }
  }

  lemma NamesDiffer(n: string, v: string, m: string, w: string)
    requires Plain(n) && Plain(m) && Part(n, v) == Part(m, w)
    ensures n == m
  {
    var p := Part(n, v);
    assert p[|n|] == '=' && Part(m, w)[|m|] == '=';
    assert forall k :: 0 <= k < |n| ==> p[k] == n[k];
    assert forall k :: 0 <= k < |m| ==> p[k] == m[k];
  }

  // ---- The filters ----

  /** Enough attempts, some failure, not the whole window under one name, and more failures than expected. */
  predicate Passes(window: seq<Observation>, baseline: seq<Observation>, cfg: Config, names: seq<string>,
                   values: seq<string>)
    requires |names| == |values| && cfg.shrinkK > 0.0
  {
    var w, b := CountsOf(window, names, values, cfg.failureOnly), CountsOf(baseline, names, values, cfg.failureOnly);
    && w.attempts >= cfg.minAttempts && w.failures != 0
    && !(w.attempts == |window| && |names| == 1 && |LabelsIn(window, names)| == 1)
    && Excess(w, b, PooledRate(window, baseline), cfg.shrinkK) > 0.0
  }

  /** The observations a pooled rate is taken over: the baseline, or the window when there is none. */
  function PooledOver(window: seq<Observation>, baseline: seq<Observation>): seq<Observation> {
    if |baseline| > 0 then baseline else window
  }

  lemma PooledMeans(window: seq<Observation>, baseline: seq<Observation>)
    ensures PooledRate(window, baseline) * |PooledOver(window, baseline)| as real
         == Failures(PooledOver(window, baseline)) as real
    ensures |PooledOver(window, baseline)| == 0 ==> PooledRate(window, baseline) == 0.0
  {
    hide Failures;
    var over := PooledOver(window, baseline);
    RateTimes(Failures(over), |over|);
    if over == [] {
      NoFailures(over);
    }
  }

  /**
   * The filters in counts: enough attempts, some failure, more than the one slice there is, and more
   * failures than the baseline, drawn towards the pooled rate by `shrinkK` attempts, would give.
   */
  lemma PassesMeans(window: seq<Observation>, baseline: seq<Observation>, cfg: Config, names: seq<string>,
                    values: seq<string>)
    requires |names| == |values| && cfg.shrinkK > 0.0
    ensures var w := CountsOf(window, names, values, cfg.failureOnly);
            var b := CountsOf(baseline, names, values, cfg.failureOnly);
            Passes(window, baseline, cfg, names, values) <==>
            && w.attempts >= cfg.minAttempts && w.failures > 0
            && (w.attempts == |window| && |names| == 1 ==> |LabelsIn(window, names)| != 1)
            && Exceeds(w, b, PooledRate(window, baseline), cfg.shrinkK)
  {
    hide CountsOf, LabelsIn, PooledRate, Excess, Exceeds;
    var w, b := CountsOf(window, names, values, cfg.failureOnly), CountsOf(baseline, names, values, cfg.failureOnly);
    ExcessMeans(w, b, PooledRate(window, baseline), cfg.shrinkK);
  }

  /** More failures than the baseline gives, multiplied out. */
  predicate Exceeds(c: Counts, b: Counts, pooled: real, shrinkK: real) {
    c.failures as real * (b.attempts as real + shrinkK) > c.attempts as real * (b.failures as real + shrinkK * pooled)
  }

  lemma NoFailures(obs: seq<Observation>)
    requires obs == []
    ensures Failures(obs) == 0
  {
    assert (set i: nat | i < |obs| && obs[i].failed) == {};
  }

  lemma RateTimes(failures: nat, attempts: nat)
    ensures attempts > 0 ==> Rate(failures, attempts) * attempts as real == failures as real
    ensures attempts == 0 ==> Rate(failures, attempts) == 0.0
  {
  }

  lemma ExcessMeans(c: Counts, b: Counts, pooled: real, shrinkK: real)
    requires shrinkK > 0.0
    ensures var n, x := b.attempts as real + shrinkK, b.failures as real + shrinkK * pooled;
            Excess(c, b, pooled, shrinkK) * n == c.failures as real * n - c.attempts as real * x
    ensures Excess(c, b, pooled, shrinkK) > 0.0 <==> Exceeds(c, b, pooled, shrinkK)
  {
    var n, x := b.attempts as real + shrinkK, b.failures as real + shrinkK * pooled;
    var rate, e := ExpectedRate(b, pooled, shrinkK), Excess(c, b, pooled, shrinkK);
    assert rate * n == x;
    assert e * n == c.failures as real * n - c.attempts as real * (rate * n);
    assert e > 0.0 <==> e * n > 0.0;
  }

  /** The 32-bit words of a cover. */
  function Words(window: seq<Observation>): nat {
    if window == [] then 1 else (|window| + 31) / 32
  }

  /** What a label is read back as: at least one value for each dimension it was made of. */
  function ReadBack(text: string): seq<string> {
    ValuesOf(Split(text))
  }

  /** The values that are counted are the first ones read back. */
  predicate Reads(names: seq<string>, values: seq<string>, text: string) {
    |values| == |names| <= |ReadBack(text)| && values == ReadBack(text)[..|names|]
  }

  /** What a candidate records about its tuple. */
  ghost predicate Describes(c: Candidate, window: seq<Observation>, baseline: seq<Observation>, cfg: Config,
                            names: seq<string>, values: seq<string>)
    requires |names| == |values| && cfg.shrinkK > 0.0
  {
    var w, b := CountsOf(window, names, values, cfg.failureOnly), CountsOf(baseline, names, values, cfg.failureOnly);
    && c.size == |names| && c.attempts == w.attempts && c.signature == w.signature
    && c.excess == Excess(w, b, PooledRate(window, baseline), cfg.shrinkK)
    && c.absenceCount == |set i: nat | i < |ReadBack(c.text)| && ReadBack(c.text)[i] in cfg.absenceValues|
    && |c.cover| == Words(window)
    && forall i: nat :: Bits.Bit(c.cover, i) <==> i in AttemptSet(window, names, values, cfg.failureOnly)
  }

  datatype Tuple = Tuple(names: seq<string>, values: seq<string>)

  /** The candidate of a label that occurs: it counts what the label is read back as, and that passes. */
  ghost predicate Sound(c: Candidate, t: Tuple, window: seq<Observation>, baseline: seq<Observation>, cfg: Config)
    requires cfg.shrinkK > 0.0
  {
    && |t.names| == |t.values| && Occurs(window, t.names, c.text) && Reads(t.names, t.values, c.text)
    && Passes(window, baseline, cfg, t.names, t.values) && Describes(c, window, baseline, cfg, t.names, t.values)
  }

  method CountAbsent(values: seq<string>, absent: set<string>) returns (n: nat)
    ensures n == |set i: nat | i < |values| && values[i] in absent|
  {
    n := 0;
    ghost var found: set<nat> := {};
    for i := 0 to |values|
      invariant found == set k: nat | k < i && values[k] in absent
      invariant n == |found|
    {
      if values[i] in absent {
        n := n + 1;
        found := found + {i};
      }
    }
  }

  /** One label: counted in the window and, if it is worth it, in the baseline. */
  method Consider(window: seq<Observation>, baseline: seq<Observation>, cfg: Config, names: seq<string>, text: string,
                  labelCount: nat, pooled: real)
    returns (c: Option<Candidate>)
    requires cfg.shrinkK > 0.0 && |names| <= |ReadBack(text)|
    requires labelCount == |LabelsIn(window, names)| && pooled == PooledRate(window, baseline)
    ensures c.Some? <==> Passes(window, baseline, cfg, names, ReadBack(text)[..|names|])
    ensures c.Some? ==>
              c.value.text == text && Describes(c.value, window, baseline, cfg, names, ReadBack(text)[..|names|])
  {
    hide AttemptSet, FailureSet, Bits.Bit, Excess, LabelsIn, PooledRate, ValuesOf, Split;
    var read := ValuesOf(Split(text));
    var values := read[..|names|];
    var w, cover := Count(window, names, values, cfg.failureOnly);
    if w.attempts < cfg.minAttempts || w.failures == 0 {
      return None;
    }
    if w.attempts == |window| && |names| == 1 && labelCount == 1 {
      return None;
    }
    var b, _ := Count(baseline, names, values, cfg.failureOnly);
    var excess := Excess(w, b, pooled, cfg.shrinkK);
    if excess <= 0.0 {
      return None;
    }
    var absent := CountAbsent(read, cfg.absenceValues);
    return Some(Candidate(text, w.signature, absent, |names|, w.attempts, excess, cover[..]));
  }

  ghost predicate AllSound(found: seq<Candidate>, tuples: seq<Tuple>, window: seq<Observation>,
                           baseline: seq<Observation>, cfg: Config)
    requires cfg.shrinkK > 0.0
  {
    |found| == |tuples| && forall k :: 0 <= k < |found| ==> Sound(found[k], tuples[k], window, baseline, cfg)
  }

  predicate DistinctTexts(found: seq<Candidate>) {
    forall i, j :: 0 <= i < j < |found| ==> found[i].text != found[j].text
  }

  predicate HasText(found: seq<Candidate>, text: string) {
    exists k :: 0 <= k < |found| && found[k].text == text
  }

  /** What a label is read back as passes the filters. */
  predicate PassesLabel(window: seq<Observation>, baseline: seq<Observation>, cfg: Config, names: seq<string>,
                        text: string)
    requires cfg.shrinkK > 0.0
  {
    |names| <= |ReadBack(text)| && Passes(window, baseline, cfg, names, ReadBack(text)[..|names|])
  }

  /** The labels of one set of dimensions, but for those seen before. */
  method CandidatesOf(window: seq<Observation>, baseline: seq<Observation>, cfg: Config, names: seq<string>,
                      seen: set<string>, pooled: real)
    returns (found: seq<Candidate>, ghost tuples: seq<Tuple>, after: set<string>)
    requires cfg.shrinkK > 0.0 && pooled == PooledRate(window, baseline) && forall n :: n in names ==> Plain(n)
    ensures after == seen + (set t | t in LabelsIn(window, names))
    ensures AllSound(found, tuples, window, baseline, cfg) && DistinctTexts(found) && |found| == |tuples|
    ensures forall k :: 0 <= k < |found| ==> tuples[k].names == names
    ensures forall text :: HasText(found, text)
                      <==> && text in LabelsIn(window, names) && text !in seen
                           && PassesLabel(window, baseline, cfg, names, text)
  {
    hide Passes, Describes, KeyFor, Known, AllSound, DistinctTexts, LabelsIn, LabelOf, ReadBack, HasText, Occurs;
    var labels := CollectLabels(window, names);
    LabelsInMeans(window, names);
    found, tuples, after := [], [], seen;
    NothingFound(window, baseline, cfg);
    for i := 0 to |labels|
      invariant after == seen + (set t | t in labels[..i])
      invariant AllSound(found, tuples, window, baseline, cfg) && DistinctTexts(found)
      invariant |found| == |tuples| && forall k :: 0 <= k < |found| ==> tuples[k].names == names
      invariant forall text :: HasText(found, text)
                          <==> text in labels[..i] && text !in seen && PassesLabel(window, baseline, cfg, names, text)
    {
      var text := labels[i];
      assert text in labels;
      assert labels[..i+1] == labels[..i] + [text] && text !in labels[..i];
      if text !in seen {
        after := after + {text};
        EnoughValues(window, names, text);
        var c := Consider(window, baseline, cfg, names, text, |labels|, pooled);
        if c.Some? {
          var t := Tuple(names, ReadBack(text)[..|names|]);
          OneMoreText(found, c.value);
          FoundOne(found, tuples, c.value, t, window, baseline, cfg);
          found, tuples := found + [c.value], tuples + [t];
        }
      }
    }
    assert labels[..|labels|] == labels;
  }

  lemma OneMoreText(found: seq<Candidate>, c: Candidate)
    ensures forall text :: HasText(found + [c], text) <==> HasText(found, text) || text == c.text
    ensures !HasText(found, c.text) ==> forall k :: 0 <= k < |found| ==> found[k].text != c.text
  {
    var more := found + [c];
    assert more[|found|] == c && forall k :: 0 <= k < |found| ==> more[k] == found[k];
    forall text | HasText(found, text)
      ensures HasText(more, text)
    {
      var k :| 0 <= k < |found| && found[k].text == text;
      assert more[k].text == text;
    }
  }

  lemma EnoughValues(window: seq<Observation>, names: seq<string>, text: string)
    requires Occurs(window, names, text) && forall n :: n in names ==> Plain(n)
    ensures |names| <= |ReadBack(text)|
  {
    var i :| 0 <= i < |window| && KeyFor(names, Dims(window[i], names)) == Some(text);
    LabelSplits(names, Known(Dims(window[i], names)).value);
  }

  lemma {:induction false} LabelsInMeans(window: seq<Observation>, names: seq<string>)
    ensures forall l :: l in LabelsIn(window, names) <==> Occurs(window, names, l)
    ensures Distinct(LabelsIn(window, names))
  {
    hide KeyFor, Dims;
    if window != [] {
      var front := window[..|window|-1];
      LabelsInMeans(front, names);
      forall l
        ensures Occurs(window, names, l)
           <==> Occurs(front, names, l) || KeyFor(names, Dims(window[|window|-1], names)) == Some(l)
      {
        assert forall i :: 0 <= i < |front| ==> window[i] == front[i];
      }
    }
  }

  lemma NothingFound(window: seq<Observation>, baseline: seq<Observation>, cfg: Config)
    requires cfg.shrinkK > 0.0
    ensures AllSound([], [], window, baseline, cfg) && DistinctTexts([]) && forall text :: !HasText([], text)
  {
  }

  lemma FoundOne(found: seq<Candidate>, tuples: seq<Tuple>, c: Candidate, t: Tuple,
                 window: seq<Observation>, baseline: seq<Observation>, cfg: Config)
    requires cfg.shrinkK > 0.0 && AllSound(found, tuples, window, baseline, cfg) && Sound(c, t, window, baseline, cfg)
    requires DistinctTexts(found) && forall k :: 0 <= k < |found| ==> found[k].text != c.text
    ensures AllSound(found + [c], tuples + [t], window, baseline, cfg) && DistinctTexts(found + [c])
  {
    hide Sound;
  }

  /** The first of these sets of dimensions under which a label occurs. */
  predicate FirstAt(window: seq<Observation>, combinations: seq<seq<string>>, a: nat, text: string) {
    a < |combinations| && Occurs(window, combinations[a], text) && !SeenIn(window, combinations[..a], text)
  }

  /** A label that should be a candidate: read back under the first dimensions it occurs under, it passes. */
  ghost predicate Expected(window: seq<Observation>, baseline: seq<Observation>, cfg: Config,
                     combinations: seq<seq<string>>, text: string)
    requires cfg.shrinkK > 0.0
  {
    exists a: nat :: FirstAt(window, combinations, a, text) && PassesLabel(window, baseline, cfg, combinations[a], text)
  }

  /** Each candidate is about the first dimensions its label occurs under. */
  ghost predicate UnderFirst(window: seq<Observation>, combinations: seq<seq<string>>,
                             candidates: seq<Candidate>, tuples: seq<Tuple>)
    requires |candidates| == |tuples|
  {
    forall k :: 0 <= k < |candidates| ==> IsFirst(window, combinations, candidates[k].text, tuples[k].names)
  }

  ghost predicate IsFirst(window: seq<Observation>, combinations: seq<seq<string>>, text: string, names: seq<string>) {
    exists a: nat :: FirstAt(window, combinations, a, text) && names == combinations[a]
  }

  /**
   * The candidates are those of the expected labels, each under the first dimensions its label
   * occurs under and counting what the label is read back as.
   */
  ghost predicate AreCandidates(candidates: seq<Candidate>, tuples: seq<Tuple>,
                                window: seq<Observation>, baseline: seq<Observation>, cfg: Config)
    requires cfg.shrinkK > 0.0
  {
    && AllSound(candidates, tuples, window, baseline, cfg)
    && UnderFirst(window, Combinations(cfg.dimensions, cfg.maxTupleSize), candidates, tuples)
    && OncePerLabel(candidates, window, baseline, cfg)
  }

  /** One candidate for each expected label, and no others. */
  ghost predicate OncePerLabel(candidates: seq<Candidate>, window: seq<Observation>, baseline: seq<Observation>,
                               cfg: Config)
    requires cfg.shrinkK > 0.0
  {
    && DistinctTexts(candidates)
    && forall text :: HasText(candidates, text)
                 <==> Expected(window, baseline, cfg, Combinations(cfg.dimensions, cfg.maxTupleSize), text)
  }

  /**
   * The candidates of an analysis, for any window: one for each label that occurs under at most
   * `maxTupleSize` dimensions and that passes the filters as it is read back, and no others.
   */
  method Candidates(window: seq<Observation>, baseline: seq<Observation>, cfg: Config)
    returns (candidates: seq<Candidate>, ghost tuples: seq<Tuple>)
    requires cfg.shrinkK > 0.0 && forall n :: n in cfg.dimensions ==> Plain(n)
    ensures OncePerLabel(candidates, window, baseline, cfg)
    ensures AreCandidates(candidates, tuples, window, baseline, cfg)
  {
    hide Combinations, AllSound, DistinctTexts, LabelsIn, Occurs;
    hide SeenIn, HasText, PassesLabel, UnderFirst, Expected, FirstAt;
    var combinations := Enumerate(cfg.dimensions, cfg.maxTupleSize);
    var pooled := PooledRate(window, baseline);
    candidates, tuples := [], [];
    var seen: set<string> := {};
    NothingFound(window, baseline, cfg);
    NothingSeen(window, baseline, cfg);
    for i := 0 to |combinations|
      invariant forall t :: t in seen <==> SeenIn(window, combinations[..i], t)
      invariant AllSound(candidates, tuples, window, baseline, cfg) && DistinctTexts(candidates)
      invariant |candidates| == |tuples| && UnderFirst(window, combinations[..i], candidates, tuples)
      invariant forall text :: HasText(candidates, text) <==> Expected(window, baseline, cfg, combinations[..i], text)
    {
      var names := combinations[i];
      TupleNames(cfg.dimensions, cfg.maxTupleSize, names);
      LabelsInMeans(window, names);
      var found, more, after := CandidatesOf(window, baseline, cfg, names, seen, pooled);
      forall t
        ensures t in after <==> SeenIn(window, combinations[..i+1], t)
        ensures FirstAt(window, combinations[..i+1], i, t) <==> Occurs(window, names, t) && t !in seen
        ensures Expected(window, baseline, cfg, combinations[..i+1], t)
           <==> || Expected(window, baseline, cfg, combinations[..i], t)
                || (Occurs(window, names, t) && t !in seen && PassesLabel(window, baseline, cfg, names, t))
      {
        SeenGrows(window, combinations, i, t);
        ExpectedGrows(window, baseline, cfg, combinations, i, t);
      }
      forall t | HasText(candidates, t)
        ensures t in seen
      {
        ExpectedIsSeen(window, baseline, cfg, combinations[..i], t);
      }
      UnderFirstGrows(window, combinations, i, candidates, tuples, found, more);
      TextsJoin(candidates, found);
      FoundMore(candidates, tuples, found, more, window, baseline, cfg);
      candidates, tuples, seen := candidates + found, tuples + more, after;
    }
    assert combinations[..|combinations|] == combinations;
  }

  lemma TextsJoin(a: seq<Candidate>, b: seq<Candidate>)
    ensures forall text :: HasText(a + b, text) <==> HasText(a, text) || HasText(b, text)
  {
    var ab := a + b;
    forall text
      ensures HasText(ab, text) <==> HasText(a, text) || HasText(b, text)
    {
      if HasText(a, text) {
        var k :| 0 <= k < |a| && a[k].text == text;
        assert ab[k].text == text;
      }
      if HasText(b, text) {
        var k :| 0 <= k < |b| && b[k].text == text;
        assert ab[|a| + k].text == text;
      }
    }
  }

  lemma ExpectedGrows(window: seq<Observation>, baseline: seq<Observation>, cfg: Config,
                      combinations: seq<seq<string>>, i: nat, t: string)
    requires cfg.shrinkK > 0.0 && i < |combinations|
    ensures FirstAt(window, combinations[..i+1], i, t)
       <==> Occurs(window, combinations[i], t) && !SeenIn(window, combinations[..i], t)
    ensures Expected(window, baseline, cfg, combinations[..i+1], t)
       <==> || Expected(window, baseline, cfg, combinations[..i], t)
            || (FirstAt(window, combinations[..i+1], i, t) && PassesLabel(window, baseline, cfg, combinations[i], t))
  {
    hide PassesLabel, Occurs, SeenIn;
    var longer, shorter := combinations[..i+1], combinations[..i];
    assert longer[..i] == shorter && longer[i] == combinations[i];
    forall a: nat | a < i
      ensures FirstAt(window, longer, a, t) <==> FirstAt(window, shorter, a, t)
    {
      assert longer[..a] == shorter[..a] && longer[a] == shorter[a];
    }
    if Expected(window, baseline, cfg, longer, t) {
      var a: nat :| FirstAt(window, longer, a, t) && PassesLabel(window, baseline, cfg, longer[a], t);
      assert a < i ==> FirstAt(window, shorter, a, t);
    }
    if Expected(window, baseline, cfg, shorter, t) {
      var a: nat :| FirstAt(window, shorter, a, t) && PassesLabel(window, baseline, cfg, shorter[a], t);
      assert FirstAt(window, longer, a, t) && longer[a] == shorter[a];
    }
    if FirstAt(window, longer, i, t) && PassesLabel(window, baseline, cfg, combinations[i], t) {
      assert PassesLabel(window, baseline, cfg, longer[i], t);
    }
  }

  lemma UnderFirstGrows(window: seq<Observation>, combinations: seq<seq<string>>, i: nat,
                        candidates: seq<Candidate>, tuples: seq<Tuple>, found: seq<Candidate>, more: seq<Tuple>)
    requires i < |combinations| && |candidates| == |tuples| && |found| == |more|
    requires UnderFirst(window, combinations[..i], candidates, tuples)
    requires forall k :: 0 <= k < |found| ==> more[k].names == combinations[i]
    requires forall t :: HasText(found, t) ==> FirstAt(window, combinations[..i+1], i, t)
    ensures UnderFirst(window, combinations[..i+1], candidates + found, tuples + more)
  {
    hide Occurs, SeenIn;
    var longer, shorter := combinations[..i+1], combinations[..i];
    var all, names := candidates + found, tuples + more;
    forall k | 0 <= k < |all|
      ensures IsFirst(window, longer, all[k].text, names[k].names)
    {
      if k < |candidates| {
        assert IsFirst(window, shorter, candidates[k].text, tuples[k].names);
        var a: nat :| FirstAt(window, shorter, a, candidates[k].text) && tuples[k].names == shorter[a];
        assert longer[..a] == shorter[..a] && longer[a] == shorter[a];
        assert FirstAt(window, longer, a, all[k].text) && names[k].names == longer[a];
      } else {
        HasItsText(found, k - |candidates|);
        assert FirstAt(window, longer, i, all[k].text) && names[k].names == longer[i];
      }
    }
  }

  lemma ExpectedIsSeen(window: seq<Observation>, baseline: seq<Observation>, cfg: Config,
                       combinations: seq<seq<string>>, t: string)
    requires cfg.shrinkK > 0.0 && Expected(window, baseline, cfg, combinations, t)
    ensures SeenIn(window, combinations, t)
  {
    hide Occurs, PassesLabel;
  }

  lemma NothingSeen(window: seq<Observation>, baseline: seq<Observation>, cfg: Config)
    requires cfg.shrinkK > 0.0
    ensures forall t :: !SeenIn(window, [], t) && !Expected(window, baseline, cfg, [], t)
    ensures UnderFirst(window, [], [], [])
  {
  }

  lemma FoundMore(found: seq<Candidate>, tuples: seq<Tuple>, more: seq<Candidate>, moreTuples: seq<Tuple>,
                  window: seq<Observation>, baseline: seq<Observation>, cfg: Config)
    requires cfg.shrinkK > 0.0
    requires AllSound(found, tuples, window, baseline, cfg) && AllSound(more, moreTuples, window, baseline, cfg)
    requires DistinctTexts(found) && DistinctTexts(more)
    requires forall text :: HasText(found, text) ==> !HasText(more, text)
    ensures AllSound(found + more, tuples + moreTuples, window, baseline, cfg) && DistinctTexts(found + more)
  {
    hide Sound, HasText;
    var all := found + more;
    forall i, j | 0 <= i < j < |all|
      ensures all[i].text != all[j].text
    {
      if i < |found| <= j {
        HasItsText(found, i);
        HasItsText(more, j - |found|);
      }
    }
  }

  lemma HasItsText(found: seq<Candidate>, k: nat)
    requires k < |found|
    ensures HasText(found, found[k].text)
  {
  }

  predicate SeenIn(window: seq<Observation>, combinations: seq<seq<string>>, t: string) {
    exists a :: 0 <= a < |combinations| && Occurs(window, combinations[a], t)
  }

  lemma SeenGrows(window: seq<Observation>, combinations: seq<seq<string>>, i: nat, t: string)
    requires i < |combinations|
    ensures SeenIn(window, combinations[..i+1], t)
       <==> SeenIn(window, combinations[..i], t) || Occurs(window, combinations[i], t)
  {
    hide Occurs;
    if SeenIn(window, combinations[..i+1], t) {
      var a :| 0 <= a < i + 1 && Occurs(window, combinations[..i+1][a], t);
      assert a < i ==> combinations[..i][a] == combinations[..i+1][a];
    }
    if SeenIn(window, combinations[..i], t) {
      var a :| 0 <= a < i && Occurs(window, combinations[..i][a], t);
      assert combinations[..i+1][a] == combinations[..i][a];
    }
    assert combinations[..i+1][i] == combinations[i];
  }

  lemma {:induction false} SubsequenceNames(dims: seq<string>, start: nat, c: seq<string>)
    requires start <= |dims| && Subsequence(dims, start, c)
    ensures forall n :: n in c ==> n in dims
    decreases |dims| - start
  {
    if c != [] {
      if dims[start] == c[0] && Subsequence(dims, start + 1, c[1..]) {
        SubsequenceNames(dims, start + 1, c[1..]);
        assert forall n :: n in c ==> n == c[0] || n in c[1..];
      } else {
        SubsequenceNames(dims, start + 1, c);
      }
    }
  }

  lemma TupleNames(dims: seq<string>, max: nat, names: seq<string>)
    requires names in Combinations(dims, max)
    ensures names != [] && forall n :: n in names ==> n in dims
  {
    EveryTupleOnce(dims, max, names);
    SubsequenceNames(dims, 0, names);
  }

  /** A label seen under earlier dimensions does not occur under later ones. */
  lemma Unseen(window: seq<Observation>, dims: seq<string>, max: nat, combinations: seq<seq<string>>, i: nat, t: string)
    requires Readable(dims, window) && Distinct(dims) && combinations == Combinations(dims, max) && i < |combinations|
    requires SeenIn(window, combinations[..i], t)
    ensures !Occurs(window, combinations[i], t)
  {
    hide Occurs, Readable, Walks;
    var a :| 0 <= a < i && Occurs(window, combinations[..i][a], t);
    EveryTupleOnce(dims, max, []);
    assert combinations[a] != combinations[i];
    TupleNames(dims, max, combinations[a]);
    TupleNames(dims, max, combinations[i]);
    if Occurs(window, combinations[i], t) {
      LabelsDiffer(window, dims, combinations[a], combinations[i], t);
    }
  }

  // ---- Which tuples become candidates ----

  /** A tuple that occurs in the window and passes the filters. */
  ghost predicate Wanted(window: seq<Observation>, baseline: seq<Observation>, cfg: Config, names: seq<string>,
                         values: seq<string>)
    requires cfg.shrinkK > 0.0
  {
    && |values| == |names| && Behind(window, names, values, LabelOf(names, values))
    && Passes(window, baseline, cfg, names, values)
  }

  /** A tuple is a candidate, under its own label and counted as itself. */
  ghost predicate IsCandidate(candidates: seq<Candidate>, tuples: seq<Tuple>, names: seq<string>, values: seq<string>)
    requires |candidates| == |tuples| && |names| == |values|
  {
    exists k ::
      0 <= k < |candidates| && candidates[k].text == LabelOf(names, values) && tuples[k] == Tuple(names, values)
  }

  lemma BehindOccurs(window: seq<Observation>, names: seq<string>, values: seq<string>)
    requires |values| == |names| && Behind(window, names, values, LabelOf(names, values))
    ensures Occurs(window, names, LabelOf(names, values))
  {
    hide LabelOf;
    var i :| 0 <= i < |window| && Known(Dims(window[i], names)) == Some(values);
    assert KeyFor(names, Dims(window[i], names)) == Some(LabelOf(names, values));
  }

  /**
   * A tuple that occurs and passes the filters becomes a candidate exactly when its label gives its
   * values back and occurs under no dimensions tried before.
   */
  lemma WhenTupleIsCandidate(window: seq<Observation>, baseline: seq<Observation>, cfg: Config, a: nat,
                             values: seq<string>,
                             candidates: seq<Candidate>, tuples: seq<Tuple>)
    requires cfg.shrinkK > 0.0 && Distinct(cfg.dimensions) && forall n :: n in cfg.dimensions ==> Plain(n)
    requires AreCandidates(candidates, tuples, window, baseline, cfg)
    requires a < |Combinations(cfg.dimensions, cfg.maxTupleSize)|
    requires Wanted(window, baseline, cfg, Combinations(cfg.dimensions, cfg.maxTupleSize)[a], values)
    ensures var combinations := Combinations(cfg.dimensions, cfg.maxTupleSize);
            && combinations[a] != []
            && (IsCandidate(candidates, tuples, combinations[a], values)
                <==> && Clean(Parts(combinations[a], values))
                     && !SeenIn(window, combinations[..a], LabelOf(combinations[a], values)))
  {
    hide Combinations, Sound, Passes, Occurs, SeenIn, HasText, Clean, LabelOf, ReadBack, Behind;
    var combinations := Combinations(cfg.dimensions, cfg.maxTupleSize);
    var names := combinations[a];
    var text := LabelOf(names, values);
    TupleNames(cfg.dimensions, cfg.maxTupleSize, names);
    assert forall i :: 0 <= i < |names| ==> names[i] in names;
    OwnLabelTells(names, values);
    BehindOccurs(window, names, values);
    if IsCandidate(candidates, tuples, names, values) {
      var k :| 0 <= k < |candidates| && candidates[k].text == text && tuples[k] == Tuple(names, values);
      SoundReads(candidates[k], tuples[k], window, baseline, cfg);
      assert IsFirst(window, combinations, text, names);
      var b: nat :| FirstAt(window, combinations, b, text) && names == combinations[b];
      SameCombination(cfg, a, b);
    }
    if Clean(Parts(names, values)) && !SeenIn(window, combinations[..a], text) {
      assert FirstAt(window, combinations, a, text);
      assert PassesLabel(window, baseline, cfg, combinations[a], text);
      assert HasText(candidates, text);
      var k := TextAt(candidates, text);
      SoundReads(candidates[k], tuples[k], window, baseline, cfg);
      assert IsFirst(window, combinations, text, tuples[k].names);
      var b: nat :| FirstAt(window, combinations, b, text) && tuples[k].names == combinations[b];
      OnlyFirst(window, combinations, a, b, text);
      assert tuples[k] == Tuple(names, values);
    }
  }

  lemma TextAt(candidates: seq<Candidate>, text: string) returns (k: nat)
    requires HasText(candidates, text)
    ensures k < |candidates| && candidates[k].text == text
  {
    k :| 0 <= k < |candidates| && candidates[k].text == text;
  }

  lemma OwnLabelTells(names: seq<string>, values: seq<string>)
    requires |names| == |values| > 0 && forall i :: 0 <= i < |names| ==> Plain(names[i])
    ensures |names| <= |ReadBack(LabelOf(names, values))|
    ensures Reads(names, values, LabelOf(names, values)) <==> Clean(Parts(names, values))
  {
    FirstValuesTell(names, values);
  }

  lemma SoundReads(c: Candidate, t: Tuple, window: seq<Observation>, baseline: seq<Observation>, cfg: Config)
    requires cfg.shrinkK > 0.0 && Sound(c, t, window, baseline, cfg)
    ensures Reads(t.names, t.values, c.text)
  {
  }

  lemma SameCombination(cfg: Config, a: nat, b: nat)
    requires Distinct(cfg.dimensions)
    requires a < |Combinations(cfg.dimensions, cfg.maxTupleSize)|
    requires b < |Combinations(cfg.dimensions, cfg.maxTupleSize)|
    requires Combinations(cfg.dimensions, cfg.maxTupleSize)[a] == Combinations(cfg.dimensions, cfg.maxTupleSize)[b]
    ensures a == b
  {
    hide Combinations, Walks;
    EveryTupleOnce(cfg.dimensions, cfg.maxTupleSize, []);
  }

  lemma OnlyFirst(window: seq<Observation>, combinations: seq<seq<string>>, a: nat, b: nat, text: string)
    requires FirstAt(window, combinations, a, text) && FirstAt(window, combinations, b, text)
    ensures a == b
  {
    hide Occurs;
  }

  /** In a window that no separator can be read into, every tuple that occurs and passes becomes a candidate. */
  lemma EveryTupleIsCandidate(window: seq<Observation>, baseline: seq<Observation>, cfg: Config, a: nat,
                              values: seq<string>,
                              candidates: seq<Candidate>, tuples: seq<Tuple>)
    requires cfg.shrinkK > 0.0 && Distinct(cfg.dimensions) && Readable(cfg.dimensions, window)
    requires AreCandidates(candidates, tuples, window, baseline, cfg)
    requires a < |Combinations(cfg.dimensions, cfg.maxTupleSize)|
    requires Wanted(window, baseline, cfg, Combinations(cfg.dimensions, cfg.maxTupleSize)[a], values)
    ensures IsCandidate(candidates, tuples, Combinations(cfg.dimensions, cfg.maxTupleSize)[a], values)
  {
    hide Combinations, Sound, UnderFirst, Expected, HasText, Passes, SeenIn, Occurs, LabelOf;
    var combinations := Combinations(cfg.dimensions, cfg.maxTupleSize);
    var names := combinations[a];
    TupleNames(cfg.dimensions, cfg.maxTupleSize, names);
    WhenTupleIsCandidate(window, baseline, cfg, a, values, candidates, tuples);
    LabelReadsBack(window, cfg.dimensions, names, values);
    SplitInvertsJoin(Parts(names, values));
    LabelIsJoin(names, values);
    BehindOccurs(window, names, values);
    if SeenIn(window, combinations[..a], LabelOf(names, values)) {
      Unseen(window, cfg.dimensions, cfg.maxTupleSize, combinations, a, LabelOf(names, values));
    }
  }

  lemma LabelIsJoin(names: seq<string>, values: seq<string>)
    requires |names| == |values|
    ensures LabelOf(names, values) == Join(Parts(names, values))
  {
  }

  // ---- The whole analysis, up to its ranking ----

  /** What every candidate of one window has in common: its cover is the attempts of its signature. */
  ghost predicate CoversSignature(c: Candidate, words: nat) {
    |c.cover| == words && forall i: nat :: Bits.Bit(c.cover, i) <==> i in c.signature.attempts
  }

  lemma SoundCovers(c: Candidate, t: Tuple, window: seq<Observation>, baseline: seq<Observation>, cfg: Config)
    requires cfg.shrinkK > 0.0 && Sound(c, t, window, baseline, cfg)
    ensures CoversSignature(c, Words(window)) && c.attempts == |c.signature.attempts|
  {
    hide Passes, Excess, PooledRate, Bits.Bit, AttemptSet, FailureSet, LabelOf;
  }

  lemma AllCover(found: seq<Candidate>, tuples: seq<Tuple>, window: seq<Observation>, baseline: seq<Observation>,
                 cfg: Config)
    requires cfg.shrinkK > 0.0 && AreCandidates(found, tuples, window, baseline, cfg)
    ensures forall k :: 0 <= k < |found| ==>
              CoversSignature(found[k], Words(window)) && found[k].attempts == |found[k].signature.attempts|
  {
    hide Sound, CoversSignature, UnderFirst, Expected, HasText, Combinations;
    forall k | 0 <= k < |found|
      ensures CoversSignature(found[k], Words(window)) && found[k].attempts == |found[k].signature.attempts|
    {
      SoundCovers(found[k], tuples[k], window, baseline, cfg);
    }
  }

  /** Candidates of the same payments are inside one another. */
  lemma SameSignatureInside(a: Candidate, b: Candidate, words: nat)
    requires CoversSignature(a, words) && CoversSignature(b, words) && a.signature == b.signature
    ensures Inside(a.cover, b.cover)
  {
    hide Bits.Bit;
  }

  /** A survivor inside a candidate, with threshold^drops of the excess of the name kept for its payments. */
  ghost predicate Accounts(s: Candidate, c: Candidate, best: Candidate, threshold: real, drops: nat) {
    Inside(s.cover, c.cover) && s.attempts + drops <= c.attempts && AtLeast(s.excess, best.excess, threshold, drops)
  }

  /** Some survivor accounts for the candidate through the name that is kept for its payments. */
  ghost predicate AccountedFor(c: Candidate, candidates: seq<Candidate>, surviving: seq<Candidate>, threshold: real) {
    && BestNamed(candidates, c.signature).Some?
    && exists s, drops: nat ::
         s in surviving && Accounts(s, c, BestNamed(candidates, c.signature).value, threshold, drops)
  }

  /** The candidates that are left: one per set of payments, none explained by another. */
  method Analyse(window: seq<Observation>, baseline: seq<Observation>, cfg: Config, threshold: real)
    returns (candidates: seq<Candidate>, surviving: seq<Candidate>, ghost tuples: seq<Tuple>)
    requires cfg.shrinkK > 0.0 && threshold >= 0.0 && forall n :: n in cfg.dimensions ==> Plain(n)
    ensures OncePerLabel(candidates, window, baseline, cfg)
    ensures AreCandidates(candidates, tuples, window, baseline, cfg)
    ensures forall s :: s in surviving ==> s in candidates
    ensures forall c :: c in candidates ==> AccountedFor(c, candidates, surviving, threshold)
  {
    hide AreCandidates, OncePerLabel, Sound, Passes, Expected, HasText, UnderFirst, AllSound, DistinctTexts;
    hide Inside, CoversSignature, Survives, FirstSeen, Combinations, BestNamed, PooledRate, LabelsIn, AccountedFor;
    var found, occurring := Candidates(window, baseline, cfg);
    candidates, tuples := found, occurring;
    ghost var words := Words(window);
    AllCover(found, tuples, window, baseline, cfg);
    var order, bySet := Collapse(found);
    var kept: seq<Candidate> := [];
    for i := 0 to |order|
      invariant |kept| == i && forall k :: 0 <= k < i ==> kept[k] == bySet[order[k]]
    {
      assert order[i] in order;
      kept := kept + [bySet[order[i]]];
    }
    forall k | 0 <= k < |kept|
      ensures kept[k] in found && kept[k].signature == order[k]
    {
      BestIsCandidate(found, order[k]);
    }
    SameWords(kept, words);
    var positions := Prune(kept, threshold);
    assert forall k :: 0 <= k < |positions| ==> positions[k] in positions;
    surviving := Pick(kept, positions);
    forall c | c in found
      ensures AccountedFor(c, candidates, surviving, threshold)
    {
      SignatureIsSeen(found, c);
      var k :| 0 <= k < |order| && order[k] == c.signature;
      var s, drops := SurvivorFor(kept, threshold, k, c, words);
      var p :| 0 <= p < |positions| && positions[p] == s;
      assert kept[positions[p]] in surviving;
      ItAccounts(c, candidates, surviving, threshold, kept[k], kept[s], drops);
    }
  }

  lemma ItAccounts(c: Candidate, candidates: seq<Candidate>, surviving: seq<Candidate>, threshold: real,
                   best: Candidate, s: Candidate, drops: nat)
    requires BestNamed(candidates, c.signature) == Some(best)
    requires s in surviving && Accounts(s, c, best, threshold, drops)
    ensures AccountedFor(c, candidates, surviving, threshold)
  {
    hide Accounts;
  }

  lemma SurvivorFor(kept: seq<Candidate>, threshold: real, k: nat, c: Candidate, words: nat) returns (s: nat,
                    drops: nat)
    requires k < |kept| && threshold >= 0.0 && kept[k].signature == c.signature
    requires CoversSignature(kept[k], words) && CoversSignature(c, words)
    requires kept[k].attempts == |kept[k].signature.attempts| && c.attempts == |c.signature.attempts|
    ensures s < |kept| && Survives(kept, threshold, s) && Accounts(kept[s], c, kept[k], threshold, drops)
  {
    hide Survives, Inside, CoversSignature, AtLeast;
    s, drops := SurvivorInside(kept, threshold, k);
    SameSignatureInside(kept[k], c, words);
    InsideInside(kept[s].cover, kept[k].cover, c.cover);
  }

  lemma SameWords(kept: seq<Candidate>, words: nat)
    requires forall k :: 0 <= k < |kept| ==> CoversSignature(kept[k], words)
    ensures SameWindow(kept)
  {
  }

  lemma BestIsCandidate(candidates: seq<Candidate>, s: Signature)
    ensures BestNamed(candidates, s).Some? ==>
              BestNamed(candidates, s).value in candidates && BestNamed(candidates, s).value.signature == s
  {
    BestNamedMeans(candidates, s);
  }

  lemma SignatureIsSeen(candidates: seq<Candidate>, c: Candidate)
    requires c in candidates
    ensures c.signature in FirstSeen(candidates)
  {
  }

  method Pick(kept: seq<Candidate>, positions: seq<nat>) returns (picked: seq<Candidate>)
    requires forall k :: 0 <= k < |positions| ==> positions[k] < |kept|
    ensures forall c :: c in picked <==> exists k :: 0 <= k < |positions| && kept[positions[k]] == c
  {
    picked := [];
    for i := 0 to |positions|
      invariant forall c :: c in picked <==> exists k :: 0 <= k < i && kept[positions[k]] == c
    {
      picked := picked + [kept[positions[i]]];
    }
  }

  // ---- Names of one set of payments ----

  /** What a tuple is expected to fail at. */
  function BaselineRate(t: Tuple, window: seq<Observation>, baseline: seq<Observation>, cfg: Config): real
    requires cfg.shrinkK > 0.0 && |t.names| == |t.values|
  {
    ExpectedRate(CountsOf(baseline, t.names, t.values, cfg.failureOnly), PooledRate(window, baseline), cfg.shrinkK)
  }

  /**
   * Two names of the same payments have the same counts in the window; in the baseline they are
   * different slices. The one has at least the other's excess exactly when its shrunk baseline rate
   * is not above the other's.
   */
  lemma TwinsByBaseline(b: Candidate, bt: Tuple, c: Candidate, ct: Tuple,
                        window: seq<Observation>, baseline: seq<Observation>, cfg: Config)
    requires cfg.shrinkK > 0.0 && b.signature == c.signature
    requires Sound(b, bt, window, baseline, cfg) && Sound(c, ct, window, baseline, cfg)
    ensures |bt.names| == |bt.values| && |ct.names| == |ct.values| && b.attempts == c.attempts
    ensures b.excess >= c.excess <==> BaselineRate(bt, window, baseline, cfg) <= BaselineRate(ct, window, baseline, cfg)
  {
    hide Sound, CountsOf, BaselineRate;
    HasAttempt(b, bt, window, baseline, cfg);
    ExcessOf(b, bt, window, baseline, cfg);
    ExcessOf(c, ct, window, baseline, cfg);
    SameCounts(b, bt, c, ct, window, baseline, cfg);
    Ordered(CountsOf(window, bt.names, bt.values, cfg.failureOnly), BaselineRate(bt, window, baseline, cfg),
            BaselineRate(ct, window, baseline, cfg));
  }

  lemma ExcessOf(c: Candidate, t: Tuple, window: seq<Observation>, baseline: seq<Observation>, cfg: Config)
    requires cfg.shrinkK > 0.0 && Sound(c, t, window, baseline, cfg)
    ensures |t.names| == |t.values|
    ensures var w := CountsOf(window, t.names, t.values, cfg.failureOnly);
            c.attempts == w.attempts && c.excess == w.failures as real
                                                   - w.attempts as real * BaselineRate(t, window, baseline, cfg)
  {
    hide Occurs, Reads, ReadBack, Bits.Bit, PooledRate, ExpectedRate, Passes;
  }

  lemma SameCounts(b: Candidate, bt: Tuple, c: Candidate, ct: Tuple,
                   window: seq<Observation>, baseline: seq<Observation>, cfg: Config)
    requires cfg.shrinkK > 0.0 && b.signature == c.signature
    requires Sound(b, bt, window, baseline, cfg) && Sound(c, ct, window, baseline, cfg)
    ensures |bt.names| == |bt.values| && |ct.names| == |ct.values|
    ensures CountsOf(window, bt.names, bt.values, cfg.failureOnly)
         == CountsOf(window, ct.names, ct.values, cfg.failureOnly)
  {
    hide Occurs, Reads, ReadBack, Bits.Bit, PooledRate, Excess, Passes;
  }

  lemma HasAttempt(c: Candidate, t: Tuple, window: seq<Observation>, baseline: seq<Observation>, cfg: Config)
    requires cfg.shrinkK > 0.0 && Sound(c, t, window, baseline, cfg)
    ensures |t.names| == |t.values| && CountsOf(window, t.names, t.values, cfg.failureOnly).attempts > 0
  {
    hide Occurs, Reads, Describes, PooledRate, Excess, LabelsIn, AttemptSet, FailureSet;
    SomeAttempt(window, t.names, t.values, cfg.failureOnly);
  }

  lemma Ordered(w: Counts, p: real, q: real)
    requires w.attempts > 0
    ensures w.failures as real - w.attempts as real * p >= w.failures as real - w.attempts as real * q <==> p <= q
  {
    Scaled(w.attempts as real, p, q);
  }

  lemma Scaled(n: real, p: real, q: real)
    requires n > 0.0
    ensures n * p <= n * q <==> p <= q
  {
  }

  /** A slice with a failure has an attempt. */
  lemma SomeAttempt(obs: seq<Observation>, names: seq<string>, values: seq<string>, failureOnly: set<string>)
    requires |names| == |values|
    ensures |FailureSet(obs, names, values)| > 0 ==> |AttemptSet(obs, names, values, failureOnly)| > 0
  {
    if |FailureSet(obs, names, values)| > 0 {
      var i :| i in FailureSet(obs, names, values);
      assert i in AttemptSet(obs, names, values, failureOnly);
    }
  }

  /** So the bound carries over to a candidate whose payments are kept under a name with no higher baseline rate. */
  lemma BoundCarries(s: Candidate, c: Candidate, best: Candidate, threshold: real, drops: nat)
    requires Accounts(s, c, best, threshold, drops) && threshold >= 0.0 && best.excess >= c.excess
    ensures AtLeast(s.excess, c.excess, threshold, drops)
  {
    PowerPositive(threshold, drops);
    Product(best.excess - c.excess, Power(threshold, drops));
    assert best.excess * Power(threshold, drops)
        == c.excess * Power(threshold, drops) + (best.excess - c.excess) * Power(threshold, drops);
  }
}
