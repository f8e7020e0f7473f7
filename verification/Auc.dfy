/**
 * AUC (apps/api/src/ml/logistic.ts:140-177): sorted negatives and two binary searches per
 * positive, against the pairwise Mann-Whitney count.
 */
module Auc {
  import opened Wrappers

  // ---- The statistic, pair by pair ----

  /** What a positive scores against one negative: a win, a tie at half, or nothing. */
  function Duel(p: real, n: real): real {
    if n < p then 1.0 else if n == p then 0.5 else 0.0
  }

  function AgainstAll(p: real, neg: seq<real>): real {
    if neg == [] then 0.0 else AgainstAll(p, neg[..|neg|-1]) + Duel(p, neg[|neg|-1])
  }

  function MannWhitney(pos: seq<real>, neg: seq<real>): real {
    if pos == [] then 0.0 else MannWhitney(pos[..|pos|-1], neg) + AgainstAll(pos[|pos|-1], neg)
  }

  /** A score counts as positive when its label is 1; a missing label is not. */
  predicate Positive(labels: seq<int>, i: nat) {
    i < |labels| && labels[i] == 1
  }

  function Select(scores: seq<real>, labels: seq<int>, positive: bool): seq<real> {
    if scores == [] then []
    else
      var k := |scores| - 1;
      var front := Select(scores[..k], labels, positive);
      if Positive(labels, k) == positive then front + [scores[k]] else front
  }

  function AucOf(scores: seq<real>, labels: seq<int>): Option<real> {
    var pos, neg := Select(scores, labels, true), Select(scores, labels, false);
    if pos == [] || neg == [] then None else Some(MannWhitney(pos, neg) / (|pos| * |neg|) as real)
  }

  // ---- The computation ----

  predicate Ascending(a: seq<real>) {
    forall i, j :: 0 <= i < j < |a| ==> a[i] <= a[j]
  }

  function Insert(x: real, a: seq<real>): seq<real> {
    if a == [] || a[|a|-1] <= x then a + [x] else Insert(x, a[..|a|-1]) + [a[|a|-1]]
  }

  function Sort(a: seq<real>): seq<real> {
    if a == [] then [] else Insert(a[|a|-1], Sort(a[..|a|-1]))
  }

  method LowerBound(a: seq<real>, x: real) returns (lo: nat)
    requires Ascending(a)
    ensures lo <= |a|
    ensures forall i :: 0 <= i < lo ==> a[i] < x
    ensures forall i :: lo <= i < |a| ==> x <= a[i]
  {
    lo := 0;
    var hi := |a|;
    while lo < hi
      invariant lo <= hi <= |a|
      invariant forall i :: 0 <= i < lo ==> a[i] < x
      invariant forall i :: hi <= i < |a| ==> x <= a[i]
    {
      var mid := (lo + hi) / 2;
      if a[mid] < x {
        lo := mid + 1;
      } else {
        hi := mid;
      }
    }
  }

  method UpperBound(a: seq<real>, x: real) returns (lo: nat)
    requires Ascending(a)
    ensures lo <= |a|
    ensures forall i :: 0 <= i < lo ==> a[i] <= x
    ensures forall i :: lo <= i < |a| ==> x < a[i]
  {
    lo := 0;
    var hi := |a|;
    while lo < hi
      invariant lo <= hi <= |a|
      invariant forall i :: 0 <= i < lo ==> a[i] <= x
      invariant forall i :: hi <= i < |a| ==> x < a[i]
    {
      var mid := (lo + hi) / 2;
      if a[mid] <= x {
        lo := mid + 1;
      } else {
        hi := mid;
      }
    }
  }

  method Split(scores: seq<real>, labels: seq<int>) returns (pos: seq<real>, neg: seq<real>)
    ensures pos == Select(scores, labels, true) && neg == Select(scores, labels, false)
  {
    pos, neg := [], [];
    for i := 0 to |scores|
      invariant pos == Select(scores[..i], labels, true) && neg == Select(scores[..i], labels, false)
    {
      assert scores[..i+1][..i] == scores[..i];
      if i < |labels| && labels[i] == 1 {
        pos := pos + [scores[i]];
      } else {
        neg := neg + [scores[i]];
      }
    }
    assert scores[..|scores|] == scores;
  }

  method Compute(scores: seq<real>, labels: seq<int>) returns (auc: Option<real>)
    ensures auc == AucOf(scores, labels)
  {
    hide AgainstAll, Sort, Select;
    var pos, neg := Split(scores, labels);
    if |pos| == 0 || |neg| == 0 {
      return None;
    }

    var sorted := Sort(neg);
    SortAscends(neg);
    var sum := 0.0;
    for i := 0 to |pos|
      invariant sum == MannWhitney(pos[..i], neg)
    {
      assert pos[..i+1][..i] == pos[..i];
      var below := LowerBound(sorted, pos[i]);
      var upTo := UpperBound(sorted, pos[i]);
      SearchCounts(sorted, pos[i], below, upTo);
      SortKeepsCount(pos[i], neg);
      sum := sum + (below as real + (upTo - below) as real * 0.5);
    }
    assert pos[..|pos|] == pos;
    return Some(sum / (|pos| * |neg|) as real);
  }

  // ---- Why the searches count the pairs ----

  lemma {:induction false} InsertAscends(x: real, a: seq<real>)
    requires Ascending(a)
    ensures Ascending(Insert(x, a))
    ensures forall y :: y in Insert(x, a) ==> y == x || y in a
  {
    if a != [] && a[|a|-1] > x {
      var front := Insert(x, a[..|a|-1]);
      InsertAscends(x, a[..|a|-1]);
      forall i | 0 <= i < |front|
        ensures front[i] <= a[|a|-1]
      {
        assert front[i] in front;
      }
    }
  }

  lemma {:induction false} SortAscends(a: seq<real>)
    ensures Ascending(Sort(a))
  {
    if a != [] {
      SortAscends(a[..|a|-1]);
      InsertAscends(a[|a|-1], Sort(a[..|a|-1]));
    }
  }

  lemma AgainstAppend(p: real, a: seq<real>, n: real)
    ensures AgainstAll(p, a + [n]) == AgainstAll(p, a) + Duel(p, n)
  {
    assert (a + [n])[..|a|] == a;
  }

  lemma {:induction false} InsertKeepsCount(p: real, x: real, a: seq<real>)
    ensures AgainstAll(p, Insert(x, a)) == AgainstAll(p, a) + Duel(p, x)
  {
    if a == [] || a[|a|-1] <= x {
      AgainstAppend(p, a, x);
    } else {
      InsertKeepsCount(p, x, a[..|a|-1]);
      AgainstAppend(p, Insert(x, a[..|a|-1]), a[|a|-1]);
    }
  }

  lemma {:induction false} SortKeepsCount(p: real, a: seq<real>)
    ensures AgainstAll(p, Sort(a)) == AgainstAll(p, a)
  {
    if a != [] {
      SortKeepsCount(p, a[..|a|-1]);
      InsertKeepsCount(p, a[|a|-1], Sort(a[..|a|-1]));
    }
  }

  /** Strictly below count one, ties count half, the rest nothing. */
  lemma {:induction false} SearchCounts(a: seq<real>, p: real, below: nat, upTo: nat)
    requires below <= |a| && upTo <= |a|
    requires forall i :: 0 <= i < below ==> a[i] < p
    requires forall i :: below <= i < |a| ==> p <= a[i]
    requires forall i :: 0 <= i < upTo ==> a[i] <= p
    requires forall i :: upTo <= i < |a| ==> p < a[i]
    ensures below <= upTo && AgainstAll(p, a) == below as real + (upTo - below) as real * 0.5
  {
    assert upTo < |a| ==> p < a[upTo];
    if a != [] {
      var k := |a| - 1;
      if k < below {
        SearchCounts(a[..k], p, k, k);
      } else if k < upTo {
        SearchCounts(a[..k], p, below, k);
      } else {
        SearchCounts(a[..k], p, below, upTo);
      }
    }
  }

  // ---- What the statistic is ----

  lemma {:induction false} CountBounds(pos: seq<real>, neg: seq<real>)
    ensures 0.0 <= MannWhitney(pos, neg) <= (|pos| * |neg|) as real
  {
    if pos != [] {
      var k := |pos| - 1;
      CountBounds(pos[..k], neg);
      AgainstBounds(pos[k], neg);
      assert |pos| * |neg| == k * |neg| + |neg|;
    }
  }

  lemma {:induction false} AgainstBounds(p: real, neg: seq<real>)
    ensures 0.0 <= AgainstAll(p, neg) <= |neg| as real
  {
    if neg != [] {
      AgainstBounds(p, neg[..|neg|-1]);
    }
  }

  lemma Fraction(x: real, d: real)
    requires d > 0.0 && 0.0 <= x <= d
    ensures 0.0 <= x / d <= 1.0
  {
  }

  /** It is a probability, and there is none when a class is empty. */
  lemma AucIsProbability(scores: seq<real>, labels: seq<int>)
    ensures AucOf(scores, labels).Some? ==> 0.0 <= AucOf(scores, labels).value <= 1.0
    ensures AucOf(scores, labels).None?
        <==> || (forall i :: 0 <= i < |scores| ==> !Positive(labels, i))
             || (forall i :: 0 <= i < |scores| ==> Positive(labels, i))
  {
    var pos, neg := Select(scores, labels, true), Select(scores, labels, false);
    SelectEmpty(scores, labels, true);
    SelectEmpty(scores, labels, false);
    if pos != [] && neg != [] {
      CountBounds(pos, neg);
      assert |pos| * |neg| > 0;
      Fraction(MannWhitney(pos, neg), (|pos| * |neg|) as real);
    }
  }

  lemma {:induction false} SelectEmpty(scores: seq<real>, labels: seq<int>, positive: bool)
    ensures Select(scores, labels, positive) == [] <==> forall i :: 0 <= i < |scores| ==>
                                                          Positive(labels, i) != positive
  {
    if scores != [] {
      SelectEmpty(scores[..|scores|-1], labels, positive);
    }
  }

  function Map(f: real -> real, s: seq<real>): (r: seq<real>)
    ensures |r| == |s| && forall i :: 0 <= i < |s| ==> r[i] == f(s[i])
  {
    seq(|s|, i requires 0 <= i < |s| => f(s[i]))
  }

  ghost predicate StrictlyIncreasing(f: real -> real) {
    forall x, y :: x < y ==> f(x) < f(y)
  }

  lemma {:induction false} SelectMaps(f: real -> real, scores: seq<real>, labels: seq<int>, positive: bool)
    ensures Select(Map(f, scores), labels, positive) == Map(f, Select(scores, labels, positive))
  {
    if scores != [] {
      var k := |scores| - 1;
      SelectMaps(f, scores[..k], labels, positive);
      assert Map(f, scores)[..k] == Map(f, scores[..k]);
    }
  }

  lemma {:induction false} AgainstMaps(f: real -> real, p: real, neg: seq<real>)
    requires StrictlyIncreasing(f)
    ensures AgainstAll(f(p), Map(f, neg)) == AgainstAll(p, neg)
  {
    if neg != [] {
      var k := |neg| - 1;
      AgainstMaps(f, p, neg[..k]);
      assert Map(f, neg)[..k] == Map(f, neg[..k]);
      assert p < neg[k] ==> f(p) < f(neg[k]);
      assert neg[k] < p ==> f(neg[k]) < f(p);
    }
  }

  lemma {:induction false} CountMaps(f: real -> real, pos: seq<real>, neg: seq<real>)
    requires StrictlyIncreasing(f)
    ensures MannWhitney(Map(f, pos), Map(f, neg)) == MannWhitney(pos, neg)
  {
    if pos != [] {
      var k := |pos| - 1;
      CountMaps(f, pos[..k], neg);
      AgainstMaps(f, pos[k], neg);
      assert Map(f, pos)[..k] == Map(f, pos[..k]);
    }
  }

  /** Only the ranking counts: a strictly increasing change of the scores changes nothing. */
  lemma AucIgnoresScale(f: real -> real, scores: seq<real>, labels: seq<int>)
    requires StrictlyIncreasing(f)
    ensures AucOf(Map(f, scores), labels) == AucOf(scores, labels)
  {
    SelectMaps(f, scores, labels, true);
    SelectMaps(f, scores, labels, false);
    CountMaps(f, Select(scores, labels, true), Select(scores, labels, false));
  }

  lemma {:induction false} CountAppends(pos: seq<real>, neg: seq<real>, n: real)
    ensures MannWhitney(pos, neg + [n]) + AgainstAll(n, pos) == MannWhitney(pos, neg) + |pos| as real
  {
    if pos != [] {
      var k := |pos| - 1;
      CountAppends(pos[..k], neg, n);
      AgainstAppend(pos[k], neg, n);
    }
  }

  /** Each pair is won once, or shared. */
  lemma {:induction false} CountsShare(pos: seq<real>, neg: seq<real>)
    ensures MannWhitney(pos, neg) + MannWhitney(neg, pos) == (|pos| * |neg|) as real
  {
    if neg == [] {
      NoNegatives(pos);
    } else {
      var k := |neg| - 1;
      CountsShare(pos, neg[..k]);
      CountAppends(pos, neg[..k], neg[k]);
      assert neg == neg[..k] + [neg[k]];
      assert |pos| * |neg| == |pos| * k + |pos|;
    }
  }

  lemma {:induction false} NoNegatives(pos: seq<real>)
    ensures MannWhitney(pos, []) == 0.0
  {
    if pos != [] {
      NoNegatives(pos[..|pos|-1]);
    }
  }

  /** Labels turned round. */
  function Swapped(labels: seq<int>): (r: seq<int>)
    ensures |r| == |labels| && forall i :: 0 <= i < |r| ==> r[i] == if labels[i] == 1 then 0 else 1
  {
    seq(|labels|, i requires 0 <= i < |labels| => if labels[i] == 1 then 0 else 1)
  }

  lemma {:induction false} SelectSwaps(scores: seq<real>, labels: seq<int>, positive: bool)
    requires |scores| <= |labels|
    ensures Select(scores, Swapped(labels), positive) == Select(scores, labels, !positive)
  {
    if scores != [] {
      SelectSwaps(scores[..|scores|-1], labels, positive);
    }
  }

  lemma Complement(x: real, y: real, d: real)
    requires d > 0.0 && x + y == d
    ensures y / d == 1.0 - x / d
  {
    assert x / d + y / d == (x + y) / d;
  }

  /** Swapping the labels turns the statistic into its complement. */
  lemma AucSwaps(scores: seq<real>, labels: seq<int>)
    requires |scores| <= |labels|
    ensures AucOf(scores, Swapped(labels))
         == match AucOf(scores, labels) { case None => None case Some(a) => Some(1.0 - a) }
  {
    var pos, neg := Select(scores, labels, true), Select(scores, labels, false);
    SelectSwaps(scores, labels, true);
    SelectSwaps(scores, labels, false);
    if pos != [] && neg != [] {
      CountsShare(pos, neg);
      assert |pos| * |neg| > 0 && |neg| * |pos| == |pos| * |neg|;
      Complement(MannWhitney(pos, neg), MannWhitney(neg, pos), (|pos| * |neg|) as real);
    }
  }
}
