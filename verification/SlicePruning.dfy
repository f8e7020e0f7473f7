/**
 * Which slices root-cause analysis keeps (apps/api/src/domain/rca.ts:335-387): one name per set
 * of payments, and no slice that a slice inside it already explains.
 */
module SlicePruning {
  import opened Wrappers
  import opened Bits
  import opened SliceCovers

  datatype Candidate = Candidate(
    text: string,
    signature: Signature,
    absenceCount: nat,
    size: nat,
    attempts: nat,
    excess: real,
    cover: seq<bv32>)

  // ---- One name per set of payments ----

  /** Fewer absence markers first, then fewer dimensions. */
  predicate Preferred(c: Candidate, existing: Candidate) {
    c.absenceCount < existing.absenceCount || (c.absenceCount == existing.absenceCount && c.size < existing.size)
  }

  function BestNamed(candidates: seq<Candidate>, s: Signature): Option<Candidate> {
    if candidates == [] then None
    else
      var best := BestNamed(candidates[..|candidates|-1], s);
      var c := candidates[|candidates|-1];
      if c.signature != s then best
      else if best.None? || Preferred(c, best.value) then Some(c) else best
  }

  /** The signatures in the order they first occur: the order a Map keeps its keys in. */
  function FirstSeen(candidates: seq<Candidate>): (order: seq<Signature>)
    ensures forall s :: s in order <==> exists i :: 0 <= i < |candidates| && candidates[i].signature == s
  {
    if candidates == [] then []
    else
      var front := FirstSeen(candidates[..|candidates|-1]);
      var s := candidates[|candidates|-1].signature;
      if s in front then front else front + [s]
  }

  method Collapse(candidates: seq<Candidate>) returns (order: seq<Signature>, bySet: map<Signature, Candidate>)
    ensures order == FirstSeen(candidates)
    ensures forall s :: s in bySet <==> s in order
    ensures forall s :: s in bySet ==> BestNamed(candidates, s) == Some(bySet[s])
  {
    order, bySet := [], map[];
    for i := 0 to |candidates|
      invariant order == FirstSeen(candidates[..i])
      invariant forall s :: BestNamed(candidates[..i], s) == (if s in bySet then Some(bySet[s]) else None)
      invariant forall s :: s in bySet <==> s in order
    {
      var c := candidates[i];
      assert candidates[..i+1][..i] == candidates[..i];
      if c.signature !in bySet {
        order := order + [c.signature];
        bySet := bySet[c.signature := c];
      } else if Preferred(c, bySet[c.signature]) {
        bySet := bySet[c.signature := c];
      }
    }
    assert candidates[..|candidates|] == candidates;
  }

  /** The first of the preferred candidates of a signature, which exists when the signature does. */
  lemma {:induction false} BestNamedMeans(candidates: seq<Candidate>, s: Signature)
    ensures BestNamed(candidates, s).None? <==> forall i :: 0 <= i < |candidates| ==> candidates[i].signature != s
    ensures BestNamed(candidates, s).Some? ==>
              exists k ::
                0 <= k < |candidates| && candidates[k] == BestNamed(candidates, s).value && IsBest(candidates, s, k)
  {
    if candidates != [] {
      var n := |candidates| - 1;
      var front := candidates[..n];
      BestNamedMeans(front, s);
      if BestNamed(candidates, s).Some? {
        if BestNamed(candidates, s) == BestNamed(front, s) {
          var k :| 0 <= k < |front| && front[k] == BestNamed(front, s).value && IsBest(front, s, k);
          assert candidates[k] == front[k] && IsBest(candidates, s, k);
        } else {
          assert candidates[n] == BestNamed(candidates, s).value && IsBest(candidates, s, n);
        }
      }
    }
  }

  ghost predicate IsBest(candidates: seq<Candidate>, s: Signature, k: nat)
    requires k < |candidates|
  {
    && candidates[k].signature == s
    && forall i :: 0 <= i < |candidates| && candidates[i].signature == s ==>
         && candidates[k].absenceCount <= candidates[i].absenceCount
         && (candidates[k].absenceCount == candidates[i].absenceCount ==>
               candidates[k].size < candidates[i].size || (candidates[k].size == candidates[i].size && k <= i))
  }

  // ---- Containment ----

  /** Every observation of the inner slice is in the outer one. */
  ghost predicate Inside(inner: seq<bv32>, outer: seq<bv32>) {
    forall i: nat :: Bit(inner, i) ==> Bit(outer, i)
  }

  /** A slice inside `broad`, with less traffic, explains at least the threshold of its excess. */
  ghost predicate Explains(narrow: Candidate, broad: Candidate, threshold: real) {
    narrow.attempts < broad.attempts && narrow.excess >= broad.excess * threshold && Inside(narrow.cover, broad.cover)
  }

  ghost predicate Survives(kept: seq<Candidate>, threshold: real, k: nat)
    requires k < |kept|
  {
    forall n :: 0 <= n < |kept| ==> !Explains(kept[n], kept[k], threshold)
  }

  predicate SameWindow(kept: seq<Candidate>) {
    forall i, j :: 0 <= i < |kept| && 0 <= j < |kept| ==> |kept[i].cover| == |kept[j].cover|
  }

  method IsExplained(kept: seq<Candidate>, threshold: real, k: nat) returns (explained: bool)
    requires SameWindow(kept) && k < |kept|
    ensures explained <==> !Survives(kept, threshold, k)
  {
    for n := 0 to |kept|
      invariant forall m :: 0 <= m < n ==> !Explains(kept[m], kept[k], threshold)
    {
      if n != k && kept[n].attempts < kept[k].attempts && kept[n].excess >= kept[k].excess * threshold {
        var covered := Covers(kept[k].cover, kept[n].cover);
        if covered {
          return true;
        }
      }
    }
    return false;
  }

  /** The positions of the slices that survive, in order. */
  method Prune(kept: seq<Candidate>, threshold: real) returns (surviving: seq<nat>)
    requires SameWindow(kept)
    ensures forall k: nat :: k in surviving <==> k < |kept| && Survives(kept, threshold, k)
    ensures forall i, j :: 0 <= i < j < |surviving| ==> surviving[i] < surviving[j]
  {
    surviving := [];
    for k := 0 to |kept|
      invariant forall i: nat :: i in surviving <==> i < k && Survives(kept, threshold, i)
      invariant forall i, j :: 0 <= i < j < |surviving| ==> surviving[i] < surviving[j]
    {
      var explained := IsExplained(kept, threshold, k);
      if !explained {
        assert forall i :: 0 <= i < |surviving| ==> surviving[i] in surviving;
        surviving := surviving + [k];
      }
    }
  }

  function Power(t: real, k: nat): real {
    if k == 0 then 1.0 else t * Power(t, k - 1)
  }

  lemma {:induction false} PowerPositive(t: real, k: nat)
    requires t >= 0.0
    ensures Power(t, k) >= 0.0
  {
    if k > 0 {
      PowerPositive(t, k - 1);
      Product(t, Power(t, k - 1));
    }
  }

  lemma Product(a: real, b: real)
    requires a >= 0.0 && b >= 0.0
    ensures a * b >= 0.0
  {
  }

  /** One more drop costs one more factor. */
  lemma ChainExcess(s: real, n: real, b: real, t: real, d: nat)
    requires t >= 0.0 && AtLeast(s, n, t, d) && n >= b * t
    ensures AtLeast(s, b, t, d + 1)
  {
    var p := Power(t, d);
    PowerPositive(t, d);
    Product(n - b * t, p);
    assert n * p == (n - b * t) * p + b * (t * p);
  }

  /** `s` is at least the d-th power of the threshold of `b`. */
  predicate AtLeast(s: real, b: real, t: real, d: nat) {
    s >= b * Power(t, d)
  }

  lemma InsideInside(a: seq<bv32>, b: seq<bv32>, c: seq<bv32>)
    requires Inside(a, b) && Inside(b, c)
    ensures Inside(a, c)
  {
    hide Bit;
  }

  /**
   * The cause is never lost. From any slice a chain of drops leads to a survivor inside it: as
   * many attempts fewer as there were drops at least, and with at least threshold^drops of its
   * excess. A slice that survives is its own survivor, with no drop.
   */
  lemma {:induction false} SurvivorInside(kept: seq<Candidate>, threshold: real, b: nat) returns (s: nat, drops: nat)
    requires b < |kept| && threshold >= 0.0
    ensures s < |kept| && Survives(kept, threshold, s) && Inside(kept[s].cover, kept[b].cover)
    ensures kept[s].attempts + drops <= kept[b].attempts
    ensures AtLeast(kept[s].excess, kept[b].excess, threshold, drops)
    ensures drops == 0 <==> Survives(kept, threshold, b)
    ensures drops == 0 ==> s == b
    decreases kept[b].attempts
  {
    hide Bit, Inside, AtLeast;
    if Survives(kept, threshold, b) {
      s, drops := b, 0;
      NoDrop(kept[b], threshold);
    } else {
      var n :| 0 <= n < |kept| && Explains(kept[n], kept[b], threshold);
      var d: nat;
      s, d := SurvivorInside(kept, threshold, n);
      drops := d + 1;
      ChainExcess(kept[s].excess, kept[n].excess, kept[b].excess, threshold, d);
      InsideInside(kept[s].cover, kept[n].cover, kept[b].cover);
    }
  }

  lemma NoDrop(c: Candidate, t: real)
    ensures AtLeast(c.excess, c.excess, t, 0) && Inside(c.cover, c.cover)
  {
  }

  lemma SomethingSurvives(kept: seq<Candidate>, threshold: real)
    requires kept != [] && threshold >= 0.0
    ensures exists s :: 0 <= s < |kept| && Survives(kept, threshold, s)
  {
    var s, drops := SurvivorInside(kept, threshold, 0);
  }

  /** Explaining is not transitive: with three nested slices the only survivor need not explain the widest. */
  lemma ChainLosesShare(a: Candidate, b: Candidate, c: Candidate)
    requires a.attempts < b.attempts < c.attempts && Inside(a.cover, b.cover) && Inside(b.cover, c.cover)
    requires a.excess == 64.0 && b.excess == 80.0 && c.excess == 100.0
    ensures Survives([a, b, c], 0.8, 0) && !Survives([a, b, c], 0.8, 1) && !Survives([a, b, c], 0.8, 2)
    ensures !Explains(a, c, 0.8)
  {
    var kept := [a, b, c];
    assert Explains(kept[0], kept[1], 0.8) && Explains(kept[1], kept[2], 0.8);
  }
}
