/**
 * Counting a tuple over observations (apps/api/src/domain/rca.ts:181-234): attempts, failures,
 * and which observations it covers as a bitset of 32-bit words, with the word-wise test of
 * whether one slice contains another (372-377).
 */
module SliceCovers {
  import opened Wrappers
  import opened Bits

  /** One payment and the slices it is in; a dimension may be missing or null. */
  datatype Observation = Observation(failed: bool, dims: map<string, Option<string>>)

  function DimOf(o: Observation, name: string): Option<string> {
    if name in o.dims then o.dims[name] else None
  }

  /** Word by word, the test that the inner bitset is within the outer one. */
  method Covers(outer: seq<bv32>, inner: seq<bv32>) returns (covered: bool)
    requires |outer| == |inner|
    ensures covered <==> forall i: nat :: Bit(inner, i) ==> Bit(outer, i)
  {
    hide Has, Without, And, Mask, From;
    for w := 0 to |outer|
      invariant forall i: nat :: i / 32 < w && Bit(inner, i) ==> Bit(outer, i)
    {
      var missing := Without(inner[w], outer[w]);
      if missing != 0 {
        WholeWord(missing);
        var b := SomeBit(missing, 0);
        MissingBit(inner[w], outer[w], b);
        BitAt(inner, w, b);
        BitAt(outer, w, b);
        return false;
      }
      forall i: nat | i / 32 == w && Bit(inner, i)
        ensures Bit(outer, i)
      {
        MissingBit(inner[w], outer[w], i % 32);
        ZeroWord(i % 32);
      }
    }
    return true;
  }

  // ---- Counting ----

  /** The observation is in the slice, as far as the dimensions that attempts have. */
  predicate Attempts(o: Observation, names: seq<string>, values: seq<string>, failureOnly: set<string>)
    requires |names| == |values|
  {
    forall i :: 0 <= i < |names| && names[i] !in failureOnly ==> DimOf(o, names[i]) == Some(values[i])
  }

  predicate Fails(o: Observation, names: seq<string>, values: seq<string>)
    requires |names| == |values|
  {
    o.failed && forall i :: 0 <= i < |names| ==> DimOf(o, names[i]) == Some(values[i])
  }

  function AttemptSet(obs: seq<Observation>, names: seq<string>, values: seq<string>,
                      failureOnly: set<string>): set<nat>
    requires |names| == |values|
  {
    set i: nat | i < |obs| && Attempts(obs[i], names, values, failureOnly)
  }

  function FailureSet(obs: seq<Observation>, names: seq<string>, values: seq<string>): set<nat>
    requires |names| == |values|
  {
    set i: nat | i < |obs| && Fails(obs[i], names, values)
  }

  /** The hash of exactly which observations matched, taken to be injective. */
  datatype Signature = Signature(attempts: set<nat>, failures: set<nat>)

  datatype Counts = Counts(attempts: nat, failures: nat, signature: Signature)

  predicate Matches(o: Observation, names: seq<string>, values: seq<string>)
    requires |names| == |values|
  {
    forall i :: 0 <= i < |names| ==> DimOf(o, names[i]) == Some(values[i])
  }

  /** A failure of the slice is an attempt of it. */
  lemma FailsMeans(o: Observation, names: seq<string>, values: seq<string>, failureOnly: set<string>)
    requires |names| == |values|
    ensures Fails(o, names, values) <==> o.failed && Matches(o, names, values)
    ensures Matches(o, names, values) ==> Attempts(o, names, values, failureOnly)
  {
  }

  method MatchAll(o: Observation, names: seq<string>, values: seq<string>) returns (all: bool)
    requires |names| == |values|
    ensures all == Matches(o, names, values)
  {
    for i := 0 to |names|
      invariant forall k :: 0 <= k < i ==> DimOf(o, names[k]) == Some(values[k])
    {
      if DimOf(o, names[i]) != Some(values[i]) {
        return false;
      }
    }
    return true;
  }

  /** The dimensions attempts are counted on: a failure-only dimension does not exist on a success. */
  method AttemptDimensions(names: seq<string>, values: seq<string>, failureOnly: set<string>)
    returns (attemptNames: seq<string>, attemptValues: seq<string>)
    requires |names| == |values|
    ensures |attemptNames| == |attemptValues|
    ensures forall o :: Matches(o, attemptNames, attemptValues) <==> Attempts(o, names, values, failureOnly)
  {
    attemptNames, attemptValues := [], [];
    for i := 0 to |names|
      invariant |attemptNames| == |attemptValues|
      invariant forall o ::
                  Matches(o, attemptNames, attemptValues) <==> Attempts(o, names[..i], values[..i], failureOnly)
    {
      ghost var n, v := attemptNames, attemptValues;
      if names[i] !in failureOnly {
        attemptNames := attemptNames + [names[i]];
        attemptValues := attemptValues + [values[i]];
      }
      forall o
        ensures Matches(o, attemptNames, attemptValues) <==> Attempts(o, names[..i+1], values[..i+1], failureOnly)
      {
        AttemptsStep(o, names, values, failureOnly, i);
        if names[i] !in failureOnly {
          MatchesStep(o, n, v, names[i], values[i]);
        }
      }
    }
    assert names[..|names|] == names && values[..|values|] == values;
  }

  lemma AttemptsStep(o: Observation, names: seq<string>, values: seq<string>, failureOnly: set<string>, i: nat)
    requires |names| == |values| && i < |names|
    ensures Attempts(o, names[..i+1], values[..i+1], failureOnly)
       <==> && Attempts(o, names[..i], values[..i], failureOnly)
            && (names[i] !in failureOnly ==> DimOf(o, names[i]) == Some(values[i]))
  {
    if Attempts(o, names[..i+1], values[..i+1], failureOnly) {
      assert names[..i+1][i] == names[i];
      assert forall k :: 0 <= k < i ==> names[..i][k] == names[..i+1][k] && values[..i][k] == values[..i+1][k];
    }
  }

  lemma MatchesStep(o: Observation, names: seq<string>, values: seq<string>, n: string, v: string)
    requires |names| == |values|
    ensures Matches(o, names + [n], values + [v]) <==> Matches(o, names, values) && DimOf(o, n) == Some(v)
  {
    var ns, vs := names + [n], values + [v];
    if Matches(o, ns, vs) {
      assert ns[|names|] == n && vs[|values|] == v;
      assert forall k :: 0 <= k < |names| ==> ns[k] == names[k] && vs[k] == values[k];
    }
  }

  lemma NothingYet(obs: seq<Observation>, names: seq<string>, values: seq<string>, failureOnly: set<string>)
    requires |names| == |values|
    ensures AttemptSet(obs[..0], names, values, failureOnly) == {} && FailureSet(obs[..0], names, values) == {}
  {
  }

  lemma SetsGrow(obs: seq<Observation>, i: nat, names: seq<string>, values: seq<string>, failureOnly: set<string>)
    requires |names| == |values| && i < |obs|
    ensures AttemptSet(obs[..i+1], names, values, failureOnly)
         == AttemptSet(obs[..i], names, values, failureOnly)
            + (if Attempts(obs[i], names, values, failureOnly) then {i} else {})
    ensures FailureSet(obs[..i+1], names, values)
         == FailureSet(obs[..i], names, values) + (if Fails(obs[i], names, values) then {i} else {})
    ensures i !in AttemptSet(obs[..i], names, values, failureOnly) && i !in FailureSet(obs[..i], names, values)
  {
    assert forall k :: 0 <= k < i ==> obs[..i][k] == obs[..i+1][k] == obs[k];
    assert obs[..i+1][i] == obs[i];
  }

  /** Words for n observations, at least one, all zero. */
  method EmptyCover(n: nat) returns (cover: array<bv32>)
    ensures fresh(cover) && cover.Length == (if n == 0 then 1 else (n + 31) / 32)
    ensures forall i: nat :: !Bit(cover[..], i)
  {
    hide Has;
    cover := new bv32[if n == 0 then 1 else (n + 31) / 32](_ => 0);
    forall i: nat | i / 32 < cover.Length
      ensures !Bit(cover[..], i)
    {
      ZeroWord(i % 32);
    }
  }

  method SetIndex(cover: array<bv32>, index: nat)
    requires index / 32 < cover.Length
    modifies cover
    ensures forall i: nat :: Bit(cover[..], i) <==> i == index || Bit(old(cover[..]), i)
  {
    hide Has, Mask, Or;
    cover[index / 32] := Or(cover[index / 32], Mask(index % 32));
    forall i: nat | i / 32 == index / 32
      ensures Bit(cover[..], i) <==> i == index || Bit(old(cover[..]), i)
    {
      SetBit(old(cover[index / 32]), index % 32, i % 32);
      assert i == 32 * (i / 32) + i % 32 && index == 32 * (index / 32) + index % 32;
    }
  }

  /**
   * Counts a tuple. Bit i of the cover is set exactly when observation i is attempted in the
   * slice, and the counts are those of the sets.
   */
  method Count(obs: seq<Observation>, names: seq<string>, values: seq<string>, failureOnly: set<string>)
    returns (c: Counts, cover: array<bv32>)
    requires |names| == |values|
    ensures var attempts, failures := AttemptSet(obs, names, values, failureOnly), FailureSet(obs, names, values);
            && c == Counts(|attempts|, |failures|, Signature(attempts, failures))
            && cover.Length == (if obs == [] then 1 else (|obs| + 31) / 32)
            && forall i: nat :: Bit(cover[..], i) <==> i in attempts
    ensures fresh(cover)
  {
    hide Bit, Attempts, Fails, Matches, AttemptSet, FailureSet;
    var attemptNames, attemptValues := AttemptDimensions(names, values, failureOnly);
    var attempts, failures := 0, 0;
    var attempted: set<nat>, failed: set<nat> := {}, {};
    cover := EmptyCover(|obs|);
    NothingYet(obs, names, values, failureOnly);
    for index := 0 to |obs|
      invariant attempted == AttemptSet(obs[..index], names, values, failureOnly) && attempts == |attempted|
      invariant failed == FailureSet(obs[..index], names, values) && failures == |failed|
      invariant forall i: nat :: Bit(cover[..], i) <==> i in attempted
    {
      var o := obs[index];
      SetsGrow(obs, index, names, values, failureOnly);
      FailsMeans(o, names, values, failureOnly);
      var inAttemptSlice := MatchAll(o, attemptNames, attemptValues);
      if inAttemptSlice {
        attempts := attempts + 1;
        attempted := attempted + {index};
        SetIndex(cover, index);
        if o.failed {
          var inFullSlice := MatchAll(o, names, values);
          if inFullSlice {
            failures := failures + 1;
            failed := failed + {index};
          }
        }
      }
    }
    assert obs[..|obs|] == obs;
    c := Counts(attempts, failures, Signature(attempted, failed));
  }
}
