/**
 * The enumeration of dimension tuples (apps/api/src/domain/rca.ts:116-130): backtracking with a
 * shared list that is pushed and popped.
 */
module TupleSearch {

  /** What the walk adds from `start` on: the current tuple, then everything that extends it. */
  function Walks<T>(dims: seq<T>, start: nat, max: nat, current: seq<T>): seq<seq<T>>
    requires start <= |dims|
    decreases |dims| - start, 1
  {
    (if current == [] then [] else [current]) + (if |current| == max then [] else Extensions(dims, start, max, current))
  }

  /** The loop of the walk, from its i-th turn on. */
  function Extensions<T>(dims: seq<T>, i: nat, max: nat, current: seq<T>): seq<seq<T>>
    requires i <= |dims|
    decreases |dims| - i, 0
  {
    if i == |dims| then []
    else Walks(dims, i + 1, max, current + [dims[i]]) + Extensions(dims, i + 1, max, current)
  }

  function Combinations<T>(dims: seq<T>, max: nat): seq<seq<T>> {
    Walks(dims, 0, max, [])
  }

  class Enumerator<T> {
    const dims: seq<T>
    const max: nat
    var current: seq<T>
    var out: seq<seq<T>>

    constructor (dims: seq<T>, max: nat)
      ensures this.dims == dims && this.max == max && current == [] && out == []
    {
      this.dims, this.max, this.current, this.out := dims, max, [], [];
    }

    /** Leaves the shared list as it found it. */
    method Walk(start: nat)
      requires start <= |dims|
      modifies this
      ensures current == old(current)
      ensures out == old(out) + Walks(dims, start, max, current)
      decreases |dims| - start
    {
      if |current| > 0 {
        out := out + [current];
      }
      if |current| == max {
        return;
      }
      ghost var before := out;
      for i := start to |dims|
        invariant current == old(current)
        invariant out + Extensions(dims, i, max, current) == before + Extensions(dims, start, max, current)
      {
        current := current + [dims[i]];
        Walk(i + 1);
        current := current[..|current|-1];
      }
      assert out == out + Extensions(dims, |dims|, max, current);
      assert old(out) + Walks(dims, start, max, current) == before + Extensions(dims, start, max, current);
    }
  }

  method Enumerate<T>(dims: seq<T>, max: nat) returns (out: seq<seq<T>>)
    ensures out == Combinations(dims, max)
  {
    var e := new Enumerator<T>(dims, max);
    e.Walk(0);
    out := e.out;
  }

  // ---- Every tuple, once ----

  /** `c` is what is left of `dims` from `start` on when some of it is left out. */
  predicate Subsequence<T(==)>(dims: seq<T>, start: nat, c: seq<T>)
    requires start <= |dims|
    decreases |dims| - start
  {
    c == []
    || (start < |dims|
        && ((dims[start] == c[0] && Subsequence(dims, start + 1, c[1..])) || Subsequence(dims, start + 1, c)))
  }

  lemma {:induction false} WalksMembers<T>(dims: seq<T>, start: nat, max: nat, current: seq<T>, c: seq<T>)
    requires start <= |dims| && |current| <= max
    ensures c in Walks(dims, start, max, current)
       <==> c != [] && current <= c && |c| <= max && Subsequence(dims, start, c[|current|..])
    decreases |dims| - start, 1
  {
    if |current| < max {
      ExtensionsMembers(dims, start, max, current, c);
    }
    if current <= c {
      assert c == current + c[|current|..];
      assert |c| == |current| ==> c == current;
      assert |c| > |current| ==> current < c;
    }
  }

  lemma {:induction false} ExtensionsMembers<T>(dims: seq<T>, i: nat, max: nat, current: seq<T>, c: seq<T>)
    requires i <= |dims| && |current| < max
    ensures c in Extensions(dims, i, max, current)
       <==> current < c && |c| <= max && Subsequence(dims, i, c[|current|..])
    decreases |dims| - i, 0
  {
    hide Walks;
    if i < |dims| {
      WalksMembers(dims, i + 1, max, current + [dims[i]], c);
      ExtensionsMembers(dims, i + 1, max, current, c);
      if current < c {
        assert c[|current|..][1..] == c[|current| + 1..];
        assert current + [dims[i]] <= c <==> c[|current|] == dims[i];
      }
    }
  }

  predicate Distinct<T(==)>(s: seq<T>) {
    forall i, j :: 0 <= i < j < |s| ==> s[i] != s[j]
  }

  lemma DistinctConcat<T>(a: seq<T>, b: seq<T>)
    requires Distinct(a) && Distinct(b) && forall x :: x in a ==> x !in b
    ensures Distinct(a + b)
  {
    forall i, j | 0 <= i < j < |a + b|
      ensures (a + b)[i] != (a + b)[j]
    {
      if i < |a| <= j {
        assert a[i] in a && b[j - |a|] in b;
      }
    }
  }

  lemma {:induction false} SubsequenceStarts<T>(dims: seq<T>, start: nat, c: seq<T>)
    requires start <= |dims| && c != [] && Subsequence(dims, start, c)
    ensures exists i :: start <= i < |dims| && dims[i] == c[0]
    decreases |dims| - start
  {
    if dims[start] != c[0] {
      SubsequenceStarts(dims, start + 1, c);
    }
  }

  lemma {:induction false} WalksDistinct<T>(dims: seq<T>, start: nat, max: nat, current: seq<T>)
    requires start <= |dims| && |current| <= max && Distinct(dims)
    ensures Distinct(Walks(dims, start, max, current))
    decreases |dims| - start, 1
  {
    if |current| < max {
      ExtensionsDistinct(dims, start, max, current);
      ExtensionsMembers(dims, start, max, current, current);
      if current != [] {
        DistinctConcat([current], Extensions(dims, start, max, current));
      }
    }
  }

  lemma {:induction false} ExtensionsDistinct<T>(dims: seq<T>, i: nat, max: nat, current: seq<T>)
    requires i <= |dims| && |current| < max && Distinct(dims)
    ensures Distinct(Extensions(dims, i, max, current))
    decreases |dims| - i, 0
  {
    hide Walks;
    if i < |dims| {
      var with, without := Walks(dims, i + 1, max, current + [dims[i]]), Extensions(dims, i + 1, max, current);
      WalksDistinct(dims, i + 1, max, current + [dims[i]]);
      ExtensionsDistinct(dims, i + 1, max, current);
      forall c | c in with
        ensures c !in without
      {
        WalksMembers(dims, i + 1, max, current + [dims[i]], c);
        ExtensionsMembers(dims, i + 1, max, current, c);
        if c in without {
          SubsequenceStarts(dims, i + 1, c[|current|..]);
        }
      }
      DistinctConcat(with, without);
    }
  }

  /** Every non-empty tuple of at most `max` dimensions, in their order, exactly once. */
  lemma EveryTupleOnce<T>(dims: seq<T>, max: nat, c: seq<T>)
    ensures c in Combinations(dims, max) <==> 1 <= |c| <= max && Subsequence(dims, 0, c)
    ensures Distinct(dims) ==> Distinct(Combinations(dims, max))
  {
    WalksMembers(dims, 0, max, [], c);
    if Distinct(dims) {
      WalksDistinct(dims, 0, max, []);
    }
  }
}
