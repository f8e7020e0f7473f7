/** Bitsets of 32-bit words: setting a bit, and what is in one word and not in another. */
module Bits {

  function Mask(k: nat): bv32
    requires k < 32
  {
    1 << k
  }

  function And(a: bv32, b: bv32): bv32 { a & b }
  function Or(a: bv32, b: bv32): bv32 { a | b }

  /** What is in one word and not in another. */
  function Without(inner: bv32, outer: bv32): bv32 { inner & !outer }

  predicate Has(w: bv32, b: nat)
    requires b < 32
  {
    And(w, Mask(b)) != 0
  }

  /** Bit `i` of the bitset. */
  predicate Bit(words: seq<bv32>, i: nat) {
    i / 32 < |words| && Has(words[i / 32], i % 32)
  }

  lemma MasksDiffer(a: nat, b: nat)
    requires a < 32 && b < 32
    ensures And(Mask(a), Mask(b)) != 0 <==> a == b
  {
  }

  lemma AndOverOr(w: bv32, m: bv32, n: bv32)
    ensures And(Or(w, m), n) == Or(And(w, n), And(m, n))
  {
  }

  lemma OrIsZero(a: bv32, b: bv32)
    ensures Or(a, b) == 0 <==> a == 0 && b == 0
  {
  }

  lemma SetBit(w: bv32, a: nat, b: nat)
    requires a < 32 && b < 32
    ensures Has(Or(w, Mask(a)), b) <==> a == b || Has(w, b)
  {
    hide Mask, And, Or;
    AndOverOr(w, Mask(a), Mask(b));
    OrIsZero(And(w, Mask(b)), And(Mask(a), Mask(b)));
    MasksDiffer(a, b);
  }

  lemma ZeroWord(b: nat)
    requires b < 32
    ensures !Has(0, b)
  {
  }

  lemma MaskSplits(w: bv32, b: nat)
    requires b < 32
    ensures And(w, Mask(b)) == 0 || And(w, Mask(b)) == Mask(b)
  {
  }

  lemma AndOverWithout(inner: bv32, outer: bv32, m: bv32)
    ensures And(Without(inner, outer), m) == Without(And(inner, m), And(outer, m))
  {
  }

  lemma WithoutItself(inner: bv32, m: bv32)
    ensures Without(And(inner, m), m) == 0
  {
  }

  lemma WithoutNothing(w: bv32)
    ensures Without(w, 0) == w
  {
  }

  lemma MissingBit(inner: bv32, outer: bv32, b: nat)
    requires b < 32
    ensures Has(Without(inner, outer), b) <==> Has(inner, b) && !Has(outer, b)
  {
    hide Mask, And, Without;
    AndOverWithout(inner, outer, Mask(b));
    WithoutItself(inner, Mask(b));
    WithoutNothing(And(inner, Mask(b)));
    MaskSplits(outer, b);
  }

  /** Nothing of the word lies below bit k. */
  predicate From(w: bv32, k: nat)
    requires k < 32
  {
    w & (0xFFFF_FFFF << k) == w
  }

  lemma SkipZeroBit(w: bv32, k: nat)
    requires k < 31 && From(w, k) && !Has(w, k)
    ensures From(w, k + 1)
  {
  }

  lemma LastBit(w: bv32)
    requires From(w, 31) && w != 0
    ensures Has(w, 31)
  {
  }

  lemma WholeWord(w: bv32)
    ensures From(w, 0)
  {
  }

  /** A word that is not zero has a bit. */
  lemma {:induction false} SomeBit(w: bv32, k: nat) returns (b: nat)
    requires k < 32 && w != 0 && From(w, k)
    ensures b < 32 && Has(w, b)
    decreases 32 - k
  {
    hide From, Has;
    if Has(w, k) {
      b := k;
    } else {
      if k == 31 {
        LastBit(w);
      }
      SkipZeroBit(w, k);
      b := SomeBit(w, k + 1);
    }
  }

  lemma BitAt(words: seq<bv32>, w: nat, b: nat)
    requires w < |words| && b < 32
    ensures Bit(words, 32 * w + b) <==> Has(words[w], b)
  {
    hide Has;
    assert (32 * w + b) / 32 == w && (32 * w + b) % 32 == b;
  }
}
