/**
 * Canonical JSON is injective up to the order of object keys: the text of a value is that of
 * its normal form, and the parser recovers the normal form from the text.
 */
module CanonicalJson {
  import opened Json
  import opened JsonParser

  // ---- Sorting by key ----

  predicate Ordered<T>(fields: seq<Field<T>>) {
    forall i, j :: 0 <= i < j < |fields| ==> Before(fields[i].key, fields[j].key)
  }

  lemma {:induction false} NotBeforeItself(a: Text)
    ensures !Before(a, a)
  {
    if a != [] {
      NotBeforeItself(a[1..]);
    }
  }

  lemma {:induction false} BeforeIsStrict(a: Text, b: Text)
    ensures Before(a, b) ==> !Before(b, a)
    ensures a != b ==> Before(a, b) || Before(b, a)
    decreases |a| + |b|
  {
    if a != [] && b != [] {
      BeforeIsStrict(a[1..], b[1..]);
      assert a == [a[0]] + a[1..] && b == [b[0]] + b[1..];
    }
  }

  lemma {:induction false} BeforeChains(a: Text, b: Text, c: Text)
    requires Before(a, b) && Before(b, c)
    ensures Before(a, c)
    decreases |a|
  {
    if a != [] && a[0] == b[0] == c[0] {
      BeforeChains(a[1..], b[1..], c[1..]);
    }
  }

  lemma {:induction false} InsertMember<T>(f: Field<T>, sorted: seq<Field<T>>, x: Field<T>)
    ensures x in Insert(f, sorted) <==> x == f || x in sorted
  {
    if sorted != [] && !Before(f.key, sorted[0].key) {
      InsertMember(f, sorted[1..], x);
    }
  }

  lemma {:induction false} SortMember<T>(fields: seq<Field<T>>, x: Field<T>)
    ensures x in SortByKey(fields) <==> x in fields
  {
    if fields != [] {
      SortMember(fields[1..], x);
      InsertMember(fields[0], SortByKey(fields[1..]), x);
    }
  }

  lemma {:induction false} InsertOrders<T>(f: Field<T>, sorted: seq<Field<T>>)
    requires Ordered(sorted) && forall x :: x in sorted ==> x.key != f.key
    ensures Ordered(Insert(f, sorted))
  {
    if sorted != [] && !Before(f.key, sorted[0].key) {
      var tail := sorted[1..];
      InsertOrders(f, tail);
      BeforeIsStrict(f.key, sorted[0].key);
      var rest := Insert(f, tail);
      forall j | 0 <= j < |rest|
        ensures Before(sorted[0].key, rest[j].key)
      {
        InsertMember(f, tail, rest[j]);
        if rest[j] != f {
          var i :| 0 <= i < |tail| && tail[i] == rest[j];
          assert tail[i] == sorted[i+1];
        }
      }
    } else if sorted != [] {
      forall j | 0 <= j < |sorted|
        ensures Before(f.key, sorted[j].key)
      {
        if j > 0 {
          BeforeChains(f.key, sorted[0].key, sorted[j].key);
        }
      }
    }
  }

  lemma {:induction false} SortOrders<T>(fields: seq<Field<T>>)
    requires DistinctKeys(fields)
    ensures Ordered(SortByKey(fields))
  {
    if fields != [] {
      SortOrders(fields[1..]);
      forall x | x in SortByKey(fields[1..])
        ensures x.key != fields[0].key
      {
        SortMember(fields[1..], x);
      }
      InsertOrders(fields[0], SortByKey(fields[1..]));
    }
  }

  /** Two ordered lists of one length are equal when one holds all of the other. */
  lemma {:induction false} OrderedUnique<T>(a: seq<Field<T>>, b: seq<Field<T>>)
    requires Ordered(a) && Ordered(b) && forall x :: x in a ==> x in b
    ensures |a| <= |b|
    ensures |a| == |b| ==> a == b
    decreases |b|
  {
    if a != [] {
      assert a[0] in b;
      forall x | x in a && x != b[0]
        ensures x in b[1..]
      {
      }
      if a[0] == b[0] {
        assert forall i :: 1 <= i < |a| ==> a[i] != b[0] by { NotBeforeItself(b[0].key); }
        OrderedUnique(a[1..], b[1..]);
        assert a == [a[0]] + a[1..] && b == [b[0]] + b[1..];
      } else {
        var k :| 0 <= k < |b| && b[k] == a[0];
        forall i | 0 <= i < |a|
          ensures a[i] != b[0]
        {
          if i > 0 {
            BeforeChains(b[0].key, a[0].key, a[i].key);
          }
          NotBeforeItself(b[0].key);
        }
        OrderedUnique(a, b[1..]);
      }
    }
  }

  // ---- The printed text is that of the normal form ----

  lemma {:induction false} InsertPrints(f: Field<Json>, sorted: seq<Field<Json>>)
    ensures PrintValues(Insert(f, sorted)) == Insert(Field(f.key, Print(f.value)), PrintValues(sorted))
  {
    hide Print;
    if sorted != [] && !Before(f.key, sorted[0].key) {
      InsertPrints(f, sorted[1..]);
      assert PrintValues(sorted)[1..] == PrintValues(sorted[1..]);
      assert Insert(f, sorted)[1..] == Insert(f, sorted[1..]);
    } else {
      assert Insert(f, sorted)[1..] == sorted;
    }
  }

  lemma {:induction false} SortPrints(fields: seq<Field<Json>>)
    ensures PrintValues(SortByKey(fields)) == SortByKey(PrintValues(fields))
  {
    hide Print;
    if fields != [] {
      SortPrints(fields[1..]);
      InsertPrints(fields[0], SortByKey(fields[1..]));
      assert PrintValues(fields)[1..] == PrintValues(fields[1..]);
    }
  }

  lemma {:induction false} CanonicaliseIsPrint(v: Json)
    ensures Canonicalise(v) == Print(Normal(v))
    decreases v, 0
  {
    match v
    case Arr(items) => ItemsArePrint(items);
    case Obj(fields) =>
      ValuesArePrint(fields);
      SortPrints(NormalValues(fields));
    case _ =>
  }

  lemma {:induction false} ItemsArePrint(items: seq<Json>)
    ensures CanonicaliseItems(items) == PrintItems(NormalItems(items))
    decreases items
  {
    if items != [] {
      CanonicaliseIsPrint(items[0]);
      ItemsArePrint(items[1..]);
      assert NormalItems(items)[1..] == NormalItems(items[1..]);
    }
  }

  lemma {:induction false} ValuesArePrint(fields: seq<Field<Json>>)
    ensures CanonicaliseValues(fields) == PrintValues(NormalValues(fields))
    decreases fields
  {
    if fields != [] {
      CanonicaliseIsPrint(fields[0].value);
      ValuesArePrint(fields[1..]);
      assert NormalValues(fields)[1..] == NormalValues(fields[1..]);
    }
  }

  lemma {:induction false} NormalIsPrintable(v: Json)
    requires Proper(v)
    ensures Printable(Normal(v))
    decreases v
  {
    match v
    case Arr(items) =>
      forall i | 0 <= i < |items|
        ensures Printable(Normal(items[i]))
      {
        NormalIsPrintable(items[i]);
      }
    case Obj(fields) =>
      var values := NormalValues(fields);
      var sorted := SortByKey(values);
      forall i | 0 <= i < |sorted|
        ensures Printable(sorted[i].value)
      {
        SortMember(values, sorted[i]);
        var j :| 0 <= j < |values| && values[j] == sorted[i];
        NormalIsPrintable(fields[j].value);
      }
    case _ =>
  }

  /** The canonical text determines the normal form. */
  lemma ParseInvertsCanonicalise(v: Json)
    requires Proper(v)
    ensures ParseValue(Canonicalise(v)) == Ok(Normal(v), [])
  {
    hide ParseValue, Print, Normal, Canonicalise;
    CanonicaliseIsPrint(v);
    NormalIsPrintable(v);
    ParseInvertsPrint(Normal(v), []);
    assert Print(Normal(v)) + [] == Print(Normal(v));
  }

  // ---- Equal normal forms are equal values ----

  lemma {:induction false} SameNormal(a: Json, b: Json)
    requires Proper(a) && Proper(b)
    ensures Same(a, b) <==> Normal(a) == Normal(b)
    decreases a
  {
    if a.Arr? && b.Arr? {
      SameItems(a, b);
    } else if a.Obj? && b.Obj? {
      if Same(a, b) {
        SameFieldsSort(a, b);
      }
      if Normal(a) == Normal(b) {
        SortedFieldsSame(a, b);
      }
    }
  }

  lemma {:induction false} SameItems(a: Json, b: Json)
    requires Proper(a) && Proper(b) && a.Arr? && b.Arr?
    ensures Same(a, b) <==> Normal(a) == Normal(b)
    decreases a, 0
  {
    if |a.items| == |b.items| {
      forall i | 0 <= i < |a.items|
        ensures Same(a.items[i], b.items[i]) <==> Normal(a.items[i]) == Normal(b.items[i])
      {
        SameNormal(a.items[i], b.items[i]);
      }
      if Normal(a) == Normal(b) {
        forall i | 0 <= i < |a.items|
          ensures Same(a.items[i], b.items[i])
        {
          assert NormalItems(a.items)[i] == NormalItems(b.items)[i];
        }
      }
    }
  }

  lemma {:induction false} SameFieldsSort(a: Json, b: Json)
    requires Proper(a) && Proper(b) && a.Obj? && b.Obj? && Same(a, b)
    ensures Normal(a) == Normal(b)
    decreases a, 0
  {
    var na, nb := NormalValues(a.fields), NormalValues(b.fields);
    forall x | x in na
      ensures x in nb
    {
      var i :| 0 <= i < |na| && na[i] == x;
      var j :| 0 <= j < |b.fields| && b.fields[j].key == a.fields[i].key && Same(a.fields[i].value, b.fields[j].value);
      SameNormal(a.fields[i].value, b.fields[j].value);
      assert nb[j] == x;
    }
    SortOrders(na);
    SortOrders(nb);
    forall x | x in SortByKey(na)
      ensures x in SortByKey(nb)
    {
      SortMember(na, x);
      SortMember(nb, x);
    }
    OrderedUnique(SortByKey(na), SortByKey(nb));
  }

  lemma {:induction false} SortedFieldsSame(a: Json, b: Json)
    requires Proper(a) && Proper(b) && a.Obj? && b.Obj? && Normal(a) == Normal(b)
    ensures Same(a, b)
    decreases a, 0
  {
    var na, nb := NormalValues(a.fields), NormalValues(b.fields);
    forall i | 0 <= i < |a.fields|
      ensures exists j :: 0 <= j < |b.fields| && b.fields[j].key == a.fields[i].key
                          && Same(a.fields[i].value, b.fields[j].value)
    {
      SortMember(na, na[i]);
      SortMember(nb, na[i]);
      var j :| 0 <= j < |nb| && nb[j] == na[i];
      SameNormal(a.fields[i].value, b.fields[j].value);
    }
  }

  /**
   * Two values have the same canonical text exactly when they are equal as JSON: the order of
   * object keys, at any depth, is the only thing the text forgets.
   */
  lemma CanonicalIsInjective(a: Json, b: Json)
    requires Proper(a) && Proper(b)
    ensures Canonicalise(a) == Canonicalise(b) <==> Same(a, b)
  {
    hide Canonicalise, Normal, Same, Print, ParseValue;
    ParseInvertsCanonicalise(a);
    ParseInvertsCanonicalise(b);
    CanonicaliseIsPrint(a);
    CanonicaliseIsPrint(b);
    SameNormal(a, b);
  }
}
