/**
 * The labels that carry a tuple through root-cause analysis (apps/api/src/domain/rca.ts:132-140
 * and 272): `name=value` parts joined by " × ", and taken apart again by splitting.
 */
module SliceLabels {
  import opened Wrappers

  const SEPARATOR := [' ', '×', ' ']

  /** A separator begins at index j. */
  predicate At(s: string, j: nat) {
    j + 3 <= |s| && s[j] == ' ' && s[j+1] == '×' && s[j+2] == ' '
  }

  /** Array.prototype.join. */
  function Join(parts: seq<string>): string {
    if parts == [] then ""
    else if |parts| == 1 then parts[0]
    else parts[0] + SEPARATOR + Join(parts[1..])
  }

  /** Where the separator first occurs from i on, or the length if it does not. */
  function FirstFrom(s: string, i: nat): (k: nat)
    requires i <= |s|
    ensures i <= k <= |s|
    ensures k < |s| ==> At(s, k)
    ensures forall j :: i <= j < k ==> !At(s, j)
    decreases |s| - i
  {
    if i == |s| || At(s, i) then i else FirstFrom(s, i + 1)
  }

  /** String.prototype.split. */
  function Split(s: string): (parts: seq<string>)
    ensures parts != []
    decreases |s|
  {
    var k := FirstFrom(s, 0);
    if k == |s| then [s] else [s[..k]] + Split(s[k+3..])
  }

  /** No separator begins inside the part, not even one that the separator after it completes. */
  predicate CleanBefore(part: string) {
    forall j: nat :: j < |part| ==> !At(part + SEPARATOR, j)
  }

  predicate CleanLast(part: string) {
    forall j: nat :: j < |part| ==> !At(part, j)
  }

  /** The parts can be told apart in their label. */
  predicate Clean(parts: seq<string>)
    requires parts != []
  {
    CleanLast(parts[|parts|-1]) && forall i :: 0 <= i < |parts| - 1 ==> CleanBefore(parts[i])
  }

  /** A part before another must hold no separator and must not end in the first two characters of one. */
  lemma CleanBeforeMeans(part: string)
    ensures CleanBefore(part)
       <==> CleanLast(part) && !(|part| >= 2 && part[|part|-2] == ' ' && part[|part|-1] == '×')
  {
    var s := part + SEPARATOR;
    forall j: nat | j < |part|
      ensures At(s, j) <==> At(part, j) || (j == |part| - 2 && part[j] == ' ' && part[j+1] == '×')
    {
      assert s[|part|] == ' ' && s[|part|+1] == '×' && s[|part|+2] == ' ';
    }
    if |part| >= 2 && part[|part|-2] == ' ' && part[|part|-1] == '×' {
      assert At(s, |part| - 2);
    }
  }

  /** The first separator of a label falls where it would fall had the label ended with it. */
  lemma FirstOfLabel(part: string, rest: string)
    ensures var k := FirstFrom(part + SEPARATOR + rest, 0);
            k <= |part| && (k == |part| <==> CleanBefore(part))
  {
    var short, s := part + SEPARATOR, part + SEPARATOR + rest;
    var k := FirstFrom(s, 0);
    assert At(s, |part|);
    forall j: nat | j <= |part|
      ensures At(s, j) <==> At(short, j)
    {
      assert s[j] == short[j] && s[j+1] == short[j+1] && s[j+2] == short[j+2];
    }
  }

  /** Splitting gives the parts back exactly when they are clean. */
  lemma {:induction false} SplitInvertsJoin(parts: seq<string>)
    requires parts != []
    ensures Split(Join(parts)) == parts <==> Clean(parts)
  {
    var s := Join(parts);
    var k := FirstFrom(s, 0);
    if |parts| == 1 {
      assert CleanLast(s) <==> k == |s|;
    } else {
      var tail := parts[1..];
      SplitInvertsJoin(tail);
      FirstOfLabel(parts[0], Join(tail));
      assert s == parts[0] + SEPARATOR + Join(tail);
      assert Clean(parts) <==> CleanBefore(parts[0]) && Clean(tail) by { CleanSplits(parts); }
      if k == |parts[0]| {
        assert s[..k] == parts[0] && s[k+3..] == Join(tail);
        assert parts == [parts[0]] + tail;
      } else {
        assert Split(s)[0] == s[..k] && |s[..k]| != |parts[0]|;
      }
    }
  }

  lemma CleanSplits(parts: seq<string>)
    requires |parts| > 1
    ensures Clean(parts) <==> CleanBefore(parts[0]) && Clean(parts[1..])
  {
    var tail := parts[1..];
    if Clean(parts) {
      forall i | 0 <= i < |tail| - 1
        ensures CleanBefore(tail[i])
      {
        assert tail[i] == parts[i+1];
      }
    }
    if CleanBefore(parts[0]) && Clean(tail) {
      forall i | 0 <= i < |parts| - 1
        ensures CleanBefore(parts[i])
      {
        if i > 0 {
          assert parts[i] == tail[i-1];
        }
      }
    }
  }

  // ---- Names and values ----

  function Part(name: string, value: string): string {
    name + "=" + value
  }

  function Parts(names: seq<string>, values: seq<string>): (parts: seq<string>)
    requires |names| == |values|
    ensures |parts| == |names| && forall i :: 0 <= i < |parts| ==> parts[i] == Part(names[i], values[i])
  {
    seq(|names|, i requires 0 <= i < |names| => Part(names[i], values[i]))
  }

  function LabelOf(names: seq<string>, values: seq<string>): string
    requires |names| == |values|
  {
    Join(Parts(names, values))
  }

  /** The values, if every one of them is there. */
  function Known(values: seq<Option<string>>): (vs: Option<seq<string>>)
    ensures vs.None? <==> exists i :: 0 <= i < |values| && values[i].None?
    ensures vs.Some? ==> |vs.value| == |values| && forall i :: 0 <= i < |values| ==> values[i] == Some(vs.value[i])
  {
    if values == [] then Some([])
    else
      var front := Known(values[..|values|-1]);
      if front.None? || values[|values|-1].None? then None else Some(front.value + [values[|values|-1].value])
  }

  /** No label for a tuple with a missing value. */
  function KeyFor(names: seq<string>, values: seq<Option<string>>): Option<string>
    requires |names| == |values|
  {
    var vs := Known(values);
    if vs.None? then None else Some(LabelOf(names, vs.value))
  }

  method KeyOf(names: seq<string>, values: seq<Option<string>>) returns (key: Option<string>)
    requires |names| == |values|
    ensures key == KeyFor(names, values)
  {
    var parts: seq<string> := [];
    ghost var vs: seq<string> := [];
    for i := 0 to |names|
      invariant |parts| == |vs| == i
      invariant forall k :: 0 <= k < i ==> values[k] == Some(vs[k]) && parts[k] == Part(names[k], vs[k])
    {
      if values[i].None? {
        return None;
      }
      parts := parts + [Part(names[i], values[i].value)];
      vs := vs + [values[i].value];
    }
    assert vs == Known(values).value;
    assert parts == Parts(names, vs);
    return Some(Join(parts));
  }

  /** What follows the first `=`, or all of a part without one. */
  function AfterEquals(part: string): string {
    if part == "" then ""
    else if part[0] == '=' then part[1..]
    else if '=' in part then AfterEquals(part[1..]) else part
  }

  /** What follows the first equals sign of a part, or the whole of a part that has none. */
  lemma {:induction false} AfterEqualsMeans(part: string, k: nat)
    ensures '=' !in part ==> AfterEquals(part) == part
    ensures k < |part| && part[k] == '=' && '=' !in part[..k] ==> AfterEquals(part) == part[k+1..]
  {
    if part != "" && part[0] != '=' {
      if k > 0 && k < |part| && part[k] == '=' && '=' !in part[..k] {
        assert part[1..][..k-1] == part[..k][1..] && part[1..][k-1] == '=';
        AfterEqualsMeans(part[1..], k - 1);
        assert part[1..][k..] == part[k+1..];
      }
    }
  }

  function ValuesOf(parts: seq<string>): (values: seq<string>)
    ensures |values| == |parts|
  {
    if parts == [] then [] else [AfterEquals(parts[0])] + ValuesOf(parts[1..])
  }

  /** A dimension's name: neither a space nor an equals sign. */
  predicate Plain(name: string) {
    forall i :: 0 <= i < |name| ==> name[i] != ' ' && name[i] != '='
  }

  lemma {:induction false} AfterEqualsOfPart(name: string, value: string)
    requires Plain(name)
    ensures AfterEquals(Part(name, value)) == value
  {
    var p := Part(name, value);
    assert p[|name|] == '=';
    if name == "" {
      assert p[1..] == value;
    } else {
      assert p[0] == name[0] && p[1..] == Part(name[1..], value);
      AfterEqualsOfPart(name[1..], value);
    }
  }

  /** A label cut short inside a part loses the end of the value. */
  lemma CutPart(name: string, value: string, rest: string, k: nat)
    requires Plain(name) && k < |Part(name, value)| && At(Part(name, value) + SEPARATOR + rest, k)
    ensures |AfterEquals((Part(name, value) + SEPARATOR + rest)[..k])| < |value|
  {
    var p := Part(name, value);
    var s := p + SEPARATOR + rest;
    assert s[k] == p[k] == ' ' && p[|name|] == '=';
    assert forall j :: 0 <= j < |name| ==> p[j] == name[j];
    var cut := value[..k - |name| - 1];
    assert s[..k] == Part(name, cut);
    AfterEqualsOfPart(name, cut);
  }

  /**
   * A label gives its values back exactly when no part but the last is cut by, or completes, a
   * separator, and the last holds none. A value that merely ends in " ×" breaks it.
   */
  lemma {:induction false} LabelGivesValues(names: seq<string>, values: seq<string>)
    requires |names| == |values| > 0 && forall i :: 0 <= i < |names| ==> Plain(names[i])
    ensures ValuesOf(Split(LabelOf(names, values))) == values <==> Clean(Parts(names, values))
  {
    hide Clean, CleanBefore, At, AfterEquals;
    var parts, s := Parts(names, values), LabelOf(names, values);
    AfterEqualsOfPart(names[0], values[0]);
    if |names| == 1 {
      OnePart(s);
      CleanOne(parts);
      if FirstFrom(s, 0) == |s| {
        assert ValuesOf([s]) == [values[0]] == values;
      }
    } else {
      var tail := parts[1..];
      assert tail == Parts(names[1..], values[1..]);
      LabelGivesValues(names[1..], values[1..]);
      FirstOfLabel(parts[0], Join(tail));
      CleanSplits(parts);
      ManyParts(names, values);
    }
  }

  lemma CleanOne(parts: seq<string>)
    requires |parts| == 1
    ensures Clean(parts) <==> CleanLast(parts[0])
  {
  }

  lemma OnePart(s: string)
    ensures CleanLast(s) <==> FirstFrom(s, 0) == |s|
    ensures FirstFrom(s, 0) == |s| ==> Split(s) == [s]
    ensures FirstFrom(s, 0) < |s| ==> |Split(s)| > 1
  {
  }

  /** The first part is read back in full exactly when the first separator is the one after it. */
  lemma ManyParts(names: seq<string>, values: seq<string>)
    requires |names| == |values| > 1 && Plain(names[0])
    requires var k := FirstFrom(LabelOf(names, values), 0);
             && k <= |Part(names[0], values[0])|
             && (k == |Part(names[0], values[0])| <==> CleanBefore(Part(names[0], values[0])))
    ensures ValuesOf(Split(LabelOf(names, values))) == values
       <==> CleanBefore(Part(names[0], values[0])) && ValuesOf(Split(LabelOf(names[1..], values[1..]))) == values[1..]
  {
    hide CleanBefore, AfterEquals;
    var p, s := Part(names[0], values[0]), LabelOf(names, values);
    var rest := LabelOf(names[1..], values[1..]);
    var k := FirstFrom(s, 0);
    assert Parts(names, values)[1..] == Parts(names[1..], values[1..]);
    assert s == p + SEPARATOR + rest;
    AfterEqualsOfPart(names[0], values[0]);
    if k == |p| {
      assert s[..k] == p && s[k+3..] == rest;
      assert ValuesOf(Split(s)) == [values[0]] + ValuesOf(Split(rest));
      assert values == [values[0]] + values[1..];
    } else {
      CutPart(names[0], values[0], rest, k);
      assert ValuesOf(Split(s))[0] == AfterEquals(s[..k]);
    }
  }

  /** A cut label reads some value short, so its first values are the tuple's only if the parts are clean. */
  lemma {:induction false} FirstValuesTell(names: seq<string>, values: seq<string>)
    requires |names| == |values| > 0 && forall i :: 0 <= i < |names| ==> Plain(names[i])
    ensures |Split(LabelOf(names, values))| >= |names|
    ensures ValuesOf(Split(LabelOf(names, values)))[..|names|] == values <==> Clean(Parts(names, values))
  {
    hide Clean, CleanBefore, At, AfterEquals;
    LabelSplits(names, values);
    LabelGivesValues(names, values);
    var parts, s := Parts(names, values), LabelOf(names, values);
    var read := ValuesOf(Split(s));
    if read == values {
      assert read[..|names|] == values;
    } else if |names| == 1 {
      OnePart(s);
      CleanOne(parts);
      AfterEqualsOfPart(names[0], values[0]);
      var k := FirstFrom(s, 0);
      if k < |s| {
        CutOnlyPart(names[0], values[0], k);
        assert read[0] == AfterEquals(s[..k]);
        assert read[..1][0] != values[0];
      }
    } else {
      FirstValuesTell(names[1..], values[1..]);
      FirstOfLabel(parts[0], Join(parts[1..]));
      assert parts[1..] == Parts(names[1..], values[1..]);
      CleanSplits(parts);
      FirstOfMany(names, values);
    }
  }

  lemma CutOnlyPart(name: string, value: string, k: nat)
    requires Plain(name) && k < |Part(name, value)| && At(Part(name, value), k)
    ensures |AfterEquals(Part(name, value)[..k])| < |value|
  {
    var p := Part(name, value);
    assert (p + SEPARATOR + "")[..k] == p[..k];
    CutPart(name, value, "", k);
  }

  lemma FirstOfMany(names: seq<string>, values: seq<string>)
    requires |names| == |values| > 1 && Plain(names[0])
    requires |Split(LabelOf(names, values))| >= |names| && |Split(LabelOf(names[1..], values[1..]))| >= |names| - 1
    requires var k := FirstFrom(LabelOf(names, values), 0);
             && k <= |Part(names[0], values[0])|
             && (k == |Part(names[0], values[0])| <==> CleanBefore(Part(names[0], values[0])))
    ensures ValuesOf(Split(LabelOf(names, values)))[..|names|] == values
       <==> && CleanBefore(Part(names[0], values[0]))
            && ValuesOf(Split(LabelOf(names[1..], values[1..])))[..|names|-1] == values[1..]
  {
    hide CleanBefore, AfterEquals, FirstFrom, At, Clean;
    var p, s := Part(names[0], values[0]), LabelOf(names, values);
    var rest := LabelOf(names[1..], values[1..]);
    var k := FirstFrom(s, 0);
    assert Parts(names, values)[1..] == Parts(names[1..], values[1..]);
    assert s == p + SEPARATOR + rest;
    AfterEqualsOfPart(names[0], values[0]);
    var read := ValuesOf(Split(s));
    if k == |p| {
      assert s[..k] == p && s[k+3..] == rest;
      assert read == [values[0]] + ValuesOf(Split(rest));
      assert read[..|names|] == [values[0]] + ValuesOf(Split(rest))[..|names|-1];
      assert values == [values[0]] + values[1..];
    } else {
      CutPart(names[0], values[0], rest, k);
      assert read[0] == AfterEquals(s[..k]) && read[..|names|][0] == read[0];
    }
  }

  // ---- A label splits into no fewer parts than it was joined from ----

  /** What a cut leaves of a separator does not change how the rest splits. */
  lemma LeftoverSplits(rest: string)
    requires !(|rest| >= 2 && rest[0] == '×' && rest[1] == ' ')
    ensures |Split("× " + rest)| == |Split(rest)|
  {
    var q, k := "× " + rest, FirstFrom(rest, 0);
    forall j: nat | j <= |rest|
      ensures At(q, j + 2) <==> At(rest, j)
    {
    }
    assert !At(q, 0) && !At(q, 1);
    var m := FirstFrom(q, 0);
    assert m < k + 2 ==> m >= 2 && At(rest, m - 2);
    assert m == k + 2;
    if k < |rest| {
      assert q[m+3..] == rest[k+3..];
    }
  }

  lemma {:induction false} SplitGrows(p: string, rest: string)
    requires !(|rest| >= 2 && rest[0] == '×' && rest[1] == ' ')
    ensures |Split(p + SEPARATOR + rest)| >= 1 + |Split(rest)|
    decreases |p|
  {
    var s := p + SEPARATOR + rest;
    FirstOfLabel(p, rest);
    var k := FirstFrom(s, 0);
    if k == |p| {
      assert s[k+3..] == rest;
    } else if k + 3 <= |p| {
      assert s[k+3..] == p[k+3..] + SEPARATOR + rest;
      SplitGrows(p[k+3..], rest);
    } else {
      assert s[|p|] == ' ' && s[|p|+1] == '×' && s[|p|+2] == ' ';
      assert k == |p| - 2;
      assert s[k+3..] == "× " + rest;
      LeftoverSplits(rest);
    }
  }

  lemma {:induction false} LabelSplits(names: seq<string>, values: seq<string>)
    requires |names| == |values| && forall i :: 0 <= i < |names| ==> Plain(names[i])
    ensures |Split(LabelOf(names, values))| >= |names|
  {
    if |names| > 1 {
      var rest := LabelOf(names[1..], values[1..]);
      LabelSplits(names[1..], values[1..]);
      assert Parts(names, values)[1..] == Parts(names[1..], values[1..]);
      assert LabelOf(names, values) == Part(names[0], values[0]) + SEPARATOR + rest;
      LabelStarts(names[1..], values[1..]);
      SplitGrows(Part(names[0], values[0]), rest);
    }
  }

  lemma LabelStarts(names: seq<string>, values: seq<string>)
    requires |names| == |values| > 0 && Plain(names[0])
    ensures var s := LabelOf(names, values); !(|s| >= 2 && s[0] == '×' && s[1] == ' ')
  {
    var s, n := LabelOf(names, values), names[0];
    var p := Part(n, values[0]);
    assert p[|n|] == '=' && forall i :: 0 <= i < |n| ==> p[i] == n[i];
    assert p <= s;
    if |n| > 0 {
      assert s[0] == p[0];
    }
  }

  /** Neither part holds the separator, and yet the label is read back as other values. */
  lemma EndingBreaksLabel(names: seq<string>, values: seq<string>)
    requires names == ["a", "c"] && values == ["b ×", "d"]
    ensures CleanLast(Part(names[0], values[0])) && CleanLast(Part(names[1], values[1]))
    ensures ValuesOf(Split(LabelOf(names, values))) != values
  {
    hide ValuesOf, Split, LabelOf;
    var first := Parts(names, values)[0];
    assert first == ['a', '=', 'b', ' ', '×'];
    assert At(first + SEPARATOR, 3);
    assert !CleanBefore(first);
    assert Plain(names[0]) && Plain(names[1]);
    LabelGivesValues(names, values);
  }

  /** One dimension whose value holds a separator, and two dimensions: one label for both. */
  lemma TwoTuplesOneLabel()
    ensures LabelOf(["a"], ["b × c=d"]) == LabelOf(["a", "c"], ["b", "d"])
  {
    assert Part("a", "b × c=d") == "a=b × c=d" && Part("a", "b") == "a=b" && Part("c", "d") == "c=d";
    assert Parts(["a"], ["b × c=d"]) == ["a=b × c=d"];
    assert Parts(["a", "c"], ["b", "d"]) == ["a=b", "c=d"];
    assert ["a=b", "c=d"][1..] == ["c=d"];
    assert "a=b" + SEPARATOR + "c=d" == "a=b × c=d";
  }
}
