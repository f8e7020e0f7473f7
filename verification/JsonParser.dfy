/**
 * A parser for the texts of module Json, and the proof that it reads back every value it
 * is given in print, whatever follows it.
 */
module JsonParser {
  import opened Json

  datatype Parsed<+T> = Fail | Ok(value: T, rest: Text)

  predicate IsHex(u: Unit) { 0x30 <= u <= 0x39 || 0x61 <= u <= 0x66 }

  function HexValue(u: Unit): nat
    requires IsHex(u)
  {
    if u <= 0x39 then u - 0x30 else u - 0x61 + 10
  }

  /** One unit of a string body. */
  function ParseUnit(s: Text): (p: Parsed<Unit>)
    ensures p.Ok? ==> |p.rest| < |s|
  {
    if s == [] || s[0] == QUOTE then Fail
    else if s[0] != BACKSLASH then Ok(s[0], s[1..])
    else if |s| < 2 then Fail
    else if s[1] == QUOTE || s[1] == BACKSLASH then Ok(s[1], s[2..])
    else if s[1] == 0x62 then Ok(0x08, s[2..])
    else if s[1] == 0x66 then Ok(0x0C, s[2..])
    else if s[1] == 0x6E then Ok(0x0A, s[2..])
    else if s[1] == 0x72 then Ok(0x0D, s[2..])
    else if s[1] == 0x74 then Ok(0x09, s[2..])
    else if s[1] == 0x75 && |s| >= 6 && IsHex(s[2]) && IsHex(s[3]) && IsHex(s[4]) && IsHex(s[5]) then
      Ok(HexValue(s[2]) * 0x1000 + HexValue(s[3]) * 0x100 + HexValue(s[4]) * 16 + HexValue(s[5]), s[6..])
    else Fail
  }

  function ParseBody(s: Text): (p: Parsed<Text>)
    ensures p.Ok? ==> |p.rest| < |s|
    decreases |s|
  {
    if s == [] then Fail
    else if s[0] == QUOTE then Ok([], s[1..])
    else
      var head := ParseUnit(s);
      if head.Fail? then Fail
      else
        var tail := ParseBody(head.rest);
        if tail.Fail? then Fail else Ok([head.value] + tail.value, tail.rest)
  }

  function ParseString(s: Text): (p: Parsed<Text>)
    ensures p.Ok? ==> |p.rest| < |s|
  {
    if s != [] && s[0] == QUOTE then ParseBody(s[1..]) else Fail
  }

  /** The longest run of number units. */
  function NumberRun(s: Text): (n: nat)
    ensures n <= |s|
  {
    if s != [] && NumberUnit(s[0]) then 1 + NumberRun(s[1..]) else 0
  }

  function ParseValue(s: Text): (p: Parsed<Json>)
    ensures p.Ok? ==> |p.rest| < |s|
    decreases |s|, 0
  {
    if s == [] then Fail
    else if NULL <= s then Ok(Null, s[4..])
    else if TRUE <= s then Ok(Bool(true), s[4..])
    else if FALSE <= s then Ok(Bool(false), s[5..])
    else if s[0] == QUOTE then
      var p := ParseString(s);
      if p.Fail? then Fail else Ok(Str(p.value), p.rest)
    else if s[0] == LBRACKET then
      if |s| >= 2 && s[1] == RBRACKET then Ok(Arr([]), s[2..])
      else
        var p := ParseItems(s[1..]);
        if p.Fail? then Fail else Ok(Arr(p.value), p.rest)
    else if s[0] == LBRACE then
      if |s| >= 2 && s[1] == RBRACE then Ok(Obj([]), s[2..])
      else
        var p := ParseFields(s[1..]);
        if p.Fail? then Fail else Ok(Obj(p.value), p.rest)
    else if NumberUnit(s[0]) then Ok(Number(s[..NumberRun(s)]), s[NumberRun(s)..])
    else Fail
  }

  function ParseItems(s: Text): (p: Parsed<seq<Json>>)
    ensures p.Ok? ==> |p.rest| < |s|
    decreases |s|, 1
  {
    var head := ParseValue(s);
    if head.Fail? || head.rest == [] then Fail
    else if head.rest[0] == RBRACKET then Ok([head.value], head.rest[1..])
    else if head.rest[0] != COMMA then Fail
    else
      var tail := ParseItems(head.rest[1..]);
      if tail.Fail? then Fail else Ok([head.value] + tail.value, tail.rest)
  }

  function ParseField(s: Text): (p: Parsed<Field<Json>>)
    ensures p.Ok? ==> |p.rest| < |s|
    decreases |s|, 1
  {
    var key := ParseString(s);
    if key.Fail? || key.rest == [] || key.rest[0] != COLON then Fail
    else
      var value := ParseValue(key.rest[1..]);
      if value.Fail? then Fail else Ok(Field(key.value, value.value), value.rest)
  }

  function ParseFields(s: Text): (p: Parsed<seq<Field<Json>>>)
    ensures p.Ok? ==> |p.rest| < |s|
    decreases |s|, 2
  {
    var head := ParseField(s);
    if head.Fail? || head.rest == [] then Fail
    else if head.rest[0] == RBRACE then Ok([head.value], head.rest[1..])
    else if head.rest[0] != COMMA then Fail
    else
      var tail := ParseFields(head.rest[1..]);
      if tail.Fail? then Fail else Ok([head.value] + tail.value, tail.rest)
  }

  // ---- The parser inverts the printer ----

  lemma HexRoundTrip(u: Unit)
    ensures HexValue(HexDigit(u / 0x1000)) * 0x1000 + HexValue(HexDigit(u / 0x100 % 16)) * 0x100
            + HexValue(HexDigit(u / 16 % 16)) * 16 + HexValue(HexDigit(u % 16)) == u
  {
    assert u / 16 == u / 0x100 * 16 + u / 16 % 16;
    assert u / 0x100 == u / 0x1000 * 16 + u / 0x100 % 16;
  }

  lemma UnitRoundTrip(u: Unit, rest: Text)
    ensures ParseUnit(EscapeUnit(u) + rest) == Ok(u, rest)
    ensures EscapeUnit(u) != [] && EscapeUnit(u)[0] != QUOTE
  {
    var s := EscapeUnit(u) + rest;
    assert s[|EscapeUnit(u)|..] == rest;
    if |EscapeUnit(u)| == 6 {
      HexRoundTrip(u);
    }
  }

  /** A text that starts with one printed unit. */
  lemma BodyStep(printed: Text, u: Unit, tail: Text, v: Text, rest: Text)
    requires printed != [] && printed[0] != QUOTE && ParseUnit(printed + tail) == Ok(u, tail)
    requires ParseBody(tail) == Ok(v, rest)
    ensures ParseBody(printed + tail) == Ok([u] + v, rest)
  {
    hide ParseUnit;
    assert (printed + tail)[0] == printed[0];
  }

  lemma PlainUnit(u: Unit, tail: Text)
    requires u != QUOTE && u != BACKSLASH
    ensures ParseUnit([u] + tail) == Ok(u, tail)
  {
    assert ([u] + tail)[1..] == tail;
  }

  lemma {:induction false} BodyRoundTrip(s: Text, rest: Text)
    ensures ParseBody(Escape(s) + [QUOTE] + rest) == Ok(s, rest)
    decreases |s|
  {
    hide ParseUnit, EscapeUnit, ParseBody;
    if s == [] {
      EmptyBody(rest);
      assert Escape(s) + [QUOTE] + rest == [QUOTE] + rest;
    } else if |s| >= 2 && High(s[0]) && Low(s[1]) {
      BodyRoundTrip(s[2..], rest);
      var tail := Escape(s[2..]) + [QUOTE] + rest;
      PlainUnit(s[1], tail);
      BodyStep([s[1]], s[1], tail, s[2..], rest);
      PlainUnit(s[0], [s[1]] + tail);
      BodyStep([s[0]], s[0], [s[1]] + tail, [s[1]] + s[2..], rest);
      assert Escape(s) + [QUOTE] + rest == [s[0]] + ([s[1]] + tail);
      assert s == [s[0]] + ([s[1]] + s[2..]);
    } else {
      BodyRoundTrip(s[1..], rest);
      var tail := Escape(s[1..]) + [QUOTE] + rest;
      UnitRoundTrip(s[0], tail);
      BodyStep(EscapeUnit(s[0]), s[0], tail, s[1..], rest);
      assert Escape(s) + [QUOTE] + rest == EscapeUnit(s[0]) + tail;
      assert s == [s[0]] + s[1..];
    }
  }

  lemma EmptyBody(rest: Text)
    ensures ParseBody([QUOTE] + rest) == Ok([], rest)
  {
    assert ([QUOTE] + rest)[1..] == rest;
  }

  lemma StringRoundTrip(s: Text, rest: Text)
    ensures ParseString(Quote(s) + rest) == Ok(s, rest)
  {
    BodyRoundTrip(s, rest);
    assert (Quote(s) + rest)[1..] == Escape(s) + [QUOTE] + rest;
  }

  /** What may follow a value: nothing, or a unit no number goes on with. */
  predicate Stops(rest: Text) {
    rest == [] || !NumberUnit(rest[0])
  }

  lemma {:induction false} RunStops(t: Text, rest: Text)
    requires Stops(rest) && forall i :: 0 <= i < |t| ==> NumberUnit(t[i])
    ensures NumberRun(t + rest) == |t|
  {
    if t == [] {
      assert t + rest == rest;
    } else {
      assert (t + rest)[1..] == t[1..] + rest;
      RunStops(t[1..], rest);
    }
  }

  lemma NumberRoundTrip(t: Text, rest: Text)
    requires NumberToken(t) && Stops(rest)
    ensures ParseValue(t + rest) == Ok(Number(t), rest)
  {
    RunStops(t, rest);
    var s := t + rest;
    assert s[0] == t[0] && NumberUnit(t[0]);
    assert s[..|t|] == t && s[|t|..] == rest;
  }

  lemma PrintStarts(v: Json)
    requires Printable(v)
    ensures Print(v) != [] && Print(v)[0] != RBRACKET
  {
  }

  lemma WordRoundTrip(v: Json, rest: Text)
    requires v.Null? || v.Bool?
    ensures ParseValue(Print(v) + rest) == Ok(v, rest)
  {
    hide ParseString, ParseItems, ParseFields, NumberRun;
    var s := Print(v) + rest;
    assert s[|Print(v)|..] == rest && s[0] == Print(v)[0];
    if v.Bool? {
      assert s[..|Print(v)|] == Print(v);
      assert !(NULL <= s) && (v.truth || !(TRUE <= s));
    }
  }

  lemma ArrayRoundTrip(body: Text, items: seq<Json>, rest: Text)
    requires body != [] && body[0] != RBRACKET && ParseItems(body + [RBRACKET] + rest) == Ok(items, rest)
    ensures ParseValue([LBRACKET] + body + [RBRACKET] + rest) == Ok(Arr(items), rest)
  {
    hide ParseString, ParseItems, ParseFields, NumberRun;
    var s := [LBRACKET] + body + [RBRACKET] + rest;
    assert s[1..] == body + [RBRACKET] + rest && s[1] == body[0];
  }

  lemma ObjectRoundTrip(body: Text, fields: seq<Field<Json>>, rest: Text)
    requires body != [] && body[0] != RBRACE && ParseFields(body + [RBRACE] + rest) == Ok(fields, rest)
    ensures ParseValue([LBRACE] + body + [RBRACE] + rest) == Ok(Obj(fields), rest)
  {
    hide ParseString, ParseItems, ParseFields, NumberRun;
    var s := [LBRACE] + body + [RBRACE] + rest;
    assert s[1..] == body + [RBRACE] + rest && s[1] == body[0];
  }

  lemma EmptyRoundTrip(rest: Text)
    ensures ParseValue([LBRACKET, RBRACKET] + rest) == Ok(Arr([]), rest)
    ensures ParseValue([LBRACE, RBRACE] + rest) == Ok(Obj([]), rest)
  {
    hide ParseString, ParseItems, ParseFields, NumberRun;
    var a, o := [LBRACKET, RBRACKET] + rest, [LBRACE, RBRACE] + rest;
    assert a[0] == LBRACKET && a[1] == RBRACKET && a[2..] == rest;
    assert o[0] == LBRACE && o[1] == RBRACE && o[2..] == rest;
  }

  lemma QuotedRoundTrip(t: Text, rest: Text)
    ensures ParseValue(Quote(t) + rest) == Ok(Str(t), rest)
  {
    hide ParseString, ParseItems, ParseFields, NumberRun, Escape;
    StringRoundTrip(t, rest);
    assert (Quote(t) + rest)[0] == QUOTE;
  }

  /** The parser reads back every printable value, whatever follows it in the text. */
  lemma {:induction false} ParseInvertsPrint(v: Json, rest: Text)
    requires Printable(v) && Stops(rest)
    ensures ParseValue(Print(v) + rest) == Ok(v, rest)
    decreases v, 0
  {
    hide ParseValue, ParseItems, ParseFields, Quote;
    match v
    case Null => WordRoundTrip(v, rest);
    case Bool(b) => WordRoundTrip(v, rest);
    case Number(t) => NumberRoundTrip(t, rest);
    case Str(t) => QuotedRoundTrip(t, rest);
    case Arr(items) =>
      EmptyRoundTrip(rest);
      if items == [] {
        assert Print(v) == [LBRACKET, RBRACKET] && v == Arr([]);
      } else {
        ItemsRoundTrip(items, rest);
        PrintStarts(items[0]);
        assert PrintItems(items)[0] == Print(items[0]);
        JoinStarts(PrintItems(items));
        ArrayRoundTrip(Join(PrintItems(items)), items, rest);
        assert Print(v) + rest == [LBRACKET] + Join(PrintItems(items)) + [RBRACKET] + rest;
      }
    case Obj(fields) =>
      EmptyRoundTrip(rest);
      if fields == [] {
        assert Print(v) == [LBRACE, RBRACE] && v == Obj([]);
      } else {
        FieldsRoundTrip(fields, rest);
        var parts := Entries(PrintValues(fields));
        EntryStarts(PrintValues(fields)[0]);
        JoinStarts(parts);
        ObjectRoundTrip(Join(parts), fields, rest);
        assert Print(v) + rest == [LBRACE] + Join(parts) + [RBRACE] + rest;
      }
  }

  lemma JoinStarts(parts: seq<Text>)
    requires parts != [] && parts[0] != []
    ensures Join(parts) != [] && Join(parts)[0] == parts[0][0]
  {
  }

  lemma EntryStarts(f: Field<Text>)
    ensures Entry(f) != [] && Entry(f)[0] == QUOTE
  {
  }

  lemma JoinLast(text: Text, close: Unit, rest: Text)
    ensures Join([text]) + [close] + rest == text + ([close] + rest)
    ensures ([close] + rest)[1..] == rest
  {
  }

  lemma JoinMore(text: Text, parts: seq<Text>, close: Unit, rest: Text)
    requires parts != []
    ensures Join([text] + parts) + [close] + rest == text + ([COMMA] + (Join(parts) + [close] + rest))
    ensures ([COMMA] + (Join(parts) + [close] + rest))[1..] == Join(parts) + [close] + rest
  {
    assert ([text] + parts)[1..] == parts;
  }

  /** One item, and how the list goes on. */
  lemma ItemStep(text: Text, v: Json, after: Text)
    requires ParseValue(text + after) == Ok(v, after) && after != []
    ensures after[0] == RBRACKET ==> ParseItems(text + after) == Ok([v], after[1..])
    ensures after[0] == COMMA && ParseItems(after[1..]).Ok? ==>
              var tail := ParseItems(after[1..]); ParseItems(text + after) == Ok([v] + tail.value, tail.rest)
  {
    hide ParseValue;
  }

  lemma {:induction false} ItemsRoundTrip(items: seq<Json>, rest: Text)
    requires items != [] && forall i :: 0 <= i < |items| ==> Printable(items[i])
    ensures ParseItems(Join(PrintItems(items)) + [RBRACKET] + rest) == Ok(items, rest)
    decreases items
  {
    hide ParseValue, ParseItems, Print, Join;
    var text := Print(items[0]);
    if |items| == 1 {
      var after := [RBRACKET] + rest;
      JoinLast(text, RBRACKET, rest);
      ParseInvertsPrint(items[0], after);
      ItemStep(text, items[0], after);
      assert PrintItems(items) == [text] && items == [items[0]];
    } else {
      var parts := PrintItems(items[1..]);
      var after := [COMMA] + (Join(parts) + [RBRACKET] + rest);
      JoinMore(text, parts, RBRACKET, rest);
      ParseInvertsPrint(items[0], after);
      ItemsRoundTrip(items[1..], rest);
      ItemStep(text, items[0], after);
      assert PrintItems(items) == [text] + parts && items == [items[0]] + items[1..];
    }
  }

  lemma {:induction false} FieldRoundTrip(f: Field<Json>, rest: Text)
    requires Printable(f.value) && Stops(rest)
    ensures ParseField(Entry(Field(f.key, Print(f.value))) + rest) == Ok(f, rest)
    decreases f, 1
  {
    hide ParseValue, ParseString, Print, Quote;
    var s := Entry(Field(f.key, Print(f.value))) + rest;
    var after := [COLON] + (Print(f.value) + rest);
    assert s == Quote(f.key) + after;
    StringRoundTrip(f.key, after);
    assert after[1..] == Print(f.value) + rest;
    ParseInvertsPrint(f.value, rest);
  }

  lemma FieldStep(text: Text, f: Field<Json>, after: Text)
    requires ParseField(text + after) == Ok(f, after) && after != []
    ensures after[0] == RBRACE ==> ParseFields(text + after) == Ok([f], after[1..])
    ensures after[0] == COMMA && ParseFields(after[1..]).Ok? ==>
              var tail := ParseFields(after[1..]); ParseFields(text + after) == Ok([f] + tail.value, tail.rest)
  {
    hide ParseField;
  }

  lemma LastField(text: Text, f: Field<Json>, rest: Text)
    requires ParseField(text + ([RBRACE] + rest)) == Ok(f, [RBRACE] + rest)
    ensures ParseFields(Join([text]) + [RBRACE] + rest) == Ok([f], rest)
  {
    hide ParseField, ParseFields, Join;
    JoinLast(text, RBRACE, rest);
    FieldStep(text, f, [RBRACE] + rest);
  }

  lemma EarlierField(text: Text, f: Field<Json>, parts: seq<Text>, tail: seq<Field<Json>>, rest: Text)
    requires parts != []
    requires var after := [COMMA] + (Join(parts) + [RBRACE] + rest); ParseField(text + after) == Ok(f, after)
    requires ParseFields(Join(parts) + [RBRACE] + rest) == Ok(tail, rest)
    ensures ParseFields(Join([text] + parts) + [RBRACE] + rest) == Ok([f] + tail, rest)
  {
    hide ParseField, ParseFields, Join;
    JoinMore(text, parts, RBRACE, rest);
    FieldStep(text, f, [COMMA] + (Join(parts) + [RBRACE] + rest));
  }

  lemma {:induction false} FieldsRoundTrip(fields: seq<Field<Json>>, rest: Text)
    requires fields != [] && forall i :: 0 <= i < |fields| ==> Printable(fields[i].value)
    ensures ParseFields(Join(Entries(PrintValues(fields))) + [RBRACE] + rest) == Ok(fields, rest)
    decreases fields
  {
    hide ParseField, ParseFields, Print, Entry, Join;
    var f := fields[0];
    var text := Entry(Field(f.key, Print(f.value)));
    assert PrintValues(fields)[0] == Field(f.key, Print(f.value));
    if |fields| == 1 {
      FieldRoundTrip(f, [RBRACE] + rest);
      LastField(text, f, rest);
      assert Entries(PrintValues(fields)) == [text] && fields == [f];
    } else {
      var parts := Entries(PrintValues(fields[1..]));
      FieldRoundTrip(f, [COMMA] + (Join(parts) + [RBRACE] + rest));
      FieldsRoundTrip(fields[1..], rest);
      EarlierField(text, f, parts, fields[1..], rest);
      assert PrintValues(fields)[1..] == PrintValues(fields[1..]);
      assert Entries(PrintValues(fields)) == [text] + parts && fields == [f] + fields[1..];
    }
  }
}
