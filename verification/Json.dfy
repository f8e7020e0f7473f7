/**
 * Canonical JSON (apps/api/src/domain/policy.ts:107-114): keys sorted at every depth, text
 * escaped as section 7 of RFC 8259 asks. A string is a sequence of UTF-16 code units.
 */
module Json {

  type Unit = x: int | 0 <= x < 0x1_0000
  type Text = seq<Unit>

  datatype Field<+T> = Field(key: Text, value: T)

  /**
   * A JavaScript value that JSON can print. A finite number is its shortest decimal token;
   * `NotFinite` is NaN or an infinity, which prints as null.
   */
  datatype Json =
    | Null
    | Bool(truth: bool)
    | Number(token: Text)
    | NotFinite
    | Str(text: Text)
    | Arr(items: seq<Json>)
    | Obj(fields: seq<Field<Json>>)

  const QUOTE := 0x22
  const BACKSLASH := 0x5C
  const COMMA := 0x2C
  const COLON := 0x3A
  const LBRACKET := 0x5B
  const RBRACKET := 0x5D
  const LBRACE := 0x7B
  const RBRACE := 0x7D
  const NULL: Text := [0x6E, 0x75, 0x6C, 0x6C]
  const TRUE: Text := [0x74, 0x72, 0x75, 0x65]
  const FALSE: Text := [0x66, 0x61, 0x6C, 0x73, 0x65]

  predicate NumberUnit(u: Unit) {
    0x30 <= u <= 0x39 || u in {0x2D, 0x2B, 0x2E, 0x65, 0x45}
  }

  predicate NumberToken(t: Text) {
    t != [] && (0x30 <= t[0] <= 0x39 || t[0] == 0x2D) && forall i :: 0 <= i < |t| ==> NumberUnit(t[i])
  }

  predicate DistinctKeys<T>(fields: seq<Field<T>>) {
    forall i, j :: 0 <= i < j < |fields| ==> fields[i].key != fields[j].key
  }

  /** What a JavaScript value always is: number tokens are tokens, keys of one object differ. */
  predicate Proper(v: Json) {
    match v
    case Number(t) => NumberToken(t)
    case Arr(items) => forall i :: 0 <= i < |items| ==> Proper(items[i])
    case Obj(fields) => DistinctKeys(fields) && forall i :: 0 <= i < |fields| ==> Proper(fields[i].value)
    case _ => true
  }

  // ---- Strings ----

  predicate High(u: Unit) { 0xD800 <= u <= 0xDBFF }
  predicate Low(u: Unit) { 0xDC00 <= u <= 0xDFFF }

  function HexDigit(n: nat): (u: Unit)
    requires n < 16
  {
    if n < 10 then 0x30 + n else 0x61 + (n - 10)
  }

  function UnicodeEscape(u: Unit): Text {
    [BACKSLASH, 0x75, HexDigit(u / 0x1000), HexDigit(u / 0x100 % 16), HexDigit(u / 16 % 16), HexDigit(u % 16)]
  }

  function EscapeUnit(u: Unit): Text {
    if u == QUOTE || u == BACKSLASH then [BACKSLASH, u]
    else if u == 0x08 then [BACKSLASH, 0x62]
    else if u == 0x0C then [BACKSLASH, 0x66]
    else if u == 0x0A then [BACKSLASH, 0x6E]
    else if u == 0x0D then [BACKSLASH, 0x72]
    else if u == 0x09 then [BACKSLASH, 0x74]
    else if u < 0x20 || High(u) || Low(u) then UnicodeEscape(u)
    else [u]
  }

  /** A surrogate pair is printed as it is, a surrogate without its partner as an escape. */
  function Escape(s: Text): Text {
    if s == [] then []
    else if |s| >= 2 && High(s[0]) && Low(s[1]) then [s[0], s[1]] + Escape(s[2..])
    else EscapeUnit(s[0]) + Escape(s[1..])
  }

  function Quote(s: Text): Text {
    [QUOTE] + Escape(s) + [QUOTE]
  }

  // ---- The printer ----

  /** The default order of Array.prototype.sort on strings: by code unit. */
  predicate Before(a: Text, b: Text) {
    b != [] && (a == [] || a[0] < b[0] || (a[0] == b[0] && Before(a[1..], b[1..])))
  }

  function Insert<T>(f: Field<T>, sorted: seq<Field<T>>): (r: seq<Field<T>>)
    ensures |r| == |sorted| + 1
  {
    if sorted == [] || Before(f.key, sorted[0].key) then [f] + sorted
    else [sorted[0]] + Insert(f, sorted[1..])
  }

  function SortByKey<T>(fields: seq<Field<T>>): (r: seq<Field<T>>)
    ensures |r| == |fields|
  {
    if fields == [] then [] else Insert(fields[0], SortByKey(fields[1..]))
  }

  function Join(parts: seq<Text>): Text {
    if parts == [] then []
    else if |parts| == 1 then parts[0]
    else parts[0] + [COMMA] + Join(parts[1..])
  }

  function Entry(f: Field<Text>): Text {
    Quote(f.key) + [COLON] + f.value
  }

  function Entries(fields: seq<Field<Text>>): seq<Text> {
    if fields == [] then [] else [Entry(fields[0])] + Entries(fields[1..])
  }

  /** `canonicalise`: each value of an object under its key, the keys in order. */
  function Canonicalise(v: Json): Text
    decreases v, 0
  {
    match v
    case Null => NULL
    case NotFinite => NULL
    case Bool(b) => if b then TRUE else FALSE
    case Number(t) => t
    case Str(s) => Quote(s)
    case Arr(items) => [LBRACKET] + Join(CanonicaliseItems(items)) + [RBRACKET]
    case Obj(fields) => [LBRACE] + Join(Entries(SortByKey(CanonicaliseValues(fields)))) + [RBRACE]
  }

  function CanonicaliseItems(items: seq<Json>): (r: seq<Text>)
    ensures |r| == |items|
    decreases items
  {
    if items == [] then [] else [Canonicalise(items[0])] + CanonicaliseItems(items[1..])
  }

  function CanonicaliseValues(fields: seq<Field<Json>>): (r: seq<Field<Text>>)
    ensures |r| == |fields|
    decreases fields
  {
    if fields == [] then []
    else [Field(fields[0].key, Canonicalise(fields[0].value))] + CanonicaliseValues(fields[1..])
  }

  // ---- The value behind the text ----

  /** The value with the fields of every object in key order and every unprintable number null. */
  function Normal(v: Json): Json
    decreases v, 0
  {
    match v
    case NotFinite => Null
    case Arr(items) => Arr(NormalItems(items))
    case Obj(fields) => Obj(SortByKey(NormalValues(fields)))
    case _ => v
  }

  function NormalItems(items: seq<Json>): (r: seq<Json>)
    ensures |r| == |items| && forall i :: 0 <= i < |r| ==> r[i] == Normal(items[i])
    decreases items
  {
    if items == [] then [] else [Normal(items[0])] + NormalItems(items[1..])
  }

  function NormalValues(fields: seq<Field<Json>>): (r: seq<Field<Json>>)
    ensures |r| == |fields|
    ensures forall i :: 0 <= i < |r| ==> r[i] == Field(fields[i].key, Normal(fields[i].value))
    decreases fields
  {
    if fields == [] then [] else [Field(fields[0].key, Normal(fields[0].value))] + NormalValues(fields[1..])
  }

  /**
   * Equality of two values as JSON sees them: objects are the same when they hold the same
   * keys with the same values, in whatever order.
   */
  predicate Same(a: Json, b: Json)
    decreases a
  {
    if a.Null? || a.NotFinite? then b.Null? || b.NotFinite?
    else if a.Arr? then b.Arr? && |a.items| == |b.items| && forall i :: 0 <= i < |a.items| ==>
                                                              Same(a.items[i], b.items[i])
    else if a.Obj? then
      && b.Obj? && |a.fields| == |b.fields|
      && forall i :: 0 <= i < |a.fields| ==>
           exists j ::
             && 0 <= j < |b.fields| && b.fields[j].key == a.fields[i].key
             && Same(a.fields[i].value, b.fields[j].value)
    else a == b
  }

  /** The text of a value whose fields are already in order. */
  function Print(v: Json): Text
    decreases v, 0
  {
    match v
    case Null => NULL
    case NotFinite => NULL
    case Bool(b) => if b then TRUE else FALSE
    case Number(t) => t
    case Str(s) => Quote(s)
    case Arr(items) => [LBRACKET] + Join(PrintItems(items)) + [RBRACKET]
    case Obj(fields) => [LBRACE] + Join(Entries(PrintValues(fields))) + [RBRACE]
  }

  function PrintItems(items: seq<Json>): (r: seq<Text>)
    ensures |r| == |items|
    decreases items
  {
    if items == [] then [] else [Print(items[0])] + PrintItems(items[1..])
  }

  function PrintValues(fields: seq<Field<Json>>): (r: seq<Field<Text>>)
    ensures |r| == |fields| && forall i :: 0 <= i < |r| ==> r[i] == Field(fields[i].key, Print(fields[i].value))
    decreases fields
  {
    if fields == [] then [] else [Field(fields[0].key, Print(fields[0].value))] + PrintValues(fields[1..])
  }

  /** A value without numbers that do not print, whose number tokens are tokens. */
  predicate Printable(v: Json) {
    match v
    case NotFinite => false
    case Number(t) => NumberToken(t)
    case Arr(items) => forall i :: 0 <= i < |items| ==> Printable(items[i])
    case Obj(fields) => forall i :: 0 <= i < |fields| ==> Printable(fields[i].value)
    case _ => true
  }
}
