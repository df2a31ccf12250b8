/** The canonical text that commitments hash (packages/shared/src/commitments/index.ts:20-49), over UTF-16 code
    units as the program's strings are. */
module CanonicalJson {
  import opened Options

  type Unit = u: nat | u < 0x1_0000
  type Text = seq<Unit>

  const MAX_SAFE_INTEGER: int := 0x1F_FFFF_FFFF_FFFF

  const QUOTE: Unit := 0x22
  const COMMA: Unit := 0x2C
  const MINUS: Unit := 0x2D
  const COLON: Unit := 0x3A
  const OPEN_ARRAY: Unit := 0x5B
  const BACKSLASH: Unit := 0x5C
  const CLOSE_ARRAY: Unit := 0x5D
  const OPEN_OBJECT: Unit := 0x7B
  const CLOSE_OBJECT: Unit := 0x7D
  const NULL_TEXT: Text := [0x6E, 0x75, 0x6C, 0x6C]
  const TRUE_TEXT: Text := [0x74, 0x72, 0x75, 0x65]
  const FALSE_TEXT: Text := [0x66, 0x61, 0x6C, 0x73, 0x65]

  /** A value of the program. Arrays may have holes; fields are in insertion order; anything the encoder refuses
      outright, and any number that is not an integer, is `Unsupported`. */
  datatype Value =
    | Null
    | Bool(b: bool)
    | Num(n: int)
    | NegativeZero
    | Str(s: Text)
    | Arr(items: seq<Item>)
    | Obj(fields: seq<Field>)
    | Unsupported

  datatype Item = Hole | Full(value: Value)

  datatype Field = Field(key: Text, value: Value)

  // ---------- strings ----------

  function HexDigit(d: nat): Unit
    requires d < 16
  {
    if d < 10 then 0x30 + d else 0x61 + (d - 10)
  }

  /** `\uXXXX`. */
  function EscapedUnit(u: Unit): Text {
    [BACKSLASH, 0x75, HexDigit(u / 4096), HexDigit(u / 256 % 16), HexDigit(u / 16 % 16), HexDigit(u % 16)]
  }

  /** The letter of a two-unit escape. */
  function ShortEscape(u: Unit): Option<Unit> {
    if u == QUOTE then Some(QUOTE)
    else if u == BACKSLASH then Some(BACKSLASH)
    else if u == 0x08 then Some(0x62)
    else if u == 0x0C then Some(0x66)
    else if u == 0x0A then Some(0x6E)
    else if u == 0x0D then Some(0x72)
    else if u == 0x09 then Some(0x74)
    else None
  }

  predicate IsHigh(u: Unit) {
    0xD800 <= u < 0xDC00
  }

  predicate IsLow(u: Unit) {
    0xDC00 <= u < 0xE000
  }

  /** What `JSON.stringify` writes between the quotes: surrogates that do not pair are escaped. */
  function Escaped(s: Text): Text {
    if s == [] then []
    else if ShortEscape(s[0]).Some? then [BACKSLASH, ShortEscape(s[0]).value] + Escaped(s[1..])
    else if s[0] < 0x20 then EscapedUnit(s[0]) + Escaped(s[1..])
    else if IsHigh(s[0]) && |s| > 1 && IsLow(s[1]) then [s[0], s[1]] + Escaped(s[2..])
    else if IsHigh(s[0]) || IsLow(s[0]) then EscapedUnit(s[0]) + Escaped(s[1..])
    else [s[0]] + Escaped(s[1..])
  }

  function Quoted(s: Text): Text {
    [QUOTE] + Escaped(s) + [QUOTE]
  }

  // ---------- numbers ----------

  function Digits(n: nat): Text {
    if n < 10 then [0x30 + n] else Digits(n / 10) + [0x30 + n % 10]
  }

  function Decimal(n: int): Text {
    if n < 0 then [MINUS] + Digits(-n) else Digits(n)
  }

  // ---------- key order ----------

  /** Lexicographic order of code units, as `sort()` compares strings. */
  predicate Before(a: Text, b: Text) {
    if b == [] then false
    else if a == [] then true
    else a[0] < b[0] || (a[0] == b[0] && Before(a[1..], b[1..]))
  }

  function Inserted(f: Field, fs: seq<Field>): seq<Field> {
    if fs == [] || Before(f.key, fs[0].key) then [f] + fs else [fs[0]] + Inserted(f, fs[1..])
  }

  function SortedFields(fs: seq<Field>): seq<Field> {
    if fs == [] then [] else Inserted(fs[0], SortedFields(fs[1..]))
  }

  lemma {:induction false} InsertedIn(f: Field, fs: seq<Field>, x: Field)
    ensures x in Inserted(f, fs) <==> x == f || x in fs
  {
    if fs != [] && !Before(f.key, fs[0].key) {
      InsertedIn(f, fs[1..], x);
      assert fs == [fs[0]] + fs[1..];
    }
  }

  /** Sorting keeps the fields. */
  lemma {:induction false} SortedIn(fs: seq<Field>, x: Field)
    ensures x in SortedFields(fs) <==> x in fs
  {
    if fs != [] {
      InsertedIn(fs[0], SortedFields(fs[1..]), x);
      SortedIn(fs[1..], x);
      assert fs == [fs[0]] + fs[1..];
    }
  }

  function KeysOf(fs: seq<Field>): (ks: seq<Text>)
    ensures |ks| == |fs| && forall i :: 0 <= i < |fs| ==> ks[i] == fs[i].key
  {
    if fs == [] then [] else [fs[0].key] + KeysOf(fs[1..])
  }

  /** The field a key names. */
  function FieldOf(fs: seq<Field>, key: Text, n: nat): (r: Option<nat>)
    requires n <= |fs|
    ensures r.Some? ==> r.value < n && fs[r.value].key == key
    ensures r.None? ==> forall i :: 0 <= i < n ==> fs[i].key != key
  {
    if n == 0 then None else if fs[n - 1].key == key then Some(n - 1) else FieldOf(fs, key, n - 1)
  }

  // ---------- the encoder ----------

  /** `join(",")`. */
  function Joined(parts: seq<Text>): Text {
    if parts == [] then []
    else if |parts| == 1 then parts[0]
    else parts[0] + [COMMA] + Joined(parts[1..])
  }

  /** `canonicalJson`; `None` is a thrown TypeError. */
  function Encode(v: Value): Option<Text>
    decreases v
  {
    match v
    case Null => Some(NULL_TEXT)
    case Bool(b) => Some(if b then TRUE_TEXT else FALSE_TEXT)
    case Str(s) => Some(Quoted(s))
    case Num(n) => if -MAX_SAFE_INTEGER <= n <= MAX_SAFE_INTEGER then Some(Decimal(n)) else None
    case NegativeZero => Some(Decimal(0))
    case Arr(items) =>
      var parts := EncodeItems(items);
      if parts.None? then None else Some([OPEN_ARRAY] + Joined(parts.value) + [CLOSE_ARRAY])
    case Obj(fields) =>
      var parts := EncodeKeys(KeysOf(SortedFields(fields)), fields);
      if parts.None? then None else Some([OPEN_OBJECT] + Joined(parts.value) + [CLOSE_OBJECT])
    case Unsupported => None
  }

  /** `map` passes over holes, and `join` writes nothing for them. */
  function EncodeItem(x: Item): Option<Text>
    decreases x
  {
    if x.Hole? then Some([]) else Encode(x.value)
  }

  function EncodeItems(items: seq<Item>): Option<seq<Text>>
    decreases items
  {
    if items == [] then Some([])
    else
      var first := EncodeItem(items[0]);
      var rest := EncodeItems(items[1..]);
      if first.None? || rest.None? then None else Some([first.value] + rest.value)
  }

  /** Each key with the value it names. */
  function EncodeKeys(keys: seq<Text>, fields: seq<Field>): Option<seq<Text>>
    decreases fields, |keys|
  {
    if keys == [] then Some([])
    else
      var i := FieldOf(fields, keys[0], |fields|);
      var first := if i.None? then None else EncodeField(fields[i.value]);
      var rest := EncodeKeys(keys[1..], fields);
      if first.None? || rest.None? then None
      else Some([first.value] + rest.value)
  }

  function EncodeField(f: Field): Option<Text>
    decreases f
  {
    var value := Encode(f.value);
    if value.None? then None else Some(Quoted(f.key) + [COLON] + value.value)
  }
}
