/** A reference parser for the canonical texts (the JSON grammar, sections 2 to 7 of RFC 8259, with integers for
    numbers; an empty array element stands for a hole), and that it undoes the encoder. */
module JsonParser {
  import opened Options
  import opened CanonicalJson

  /** What was read, and the text after it. */
  datatype Read<T> = Fail | Got(value: T, rest: Text)

  // ---------- strings ----------

  function HexValue(u: Unit): Option<nat> {
    if 0x30 <= u <= 0x39 then Some(u - 0x30)
    else if 0x61 <= u <= 0x66 then Some(u - 0x61 + 10)
    else if 0x41 <= u <= 0x46 then Some(u - 0x41 + 10)
    else None
  }

  function Unescaped(letter: Unit): Option<Unit> {
    if letter == QUOTE || letter == BACKSLASH || letter == 0x2F then Some(letter)
    else if letter == 0x62 then Some(0x08)
    else if letter == 0x66 then Some(0x0C)
    else if letter == 0x6E then Some(0x0A)
    else if letter == 0x72 then Some(0x0D)
    else if letter == 0x74 then Some(0x09)
    else None
  }

  /** The unit of a `\uXXXX` escape, given its four digits. */
  function FourHex(s: Text): Option<Unit>
    requires |s| >= 4
  {
    var a, b, c, d := HexValue(s[0]), HexValue(s[1]), HexValue(s[2]), HexValue(s[3]);
    if a.Some? && b.Some? && c.Some? && d.Some? && a.value < 16 && b.value < 16 && c.value < 16 && d.value < 16
    then Some(a.value * 4096 + b.value * 256 + c.value * 16 + d.value) else None
  }

  /** The rest of a string after its opening quote. */
  function ReadString(s: Text): (r: Read<Text>)
    ensures r.Got? ==> |r.rest| < |s|
  {
    if s == [] then Fail
    else if s[0] == QUOTE then Got([], s[1..])
    else if s[0] < 0x20 then Fail
    else if s[0] != BACKSLASH then Prefixed(s[0], ReadString(s[1..]))
    else if |s| >= 6 && s[1] == 0x75 then
      var u := FourHex(s[2..]);
      if u.None? then Fail else Prefixed(u.value, ReadString(s[6..]))
    else if |s| >= 2 && Unescaped(s[1]).Some? then Prefixed(Unescaped(s[1]).value, ReadString(s[2..]))
    else Fail
  }

  function Prefixed(u: Unit, r: Read<Text>): Read<Text> {
    if r.Got? then Got([u] + r.value, r.rest) else Fail
  }

  // ---------- numbers ----------

  predicate IsDigit(u: Unit) {
    0x30 <= u <= 0x39
  }

  function DigitValue(u: Unit): nat
    requires IsDigit(u)
  {
    u - 0x30
  }

  /** As many digits as there are. */
  function ReadDigits(s: Text, acc: nat): (r: Read<nat>)
    ensures r.Got? && |r.rest| <= |s|
  {
    if s == [] || !IsDigit(s[0]) then Got(acc, s) else ReadDigits(s[1..], acc * 10 + DigitValue(s[0]))
  }

  function ReadNumber(s: Text): (r: Read<Value>)
    ensures r.Got? ==> |r.rest| < |s|
  {
    if s == [] then Fail
    else if s[0] == MINUS then
      if |s| > 1 && IsDigit(s[1]) then
        var n := ReadDigits(s[1..], 0);
        var m: int := n.value;
        Got(Num(-m), n.rest)
      else Fail
    else if IsDigit(s[0]) then var n := ReadDigits(s[1..], DigitValue(s[0])); Got(Num(n.value), n.rest)
    else Fail
  }

  // ---------- values ----------

  function ReadWord(s: Text, word: Text, v: Value): (r: Read<Value>)
    requires word != []
    ensures r.Got? ==> |r.rest| < |s|
  {
    if |s| >= |word| && s[..|word|] == word then Got(v, s[|word|..]) else Fail
  }

  function ReadValue(s: Text): (r: Read<Value>)
    ensures r.Got? ==> |r.rest| < |s|
    decreases |s|, 0
  {
    if s == [] then Fail
    else if s[0] == NULL_TEXT[0] then ReadWord(s, NULL_TEXT, Null)
    else if s[0] == TRUE_TEXT[0] then ReadWord(s, TRUE_TEXT, Bool(true))
    else if s[0] == FALSE_TEXT[0] then ReadWord(s, FALSE_TEXT, Bool(false))
    else if s[0] == QUOTE then
      var r := ReadString(s[1..]);
      if r.Got? then Got(Str(r.value), r.rest) else Fail
    else if s[0] == OPEN_ARRAY then
      if |s| > 1 && s[1] == CLOSE_ARRAY then Got(Arr([]), s[2..])
      else
        var r := ReadItems(s[1..]);
        if r.Got? then Got(Arr(r.value), r.rest) else Fail
    else if s[0] == OPEN_OBJECT then
      if |s| > 1 && s[1] == CLOSE_OBJECT then Got(Obj([]), s[2..])
      else
        var r := ReadFields(s[1..]);
        if r.Got? then Got(Obj(r.value), r.rest) else Fail
    else ReadNumber(s)
  }

  /** One element or more, up to the closing bracket. */
  function ReadItems(s: Text): (r: Read<seq<Item>>)
    ensures r.Got? ==> |r.rest| < |s|
    decreases |s|, 1
  {
    if s == [] then Fail
    else if s[0] == COMMA || s[0] == CLOSE_ARRAY then AfterItem(Hole, s)
    else
      var v := ReadValue(s);
      if v.Fail? || v.rest == [] then Fail
      else if v.rest[0] == CLOSE_ARRAY then Got([Full(v.value)], v.rest[1..])
      else if v.rest[0] == COMMA then
        var more := ReadItems(v.rest[1..]);
        if more.Got? then Got([Full(v.value)] + more.value, more.rest) else Fail
      else Fail
  }

  function AfterItem(item: Item, s: Text): (r: Read<seq<Item>>)
    requires s != []
    ensures r.Got? ==> |r.rest| < |s|
    decreases |s|, 0
  {
    if s[0] == CLOSE_ARRAY then Got([item], s[1..])
    else if s[0] == COMMA then
      var more := ReadItems(s[1..]);
      if more.Got? then Got([item] + more.value, more.rest) else Fail
    else Fail
  }

  /** One field or more, up to the closing brace. */
  function ReadFields(s: Text): (r: Read<seq<Field>>)
    ensures r.Got? ==> |r.rest| < |s|
    decreases |s|, 1
  {
    if s == [] || s[0] != QUOTE then Fail
    else
      var key := ReadString(s[1..]);
      if key.Fail? || key.rest == [] || key.rest[0] != COLON then Fail
      else
        var v := ReadValue(key.rest[1..]);
        if v.Fail? || v.rest == [] then Fail
        else if v.rest[0] == CLOSE_OBJECT then Got([Field(key.value, v.value)], v.rest[1..])
        else if v.rest[0] == COMMA then
          var more := ReadFields(v.rest[1..]);
          if more.Got? then Got([Field(key.value, v.value)] + more.value, more.rest) else Fail
        else Fail
  }

  // ---------- the canonical form and its text ----------

  /** The same value with its keys sorted, without negative zeros, and with an empty array for a lone hole. */
  function Canonical(v: Value): Value
    decreases v
  {
    match v
    case NegativeZero => Num(0)
    case Arr(items) =>
      var c := CanonicalItems(items);
      Arr(if c == [Hole] then [] else c)
    case Obj(fields) => Obj(SortedFields(CanonicalFields(fields)))
    case _ => v
  }

  function CanonicalItem(x: Item): Item
    decreases x
  {
    if x.Hole? then Hole else Full(Canonical(x.value))
  }

  function CanonicalItems(items: seq<Item>): (c: seq<Item>)
    ensures |c| == |items|
    decreases items
  {
    if items == [] then [] else [CanonicalItem(items[0])] + CanonicalItems(items[1..])
  }

  function CanonicalField(f: Field): Field
    decreases f
  {
    Field(f.key, Canonical(f.value))
  }

  function CanonicalFields(fields: seq<Field>): (c: seq<Field>)
    ensures |c| == |fields|
    decreases fields
  {
    if fields == [] then [] else [CanonicalField(fields[0])] + CanonicalFields(fields[1..])
  }

  /** The text of a canonical value: its parts in the order they stand. */
  function Written(v: Value): Text
    decreases v
  {
    match v
    case Null => NULL_TEXT
    case Bool(b) => if b then TRUE_TEXT else FALSE_TEXT
    case Str(s) => Quoted(s)
    case Num(n) => Decimal(n)
    case Arr(items) => [OPEN_ARRAY] + WrittenItems(items) + [CLOSE_ARRAY]
    case Obj(fields) => [OPEN_OBJECT] + WrittenFields(fields) + [CLOSE_OBJECT]
    case _ => []
  }

  function WrittenItem(x: Item): Text
    decreases x
  {
    if x.Hole? then [] else Written(x.value)
  }

  function WrittenItems(items: seq<Item>): Text
    decreases items
  {
    if items == [] then []
    else if |items| == 1 then WrittenItem(items[0])
    else WrittenItem(items[0]) + [COMMA] + WrittenItems(items[1..])
  }

  function WrittenField(f: Field): Text
    decreases f
  {
    Quoted(f.key) + [COLON] + Written(f.value)
  }

  function WrittenFields(fields: seq<Field>): Text
    decreases fields
  {
    if fields == [] then []
    else if |fields| == 1 then WrittenField(fields[0])
    else WrittenField(fields[0]) + [COMMA] + WrittenFields(fields[1..])
  }

  /** Values that are their own canonical form but for the order of keys. */
  predicate Plain(v: Value)
    decreases v, 0
  {
    match v
    case NegativeZero => false
    case Unsupported => false
    case Arr(items) => items != [Hole] && forall i :: 0 <= i < |items| ==> PlainItem(items[i])
    case Obj(fields) => forall i :: 0 <= i < |fields| ==> Plain(fields[i].value)
    case _ => true
  }

  predicate PlainItem(x: Item)
    decreases x, 1
  {
    x.Full? ==> Plain(x.value)
  }

  // ---------- reading back what was written ----------

  lemma HexBack(d: nat)
    requires d < 16
    ensures HexValue(HexDigit(d)) == Some(d)
  {
  }

  lemma EscapeBack(u: Unit)
    ensures ShortEscape(u).Some? ==> Unescaped(ShortEscape(u).value) == Some(u) && ShortEscape(u).value != 0x75
  {
  }

  lemma FourHexBack(u: Unit, rest: Text)
    ensures FourHex(EscapedUnit(u)[2..] + rest) == Some(u)
  {
    HexParts(u);
    var a, b, c, d := u / 4096, u / 256 % 16, u / 16 % 16, u % 16;
    var s := EscapedUnit(u)[2..] + rest;
    assert s[0] == HexDigit(a) && s[1] == HexDigit(b) && s[2] == HexDigit(c) && s[3] == HexDigit(d);
    hide HexDigit, HexValue, EscapedUnit;
    HexBack(a);
    HexBack(b);
    HexBack(c);
    HexBack(d);
  }

  /** A unit is the number its four hexadecimal digits make. */
  lemma HexParts(u: Unit)
    ensures u / 4096 * 4096 + u / 256 % 16 * 256 + u / 16 % 16 * 16 + u % 16 == u && u / 4096 < 16
  {
    var q := u / 16;
    var p := u / 256;
    assert p == q / 16 && u / 4096 == p / 16;
    assert u == q * 16 + u % 16 && q == p * 16 + q % 16 && p == p / 16 * 16 + p % 16;
  }

  lemma ReadEscapedUnit(u: Unit, rest: Text)
    ensures ReadString(EscapedUnit(u) + rest) == Prefixed(u, ReadString(rest))
  {
    var s := EscapedUnit(u) + rest;
    assert s[2..] == EscapedUnit(u)[2..] + rest;
    assert s[6..] == rest;
    FourHexBack(u, rest);
    hide FourHex, EscapedUnit;
  }

  lemma ReadShortEscape(u: Unit, rest: Text)
    requires ShortEscape(u).Some?
    ensures ReadString([BACKSLASH, ShortEscape(u).value] + rest) == Prefixed(u, ReadString(rest))
  {
    EscapeBack(u);
    assert ([BACKSLASH, ShortEscape(u).value] + rest)[2..] == rest;
  }

  lemma ReadLiteral(u: Unit, rest: Text)
    requires u >= 0x20 && ShortEscape(u).None?
    ensures ReadString([u] + rest) == Prefixed(u, ReadString(rest))
  {
    assert ([u] + rest)[1..] == rest;
  }

  lemma EmptyBack(rest: Text)
    ensures ReadString([QUOTE] + rest) == Got([], rest)
  {
    assert ([QUOTE] + rest)[1..] == rest;
  }

  predicate Paired(s: Text) {
    |s| > 1 && IsHigh(s[0]) && IsLow(s[1])
  }

  /** What one unit is written as, unless it begins a surrogate pair. */
  function Piece(u: Unit): Text {
    if ShortEscape(u).Some? then [BACKSLASH, ShortEscape(u).value]
    else if u < 0x20 || IsHigh(u) || IsLow(u) then EscapedUnit(u)
    else [u]
  }

  lemma PieceWritten(s: Text)
    requires s != [] && !Paired(s)
    ensures Escaped(s) == Piece(s[0]) + Escaped(s[1..])
  {
    hide EscapedUnit;
  }

  lemma PieceBack(u: Unit, rest: Text)
    ensures ReadString(Piece(u) + rest) == Prefixed(u, ReadString(rest))
  {
    hide ReadString, EscapedUnit;
    if ShortEscape(u).Some? {
      ReadShortEscape(u, rest);
    } else if u < 0x20 || IsHigh(u) || IsLow(u) {
      ReadEscapedUnit(u, rest);
    } else {
      ReadLiteral(u, rest);
    }
  }

  /** A written string reads back, whatever follows it. */
  lemma {:induction false} StringBack(s: Text, rest: Text)
    ensures ReadString(Escaped(s) + [QUOTE] + rest) == Got(s, rest)
    decreases |s|, 1
  {
    hide ReadString, EscapedUnit, Piece;
    if s == [] {
      EmptyBack(rest);
      assert Escaped(s) + [QUOTE] + rest == [QUOTE] + rest;
    } else if Paired(s) {
      PairBack(s, rest);
    } else {
      var more := Escaped(s[1..]) + [QUOTE] + rest;
      StringBack(s[1..], rest);
      PieceWritten(s);
      PieceBack(s[0], more);
      assert Escaped(s) + [QUOTE] + rest == Piece(s[0]) + more;
      assert s == [s[0]] + s[1..];
    }
  }

  /** A surrogate pair is written as it stands. */
  lemma {:induction false} PairBack(s: Text, rest: Text)
    requires Paired(s)
    ensures ReadString(Escaped(s) + [QUOTE] + rest) == Got(s, rest)
    decreases |s|, 0
  {
    hide ReadString, EscapedUnit;
    var more := Escaped(s[2..]) + [QUOTE] + rest;
    StringBack(s[2..], rest);
    ReadLiteral(s[1], more);
    ReadLiteral(s[0], [s[1]] + more);
    assert Escaped(s) + [QUOTE] + rest == [s[0]] + ([s[1]] + more);
    assert s == [s[0]] + ([s[1]] + s[2..]);
  }

  /** What follows a number is not a digit. */
  predicate Ends(rest: Text) {
    rest == [] || !IsDigit(rest[0])
  }

  function Glued(acc: nat, n: nat): nat {
    if n < 10 then acc * 10 + n else Glued(acc, n / 10) * 10 + n % 10
  }

  lemma {:induction false} GluedZero(n: nat)
    ensures Glued(0, n) == n
  {
    if n >= 10 { GluedZero(n / 10); }
  }

  lemma {:induction false} DigitsBack(n: nat, acc: nat, rest: Text)
    ensures ReadDigits(Digits(n) + rest, acc) == ReadDigits(rest, Glued(acc, n))
  {
    if n < 10 {
      assert (Digits(n) + rest)[1..] == rest;
    } else {
      var last: Text := [0x30 + n % 10];
      DigitsBack(n / 10, acc, last + rest);
      assert Digits(n) + rest == Digits(n / 10) + (last + rest);
      assert (last + rest)[1..] == rest;
    }
  }

  lemma {:induction false} FirstDigit(n: nat)
    ensures |Digits(n)| >= 1 && IsDigit(Digits(n)[0])
  {
    if n >= 10 { FirstDigit(n / 10); }
  }

  lemma NumberBack(n: int, rest: Text)
    requires Ends(rest)
    ensures ReadValue(Decimal(n) + rest) == Got(Num(n), rest)
  {
    var m: nat := if n < 0 then -n else n;
    FirstDigit(m);
    GluedZero(m);
    DigitsBack(m, 0, rest);
    var s := Decimal(n) + rest;
    if n < 0 {
      assert s[1..] == Digits(m) + rest;
    } else {
      assert ReadDigits(s, 0) == ReadDigits(s[1..], DigitValue(s[0]));
    }
  }

  lemma WordBack(word: Text, v: Value, rest: Text)
    requires word != []
    ensures ReadWord(word + rest, word, v) == Got(v, rest)
  {
    assert (word + rest)[..|word|] == word;
  }

  lemma WordsBack(rest: Text)
    ensures ReadValue(NULL_TEXT + rest) == Got(Null, rest)
    ensures ReadValue(TRUE_TEXT + rest) == Got(Bool(true), rest)
    ensures ReadValue(FALSE_TEXT + rest) == Got(Bool(false), rest)
  {
    WordBack(NULL_TEXT, Null, rest);
    WordBack(TRUE_TEXT, Bool(true), rest);
    WordBack(FALSE_TEXT, Bool(false), rest);
    hide ReadWord;
  }

  lemma TextBack(s: Text, rest: Text)
    ensures ReadValue(Quoted(s) + rest) == Got(Str(s), rest)
  {
    StringBack(s, rest);
    assert (Quoted(s) + rest)[1..] == Escaped(s) + [QUOTE] + rest;
    hide ReadString, Escaped;
  }

  /** The first unit of a written value is none of the punctuation that can stand in its place. */
  lemma FirstUnit(v: Value)
    requires Plain(v)
    ensures |Written(v)| > 0
    ensures Written(v)[0] != COMMA && Written(v)[0] != CLOSE_ARRAY && Written(v)[0] != CLOSE_OBJECT
  {
    if v.Num? { FirstDigit(if v.n < 0 then -v.n else v.n); }
    hide Escaped, Digits;
  }

  lemma {:induction false} ValueBack(v: Value, rest: Text)
    requires Plain(v) && Ends(rest)
    ensures ReadValue(Written(v) + rest) == Got(v, rest)
    decreases v, 1
  {
    match v {
      case Null => WordsBack(rest);
      case Bool(b) => WordsBack(rest);
      case Str(s) => TextBack(s, rest);
      case Num(n) => NumberBack(n, rest);
      case Arr(items) => ArrayBack(v, rest);
      case Obj(fields) => ObjectBack(v, rest);
    }
  }

  lemma {:induction false} ArrayBack(v: Value, rest: Text)
    requires v.Arr? && Plain(v)
    ensures ReadValue(Written(v) + rest) == Got(v, rest)
    decreases v, 0
  {
    var inner := WrittenItems(v.items);
    var s := [OPEN_ARRAY] + inner + [CLOSE_ARRAY] + rest;
    assert Written(v) + rest == s;
    assert s[1..] == inner + [CLOSE_ARRAY] + rest;
    if v.items == [] {
      assert s[2..] == rest;
    } else {
      ItemsBack(v.items, rest);
      FirstOfItems(v.items);
      assert s[1] == (inner + [CLOSE_ARRAY])[0];
    }
  }

  /** The text of a non-empty array does not begin with its closing bracket. */
  lemma FirstOfItems(items: seq<Item>)
    requires items != [] && items != [Hole] && forall i :: 0 <= i < |items| ==> PlainItem(items[i])
    ensures WrittenItems(items) != [] && WrittenItems(items)[0] != CLOSE_ARRAY
  {
    hide Written, Plain;
    if items[0].Full? { assert PlainItem(items[0]); FirstUnit(items[0].value); }
    if |items| == 1 { assert items == [items[0]]; }
  }

  /** Reading one element, and what follows it. */
  lemma ItemStep(x: Item, after: Text)
    requires PlainItem(x) && after != [] && (after[0] == COMMA || after[0] == CLOSE_ARRAY)
    requires x.Full? ==> ReadValue(WrittenItem(x) + after) == Got(x.value, after)
    ensures after[0] == CLOSE_ARRAY ==> ReadItems(WrittenItem(x) + after) == Got([x], after[1..])
    ensures after[0] == COMMA && ReadItems(after[1..]).Got? ==>
      ReadItems(WrittenItem(x) + after) == Got([x] + ReadItems(after[1..]).value, ReadItems(after[1..]).rest)
  {
    if x.Hole? {
      assert WrittenItem(x) + after == after;
    } else {
      FirstUnit(x.value);
    }
    hide Written, ReadValue;
  }

  lemma {:induction false} ItemsBack(items: seq<Item>, rest: Text)
    requires items != [] && forall i :: 0 <= i < |items| ==> PlainItem(items[i])
    ensures ReadItems(WrittenItems(items) + [CLOSE_ARRAY] + rest) == Got(items, rest)
    decreases items
  {
    hide ReadItems, ReadValue, WrittenItem;
    var x := items[0];
    var after: Text;
    if |items| == 1 {
      after := [CLOSE_ARRAY] + rest;
      assert items == [x];
    } else {
      ItemsBack(items[1..], rest);
      var more := WrittenItems(items[1..]) + [CLOSE_ARRAY] + rest;
      after := [COMMA] + more;
      assert after[1..] == more;
      assert items == [x] + items[1..];
    }
    assert WrittenItems(items) + [CLOSE_ARRAY] + rest == WrittenItem(x) + after;
    if x.Full? { ItemBack(x, after); }
    ItemStep(x, after);
    assert |items| == 1 ==> after[1..] == rest;
  }

  lemma {:induction false} ItemBack(x: Item, after: Text)
    requires x.Full? && PlainItem(x) && Ends(after)
    ensures ReadValue(WrittenItem(x) + after) == Got(x.value, after)
    decreases x
  {
    hide ReadValue;
    ValueBack(x.value, after);
  }

  lemma {:induction false} ObjectBack(v: Value, rest: Text)
    requires v.Obj? && Plain(v)
    ensures ReadValue(Written(v) + rest) == Got(v, rest)
    decreases v, 0
  {
    var inner := WrittenFields(v.fields);
    var s := [OPEN_OBJECT] + inner + [CLOSE_OBJECT] + rest;
    assert Written(v) + rest == s;
    assert s[1..] == inner + [CLOSE_OBJECT] + rest;
    if v.fields == [] {
      assert s[2..] == rest;
    } else {
      FieldsBack(v.fields, rest);
      assert s[1] == inner[0];
    }
  }

  /** Reading one field, and what follows it. */
  lemma FieldStep(f: Field, after: Text)
    requires after != [] && (after[0] == COMMA || after[0] == CLOSE_OBJECT)
    requires ReadValue(Written(f.value) + after) == Got(f.value, after)
    ensures after[0] == CLOSE_OBJECT ==> ReadFields(WrittenField(f) + after) == Got([f], after[1..])
    ensures after[0] == COMMA && ReadFields(after[1..]).Got? ==>
      ReadFields(WrittenField(f) + after) == Got([f] + ReadFields(after[1..]).value, ReadFields(after[1..]).rest)
  {
    hide ReadString, Written, ReadValue, Escaped;
    var value := Written(f.value) + after;
    var s := WrittenField(f) + after;
    var tail := [COLON] + value;
    StringBack(f.key, tail);
    assert s[1..] == Escaped(f.key) + [QUOTE] + tail;
    assert tail[1..] == value;
  }

  lemma {:induction false} FieldsBack(fields: seq<Field>, rest: Text)
    requires fields != [] && forall i :: 0 <= i < |fields| ==> Plain(fields[i].value)
    ensures ReadFields(WrittenFields(fields) + [CLOSE_OBJECT] + rest) == Got(fields, rest)
    ensures WrittenFields(fields) != [] && WrittenFields(fields)[0] == QUOTE
    decreases fields
  {
    hide ReadFields, ReadValue, Written;
    var f := fields[0];
    var after: Text;
    if |fields| == 1 {
      after := [CLOSE_OBJECT] + rest;
      assert fields == [f];
    } else {
      FieldsBack(fields[1..], rest);
      var more := WrittenFields(fields[1..]) + [CLOSE_OBJECT] + rest;
      after := [COMMA] + more;
      assert after[1..] == more;
      assert fields == [f] + fields[1..];
    }
    assert WrittenFields(fields) + [CLOSE_OBJECT] + rest == WrittenField(f) + after;
    ValueBack(f.value, after);
    FieldStep(f, after);
    assert |fields| == 1 ==> after[1..] == rest;
  }

  /** The text of a canonical value, read back. */
  function Parsed(s: Text): Option<Value> {
    var r := ReadValue(s);
    if r.Got? && r.rest == [] then Some(r.value) else None
  }
}
