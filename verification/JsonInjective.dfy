/** Two values have the same canonical text exactly when they are the same up to the order of keys
    (packages/shared/src/commitments/index.ts:20-49; key order as in section 3.2.3 of RFC 8785). */
module JsonInjective {
  import opened Options
  import opened CanonicalJson
  import opened JsonParser

  // ---------- what is refused ----------

  /** No part of the value is refused. */
  predicate Supported(v: Value)
    decreases v, 0
  {
    match v
    case Num(n) => -MAX_SAFE_INTEGER <= n <= MAX_SAFE_INTEGER
    case Arr(items) => forall i :: 0 <= i < |items| ==> SupportedItem(items[i])
    case Obj(fields) => forall i :: 0 <= i < |fields| ==> Supported(fields[i].value)
    case Unsupported => false
    case _ => true
  }

  predicate SupportedItem(x: Item)
    decreases x, 1
  {
    x.Full? ==> Supported(x.value)
  }

  /** Objects have each key once. */
  predicate DistinctKeys(v: Value)
    decreases v, 0
  {
    match v
    case Arr(items) => forall i :: 0 <= i < |items| ==> DistinctItem(items[i])
    case Obj(fields) =>
      && KeysOnce(fields)
      && forall i :: 0 <= i < |fields| ==> DistinctKeys(fields[i].value)
    case _ => true
  }

  predicate DistinctItem(x: Item)
    decreases x, 1
  {
    x.Full? ==> DistinctKeys(x.value)
  }

  predicate KeysOnce(fields: seq<Field>) {
    forall i, j :: 0 <= i < j < |fields| ==> fields[i].key != fields[j].key
  }

  // ---------- the same value ----------

  /** The number a value stands for; negative zero is zero. */
  function NumberOf(v: Value): Option<int> {
    match v
    case Num(n) => Some(n)
    case NegativeZero => Some(0)
    case _ => None
  }

  /** An array that reads as empty. */
  predicate Blank(items: seq<Item>) {
    items == [] || items == [Hole]
  }

  function Keys(fields: seq<Field>): set<Text> {
    set i | 0 <= i < |fields| :: fields[i].key
  }

  /** The same value up to the order of keys; negative zero is zero, and a lone hole is an empty array. */
  predicate Same(v: Value, w: Value)
    decreases v, 0
  {
    match v
    case Num(_) => NumberOf(w) == NumberOf(v)
    case NegativeZero => NumberOf(w) == NumberOf(v)
    case Arr(items) =>
      && w.Arr?
      && ((Blank(items) && Blank(w.items))
          || (|items| == |w.items| && forall i :: 0 <= i < |items| ==> SameItem(items[i], w.items[i])))
    case Obj(fields) =>
      && w.Obj? && Keys(fields) == Keys(w.fields)
      && forall i, j :: 0 <= i < |fields| && 0 <= j < |w.fields| && fields[i].key == w.fields[j].key ==>
           Same(fields[i].value, w.fields[j].value)
    case _ => v == w
  }

  predicate SameItem(x: Item, y: Item)
    decreases x, 1
  {
    if x.Hole? then y.Hole? else y.Full? && Same(x.value, y.value)
  }

  // ---------- sorting ----------

  lemma {:induction false} BeforeIrreflexive(a: Text)
    ensures !Before(a, a)
  {
    if a != [] { BeforeIrreflexive(a[1..]); }
  }

  lemma {:induction false} BeforeTransitive(a: Text, b: Text, c: Text)
    requires Before(a, b) && Before(b, c)
    ensures Before(a, c)
  {
    if a != [] && a[0] == b[0] == c[0] { BeforeTransitive(a[1..], b[1..], c[1..]); }
  }

  lemma {:induction false} BeforeTotal(a: Text, b: Text)
    ensures a == b || Before(a, b) || Before(b, a)
  {
    if a != [] && b != [] && a[0] == b[0] {
      BeforeTotal(a[1..], b[1..]);
      assert a == [a[0]] + a[1..] && b == [b[0]] + b[1..];
    }
  }

  /** Strictly ascending keys. */
  predicate Ascending(fs: seq<Field>) {
    forall i, j :: 0 <= i < j < |fs| ==> Before(fs[i].key, fs[j].key)
  }

  lemma {:induction false} InsertedAscends(f: Field, fs: seq<Field>)
    requires Ascending(fs) && forall i :: 0 <= i < |fs| ==> fs[i].key != f.key
    ensures Ascending(Inserted(f, fs))
  {
    if fs != [] {
      BeforeTotal(f.key, fs[0].key);
      if Before(f.key, fs[0].key) {
        forall j | 0 <= j < |fs| ensures Before(f.key, fs[j].key) {
          if j > 0 { BeforeTransitive(f.key, fs[0].key, fs[j].key); }
        }
      } else {
        var rest := fs[1..];
        InsertedAscends(f, rest);
        var tail := Inserted(f, rest);
        forall j | 0 <= j < |tail| ensures Before(fs[0].key, tail[j].key) {
          InsertedIn(f, rest, tail[j]);
          if tail[j] in rest { var k :| 0 <= k < |rest| && rest[k] == tail[j]; assert fs[k + 1] == tail[j]; }
        }
      }
    }
    hide Before;
  }

  lemma {:induction false} SortedAscends(fs: seq<Field>)
    requires KeysOnce(fs)
    ensures Ascending(SortedFields(fs))
  {
    if fs != [] {
      var rest := SortedFields(fs[1..]);
      SortedAscends(fs[1..]);
      forall i | 0 <= i < |rest| ensures rest[i].key != fs[0].key {
        SortedIn(fs[1..], rest[i]);
        var k :| 0 <= k < |fs[1..]| && fs[1..][k] == rest[i];
        assert fs[k + 1] == rest[i];
      }
      InsertedAscends(fs[0], rest);
    }
    hide Before;
  }

  /** Ascending lists of the same fields are the same list. */
  lemma {:induction false} AscendingUnique(a: seq<Field>, b: seq<Field>)
    requires Ascending(a) && Ascending(b) && forall x :: x in a <==> x in b
    ensures a == b
  {
    EmptyTogether(a, b);
    if a != [] {
      FirstsAgree(a, b);
      TailsAgree(a, b);
      AscendingUnique(a[1..], b[1..]);
      assert a == [a[0]] + a[1..] && b == [b[0]] + b[1..];
    }
    hide Before;
  }

  lemma EmptyTogether(a: seq<Field>, b: seq<Field>)
    requires forall x :: x in a <==> x in b
    ensures a == [] <==> b == []
  {
    if a != [] { assert a[0] in a; }
    if b != [] { assert b[0] in b; }
  }

  lemma FirstsAgree(a: seq<Field>, b: seq<Field>)
    requires a != [] && b != [] && Ascending(a) && Ascending(b) && forall x :: x in a <==> x in b
    ensures a[0] == b[0]
  {
    assert a[0] in b && b[0] in a;
    var i :| 0 <= i < |b| && b[i] == a[0];
    var j :| 0 <= j < |a| && a[j] == b[0];
    if i > 0 && j > 0 {
      BeforeTransitive(a[0].key, b[0].key, a[0].key);
      BeforeIrreflexive(a[0].key);
    }
    hide Before;
  }

  lemma TailsAgree(a: seq<Field>, b: seq<Field>)
    requires a != [] && b != [] && Ascending(a) && Ascending(b) && a[0] == b[0]
    requires forall x :: x in a <==> x in b
    ensures forall x :: x in a[1..] <==> x in b[1..]
  {
    HeadOnce(a);
    HeadOnce(b);
    hide Ascending;
  }

  /** The first of ascending fields does not come again. */
  lemma HeadOnce(a: seq<Field>)
    requires a != [] && Ascending(a)
    ensures forall x :: x in a[1..] <==> x in a && x != a[0]
  {
    BeforeIrreflexive(a[0].key);
    forall k | 1 <= k < |a| ensures a[k] != a[0] { assert Before(a[0].key, a[k].key); }
    assert a == [a[0]] + a[1..];
    hide Before;
  }

  // ---------- canonical forms ----------

  lemma {:induction false} CanonicalItemAt(items: seq<Item>, i: nat)
    requires i < |items|
    ensures CanonicalItems(items)[i] == CanonicalItem(items[i])
    decreases i
  {
    if i > 0 { CanonicalItemAt(items[1..], i - 1); }
  }

  lemma {:induction false} CanonicalFieldAt(fields: seq<Field>, i: nat)
    requires i < |fields|
    ensures CanonicalFields(fields)[i] == CanonicalField(fields[i])
    decreases i
  {
    if i > 0 { CanonicalFieldAt(fields[1..], i - 1); }
  }

  /** Sorting looks at keys only, so it commutes with making the values canonical. */
  lemma {:induction false} InsertCommutes(f: Field, fs: seq<Field>)
    ensures CanonicalFields(Inserted(f, fs)) == Inserted(CanonicalField(f), CanonicalFields(fs))
    decreases |fs|
  {
    hide Before, Canonical;
    if fs != [] && !Before(f.key, fs[0].key) {
      assert Inserted(f, fs)[1..] == Inserted(f, fs[1..]);
      InsertCommutes(f, fs[1..]);
    } else {
      assert ([f] + fs)[1..] == fs;
    }
  }

  lemma {:induction false} SortCommutes(fs: seq<Field>)
    ensures CanonicalFields(SortedFields(fs)) == SortedFields(CanonicalFields(fs))
    decreases |fs|
  {
    hide Inserted, Canonical;
    if fs != [] {
      SortCommutes(fs[1..]);
      InsertCommutes(fs[0], SortedFields(fs[1..]));
    }
  }

  lemma {:induction false} SupportedPlain(v: Value)
    requires Supported(v)
    ensures Plain(Canonical(v))
    decreases v, 1
  {
    match v {
      case Arr(items) =>
        forall i | 0 <= i < |items| ensures PlainItem(CanonicalItems(items)[i]) {
          assert SupportedItem(items[i]);
          CanonicalItemAt(items, i);
          SupportedPlainItem(items[i]);
        }
      case Obj(fields) =>
        var c := CanonicalFields(fields);
        forall i | 0 <= i < |c| ensures Plain(c[i].value) {
          CanonicalFieldAt(fields, i);
          SupportedPlainField(fields[i]);
        }
        forall i | 0 <= i < |SortedFields(c)| ensures Plain(SortedFields(c)[i].value) {
          SortedIn(c, SortedFields(c)[i]);
        }
      case _ =>
    }
  }

  lemma {:induction false} SupportedPlainItem(x: Item)
    requires SupportedItem(x)
    ensures PlainItem(CanonicalItem(x))
    decreases x
  {
    if x.Full? { SupportedPlain(x.value); }
  }

  lemma {:induction false} SupportedPlainField(f: Field)
    requires Supported(f.value)
    ensures Plain(CanonicalField(f).value)
    decreases f
  {
    SupportedPlain(f.value);
  }

  // ---------- the encoder writes the canonical form ----------

  /** The encoder refuses exactly the values with an unsupported part, and otherwise writes the canonical form. */
  lemma {:induction false} EncodeWrites(v: Value)
    requires DistinctKeys(v)
    ensures Encode(v) == if Supported(v) then Some(Written(Canonical(v))) else None
    decreases v, 1
  {
    match v {
      case Arr(items) =>
        ItemsWritten(items);
        LoneHole(items);
        hide Joined, WrittenItems, CanonicalItems;
      case Obj(fields) =>
        ObjectWritten(fields);
      case _ =>
    }
  }

  lemma LoneHole(items: seq<Item>)
    ensures CanonicalItems(items) == [Hole] ==> WrittenItems(CanonicalItems(items)) == WrittenItems([])
  {
  }

  lemma {:induction false} ItemWritten(x: Item)
    requires DistinctItem(x)
    ensures EncodeItem(x) == if SupportedItem(x) then Some(WrittenItem(CanonicalItem(x))) else None
    decreases x
  {
    if x.Full? { EncodeWrites(x.value); }
  }

  lemma {:induction false} FieldWritten(f: Field)
    requires DistinctKeys(f.value)
    ensures EncodeField(f) == if Supported(f.value) then Some(WrittenField(CanonicalField(f))) else None
    decreases f
  {
    EncodeWrites(f.value);
    hide Written, Canonical, Encode, Quoted;
  }

  lemma {:induction false} ItemsWritten(items: seq<Item>)
    requires forall i :: 0 <= i < |items| ==> DistinctItem(items[i])
    ensures var parts := EncodeItems(items);
      && (parts.Some? <==> forall i :: 0 <= i < |items| ==> SupportedItem(items[i]))
      && (parts.Some? ==> |parts.value| == |items| && Joined(parts.value) == WrittenItems(CanonicalItems(items)))
    decreases items
  {
    if items != [] {
      ItemWritten(items[0]);
      var rest := items[1..];
      assert forall i :: 0 <= i < |rest| ==> rest[i] == items[i + 1];
      ItemsWritten(rest);
      hide SupportedItem, EncodeItem, CanonicalItem, WrittenItem, DistinctItem;
      var parts := EncodeItems(items);
      if parts.Some? {
        assert parts.value[1..] == EncodeItems(rest).value;
        assert CanonicalItems(items)[1..] == CanonicalItems(rest);
        forall i | 0 <= i < |items| ensures SupportedItem(items[i]) {
          if i > 0 { assert items[i] == rest[i - 1]; }
        }
      }
    }
  }

  /** The texts of fields that are all among an object's, by their keys. */
  lemma {:induction false} KeysWritten(fs: seq<Field>, fields: seq<Field>)
    requires KeysOnce(fields) && forall i :: 0 <= i < |fs| ==> fs[i] in fields
    requires forall i :: 0 <= i < |fields| ==> DistinctKeys(fields[i].value)
    requires forall i :: 0 <= i < |fields| ==>
      EncodeField(fields[i]) == if Supported(fields[i].value) then Some(WrittenField(CanonicalField(fields[i]))) else None
    ensures var parts := EncodeKeys(KeysOf(fs), fields);
      && (parts.Some? <==> forall i :: 0 <= i < |fs| ==> Supported(fs[i].value))
      && (parts.Some? ==> |parts.value| == |fs| && Joined(parts.value) == WrittenFields(CanonicalFields(fs)))
    decreases |fs|
  {
    if fs != [] {
      var rest := fs[1..];
      assert forall i :: 0 <= i < |rest| ==> rest[i] == fs[i + 1];
      KeysWritten(rest, fields);
      KeyStep(fs, fields);
      var j :| 0 <= j < |fields| && fields[j] == fs[0];
      hide Supported, EncodeField, CanonicalField, WrittenField, DistinctKeys, FieldOf, KeysOf, EncodeKeys;
      var parts := EncodeKeys(KeysOf(fs), fields);
      if parts.Some? {
        assert parts.value[1..] == EncodeKeys(KeysOf(rest), fields).value;
        assert CanonicalFields(fs)[1..] == CanonicalFields(rest);
        forall i | 0 <= i < |fs| ensures Supported(fs[i].value) {
          if i > 0 { assert fs[i] == rest[i - 1]; }
        }
      }
    }
  }

  /** A key names the one field that has it. */
  lemma KeyStep(fs: seq<Field>, fields: seq<Field>)
    requires fs != [] && KeysOnce(fields) && fs[0] in fields
    ensures var first, rest := EncodeField(fs[0]), EncodeKeys(KeysOf(fs[1..]), fields);
      EncodeKeys(KeysOf(fs), fields) ==
        if first.None? || rest.None? then None else Some([first.value] + rest.value)
  {
    var j :| 0 <= j < |fields| && fields[j] == fs[0];
    assert FieldOf(fields, fs[0].key, |fields|) == Some(j);
    assert KeysOf(fs)[1..] == KeysOf(fs[1..]);
    hide EncodeField, FieldOf;
  }

  lemma {:induction false} ObjectWritten(fields: seq<Field>)
    requires KeysOnce(fields) && forall i :: 0 <= i < |fields| ==> DistinctKeys(fields[i].value)
    ensures Encode(Obj(fields)) == if Supported(Obj(fields)) then Some(Written(Canonical(Obj(fields)))) else None
    decreases fields
  {
    forall i | 0 <= i < |fields|
      ensures EncodeField(fields[i]) ==
        if Supported(fields[i].value) then Some(WrittenField(CanonicalField(fields[i]))) else None
    {
      FieldWritten(fields[i]);
    }
    var sorted := SortedFields(fields);
    forall i | 0 <= i < |sorted| ensures sorted[i] in fields { SortedIn(fields, sorted[i]); }
    KeysWritten(sorted, fields);
    SortCommutes(fields);
    SortedSupported(fields);
    hide Joined, EncodeKeys, WrittenFields, CanonicalFields, SortedFields, EncodeField, WrittenField, CanonicalField;
  }

  lemma SortedSupported(fields: seq<Field>)
    ensures (forall i :: 0 <= i < |fields| ==> Supported(fields[i].value)) <==>
      forall i :: 0 <= i < |SortedFields(fields)| ==> Supported(SortedFields(fields)[i].value)
  {
    hide Supported, SortedFields;
    var sorted := SortedFields(fields);
    forall i | 0 <= i < |sorted| ensures exists j :: 0 <= j < |fields| && fields[j] == sorted[i] {
      SortedIn(fields, sorted[i]);
    }
    forall j | 0 <= j < |fields| ensures exists i :: 0 <= i < |sorted| && sorted[i] == fields[j] {
      SortedIn(fields, fields[j]);
    }
  }

  /** The parser undoes the encoder: it reads back the canonical form of what was encoded. */
  lemma ParseEncoded(v: Value)
    requires DistinctKeys(v) && Supported(v)
    ensures Encode(v).Some? && Parsed(Encode(v).value) == Some(Canonical(v))
  {
    EncodeWrites(v);
    SupportedPlain(v);
    ValueBack(Canonical(v), []);
    assert Written(Canonical(v)) + [] == Written(Canonical(v));
    hide Encode, Written, Canonical, ReadValue, Supported, DistinctKeys, Plain;
  }

  // ---------- same values, same canonical form ----------

  lemma {:induction false} SameCanonical(v: Value, w: Value)
    requires Supported(v) && Supported(w) && DistinctKeys(v) && DistinctKeys(w)
    ensures Same(v, w) <==> Canonical(v) == Canonical(w)
    decreases v, 1
  {
    if v.Arr? && w.Arr? {
      SameArrays(v.items, w.items);
    } else if v.Obj? && w.Obj? {
      SameObjects(v.fields, w.fields);
    } else {
      Scalars(v, w);
    }
  }

  lemma Scalars(v: Value, w: Value)
    requires Supported(v) && Supported(w) && !(v.Arr? && w.Arr?) && !(v.Obj? && w.Obj?)
    ensures Same(v, w) <==> Canonical(v) == Canonical(w)
  {
    hide CanonicalItems, CanonicalFields, SortedFields, SupportedItem;
  }

  lemma {:induction false} SameItems(x: Item, y: Item)
    requires SupportedItem(x) && SupportedItem(y) && DistinctItem(x) && DistinctItem(y)
    ensures SameItem(x, y) <==> CanonicalItem(x) == CanonicalItem(y)
    decreases x
  {
    if x.Full? && y.Full? { SameCanonical(x.value, y.value); }
  }

  lemma {:induction false} SameValues(f: Field, g: Field)
    requires Supported(f.value) && Supported(g.value) && DistinctKeys(f.value) && DistinctKeys(g.value)
    ensures Same(f.value, g.value) <==> Canonical(f.value) == Canonical(g.value)
    decreases f
  {
    SameCanonical(f.value, g.value);
  }

  lemma {:induction false} SameArrays(a: seq<Item>, b: seq<Item>)
    requires Supported(Arr(a)) && Supported(Arr(b)) && DistinctKeys(Arr(a)) && DistinctKeys(Arr(b))
    ensures Same(Arr(a), Arr(b)) <==> Canonical(Arr(a)) == Canonical(Arr(b))
    decreases a
  {
    forall i | 0 <= i < |a| && i < |b| ensures SameItem(a[i], b[i]) <==> CanonicalItems(a)[i] == CanonicalItems(b)[i] {
      assert SupportedItem(a[i]) && SupportedItem(b[i]) && DistinctItem(a[i]) && DistinctItem(b[i]);
      CanonicalItemAt(a, i);
      CanonicalItemAt(b, i);
      SameItems(a[i], b[i]);
    }
    BlankCanonical(a);
    BlankCanonical(b);
    hide SameItem, CanonicalItems, SupportedItem, DistinctItem;
  }

  lemma BlankCanonical(a: seq<Item>)
    ensures Blank(a) <==> CanonicalItems(a) == [] || CanonicalItems(a) == [Hole]
  {
    if |a| == 1 { assert a == [a[0]]; }
    hide Canonical;
  }

  /** Sorted canonical fields are equal exactly when the fields are the same as a set. */
  lemma SortedEqual(a: seq<Field>, b: seq<Field>)
    requires KeysOnce(a) && KeysOnce(b)
    ensures SortedFields(a) == SortedFields(b) <==> forall x :: x in a <==> x in b
  {
    hide SortedFields;
    forall x ensures (x in a <==> x in SortedFields(a)) && (x in b <==> x in SortedFields(b)) {
      SortedIn(a, x);
      SortedIn(b, x);
    }
    SortedAscends(a);
    SortedAscends(b);
    if forall x :: x in a <==> x in b {
      assert forall x :: x in SortedFields(a) <==> x in SortedFields(b);
      AscendingUnique(SortedFields(a), SortedFields(b));
    }
  }

  lemma CanonicalKeys(fields: seq<Field>)
    ensures KeysOnce(fields) ==> KeysOnce(CanonicalFields(fields))
    ensures Keys(CanonicalFields(fields)) == Keys(fields)
  {
    var c := CanonicalFields(fields);
    forall i | 0 <= i < |fields| ensures c[i].key == fields[i].key { CanonicalFieldAt(fields, i); }
    hide CanonicalFields;
  }

  /** Fields with the same keys and, key by key, the same values are the same set of fields, and conversely. */
  lemma SameSets(a: seq<Field>, b: seq<Field>)
    requires KeysOnce(a) && KeysOnce(b)
    ensures (forall x :: x in a <==> x in b) <==>
      Keys(a) == Keys(b)
      && forall i, j :: 0 <= i < |a| && 0 <= j < |b| && a[i].key == b[j].key ==> a[i].value == b[j].value
  {
    if forall x :: x in a <==> x in b {
      forall k ensures k in Keys(a) <==> k in Keys(b) {
        if i :| 0 <= i < |a| && a[i].key == k { assert a[i] in b; }
        if j :| 0 <= j < |b| && b[j].key == k { assert b[j] in a; }
      }
      forall i, j | 0 <= i < |a| && 0 <= j < |b| && a[i].key == b[j].key ensures a[i].value == b[j].value {
        assert a[i] in b;
        var m :| 0 <= m < |b| && b[m] == a[i];
        assert m == j;
      }
    }
    if Keys(a) == Keys(b)
       && forall i, j :: 0 <= i < |a| && 0 <= j < |b| && a[i].key == b[j].key ==> a[i].value == b[j].value {
      forall x | x in a ensures x in b { Found(a, b, x); }
      forall x | x in b ensures x in a { Found(b, a, x); }
    }
  }

  lemma Found(a: seq<Field>, b: seq<Field>, x: Field)
    requires x in a && Keys(a) == Keys(b)
    requires forall i, j :: 0 <= i < |a| && 0 <= j < |b| && a[i].key == b[j].key ==> a[i].value == b[j].value
    ensures x in b
  {
    var i :| 0 <= i < |a| && a[i] == x;
    assert a[i].key in Keys(a);
    var j :| 0 <= j < |b| && b[j].key == x.key;
    assert b[j] == x;
  }

  lemma {:induction false} SameObjects(a: seq<Field>, b: seq<Field>)
    requires Supported(Obj(a)) && Supported(Obj(b)) && DistinctKeys(Obj(a)) && DistinctKeys(Obj(b))
    ensures Same(Obj(a), Obj(b)) <==> Canonical(Obj(a)) == Canonical(Obj(b))
    decreases a
  {
    var c, d := CanonicalFields(a), CanonicalFields(b);
    forall i, j | 0 <= i < |a| && 0 <= j < |b|
      ensures c[i].key == a[i].key && d[j].key == b[j].key
      ensures Same(a[i].value, b[j].value) <==> c[i].value == d[j].value
    {
      CanonicalFieldAt(a, i);
      CanonicalFieldAt(b, j);
      SameValues(a[i], b[j]);
    }
    CanonicalKeys(a);
    CanonicalKeys(b);
    SortedEqual(c, d);
    SameSets(c, d);
    ObjectsCompared(a, b, c, d);
  }

  lemma ObjectsCompared(a: seq<Field>, b: seq<Field>, c: seq<Field>, d: seq<Field>)
    requires |c| == |a| && |d| == |b| && Keys(c) == Keys(a) && Keys(d) == Keys(b)
    requires forall i, j :: 0 <= i < |a| && 0 <= j < |b| ==> c[i].key == a[i].key && d[j].key == b[j].key
    requires forall i, j :: 0 <= i < |a| && 0 <= j < |b| ==> (Same(a[i].value, b[j].value) <==> c[i].value == d[j].value)
    ensures Same(Obj(a), Obj(b)) <==>
      Keys(c) == Keys(d) && forall i, j :: 0 <= i < |c| && 0 <= j < |d| && c[i].key == d[j].key ==> c[i].value == d[j].value
  {
    hide Keys;
  }

  /** The encoding is injective up to the order of keys: two values have the same text if and only if they are the
      same but for that order, negative zero counting as zero and an array of one hole as an empty one. */
  lemma EncodesExactly(v: Value, w: Value)
    requires DistinctKeys(v) && DistinctKeys(w) && Supported(v) && Supported(w)
    ensures Encode(v) == Encode(w) <==> Same(v, w)
  {
    hide Encode, Canonical, Same, Parsed, Supported, DistinctKeys, Written;
    ParseEncoded(v);
    ParseEncoded(w);
    EncodeWrites(v);
    EncodeWrites(w);
    SameCanonical(v, w);
  }

  /** A lone hole is why holes have to be set apart: as an array of one element it is not an empty array. */
  lemma LoneHoleCollides()
    ensures Encode(Arr([Hole])) == Encode(Arr([])) && Arr([Hole]) != Arr([])
  {
    EncodesExactly(Arr([Hole]), Arr([]));
    hide Encode;
  }
}
