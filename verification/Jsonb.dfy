/**
  What a jsonb column does to a value that is written and read back: it keeps the value but not the
  order of the keys. The column keeps shorter keys first, and only the last of equal ones; the object
  that is parsed from it lists the keys that are array indices before all others.
 */
module Jsonb {
  import opened Base
  import opened Json
  import opened JsonText
  import opened Templates

  // ---------------------------------------------------------------- the order of keys

  /** The bytes of a character in UTF-8 (section 3 of RFC 3629). */
  function Width(c: char): nat {
    var n := c as int;
    if n < 0x80 then 1 else if n < 0x800 then 2 else if n < 0x1_0000 then 3 else 4
  }

  function Utf8Length(s: string): nat {
    if s == "" then 0 else Width(s[0]) + Utf8Length(s[1..])
  }

  /** The order of code points, which is that of UTF-8 bytes. */
  predicate Smaller(a: string, b: string) {
    b != "" && (a == "" || a[0] < b[0] || (a[0] == b[0] && Smaller(a[1..], b[1..])))
  }

  /** The column's order. */
  predicate KeptBefore(a: string, b: string) {
    Utf8Length(a) < Utf8Length(b) || (Utf8Length(a) == Utf8Length(b) && Smaller(a, b))
  }

  /** An array index (section 6.1.7 of ECMA-262): the decimal text of a number below 2^32 - 1. */
  predicate IsIndex(key: string) {
    key != "" && (forall c :: c in key ==> IsDigit(c)) && (|key| > 1 ==> key[0] != '0') && Value(key) < 0xFFFF_FFFF
  }

  /**
    The order of keys in an object read back: indices by number, which for their decimal texts is the
    column's order, and then the rest in the column's order.
   */
  predicate Before(a: string, b: string) {
    if IsIndex(a) == IsIndex(b) then KeptBefore(a, b) else IsIndex(a)
  }

  lemma {:induction false} SmallerIsTotal(a: string, b: string)
    ensures a == b || Smaller(a, b) || Smaller(b, a)
    ensures !(Smaller(a, b) && Smaller(b, a)) && !Smaller(a, a)
  {
    if a != "" {
      if b != "" {
        SmallerIsTotal(a[1..], b[1..]);
        assert a == [a[0]] + a[1..] && b == [b[0]] + b[1..];
      }
      SmallerIsTotal(a[1..], a[1..]);
    }
  }

  lemma {:induction false} SmallerIsTransitive(a: string, b: string, c: string)
    requires Smaller(a, b) && Smaller(b, c)
    ensures Smaller(a, c)
  {
    if a != "" && a[0] == b[0] == c[0] {
      SmallerIsTransitive(a[1..], b[1..], c[1..]);
    }
  }

  lemma {:induction false} BeforeIsTotal(a: string, b: string)
    ensures a == b || Before(a, b) || Before(b, a)
    ensures !(Before(a, b) && Before(b, a)) && !Before(a, a)
  {
    SmallerIsTotal(a, b);
    SmallerIsTotal(a, a);
  }

  lemma {:induction false} BeforeIsTransitive(a: string, b: string, c: string)
    requires Before(a, b) && Before(b, c)
    ensures Before(a, c)
  {
    if Smaller(a, b) && Smaller(b, c) {
      SmallerIsTransitive(a, b, c);
    }
  }

  // ---------------------------------------------------------------- the column

  /** One more member of an object: in its place, or instead of the one with its key. */
  function Put(fields: seq<Field>, f: Field): seq<Field> {
    if fields == [] then [f]
    else if f.key == fields[0].key then [f] + fields[1..]
    else if Before(f.key, fields[0].key) then [f] + fields
    else [fields[0]] + Put(fields[1..], f)
  }

  /** The value a jsonb column hands back for `j`. */
  function Column(j: Json): Json
    decreases j, 0
  {
    match j
    case Arr(items) => Arr(ColumnItems(items))
    case Obj(fields) => Obj(ColumnFields(fields))
    case other => other
  }

  function ColumnItems(items: seq<Json>): (r: seq<Json>)
    ensures |r| == |items|
    decreases items, 0
  {
    if items == [] then [] else [Column(items[0])] + ColumnItems(items[1..])
  }

  function ColumnFields(fields: seq<Field>): seq<Field>
    decreases fields, 0
  {
    if fields == [] then []
    else
      var last := fields[|fields| - 1];
      Put(ColumnFields(fields[..|fields| - 1]), Field(last.key, Column(last.value)))
  }

  // ---------------------------------------------------------------- its fixed points

  predicate Ascending(fields: seq<Field>) {
    forall i, j :: 0 <= i < j < |fields| ==> Before(fields[i].key, fields[j].key)
  }

  /** Every object, however deep, has its keys in the column's order. */
  predicate Normal(j: Json)
    decreases j, 0
  {
    match j
    case Arr(items) => NormalItems(items)
    case Obj(fields) => Ascending(fields) && NormalFields(fields)
    case _ => true
  }

  predicate NormalItems(items: seq<Json>)
    decreases items, 0
  {
    items == [] || (Normal(items[0]) && NormalItems(items[1..]))
  }

  predicate NormalFields(fields: seq<Field>)
    decreases fields, 0
  {
    forall i :: 0 <= i < |fields| ==> Normal(fields[i].value)
  }

  lemma {:induction false} PutKeepsOrder(fields: seq<Field>, f: Field)
    requires Ascending(fields)
    ensures Ascending(Put(fields, f))
    ensures forall x :: x in Put(fields, f) ==> x == f || x in fields
  {
    if fields != [] {
      var head := fields[0];
      BeforeIsTotal(f.key, head.key);
      if Before(f.key, head.key) {
        forall i | 1 <= i < |fields| ensures Before(f.key, fields[i].key) {
          BeforeIsTransitive(f.key, head.key, fields[i].key);
        }
      } else if f.key != head.key {
        PutKeepsOrder(fields[1..], f);
        var rest := Put(fields[1..], f);
        forall i | 0 <= i < |rest| ensures Before(head.key, rest[i].key) {
          assert rest[i] in rest;
        }
      }
    }
  }

  lemma {:induction false} PutLast(fields: seq<Field>, f: Field)
    requires forall i :: 0 <= i < |fields| ==> Before(fields[i].key, f.key)
    ensures Put(fields, f) == fields + [f]
  {
    if fields != [] {
      BeforeIsTotal(fields[0].key, f.key);
      PutLast(fields[1..], f);
      assert fields + [f] == [fields[0]] + (fields[1..] + [f]);
    }
  }

  /** What a column hands back has its keys in order. */
  lemma {:induction false} ColumnIsNormal(j: Json)
    ensures Normal(Column(j))
    decreases j, 0
  {
    match j
    case Arr(items) => ItemsNormal(items);
    case Obj(fields) => FieldsNormal(fields);
    case _ =>
  }

  lemma {:induction false} ItemsNormal(items: seq<Json>)
    ensures NormalItems(ColumnItems(items))
    decreases items, 0
  {
    if items != [] {
      ColumnIsNormal(items[0]);
      ItemsNormal(items[1..]);
    }
  }

  lemma {:induction false} FieldsNormal(fields: seq<Field>)
    ensures Ascending(ColumnFields(fields)) && NormalFields(ColumnFields(fields))
    decreases fields, 0
  {
    if fields != [] {
      var last := fields[|fields| - 1];
      var before := ColumnFields(fields[..|fields| - 1]);
      FieldsNormal(fields[..|fields| - 1]);
      ColumnIsNormal(last.value);
      PutKeepsOrder(before, Field(last.key, Column(last.value)));
      var after := ColumnFields(fields);
      forall i | 0 <= i < |after| ensures Normal(after[i].value) {
        assert after[i] in after;
      }
    }
  }

  lemma {:induction false} NormalIsKept(j: Json)
    requires Normal(j)
    ensures Column(j) == j
    decreases j, 0
  {
    match j
    case Arr(items) => ItemsKept(items);
    case Obj(fields) => FieldsKept(fields);
    case _ =>
  }

  lemma {:induction false} ItemsKept(items: seq<Json>)
    requires NormalItems(items)
    ensures ColumnItems(items) == items
    decreases items, 0
  {
    if items != [] {
      NormalIsKept(items[0]);
      ItemsKept(items[1..]);
    }
  }

  lemma {:induction false} FieldsKept(fields: seq<Field>)
    requires Ascending(fields) && NormalFields(fields)
    ensures ColumnFields(fields) == fields
    decreases fields, 0
  {
    if fields != [] {
      var last := fields[|fields| - 1];
      FieldsKept(fields[..|fields| - 1]);
      NormalIsKept(last.value);
      PutLast(fields[..|fields| - 1], last);
      assert fields == fields[..|fields| - 1] + [last];
    }
  }

  /** Exactly the values whose keys are in order come back as they were written, and a second pass changes nothing. */
  lemma {:induction false} FixedExactly(j: Json)
    ensures Column(j) == j <==> Normal(j)
    ensures Column(Column(j)) == Column(j)
  {
    ColumnIsNormal(j);
    NormalIsKept(Column(j));
    if Normal(j) {
      NormalIsKept(j);
    }
  }

  // ---------------------------------------------------------------- what a path finds

  /** The value of the last member with the key. */
  function LookupLast(fields: seq<Field>, key: string): Option<Json> {
    if fields == [] then None
    else if fields[|fields| - 1].key == key then Some(fields[|fields| - 1].value)
    else LookupLast(fields[..|fields| - 1], key)
  }

  function Kept(value: Option<Json>): Option<Json> {
    match value
    case None => None
    case Some(v) => Some(Column(v))
  }

  lemma {:induction false} PutIsFound(fields: seq<Field>, f: Field, key: string)
    ensures Lookup(Put(fields, f), key) == if key == f.key then Some(f.value) else Lookup(fields, key)
  {
    if fields != [] && f.key != fields[0].key && !Before(f.key, fields[0].key) {
      PutIsFound(fields[1..], f, key);
    }
  }

  /** A column keeps every property: the last one written under its key, in the column's form. */
  lemma {:induction false} PropertiesKept(fields: seq<Field>, key: string)
    ensures Lookup(ColumnFields(fields), key) == Kept(LookupLast(fields, key))
    decreases |fields|
  {
    if fields != [] {
      var last := fields[|fields| - 1];
      PropertiesKept(fields[..|fields| - 1], key);
      PutIsFound(ColumnFields(fields[..|fields| - 1]), Field(last.key, Column(last.value)), key);
    }
  }

  /** No object, however deep, has two members with one key, as in the host language. */
  predicate Distinct(j: Json)
    decreases j, 0
  {
    match j
    case Arr(items) => DistinctItems(items)
    case Obj(fields) => DistinctFields(fields)
    case _ => true
  }

  predicate DistinctItems(items: seq<Json>)
    decreases items, 0
  {
    items == [] || (Distinct(items[0]) && DistinctItems(items[1..]))
  }

  predicate DistinctFields(fields: seq<Field>)
    decreases fields, 0
  {
    fields == [] ||
    var last := fields[|fields| - 1];
    && Distinct(last.value) && DistinctFields(fields[..|fields| - 1])
    && Lookup(fields[..|fields| - 1], last.key).None?
  }

  lemma {:induction false} LookupAppend(fields: seq<Field>, f: Field, key: string)
    ensures Lookup(fields + [f], key)
         == if Lookup(fields, key).Some? then Lookup(fields, key) else if key == f.key then Some(f.value) else None
  {
    if fields == [] {
      assert ([] + [f])[1..] == [];
    } else {
      assert (fields + [f])[1..] == fields[1..] + [f];
      LookupAppend(fields[1..], f, key);
    }
  }

  lemma {:induction false} OnlyMember(fields: seq<Field>, key: string)
    requires DistinctFields(fields)
    ensures LookupLast(fields, key) == Lookup(fields, key)
    ensures Lookup(fields, key).Some? ==> Distinct(Lookup(fields, key).value)
    decreases |fields|
  {
    if fields != [] {
      var last := fields[|fields| - 1];
      OnlyMember(fields[..|fields| - 1], key);
      assert fields == fields[..|fields| - 1] + [last];
      LookupAppend(fields[..|fields| - 1], last, key);
    }
  }

  lemma {:induction false} ItemKept(items: seq<Json>, i: nat)
    requires i < |items|
    ensures ColumnItems(items)[i] == Column(items[i])
    ensures DistinctItems(items) ==> Distinct(items[i])
    decreases |items|
  {
    if i > 0 {
      ItemKept(items[1..], i - 1);
    }
  }

  lemma {:induction false} PropertyKept(j: Json, part: string)
    requires Distinct(j)
    ensures Property(Some(Column(j)), part) == Kept(Property(Some(j), part))
    ensures Property(Some(j), part).Some? ==> Distinct(Property(Some(j), part).value)
  {
    match j
    case Arr(items) =>
      var idx := ParseInt(part);
      if idx.Some? && 0 <= idx.value < |items| {
        ItemKept(items, idx.value);
      }
    case Obj(fields) =>
      PropertiesKept(fields, part);
      OnlyMember(fields, part);
    case _ =>
  }

  /**
    A path finds in the column's value the column's form of what it finds in the value written: what
    a round trip through the row can change is the order of keys inside an object that is found, and nothing else.
   */
  lemma {:induction false} PathsKept(j: Json, parts: seq<string>)
    requires Distinct(j)
    ensures Walk(Some(Column(j)), parts) == Kept(Walk(Some(j), parts))
    decreases |parts|
  {
    if parts != [] {
      PropertyKept(j, parts[0]);
      var found := Property(Some(j), parts[0]);
      match found
      case None => WalkFromNothing(parts[1..]);
      case Some(v) => PathsKept(v, parts[1..]);
    }
  }
}
