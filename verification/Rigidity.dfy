/** Values that a jsonb column cannot change: those without an order of keys to lose. */
module Rigidity {
  import opened Json
  import opened Jsonb
  import opened Templates

  // ---------------------------------------------------------------- values without an order to lose

  /** No object with more than one member, however deep. */
  predicate Rigid(j: Json)
    decreases j, 0
  {
    match j
    case Arr(items) => RigidItems(items)
    case Obj(fields) => fields == [] || (|fields| == 1 && Rigid(fields[0].value))
    case _ => true
  }

  predicate RigidItems(items: seq<Json>)
    decreases items, 0
  {
    items == [] || (Rigid(items[0]) && RigidItems(items[1..]))
  }

  lemma {:induction false} PutGrows(fields: seq<Field>, f: Field)
    ensures |Put(fields, f)| == if Lookup(fields, f.key).Some? then |Put(fields, f)| else |fields| + 1
    ensures |Put(fields, f)| >= 1
  {
    if fields != [] && f.key != fields[0].key && !Before(f.key, fields[0].key) {
      PutGrows(fields[1..], f);
    }
  }

  lemma {:induction false} ColumnLength(fields: seq<Field>)
    requires DistinctFields(fields)
    ensures |ColumnFields(fields)| == |fields|
    decreases |fields|
  {
    if fields != [] {
      var last, prefix := fields[|fields| - 1], fields[..|fields| - 1];
      ColumnLength(prefix);
      PropertiesKept(prefix, last.key);
      OnlyMember(prefix, last.key);
      PutGrows(ColumnFields(prefix), Field(last.key, Column(last.value)));
    }
  }

  /** A rigid value is the only one that its column's form can come from. */
  lemma {:induction false} RigidDetermined(v: Json, x: Json)
    requires Rigid(v) && Distinct(x) && Distinct(v) && Column(x) == Column(v)
    ensures x == v
    decreases v, 0
  {
    match v
    case Arr(items) => RigidItemsDetermined(items, x.items);
    case Obj(fields) =>
      ColumnLength(x.fields);
      ColumnLength(fields);
      if fields != [] {
        var f, g := fields[0], x.fields[0];
        assert fields == [f] && x.fields == [g];
        assert fields[..0] == [] && x.fields[..0] == [];
        assert ColumnFields([f]) == [Field(f.key, Column(f.value))] && ColumnFields([g]) == [Field(g.key, Column(g.value))];
        RigidDetermined(f.value, g.value);
      }
    case _ =>
  }

  lemma {:induction false} RigidItemsDetermined(items: seq<Json>, xs: seq<Json>)
    requires RigidItems(items) && DistinctItems(xs) && DistinctItems(items) && ColumnItems(xs) == ColumnItems(items)
    ensures xs == items
    decreases items, 0
  {
    if items != [] {
      assert ColumnItems(xs)[0] == ColumnItems(items)[0] && ColumnItems(xs)[1..] == ColumnItems(items)[1..];
      RigidDetermined(items[0], xs[0]);
      RigidItemsDetermined(items[1..], xs[1..]);
      assert items == [items[0]] + items[1..] && xs == [xs[0]] + xs[1..];
    }
  }

  // ---------------------------------------------------------------- members with different keys

  predicate KeysDiffer(fields: seq<Field>) {
    forall i, j :: 0 <= i < j < |fields| ==> fields[i].key != fields[j].key
  }

  lemma {:induction false} LookupAbsent(fields: seq<Field>, key: string)
    ensures Lookup(fields, key).None? <==> forall i :: 0 <= i < |fields| ==> fields[i].key != key
  {
    if fields != [] {
      LookupAbsent(fields[1..], key);
      assert forall i :: 0 < i < |fields| ==> fields[i] == fields[1..][i - 1];
    }
  }

  lemma {:induction false} DistinctExactly(fields: seq<Field>)
    ensures DistinctFields(fields) <==> KeysDiffer(fields) && forall i :: 0 <= i < |fields| ==> Distinct(fields[i].value)
    decreases |fields|
  {
    if fields != [] {
      var prefix := fields[..|fields| - 1];
      DistinctExactly(prefix);
      LookupAbsent(prefix, fields[|fields| - 1].key);
      assert forall i :: 0 <= i < |prefix| ==> prefix[i] == fields[i];
    }
  }

  lemma {:induction false} ColumnDistinct(j: Json)
    ensures Distinct(Column(j))
  {
    ColumnIsNormal(j);
    NormalDistinct(Column(j));
  }

  lemma {:induction false} NormalDistinct(j: Json)
    requires Normal(j)
    ensures Distinct(j)
    decreases j, 0
  {
    match j
    case Arr(items) => NormalItemsDistinct(items);
    case Obj(fields) =>
      forall i | 0 <= i < |fields| ensures Distinct(fields[i].value) {
        NormalDistinct(fields[i].value);
      }
      forall i, k | 0 <= i < k < |fields| ensures fields[i].key != fields[k].key {
        BeforeIsTotal(fields[i].key, fields[k].key);
      }
      DistinctExactly(fields);
    case _ =>
  }

  lemma {:induction false} NormalItemsDistinct(items: seq<Json>)
    requires NormalItems(items)
    ensures DistinctItems(items)
    decreases items, 0
  {
    if items != [] {
      NormalDistinct(items[0]);
      NormalItemsDistinct(items[1..]);
    }
  }
}
