/** Growing a schema response: every added row makes the response larger in all three measures. */
module SchemaSize {
  import opened Wrappers
  import opened ByteOrder
  import opened SortedMap
  import opened Lists
  import opened Json
  import opened JsonText
  import opened QueryResult
  import opened Catalog

  // ----- the maps of the assembly and the response made from them -----

  type Relations = seq<Entry<Relation>>
  type Maps = seq<Entry<Relations>>

  function RelationsOf(m: Maps, schema: string): Relations {
    match Get(m, schema) case Some(rs) => rs case None => []
  }

  function Lookup(m: Maps, schema: string, relation: string): Option<Relation> {
    Get(RelationsOf(m, schema), relation)
  }

  function Store(m: Maps, schema: string, relation: string, r: Relation): Maps {
    Put(m, schema, Put(RelationsOf(m, schema), relation, r))
  }

  ghost predicate Ordered(m: Maps) {
    Sorted(m) && forall e | e in m :: e.value != [] && Sorted(e.value)
  }

  predicate ColumnBefore(a: SchemaColumn, b: SchemaColumn) {
    a.ordinal < b.ordinal
  }

  predicate ConstraintBefore(a: Constraint, b: Constraint) {
    Less(a.name, b.name)
  }

  function Arranged(r: Relation): Relation {
    r.(columns := StableSort(r.columns, ColumnBefore), constraints := StableSort(r.constraints, ConstraintBefore))
  }

  function ArrangedEntry(e: Entry<Relation>): Relation {
    Arranged(e.value)
  }

  function Describe(e: Entry<Relations>): SchemaInfo {
    SchemaInfo(e.key, Map(ArrangedEntry, e.value))
  }

  /** `schema_from_maps`: schemas without relations are left out. */
  function Output(m: Maps): seq<SchemaInfo> {
    if m == [] then []
    else (if m[0].value == [] then [] else [Describe(m[0])]) + Output(m[1..])
  }

  lemma {:induction false} OutputIsMap(m: Maps)
    requires forall e | e in m :: e.value != []
    ensures Output(m) == Map(Describe, m)
  {
    if m != [] {
      OutputIsMap(m[1..]);
    }
  }

  lemma RelationsOfOrdered(m: Maps, schema: string)
    requires Ordered(m)
    ensures Sorted(RelationsOf(m, schema))
  {
    GetIsMember(m, schema);
  }

  lemma StoreKeepsOrder(m: Maps, schema: string, relation: string, r: Relation)
    requires Ordered(m)
    ensures Ordered(Store(m, schema, relation, r))
  {
    var rs := RelationsOf(m, schema);
    RelationsOfOrdered(m, schema);
    PutKeepsSorted(rs, relation, r);
    PutKeepsSorted(m, schema, Put(rs, relation, r));
    PutLength(rs, relation, r);
  }

  lemma LookupAfterStore(m: Maps, schema: string, relation: string, r: Relation, s: string, n: string)
    ensures Lookup(Store(m, schema, relation, r), s, n) ==
            if s == schema && n == relation then Some(r) else Lookup(m, s, n)
  {
    GetAfterPut(m, schema, Put(RelationsOf(m, schema), relation, r), s);
    GetAfterPut(RelationsOf(m, schema), relation, r, n);
  }

  // ----- what each object weighs -----

  function ColumnBytes(c: SchemaColumn): nat {
    |Print(SchemaColumnJson(c))|
  }

  function ConstraintBytes(c: Constraint): nat {
    |Print(ConstraintJson(c))|
  }

  function RelationBytes(e: Entry<Relation>): nat {
    |Print(RelationJson(Arranged(e.value)))|
  }

  function SchemaBytes(e: Entry<Relations>): nat {
    |Print(SchemaJson(Describe(e)))|
  }

  function RelationCount(e: Entry<Relation>): nat {
    RelationUnits(Arranged(e.value))
  }

  function SchemaCount(e: Entry<Relations>): nat {
    SchemaUnits(Describe(e))
  }

  lemma {:induction false} MapBytes<T>(f: T -> Json, g: T -> nat, s: seq<T>)
    requires forall i | 0 <= i < |s| :: g(s[i]) == |Print(f(s[i]))|
    ensures ItemTotal(Map(f, s)) == Sum(s, g)
  {
    if s != [] {
      forall i | 0 <= i < |s[1..]| ensures g(s[1..][i]) == |Print(f(s[1..][i]))| {
        assert s[1..][i] == s[i + 1];
      }
      MapBytes(f, g, s[1..]);
    }
  }

  /** Bytes of an array member: the items and the commas between them. */
  lemma ArrayMember<T>(key: string, f: T -> Json, g: T -> nat, s: seq<T>)
    requires forall i | 0 <= i < |s| :: g(s[i]) == |Print(f(s[i]))|
    ensures MemberLength(Entry(key, Arr(Map(f, s)))) == |Quote(key)| + 3 + Sum(s, g) + Commas(|s|)
  {
    MapBytes(f, g, s);
    MapAt(f, s);
    ArrayLength(Map(f, s));
  }

  function RelationFrame(name: string, kind: RelationKind): nat {
    5 + MemberLength(Entry("name", Str(name))) + MemberLength(Entry("kind", Str(KindText(kind))))
    + |Quote("columns")| + 3 + |Quote("constraints")| + 3
  }

  lemma RelationBytesAre(e: Entry<Relation>)
    ensures var r := e.value;
            RelationBytes(e) == RelationFrame(r.name, r.kind) + Sum(r.columns, ColumnBytes) + Commas(|r.columns|)
                                + Sum(r.constraints, ConstraintBytes) + Commas(|r.constraints|)
    ensures RelationCount(e) == RelationUnits(e.value)
  {
    var r, a := e.value, Arranged(e.value);
    FourMembers(Entry("name", Str(r.name)), Entry("kind", Str(KindText(r.kind))),
                Entry("columns", Arr(Map(SchemaColumnJson, a.columns))),
                Entry("constraints", Arr(Map(ConstraintJson, a.constraints))));
    ArrayMember("columns", SchemaColumnJson, ColumnBytes, a.columns);
    ArrayMember("constraints", ConstraintJson, ConstraintBytes, a.constraints);
    SumSort(r.columns, ColumnBefore, ColumnBytes);
    SumSort(r.constraints, ConstraintBefore, ConstraintBytes);
  }

  function ListFrame(key: string): nat {
    |Quote(key)| + 3
  }

  lemma SchemaBytesAre(e: Entry<Relations>)
    ensures SchemaBytes(e) == 3 + MemberLength(Entry("name", Str(e.key))) + ListFrame("relations")
                              + Sum(e.value, RelationBytes) + Commas(|e.value|)
    ensures SchemaCount(e) == 1 + Sum(e.value, RelationCount)
  {
    var info := Describe(e);
    TwoMembers(Entry("name", Str(info.name)), Entry("relations", Arr(Map(RelationJson, info.relations))));
    MapAt(ArrangedEntry, e.value);
    ArrayMember("relations", RelationJson, PrintedRelation, info.relations);
    SumMap(ArrangedEntry, PrintedRelation, RelationBytes, e.value);
    SumMap(ArrangedEntry, RelationUnits, RelationCount, e.value);
  }

  function PrintedRelation(r: Relation): nat {
    |Print(RelationJson(r))|
  }

  function PrintedSchema(s: SchemaInfo): nat {
    |Print(SchemaJson(s))|
  }

  lemma ResultBytesAre(m: Maps)
    requires Ordered(m)
    ensures |Print(ResultJson(Output(m)))| == 2 + ListFrame("schemas") + Sum(m, SchemaBytes) + Commas(|m|)
    ensures Sum(Output(m), SchemaUnits) == Sum(m, SchemaCount)
  {
    OutputIsMap(m);
    OneMember(Entry("schemas", Arr(Map(SchemaJson, Output(m)))));
    MapAt(Describe, m);
    ArrayMember("schemas", SchemaJson, PrintedSchema, Output(m));
    SumMap(Describe, PrintedSchema, SchemaBytes, m);
    SumMap(Describe, SchemaUnits, SchemaCount, m);
  }

  // ----- growth -----

  /** A relation with rows added at the end of its lists. */
  predicate Extends(earlier: Relation, r: Relation) {
    && earlier.name == r.name && earlier.kind == r.kind
    && earlier.columns <= r.columns && earlier.constraints <= r.constraints
  }

  lemma RelationGrows(a: Entry<Relation>, b: Entry<Relation>)
    requires Extends(a.value, b.value)
    ensures RelationBytes(a) <= RelationBytes(b) && RelationCount(a) <= RelationCount(b)
  {
    RelationBytesAre(a);
    RelationBytesAre(b);
    SumPrefix(a.value.columns, b.value.columns, ColumnBytes);
    SumPrefix(a.value.constraints, b.value.constraints, ConstraintBytes);
  }

  lemma RelationsGrow(rs: Relations, relation: string, r: Relation)
    requires Sorted(rs)
    requires Get(rs, relation).Some? ==> Extends(Get(rs, relation).value, r)
    ensures var rs' := Put(rs, relation, r);
            && Sum(rs, RelationBytes) <= Sum(rs', RelationBytes) && Sum(rs, RelationCount) <= Sum(rs', RelationCount)
            && |rs| <= |rs'|
  {
    SumPut(rs, relation, r, RelationBytes);
    SumPut(rs, relation, r, RelationCount);
    PutLength(rs, relation, r);
    if Get(rs, relation).Some? {
      RelationGrows(Entry(relation, Get(rs, relation).value), Entry(relation, r));
    }
  }

  lemma MapsGrow(m: Maps, schema: string, relation: string, r: Relation)
    requires Ordered(m)
    requires Lookup(m, schema, relation).Some? ==> Extends(Lookup(m, schema, relation).value, r)
    ensures var m' := Store(m, schema, relation, r);
            && Sum(m, SchemaBytes) <= Sum(m', SchemaBytes) && Sum(m, SchemaCount) <= Sum(m', SchemaCount)
            && |m| <= |m'|
  {
    var rs := RelationsOf(m, schema);
    var rs' := Put(rs, relation, r);
    RelationsOfOrdered(m, schema);
    RelationsGrow(rs, relation, r);
    SchemaBytesAre(Entry(schema, rs));
    SchemaBytesAre(Entry(schema, rs'));
    SumPut(m, schema, rs', SchemaBytes);
    SumPut(m, schema, rs', SchemaCount);
    PutLength(m, schema, rs');
  }

  ghost predicate CellsFit(m: Maps, limit: nat) {
    forall e | e in m :: |e.key| <= limit && forall f | f in e.value :: RelationCellsFit(f.value, limit)
  }

  lemma ArrangedCells(r: Relation, limit: nat)
    ensures RelationCellsFit(Arranged(r), limit) <==> RelationCellsFit(r, limit)
  {
    forall c ensures c in Arranged(r).columns <==> c in r.columns {
      SortMembers(r.columns, ColumnBefore, c);
    }
    forall c ensures c in Arranged(r).constraints <==> c in r.constraints {
      SortMembers(r.constraints, ConstraintBefore, c);
    }
  }

  lemma ColumnOrder()
    ensures WeakOrder(ColumnBefore)
  {}

  lemma ConstraintOrder()
    ensures WeakOrder(ConstraintBefore)
  {
    forall x: Constraint, y: Constraint ensures ConstraintBefore(x, y) ==> !ConstraintBefore(y, x) {
      LessTotal(x.name, y.name);
    }
    forall x: Constraint, y: Constraint, z: Constraint | ConstraintBefore(x, z)
      ensures ConstraintBefore(x, y) || ConstraintBefore(y, z)
    {
      LessTotal(x.name, y.name);
      if Less(y.name, x.name) {
        LessTransitive(y.name, x.name, z.name);
      }
    }
  }

  lemma OutputCells(m: Maps, limit: nat)
    requires Ordered(m)
    ensures (forall s | s in Output(m) :: SchemaCellsFit(s, limit)) <==> CellsFit(m, limit)
  {
    OutputIsMap(m);
    MapAt(Describe, m);
    var out := Output(m);
    forall i | 0 <= i < |m|
      ensures SchemaCellsFit(out[i], limit) <==>
              |m[i].key| <= limit && forall f | f in m[i].value :: RelationCellsFit(f.value, limit)
    {
      DescribedCells(m[i], limit);
    }
    if forall s | s in out :: SchemaCellsFit(s, limit) {
      forall e | e in m ensures |e.key| <= limit && forall f | f in e.value :: RelationCellsFit(f.value, limit) {
        var i :| 0 <= i < |m| && m[i] == e;
        assert out[i] in out;
      }
    }
  }

  lemma DescribedCells(e: Entry<Relations>, limit: nat)
    ensures SchemaCellsFit(Describe(e), limit) <==>
            |e.key| <= limit && forall f | f in e.value :: RelationCellsFit(f.value, limit)
  {
    MapAt(ArrangedEntry, e.value);
    var relations := Describe(e).relations;
    forall i | 0 <= i < |e.value|
      ensures RelationCellsFit(relations[i], limit) <==> RelationCellsFit(e.value[i].value, limit)
    {
      ArrangedCells(e.value[i].value, limit);
    }
    if forall r | r in relations :: RelationCellsFit(r, limit) {
      forall f | f in e.value ensures RelationCellsFit(f.value, limit) {
        var i :| 0 <= i < |e.value| && e.value[i] == f;
        assert relations[i] in relations;
      }
    }
  }

  lemma CellsGrow(m: Maps, schema: string, relation: string, r: Relation, limit: nat)
    requires Ordered(m)
    requires Lookup(m, schema, relation).Some? ==> Extends(Lookup(m, schema, relation).value, r)
    requires CellsFit(Store(m, schema, relation, r), limit)
    ensures CellsFit(m, limit)
  {
    var rs := RelationsOf(m, schema);
    var rs' := Put(rs, relation, r);
    RelationsOfOrdered(m, schema);
    PutMembers(m, schema, rs');
    PutMembers(rs, relation, r);
    forall e | e in m ensures |e.key| <= limit && forall f | f in e.value :: RelationCellsFit(f.value, limit) {
      if e.key == schema {
        EntryIsGot(m, e);
        forall f | f in e.value ensures RelationCellsFit(f.value, limit) {
          if f.key == relation {
            EntryIsGot(rs, f);
            assert Entry(relation, r) in rs';
          }
        }
      }
    }
  }

  lemma ResultIsWellFormed(schemas: seq<SchemaInfo>)
    ensures WellFormed(ResultJson(schemas))
  {
    MapAt(SchemaJson, schemas);
    forall s: SchemaInfo ensures WellFormed(SchemaJson(s)) {
      SchemaIsWellFormed(s);
    }
    assert DistinctKeys(ResultJson(schemas).members);
  }

  lemma SchemaIsWellFormed(s: SchemaInfo)
    ensures WellFormed(SchemaJson(s))
  {
    MapAt(RelationJson, s.relations);
    forall r: Relation ensures WellFormed(RelationJson(r)) {
      RelationIsWellFormed(r);
    }
    assert "name"[0] != "relations"[0];
    assert DistinctKeys(SchemaJson(s).members);
  }

  lemma RelationIsWellFormed(r: Relation)
    ensures WellFormed(RelationJson(r))
  {
    MapAt(SchemaColumnJson, r.columns);
    MapAt(ConstraintJson, r.constraints);
    forall c: SchemaColumn ensures WellFormed(SchemaColumnJson(c)) {
      ColumnIsWellFormed(c);
    }
    forall c: Constraint ensures WellFormed(ConstraintJson(c)) {
      ConstraintIsWellFormed(c);
    }
    RelationKeys(r);
    var ms := RelationJson(r).members;
    assert WellFormed(ms[2].value) && WellFormed(ms[3].value);
  }

  lemma RelationKeys(r: Relation)
    ensures DistinctKeys(RelationJson(r).members)
  {
    var ms := RelationJson(r).members;
    assert ms[0].key[0] == 'n' && ms[1].key[0] == 'k' && ms[2].key[2] == 'l' && ms[3].key[2] == 'n';
    assert ms[2].key[0] == 'c' && ms[3].key[0] == 'c';
  }

  lemma ConstraintIsWellFormed(c: Constraint)
    ensures WellFormed(ConstraintJson(c))
  {
    var ms := ConstraintJson(c).members;
    assert ms[0].key[0] == 'n' && ms[1].key[0] == 'k' && ms[2].key[0] == 'd';
    assert DistinctKeys(ms);
  }

  /** The eight keys of a column differ in these bytes. */
  lemma ColumnKeys(c: SchemaColumn)
    ensures SchemaColumnJson(c).Obj?
    ensures var ms := SchemaColumnJson(c).members;
            && |ms| == 8
            && |ms[0].key| == 4 && |ms[1].key| == 7 && |ms[2].key| == 8 && |ms[3].key| == 9
            && |ms[4].key| == 8 && |ms[5].key| == 18 && |ms[6].key| == 8 && |ms[7].key| == 9
            && ms[2].key[0] == 't' && ms[4].key[0] == 'n' && ms[6].key[0] == 'i'
            && ms[3].key[0] == 't' && ms[7].key[0] == 'g'
  {}

  lemma ColumnIsWellFormed(c: SchemaColumn)
    ensures WellFormed(SchemaColumnJson(c))
  {
    ColumnKeys(c);
    ColumnValues(c);
    hide SchemaColumnJson;
    assert DistinctKeys(SchemaColumnJson(c).members);
  }

  lemma ColumnValues(c: SchemaColumn)
    ensures forall m | m in SchemaColumnJson(c).members :: WellFormed(m.value)
  {}

  /** Storing a relation that extends the one in its place makes the response larger in every measure, so a
      response within the limits had only predecessors within the limits. */
  lemma StoreGrows(m: Maps, schema: string, relation: string, r: Relation, limits: Limits)
    requires Ordered(m)
    requires Lookup(m, schema, relation).Some? ==> Extends(Lookup(m, schema, relation).value, r)
    requires SchemaFits(Output(Store(m, schema, relation, r)), limits)
    ensures SchemaFits(Output(m), limits)
  {
    var m' := Store(m, schema, relation, r);
    StoreKeepsOrder(m, schema, relation, r);
    MapsGrow(m, schema, relation, r);
    ResultBytesAre(m);
    ResultBytesAre(m');
    OutputCells(m, limits.cellBytes);
    OutputCells(m', limits.cellBytes);
    CellsGrow(m, schema, relation, r, limits.cellBytes);
    ResultIsWellFormed(Output(m));
    ResultIsWellFormed(Output(m'));
    LengthKeptByCanonical(ResultJson(Output(m)));
    LengthKeptByCanonical(ResultJson(Output(m')));
  }
}
