/** The JSON text of a schema response, read back: what its canonical text says, key by key. */
module SchemaDocuments {
  import opened Wrappers
  import opened SortedMap
  import opened Lists
  import opened Json
  import opened JsonText
  import opened JsonReading
  import opened Catalog
  import opened SchemaSize
  import opened ResultDocuments

  // ----- what a document says -----

  ghost predicate DescribesSchemaColumn(j: Json, c: SchemaColumn) {
    && j.Obj? && |j.members| == 8
    && Get(j.members, "name") == Some(Str(c.name)) && Get(j.members, "ordinal") == Some(Num(c.ordinal))
    && Get(j.members, "type_oid") == Some(Num(c.typeOid)) && Get(j.members, "type_name") == Some(Str(c.typeName))
    && Get(j.members, "nullable") == Some(Bool(c.nullable))
    && Get(j.members, "default_expression").Some?
    && DescribesCell(Get(j.members, "default_expression").value, c.defaultExpression)
    && Get(j.members, "identity") ==
       Some(Str(match c.identity case NoIdentity => "none" case Always => "always" case ByDefault => "by_default"))
    && Get(j.members, "generated") == Some(Bool(c.generated))
  }

  ghost predicate DescribesConstraint(j: Json, c: Constraint) {
    && j.Obj? && |j.members| == 3
    && Get(j.members, "name") == Some(Str(c.name))
    && Get(j.members, "kind") ==
       Some(Str(match c.kind
                case PrimaryKey => "primary_key" case Unique => "unique" case ForeignKey => "foreign_key"
                case Check => "check" case Exclusion => "exclusion"))
    && Get(j.members, "definition") == Some(Str(c.definition))
  }

  ghost predicate DescribesRelation(j: Json, r: Relation) {
    && j.Obj? && |j.members| == 4
    && Get(j.members, "name") == Some(Str(r.name))
    && Get(j.members, "kind") ==
       Some(Str(match r.kind
                case Table => "table" case PartitionedTable => "partitioned_table" case View => "view"
                case MaterializedView => "materialized_view" case ForeignTable => "foreign_table"))
    && var columns, constraints := Get(j.members, "columns"), Get(j.members, "constraints");
       && columns.Some? && columns.value.Arr? && |columns.value.items| == |r.columns|
       && (forall i | 0 <= i < |r.columns| :: DescribesSchemaColumn(columns.value.items[i], r.columns[i]))
       && constraints.Some? && constraints.value.Arr? && |constraints.value.items| == |r.constraints|
       && (forall i | 0 <= i < |r.constraints| :: DescribesConstraint(constraints.value.items[i], r.constraints[i]))
  }

  ghost predicate DescribesSchema(j: Json, s: SchemaInfo) {
    && j.Obj? && |j.members| == 2
    && Get(j.members, "name") == Some(Str(s.name))
    && var relations := Get(j.members, "relations");
       && relations.Some? && relations.value.Arr? && |relations.value.items| == |s.relations|
       && forall i | 0 <= i < |s.relations| :: DescribesRelation(relations.value.items[i], s.relations[i])
  }

  ghost predicate DescribesResponse(j: Json, schemas: seq<SchemaInfo>) {
    && j.Obj? && |j.members| == 1
    && var all := Get(j.members, "schemas");
       && all.Some? && all.value.Arr? && |all.value.items| == |schemas|
       && forall i | 0 <= i < |schemas| :: DescribesSchema(all.value.items[i], schemas[i])
  }

  // ----- the canonical text says it -----

  lemma SchemaColumnDescribed(c: SchemaColumn)
    ensures DescribesSchemaColumn(Canonicalize(SchemaColumnJson(c)), c)
  {
    ColumnIsWellFormed(c);
    var ms := SchemaColumnJson(c).members;
    SortedUnder(ms, 0);
    SortedUnder(ms, 1);
    SortedUnder(ms, 2);
    SortedUnder(ms, 3);
    SortedUnder(ms, 4);
    SortedUnder(ms, 5);
    SortedUnder(ms, 6);
    SortedUnder(ms, 7);
    SimpleIsFixed(ms[0].value);
    SimpleIsFixed(ms[1].value);
    SimpleIsFixed(ms[2].value);
    SimpleIsFixed(ms[3].value);
    SimpleIsFixed(ms[4].value);
    SimpleIsFixed(ms[5].value);
    SimpleIsFixed(ms[6].value);
    SimpleIsFixed(ms[7].value);
    hide Canonicalize, WellFormed;
  }

  lemma SimpleIsFixed(j: Json)
    ensures !j.Arr? && !j.Obj? ==> Canonicalize(j) == j
  {}

  lemma ConstraintDescribed(c: Constraint)
    ensures DescribesConstraint(Canonicalize(ConstraintJson(c)), c)
  {
    ConstraintIsWellFormed(c);
    var ms := ConstraintJson(c).members;
    SortedUnder(ms, 0);
    SortedUnder(ms, 1);
    SortedUnder(ms, 2);
  }

  /** The four members of a relation, after sorting. */
  lemma RelationMembers(r: Relation)
    ensures var j := Canonicalize(RelationJson(r));
            && j.Obj? && |j.members| == 4
            && Get(j.members, "name") == Some(Str(r.name)) && Get(j.members, "kind") == Some(Str(KindText(r.kind)))
            && Get(j.members, "columns") == Some(Canonicalize(Arr(Map(SchemaColumnJson, r.columns))))
            && Get(j.members, "constraints") == Some(Canonicalize(Arr(Map(ConstraintJson, r.constraints))))
  {
    hide Canonicalize, KindText, SchemaColumnJson, ConstraintJson, Lists.Map;
    RelationKeys(r);
    var ms := RelationJson(r).members;
    SimpleIsFixed(ms[0].value);
    SimpleIsFixed(ms[1].value);
    SortedUnder(ms, 0);
    SortedUnder(ms, 1);
    SortedUnder(ms, 2);
    SortedUnder(ms, 3);
  }

  lemma ColumnsDescribed(columns: seq<SchemaColumn>)
    ensures var j := Canonicalize(Arr(Map(SchemaColumnJson, columns)));
            && j.Arr? && |j.items| == |columns|
            && forall i | 0 <= i < |columns| :: DescribesSchemaColumn(j.items[i], columns[i])
  {
    hide Canonicalize, DescribesSchemaColumn, SchemaColumnJson;
    MapAt(SchemaColumnJson, columns);
    SortedItems(Map(SchemaColumnJson, columns));
    forall i | 0 <= i < |columns| ensures DescribesSchemaColumn(Canonicalize(SchemaColumnJson(columns[i])), columns[i]) {
      SchemaColumnDescribed(columns[i]);
    }
  }

  lemma ConstraintsDescribed(constraints: seq<Constraint>)
    ensures var j := Canonicalize(Arr(Map(ConstraintJson, constraints)));
            && j.Arr? && |j.items| == |constraints|
            && forall i | 0 <= i < |constraints| :: DescribesConstraint(j.items[i], constraints[i])
  {
    hide Canonicalize, DescribesConstraint, ConstraintJson;
    MapAt(ConstraintJson, constraints);
    SortedItems(Map(ConstraintJson, constraints));
    forall i | 0 <= i < |constraints|
      ensures DescribesConstraint(Canonicalize(ConstraintJson(constraints[i])), constraints[i])
    {
      ConstraintDescribed(constraints[i]);
    }
  }

  lemma RelationDescribed(r: Relation)
    ensures DescribesRelation(Canonicalize(RelationJson(r)), r)
  {
    RelationMembers(r);
    ColumnsDescribed(r.columns);
    ConstraintsDescribed(r.constraints);
    hide Canonicalize, DescribesSchemaColumn, DescribesConstraint, SchemaColumnJson, ConstraintJson, RelationJson, Get;
  }

  lemma SchemaDescribed(s: SchemaInfo)
    ensures DescribesSchema(Canonicalize(SchemaJson(s)), s)
  {
    SchemaIsWellFormed(s);
    var ms := SchemaJson(s).members;
    var relations := Map(RelationJson, s.relations);
    SortedUnder(ms, 0);
    SortedUnder(ms, 1);
    SortedItems(relations);
    MapAt(RelationJson, s.relations);
    SimpleIsFixed(ms[0].value);
    hide Canonicalize, WellFormed, DescribesRelation, RelationJson;
    forall i | 0 <= i < |s.relations| ensures DescribesRelation(Canonicalize(relations[i]), s.relations[i]) {
      RelationDescribed(s.relations[i]);
    }
  }

  /** The canonical text of a schema response, read back, describes the response: nothing is lost, renamed or moved. */
  lemma ResponseTextDescribes(schemas: seq<SchemaInfo>)
    ensures ReadValue(Print(Canonicalize(ResultJson(schemas)))) == Some((Canonicalize(ResultJson(schemas)), ""))
    ensures DescribesResponse(Canonicalize(ResultJson(schemas)), schemas)
  {
    TextIsRead(Canonicalize(ResultJson(schemas)));
    ResultIsWellFormed(schemas);
    var ms := ResultJson(schemas).members;
    var all := Map(SchemaJson, schemas);
    SortedUnder(ms, 0);
    SortedItems(all);
    MapAt(SchemaJson, schemas);
    hide Canonicalize, WellFormed, DescribesSchema, SchemaJson;
    forall i | 0 <= i < |schemas| ensures DescribesSchema(Canonicalize(all[i]), schemas[i]) {
      SchemaDescribed(schemas[i]);
    }
  }

  // ----- one document, one response -----

  lemma OneColumn(j: Json, c: SchemaColumn, d: SchemaColumn)
    requires DescribesSchemaColumn(j, c) && DescribesSchemaColumn(j, d)
    ensures c == d
  {
    hide Get;
    assert |"none"| == 4 && |"always"| == 6 && |"by_default"| == 10;
  }

  lemma OneConstraint(j: Json, c: Constraint, d: Constraint)
    requires DescribesConstraint(j, c) && DescribesConstraint(j, d)
    ensures c == d
  {
    hide Get;
    assert |"primary_key"| == 11 && |"unique"| == 6 && |"foreign_key"| == 11 && |"check"| == 5 && |"exclusion"| == 9;
    assert "primary_key"[0] != "foreign_key"[0];
  }

  lemma OneRelation(j: Json, r: Relation, t: Relation)
    requires DescribesRelation(j, r) && DescribesRelation(j, t)
    ensures r == t
  {
    hide Get, DescribesSchemaColumn, DescribesConstraint;
    assert |"table"| == 5 && |"partitioned_table"| == 17 && |"view"| == 4 && |"materialized_view"| == 17;
    assert |"foreign_table"| == 13 && "partitioned_table"[0] != "materialized_view"[0];
    forall i | 0 <= i < |r.columns| ensures r.columns[i] == t.columns[i] {
      OneColumn(Get(j.members, "columns").value.items[i], r.columns[i], t.columns[i]);
    }
    forall i | 0 <= i < |r.constraints| ensures r.constraints[i] == t.constraints[i] {
      OneConstraint(Get(j.members, "constraints").value.items[i], r.constraints[i], t.constraints[i]);
    }
  }

  lemma OneSchema(j: Json, s: SchemaInfo, t: SchemaInfo)
    requires DescribesSchema(j, s) && DescribesSchema(j, t)
    ensures s == t
  {
    hide Get, DescribesRelation;
    forall i | 0 <= i < |s.relations| ensures s.relations[i] == t.relations[i] {
      OneRelation(Get(j.members, "relations").value.items[i], s.relations[i], t.relations[i]);
    }
  }

  /** A document describes one response only: two responses with the same text are the same. */
  lemma DescribesOneResponse(j: Json, p: seq<SchemaInfo>, q: seq<SchemaInfo>)
    requires DescribesResponse(j, p) && DescribesResponse(j, q)
    ensures p == q
  {
    hide Get, DescribesSchema;
    forall i | 0 <= i < |p| ensures p[i] == q[i] {
      OneSchema(Get(j.members, "schemas").value.items[i], p[i], q[i]);
    }
  }
}
