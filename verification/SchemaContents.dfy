/** The schema response in terms of what the catalog rows say. */
module SchemaContents {
  import opened Wrappers
  import opened ByteOrder
  import opened Lists
  import opened Json
  import opened JsonText
  import opened QueryResult
  import opened Catalog
  import opened CatalogRows
  import opened SchemaSize
  import opened SchemaAssembly
  import opened SchemaResponse

  // ----- what is said about one relation -----

  predicate About(item: Item, s: string, n: string) {
    item.schema == s && item.relation == n
  }

  function KindsIn(items: seq<Item>, s: string, n: string): seq<RelationKind> {
    if items == [] then []
    else (if items[0].RelationItem? && About(items[0], s, n) then [items[0].kind] else []) + KindsIn(items[1..], s, n)
  }

  function ColumnsIn(items: seq<Item>, s: string, n: string): seq<SchemaColumn> {
    if items == [] then []
    else (if items[0].ColumnItem? && About(items[0], s, n) then [items[0].column] else []) + ColumnsIn(items[1..], s, n)
  }

  function ConstraintsIn(items: seq<Item>, s: string, n: string): seq<Constraint> {
    if items == [] then []
    else (if items[0].ConstraintItem? && About(items[0], s, n) then [items[0].constraint] else [])
         + ConstraintsIn(items[1..], s, n)
  }

  ghost predicate Written(rows: seq<CatalogRow>, items: seq<Item>) {
    |rows| == |items| && forall i | 0 <= i < |rows| :: Writes(rows[i], items[i])
  }

  /** The rows say of each relation what the items say of it. */
  lemma {:induction false} WrittenSays(rows: seq<CatalogRow>, items: seq<Item>, s: string, n: string)
    requires Written(rows, items)
    ensures KindOf(rows, s, n) == if KindsIn(items, s, n) == [] then None else Some(KindsIn(items, s, n)[0])
    ensures ColumnsOf(rows, s, n) == ColumnsIn(items, s, n)
    ensures ConstraintsOf(rows, s, n) == ConstraintsIn(items, s, n)
  {
    hide Decode, Writes;
    if rows != [] {
      assert Writes(rows[0], items[0]);
      DecodesExactly(rows[0], items[0]);
      WrittenSays(rows[1..], items[1..], s, n);
    }
  }

  // ----- which streams are accepted -----

  /** Every column and constraint belongs to a relation that an earlier row introduces. */
  ghost predicate IntroducedFirst(items: seq<Item>) {
    forall k | 0 <= k < |items| :: items[k].RelationItem? || IntroducedBefore(items, k, items[k].schema, items[k].relation)
  }

  ghost predicate IntroducedBefore(items: seq<Item>, k: nat, s: string, n: string)
    requires k <= |items|
  {
    exists j | 0 <= j < k :: items[j].RelationItem? && About(items[j], s, n)
  }

  lemma {:induction false} KindsMean(items: seq<Item>, s: string, n: string)
    ensures KindsIn(items, s, n) != [] <==> IntroducedBefore(items, |items|, s, n)
  {
    if items != [] {
      var rest := items[1..];
      KindsMean(rest, s, n);
      if IntroducedBefore(rest, |rest|, s, n) {
        var j :| 0 <= j < |rest| && rest[j].RelationItem? && About(rest[j], s, n);
        assert items[j + 1] == rest[j];
      }
      if IntroducedBefore(items, |items|, s, n) && !(items[0].RelationItem? && About(items[0], s, n)) {
        var j :| 0 <= j < |items| && items[j].RelationItem? && About(items[j], s, n);
        assert rest[j - 1] == items[j];
      }
    }
  }

  lemma IntroducedMeans(rows: seq<CatalogRow>, items: seq<Item>, k: nat, s: string, n: string)
    requires Written(rows, items) && k <= |items|
    ensures KindOf(rows[..k], s, n).Some? <==> IntroducedBefore(items, k, s, n)
  {
    WrittenSays(rows[..k], items[..k], s, n);
    KindsMean(items[..k], s, n);
    assert forall j | 0 <= j < k :: items[..k][j] == items[j];
  }

  /** Rows that spell items are assembled exactly if the relations are introduced first, and rows that spell nothing
      never are. */
  lemma AssembledIfIntroduced(rows: seq<CatalogRow>, items: seq<Item>)
    requires Written(rows, items)
    ensures Assemble(rows).Some? <==> IntroducedFirst(items)
  {
    hide Decode, Writes, KindOf, IntroducedBefore;
    AssembledExactly(rows);
    forall k | 0 <= k < |rows|
      ensures Decode(rows[k]) == Some(items[k])
      ensures KindOf(rows[..k], items[k].schema, items[k].relation).Some? <==>
              IntroducedBefore(items, k, items[k].schema, items[k].relation)
    {
      assert Writes(rows[k], items[k]);
      DecodesExactly(rows[k], items[k]);
      IntroducedMeans(rows, items, k, items[k].schema, items[k].relation);
    }
  }

  lemma AssembledIsWritten(rows: seq<CatalogRow>) returns (items: seq<Item>)
    requires Assemble(rows).Some?
    ensures Written(rows, items)
  {
    hide Decode, Writes, KindOf;
    AssembledExactly(rows);
    items := seq(|rows|, i requires 0 <= i < |rows| => Decode(rows[i]).value);
    forall i | 0 <= i < |rows| ensures Writes(rows[i], items[i]) {
      DecodesExactly(rows[i], items[i]);
    }
  }

  // ----- the three answers -----

  ghost predicate SpellRelations(rows: seq<Row>, items: seq<Item>) {
    |rows| == |items| && forall i | 0 <= i < |rows| ::
      items[i].RelationItem? && WritesRelation(rows[i], items[i].schema, items[i].relation, items[i].kind)
  }

  ghost predicate SpellColumns(rows: seq<Row>, items: seq<Item>) {
    |rows| == |items| && forall i | 0 <= i < |rows| ::
      items[i].ColumnItem? && WritesColumn(rows[i], items[i].schema, items[i].relation, items[i].column)
  }

  ghost predicate SpellConstraints(rows: seq<Row>, items: seq<Item>) {
    |rows| == |items| && forall i | 0 <= i < |rows| ::
      items[i].ConstraintItem? && WritesConstraint(rows[i], items[i].schema, items[i].relation, items[i].constraint)
  }

  lemma StreamIsWritten(relations: seq<Row>, columns: seq<Row>, constraints: seq<Row>,
                        rs: seq<Item>, cs: seq<Item>, ks: seq<Item>)
    requires SpellRelations(relations, rs) && SpellColumns(columns, cs) && SpellConstraints(constraints, ks)
    ensures Written(Stream(relations, columns, constraints), rs + cs + ks)
  {
    hide WritesRelation, WritesColumn, WritesConstraint;
    var rows, items := Stream(relations, columns, constraints), rs + cs + ks;
    forall i | 0 <= i < |rows| ensures Writes(rows[i], items[i]) {
      var first, second := |relations|, |relations| + |columns|;
      assert i < first ==> rows[i] == RelationRow(relations[i]) && items[i] == rs[i];
      assert first <= i < second ==> rows[i] == ColumnRow(columns[i - first]) && items[i] == cs[i - first];
      assert second <= i ==> rows[i] == ConstraintRow(constraints[i - second]) && items[i] == ks[i - second];
    }
  }

  lemma KindsOfCons(item: Item, rest: seq<Item>, s: string, n: string)
    ensures KindsIn([item] + rest, s, n) ==
            (if item.RelationItem? && About(item, s, n) then [item.kind] else []) + KindsIn(rest, s, n)
  {
    assert ([item] + rest)[1..] == rest;
  }

  lemma {:induction false} KindsInOrder(a: seq<Item>, b: seq<Item>, s: string, n: string)
    ensures KindsIn(a + b, s, n) == KindsIn(a, s, n) + KindsIn(b, s, n)
  {
    if a == [] {
      assert a + b == b;
    } else {
      var item, rest := a[0], a[1..];
      assert a == [item] + rest && a + b == [item] + (rest + b);
      hide KindsIn;
      KindsOfCons(item, rest, s, n);
      KindsOfCons(item, rest + b, s, n);
      KindsInOrder(rest, b, s, n);
    }
  }

  lemma ColumnsOfCons(item: Item, rest: seq<Item>, s: string, n: string)
    ensures ColumnsIn([item] + rest, s, n) ==
            (if item.ColumnItem? && About(item, s, n) then [item.column] else []) + ColumnsIn(rest, s, n)
  {
    assert ([item] + rest)[1..] == rest;
  }

  lemma {:induction false} ColumnsInOrder(a: seq<Item>, b: seq<Item>, s: string, n: string)
    ensures ColumnsIn(a + b, s, n) == ColumnsIn(a, s, n) + ColumnsIn(b, s, n)
  {
    if a == [] {
      assert a + b == b;
    } else {
      var item, rest := a[0], a[1..];
      assert a == [item] + rest && a + b == [item] + (rest + b);
      hide ColumnsIn;
      ColumnsOfCons(item, rest, s, n);
      ColumnsOfCons(item, rest + b, s, n);
      ColumnsInOrder(rest, b, s, n);
    }
  }

  lemma ConstraintsOfCons(item: Item, rest: seq<Item>, s: string, n: string)
    ensures ConstraintsIn([item] + rest, s, n) ==
            (if item.ConstraintItem? && About(item, s, n) then [item.constraint] else []) + ConstraintsIn(rest, s, n)
  {
    assert ([item] + rest)[1..] == rest;
  }

  lemma {:induction false} ConstraintsInOrder(a: seq<Item>, b: seq<Item>, s: string, n: string)
    ensures ConstraintsIn(a + b, s, n) == ConstraintsIn(a, s, n) + ConstraintsIn(b, s, n)
  {
    if a == [] {
      assert a + b == b;
    } else {
      var item, rest := a[0], a[1..];
      assert a == [item] + rest && a + b == [item] + (rest + b);
      hide ConstraintsIn;
      ConstraintsOfCons(item, rest, s, n);
      ConstraintsOfCons(item, rest + b, s, n);
      ConstraintsInOrder(rest, b, s, n);
    }
  }

  lemma {:induction false} NotSaid(items: seq<Item>, s: string, n: string)
    ensures (forall i | 0 <= i < |items| :: !items[i].RelationItem?) ==> KindsIn(items, s, n) == []
    ensures (forall i | 0 <= i < |items| :: !items[i].ColumnItem?) ==> ColumnsIn(items, s, n) == []
    ensures (forall i | 0 <= i < |items| :: !items[i].ConstraintItem?) ==> ConstraintsIn(items, s, n) == []
  {
    if items != [] {
      NotSaid(items[1..], s, n);
    }
  }

  lemma SaidByAnswers(rs: seq<Item>, cs: seq<Item>, ks: seq<Item>, s: string, n: string)
    requires forall i | 0 <= i < |rs| :: rs[i].RelationItem?
    requires forall i | 0 <= i < |cs| :: cs[i].ColumnItem?
    requires forall i | 0 <= i < |ks| :: ks[i].ConstraintItem?
    ensures KindsIn(rs + cs + ks, s, n) == KindsIn(rs, s, n)
    ensures ColumnsIn(rs + cs + ks, s, n) == ColumnsIn(cs, s, n)
    ensures ConstraintsIn(rs + cs + ks, s, n) == ConstraintsIn(ks, s, n)
  {
    KindsInOrder(rs + cs, ks, s, n);
    KindsInOrder(rs, cs, s, n);
    ColumnsInOrder(rs + cs, ks, s, n);
    ColumnsInOrder(rs, cs, s, n);
    ConstraintsInOrder(rs + cs, ks, s, n);
    ConstraintsInOrder(rs, cs, s, n);
    NotSaid(rs, s, n);
    NotSaid(cs, s, n);
    NotSaid(ks, s, n);
  }

  /** A relation a column or constraint is said of is among the relations. */
  ghost predicate AllKnown(rs: seq<Item>, items: seq<Item>) {
    forall k | 0 <= k < |items| :: Known(rs, items[k])
  }

  ghost predicate Known(rs: seq<Item>, item: Item) {
    exists j | 0 <= j < |rs| :: About(rs[j], item.schema, item.relation)
  }

  lemma KnownIsIntroduced(rs: seq<Item>, cs: seq<Item>, ks: seq<Item>)
    requires forall i | 0 <= i < |rs| :: rs[i].RelationItem?
    requires forall i | 0 <= i < |cs| :: cs[i].ColumnItem?
    requires forall i | 0 <= i < |ks| :: ks[i].ConstraintItem?
    ensures IntroducedFirst(rs + cs + ks) <==> AllKnown(rs, cs + ks)
  {
    var items, later := rs + cs + ks, cs + ks;
    assert items == rs + later;
    if IntroducedFirst(items) {
      forall k | 0 <= k < |later| ensures Known(rs, later[k]) {
        var at := |rs| + k;
        assert items[at] == later[k] && !items[at].RelationItem?;
        var j :| 0 <= j < at && items[j].RelationItem? && About(items[j], items[at].schema, items[at].relation);
        assert j < |rs| && items[j] == rs[j];
      }
    }
    if AllKnown(rs, later) {
      forall k | 0 <= k < |items|
        ensures items[k].RelationItem? || IntroducedBefore(items, k, items[k].schema, items[k].relation)
      {
        if k < |rs| {
          assert items[k] == rs[k];
        } else {
          var item := later[k - |rs|];
          assert items[k] == item && Known(rs, item);
          var j :| 0 <= j < |rs| && About(rs[j], item.schema, item.relation);
          assert items[j] == rs[j] && items[j].RelationItem?;
        }
      }
      assert IntroducedFirst(items);
    }
  }

  /** What a schema retrieval returns, in terms of what the three answers say: it is well formed exactly if every column
      and constraint is of a listed relation, and the response then holds exactly the listed relations, each with the
      kind it is first listed with and with all of its columns and constraints, arranged. */
  lemma RetrievedSays(relations: seq<Row>, columns: seq<Row>, constraints: seq<Row>,
                      rs: seq<Item>, cs: seq<Item>, ks: seq<Item>, s: string, n: string, r: Relation)
    requires SpellRelations(relations, rs) && SpellColumns(columns, cs) && SpellConstraints(constraints, ks)
    ensures var maps := Assemble(Stream(relations, columns, constraints));
            && (maps.Some? <==> AllKnown(rs, cs + ks))
            && (maps.Some? ==>
                  (Holds(Output(maps.value), s, n, r) <==>
                     && KindsIn(rs, s, n) != []
                     && r == Arranged(Relation(n, KindsIn(rs, s, n)[0], ColumnsIn(cs, s, n), ConstraintsIn(ks, s, n)))))
  {
    hide Decode, Writes, WritesRelation, WritesColumn, WritesConstraint, Holds, Arranged, IntroducedFirst, AllKnown,
         KindsIn, ColumnsIn, ConstraintsIn;
    var rows, items := Stream(relations, columns, constraints), rs + cs + ks;
    StreamIsWritten(relations, columns, constraints, rs, cs, ks);
    AssembledIfIntroduced(rows, items);
    KnownIsIntroduced(rs, cs, ks);
    WrittenSays(rows, items, s, n);
    SaidByAnswers(rs, cs, ks, s, n);
    if Assemble(rows).Some? {
      ResponseHolds(rows, s, n, r);
    }
  }

  // ----- the limits -----

  lemma {:induction false} SumsAgree<T>(s: seq<T>, f: T -> nat, g: T -> nat)
    requires forall x :: f(x) == g(x)
    ensures Sum(s, f) == Sum(s, g)
  {
    if s != [] {
      SumsAgree(s[1..], f, g);
    }
  }

  /** A response is within its limits if schemas, relations, columns and constraints together are not more than the rows
      allowed, no text in it is too long, and its canonical JSON has no more bytes than allowed. */
  lemma FitsMeans(schemas: seq<SchemaInfo>, limits: Limits)
    ensures var relationObjects := (r: Relation) => 1 + |r.columns| + |r.constraints|;
            var schemaObjects := (s: SchemaInfo) => 1 + Sum(s.relations, relationObjects);
            SchemaFits(schemas, limits) <==>
              && Sum(schemas, schemaObjects) <= limits.resultRows
              && (forall s | s in schemas :: |s.name| <= limits.cellBytes)
              && (forall s, r | s in schemas && r in s.relations :: |r.name| <= limits.cellBytes)
              && (forall s, r, c | s in schemas && r in s.relations && c in r.columns ::
                    && |c.name| <= limits.cellBytes && |c.typeName| <= limits.cellBytes
                    && (c.defaultExpression.Some? ==> |c.defaultExpression.value| <= limits.cellBytes))
              && (forall s, r, c | s in schemas && r in s.relations && c in r.constraints ::
                    |c.name| <= limits.cellBytes && |c.definition| <= limits.cellBytes)
              && |Print(Canonicalize(ResultJson(schemas)))| <= limits.resultJsonBytes
  {
    var relationObjects := (r: Relation) => 1 + |r.columns| + |r.constraints|;
    var schemaObjects := (s: SchemaInfo) => 1 + Sum(s.relations, relationObjects);
    forall s ensures schemaObjects(s) == SchemaUnits(s) {
      SumsAgree(s.relations, relationObjects, RelationUnits);
    }
    SumsAgree(schemas, schemaObjects, SchemaUnits);
    hide Sum, Canonicalize, Print;
  }

  // ----- the order inside a relation -----

  function WithOrdinal(columns: seq<SchemaColumn>, ordinal: nat): seq<SchemaColumn> {
    if columns == [] then []
    else (if columns[0].ordinal == ordinal then [columns[0]] else []) + WithOrdinal(columns[1..], ordinal)
  }

  function WithName(constraints: seq<Constraint>, name: string): seq<Constraint> {
    if constraints == [] then []
    else (if constraints[0].name == name then [constraints[0]] else []) + WithName(constraints[1..], name)
  }

  lemma {:induction false} OrdinalPeers(columns: seq<SchemaColumn>, c: SchemaColumn)
    ensures Peers(columns, c, ColumnBefore) == WithOrdinal(columns, c.ordinal)
  {
    if columns != [] {
      OrdinalPeers(columns[1..], c);
    }
  }

  lemma {:induction false} NamePeers(constraints: seq<Constraint>, k: Constraint)
    ensures Peers(constraints, k, ConstraintBefore) == WithName(constraints, k.name)
  {
    if constraints != [] {
      NamePeers(constraints[1..], k);
      LessTotal(constraints[0].name, k.name);
    }
  }

  /** The columns of a relation are in the order of their ordinals and its constraints in byte order of their names,
      none lost, none repeated, and those with equal ordinals or names in the order of their rows. */
  lemma ArrangedInOrder(r: Relation, ordinal: nat, name: string)
    ensures var a := Arranged(r);
            && a.name == r.name && a.kind == r.kind
            && multiset(a.columns) == multiset(r.columns) && multiset(a.constraints) == multiset(r.constraints)
            && (forall i, j | 0 <= i < j < |a.columns| :: a.columns[i].ordinal <= a.columns[j].ordinal)
            && (forall i, j | 0 <= i < j < |a.constraints| :: !Less(a.constraints[j].name, a.constraints[i].name))
            && WithOrdinal(a.columns, ordinal) == WithOrdinal(r.columns, ordinal)
            && WithName(a.constraints, name) == WithName(r.constraints, name)
  {
    var c := SchemaColumn("", ordinal, 0, "", false, None, NoIdentity, false);
    var k := Constraint(name, Check, "");
    var a := Arranged(r);
    ArrangedIsSorted(r, c, k);
    OrdinalPeers(a.columns, c);
    OrdinalPeers(r.columns, c);
    NamePeers(a.constraints, k);
    NamePeers(r.constraints, k);
    assert |a.columns| == |r.columns| by {
      SumSort(r.columns, ColumnBefore, ColumnBytes);
    }
  }
}
