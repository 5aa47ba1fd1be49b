/** What the schema response says about the catalog rows. */
module SchemaResponse {
  import opened Wrappers
  import opened ByteOrder
  import opened SortedMap
  import opened Lists
  import opened QueryResult
  import opened Catalog
  import opened SchemaSize
  import opened SchemaAssembly

  // ----- the rows of one relation -----

  /** The kind in the first row that introduces the relation. */
  function KindOf(rows: seq<CatalogRow>, s: string, n: string): Option<RelationKind> {
    if rows == [] then None
    else match Decode(rows[0])
         case Some(RelationItem(s', n', kind)) => if s' == s && n' == n then Some(kind) else KindOf(rows[1..], s, n)
         case _ => KindOf(rows[1..], s, n)
  }

  /** The columns listed for the relation, in the order of their rows. */
  function ColumnsOf(rows: seq<CatalogRow>, s: string, n: string): seq<SchemaColumn> {
    if rows == [] then []
    else (match Decode(rows[0])
          case Some(ColumnItem(s', n', c)) => if s' == s && n' == n then [c] else []
          case _ => [])
         + ColumnsOf(rows[1..], s, n)
  }

  function ConstraintsOf(rows: seq<CatalogRow>, s: string, n: string): seq<Constraint> {
    if rows == [] then []
    else (match Decode(rows[0])
          case Some(ConstraintItem(s', n', c)) => if s' == s && n' == n then [c] else []
          case _ => [])
         + ConstraintsOf(rows[1..], s, n)
  }

  function Expected(rows: seq<CatalogRow>, s: string, n: string): Option<Relation> {
    match KindOf(rows, s, n)
    case None => None
    case Some(kind) => Some(Relation(n, kind, ColumnsOf(rows, s, n), ConstraintsOf(rows, s, n)))
  }

  lemma {:induction false} OneMoreRow(rows: seq<CatalogRow>, row: CatalogRow, s: string, n: string)
    ensures KindOf(rows + [row], s, n) == if KindOf(rows, s, n).Some? then KindOf(rows, s, n) else KindOf([row], s, n)
    ensures ColumnsOf(rows + [row], s, n) == ColumnsOf(rows, s, n) + ColumnsOf([row], s, n)
    ensures ConstraintsOf(rows + [row], s, n) == ConstraintsOf(rows, s, n) + ConstraintsOf([row], s, n)
  {
    hide Decode;
    if rows == [] {
      assert [] + [row] == [row];
    } else {
      var all := rows + [row];
      OneMoreRow(rows[1..], row, s, n);
      assert all[0] == rows[0] && all[1..] == rows[1..] + [row];
    }
  }

  // ----- acceptance -----

  /** Every row can be decoded, and columns and constraints belong to a relation introduced before them. */
  ghost predicate Consistent(rows: seq<CatalogRow>) {
    forall k | 0 <= k < |rows| ::
      && Decode(rows[k]).Some?
      && var item := Decode(rows[k]).value;
         item.RelationItem? || KindOf(rows[..k], item.schema, item.relation).Some?
  }

  lemma ConsistentPrefix(rows: seq<CatalogRow>)
    requires rows != []
    ensures var n := |rows| - 1;
            Consistent(rows) <==>
              && Consistent(rows[..n]) && Decode(rows[n]).Some?
              && var item := Decode(rows[n]).value;
                 item.RelationItem? || KindOf(rows[..n], item.schema, item.relation).Some?
  {
    var n := |rows| - 1;
    assert forall k | 0 <= k < n :: rows[..n][..k] == rows[..k] && rows[..n][k] == rows[k];
  }

  lemma RowStep(m: Maps, row: CatalogRow, before: seq<CatalogRow>, s: string, n: string)
    requires Decode(row).Some? && Step(m, Decode(row).value).Some?
    requires var item := Decode(row).value;
             && Lookup(m, s, n) == Expected(before, s, n)
             && Lookup(m, item.schema, item.relation) == Expected(before, item.schema, item.relation)
    requires KindOf(before, s, n).None? ==> ColumnsOf(before, s, n) == [] && ConstraintsOf(before, s, n) == []
    ensures Lookup(Step(m, Decode(row).value).value, s, n) == Expected(before + [row], s, n)
    ensures KindOf(before + [row], s, n).None? ==>
              ColumnsOf(before + [row], s, n) == [] && ConstraintsOf(before + [row], s, n) == []
  {
    hide Decode;
    OneMoreRow(before, row, s, n);
    OnlyRow(row, s, n);
    var item := Decode(row).value;
    var found := Lookup(m, item.schema, item.relation);
    assert ColumnsOf([row], s, n) == [] ==> ColumnsOf(before + [row], s, n) == ColumnsOf(before, s, n);
    assert ConstraintsOf([row], s, n) == [] ==> ConstraintsOf(before + [row], s, n) == ConstraintsOf(before, s, n);
    match item {
      case RelationItem(s', n', kind) =>
        if found.None? {
          LookupAfterStore(m, s', n', Relation(n', kind, [], []), s, n);
        }
      case ColumnItem(s', n', c) =>
        LookupAfterStore(m, s', n', found.value.(columns := found.value.columns + [c]), s, n);
      case ConstraintItem(s', n', c) =>
        LookupAfterStore(m, s', n', found.value.(constraints := found.value.constraints + [c]), s, n);
    }
  }

  lemma OnlyRow(row: CatalogRow, s: string, n: string)
    requires Decode(row).Some?
    ensures var item := Decode(row).value;
            var about := item.schema == s && item.relation == n;
            && KindOf([row], s, n) == (if item.RelationItem? && about then Some(item.kind) else None)
            && ColumnsOf([row], s, n) == (if item.ColumnItem? && about then [item.column] else [])
            && ConstraintsOf([row], s, n) == (if item.ConstraintItem? && about then [item.constraint] else [])
  {
    hide Decode;
    assert [row][1..] == [];
  }

  /** Assembly succeeds exactly on consistent rows, and then holds for every relation its first kind and all
      of its columns and constraints, none lost and none repeated. */
  lemma {:induction false} AssembledExactly(rows: seq<CatalogRow>)
    ensures Assemble(rows).Some? <==> Consistent(rows)
    ensures Assemble(rows).Some? ==> forall s, n :: Lookup(Assemble(rows).value, s, n) == Expected(rows, s, n)
    ensures Assemble(rows).Some? ==>
              forall s, n :: KindOf(rows, s, n).None? ==> ColumnsOf(rows, s, n) == [] && ConstraintsOf(rows, s, n) == []
  {
    if rows != [] {
      var k := |rows| - 1;
      var before, row := rows[..k], rows[k];
      assert rows == before + [row];
      AssembledExactly(before);
      ConsistentPrefix(rows);
      if Assemble(rows).Some? {
        var m := Assemble(before).value;
        forall s, n
          ensures Lookup(Assemble(rows).value, s, n) == Expected(rows, s, n)
          ensures KindOf(rows, s, n).None? ==> ColumnsOf(rows, s, n) == [] && ConstraintsOf(rows, s, n) == []
        {
          RowStep(m, row, before, s, n);
        }
      }
    }
  }

  // ----- the response -----

  ghost predicate Holds(out: seq<SchemaInfo>, s: string, n: string, r: Relation) {
    exists i, j :: 0 <= i < |out| && 0 <= j < |out[i].relations| && out[i].name == s
                   && out[i].relations[j].name == n && out[i].relations[j] == r
  }

  lemma OutputShape(m: Maps)
    requires Ordered(m)
    ensures |Output(m)| == |m|
    ensures forall i | 0 <= i < |m| ::
              Output(m)[i].name == m[i].key && |Output(m)[i].relations| == |m[i].value|
  {
    OutputIsMap(m);
    MapAt(Describe, m);
    forall i | 0 <= i < |m| ensures |Output(m)[i].relations| == |m[i].value| {
      MapAt(ArrangedEntry, m[i].value);
    }
  }

  /** One relation in the maps and in the response. */
  lemma RelationAt(m: Maps, i: nat, j: nat)
    requires Ordered(m) && i < |m| && j < |m[i].value|
    ensures |Output(m)| == |m| && |Output(m)[i].relations| == |m[i].value|
    ensures Output(m)[i].relations[j] == Arranged(m[i].value[j].value)
    ensures Lookup(m, m[i].key, m[i].value[j].key) == Some(m[i].value[j].value)
  {
    OutputIsMap(m);
    MapAt(Describe, m);
    MapAt(ArrangedEntry, m[i].value);
    EntryIsGot(m, m[i]);
    assert m[i] in m;
    EntryIsGot(m[i].value, m[i].value[j]);
  }

  lemma HeldIsExpected(rows: seq<CatalogRow>, s: string, n: string, r: Relation)
    requires Assemble(rows).Some? && Holds(Output(Assemble(rows).value), s, n, r)
    ensures Expected(rows, s, n).Some? && r == Arranged(Expected(rows, s, n).value)
  {
    hide Expected, Arranged, Assemble, Output, Lookup, Ordered, Consistent;
    var m := Assemble(rows).value;
    AssembledExactly(rows);
    AssembledIsOrdered(rows);
    OutputShape(m);
    var i, j :| 0 <= i < |Output(m)| && 0 <= j < |Output(m)[i].relations| && Output(m)[i].name == s
                && Output(m)[i].relations[j].name == n && Output(m)[i].relations[j] == r;
    RelationAt(m, i, j);
    ArrangedName(m[i].value[j].value);
    assert Lookup(m, s, n) == Expected(rows, s, n);
  }

  lemma ArrangedName(r: Relation)
    ensures Arranged(r).name == r.name
  {}

  lemma ExpectedIsHeld(rows: seq<CatalogRow>, s: string, n: string)
    requires Assemble(rows).Some? && Expected(rows, s, n).Some?
    ensures Holds(Output(Assemble(rows).value), s, n, Arranged(Expected(rows, s, n).value))
  {
    hide Expected, Arranged, Assemble, Output, Consistent;
    var m, expected := Assemble(rows).value, Expected(rows, s, n).value;
    AssembledExactly(rows);
    AssembledIsOrdered(rows);
    OutputShape(m);
    assert Lookup(m, s, n) == Some(expected);
    GetIsMember(m, s);
    var i :| 0 <= i < |m| && m[i].key == s;
    EntryIsGot(m, m[i]);
    GetIsMember(m[i].value, n);
    var j :| 0 <= j < |m[i].value| && m[i].value[j].key == n;
    RelationAt(m, i, j);
    ArrangedName(expected);
    assert Output(m)[i].relations[j] == Arranged(expected) && Output(m)[i].name == s;
  }

  /** The response holds exactly the relations that were introduced, each once in its schema, with its columns
      in ordinal order and its constraints in name order. */
  lemma ResponseHolds(rows: seq<CatalogRow>, s: string, n: string, r: Relation)
    requires Assemble(rows).Some?
    ensures Holds(Output(Assemble(rows).value), s, n, r) <==>
            Expected(rows, s, n).Some? && r == Arranged(Expected(rows, s, n).value)
  {
    hide Holds, Expected, Arranged;
    if Holds(Output(Assemble(rows).value), s, n, r) {
      HeldIsExpected(rows, s, n, r);
    }
    if Expected(rows, s, n).Some? {
      ExpectedIsHeld(rows, s, n);
    }
  }

  /** Schemas and the relations in them are in strictly increasing byte order of their names. */
  lemma ResponseIsSorted(rows: seq<CatalogRow>)
    requires Assemble(rows).Some?
    ensures var out := Output(Assemble(rows).value);
            && (forall i, j | 0 <= i < j < |out| :: Less(out[i].name, out[j].name))
            && (forall k, i, j | 0 <= k < |out| && 0 <= i < j < |out[k].relations| ::
                  Less(out[k].relations[i].name, out[k].relations[j].name))
  {
    var m := Assemble(rows).value;
    AssembledIsOrdered(rows);
    OutputIsMap(m);
    MapAt(Describe, m);
    var out := Output(m);
    forall k, i, j | 0 <= k < |out| && 0 <= i < j < |out[k].relations|
      ensures Less(out[k].relations[i].name, out[k].relations[j].name)
    {
      MapAt(ArrangedEntry, m[k].value);
      EntryIsGot(m, m[k]);
      EntryIsGot(m[k].value, m[k].value[i]);
      EntryIsGot(m[k].value, m[k].value[j]);
      assert Lookup(m, m[k].key, m[k].value[i].key) == Some(m[k].value[i].value);
      assert Lookup(m, m[k].key, m[k].value[j].key) == Some(m[k].value[j].value);
    }
  }

  /** Arranging a relation permutes its columns into ordinal order and its constraints into name order, and
      keeps the order of rows whose ordinals or names are equal. */
  lemma ArrangedIsSorted(r: Relation, c: SchemaColumn, k: Constraint)
    ensures multiset(Arranged(r).columns) == multiset(r.columns)
    ensures multiset(Arranged(r).constraints) == multiset(r.constraints)
    ensures forall i, j | 0 <= i < j < |r.columns| ::
              |Arranged(r).columns| == |r.columns| && Arranged(r).columns[i].ordinal <= Arranged(r).columns[j].ordinal
    ensures Ascending(Arranged(r).constraints, ConstraintBefore)
    ensures Peers(Arranged(r).columns, c, ColumnBefore) == Peers(r.columns, c, ColumnBefore)
    ensures Peers(Arranged(r).constraints, k, ConstraintBefore) == Peers(r.constraints, k, ConstraintBefore)
  {
    ColumnOrder();
    ConstraintOrder();
    SortIsStable(r.columns, ColumnBefore, c);
    SortIsStable(r.constraints, ConstraintBefore, k);
    SumSort(r.columns, ColumnBefore, ColumnBytes);
  }

  /** The incremental check against the whole: the first `k` rows of an accepted stream make an acceptable
      response of their own. */
  lemma {:induction false} AcceptedPrefixFits(rows: seq<CatalogRow>, k: nat, limits: Limits)
    requires Assemble(rows).Some? && SchemaFits(Output(Assemble(rows).value), limits) && k <= |rows|
    ensures Assemble(rows[..k]).Some? && SchemaFits(Output(Assemble(rows[..k]).value), limits)
  {
    if Assemble(rows[..k]).None? {
      MalformedStays(rows, k);
    } else if !SchemaFits(Output(Assemble(rows[..k]).value), limits) {
      ExcessRejects(rows, k, limits);
    }
  }
}
