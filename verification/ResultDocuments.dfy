/** The JSON text of a result, read back: what its canonical text says, key by key. */
module ResultDocuments {
  import opened Wrappers
  import opened SortedMap
  import opened Json
  import opened JsonText
  import opened JsonReading
  import opened QueryResult

  // ----- objects after sorting -----

  /** Sorting the members of an object changes none of them. */
  lemma SortedUnder(ms: seq<Entry<Json>>, i: nat)
    requires DistinctKeys(ms) && i < |ms|
    ensures Canonicalize(Obj(ms)).Obj? && |Canonicalize(Obj(ms)).members| == |ms|
    ensures Get(Canonicalize(Obj(ms)).members, ms[i].key) == Some(Canonicalize(ms[i].value))
  {
    DistinctKeysCount(ms);
    CanonicalMembersAre(ms, ms[i].key);
    MemberLookup(ms, i);
  }

  lemma SortedItems(items: seq<Json>)
    ensures Canonicalize(Arr(items)).Arr? && |Canonicalize(Arr(items)).items| == |items|
    ensures forall i | 0 <= i < |items| :: Canonicalize(Arr(items)).items[i] == Canonicalize(items[i])
  {
    CanonicalItemsAre(items);
  }

  // ----- results -----

  ghost predicate DescribesColumn(j: Json, c: Column) {
    && j.Obj? && |j.members| == 3
    && Get(j.members, "name") == Some(Str(c.name))
    && Get(j.members, "type_oid") == Some(Num(c.typeOid))
    && Get(j.members, "format") == Some(Str("text"))
  }

  predicate DescribesCell(j: Json, cell: Option<string>) {
    match cell case None => j == Null case Some(s) => j == Str(s)
  }

  predicate DescribesRow(j: Json, row: Row) {
    j.Arr? && |j.items| == |row| && forall i | 0 <= i < |row| :: DescribesCell(j.items[i], row[i])
  }

  ghost predicate DescribesResult(j: Json, q: QueryResult) {
    && j.Obj? && |j.members| == 4
    && var columns, rows := Get(j.members, "columns"), Get(j.members, "rows");
       && columns.Some? && columns.value.Arr? && |columns.value.items| == |q.columns|
       && (forall i | 0 <= i < |q.columns| :: DescribesColumn(columns.value.items[i], q.columns[i]))
       && rows.Some? && rows.value.Arr? && |rows.value.items| == |q.rows|
       && (forall i | 0 <= i < |q.rows| :: DescribesRow(rows.value.items[i], q.rows[i]))
       && Get(j.members, "command_tag") == Some(Str(q.commandTag))
       && Get(j.members, "affected_rows").Some? && DescribesCell(Get(j.members, "affected_rows").value, q.affectedRows)
  }

  lemma ColumnDescribed(c: Column)
    ensures DescribesColumn(Canonicalize(ColumnJson(c)), c)
  {
    var ms := ColumnJson(c).members;
    assert "name"[0] != "type_oid"[0] && "name"[0] != "format"[0] && "type_oid"[0] != "format"[0];
    assert DistinctKeys(ms);
    SortedUnder(ms, 0);
    SortedUnder(ms, 1);
    SortedUnder(ms, 2);
  }

  lemma RowDescribed(row: Row)
    ensures DescribesRow(Canonicalize(Arr(CellsJson(row))), row)
  {
    SortedItems(CellsJson(row));
  }

  lemma ResultKeys(q: QueryResult)
    ensures DistinctKeys(ToJson(q).members)
  {
    ResultIsWellFormed(q);
  }

  /** The canonical text of a result, read back, describes the result: nothing is lost, renamed or moved. */
  lemma ResultTextDescribes(q: QueryResult)
    ensures ReadValue(Print(Canonicalize(ToJson(q)))) == Some((Canonicalize(ToJson(q)), ""))
    ensures DescribesResult(Canonicalize(ToJson(q)), q)
  {
    TextIsRead(Canonicalize(ToJson(q)));
    var ms := ToJson(q).members;
    ResultKeys(q);
    SortedUnder(ms, 0);
    SortedUnder(ms, 1);
    SortedUnder(ms, 2);
    SortedUnder(ms, 3);
    SortedItems(ColumnsJson(q.columns));
    SortedItems(RowsJson(q.rows));
    hide Canonicalize, DescribesColumn, DescribesRow, ColumnJson, CellsJson;
    forall i | 0 <= i < |q.columns| ensures DescribesColumn(Canonicalize(ColumnsJson(q.columns)[i]), q.columns[i]) {
      ColumnDescribed(q.columns[i]);
    }
    forall i | 0 <= i < |q.rows| ensures DescribesRow(Canonicalize(RowsJson(q.rows)[i]), q.rows[i]) {
      RowDescribed(q.rows[i]);
    }
  }

  /** A document describes one result only. */
  lemma DescribesOneResult(j: Json, p: QueryResult, q: QueryResult)
    requires DescribesResult(j, p) && DescribesResult(j, q)
    ensures p == q
  {
    assert forall i | 0 <= i < |p.columns| :: p.columns[i] == q.columns[i];
    forall i | 0 <= i < |p.rows| ensures p.rows[i] == q.rows[i] {
      assert forall k | 0 <= k < |p.rows[i]| :: p.rows[i][k] == q.rows[i][k];
    }
  }
}
