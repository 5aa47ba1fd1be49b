/** Folding catalog rows into a schema response under one aggregate budget (schema.rs). */
module SchemaAssembly {
  import opened Wrappers
  import opened QueryResult
  import opened Catalog
  import opened SchemaSize

  datatype SchemaError = Limit | Malformed

  // ----- one row -----

  function Step(m: Maps, item: Item): Option<Maps> {
    var found := Lookup(m, item.schema, item.relation);
    match item
    case RelationItem(s, n, kind) => Some(if found.Some? then m else Store(m, s, n, Relation(n, kind, [], [])))
    case ColumnItem(s, n, c) =>
      if found.None? then None
      else Some(Store(m, s, n, found.value.(columns := found.value.columns + [c])))
    case ConstraintItem(s, n, c) =>
      if found.None? then None
      else Some(Store(m, s, n, found.value.(constraints := found.value.constraints + [c])))
  }

  function StepRow(m: Maps, row: CatalogRow): Option<Maps> {
    match Decode(row) case Some(item) => Step(m, item) case None => None
  }

  /** All rows, in order; nothing when one of them is malformed. */
  function Assemble(rows: seq<CatalogRow>): Option<Maps> {
    if rows == [] then Some([])
    else match Assemble(rows[..|rows| - 1])
         case Some(m) => StepRow(m, rows[|rows| - 1])
         case None => None
  }

  lemma AssembleStep(rows: seq<CatalogRow>, k: nat)
    requires k < |rows|
    ensures Assemble(rows[..k + 1]) ==
            match Assemble(rows[..k]) case Some(m) => StepRow(m, rows[k]) case None => None
  {
    assert rows[..k + 1][..k] == rows[..k];
  }

  /** The three answers in the order they are read. */
  function Stream(relations: seq<Row>, columns: seq<Row>, constraints: seq<Row>): seq<CatalogRow> {
    seq(|relations|, i requires 0 <= i < |relations| => RelationRow(relations[i]))
    + seq(|columns|, i requires 0 <= i < |columns| => ColumnRow(columns[i]))
    + seq(|constraints|, i requires 0 <= i < |constraints| => ConstraintRow(constraints[i]))
  }

  // ----- the loop -----

  /** The first malformed row is `k`, and what preceded it was within the limits. */
  ghost predicate MalformedAt(rows: seq<CatalogRow>, k: nat, limits: Limits) {
    && k < |rows| && Assemble(rows[..k]).Some? && Assemble(rows[..k + 1]).None?
    && (k == 0 || SchemaFits(Output(Assemble(rows[..k]).value), limits))
  }

  /** Validates what has been retained after one more row. */
  method RetainRow(m: Maps, row: CatalogRow, limits: Limits) returns (r: Result<Maps, SchemaError>)
    requires limits.resultRows <= USIZE_MAX
    ensures r == match StepRow(m, row)
                 case None => Err(Malformed)
                 case Some(m') => if SchemaFits(Output(m'), limits) then Ok(m') else Err(Limit)
  {
    var item := Decode(row);
    if item.None? {
      return Err(Malformed);
    }
    var next := Step(m, item.value);
    if next.None? {
      return Err(Malformed);
    }
    var fits := ValidateResult(Output(next.value), limits);
    if !fits {
      return Err(Limit);
    }
    return Ok(next.value);
  }

  /** One of the three loops: from what the rows before `start` left to what the rows before `end` leave. */
  method RetainRows(rows: seq<CatalogRow>, start: nat, end: nat, m: Maps, limits: Limits)
    returns (r: Result<Maps, SchemaError>)
    requires limits.resultRows <= USIZE_MAX && start <= end <= |rows|
    requires Assemble(rows[..start]) == Some(m) && (start == 0 || SchemaFits(Output(m), limits))
    ensures r.Ok? ==> Assemble(rows[..end]) == Some(r.value) && (end == 0 || SchemaFits(Output(r.value), limits))
    ensures r == Err(Malformed) ==> exists k: nat :: MalformedAt(rows, k, limits)
    ensures r == Err(Limit) ==> exists k: nat :: Excess(rows, k, limits)
  {
    var maps := m;
    for i := start to end
      invariant Assemble(rows[..i]) == Some(maps)
      invariant i == 0 || SchemaFits(Output(maps), limits)
    {
      AssembleStep(rows, i);
      var retained := RetainRow(maps, rows[i], limits);
      if retained.Err? {
        assert retained.error == Malformed ==> MalformedAt(rows, i, limits);
        assert retained.error == Limit ==> Excess(rows, i + 1, limits);
        return retained;
      }
      maps := retained.value;
    }
    return Ok(maps);
  }

  /** What the first `k` rows make is too large. */
  ghost predicate Excess(rows: seq<CatalogRow>, k: nat, limits: Limits) {
    k <= |rows| && Assemble(rows[..k]).Some? && !SchemaFits(Output(Assemble(rows[..k]).value), limits)
  }

  /** The complete answer: incremental validation accepts exactly the well-formed streams whose whole
      response is within the limits, and returns that response. */
  method RetrieveInner(relations: seq<Row>, columns: seq<Row>, constraints: seq<Row>, limits: Limits)
    returns (r: Result<seq<SchemaInfo>, SchemaError>)
    requires limits.resultRows <= USIZE_MAX
    ensures var rows := Stream(relations, columns, constraints);
            && (r.Ok? <==> Assemble(rows).Some? && SchemaFits(Output(Assemble(rows).value), limits))
            && (r.Ok? ==> r.value == Output(Assemble(rows).value))
            && (r == Err(Malformed) ==> exists k: nat :: MalformedAt(rows, k, limits))
            && (r == Err(Limit) ==> exists k: nat :: Excess(rows, k, limits))
  {
    var rows := Stream(relations, columns, constraints);
    var first, second := |relations|, |relations| + |columns|;
    assert rows[..0] == [] && rows[..|rows|] == rows;
    r := Err(Limit);
    var m := RetainRows(rows, 0, first, [], limits);
    if m.Ok? {
      m := RetainRows(rows, first, second, m.value, limits);
    }
    if m.Ok? {
      m := RetainRows(rows, second, |rows|, m.value, limits);
    }
    if m.Err? {
      assert m.error.Malformed? || m.error.Limit?;
      ErrorIsExact(rows, limits);
      return Err(m.error);
    }
    var output := Output(m.value);
    var fits := ValidateResult(output, limits);
    if !fits {
      assert Excess(rows, |rows|, limits);
      return Err(Limit);
    }
    return Ok(output);
  }

  lemma ErrorIsExact(rows: seq<CatalogRow>, limits: Limits)
    ensures (exists k: nat :: MalformedAt(rows, k, limits)) ==> Assemble(rows).None?
    ensures (exists k: nat :: Excess(rows, k, limits)) && Assemble(rows).Some? ==>
              !SchemaFits(Output(Assemble(rows).value), limits)
  {
    if k: nat :| MalformedAt(rows, k, limits) {
      MalformedStays(rows, k + 1);
    }
    if k: nat :| Excess(rows, k, limits) {
      ExcessRejects(rows, k, limits);
    }
  }

  // ----- growth over rows -----

  lemma {:induction false} MalformedStays(rows: seq<CatalogRow>, k: nat)
    requires k <= |rows| && Assemble(rows[..k]).None?
    ensures Assemble(rows).None?
    decreases |rows| - k
  {
    if k == |rows| {
      assert rows[..k] == rows;
    } else {
      AssembleStep(rows, k);
      MalformedStays(rows, k + 1);
    }
  }

  lemma {:induction false} AssembledIsOrdered(rows: seq<CatalogRow>)
    requires Assemble(rows).Some?
    ensures Ordered(Assemble(rows).value)
    ensures forall s, n :: Lookup(Assemble(rows).value, s, n).Some? ==> Lookup(Assemble(rows).value, s, n).value.name == n
  {
    if rows != [] {
      var before := rows[..|rows| - 1];
      AssembledIsOrdered(before);
      var m, item := Assemble(before).value, Decode(rows[|rows| - 1]).value;
      var found := Lookup(m, item.schema, item.relation);
      if item.RelationItem? && found.None? {
        StoredIsOrdered(m, item.schema, item.relation, Relation(item.relation, item.kind, [], []));
      } else if item.ColumnItem? {
        StoredIsOrdered(m, item.schema, item.relation, found.value.(columns := found.value.columns + [item.column]));
      } else if item.ConstraintItem? {
        StoredIsOrdered(m, item.schema, item.relation,
                        found.value.(constraints := found.value.constraints + [item.constraint]));
      }
    }
  }

  lemma StoredIsOrdered(m: Maps, schema: string, relation: string, r: Relation)
    requires Ordered(m) && r.name == relation
    requires forall s, n :: Lookup(m, s, n).Some? ==> Lookup(m, s, n).value.name == n
    ensures Ordered(Store(m, schema, relation, r))
    ensures forall s, n :: Lookup(Store(m, schema, relation, r), s, n).Some? ==>
              Lookup(Store(m, schema, relation, r), s, n).value.name == n
  {
    StoreKeepsOrder(m, schema, relation, r);
    forall s, n ensures Lookup(Store(m, schema, relation, r), s, n) ==
                        if s == schema && n == relation then Some(r) else Lookup(m, s, n)
    {
      LookupAfterStore(m, schema, relation, r, s, n);
    }
  }

  lemma StepGrows(m: Maps, item: Item, limits: Limits)
    requires Ordered(m) && Step(m, item).Some? && SchemaFits(Output(Step(m, item).value), limits)
    ensures SchemaFits(Output(m), limits)
  {
    var found := Lookup(m, item.schema, item.relation);
    match item {
      case RelationItem(s, n, kind) =>
        if found.None? {
          StoreGrows(m, s, n, Relation(n, kind, [], []), limits);
        }
      case ColumnItem(s, n, c) =>
        StoreGrows(m, s, n, found.value.(columns := found.value.columns + [c]), limits);
      case ConstraintItem(s, n, c) =>
        StoreGrows(m, s, n, found.value.(constraints := found.value.constraints + [c]), limits);
    }
  }

  /** A response that is too large after some rows stays too large, or malformed, after all of them. */
  lemma {:induction false} ExcessRejects(rows: seq<CatalogRow>, k: nat, limits: Limits)
    requires Excess(rows, k, limits)
    ensures Assemble(rows).Some? ==> !SchemaFits(Output(Assemble(rows).value), limits)
    decreases |rows| - k
  {
    if k == |rows| {
      assert rows[..k] == rows;
    } else {
      AssembleStep(rows, k);
      if Assemble(rows[..k + 1]).Some? {
        AssembledIsOrdered(rows[..k]);
        var m, item := Assemble(rows[..k]).value, Decode(rows[k]).value;
        if SchemaFits(Output(Step(m, item).value), limits) {
          StepGrows(m, item, limits);
        }
        ExcessRejects(rows, k + 1, limits);
      } else {
        MalformedStays(rows, k + 1);
      }
    }
  }
}
