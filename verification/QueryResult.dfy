/** `QueryResult`, its limits, and the exact byte length of its canonical JSON (protocol.rs). */
module QueryResult {
  import opened Wrappers
  import opened SortedMap
  import opened Json
  import opened JsonText

  datatype Column = Column(name: string, typeOid: nat)

  type Row = seq<Option<string>>

  datatype QueryResult = QueryResult(
    columns: seq<Column>,
    rows: seq<Row>,
    commandTag: string,
    affectedRows: Option<string>)

  datatype Limits = Limits(resultRows: nat, columns: nat, cellBytes: nat, resultJsonBytes: nat)

  function ColumnJson(c: Column): Json {
    Obj([Entry("name", Str(c.name)), Entry("type_oid", Num(c.typeOid)), Entry("format", Str("text"))])
  }

  function CellsJson(row: Row): seq<Json> {
    seq(|row|, i requires 0 <= i < |row| => TextOrNull(row[i]))
  }

  function ColumnsJson(columns: seq<Column>): seq<Json> {
    seq(|columns|, i requires 0 <= i < |columns| => ColumnJson(columns[i]))
  }

  function RowsJson(rows: seq<Row>): seq<Json> {
    seq(|rows|, i requires 0 <= i < |rows| => Arr(CellsJson(rows[i])))
  }

  function ToJson(q: QueryResult): Json {
    Obj([Entry("columns", Arr(ColumnsJson(q.columns))),
         Entry("rows", Arr(RowsJson(q.rows))),
         Entry("command_tag", Str(q.commandTag)),
         Entry("affected_rows", TextOrNull(q.affectedRows))])
  }

  predicate IsDecimal(s: string) {
    s != "" && forall c | c in s :: '0' <= c <= '9'
  }

  predicate CellFits(cell: Option<string>, limits: Limits) {
    cell.Some? ==> |cell.value| <= limits.cellBytes
  }

  predicate RowFits(row: Row, width: nat, limits: Limits) {
    |row| == width && forall i | 0 <= i < |row| :: CellFits(row[i], limits)
  }

  /** What a public result has to satisfy: counts, cells, shape, and the aggregate JSON budget. */
  predicate Fits(q: QueryResult, limits: Limits) {
    && ShapeFits(q, limits)
    && CanonicalLength(ToJson(q)) <= limits.resultJsonBytes
  }

  predicate ShapeFits(q: QueryResult, limits: Limits) {
    && |q.columns| <= limits.columns
    && |q.rows| <= limits.resultRows
    && (q.affectedRows.Some? ==> IsDecimal(q.affectedRows.value))
    && (forall i | 0 <= i < |q.columns| :: |q.columns[i].name| <= limits.cellBytes)
    && |q.commandTag| <= limits.cellBytes
    && CellFits(q.affectedRows, limits)
    && (forall i | 0 <= i < |q.rows| :: RowFits(q.rows[i], |q.columns|, limits))
  }

  /** The check of the source, statement by statement. */
  method Validate(q: QueryResult, limits: Limits) returns (ok: bool)
    ensures ok <==> Fits(q, limits)
    ensures ok <==>
              && |q.columns| <= limits.columns && |q.rows| <= limits.resultRows
              && (forall i | 0 <= i < |q.columns| :: |q.columns[i].name| <= limits.cellBytes)
              && (forall i | 0 <= i < |q.rows| :: |q.rows[i]| == |q.columns|)
              && (forall i, k | 0 <= i < |q.rows| && 0 <= k < |q.rows[i]| ::
                    q.rows[i][k].Some? ==> |q.rows[i][k].value| <= limits.cellBytes)
              && |q.commandTag| <= limits.cellBytes
              && (q.affectedRows.Some? ==> |q.affectedRows.value| <= limits.cellBytes && q.affectedRows.value != ""
                                           && forall c | c in q.affectedRows.value :: '0' <= c <= '9')
              && |Print(Canonicalize(ToJson(q)))| <= limits.resultJsonBytes
  {
    if |q.columns| > limits.columns || |q.rows| > limits.resultRows {
      return false;
    }
    if q.affectedRows.Some? && !IsDecimal(q.affectedRows.value) {
      return false;
    }
    for i := 0 to |q.columns|
      invariant forall k | 0 <= k < i :: |q.columns[k].name| <= limits.cellBytes
    {
      if |q.columns[i].name| > limits.cellBytes {
        return false;
      }
    }
    if |q.commandTag| > limits.cellBytes {
      return false;
    }
    if q.affectedRows.Some? && |q.affectedRows.value| > limits.cellBytes {
      return false;
    }
    for i := 0 to |q.rows|
      invariant forall k | 0 <= k < i :: RowFits(q.rows[k], |q.columns|, limits)
    {
      if |q.rows[i]| != |q.columns| {
        return false;
      }
      for k := 0 to |q.rows[i]|
        invariant forall n | 0 <= n < k :: CellFits(q.rows[i][n], limits)
      {
        if q.rows[i][k].Some? && |q.rows[i][k].value| > limits.cellBytes {
          return false;
        }
      }
    }
    ok := CanonicalLength(ToJson(q)) <= limits.resultJsonBytes;
  }

  // ----- the length of a result -----

  /** Bytes of a list of items together with the commas between them. */
  function ListLength(items: seq<Json>): nat {
    ItemTotal(items) + Commas(|items|)
  }

  /** Keys, colons, brackets, braces and the commas between the four members. */
  function Frame(): nat {
    13 + |Quote("columns")| + |Quote("rows")| + |Quote("command_tag")| + |Quote("affected_rows")|
  }

  function Length(q: QueryResult): nat {
    Frame() + ListLength(ColumnsJson(q.columns)) + ListLength(RowsJson(q.rows)) + |Quote(q.commandTag)|
    + |Print(TextOrNull(q.affectedRows))|
  }

  lemma ResultIsWellFormed(q: QueryResult)
    ensures WellFormed(ToJson(q))
  {
    forall i | 0 <= i < |q.columns| ensures WellFormed(ColumnsJson(q.columns)[i]) {
      var j := ColumnJson(q.columns[i]);
      assert j.members[0].key == "name" && j.members[1].key == "type_oid" && j.members[2].key == "format";
      assert "name"[0] != "type_oid"[0] && "name"[0] != "format"[0] && "type_oid"[0] != "format"[0];
    }
    forall i | 0 <= i < |q.rows| ensures WellFormed(RowsJson(q.rows)[i]) {
      assert forall x | x in CellsJson(q.rows[i]) :: WellFormed(x);
    }
    assert WellFormed(Arr(ColumnsJson(q.columns))) && WellFormed(Arr(RowsJson(q.rows)));
    var ms := ToJson(q).members;
    assert "columns"[1] != "command_tag"[1] || "columns"[2] != "command_tag"[2];
    assert ms[0].key[2] == 'l' && ms[1].key[0] == 'r' && ms[2].key[2] == 'm' && ms[3].key[0] == 'a';
    assert ms[0].key[0] == 'c' && ms[2].key[0] == 'c';
    assert DistinctKeys(ms);
  }

  lemma PrintedLength(q: QueryResult)
    ensures |Print(ToJson(q))| == Length(q)
  {
    FourMembers(Entry("columns", Arr(ColumnsJson(q.columns))), Entry("rows", Arr(RowsJson(q.rows))),
                Entry("command_tag", Str(q.commandTag)), Entry("affected_rows", TextOrNull(q.affectedRows)));
    ArrayLength(ColumnsJson(q.columns));
    ArrayLength(RowsJson(q.rows));
  }

  /** The canonical encoding has the length one can add up field by field. */
  lemma LengthIsCanonical(q: QueryResult)
    ensures CanonicalLength(ToJson(q)) == Length(q)
  {
    ResultIsWellFormed(q);
    LengthKeptByCanonical(ToJson(q));
    PrintedLength(q);
  }

  lemma FrameBytes()
    ensures Frame() == 56
  {
    PlainText("columns");
    PlainText("rows");
    PlainText("command_tag");
    PlainText("affected_rows");
  }
}
