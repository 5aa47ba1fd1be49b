/** `ResultCollector` of libpq.rs: rows are retained one by one, each only while the whole public result
    built so far still satisfies `QueryResult::validate`. */
module Collector {
  import opened Wrappers
  import opened Json
  import opened JsonText
  import opened QueryResult

  datatype ErrorClass =
    | InvalidInput | Database | ConnectionLost | ResultLimit | CopyUnsupported
    | Cancelled | DeadlineExceeded | ServerStopping | Internal

  // ----- what libpq hands out; `None` and `BadCell` are bytes the adapter cannot accept -----

  datatype Field = Field(name: Option<string>, typeOid: nat)
  datatype Cell = NullCell | TextCell(text: string) | BadCell(length: int)
  datatype Tuples = Tuples(fields: seq<Field>, cells: seq<seq<Cell>>)
  datatype Command = Command(tag: Option<string>, affected: Option<string>)

  datatype PgResult =
    | Chunk(tuples: Tuples)                         // PGRES_SINGLE_TUPLE, PGRES_TUPLES_CHUNK
    | TuplesOk(tuples: Tuples, command: Command)    // PGRES_TUPLES_OK
    | CommandOk(command: Command)                   // PGRES_COMMAND_OK
    | Copy                                          // PGRES_COPY_IN, _OUT, _BOTH
    | Failure                                       // PGRES_FATAL_ERROR, _BAD_RESPONSE, _NONFATAL_ERROR
    | EmptyQuery                                    // PGRES_EMPTY_QUERY
    | Unexpected                                    // every other status

  /** libpq gives every row of a result as many cells as the result has fields. */
  predicate Rectangular(t: Tuples) {
    forall i | 0 <= i < |t.cells| :: |t.cells[i]| == |t.fields|
  }

  predicate WellShaped(r: PgResult) {
    (r.Chunk? || r.TuplesOk?) ==> Rectangular(r.tuples)
  }

  predicate Decodable(t: Tuples) {
    forall i | 0 <= i < |t.cells| :: DecodableRow(t.cells[i])
  }

  predicate DecodableRow(row: seq<Cell>) {
    forall i | 0 <= i < |row| :: !row[i].BadCell?
  }

  function DecodedCell(c: Cell): Option<string> {
    if c.TextCell? then Some(c.text) else None
  }

  function DecodedRow(row: seq<Cell>): Row {
    seq(|row|, i requires 0 <= i < |row| => DecodedCell(row[i]))
  }

  function DecodedRows(cells: seq<seq<Cell>>): seq<Row> {
    seq(|cells|, i requires 0 <= i < |cells| => DecodedRow(cells[i]))
  }

  function DecodedColumn(f: Field): Column {
    Column(if f.name.Some? then f.name.value else "", f.typeOid)
  }

  function DecodedColumns(fields: seq<Field>): seq<Column> {
    seq(|fields|, i requires 0 <= i < |fields| => DecodedColumn(fields[i]))
  }

  // ----- what has been retained -----

  datatype Retained = Retained(
    columns: seq<Column>,
    rows: seq<Row>,
    commandTag: Option<string>,
    affectedRows: Option<string>)

  const EMPTY := Retained([], [], None, None)

  function Public(c: Retained): QueryResult {
    QueryResult(c.columns, c.rows, if c.commandTag.Some? then c.commandTag.value else "", c.affectedRows)
  }

  /** The first headings have to be readable; later ones only have to be as many. */
  predicate HeaderAgrees(c: Retained, t: Tuples) {
    if c.columns == [] then forall i | 0 <= i < |t.fields| :: t.fields[i].name.Some?
    else |c.columns| == |t.fields|
  }

  /** More headings than there may be, or a cell that cannot be read and is too long. */
  predicate Oversized(t: Tuples, limits: Limits) {
    |t.fields| > limits.columns || exists i | 0 <= i < |t.cells| :: OversizedRow(t.cells[i], limits)
  }

  predicate OversizedRow(row: seq<Cell>, limits: Limits) {
    exists k | 0 <= k < |row| :: row[k].BadCell? && row[k].length > limits.cellBytes
  }

  function WithTuples(c: Retained, t: Tuples): Retained {
    c.(columns := if c.columns == [] then DecodedColumns(t.fields) else c.columns,
       rows := c.rows + DecodedRows(t.cells))
  }

  predicate DecodableCommand(m: Command) {
    m.tag.Some? && m.affected.Some? && (m.affected.value == "" || IsDecimal(m.affected.value))
  }

  function WithTag(c: Retained, m: Command): Retained {
    c.(commandTag := m.tag)
  }

  function WithCommand(c: Retained, m: Command): Retained {
    WithTag(c, m).(affectedRows := if m.affected == Some("") then c.affectedRows else m.affected)
  }

  function WithResult(c: Retained, r: PgResult): Retained {
    match r
    case Chunk(t) => WithTuples(c, t)
    case TuplesOk(t, m) => WithCommand(WithTuples(c, t), m)
    case CommandOk(m) => WithCommand(c, m)
    case _ => c
  }

  /** Everything a list of results carries. */
  function Gathered(rs: seq<PgResult>): Retained {
    if rs == [] then EMPTY else WithResult(Gathered(rs[..|rs| - 1]), rs[|rs| - 1])
  }

  // ----- removing parts of a result that fits leaves one that fits -----

  lemma ListGrows(a: seq<Json>, b: seq<Json>)
    ensures ListLength(a) <= ListLength(a + b)
  {
    ItemTotalConcat(a, b);
  }

  lemma FewerRowsFit(q: QueryResult, more: seq<Row>, limits: Limits)
    requires Fits(q.(rows := q.rows + more), limits)
    ensures Fits(q, limits)
  {
    var full := q.(rows := q.rows + more);
    assert RowsJson(full.rows) == RowsJson(q.rows) + RowsJson(more);
    ListGrows(RowsJson(q.rows), RowsJson(more));
    LengthIsCanonical(q);
    LengthIsCanonical(full);
    forall i | 0 <= i < |q.rows| ensures RowFits(q.rows[i], |q.columns|, limits) {
      assert full.rows[i] == q.rows[i];
    }
  }

  lemma FewerColumnsFit(q: QueryResult, more: seq<Column>, limits: Limits)
    requires q.rows == []
    requires Fits(q.(columns := q.columns + more), limits)
    ensures Fits(q, limits)
  {
    var full := q.(columns := q.columns + more);
    assert ColumnsJson(full.columns) == ColumnsJson(q.columns) + ColumnsJson(more);
    ListGrows(ColumnsJson(q.columns), ColumnsJson(more));
    LengthIsCanonical(q);
    LengthIsCanonical(full);
    forall i | 0 <= i < |q.columns| ensures |q.columns[i].name| <= limits.cellBytes {
      assert full.columns[i] == q.columns[i];
    }
  }

  lemma WithoutTagFits(q: QueryResult, limits: Limits)
    requires Fits(q, limits)
    ensures Fits(q.(commandTag := ""), limits)
  {
    var bare := q.(commandTag := "");
    LengthIsCanonical(q);
    LengthIsCanonical(bare);
    PlainText("");
    assert bare.columns == q.columns && bare.rows == q.rows;
  }

  /** The empty result is 62 bytes; with room for it the collector starts out valid. */
  lemma EmptyFits(limits: Limits)
    ensures Fits(Public(EMPTY), limits) <==> limits.resultJsonBytes >= 62
  {
    LengthIsCanonical(Public(EMPTY));
    FrameBytes();
    PlainText("");
    assert ColumnsJson([]) == [] && RowsJson([]) == [];
  }

  /** `null` is one byte longer than a one-digit count, two bytes shorter than the quotes around the rest. */
  lemma CountLength(q: QueryResult)
    requires q.affectedRows.Some? && IsDecimal(q.affectedRows.value)
    ensures Length(q.(affectedRows := None)) == Length(q) + 2 - |q.affectedRows.value|
  {
    var digits := q.affectedRows.value;
    forall i | 0 <= i < |digits| ensures Plain(digits[i]) {
      assert digits[i] in digits;
    }
    PlainText(digits);
  }

  lemma RowWidth(q: QueryResult, limits: Limits)
    requires Fits(q, limits) && q.rows != []
    ensures |q.rows[0]| == |q.columns|
  {
    assert RowFits(q.rows[0], |q.columns|, limits);
  }

  /** Without headings there are no rows to which a message with headings could be added. */
  lemma NoRowsYet(c: Retained, t: Tuples, limits: Limits)
    requires c.columns == [] && |t.fields| > 0
    requires Fits(Public(c), limits) && Fits(Public(WithTuples(c, t)), limits)
    ensures c.rows == []
  {
    hide Fits;
    if c.rows != [] {
      RowWidth(Public(c), limits);
      RowWidth(Public(WithTuples(c, t)), limits);
      assert false;
    }
  }

  /** If all of a result can be retained, so can its first `n` column headings. */
  lemma HeadingsFit(c: Retained, t: Tuples, n: nat, limits: Limits)
    requires c.columns == [] && 0 < n <= |t.fields|
    requires Fits(Public(c), limits) && Fits(Public(WithTuples(c, t)), limits)
    ensures Fits(Public(c.(columns := DecodedColumns(t.fields)[..n])), limits)
  {
    var all := DecodedColumns(t.fields);
    NoRowsYet(c, t, limits);
    assert [] + DecodedRows(t.cells) == DecodedRows(t.cells);
    FewerRowsFit(Public(c.(columns := all)), DecodedRows(t.cells), limits);
    assert all == all[..n] + all[n..];
    FewerColumnsFit(Public(c.(columns := all[..n])), all[n..], limits);
  }

  /** If all of a result can be retained, so can its headings with its first `n` rows. */
  lemma RowsFit(c: Retained, t: Tuples, n: nat, limits: Limits)
    requires n <= |t.cells|
    requires Fits(Public(WithTuples(c, t)), limits)
    ensures Fits(Public(WithTuples(c, t).(rows := c.rows + DecodedRows(t.cells)[..n])), limits)
  {
    var all, after := DecodedRows(t.cells), WithTuples(c, t);
    assert after.rows == (c.rows + all[..n]) + all[n..];
    FewerRowsFit(Public(after.(rows := c.rows + all[..n])), all[n..], limits);
  }

  class ResultCollector {
    const limits: Limits
    var columns: seq<Column>
    var rows: seq<Row>
    var commandTag: Option<string>
    var affectedRows: Option<string>

    function Contents(): Retained
      reads this
    {
      Retained(columns, rows, commandTag, affectedRows)
    }

    /** The invariant: what is retained is always a valid public result. */
    ghost predicate Valid()
      reads this
    {
      Fits(Public(Contents()), limits)
    }

    constructor (limits: Limits)
      ensures Contents() == EMPTY && this.limits == limits
    {
      this.limits := limits;
      columns, rows := [], [];
      commandTag, affectedRows := None, None;
    }

    method EnsureCandidateFits() returns (fits: bool)
      ensures fits <==> Valid()
    {
      fits := Validate(Public(Contents()), limits);
    }

    /** Take over the column headings of the first result that has any. */
    method ConsumeHeadings(fields: seq<Field>, ghost t: Tuples) returns (error: Option<ErrorClass>)
      requires Valid() && columns == [] && fields == t.fields
      modifies this`columns
      ensures Valid()
      ensures error.None? ==> HeaderAgrees(old(Contents()), t) && columns == DecodedColumns(fields)
      ensures error.Some? ==> error.value == ResultLimit || error.value == Database
      ensures error == Some(Database) ==> !HeaderAgrees(old(Contents()), t)
      ensures error == Some(ResultLimit) ==> !Fits(Public(WithTuples(old(Contents()), t)), limits)
    {
      ghost var before := Contents();
      for i := 0 to |fields|
        invariant columns == DecodedColumns(fields)[..i]
        invariant forall k | 0 <= k < i :: fields[k].name.Some?
        invariant Valid()
      {
        if fields[i].name.None? {
          return Some(Database);
        }
        columns := columns + [Column(fields[i].name.value, fields[i].typeOid)];
        assert columns == DecodedColumns(fields)[..i + 1];
        var fits := EnsureCandidateFits();
        if !fits {
          columns := columns[..i];
          assert columns == DecodedColumns(fields)[..i];
          if Fits(Public(WithTuples(before, t)), limits) {
            HeadingsFit(before, t, i + 1, limits);
          }
          return Some(ResultLimit);
        }
      }
      return None;
    }

    /** Copy one row out of a result. */
    method DecodeRow(cells: seq<Cell>) returns (row: Row, error: Option<ErrorClass>)
      ensures error.None? ==> DecodableRow(cells) && row == DecodedRow(cells)
      ensures error.Some? ==> error.value == ResultLimit || error.value == Database
      ensures error == Some(Database) ==> !DecodableRow(cells)
      ensures error == Some(ResultLimit) ==> OversizedRow(cells, limits) || !RowFits(DecodedRow(cells), |cells|, limits)
    {
      row := [];
      for f := 0 to |cells|
        invariant row == DecodedRow(cells)[..f]
        invariant forall k | 0 <= k < f :: !cells[k].BadCell?
      {
        match cells[f] {
          case NullCell =>
            row := row + [None];
          case TextCell(text) =>
            if |text| > limits.cellBytes {
              assert !CellFits(DecodedRow(cells)[f], limits);
              return row, Some(ResultLimit);
            }
            row := row + [Some(text)];
          case BadCell(length) =>
            return row, Some(if length > limits.cellBytes then ResultLimit else Database);
        }
      }
      return row, None;
    }

    /** A result's rows are retained entirely, and no error is raised, exactly when the decoded result can
        be added to what is there without breaking a limit. */
    method ConsumeRows(t: Tuples) returns (error: Option<ErrorClass>)
      requires Valid() && Rectangular(t)
      modifies this`columns, this`rows
      ensures Valid()
      ensures error.None? <==> Decodable(t) && HeaderAgrees(old(Contents()), t)
                               && Fits(Public(WithTuples(old(Contents()), t)), limits)
      ensures error.None? ==> Contents() == WithTuples(old(Contents()), t)
      ensures error.Some? ==> error.value == ResultLimit || error.value == Database
      ensures error == Some(Database) ==> !Decodable(t) || !HeaderAgrees(old(Contents()), t)
      ensures error == Some(ResultLimit) ==>
                Oversized(t, limits) || !Fits(Public(WithTuples(old(Contents()), t)), limits)
      ensures |t.fields| > limits.columns ==> error == Some(ResultLimit)
      ensures |t.fields| <= limits.columns && old(columns) != [] && |old(columns)| != |t.fields| ==>
                error == Some(Database)
      ensures error.None? && old(columns) == [] ==>
                forall i | 0 <= i < |t.fields| :: t.fields[i].name == Some(columns[i].name)
      ensures old(rows) <= rows
    {
      hide CanonicalLength, CellFits, IsDecimal;
      ghost var before := Contents();
      ghost var after := WithTuples(before, t);
      if |t.fields| > limits.columns {
        return Some(ResultLimit);
      }
      if columns == [] && |t.fields| > 0 {
        error := ConsumeHeadings(t.fields, t);
        if error.Some? {
          return;
        }
      } else if |columns| != |t.fields| {
        return Some(Database);
      }
      assert columns == after.columns;
      for r := 0 to |t.cells|
        invariant columns == after.columns && rows == before.rows + DecodedRows(t.cells)[..r]
        invariant forall k | 0 <= k < r :: DecodableRow(t.cells[k])
        invariant Valid()
      {
        assert after.rows[|rows|] == DecodedRow(t.cells[r]);
        if |rows| >= limits.resultRows {
          return Some(ResultLimit);
        }
        var row;
        row, error := DecodeRow(t.cells[r]);
        if error.Some? {
          if error == Some(ResultLimit) && !OversizedRow(t.cells[r], limits) {
            assert !RowFits(after.rows[|rows|], |after.columns|, limits);
          }
          return;
        }
        rows := rows + [row];
        assert rows == before.rows + DecodedRows(t.cells)[..r + 1];
        var fits := EnsureCandidateFits();
        if !fits {
          rows := rows[..|rows| - 1];
          assert rows == before.rows + DecodedRows(t.cells)[..r];
          if Fits(Public(after), limits) {
            RowsFit(before, t, r + 1, limits);
          }
          return Some(ResultLimit);
        }
      }
      assert DecodedRows(t.cells)[..|t.cells|] == DecodedRows(t.cells);
      return None;
    }

    /** The tag and then the count are set, each only if the result still fits with it. */
    method ConsumeCommand(m: Command) returns (error: Option<ErrorClass>)
      requires Valid()
      modifies this`commandTag, this`affectedRows
      ensures Valid()
      ensures error.None? <==> DecodableCommand(m)
                               && Fits(Public(WithTag(old(Contents()), m)), limits)
                               && Fits(Public(WithCommand(old(Contents()), m)), limits)
      ensures error.None? ==> Contents() == WithCommand(old(Contents()), m)
      ensures error.Some? ==> error.value == ResultLimit || error.value == Database
      ensures error == Some(Database) ==> !DecodableCommand(m)
      ensures error == Some(ResultLimit) ==> !Fits(Public(WithTag(old(Contents()), m)), limits)
                                             || !Fits(Public(WithCommand(old(Contents()), m)), limits)
    {
      if m.tag.None? {
        return Some(Database);
      }
      var previousTag := commandTag;
      commandTag := m.tag;
      var fits := EnsureCandidateFits();
      if !fits {
        commandTag := previousTag;
        return Some(ResultLimit);
      }
      if m.affected.None? {
        return Some(Database);
      }
      if m.affected.value != "" {
        if !IsDecimal(m.affected.value) {
          return Some(Database);
        }
        var previousAffected := affectedRows;
        affectedRows := m.affected;
        fits := EnsureCandidateFits();
        if !fits {
          affectedRows := previousAffected;
          return Some(ResultLimit);
        }
      }
      return None;
    }
  }
}
