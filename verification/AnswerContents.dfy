/** What an accepted answer holds, cell by cell, in terms of what libpq delivered. */
module AnswerContents {
  import opened Wrappers
  import opened QueryResult
  import opened Collector
  import opened Acceptance

  // ----- rows -----

  /** All rows delivered, in the order they arrived. */
  function Delivered(rs: seq<PgResult>): seq<seq<Cell>> {
    if rs == [] then []
    else (if rs[0].Chunk? || rs[0].TuplesOk? then rs[0].tuples.cells else []) + Delivered(rs[1..])
  }

  /** A cell is shown as null if it is null, and as its text otherwise. */
  predicate Shows(value: Option<string>, cell: Cell) {
    match cell
    case NullCell => value == None
    case TextCell(text) => value == Some(text)
    case BadCell(_) => false
  }

  predicate ShowsRow(row: Row, cells: seq<Cell>) {
    |row| == |cells| && forall i | 0 <= i < |row| :: Shows(row[i], cells[i])
  }

  predicate ShowsRows(rows: seq<Row>, cells: seq<seq<Cell>>) {
    |rows| == |cells| && forall i | 0 <= i < |rows| :: ShowsRow(rows[i], cells[i])
  }

  lemma DecodedShow(t: Tuples)
    requires Decodable(t)
    ensures ShowsRows(DecodedRows(t.cells), t.cells)
  {
    forall i | 0 <= i < |t.cells| ensures ShowsRow(DecodedRows(t.cells)[i], t.cells[i]) {
      assert DecodableRow(t.cells[i]);
    }
  }

  predicate Readable(r: PgResult) {
    r.Chunk? || r.TuplesOk? ==> Decodable(r.tuples)
  }

  lemma {:induction false} RowsShow(rs: seq<PgResult>)
    requires forall i | 0 <= i < |rs| :: Readable(rs[i])
    ensures ShowsRows(AllRows(rs), Delivered(rs))
  {
    if rs != [] {
      var r := rs[0];
      assert Readable(r);
      RowsShow(rs[1..]);
      if r.Chunk? || r.TuplesOk? {
        DecodedShow(r.tuples);
      }
    }
  }

  lemma {:induction false} AcceptedIsReadable(limits: Limits, rs: seq<PgResult>, k: nat)
    requires AllAccepted(limits, rs) && k < |rs|
    ensures Readable(rs[k])
  {
    AcceptedPrefix(limits, rs, k + 1);
    AcceptedStep(limits, rs, k);
  }

  /** The rows of an accepted answer are the rows delivered, in order and complete, each cell shown as it is. */
  lemma AcceptedRowsShow(limits: Limits, rs: seq<PgResult>)
    requires AllAccepted(limits, rs)
    ensures ShowsRows(Gathered(rs).rows, Delivered(rs))
  {
    forall k | 0 <= k < |rs| ensures Readable(rs[k]) {
      AcceptedIsReadable(limits, rs, k);
    }
    RowsInOrder(rs);
    RowsShow(rs);
  }

  // ----- headings, tag and count -----

  /** The answer to one statement has the headings of its rows, if it has rows, the tag of its closing message, and the
      count in that message if there is one. */
  lemma SingleAnswer(rs: seq<PgResult>, fields: seq<Field>)
    requires SingleCommand(rs, fields)
    ensures var c, last := Gathered(rs), rs[|rs| - 1];
            && |c.columns| == (if last.CommandOk? then 0 else |fields|)
            && (forall i | 0 <= i < |c.columns| ::
                  Some(c.columns[i].name) == fields[i].name && c.columns[i].typeOid == fields[i].typeOid)
            && c.commandTag == last.command.tag
            && c.affectedRows == (if last.command.affected == Some("") then None else last.command.affected)
  {
    ClosingParts(rs, fields);
    ChunkState(rs, fields, |rs| - 1);
    var last := rs[|rs| - 1];
    if last.TuplesOk? && fields == [] {
      assert DecodedColumns(fields) == [];
    }
    assert last.CommandOk? ==> Gathered(rs[..|rs| - 1]).columns == [];
  }

  /** The message closes a statement. */
  predicate Closes(r: PgResult) {
    r.TuplesOk? || r.CommandOk?
  }

  predicate Counts(r: PgResult) {
    Closes(r) && r.command.affected != Some("")
  }

  lemma TagStep(c: Retained, r: PgResult)
    ensures WithResult(c, r).commandTag == if Closes(r) then r.command.tag else c.commandTag
    ensures WithResult(c, r).affectedRows == if Counts(r) then r.command.affected else c.affectedRows
    ensures Counts(r) ==> Closes(r)
  {}

  /** Of several closing messages the last one gives the tag, and the last one with a count the count. */
  lemma {:induction false} LastTagAndCount(rs: seq<PgResult>, k: nat)
    ensures (forall i | 0 <= i < |rs| :: !Closes(rs[i])) ==> Gathered(rs).commandTag == None
    ensures (forall i | 0 <= i < |rs| :: !Counts(rs[i])) ==> Gathered(rs).affectedRows == None
    ensures k < |rs| && Closes(rs[k]) && (forall i | k < i < |rs| :: !Closes(rs[i])) ==>
              Gathered(rs).commandTag == rs[k].command.tag
    ensures k < |rs| && Counts(rs[k]) && (forall i | k < i < |rs| :: !Counts(rs[i])) ==>
              Gathered(rs).affectedRows == rs[k].command.affected
  {
    if rs != [] {
      var n := |rs| - 1;
      LastTagAndCount(rs[..n], k);
      TagStep(Gathered(rs[..n]), rs[n]);
      hide WithResult, Closes, Counts;
      assert forall i | 0 <= i < n :: rs[..n][i] == rs[i];
    }
  }
}
