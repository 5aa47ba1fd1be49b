/** Which libpq result streams the collector accepts: row by row against the whole. */
module Acceptance {
  import opened Wrappers
  import JsonText
  import opened QueryResult
  import opened Collector

  // ----- row by row -----

  predicate AcceptsTuples(limits: Limits, c: Retained, t: Tuples) {
    Decodable(t) && HeaderAgrees(c, t) && Fits(Public(WithTuples(c, t)), limits)
  }

  predicate AcceptsCommand(limits: Limits, c: Retained, m: Command) {
    && DecodableCommand(m)
    && Fits(Public(WithTag(c, m)), limits)
    && Fits(Public(WithCommand(c, m)), limits)
  }

  predicate Accepts(limits: Limits, c: Retained, r: PgResult) {
    match r
    case Chunk(t) => AcceptsTuples(limits, c, t)
    case TuplesOk(t, m) => AcceptsTuples(limits, c, t) && AcceptsCommand(limits, WithTuples(c, t), m)
    case CommandOk(m) => AcceptsCommand(limits, c, m)
    case _ => false
  }

  /** Every result is accepted on top of what the ones before it left. */
  predicate AllAccepted(limits: Limits, rs: seq<PgResult>) {
    rs == [] ||
    (var n := |rs| - 1; AllAccepted(limits, rs[..n]) && Accepts(limits, Gathered(rs[..n]), rs[n]))
  }

  lemma {:induction false} AcceptedPrefix(limits: Limits, rs: seq<PgResult>, n: nat)
    requires AllAccepted(limits, rs) && n <= |rs|
    ensures AllAccepted(limits, rs[..n])
  {
    if n == |rs| {
      assert rs[..n] == rs;
    } else {
      AcceptedPrefix(limits, rs[..|rs| - 1], n);
      assert rs[..|rs| - 1][..n] == rs[..n];
    }
  }

  lemma AcceptedStep(limits: Limits, rs: seq<PgResult>, k: nat)
    requires k < |rs|
    ensures Gathered(rs[..k + 1]) == WithResult(Gathered(rs[..k]), rs[k])
    ensures AllAccepted(limits, rs[..k + 1]) <==>
            AllAccepted(limits, rs[..k]) && Accepts(limits, Gathered(rs[..k]), rs[k])
  {
    assert rs[..k + 1][..k] == rs[..k];
  }

  function AllRows(rs: seq<PgResult>): seq<Row> {
    if rs == [] then []
    else (match rs[0] case Chunk(t) => DecodedRows(t.cells) case TuplesOk(t, _) => DecodedRows(t.cells) case _ => [])
         + AllRows(rs[1..])
  }

  lemma {:induction false} AllRowsAppend(rs: seq<PgResult>, r: PgResult)
    ensures AllRows(rs + [r]) == AllRows(rs) + AllRows([r])
  {
    if rs == [] {
      assert [] + [r] == [r];
    } else {
      AllRowsAppend(rs[1..], r);
      assert (rs + [r])[1..] == rs[1..] + [r];
    }
  }

  /** The rows of an answer are the rows of the results, concatenated in the order they arrived. */
  lemma {:induction false} RowsInOrder(rs: seq<PgResult>)
    ensures Gathered(rs).rows == AllRows(rs)
  {
    if rs != [] {
      var n := |rs| - 1;
      RowsInOrder(rs[..n]);
      AllRowsAppend(rs[..n], rs[n]);
      assert rs == rs[..n] + [rs[n]] && [rs[n]][1..] == [];
    }
  }

  /** Soundness: whatever a stream made the collector retain passes the whole-result check, so the second
      validation in the worker cannot fail. */
  lemma AcceptedResultFits(limits: Limits, rs: seq<PgResult>)
    requires limits.resultJsonBytes >= 62
    requires AllAccepted(limits, rs)
    ensures Fits(Public(Gathered(rs)), limits)
  {
    if rs == [] {
      EmptyFits(limits);
    }
  }

  // ----- the whole -----

  predicate UniformTuples(t: Tuples, fields: seq<Field>) {
    t.fields == fields && Decodable(t) && Rectangular(t)
  }

  /** A well-formed answer to one statement: row messages under one heading and a closing message with the
      tag, or a closing message alone. */
  predicate SingleCommand(rs: seq<PgResult>, fields: seq<Field>) {
    && rs != []
    && (forall i | 0 <= i < |fields| :: fields[i].name.Some?)
    && (forall i | 0 <= i < |rs| - 1 :: rs[i].Chunk? && UniformTuples(rs[i].tuples, fields))
    && var last := rs[|rs| - 1];
       || (last.TuplesOk? && UniformTuples(last.tuples, fields) && DecodableCommand(last.command))
       || (last.CommandOk? && |rs| == 1 && DecodableCommand(last.command))
  }

  /** What has been gathered before the closing message. */
  function Chunks(rs: seq<PgResult>): Retained
    requires rs != []
  {
    var last := rs[|rs| - 1];
    var before := Gathered(rs[..|rs| - 1]);
    if last.TuplesOk? then WithTuples(before, last.tuples) else before
  }

  lemma {:induction false} ChunkState(rs: seq<PgResult>, fields: seq<Field>, n: nat)
    requires n <= |rs|
    requires forall i | 0 <= i < n :: rs[i].Chunk? && UniformTuples(rs[i].tuples, fields)
    ensures var c := Gathered(rs[..n]);
            c.commandTag.None? && c.affectedRows.None? && c.columns == if n == 0 then [] else DecodedColumns(fields)
  {
    if n > 0 {
      ChunkState(rs, fields, n - 1);
      assert rs[..n][..n - 1] == rs[..n - 1];
      if fields == [] {
        assert DecodedColumns(fields) == [];
      }
    }
  }

  /** Dropping the last message of rows keeps a fitting result fitting. */
  lemma FewerMessagesFit(limits: Limits, c: Retained, t: Tuples, fields: seq<Field>)
    requires limits.resultJsonBytes >= 62
    requires UniformTuples(t, fields)
    requires c == EMPTY || c.columns == DecodedColumns(fields)
    requires Fits(Public(WithTuples(c, t)), limits)
    ensures Fits(Public(c), limits)
  {
    if c == EMPTY {
      EmptyFits(limits);
    } else {
      if fields == [] {
        assert DecodedColumns(fields) == [];
      }
      FewerRowsFit(Public(c), DecodedRows(t.cells), limits);
    }
  }

  lemma {:induction false} ChunksAccepted(limits: Limits, rs: seq<PgResult>, fields: seq<Field>, n: nat)
    requires limits.resultJsonBytes >= 62
    requires n <= |rs|
    requires forall i | 0 <= i < |fields| :: fields[i].name.Some?
    requires forall i | 0 <= i < n :: rs[i].Chunk? && UniformTuples(rs[i].tuples, fields)
    requires Fits(Public(Gathered(rs[..n])), limits)
    ensures AllAccepted(limits, rs[..n])
  {
    if n > 0 {
      var c, t := Gathered(rs[..n - 1]), rs[n - 1].tuples;
      assert rs[..n][..n - 1] == rs[..n - 1];
      ChunkState(rs, fields, n - 1);
      if n == 1 {
        assert rs[..0] == [];
      }
      FewerMessagesFit(limits, c, t, fields);
      ChunksAccepted(limits, rs, fields, n - 1);
      assert |DecodedColumns(fields)| == |fields|;
    }
  }

  /** Removing the count and then the tag from the finished result gives what the rows alone left. */
  lemma ClosingParts(rs: seq<PgResult>, fields: seq<Field>)
    requires SingleCommand(rs, fields)
    ensures var c, whole, m := Chunks(rs), Gathered(rs), rs[|rs| - 1].command;
            && c.commandTag.None? && c.affectedRows.None?
            && whole == WithCommand(c, m)
            && Public(WithTag(c, m)) == Public(whole).(affectedRows := None)
            && Public(c) == Public(whole).(affectedRows := None, commandTag := "")
  {
    ChunkState(rs, fields, |rs| - 1);
  }

  /** Completeness and soundness for a well-formed answer: checking after every row accepts it exactly when
      the finished result passes the whole-result check, with its row count and without. */
  lemma IncrementalIsWhole(limits: Limits, rs: seq<PgResult>, fields: seq<Field>)
    requires limits.resultJsonBytes >= 62
    requires SingleCommand(rs, fields)
    ensures AllAccepted(limits, rs) <==>
            && Fits(Public(Gathered(rs)), limits)
            && Fits(Public(Gathered(rs)).(affectedRows := None), limits)
  {
    var n, c, whole := |rs| - 1, Chunks(rs), Public(Gathered(rs));
    var last := rs[n];
    ClosingParts(rs, fields);
    ChunkState(rs, fields, n);
    if Fits(whole, limits) && Fits(whole.(affectedRows := None), limits) {
      WithoutTagFits(whole.(affectedRows := None), limits);
      if last.TuplesOk? {
        if n == 0 {
          assert rs[..0] == [];
        }
        FewerMessagesFit(limits, Gathered(rs[..n]), last.tuples, fields);
      }
      ChunksAccepted(limits, rs, fields, n);
      assert |DecodedColumns(fields)| == |fields|;
    }
  }

  /** The incremental check is conservative by one byte, and only for a one-digit count. */
  lemma ConservativeByOneByte(limits: Limits, rs: seq<PgResult>, fields: seq<Field>)
    requires limits.resultJsonBytes >= 62
    requires SingleCommand(rs, fields)
    ensures var whole := Public(Gathered(rs));
            var spare := if whole.affectedRows.Some? && |whole.affectedRows.value| == 1 then 1 else 0;
            AllAccepted(limits, rs) <==> ShapeFits(whole, limits) && Length(whole) + spare <= limits.resultJsonBytes
  {
    IncrementalIsWhole(limits, rs, fields);
    ClosingParts(rs, fields);
    var whole := Public(Gathered(rs));
    LengthIsCanonical(whole);
    LengthIsCanonical(whole.(affectedRows := None));
    if whole.affectedRows.Some? {
      CountLength(whole);
    }
  }

  /** An answer of 62 bytes whose row count has one digit: it passes the whole-result check with a budget of 62, and
      the collector refuses it. */
  lemma RefusedThoughItFits()
    ensures var rs := [CommandOk(Command(Some("X"), Some("1")))];
            var limits := Limits(0, 0, 1, 62);
            Fits(Public(Gathered(rs)), limits) && !AllAccepted(limits, rs)
  {
    var m := Command(Some("X"), Some("1"));
    var rs, limits := [CommandOk(m)], Limits(0, 0, 1, 62);
    assert rs[..0] == [];
    assert "1" != "" && m.affected != Some("");
    assert Gathered(rs) == WithCommand(Gathered(rs[..0]), m);
    var whole := Public(Gathered(rs));
    assert whole == QueryResult([], [], "X", Some("1"));
    assert SingleCommand(rs, []);
    LengthIsCanonical(whole);
    FrameBytes();
    JsonText.PlainText("X");
    JsonText.PlainText("1");
    assert ColumnsJson([]) == [] && RowsJson([]) == [];
    ConservativeByOneByte(limits, rs, []);
  }
}
