/** The transaction around the schema assembly (schema.rs), over the adapter's loops: what a retrieved schema is made
    of, and what a retrieval leaves unread on the connection. */
module SchemaSession {
  import opened Wrappers
  import opened QueryResult
  import opened Collector
  import opened ResultLoop
  import opened Catalog
  import opened SchemaSize
  import opened SchemaAssembly

  datatype SchemaScript = SchemaScript(
    begin: QueryScript,
    relations: QueryScript,
    columns: QueryScript,
    constraints: QueryScript,
    commit: QueryScript,
    rollback: QueryScript)

  datatype Failure = Backend(adapter: AdapterError) | Assembly(schema: SchemaError)

  datatype Retrieval<+T> = Unfinished | Ended(result: Result<T, Failure>)

  /** A command, or a catalog query, whose rows are streamed. */
  datatype Statement = Statement(script: QueryScript, streaming: bool)

  function CommandOf(script: QueryScript): Statement {
    Statement(script, false)
  }

  function QueryOf(script: QueryScript): Statement {
    Statement(script, true)
  }

  function Whole(s: SchemaScript): seq<Statement> {
    [CommandOf(s.begin), QueryOf(s.relations), QueryOf(s.columns), QueryOf(s.constraints), CommandOf(s.commit)]
  }

  predicate WellShapedSchema(s: SchemaScript) {
    && WellShapedTicks(s.begin.ticks) && WellShapedTicks(s.relations.ticks) && WellShapedTicks(s.columns.ticks)
    && WellShapedTicks(s.constraints.ticks) && WellShapedTicks(s.commit.ticks) && WellShapedTicks(s.rollback.ticks)
  }

  /** The limits of the catalog queries: no budget for the bytes, and at least the ten columns they have. */
  function Wide(limits: Limits): Limits {
    limits.(columns := if limits.columns < 10 then 10 else limits.columns, resultJsonBytes := USIZE_MAX)
  }

  /** Ten columns are always allowed, and nothing else changes but the bytes. */
  lemma WideIsEnough(limits: Limits)
    ensures var w := Wide(limits);
            && w.columns >= 10 && (limits.columns >= 10 ==> w.columns == limits.columns)
            && w.resultRows == limits.resultRows && w.cellBytes == limits.cellBytes && w.resultJsonBytes == USIZE_MAX
  {}

  ghost predicate Answered(limits: Limits, script: QueryScript, c: Retained) {
    exists n: nat :: Answers(limits, script.ticks, n, Ok(c))
  }

  /** The response is made of exactly the rows of three complete answers, and within the limits. */
  ghost predicate IsSnapshot(limits: Limits, s: SchemaScript, response: seq<SchemaInfo>) {
    exists a, b, c ::
      && Answered(Wide(limits), s.relations, a) && Answered(Wide(limits), s.columns, b)
      && Answered(Wide(limits), s.constraints, c)
      && var maps := Assemble(Stream(a.rows, b.rows, c.rows));
         maps.Some? && SchemaFits(Output(maps.value), limits) && response == Output(maps.value)
  }

  ghost predicate Completed(script: QueryScript, tag: string) {
    exists c :: Answered(UNLIMITED, script, c) && Public(c).commandTag == tag
  }

  // ----- what goes wrong -----

  /** The error of a statement; a command needs no row mode. */
  ghost predicate Faults(limits: Limits, st: Statement, open: bool, undrained: bool, rounds: Option<nat>,
                         e: AdapterError)
  {
    Raises(if st.streaming then limits else UNLIMITED,
           if st.streaming then st.script else st.script.(singleRow := true), open, undrained, rounds, e)
  }

  /** A statement that fails on an open, drained connection keeps it open. */
  ghost predicate KeepsOpen(st: Statement, rounds: Option<nat>) {
    || !Dispatches(st.script)
    || (if st.streaming && !st.script.singleRow then !CancelEnds(st.script.cancel).Abandoned? && Drains(st.script.drain)
        else rounds.Some? ==> rounds.value < |st.script.ticks|
                              && !GivesUpAt(st.script.ticks, rounds.value, st.script.cancel))
  }

  /** A command is answered with another tag. */
  ghost predicate TagDiffers(script: QueryScript, tag: string) {
    exists c :: Answered(UNLIMITED, script, c) && Public(c).commandTag != tag
  }

  /** The three answers cannot be put together: a row is malformed, or what has been put together is too large. */
  ghost predicate Unassembled(limits: Limits, s: SchemaScript, e: SchemaError) {
    exists a, b, c ::
      && Answered(Wide(limits), s.relations, a) && Answered(Wide(limits), s.columns, b)
      && Answered(Wide(limits), s.constraints, c)
      && var rows := Stream(a.rows, b.rows, c.rows);
         match e
         case Malformed => exists k: nat :: MalformedAt(rows, k, limits)
         case Limit => exists k: nat :: Excess(rows, k, limits)
  }

  /** Statement `k` of the retrieval is the first that fails, and this is how. */
  ghost predicate FailsAt(limits: Limits, s: SchemaScript, open: bool, undrained: bool, k: nat, rounds: Option<nat>,
                          e: Failure)
  {
    && k < 5
    && (k > 0 ==> Completed(s.begin, "BEGIN"))
    && (k == 2 || k == 3 ==> exists c :: Answered(Wide(limits), s.relations, c))
    && (k == 3 ==> exists c :: Answered(Wide(limits), s.columns, c))
    && (k == 4 ==> exists response :: IsSnapshot(limits, s, response))
    && match e
       case Backend(a) =>
         Faults(Wide(limits), Whole(s)[k], if k == 0 then open else true, if k == 0 then undrained else false, rounds, a)
       case Assembly(problem) =>
         || (k == 0 && problem == Malformed && TagDiffers(s.begin, "BEGIN"))
         || (k == 3 && Unassembled(limits, s, problem))
         || (k == 4 && problem == Malformed && TagDiffers(s.commit, "COMMIT"))
  }

  /** What libpq was asked to take when statement `k` has failed: everything up to it, and a ROLLBACK if a
      transaction was begun and the connection is still there and drained. */
  ghost predicate RanUntil(s: SchemaScript, open: bool, undrained: bool, k: nat, rounds: Option<nat>, e: Failure,
                           ran: seq<Statement>)
  {
    && k < 5
    && ran == if k == 0 then (if open && !undrained then [CommandOf(s.begin)] else [])
              else Whole(s)[..k + 1] +
                   if e.Assembly? || (KeepsOpen(Whole(s)[k], rounds) && !Unread(Whole(s)[k]))
                   then [CommandOf(s.rollback)] else []
  }

  lemma SameFault(limits: Limits, st: Statement, open: bool, undrained: bool, rounds: Option<nat>, e: AdapterError)
    requires !st.streaming
    ensures Faults(limits, st, open, undrained, rounds, e) <==> Faults(UNLIMITED, st, open, undrained, rounds, e)
  {}

  // ----- what has been run -----

  ghost predicate Unread(st: Statement) {
    Dispatches(st.script) && (st.streaming ==> st.script.singleRow) && LeavesUnread(st.script)
  }

  /** Of the statements run while the connection was open and drained only the last can have left results unread, and
      unless there were some before, it did exactly if some are there now. */
  ghost predicate Ledger(ran: seq<Statement>, before: bool, now: bool) {
    && (forall k | 0 <= k < |ran| - 1 :: !Unread(ran[k]))
    && (now <==> before || (ran != [] && Unread(ran[|ran| - 1])))
  }

  lemma LedgerNext(ran: seq<Statement>, st: Statement, before: bool)
    requires Ledger(ran, before, false)
    ensures Ledger(ran + [st], before, Unread(st))
  {
    forall k | 0 <= k < |ran| ensures !Unread((ran + [st])[k]) {
      assert (ran + [st])[k] == ran[k];
    }
  }

  lemma RoundInScript(limits: Limits, ticks: seq<Tick>, n: nat, answer: Result<Retained, AdapterError>)
    requires Answers(limits, ticks, n, answer)
    ensures n < |ticks|
  {}

  method Run(connection: Connection, limits: Limits, st: Statement, ghost ran: seq<Statement>, ghost before: bool)
    returns (r: Outcome<Retained>, ghost now: seq<Statement>, ghost rounds: Option<nat>)
    requires connection.Valid() && limits.resultJsonBytes >= 62 && WellShapedTicks(st.script.ticks)
    requires Ledger(ran, before, connection.undrained)
    modifies connection
    ensures connection.Valid() && now == if old(connection.open && !connection.undrained) then ran + [st] else ran
    ensures r.Finished? ==> Ledger(now, before, connection.undrained)
    ensures r.Finished? && r.result.Ok? ==>
              && old(connection.open && !connection.undrained)
              && connection.open && !connection.undrained && !connection.busy
              && Answered(if st.streaming then limits else UNLIMITED, st.script, r.result.value)
    ensures r.Finished? && r.result.Err? ==>
              Faults(limits, st, old(connection.open), old(connection.undrained), rounds, r.result.error)
    ensures r.Finished? && r.result.Err? && old(connection.open && !connection.undrained) ==>
              && (connection.open <==> KeepsOpen(st, rounds))
              && (connection.undrained <==> Unread(st))
  {
    hide Answers, LeavesUnread, FlushEnds, FlushAnswer, Drains, GivesUpAt;
    now := if connection.open && !connection.undrained then ran + [st] else ran;
    var n;
    if st.streaming {
      r, n := connection.SendQuery(limits, st.script);
    } else {
      r, n := connection.Execute(st.script);
    }
    rounds := n;
    if r.Finished? && n.Some? {
      RoundInScript(if st.streaming then limits else UNLIMITED, st.script.ticks, n.value, r.result);
    }
    if old(connection.open && !connection.undrained) {
      LedgerNext(ran, st, before);
    }
    if r.Finished? && r.result.Ok? {
      assert Answered(if st.streaming then limits else UNLIMITED, st.script, r.result.value);
    }
  }

  /** `execute_checked`: the command's tag has to be its first word. */
  method ExecuteChecked(connection: Connection, tag: string, script: QueryScript, ghost ran: seq<Statement>,
                        ghost before: bool)
    returns (r: Retrieval<()>, ghost now: seq<Statement>, ghost rounds: Option<nat>)
    requires connection.Valid() && WellShapedTicks(script.ticks) && Ledger(ran, before, connection.undrained)
    modifies connection
    ensures connection.Valid()
    ensures now == if old(connection.open && !connection.undrained) then ran + [CommandOf(script)] else ran
    ensures r.Ended? ==> Ledger(now, before, connection.undrained)
    ensures r.Ended? && r.result.Ok? ==>
              && old(connection.open && !connection.undrained) && Completed(script, tag)
              && connection.open && !connection.undrained && !connection.busy
    ensures r.Ended? && r.result.Err? && r.result.error.Backend? ==>
              && Faults(UNLIMITED, CommandOf(script), old(connection.open), old(connection.undrained), rounds,
                        r.result.error.adapter)
              && (old(connection.open && !connection.undrained) ==>
                    && (connection.open <==> KeepsOpen(CommandOf(script), rounds))
                    && (connection.undrained <==> Unread(CommandOf(script))))
    ensures r.Ended? && r.result.Err? && r.result.error.Assembly? ==>
              && r.result.error == Assembly(Malformed) && TagDiffers(script, tag)
              && old(connection.open && !connection.undrained) && connection.open && !connection.undrained
  {
    hide Answered, Faults, Unread, KeepsOpen;
    var done;
    done, now, rounds := Run(connection, UNLIMITED, CommandOf(script), ran, before);
    if done.Pending? {
      return Unfinished, now, rounds;
    }
    if done.result.Err? {
      return Ended(Err(Backend(done.result.error))), now, rounds;
    }
    if Public(done.result.value).commandTag != tag {
      return Ended(Err(Assembly(Malformed))), now, rounds;
    }
    return Ended(Ok(())), now, rounds;
  }

  /** The three catalog queries and the assembly of their rows. */
  method QueryCatalog(connection: Connection, limits: Limits, s: SchemaScript, ghost before: bool)
    returns (r: Retrieval<seq<SchemaInfo>>, ghost now: seq<Statement>, ghost rounds: Option<nat>)
    requires connection.Valid() && WellShapedSchema(s) && limits.resultRows <= USIZE_MAX
    requires connection.open && !connection.undrained && Ledger([CommandOf(s.begin)], before, false)
    modifies connection
    ensures connection.Valid() && 2 <= |now| <= 4 && now == Whole(s)[..|now|]
    ensures r.Ended? ==> Ledger(now, before, connection.undrained)
    ensures r.Ended? && r.result.Ok? ==>
              && IsSnapshot(limits, s, r.result.value) && |now| == 4
              && connection.open && !connection.undrained && !connection.busy
    ensures r.Ended? && r.result.Err? ==>
              && (|now| > 2 ==> exists c :: Answered(Wide(limits), s.relations, c))
              && (|now| > 3 ==> exists c :: Answered(Wide(limits), s.columns, c))
    ensures r.Ended? && r.result.Err? && r.result.error.Backend? ==>
              && Faults(Wide(limits), Whole(s)[|now| - 1], true, false, rounds, r.result.error.adapter)
              && (connection.open <==> KeepsOpen(Whole(s)[|now| - 1], rounds))
              && (connection.undrained <==> Unread(Whole(s)[|now| - 1]))
    ensures r.Ended? && r.result.Err? && r.result.error.Assembly? ==>
              && |now| == 4 && Unassembled(limits, s, r.result.error.schema) && connection.open && !connection.undrained
  {
    hide Ledger, Answered, Assemble, Output, SchemaFits, Faults, KeepsOpen, Unread, MalformedAt, Excess;
    var wide := Wide(limits);
    var relations, columns, constraints;
    relations, now, rounds := Run(connection, wide, QueryOf(s.relations), [CommandOf(s.begin)], before);
    if relations.Pending? {
      return Unfinished, now, rounds;
    }
    if relations.result.Err? {
      return Ended(Err(Backend(relations.result.error))), now, rounds;
    }
    columns, now, rounds := Run(connection, wide, QueryOf(s.columns), now, before);
    if columns.Pending? {
      return Unfinished, now, rounds;
    }
    if columns.result.Err? {
      return Ended(Err(Backend(columns.result.error))), now, rounds;
    }
    constraints, now, rounds := Run(connection, wide, QueryOf(s.constraints), now, before);
    if constraints.Pending? {
      return Unfinished, now, rounds;
    }
    if constraints.result.Err? {
      return Ended(Err(Backend(constraints.result.error))), now, rounds;
    }
    var a, b, c := relations.result.value, columns.result.value, constraints.result.value;
    var assembled := RetrieveInner(a.rows, b.rows, c.rows, limits);
    if assembled.Err? {
      assert Unassembled(limits, s, assembled.error);
      return Ended(Err(Assembly(assembled.error))), now, rounds;
    }
    assert IsSnapshot(limits, s, assembled.value);
    return Ended(Ok(assembled.value)), now, rounds;
  }

  /** `retrieve`. A schema is returned only if its transaction was begun and committed and all three answers are
      complete, and it is then made of exactly their rows; the connection is drained. Otherwise nothing is drained
      afterwards: results are left unread exactly when the last statement that libpq was asked to take, which may be the
      ROLLBACK, left them. */
  method Retrieve(connection: Connection, limits: Limits, s: SchemaScript)
    returns (r: Retrieval<seq<SchemaInfo>>, ghost ran: seq<Statement>)
    requires connection.Valid() && WellShapedSchema(s) && limits.resultRows <= USIZE_MAX
    modifies connection
    ensures connection.Valid()
    ensures ran <= Whole(s) || exists k :: 2 <= k <= 5 && ran == Whole(s)[..k] + [CommandOf(s.rollback)]
    ensures ran == [] <==> !old(connection.open) || old(connection.undrained)
    ensures r.Ended? ==> Ledger(ran, old(connection.undrained), connection.undrained)
    ensures r.Ended? && r.result.Ok? ==>
              && Completed(s.begin, "BEGIN") && Completed(s.commit, "COMMIT") && IsSnapshot(limits, s, r.result.value)
              && ran == Whole(s) && connection.open && !connection.undrained && !connection.busy
    ensures r.Ended? && r.result.Err? ==>
              exists k: nat, rounds ::
                && FailsAt(limits, s, old(connection.open), old(connection.undrained), k, rounds, r.result.error)
                && RanUntil(s, old(connection.open), old(connection.undrained), k, rounds, r.result.error, ran)
  {
    hide Ledger, Completed, IsSnapshot, Faults, KeepsOpen, Unread, Unassembled, TagDiffers, Answered;
    ghost var rounds;
    ghost var open, before := connection.open, connection.undrained;
    LedgerStart(before);
    var begun;
    begun, ran, rounds := ExecuteChecked(connection, "BEGIN", s.begin, [], before);
    if begun.Unfinished? {
      return Unfinished, ran;
    }
    if begun.result.Err? {
      if begun.result.error.Backend? {
        SameFault(Wide(limits), CommandOf(s.begin), open, before, rounds, begun.result.error.adapter);
      }
      assert FailsAt(limits, s, open, before, 0, rounds, begun.result.error);
      assert RanUntil(s, open, before, 0, rounds, begun.result.error, ran);
      return Ended(Err(begun.result.error)), ran;
    }
    assert [] + [CommandOf(s.begin)] == [CommandOf(s.begin)];
    r, ran, rounds := QueryCatalog(connection, limits, s, before);
    if r.Unfinished? {
      return;
    }
    if r.result.Ok? {
      var committed;
      committed, ran, rounds := ExecuteChecked(connection, "COMMIT", s.commit, ran, before);
      if committed.Unfinished? {
        return Unfinished, ran;
      }
      if committed.result.Ok? {
        return;
      }
      if committed.result.error.Backend? {
        SameFault(Wide(limits), CommandOf(s.commit), true, false, rounds, committed.result.error.adapter);
      }
      r := Ended(Err(committed.result.error));
    }
    ghost var k := |ran|;
    assert FailsAt(limits, s, open, before, k - 1, rounds, r.result.error);
    var rolledBack;
    ghost var ignored;
    rolledBack, ran, ignored := Run(connection, UNLIMITED, CommandOf(s.rollback), ran, before);
    assert ran == Whole(s)[..k] || ran == Whole(s)[..k] + [CommandOf(s.rollback)];
    assert RanUntil(s, open, before, k - 1, rounds, r.result.error, ran);
    if rolledBack.Pending? {
      return Unfinished, ran;
    }
  }

  lemma LedgerStart(before: bool)
    ensures Ledger([], before, before)
  {}
}
