/** What each reply says about the connection behind it: for every operation, exactly when the worker reports success,
    which error it reports otherwise, and what it publishes. */
module HandleReplies {
  import opened Wrappers
  import P = Protocol
  import opened HandleLifecycle
  import opened HandleRuns

  // ----- which requests reach the backend -----

  /** Whether the published state lets the operation pass. */
  predicate Admissible(p: Published, op: Operation) {
    var tx := p.observation.transaction;
    && !p.closed
    && match op
       case GetSchema => tx == P.Idle
       case OpenRead => p.schemaObserved && tx == P.Idle
       case OpenWrite => p.schemaObserved && tx == P.Idle
       case Query(_) => p.schemaObserved && tx == P.InTransaction
       case Commit => tx == P.InTransaction
       case Rollback => tx != P.Active && tx != P.Unknown
       case Close => tx != P.InTransaction && tx != P.InError
  }

  /** A request reaches the backend exactly if its state admits it, nothing has stopped it, and its statement is valid;
      otherwise it is refused for the first reason that applies, and only for a query that was stopped is the outcome
      called unknown. */
  lemma ReachingExactly(p: Published, op: Operation, ctx: Context)
    ensures ReachesBackend(p, op, ctx) <==>
            Admissible(p, op) && !ctx.stopping && !ctx.cancelled && !ctx.expired && (op.Query? ==> op.valid)
    ensures Admissible(p, op) ==>
              && (ctx.stopping ==> RefusedEarly(p, op, ctx) == Some((P.ServerStopping, false)))
              && (!ctx.stopping && ctx.cancelled ==> RefusedEarly(p, op, ctx) == Some((P.Cancelled, op.Query?)))
              && (!ctx.stopping && !ctx.cancelled && ctx.expired ==>
                    RefusedEarly(p, op, ctx) == Some((P.DeadlineExceeded, op.Query?)))
              && (!ctx.stopping && !ctx.cancelled && !ctx.expired && op.Query? && !op.valid ==>
                    RefusedEarly(p, op, ctx) == Some((P.InvalidInput, false)))
    ensures !Admissible(p, op) ==>
              RefusedEarly(p, op, ctx).Some? && Precondition(p, op) == Some(RefusedEarly(p, op, ctx).value.0)
              && !RefusedEarly(p, op, ctx).value.1
  {}

  /** A request that does not reach the backend is answered with the refusal, and the backend is not asked. */
  lemma EarlyRefusal(p: Published, op: Operation, ctx: Context, n: Native, latest: Observation)
    requires !ReachesBackend(p, op, ctx)
    ensures var reply, refusal := Serve(p, op, ctx, n, latest).reply, RefusedEarly(p, op, ctx).value;
            reply.Refused? && reply.code == refusal.0 && reply.unknown == refusal.1
    ensures forall m :: Serve(p, op, ctx, n, latest) == Serve(p, op, ctx, m, latest)
  {}

  // ----- what the backend's answer makes of the reply -----

  predicate FailsWith(r: Reply, code: P.ErrorCode, unknown: bool) {
    r.Refused? && r.code == code && r.unknown == unknown
  }

  /** A transaction is reported as begun exactly if the server answered with the BEGIN tag. */
  lemma OpenOracle(p: Published, op: Operation, ctx: Context, n: Native, latest: Observation)
    requires ReachesBackend(p, op, ctx) && (op == OpenRead || op == OpenWrite)
    ensures var reply := Serve(p, op, ctx, n, latest).reply;
            && (reply.Success? <==> n.owned && n.outcome == Tag("BEGIN"))
            && (!n.owned ==> FailsWith(reply, P.ConnectionLost, true))
            && (n.owned && n.outcome.Error? ==> FailsWith(reply, n.outcome.code, n.outcome.unknown))
            && (n.owned && n.outcome.Tag? && n.outcome.tag != "BEGIN" ==> FailsWith(reply, P.DatabaseError, false))
  {}

  /** A rollback is reported as done exactly if there was nothing to roll back, in which case no command is sent, or the
      server answered with the ROLLBACK tag and is idle; one that was sent and not confirmed is unknown. */
  lemma RollbackOracle(p: Published, ctx: Context, n: Native, latest: Observation)
    requires ReachesBackend(p, Rollback, ctx)
    ensures var reply := Serve(p, Rollback, ctx, n, latest).reply;
            && (reply.Success? <==>
                  n.owned && (n.before.transaction == P.Idle
                              || (n.outcome == Tag("ROLLBACK") && n.after.transaction == P.Idle)))
            && (!n.owned ==> FailsWith(reply, P.ConnectionLost, true))
            && (n.owned && n.before.transaction != P.Idle && n.outcome.Error? ==>
                  FailsWith(reply, n.outcome.code, n.outcome.unknown))
            && (n.owned && n.before.transaction != P.Idle && n.outcome.Tag?
                && !(n.outcome.tag == "ROLLBACK" && n.after.transaction == P.Idle) ==>
                  FailsWith(reply, P.ConnectionLost, true))
    ensures n.owned && n.before.transaction == P.Idle ==>
              forall outcome, after ::
                Serve(p, Rollback, ctx, n.(outcome := outcome, after := after), latest)
                == Serve(p, Rollback, ctx, n, latest)
  {}

  /** A commit is reported as done exactly if a transaction was open, the server answered with the COMMIT tag and is
      idle afterwards; every other commit that was sent is unknown. */
  lemma CommitReplies(p: Published, ctx: Context, n: Native, latest: Observation)
    requires ReachesBackend(p, Commit, ctx)
    ensures var reply, before := Serve(p, Commit, ctx, n, latest).reply,
                                 if n.owned then n.before.transaction else P.Unknown;
            && (reply.Success? <==>
                  before == P.InTransaction && n.outcome == Tag("COMMIT") && n.after.transaction == P.Idle)
            && (before == P.InError ==> FailsWith(reply, P.TxFailed, false))
            && (before != P.InError && before != P.InTransaction ==> FailsWith(reply, P.NoTxOpen, false))
            && (before == P.InTransaction && !reply.Success? ==> FailsWith(reply, P.CommitOutcomeUnknown, true))
  {}

  /** A schema is returned exactly if the retrieval brought one and it passes the worker's own check. */
  lemma GetSchemaOracle(p: Published, ctx: Context, n: Native, latest: Observation)
    requires ReachesBackend(p, GetSchema, ctx)
    ensures var reply := Serve(p, GetSchema, ctx, n, latest).reply;
            && (reply.Success? <==> n.owned && n.outcome.Tag? && n.fits)
            && (!n.owned ==> FailsWith(reply, P.ConnectionLost, true))
            && (n.owned && n.outcome.Error? ==> FailsWith(reply, n.outcome.code, n.outcome.unknown))
            && (n.owned && n.outcome.Tag? && !n.fits ==> reply == CoreFailure(P.SchemaLimit, false, State(p)))
  {}

  /** A result is returned exactly if the statement was answered and the answer passes the worker's own check. */
  lemma QueryOracle(p: Published, ctx: Context, n: Native, latest: Observation)
    requires ReachesBackend(p, Query(true), ctx)
    ensures var reply := Serve(p, Query(true), ctx, n, latest).reply;
            && (reply.Success? <==> n.owned && n.outcome.Tag? && n.fits)
            && (!n.owned ==> FailsWith(reply, P.ConnectionLost, true))
            && (n.owned && n.outcome.Error? ==> FailsWith(reply, n.outcome.code, n.outcome.unknown))
            && (n.owned && n.outcome.Tag? && !n.fits ==> reply == CoreFailure(P.ResultLimit, false, State(p)))
  {}

  /** A close is refused exactly if a transaction is open on the connection the worker still has, and needs no answer of
      the server. */
  lemma CloseOracle(p: Published, ctx: Context, n: Native, latest: Observation)
    requires ReachesBackend(p, Close, ctx)
    ensures var reply, open := Serve(p, Close, ctx, n, latest).reply,
                               n.owned && (n.before.transaction == P.InTransaction || n.before.transaction == P.InError);
            && (reply.Success? <==> !open)
            && (open ==> FailsWith(reply, P.ActiveTransaction, false))
  {}

  // ----- what is published -----

  /** What the next request will find: a closed handle is gone for good; after a commit of unknown outcome the
      connection counts as bad; otherwise it is what the backend was last seen to be. An outcome that is unknown
      costs the schema observation, and names are never changed. */
  lemma PublishedAfter(p: Published, op: Operation, ctx: Context, n: Native, latest: Observation)
    requires !p.closed
    ensures var s := Serve(p, op, ctx, n, latest);
            var q := s.published;
            && q.id == p.id && q.database == p.database
            && (q.closed <==> op.Close? && s.reply.Success?)
            && (q.closed ==> q.observation == Observation(ConnUnknown, P.Unknown, false)
                             && !q.schemaObserved && !q.schemaDirty)
            && (!q.closed && !(op.Commit? && UnknownOutcome(s.reply)) ==> q.observation == latest)
            && (op.Commit? && UnknownOutcome(s.reply) ==>
                  q.observation == Observation(ConnBad, P.Unknown, false) && !q.schemaObserved && !q.schemaDirty)
            && (!op.Commit? && UnknownOutcome(s.reply) ==> !q.schemaObserved && q.schemaDirty == p.schemaDirty)
            && (!s.reply.Success? && !UnknownOutcome(s.reply) ==>
                  q.schemaObserved == p.schemaObserved && q.schemaDirty == p.schemaDirty)
  {
    ServeCloses(p, op, ctx, n, latest);
    AnsweredNames(p, RunBackend(op, n));
    AnswerStep(p, op, n);
    hide RunBackend, Apply, RefusedEarly, State, P.NextMoves, P.ClosedState;
  }

  lemma AnsweredNames(p: Published, answer: Answer)
    ensures Apply(p, answer).published.id == p.id && Apply(p, answer).published.database == p.database
  {}

  /** What a success does to the two bookkeeping bits. */
  lemma SuccessBits(p: Published, op: Operation, ctx: Context, n: Native, latest: Observation)
    requires !p.closed && Serve(p, op, ctx, n, latest).reply.Success?
    ensures var q := Serve(p, op, ctx, n, latest).published;
            match op
            case GetSchema => q.schemaObserved && !q.schemaDirty
            case OpenRead => q.schemaObserved == p.schemaObserved && q.schemaDirty == p.schemaDirty
            case OpenWrite => q.schemaObserved == p.schemaObserved && q.schemaDirty == p.schemaDirty
            case Query(_) =>
              q.schemaObserved == p.schemaObserved
              && (n.outcome.Tag? ==> (q.schemaDirty <==> p.schemaDirty || DirectDdl(n.outcome.tag)))
            case Commit => (q.schemaObserved <==> p.schemaObserved && !p.schemaDirty) && !q.schemaDirty
            case Rollback => q.schemaObserved == p.schemaObserved && !q.schemaDirty
            case Close => !q.schemaObserved && !q.schemaDirty
  {}

  // ----- what the client is shown -----

  /** Every field of the snapshot a client is shown. */
  lemma SnapshotShows(p: Published)
    ensures var s := State(p);
            && s.handle == p.id && s.database == p.database
            && (s.connectionStatus == P.Closed <==> p.closed)
            && (s.connectionStatus == P.Ok <==> !p.closed && p.observation.connection == ConnOk)
            && s.transactionStatus == (if p.closed then P.Unknown else p.observation.transaction)
            && (s.transactionOpen == Some(true) <==>
                  s.transactionStatus == P.InTransaction || s.transactionStatus == P.InError)
            && (s.transactionOpen == Some(false) <==> s.transactionStatus == P.Idle)
            && (s.transactionOpen == None <==> s.transactionStatus == P.Active || s.transactionStatus == P.Unknown)
            && s.busy == p.observation.busy
            && (s.schemaObserved <==> !p.closed && p.schemaObserved)
  {}

  /** A handle that has been closed, on request or by shutdown, is shown as closed and with nothing known about it. */
  lemma ShutDownShows(p: Published)
    ensures State(PublishClosed(p)) == P.HandleState(p.id, p.database, P.Closed, P.Unknown, None, false, false)
    ensures PublishClosed(p).observation == Observation(ConnUnknown, P.Unknown, false)
  {}

  /** A closed handle is shown once more, as closed and with nothing known about it. */
  lemma ClosedShows(p: Published, ctx: Context, n: Native, latest: Observation)
    requires !p.closed && Serve(p, Close, ctx, n, latest).reply.Success?
    ensures var s := Serve(p, Close, ctx, n, latest).reply.state;
            && s.handle == p.id && s.database == p.database && s.connectionStatus == P.Closed
            && s.transactionStatus == P.Unknown && s.transactionOpen == None && !s.busy && !s.schemaObserved
    ensures Serve(p, Close, ctx, n, latest).reply.moves == []
  {}

  /** A reply shows what has been published, or, if it reports an oversized answer, what was published before. */
  lemma ReplyShows(p: Published, op: Operation, ctx: Context, n: Native, latest: Observation)
    requires !p.closed
    ensures var s := Serve(p, op, ctx, n, latest);
            && (s.reply.CoreFailure? ==> s.reply.state == State(p))
            && (!s.reply.CoreFailure? && !(op.Close? && s.reply.Success?) ==>
                  s.reply.state == State(s.published) && s.reply.moves == P.NextMoves(State(s.published)))
  {}

  /** The guidance that goes with each recommended tool. */
  lemma GuidanceFits(s: P.HandleState, m: P.Advice)
    requires m in P.NextMoves(s)
    ensures match m.tool
            case OpenRead => m.guidance == P.StartReading
            case OpenWrite => m.guidance == P.StartWriting
            case GetSchema => m.guidance == P.InspectSchema
            case Query => m.guidance == P.ProvideSql
            case Commit => m.guidance == P.CommitNow
            case Rollback =>
              m.guidance == if s.transactionStatus == P.InError then P.FailedRollBack else P.RollBack
            case CloseDatabase =>
              m.guidance == if s.connectionStatus == P.Bad || s.transactionStatus == P.Unknown
                            then P.DisposeUnusable else P.Dispose
  {}

  // ----- command tags -----

  lemma {:induction false} WordIs(s: string, n: nat)
    requires n <= |s| && (forall i | 0 <= i < n :: !IsSpace(s[i])) && (n < |s| ==> IsSpace(s[n]))
    ensures Word(s) == s[..n]
  {
    if n > 0 {
      WordIs(s[1..], n - 1);
      assert s[..n] == [s[0]] + s[1..][..n - 1];
    }
  }

  lemma {:induction false} SpacesSkipped(s: string, n: nat)
    requires n <= |s| && (forall i | 0 <= i < n :: IsSpace(s[i])) && (n < |s| ==> !IsSpace(s[n]))
    ensures SkipSpaces(s) == s[n..]
  {
    if n > 0 {
      SpacesSkipped(s[1..], n - 1);
    }
  }

  /** The command of a tag is what stands between the white space before it and the next white space or the end. */
  lemma FirstWordIs(tag: string, from: nat, to: nat)
    requires from <= to <= |tag| && (from == to ==> to == |tag|)
    requires forall i | 0 <= i < from :: IsSpace(tag[i])
    requires forall i | from <= i < to :: !IsSpace(tag[i])
    requires to < |tag| ==> IsSpace(tag[to])
    ensures FirstWord(tag) == tag[from..to]
  {
    SpacesSkipped(tag, from);
    WordIs(tag[from..], to - from);
    assert tag[from..][..to - from] == tag[from..to];
  }
}
