/** Theorems about every run of requests on one handle. */
module HandleRuns {
  import opened Wrappers
  import P = Protocol
  import opened HandleLifecycle

  // ----- single requests -----

  /** What each refusal tells the client: the code determines the state it was made in, and the other way
      round. */
  lemma RefusalMeans(p: Published, op: Operation, code: P.ErrorCode)
    ensures var tx, starts := p.observation.transaction, op.OpenRead? || op.OpenWrite?;
            Precondition(p, op) == Some(code) <==>
            match code
            case HandleUnknown => p.closed
            case SchemaRequired => !p.closed && (starts || op.Query?) && !p.schemaObserved
            case TxFailed => !p.closed && tx == P.InError && (op.Commit? || ((starts || op.Query?) && p.schemaObserved))
            case NoTxOpen =>
              !p.closed && ((op.Query? && p.schemaObserved && tx == P.Idle)
                            || (op.Commit? && tx != P.InTransaction && tx != P.InError))
            case TxAlreadyOpen =>
              !p.closed && tx != P.Idle && (op.GetSchema? || (starts && p.schemaObserved && tx != P.InError))
            case ActiveTransaction => !p.closed && op.Close? && p.observation.transaction.TransactionOpen() == Some(true)
            case QueueFull => !p.closed && op.Query? && p.schemaObserved && tx == P.Active
            case ConnectionLost =>
              !p.closed && ((op.Query? && p.schemaObserved && tx == P.Unknown)
                            || (op.Rollback? && tx.TransactionOpen().None?))
            case _ => false
  {}

  /** The explicit list of catalog commands adds nothing: every tag that is not empty and not a known row
      command counts as DDL. */
  lemma UnlistedTagsAreDdl(tag: string)
    ensures DirectDdl(tag) <==>
            tag != "" && FirstWord(tag) !in {
              "SELECT", "INSERT", "UPDATE", "DELETE", "MERGE", "VALUES", "FETCH", "MOVE", "SET", "SHOW", "BEGIN",
              "COMMIT", "ROLLBACK", "ABORT", "END", "SAVEPOINT", "RELEASE", "DISCARD", "NOTIFY", "LISTEN", "UNLISTEN"}
  {
    if tag == "" {
      assert FirstWord(tag) == "";
      assert forall c | c in DDL_COMMANDS :: c != "";
    }
  }

  /** A commit succeeds exactly when the server confirmed it: the COMMIT tag and IDLE afterwards. A commit
      that was sent and not confirmed is reported as unknown, never as failed. */
  lemma CommitOracle(p: Published, ctx: Context, n: Native, latest: Observation)
    requires ReachesBackend(p, Commit, ctx) && n.owned && n.before.transaction == P.InTransaction
    ensures var reply := Serve(p, Commit, ctx, n, latest).reply;
            && (reply.Success? <==> n.outcome == Tag("COMMIT") && n.after.transaction == P.Idle)
            && (!reply.Success? ==> reply.Refused? && reply.code == P.CommitOutcomeUnknown && UnknownOutcome(reply))
  {}

  // ----- what the client can see, and what it may remember of it -----

  datatype Event = SchemaSeen | DdlRan | CommitDone | RollbackDone | OutcomeUnknown(commit: bool) | Disposed | Nothing

  function SuccessEvent(op: Operation, tag: string): Event {
    match op
    case GetSchema => SchemaSeen
    case Query(_) => if DirectDdl(tag) then DdlRan else Nothing
    case Commit => CommitDone
    case Rollback => RollbackDone
    case Close => Disposed
    case _ => Nothing
  }

  function EventOf(op: Operation, tag: string, reply: Reply): Event {
    if reply.Success? then SuccessEvent(op, tag)
    else if reply.unknown then OutcomeUnknown(op.Commit?)
    else Nothing
  }

  function TagOf(n: Native): string {
    if n.outcome.Tag? then n.outcome.tag else ""
  }

  datatype Memory = Memory(observed: bool, dirty: bool)

  function Remember(m: Memory, e: Event): Memory {
    match e
    case SchemaSeen => Memory(true, false)
    case DdlRan => m.(dirty := true)
    case CommitDone => Memory(m.observed && !m.dirty, false)
    case RollbackDone => m.(dirty := false)
    case OutcomeUnknown(commit) => Memory(false, !commit && m.dirty)
    case Disposed => Memory(false, false)
    case Nothing => m
  }

  function Fold(events: seq<Event>): Memory {
    if events == [] then Memory(false, false)
    else Remember(Fold(events[..|events| - 1]), events[|events| - 1])
  }

  // ----- runs -----

  datatype Request = Request(op: Operation, ctx: Context, native: Native, latest: Observation)

  function ServeRequest(p: Published, r: Request): Served {
    Serve(p, r.op, r.ctx, r.native, r.latest)
  }

  /** The published handle after a run of requests. */
  function After(p: Published, rs: seq<Request>): Published {
    if rs == [] then p else ServeRequest(After(p, rs[..|rs| - 1]), rs[|rs| - 1]).published
  }

  function ReplyTo(p: Published, rs: seq<Request>, i: nat): Reply
    requires i < |rs|
  {
    ServeRequest(After(p, rs[..i]), rs[i]).reply
  }

  function EventAt(p: Published, rs: seq<Request>, i: nat): Event
    requires i < |rs|
  {
    EventOf(rs[i].op, TagOf(rs[i].native), ReplyTo(p, rs, i))
  }

  function History(p: Published, rs: seq<Request>): seq<Event> {
    seq(|rs|, i requires 0 <= i < |rs| => EventAt(p, rs, i))
  }

  predicate JustOpened(p: Published) {
    !p.schemaObserved && !p.schemaDirty && !p.closed
  }

  function MemoryOf(p: Published): Memory {
    Memory(p.schemaObserved, p.schemaDirty)
  }

  lemma AnswerStep(p: Published, op: Operation, n: Native)
    ensures var ran := Apply(p, RunBackend(op, n));
            MemoryOf(ran.published) ==
            if ran.result.Ok? then Remember(MemoryOf(p), SuccessEvent(op, TagOf(n))) else MemoryOf(p)
  {}

  lemma MemoryStep(p: Published, r: Request)
    ensures var s := ServeRequest(p, r);
            MemoryOf(s.published) == Remember(MemoryOf(p), EventOf(r.op, TagOf(r.native), s.reply))
  {
    AnswerStep(p, r.op, r.native);
  }

  lemma HistoryPrefix(p: Published, rs: seq<Request>, n: nat)
    requires n <= |rs|
    ensures History(p, rs)[..n] == History(p, rs[..n])
  {
    forall i | 0 <= i < n ensures History(p, rs)[i] == History(p, rs[..n])[i] {
      assert rs[..n][..i] == rs[..i];
    }
  }

  /** The worker's two bookkeeping bits are a function of the replies alone. */
  lemma {:induction false} BookkeepingIsFold(p: Published, rs: seq<Request>)
    requires JustOpened(p)
    ensures MemoryOf(After(p, rs)) == Fold(History(p, rs))
  {
    if rs != [] {
      var n := |rs| - 1;
      BookkeepingIsFold(p, rs[..n]);
      MemoryStep(After(p, rs[..n]), rs[n]);
      HistoryPrefix(p, rs, n);
    }
  }

  // ----- the fold in closed form -----

  predicate ClearsDirty(e: Event) {
    e == SchemaSeen || e == CommitDone || e == RollbackDone || e == OutcomeUnknown(true) || e == Disposed
  }

  /** Direct DDL succeeded and nothing has cleared it since. */
  ghost predicate DdlPending(events: seq<Event>) {
    exists i :: DdlAt(events, i)
  }

  ghost predicate DdlAt(events: seq<Event>, i: int) {
    0 <= i < |events| && events[i] == DdlRan && forall j | i < j < |events| :: !ClearsDirty(events[j])
  }

  lemma {:induction false} DirtyMeansDdlPending(events: seq<Event>)
    ensures Fold(events).dirty <==> DdlPending(events)
  {
    if events != [] {
      var n := |events| - 1;
      var before, e := events[..n], events[n];
      DirtyMeansDdlPending(before);
      if e == DdlRan {
        assert DdlAt(events, n);
      } else {
        if DdlPending(before) && !ClearsDirty(e) {
          var i :| DdlAt(before, i);
          assert events[i] == before[i] && forall j | i < j < n :: events[j] == before[j];
          assert DdlAt(events, i);
        }
        if DdlPending(events) {
          var i :| DdlAt(events, i);
          assert i != n && forall j | i < j < n :: before[j] == events[j];
          assert DdlAt(before, i);
        }
      }
    }
  }

  /** A successful commit loses the schema observation exactly when direct DDL is pending. */
  ghost predicate EndsObservation(events: seq<Event>, j: nat)
    requires j < |events|
  {
    events[j].OutcomeUnknown? || events[j] == Disposed || (events[j] == CommitDone && DdlPending(events[..j]))
  }

  ghost predicate SeenAt(events: seq<Event>, i: int) {
    0 <= i < |events| && events[i] == SchemaSeen && forall j: nat | i < j < |events| :: !EndsObservation(events, j)
  }

  lemma {:induction false} ObservedMeansSchemaSeen(events: seq<Event>)
    ensures Fold(events).observed <==> exists i :: SeenAt(events, i)
  {
    if events != [] {
      var n := |events| - 1;
      var before, e := events[..n], events[n];
      ObservedMeansSchemaSeen(before);
      DirtyMeansDdlPending(before);
      forall j: nat | j < n ensures EndsObservation(events, j) <==> EndsObservation(before, j) {
        assert events[..j] == before[..j];
      }
      if e == SchemaSeen {
        assert SeenAt(events, n);
      } else {
        if i :| SeenAt(before, i) && !EndsObservation(events, n) {
          assert SeenAt(events, i);
        }
        if i :| SeenAt(events, i) {
          assert i < n && before[i] == events[i];
          assert SeenAt(before, i);
        }
      }
    }
  }

  lemma CommitStep(p: Published, r: Request)
    requires r.op == Commit && ServeRequest(p, r).reply.Success?
    ensures ServeRequest(p, r).published.schemaObserved <==> p.schemaObserved && !p.schemaDirty
  {}

  /** At a successful commit in any run: the observation survives exactly when it was there and no direct
      DDL succeeded since the last clearing event. */
  lemma CommitInvalidatesAfterDdl(p: Published, rs: seq<Request>, i: nat)
    requires JustOpened(p) && i < |rs|
    requires rs[i].op == Commit && ReplyTo(p, rs, i).Success?
    ensures After(p, rs[..i + 1]).schemaObserved <==>
            After(p, rs[..i]).schemaObserved && !DdlPending(History(p, rs[..i]))
  {
    var q := After(p, rs[..i]);
    assert rs[..i + 1][..i] == rs[..i];
    assert After(p, rs[..i + 1]) == ServeRequest(q, rs[i]).published;
    CommitStep(q, rs[i]);
    BookkeepingIsFold(p, rs[..i]);
    DirtyMeansDdlPending(History(p, rs[..i]));
  }

  // ----- after an unknown outcome -----

  lemma {:induction false} StaysUnobserved(events: seq<Event>, i: nat)
    requires i <= |events| && !Fold(events[..i]).observed
    requires forall k | i <= k < |events| :: events[k] != SchemaSeen
    ensures !Fold(events).observed
  {
    if i == |events| {
      assert events[..i] == events;
    } else {
      var before := events[..|events| - 1];
      assert before[..i] == events[..i];
      StaysUnobserved(before, i);
    }
  }

  lemma SchemaSeenAfterUnknown(events: seq<Event>, i: nat)
    requires i < |events| && events[i].OutcomeUnknown? && Fold(events).observed
    ensures exists k :: i < k < |events| && events[k] == SchemaSeen
  {
    assert events[..i + 1][..i] == events[..i];
    if forall k | i + 1 <= k < |events| :: events[k] != SchemaSeen {
      StaysUnobserved(events, i + 1);
    }
  }

  lemma HistoryAt(p: Published, rs: seq<Request>, i: nat, j: nat)
    requires i < j <= |rs|
    ensures UnknownOutcome(ReplyTo(p, rs, i)) ==> History(p, rs[..j])[i].OutcomeUnknown?
    ensures History(p, rs[..j])[i] == SchemaSeen ==> rs[i].op == GetSchema && ReplyTo(p, rs, i).Success?
  {
    assert rs[..j][..i] == rs[..i];
    var q := After(p, rs[..i]);
  }

  predicate NeedsSchema(op: Operation) {
    op.OpenRead? || op.OpenWrite? || op.Query?
  }

  lemma ReachingNeedsObservation(p: Published, op: Operation, ctx: Context)
    requires NeedsSchema(op) && ReachesBackend(p, op, ctx)
    ensures p.schemaObserved
  {}

  /** In every run, between an unknown outcome and the next request of these kinds that reaches the
      backend there is a successful get_schema. */
  lemma UnknownOutcomeNeedsSchema(p: Published, rs: seq<Request>, i: nat, j: nat)
    requires JustOpened(p) && i < j < |rs|
    requires UnknownOutcome(ReplyTo(p, rs, i))
    requires NeedsSchema(rs[j].op) && ReachesBackend(After(p, rs[..j]), rs[j].op, rs[j].ctx)
    ensures exists k :: i < k < j && rs[k].op == GetSchema && ReplyTo(p, rs, k).Success?
  {
    var events := History(p, rs[..j]);
    BookkeepingIsFold(p, rs[..j]);
    HistoryAt(p, rs, i, j);
    ReachingNeedsObservation(After(p, rs[..j]), rs[j].op, rs[j].ctx);
    SchemaSeenAfterUnknown(events, i);
    var k :| i < k < j && events[k] == SchemaSeen;
    HistoryAt(p, rs, k, j);
  }

  // ----- guidance agrees with enforcement -----

  /** The request a recommended tool stands for, with SQL that passes validation. */
  function OperationFor(tool: P.Tool): Operation {
    match tool
    case GetSchema => GetSchema
    case OpenRead => OpenRead
    case OpenWrite => OpenWrite
    case Query => Query(true)
    case Commit => Commit
    case Rollback => Rollback
    case CloseDatabase => Close
  }

  predicate MoveAccepted(p: Published, m: P.Advice) {
    Precondition(p, OperationFor(m.tool)).None?
  }

  /** Exactly which recommended moves the worker refuses: a query without a schema observation, and a
      close of a connection that is not ok while libpq still calls its transaction open. */
  lemma MovesMatchPreconditions(p: Published, m: P.Advice)
    requires !p.closed && m in P.NextMoves(State(p))
    ensures MoveAccepted(p, m) <==>
            && (m.tool == P.Query ==> p.schemaObserved)
            && (m.tool == P.CloseDatabase ==> p.observation.transaction != P.InTransaction
                                              && p.observation.transaction != P.InError)
  {}

  /** The guidance table has moves of its own for a close refused because of an open transaction, and on a healthy
      connection they are all accepted. */
  lemma CloseRefusalMovesAccepted(p: Published, m: P.Advice)
    requires Precondition(p, Close) == Some(P.ActiveTransaction) && p.observation.connection == ConnOk
    requires m in P.MovesForState(State(p), true)
    ensures MoveAccepted(p, m) && (m.tool == P.Commit || m.tool == P.Rollback)
  {}

  /** What a refused close recommends is not taken from there: the reply carries the moves of any other reply. They
      are the promised ones exactly unless the connection is healthy, idle on the wire and inside a transaction; then
      a query is recommended as well. */
  lemma RefusedCloseMoves(p: Published, ctx: Context, n: Native, latest: Observation)
    requires var reply := Serve(p, Close, ctx, n, latest).reply; reply.Refused? && reply.code == P.ActiveTransaction
    ensures var reply := Serve(p, Close, ctx, n, latest).reply;
            && (reply.moves == P.MovesForState(reply.state, true) <==>
                  latest != Observation(ConnOk, P.InTransaction, false))
            && (P.Advice(P.Query, P.ProvideSql) in reply.moves <==> latest == Observation(ConnOk, P.InTransaction, false))
  {
    var moves := Serve(p, Close, ctx, n, latest).reply.moves;
    if latest == Observation(ConnOk, P.InTransaction, false) {
      assert moves[0] == P.Advice(P.Query, P.ProvideSql);
    }
  }

  const IN_TRANSACTION := Observation(ConnOk, P.InTransaction, false)

  /** A close refused inside a transaction that recommends a query. */
  lemma RefusedCloseRecommendsQuery(id: string, database: string)
    ensures var p := Published(id, database, IN_TRANSACTION, true, false, false);
            var n := Native(true, IN_TRANSACTION, Tag(""), IN_TRANSACTION, true);
            var reply := Serve(p, Close, Context(false, false, false), n, IN_TRANSACTION).reply;
            && reply.Refused? && reply.code == P.ActiveTransaction
            && P.Advice(P.Query, P.ProvideSql) in reply.moves && reply.moves != P.MovesForState(reply.state, true)
  {
    var p := Published(id, database, IN_TRANSACTION, true, false, false);
    RefusedCloseMoves(p, Context(false, false, false), Native(true, IN_TRANSACTION, Tag(""), IN_TRANSACTION, true),
                      IN_TRANSACTION);
  }

  /** A cancelled query inside a transaction: the reply recommends a query, and the worker would refuse it. */
  lemma RecommendedQueryRefused(id: string, database: string, n: Native)
    ensures var p := Published(id, database, IN_TRANSACTION, true, false, false);
            var s := Serve(p, Query(true), Context(false, true, false), n, IN_TRANSACTION);
            && P.Advice(P.Query, P.ProvideSql) in s.reply.moves
            && Precondition(s.published, Query(true)) == Some(P.SchemaRequired)
  {
    var p := Published(id, database, IN_TRANSACTION, true, false, false);
    var s := Serve(p, Query(true), Context(false, true, false), n, IN_TRANSACTION);
    assert s.reply.moves[0] == P.Advice(P.Query, P.ProvideSql);
  }

  /** libpq reports an unknown transaction whenever the connection is not ok. */
  predicate LibpqStatus(o: Observation) {
    o.connection != ConnOk ==> o.transaction == P.Unknown
  }

  predicate Recommended(p: Published, op: Operation) {
    exists m :: m in P.NextMoves(State(p)) && Same(op, OperationFor(m.tool))
  }

  /** The same tool, whatever its arguments. */
  predicate Same(a: Operation, b: Operation) {
    a == b || (a.Query? && b.Query?)
  }

  /** Guidance leaves nothing out. On a handle that is not busy, every operation the worker would admit is
      recommended, except a rollback with nothing to roll back and a close while a command is active; and what is
      recommended is admitted, except a query without a schema observation. */
  lemma AdmittedAndRecommended(p: Published, op: Operation)
    requires LibpqStatus(p.observation) && !p.closed && !p.observation.busy
    ensures Precondition(p, op).None? && !Recommended(p, op) <==>
            (op.Rollback? && p.observation.transaction == P.Idle) || (op.Close? && p.observation.transaction == P.Active)
    ensures Precondition(p, op).Some? && Recommended(p, op) <==>
            op.Query? && p.observation.transaction == P.InTransaction && !p.schemaObserved
  {
    var moves := P.NextMoves(State(p));
    assert forall i | 0 <= i < |moves| :: moves[i] in moves;
    if |moves| == 4 {
      assert moves == [moves[0], moves[1], moves[2], moves[3]];
    } else if |moves| == 3 {
      assert moves == [moves[0], moves[1], moves[2]];
    } else if |moves| == 2 {
      assert moves == [moves[0], moves[1]];
    } else if |moves| == 1 {
      assert moves == [moves[0]];
    }
  }

  /** The snapshot in an envelope is the state the next request is judged against; every move in it is
      accepted, except a query whose schema observation was lost inside the transaction; and a handle that
      is open, not busy and not active always has a move it accepts. */
  lemma GuidanceAgreesWithEnforcement(p: Published, op: Operation, ctx: Context, n: Native, latest: Observation)
    requires LibpqStatus(latest) && !p.closed
    ensures var s := Serve(p, op, ctx, n, latest);
            var q := s.published;
            !s.reply.CoreFailure? ==>
              && (!(op.Close? && s.reply.Success?) ==> s.reply.state == State(q))
              && P.ValidState(s.reply.state)
              && (forall m | m in s.reply.moves :: MoveAccepted(q, m) <==> (m.tool == P.Query ==> q.schemaObserved))
              && (!q.closed && !q.observation.busy && q.observation.transaction != P.Active ==>
                    exists m :: m in s.reply.moves && MoveAccepted(q, m))
  {
    hide Precondition, RunBackend;
    var s := Serve(p, op, ctx, n, latest);
    var q := s.published;
    ServeCloses(p, op, ctx, n, latest);
    if !s.reply.CoreFailure? && !q.closed {
      assert LibpqStatus(q.observation);
      forall m | m in s.reply.moves ensures MoveAccepted(q, m) <==> (m.tool == P.Query ==> q.schemaObserved) {
        MovesMatchPreconditions(q, m);
      }
      if !q.observation.busy && q.observation.transaction != P.Active {
        var last := s.reply.moves[|s.reply.moves| - 1];
        assert last in s.reply.moves && MoveAccepted(q, last);
      }
    }
  }
}
