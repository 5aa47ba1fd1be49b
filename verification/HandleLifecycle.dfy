/** One handle as its worker serves it: preconditions, the adapter's answer, publication, guidance
    (worker.rs, with the result shapes of `LibpqBackend`). */
module HandleLifecycle {
  import opened Wrappers
  import P = Protocol

  datatype BackendConnection = ConnOk | ConnBad | ConnUnknown

  datatype Observation = Observation(connection: BackendConnection, transaction: P.TransactionStatus, busy: bool)

  const GONE := Observation(ConnUnknown, P.Unknown, false)

  datatype Published = Published(
    id: string,
    database: string,
    observation: Observation,
    schemaObserved: bool,
    schemaDirty: bool,
    closed: bool)

  function State(p: Published): P.HandleState {
    P.NewHandleState(
      p.id, p.database,
      if p.closed then P.Closed else if p.observation.connection == ConnOk then P.Ok else P.Bad,
      if p.closed then P.Unknown else p.observation.transaction,
      p.observation.busy,
      !p.closed && p.schemaObserved)
  }

  datatype Operation = GetSchema | OpenRead | OpenWrite | Query(valid: bool) | Commit | Rollback | Close

  /** `operation_precondition`: the refusal of an operation in the published state, if any. */
  function Precondition(p: Published, op: Operation): Option<P.ErrorCode> {
    var tx := p.observation.transaction;
    if p.closed then Some(P.HandleUnknown)
    else
      match op
      case GetSchema =>
        if tx != P.Idle then Some(P.TxAlreadyOpen) else None
      case OpenRead => OpenPrecondition(p)
      case OpenWrite => OpenPrecondition(p)
      case Query(_) =>
        if !p.schemaObserved then Some(P.SchemaRequired)
        else (match tx
              case InTransaction => None
              case InError => Some(P.TxFailed)
              case Active => Some(P.QueueFull)
              case Idle => Some(P.NoTxOpen)
              case Unknown => Some(P.ConnectionLost))
      case Commit =>
        (match tx
         case InTransaction => None
         case InError => Some(P.TxFailed)
         case _ => Some(P.NoTxOpen))
      case Rollback =>
        if tx == P.Active || tx == P.Unknown then Some(P.ConnectionLost) else None
      case Close =>
        if tx == P.InTransaction || tx == P.InError then Some(P.ActiveTransaction) else None
  }

  function OpenPrecondition(p: Published): Option<P.ErrorCode> {
    var tx := p.observation.transaction;
    if !p.schemaObserved then Some(P.SchemaRequired)
    else if tx == P.Idle then None
    else if tx == P.InError then Some(P.TxFailed)
    else Some(P.TxAlreadyOpen)
  }

  // ----- the backend -----

  /** What the request's tokens and deadline say when the worker looks at them. */
  datatype Context = Context(stopping: bool, cancelled: bool, expired: bool)

  /** A command sent through libpq: its tag, or the adapter's error. */
  datatype Executed = Tag(tag: string) | Error(code: P.ErrorCode, unknown: bool)

  /** Everything libpq contributes while one operation runs: whether the connection is still owned, the
      status before and after the command, the command's outcome, and for schema and query requests
      whether the result passes the worker's second validation. */
  datatype Native = Native(owned: bool, before: Observation, outcome: Executed, after: Observation, fits: bool)

  datatype Answer =
    | Opened(observation: Observation)
    | Schema(fits: bool, observation: Observation)
    | Queried(fits: bool, observation: Observation, directDdl: bool)
    | Committed(observation: Observation)
    | RolledBack(changed: bool, observation: Observation)
    | Closed(observation: Observation)
    | Failed(code: P.ErrorCode, unknown: bool, observation: Observation)

  function FirstWord(tag: string): string {
    Word(SkipSpaces(tag))
  }

  predicate IsSpace(c: char) {
    c == ' ' || c == '\t' || c == '\n' || c == 12 as char || c == '\r'
  }

  function SkipSpaces(s: string): string {
    if s != "" && IsSpace(s[0]) then SkipSpaces(s[1..]) else s
  }

  function Word(s: string): string {
    if s == "" || IsSpace(s[0]) then "" else [s[0]] + Word(s[1..])
  }

  const ROW_COMMANDS: set<string> := {
    "SELECT", "INSERT", "UPDATE", "DELETE", "MERGE", "VALUES", "FETCH", "MOVE", "SET", "SHOW", "BEGIN", "COMMIT",
    "ROLLBACK", "ABORT", "END", "SAVEPOINT", "RELEASE", "DISCARD", "NOTIFY", "LISTEN", "UNLISTEN"}

  const DDL_COMMANDS: set<string> := {
    "CREATE", "ALTER", "DROP", "TRUNCATE", "REINDEX", "GRANT", "REVOKE", "COMMENT", "REFRESH", "SECURITY", "DO",
    "CALL", "EXECUTE"}

  /** `direct_ddl_command_tag` */
  predicate DirectDdl(tag: string) {
    var command := FirstWord(tag);
    command !in ROW_COMMANDS && (command in DDL_COMMANDS || tag != "")
  }

  /** The answers `LibpqBackend` gives. */
  function RunBackend(op: Operation, n: Native): Answer {
    var before := if n.owned then n.before else GONE;
    var after := if n.owned then n.after else GONE;
    var lost := Failed(P.ConnectionLost, true, GONE);
    match op
    case OpenRead => Begin(n, lost, after)
    case OpenWrite => Begin(n, lost, after)
    case GetSchema =>
      if !n.owned then lost
      else if n.outcome.Error? then Failed(n.outcome.code, n.outcome.unknown, after)
      else Schema(n.fits, after)
    case Query(_) =>
      if !n.owned then lost
      else if n.outcome.Error? then Failed(n.outcome.code, n.outcome.unknown, after)
      else Queried(n.fits, after, DirectDdl(n.outcome.tag))
    case Commit =>
      if before.transaction == P.InError then Failed(P.TxFailed, false, before)
      else if before.transaction != P.InTransaction then Failed(P.NoTxOpen, false, before)
      else if n.outcome.Error? then Failed(P.CommitOutcomeUnknown, true, after)
      else if n.outcome.tag == "COMMIT" && after.transaction == P.Idle then Committed(after)
      else Failed(P.CommitOutcomeUnknown, true, after)
    case Rollback =>
      if before.transaction == P.Idle then RolledBack(false, before)
      else if !n.owned then lost
      else if n.outcome.Error? then Failed(n.outcome.code, n.outcome.unknown, after)
      else if n.outcome.tag == "ROLLBACK" && after.transaction == P.Idle then RolledBack(true, after)
      else Failed(P.ConnectionLost, true, after)
    case Close =>
      if before.transaction == P.InTransaction || before.transaction == P.InError
      then Failed(P.ActiveTransaction, false, before)
      else Closed(GONE)
  }

  function Begin(n: Native, lost: Answer, after: Observation): Answer {
    if !n.owned then lost
    else if n.outcome.Error? then Failed(n.outcome.code, n.outcome.unknown, after)
    else if n.outcome.tag != "BEGIN" then Failed(P.DatabaseError, false, after)
    else Opened(after)
  }

  // ----- serving one request -----

  /** `Envelope` replies carry the refreshed snapshot; `CoreFailure` replies the one read when they were built. */
  datatype Reply =
    | Success(state: P.HandleState, moves: seq<P.Advice>)
    | Refused(code: P.ErrorCode, unknown: bool, state: P.HandleState, moves: seq<P.Advice>)
    | CoreFailure(code: P.ErrorCode, unknown: bool, state: P.HandleState)

  predicate UnknownOutcome(r: Reply) {
    !r.Success? && r.unknown
  }

  /** Outcome of `execute_operation` before the worker publishes. */
  datatype Executing = Ran(published: Published, result: Result<(), (P.ErrorCode, bool)>, coreFailure: bool)

  function Observe(p: Published, o: Observation): Published {
    p.(observation := o)
  }

  function PublishClosed(p: Published): Published {
    p.(closed := true, schemaObserved := false, schemaDirty := false, observation := GONE)
  }

  /** The refusals made without asking the backend. */
  function RefusedEarly(p: Published, op: Operation, ctx: Context): Option<(P.ErrorCode, bool)> {
    if Precondition(p, op).Some? then Some((Precondition(p, op).value, false))
    else if ctx.stopping then Some((P.ServerStopping, false))
    else if ctx.cancelled then Some((P.Cancelled, op.Query?))
    else if ctx.expired then Some((P.DeadlineExceeded, op.Query?))
    else if op.Query? && !op.valid then Some((P.InvalidInput, false))
    else None
  }

  predicate ReachesBackend(p: Published, op: Operation, ctx: Context) {
    RefusedEarly(p, op, ctx).None?
  }

  function Apply(p: Published, answer: Answer): Executing {
    match answer
    case Opened(o) => Ran(Observe(p, o), Ok(()), false)
    case Schema(fits, o) =>
      if !fits then Ran(p, Err((P.SchemaLimit, false)), true)
      else Ran(Observe(p, o).(schemaObserved := true, schemaDirty := false), Ok(()), false)
    case Queried(fits, o, ddl) =>
      if !fits then Ran(p, Err((P.ResultLimit, false)), true)
      else Ran(Observe(p, o).(schemaDirty := p.schemaDirty || ddl), Ok(()), false)
    case Committed(o) =>
      Ran(Observe(p, o).(schemaObserved := p.schemaObserved && !p.schemaDirty, schemaDirty := false), Ok(()), false)
    case RolledBack(_, o) => Ran(Observe(p, o).(schemaDirty := false), Ok(()), false)
    case Closed(o) => Ran(PublishClosed(Observe(p, o)), Ok(()), false)
    case Failed(code, unknown, o) => Ran(Observe(p, o), Err((code, unknown)), false)
  }

  function Execute(p: Published, op: Operation, ctx: Context, n: Native): Executing {
    var refusal := RefusedEarly(p, op, ctx);
    if refusal.Some? then Ran(p, Err(refusal.value), false) else Apply(p, RunBackend(op, n))
  }

  datatype Served = Served(published: Published, reply: Reply)

  /** The worker's turn: execute, observe the connection afresh, publish an unknown outcome, then build the
      reply from what is published. `latest` is that last observation; a disposed backend is seen as gone. */
  function Serve(p: Published, op: Operation, ctx: Context, n: Native, latest: Observation): Served {
    var ran := Execute(p, op, ctx, n);
    var observed := Observe(ran.published, if ran.published.closed then GONE else latest);
    var unknown := ran.result.Err? && ran.result.error.1;
    var final :=
      if !unknown then observed
      else if op.Commit? then
        observed.(observation := Observation(ConnBad, P.Unknown, false), schemaObserved := false, schemaDirty := false)
      else observed.(schemaObserved := false);
    var reply :=
      match ran.result
      case Ok(_) =>
        var state := if op.Close? then P.ClosedState(p.id, p.database) else State(final);
        Success(state, P.NextMoves(state))
      case Err((code, u)) =>
        if ran.coreFailure then CoreFailure(code, u, State(ran.published))
        else Refused(code, u, State(final), P.NextMoves(State(final)));
    Served(final, reply)
  }

  /** Serving publishes the handle as closed exactly for a close that succeeds. */
  lemma ServeCloses(p: Published, op: Operation, ctx: Context, n: Native, latest: Observation)
    requires !p.closed
    ensures var served := Serve(p, op, ctx, n, latest);
            served.published.closed <==> op.Close? && served.reply.Success?
  {}
}
