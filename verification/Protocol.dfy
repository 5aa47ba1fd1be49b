/** The public handle snapshot, its guidance table and the closed error vocabulary (protocol.rs). */
module Protocol {
  import opened Wrappers

  datatype ConnectionStatus = Ok | Bad | Closed

  datatype TransactionStatus = Idle | Active | InTransaction | InError | Unknown {
    /** Nullable projection: an active or unknown transaction is neither open nor closed. */
    function TransactionOpen(): Option<bool> {
      match this
      case Idle => Some(false)
      case InTransaction => Some(true)
      case InError => Some(true)
      case Active => None
      case Unknown => None
    }
  }

  datatype HandleState = HandleState(
    handle: string,
    database: string,
    connectionStatus: ConnectionStatus,
    transactionStatus: TransactionStatus,
    transactionOpen: Option<bool>,
    busy: bool,
    schemaObserved: bool)

  function NewHandleState(handle: string, database: string, connection: ConnectionStatus,
                          transaction: TransactionStatus, busy: bool, schemaObserved: bool): HandleState {
    HandleState(handle, database, connection, transaction, transaction.TransactionOpen(), busy, schemaObserved)
  }

  function ClosedState(handle: string, database: string): HandleState {
    HandleState(handle, database, Closed, Unknown, None, false, false)
  }

  predicate ValidState(s: HandleState) {
    && s.transactionOpen == s.transactionStatus.TransactionOpen()
    && (s.connectionStatus == Closed ==>
          s.transactionStatus == Unknown && s.transactionOpen.None? && !s.busy && !s.schemaObserved)
  }

  // ----- recommended moves -----

  datatype Tool = OpenRead | OpenWrite | GetSchema | Query | Commit | Rollback | CloseDatabase

  datatype Guidance =
    | StartReading | StartWriting | InspectSchema | ProvideSql | CommitNow | RollBack | Dispose
    | FailedRollBack | DisposeUnusable

  datatype Advice = Advice(tool: Tool, guidance: Guidance)

  /** `moves_for_state` */
  function MovesForState(s: HandleState, closeRefusal: bool): seq<Advice> {
    if !ValidState(s) || s.connectionStatus == Closed then []
    else if s.connectionStatus == Bad || s.transactionStatus == Unknown then [Advice(CloseDatabase, DisposeUnusable)]
    else if s.busy || s.transactionStatus == Active then []
    else
      match s.transactionStatus
      case InError => [Advice(Rollback, FailedRollBack)]
      case InTransaction =>
        (if closeRefusal then [] else [Advice(Query, ProvideSql)])
        + [Advice(Commit, CommitNow), Advice(Rollback, RollBack)]
      case _ =>
        (if s.schemaObserved then [Advice(OpenRead, StartReading), Advice(OpenWrite, StartWriting)] else [])
        + [Advice(GetSchema, InspectSchema), Advice(CloseDatabase, Dispose)]
  }

  function NextMoves(s: HandleState): seq<Advice> {
    MovesForState(s, false)
  }

  // ----- errors -----

  datatype ErrorCode =
    | UnsupportedServer | HandleUnknown | HandleLimit | DatabaseUnknown | DatabaseMismatch | ConfigError
    | QueueFull | ServerStopping | SchemaRequired | SchemaLimit | TxAlreadyOpen | NoTxOpen | TxFailed
    | ActiveTransaction | InvalidInput | DatabaseError | ResultLimit | CopyUnsupported | Cancelled
    | DeadlineExceeded | ConnectionLost | CommitOutcomeUnknown | CleanupUncertain | Internal
}
