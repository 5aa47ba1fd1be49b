/** The words of the wire format (protocol.rs): field names, error codes and messages, statuses, guidance. */
module Wire {
  import opened Wrappers
  import P = Protocol

  // ----- field names -----

  datatype Field =
    | EnvelopeVersionField | HandleStateField | NextMovesField | ResultField | ErrorField | CodeField | MessageField
    | SqlstateField | TransactionOutcomeField | HandleField | DatabaseField | ConnectionStatusField
    | TransactionStatusField
    | TransactionOpenField | BusyField | SchemaObservedField | ToolField | ArgumentsField | GuidanceField

  function Name(f: Field): string {
    match f
    case EnvelopeVersionField => "envelope_version"
    case HandleStateField => "handle_state"
    case NextMovesField => "next_moves"
    case ResultField => "result"
    case ErrorField => "error"
    case CodeField => "code"
    case MessageField => "message"
    case SqlstateField => "sqlstate"
    case TransactionOutcomeField => "transaction_outcome"
    case HandleField => "handle"
    case DatabaseField => "database"
    case ConnectionStatusField => "connection_status"
    case TransactionStatusField => "transaction_status"
    case TransactionOpenField => "transaction_open"
    case BusyField => "busy"
    case SchemaObservedField => "schema_observed"
    case ToolField => "tool"
    case ArgumentsField => "arguments"
    case GuidanceField => "guidance"
  }

  /** A number that tells the field names apart. */
  function FieldMark(f: Field): int {
    match f
    case EnvelopeVersionField => 16115
    case HandleStateField => 12116
    case NextMovesField => 10111
    case ResultField => 6115
    case ErrorField => 5114
    case CodeField => 4099
    case MessageField => 7115
    case SqlstateField => 8116
    case TransactionOutcomeField => 19099
    case HandleField => 6110
    case DatabaseField => 8098
    case ConnectionStatusField => 17097
    case TransactionStatusField => 18097
    case TransactionOpenField => 16111
    case BusyField => 4098
    case SchemaObservedField => 15114
    case ToolField => 4116
    case ArgumentsField => 9101
    case GuidanceField => 8097
  }

  function Mark(s: string, place: nat): int
    requires place <= |s| && 0 < place
  {
    |s| * 1000 + s[|s| - place] as int
  }

  lemma NameMark(f: Field)
    ensures |Name(f)| >= 4 && Mark(Name(f), 4) == FieldMark(f)
  {}

  /** Different fields have different names. */
  lemma NamesDiffer()
    ensures forall f, g :: Name(f) == Name(g) ==> f == g
  {
    hide Name;
    forall f, g | Name(f) == Name(g) ensures f == g {
      NameMark(f);
      NameMark(g);
    }
  }

  // ----- error codes -----

  function Code(c: P.ErrorCode): string {
    match c
    case UnsupportedServer => "UNSUPPORTED_SERVER"
    case HandleUnknown => "HANDLE_UNKNOWN"
    case HandleLimit => "HANDLE_LIMIT"
    case DatabaseUnknown => "DATABASE_UNKNOWN"
    case DatabaseMismatch => "DATABASE_MISMATCH"
    case ConfigError => "CONFIG_ERROR"
    case QueueFull => "QUEUE_FULL"
    case ServerStopping => "SERVER_STOPPING"
    case SchemaRequired => "SCHEMA_REQUIRED"
    case SchemaLimit => "SCHEMA_LIMIT"
    case TxAlreadyOpen => "TX_ALREADY_OPEN"
    case NoTxOpen => "NO_TX_OPEN"
    case TxFailed => "TX_FAILED"
    case ActiveTransaction => "ACTIVE_TRANSACTION"
    case InvalidInput => "INVALID_INPUT"
    case DatabaseError => "DATABASE_ERROR"
    case ResultLimit => "RESULT_LIMIT"
    case CopyUnsupported => "COPY_UNSUPPORTED"
    case Cancelled => "CANCELLED"
    case DeadlineExceeded => "DEADLINE_EXCEEDED"
    case ConnectionLost => "CONNECTION_LOST"
    case CommitOutcomeUnknown => "COMMIT_OUTCOME_UNKNOWN"
    case CleanupUncertain => "CLEANUP_UNCERTAIN"
    case Internal => "INTERNAL"
  }

  function CodeMark(c: P.ErrorCode): int {
    match c
    case UnsupportedServer => 18095
    case HandleUnknown => 14085
    case HandleLimit => 12069
    case DatabaseUnknown => 16085
    case DatabaseMismatch => 17073
    case ConfigError => 12071
    case QueueFull => 10085
    case ServerStopping => 15084
    case SchemaRequired => 15069
    case SchemaLimit => 12065
    case TxAlreadyOpen => 15068
    case NoTxOpen => 10084
    case TxFailed => 9095
    case ActiveTransaction => 18083
    case InvalidInput => 13068
    case DatabaseError => 14069
    case ResultLimit => 12084
    case CopyUnsupported => 16080
    case Cancelled => 9078
    case DeadlineExceeded => 17088
    case ConnectionLost => 15079
    case CommitOutcomeUnknown => 22085
    case CleanupUncertain => 17067
    case Internal => 8078
  }

  lemma EarlierMarks(c: P.ErrorCode)
    requires Place(c) < 12
    ensures |Code(c)| >= 7 && Mark(Code(c), 7) == CodeMark(c)
  {}

  lemma LaterMarks(c: P.ErrorCode)
    requires Place(c) >= 12
    ensures |Code(c)| >= 7 && Mark(Code(c), 7) == CodeMark(c)
  {}

  lemma CodeMarks(c: P.ErrorCode)
    ensures |Code(c)| >= 7 && Mark(Code(c), 7) == CodeMark(c)
  {
    hide Code;
    if Place(c) < 12 {
      EarlierMarks(c);
    } else {
      LaterMarks(c);
    }
  }

  /** `ErrorCode::ALL` */
  function AllCodes(): seq<P.ErrorCode> {
    [P.UnsupportedServer, P.HandleUnknown, P.HandleLimit, P.DatabaseUnknown, P.DatabaseMismatch,
     P.ConfigError, P.QueueFull, P.ServerStopping, P.SchemaRequired, P.SchemaLimit,
     P.TxAlreadyOpen, P.NoTxOpen, P.TxFailed, P.ActiveTransaction, P.InvalidInput,
     P.DatabaseError, P.ResultLimit, P.CopyUnsupported, P.Cancelled, P.DeadlineExceeded,
     P.ConnectionLost, P.CommitOutcomeUnknown, P.CleanupUncertain, P.Internal]
  }

  function FindCode(codes: seq<P.ErrorCode>, name: string): Option<P.ErrorCode> {
    if codes == [] then None
    else if Code(codes[0]) == name then Some(codes[0])
    else FindCode(codes[1..], name)
  }

  function ParseCode(name: string): Option<P.ErrorCode> {
    FindCode(AllCodes(), name)
  }

  lemma CodesDiffer(c: P.ErrorCode, d: P.ErrorCode)
    requires Code(c) == Code(d)
    ensures c == d
  {
    hide Code;
    CodeMarks(c);
    CodeMarks(d);
  }

  lemma {:induction false} FoundCode(codes: seq<P.ErrorCode>, i: nat)
    requires i < |codes|
    ensures FindCode(codes, Code(codes[i])) == Some(codes[i])
  {
    hide Code;
    if Code(codes[0]) == Code(codes[i]) {
      CodesDiffer(codes[0], codes[i]);
    } else {
      FoundCode(codes[1..], i - 1);
    }
  }

  lemma {:induction false} FoundIsNamed(codes: seq<P.ErrorCode>, name: string)
    ensures FindCode(codes, name).Some? ==> Code(FindCode(codes, name).value) == name
  {
    hide Code;
    if codes != [] && Code(codes[0]) != name {
      FoundIsNamed(codes[1..], name);
    }
  }

  function Place(c: P.ErrorCode): nat {
    match c
    case UnsupportedServer => 0
    case HandleUnknown => 1
    case HandleLimit => 2
    case DatabaseUnknown => 3
    case DatabaseMismatch => 4
    case ConfigError => 5
    case QueueFull => 6
    case ServerStopping => 7
    case SchemaRequired => 8
    case SchemaLimit => 9
    case TxAlreadyOpen => 10
    case NoTxOpen => 11
    case TxFailed => 12
    case ActiveTransaction => 13
    case InvalidInput => 14
    case DatabaseError => 15
    case ResultLimit => 16
    case CopyUnsupported => 17
    case Cancelled => 18
    case DeadlineExceeded => 19
    case ConnectionLost => 20
    case CommitOutcomeUnknown => 21
    case CleanupUncertain => 22
    case Internal => 23
  }

  lemma ListedAtPlace(c: P.ErrorCode)
    ensures Place(c) < |AllCodes()| && AllCodes()[Place(c)] == c
  {}

  /** Codes and their names correspond one to one, and no other name is a code. */
  lemma CodeRoundTrip(c: P.ErrorCode, name: string)
    ensures ParseCode(name) == Some(c) <==> name == Code(c)
  {
    hide Code;
    ListedAtPlace(c);
    FoundCode(AllCodes(), Place(c));
    FoundIsNamed(AllCodes(), name);
  }

  /** The one message of a code. */
  function Message(c: P.ErrorCode): string {
    match c
    case UnsupportedServer => "PostgreSQL server 12 or newer is required."
    case HandleUnknown => "Unknown handle."
    case HandleLimit => "Handle limit reached."
    case DatabaseUnknown => "Database is not configured."
    case DatabaseMismatch => "Connected database does not match configuration."
    case ConfigError => "Invalid server configuration."
    case QueueFull => "Request queue is full."
    case ServerStopping => "Server is stopping."
    case SchemaRequired => "Inspect schema before opening a transaction."
    case SchemaLimit => "Schema response exceeds configured limits."
    case TxAlreadyOpen => "A transaction is already open."
    case NoTxOpen => "No transaction is open."
    case TxFailed => "Transaction failed; roll back before continuing."
    case ActiveTransaction => "Resolve the transaction before closing this handle."
    case InvalidInput => "Invalid query or parameters."
    case DatabaseError => "PostgreSQL rejected the operation."
    case ResultLimit => "Result exceeds configured limits; execution may have taken effect."
    case CopyUnsupported => "COPY streaming is unsupported; connection disposed."
    case Cancelled => "Request cancelled; execution may have taken effect."
    case DeadlineExceeded => "Request deadline exceeded; execution may have taken effect."
    case ConnectionLost => "Connection lost; operation outcome may be unknown."
    case CommitOutcomeUnknown => "Commit outcome is unknown; do not retry automatically."
    case CleanupUncertain => "Cleanup could not be verified."
    case Internal => "Internal adapter failure."
  }

  // ----- statuses -----

  function ConnectionText(s: P.ConnectionStatus): string {
    match s case Ok => "ok" case Bad => "bad" case Closed => "closed"
  }

  function ParseConnection(s: string): Option<P.ConnectionStatus> {
    if s == "ok" then Some(P.Ok) else if s == "bad" then Some(P.Bad) else if s == "closed" then Some(P.Closed) else None
  }

  lemma ConnectionRoundTrip(s: P.ConnectionStatus)
    ensures ParseConnection(ConnectionText(s)) == Some(s)
  {
    assert |"ok"| == 2 && |"bad"| == 3 && |"closed"| == 6;
  }

  function TransactionText(s: P.TransactionStatus): string {
    match s
    case Idle => "idle"
    case Active => "active"
    case InTransaction => "in_transaction"
    case InError => "in_error"
    case Unknown => "unknown"
  }

  function ParseTransaction(s: string): Option<P.TransactionStatus> {
    if s == "idle" then Some(P.Idle)
    else if s == "active" then Some(P.Active)
    else if s == "in_transaction" then Some(P.InTransaction)
    else if s == "in_error" then Some(P.InError)
    else if s == "unknown" then Some(P.Unknown)
    else None
  }

  lemma TransactionRoundTrip(s: P.TransactionStatus)
    ensures ParseTransaction(TransactionText(s)) == Some(s)
  {
    assert |"idle"| == 4 && |"active"| == 6 && |"in_transaction"| == 14 && |"in_error"| == 8 && |"unknown"| == 7;
  }

  const OUTCOME_UNKNOWN := "unknown"

  // ----- moves -----

  const LIST_HANDLES := "list_handles"
  const OPEN_DATABASE := "open_database"

  function ToolName(t: P.Tool): string {
    match t
    case OpenRead => "open_read"
    case OpenWrite => "open_write"
    case GetSchema => "get_schema"
    case Query => "query"
    case Commit => "commit"
    case Rollback => "rollback"
    case CloseDatabase => "close_database"
  }

  function GuidanceText(g: P.Guidance): string {
    match g
    case ProvideSql => "Provide SQL and parameters; do not replay a failed statement blindly."
    case InspectSchema => "Inspect schema before opening a transaction."
    case StartReading => "Start a PostgreSQL read-only transaction."
    case StartWriting => "Start a PostgreSQL read-write transaction."
    case CommitNow => "Commit the current transaction."
    case RollBack => "Roll back the current transaction."
    case Dispose => "Dispose this handle locally."
    case FailedRollBack => "Transaction failed; roll back before continuing."
    case DisposeUnusable => "Connection unusable; dispose locally. Transaction outcome may be unknown."
  }

  lemma ToolNotEmpty(t: P.Tool)
    ensures |ToolName(t)| > 0
  {}

  lemma RequestGuidanceNotEmpty(g: P.Guidance)
    requires g.ProvideSql? || g.InspectSchema? || g.StartReading?
    ensures |GuidanceText(g)| > 0
  {}

  lemma TransactionGuidanceNotEmpty(g: P.Guidance)
    requires g.StartWriting? || g.CommitNow? || g.RollBack?
    ensures |GuidanceText(g)| > 0
  {}

  lemma EndingGuidanceNotEmpty(g: P.Guidance)
    requires g.Dispose? || g.FailedRollBack? || g.DisposeUnusable?
    ensures |GuidanceText(g)| > 0
  {}

  lemma GuidanceNotEmpty(g: P.Guidance)
    ensures |GuidanceText(g)| > 0
  {
    hide GuidanceText;
    match g {
      case ProvideSql => RequestGuidanceNotEmpty(g);
      case InspectSchema => RequestGuidanceNotEmpty(g);
      case StartReading => RequestGuidanceNotEmpty(g);
      case StartWriting => TransactionGuidanceNotEmpty(g);
      case CommitNow => TransactionGuidanceNotEmpty(g);
      case RollBack => TransactionGuidanceNotEmpty(g);
      case _ => EndingGuidanceNotEmpty(g);
    }
  }
}
