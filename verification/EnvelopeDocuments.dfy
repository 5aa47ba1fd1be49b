/** Which JSON documents the envelope decoder accepts, and what it reads in them, key by key. */
module EnvelopeDocuments {
  import opened Wrappers
  import opened SortedMap
  import opened Json
  import opened Wire
  import opened Envelope
  import RoundTrip = EnvelopeRoundTrip
  import P = Protocol

  // ----- what a document says -----

  predicate OnlyKeys(ms: seq<Entry<Json>>, keys: seq<string>) {
    forall i | 0 <= i < |ms| :: ms[i].key in keys
  }

  /** A unit variant: its name, or an object with the name as only key and null under it. */
  predicate IsUnit(j: Option<Json>, name: string) {
    j == Some(Str(name)) || j == Some(Obj([Entry(name, Null)]))
  }

  predicate IsFlag(j: Option<Json>, b: bool) {
    j == Some(Bool(b))
  }

  predicate SaysState(handle: Option<Json>, database: Option<Json>, connection: Option<Json>, transaction: Option<Json>,
                      open: Option<Json>, busy: Option<Json>, observed: Option<Json>, s: P.HandleState)
  {
    && handle == Some(Str(s.handle)) && database == Some(Str(s.database))
    && IsUnit(connection, match s.connectionStatus case Ok => "ok" case Bad => "bad" case Closed => "closed")
    && IsUnit(transaction, match s.transactionStatus
                           case Idle => "idle" case Active => "active" case InTransaction => "in_transaction"
                           case InError => "in_error" case Unknown => "unknown")
    && (match s.transactionOpen case None => open == Some(Null) case Some(b) => IsFlag(open, b))
    && IsFlag(busy, s.busy) && IsFlag(observed, s.schemaObserved)
  }

  /** An object with these keys, of which only the nullable one may be missing, or an array of the values in order. */
  predicate DescribesState(j: Json, s: P.HandleState) {
    match j
    case Obj(ms) =>
      && OnlyKeys(ms, ["handle", "database", "connection_status", "transaction_status", "transaction_open", "busy",
                       "schema_observed"])
      && SaysState(Get(ms, "handle"), Get(ms, "database"), Get(ms, "connection_status"), Get(ms, "transaction_status"),
                   if Get(ms, "transaction_open") == None then Some(Null) else Get(ms, "transaction_open"),
                   Get(ms, "busy"), Get(ms, "schema_observed"), s)
    case Arr(items) =>
      && |items| == 7
      && SaysState(Some(items[0]), Some(items[1]), Some(items[2]), Some(items[3]), Some(items[4]), Some(items[5]),
                   Some(items[6]), s)
    case _ => false
  }

  predicate SaysMove(tool: Option<Json>, arguments: Option<Json>, guidance: Option<Json>, m: Move) {
    tool == Some(Str(m.tool)) && arguments == Some(m.arguments) && guidance == Some(Str(m.guidance))
  }

  predicate DescribesMove(j: Json, m: Move) {
    match j
    case Obj(ms) =>
      && OnlyKeys(ms, ["tool", "arguments", "guidance"])
      && SaysMove(Get(ms, "tool"), Get(ms, "arguments"), Get(ms, "guidance"), m)
    case Arr(items) => |items| == 3 && SaysMove(Some(items[0]), Some(items[1]), Some(items[2]), m)
    case _ => false
  }

  /** Always an object, and with all four keys. */
  predicate DescribesPayload(j: Json, e: ErrorPayload) {
    && j.Obj?
    && var ms := j.members;
       && OnlyKeys(ms, ["code", "message", "sqlstate", "transaction_outcome"])
       && IsUnit(Get(ms, "code"), Code(e.code)) && Get(ms, "message") == Some(Str(e.message))
       && Get(ms, "sqlstate") == Some(TextOrNull(e.sqlstate))
       && (if e.outcomeUnknown then IsUnit(Get(ms, "transaction_outcome"), "unknown")
           else Get(ms, "transaction_outcome") == Some(Null))
  }

  /** Present, and null if there is no state. */
  predicate SaysOptionalState(j: Option<Json>, s: Option<P.HandleState>) {
    && j.Some?
    && (match s case None => j.value == Null case Some(state) => DescribesState(j.value, state))
  }

  predicate SaysMoves(j: Option<Json>, moves: seq<Move>) {
    && j.Some? && j.value.Arr? && |j.value.items| == |moves|
    && forall i | 0 <= i < |moves| :: DescribesMove(j.value.items[i], moves[i])
  }

  predicate SaysError(j: Option<Json>, e: Option<ErrorPayload>) {
    match e
    case None => j == None || j == Some(Null)
    case Some(p) => j.Some? && DescribesPayload(j.value, p)
  }

  /** A document of these keys only. State and moves have to be there, the state possibly as null; of the two
      outcomes one is there and the other one is missing or null. */
  predicate Describes(j: Json, e: Envelope) {
    && j.Obj?
    && var ms := j.members;
       && OnlyKeys(ms, ["envelope_version", "handle_state", "next_moves", "result", "error"])
       && Get(ms, "envelope_version") == Some(Num(e.version))
       && SaysOptionalState(Get(ms, "handle_state"), e.handleState)
       && SaysMoves(Get(ms, "next_moves"), e.nextMoves)
       && (match e.result
           case None => Get(ms, "result") == None || Get(ms, "result") == Some(Null)
           case Some(r) => Get(ms, "result") == Some(r) && r != Null)
       && SaysError(Get(ms, "error"), e.error)
  }

  // ----- the decoder reads exactly that -----

  lemma UnitRead(j: Option<Json>, name: string)
    ensures AsVariant(j) == Some(name) <==> IsUnit(j, name)
  {
    if j.Some? && j.value.Obj? && |j.value.members| == 1 {
      assert j.value.members == [j.value.members[0]];
    }
  }

  lemma ConnectionRead(j: Option<Json>, c: P.ConnectionStatus)
    ensures AsConnection(j) == Some(c) <==>
            IsUnit(j, match c case Ok => "ok" case Bad => "bad" case Closed => "closed")
  {
    assert "ok"[0] == 'o' && "bad"[0] == 'b' && "closed"[0] == 'c';
    UnitRead(j, match c case Ok => "ok" case Bad => "bad" case Closed => "closed");
  }

  lemma TransactionRead(j: Option<Json>, t: P.TransactionStatus)
    ensures AsTransaction(j) == Some(t) <==>
            IsUnit(j, match t
                      case Idle => "idle" case Active => "active" case InTransaction => "in_transaction"
                      case InError => "in_error" case Unknown => "unknown")
  {
    assert |"idle"| == 4 && |"active"| == 6 && |"in_transaction"| == 14 && |"in_error"| == 8 && |"unknown"| == 7;
    UnitRead(j, match t
                case Idle => "idle" case Active => "active" case InTransaction => "in_transaction"
                case InError => "in_error" case Unknown => "unknown");
  }

  lemma CodeRead(j: Option<Json>, c: P.ErrorCode)
    ensures AsCode(j) == Some(c) <==> IsUnit(j, Code(c))
  {
    hide Code, ParseCode;
    UnitRead(j, Code(c));
    if AsVariant(j).Some? {
      CodeRoundTrip(c, AsVariant(j).value);
    }
  }

  lemma StateRead(handle: Option<Json>, database: Option<Json>, connection: Option<Json>, transaction: Option<Json>,
                  open: Option<Json>, busy: Option<Json>, observed: Option<Json>, s: P.HandleState)
    ensures StateOf(handle, database, connection, transaction, open, busy, observed) == Some(s) <==>
            SaysState(handle, database, connection, transaction, open, busy, observed, s)
  {
    hide AsConnection, AsTransaction, IsUnit;
    ConnectionRead(connection, s.connectionStatus);
    TransactionRead(transaction, s.transactionStatus);
  }

  lemma StateKeys(ms: seq<Entry<Json>>)
    ensures OnlyFields(ms, STATE_FIELDS) <==>
            OnlyKeys(ms, ["handle", "database", "connection_status", "transaction_status", "transaction_open", "busy",
                          "schema_observed"])
  {
    forall key ensures OneOf(key, STATE_FIELDS) <==>
                       key in ["handle", "database", "connection_status", "transaction_status", "transaction_open",
                               "busy", "schema_observed"]
    {
      StateKey(key);
    }
  }

  lemma StateKey(key: string)
    ensures OneOf(key, STATE_FIELDS) <==>
            key in ["handle", "database", "connection_status", "transaction_status", "transaction_open", "busy",
                    "schema_observed"]
  {
    var names := ["handle", "database", "connection_status", "transaction_status", "transaction_open", "busy",
                  "schema_observed"];
    assert forall k | 0 <= k < 7 :: Name(STATE_FIELDS[k]) == names[k];
  }

  lemma StateNames()
    ensures Name(HandleField) == "handle" && Name(DatabaseField) == "database"
    ensures Name(ConnectionStatusField) == "connection_status" && Name(TransactionStatusField) == "transaction_status"
    ensures Name(TransactionOpenField) == "transaction_open" && Name(BusyField) == "busy"
    ensures Name(SchemaObservedField) == "schema_observed"
  {}

  lemma StateDescribed(j: Json, s: P.HandleState)
    ensures DecodeState(j) == Some(s) <==> DescribesState(j, s)
  {
    StateNames();
    hide StateOf, SaysState, Name, OnlyFields, OnlyKeys;
    match j {
      case Obj(ms) =>
        var open := if Get(ms, "transaction_open") == None then Some(Null) else Get(ms, "transaction_open");
        StateKeys(ms);
        StateRead(Get(ms, "handle"), Get(ms, "database"), Get(ms, "connection_status"), Get(ms, "transaction_status"),
                  open, Get(ms, "busy"), Get(ms, "schema_observed"), s);
      case Arr(items) =>
        if |items| == 7 {
          StateRead(Some(items[0]), Some(items[1]), Some(items[2]), Some(items[3]), Some(items[4]), Some(items[5]),
                    Some(items[6]), s);
        }
      case _ =>
    }
  }

  lemma MoveNames(key: string)
    ensures Name(ToolField) == "tool" && Name(ArgumentsField) == "arguments" && Name(GuidanceField) == "guidance"
    ensures OneOf(key, MOVE_FIELDS) <==> key in ["tool", "arguments", "guidance"]
  {
    var names := ["tool", "arguments", "guidance"];
    assert forall k | 0 <= k < 3 :: Name(MOVE_FIELDS[k]) == names[k];
  }

  lemma MoveDescribed(j: Json, m: Move)
    ensures DecodeMove(j) == Some(m) <==> DescribesMove(j, m)
  {
    forall key ensures OneOf(key, MOVE_FIELDS) <==> key in ["tool", "arguments", "guidance"] {
      MoveNames(key);
    }
    MoveNames("");
    hide Name, OneOf;
  }

  lemma {:induction false} MovesDescribed(items: seq<Json>, moves: seq<Move>)
    ensures DecodeMoves(items) == Some(moves) <==>
            |items| == |moves| && forall i | 0 <= i < |items| :: DescribesMove(items[i], moves[i])
  {
    hide DecodeMove, DescribesMove;
    if items == [] || moves == [] {
      DecodedSize(items);
    } else {
      MoveDescribed(items[0], moves[0]);
      MovesDescribed(items[1..], moves[1..]);
      assert moves == [moves[0]] + moves[1..];
      if |items| == |moves| && forall i | 0 <= i < |items| :: DescribesMove(items[i], moves[i]) {
        assert forall i | 0 <= i < |items[1..]| :: items[1..][i] == items[i + 1] && moves[1..][i] == moves[i + 1];
      }
      if DecodeMoves(items) == Some(moves) {
        forall i | 0 <= i < |items| ensures DescribesMove(items[i], moves[i]) {
          assert i > 0 ==> items[1..][i - 1] == items[i] && moves[1..][i - 1] == moves[i];
        }
      }
    }
  }

  lemma {:induction false} DecodedSize(items: seq<Json>)
    ensures DecodeMoves(items).Some? ==> |DecodeMoves(items).value| == |items|
  {
    hide DecodeMove;
    if items != [] {
      DecodedSize(items[1..]);
    }
  }

  lemma PayloadNames(key: string)
    ensures Name(CodeField) == "code" && Name(MessageField) == "message" && Name(SqlstateField) == "sqlstate"
    ensures Name(TransactionOutcomeField) == "transaction_outcome"
    ensures OneOf(key, PAYLOAD_FIELDS) <==> key in ["code", "message", "sqlstate", "transaction_outcome"]
  {
    var names := ["code", "message", "sqlstate", "transaction_outcome"];
    assert forall k | 0 <= k < 4 :: Name(PAYLOAD_FIELDS[k]) == names[k];
  }

  lemma PayloadRead(code: Option<Json>, message: Option<Json>, sqlstate: Option<Json>, outcome: Option<Json>,
                    e: ErrorPayload)
    ensures PayloadOf(code, message, sqlstate, outcome) == Some(e) <==>
            && ValidPayload(e)
            && IsUnit(code, Code(e.code)) && message == Some(Str(e.message))
            && sqlstate == Some(TextOrNull(e.sqlstate))
            && (if e.outcomeUnknown then IsUnit(outcome, "unknown") else outcome == Some(Null))
  {
    hide AsCode, AsVariant, ValidPayload, Code, IsUnit;
    CodeRead(code, e.code);
    UnitRead(outcome, "unknown");
    NullIsNoUnit("unknown");
  }

  lemma NullIsNoUnit(name: string)
    ensures !IsUnit(Some(Null), name)
  {}

  lemma PayloadDescribed(j: Json, e: ErrorPayload)
    ensures DecodePayload(j) == Some(e) <==> ValidPayload(e) && DescribesPayload(j, e)
  {
    forall key ensures OneOf(key, PAYLOAD_FIELDS) <==> key in ["code", "message", "sqlstate", "transaction_outcome"] {
      PayloadNames(key);
    }
    PayloadNames("");
    hide Name, OneOf, PayloadOf, ValidPayload, Code, IsUnit;
    if j.Obj? {
      var ms := j.members;
      PayloadRead(Get(ms, "code"), Get(ms, "message"), Get(ms, "sqlstate"), Get(ms, "transaction_outcome"), e);
    }
  }

  lemma EnvelopeNames(key: string)
    ensures Name(EnvelopeVersionField) == "envelope_version" && Name(HandleStateField) == "handle_state"
    ensures Name(NextMovesField) == "next_moves" && Name(ResultField) == "result" && Name(ErrorField) == "error"
    ensures OneOf(key, ENVELOPE_FIELDS) <==> key in ["envelope_version", "handle_state", "next_moves", "result", "error"]
  {
    var names := ["envelope_version", "handle_state", "next_moves", "result", "error"];
    assert forall k | 0 <= k < 5 :: Name(ENVELOPE_FIELDS[k]) == names[k];
  }

  /** The decoder accepts exactly the documents that describe a valid envelope, and reads that envelope in them; a
      document with any other key, at any of these places, is refused. */
  lemma DecodesExactly(j: Json, e: Envelope)
    ensures Decode(j) == Some(e) <==> ValidEnvelope(e) && Describes(j, e)
  {
    forall key ensures OneOf(key, ENVELOPE_FIELDS) <==>
                       key in ["envelope_version", "handle_state", "next_moves", "result", "error"]
    {
      EnvelopeNames(key);
    }
    EnvelopeNames("");
    hide Name, OneOf, EnvelopeOf, SaysOptionalState, SaysMoves, SaysError, ValidEnvelope;
    if j.Obj? {
      var ms := j.members;
      PartsRead(Get(ms, "envelope_version"), Get(ms, "handle_state"), Get(ms, "next_moves"), Get(ms, "result"),
                Get(ms, "error"), e);
    }
  }

  lemma OptionalStateRead(j: Option<Json>, s: Option<P.HandleState>)
    ensures DecodeOptionalState(j) == Some(s) <==> SaysOptionalState(j, s)
  {
    hide DecodeState, DescribesState;
    if j.Some? && s.Some? {
      StateDescribed(j.value, s.value);
      NullIsNoState(s.value);
    }
  }

  lemma MovesRead(j: Option<Json>, moves: seq<Move>)
    ensures DecodeMoveList(j) == Some(moves) <==> SaysMoves(j, moves)
  {
    hide DecodeMoves, DescribesMove;
    if j.Some? && j.value.Arr? {
      MovesDescribed(j.value.items, moves);
    }
  }

  lemma ErrorRead(j: Option<Json>, e: ErrorPayload)
    requires j.Some?
    ensures DecodePayload(j.value) == Some(e) <==> ValidPayload(e) && SaysError(j, Some(e))
    ensures SaysError(j, Some(e)) ==> j.value != Null
  {
    hide DecodePayload, DescribesPayload, ValidPayload;
    PayloadDescribed(j.value, e);
    NullIsNoPayload(e);
  }

  lemma PartsRead(version: Option<Json>, state: Option<Json>, moves: Option<Json>, result: Option<Json>,
                  error: Option<Json>, e: Envelope)
    ensures EnvelopeOf(version, state, moves, result, error) == Some(e) <==>
            && ValidEnvelope(e)
            && version == Some(Num(e.version)) && SaysOptionalState(state, e.handleState)
            && SaysMoves(moves, e.nextMoves)
            && (match e.result
                case None => result == None || result == Some(Null)
                case Some(r) => result == Some(r) && r != Null)
            && SaysError(error, e.error)
  {
    hide DecodeOptionalState, SaysOptionalState, DecodeMoveList, SaysMoves, DecodePayload, DescribesPayload,
         P.ValidState, ValidMoves, ValidPayload;
    OptionalStateRead(state, e.handleState);
    MovesRead(moves, e.nextMoves);
    if error.Some? && e.error.Some? {
      ErrorRead(error, e.error.value);
    }
  }

  lemma NullIsNoState(s: P.HandleState)
    ensures !DescribesState(Null, s) && DecodeState(Null) == None
  {}

  lemma NullIsNoPayload(e: ErrorPayload)
    ensures !DescribesPayload(Null, e) && DecodePayload(Null) == None
  {}

  /** The encoder writes a document that describes the envelope under these keys. */
  lemma EncodedDescribes(e: Envelope)
    requires ValidEnvelope(e) && e.result != Some(Null)
    ensures Encode(e).Some? && Describes(Encode(e).value, e)
  {
    hide Describes, Decode;
    RoundTrip.EnvelopeRoundTrip(e);
    DecodesExactly(Encode(e).value, e);
  }

  /** What a success for a handle carries: the snapshot, the result, and one move for each recommended tool, with
      its name, the handle as its only argument and its guidance. */
  lemma StateEnvelopeSays(s: P.HandleState, result: Json)
    ensures var e, advice := RoundTrip.StateEnvelope(s, result), P.NextMoves(s);
            && e.version == 1 && e.handleState == Some(s) && e.result == Some(result) && e.error == None
            && |e.nextMoves| == |advice|
            && forall i | 0 <= i < |advice| ::
                 && e.nextMoves[i].tool == ToolName(advice[i].tool)
                 && e.nextMoves[i].arguments == Obj([Entry("handle", Str(s.handle))])
                 && e.nextMoves[i].guidance == GuidanceText(advice[i].guidance)
  {
    hide ToolName, GuidanceText, P.NextMoves;
    assert Record([HandleField], [Str(s.handle)]) == [Entry("handle", Str(s.handle))];
  }
}
