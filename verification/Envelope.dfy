/** The response envelope: its hand-written JSON encoder and decoder (protocol.rs). */
module Envelope {
  import opened Wrappers
  import opened SortedMap
  import opened Json
  import opened Wire
  import P = Protocol

  datatype Move = Move(tool: string, arguments: Json, guidance: string)

  datatype ErrorPayload = ErrorPayload(code: P.ErrorCode, message: string, sqlstate: Option<string>, outcomeUnknown: bool)

  datatype Envelope = Envelope(
    version: nat,
    handleState: Option<P.HandleState>,
    nextMoves: seq<Move>,
    result: Option<Json>,
    error: Option<ErrorPayload>)

  // ----- validity -----

  predicate OnlyHandle(ms: seq<Entry<Json>>) {
    forall i | 0 <= i < |ms| :: ms[i].key == Name(HandleField)
  }

  predicate NamesHandle(ms: seq<Entry<Json>>) {
    var h := Get(ms, Name(HandleField));
    h.Some? && h.value.Str?
  }

  predicate ValidMove(m: Move) {
    && m.tool != "" && m.arguments.Obj? && m.guidance != ""
    && OnlyHandle(m.arguments.members)
    && (m.tool == LIST_HANDLES || m.tool == OPEN_DATABASE || NamesHandle(m.arguments.members))
  }

  predicate Alphanumeric(c: char) {
    '0' <= c <= '9' || 'a' <= c <= 'z' || 'A' <= c <= 'Z'
  }

  predicate ValidSqlState(s: Option<string>) {
    s.Some? ==> |s.value| == 5 && forall i | 0 <= i < 5 :: Alphanumeric(s.value[i])
  }

  predicate ValidPayload(e: ErrorPayload) {
    e.message == Message(e.code) && ValidSqlState(e.sqlstate)
  }

  predicate ValidMoves(moves: seq<Move>) {
    forall i | 0 <= i < |moves| :: ValidMove(moves[i])
  }

  /** Version 1, exactly one outcome, and every part valid. */
  predicate ValidEnvelope(e: Envelope) {
    && e.version == 1
    && (e.result.Some? <==> e.error.None?)
    && (e.handleState.Some? ==> P.ValidState(e.handleState.value))
    && ValidMoves(e.nextMoves)
    && (e.error.Some? ==> ValidPayload(e.error.value))
  }

  // ----- encoding -----

  /** The members of a structure: its fields in order, each with its value. */
  function Record(fields: seq<Field>, values: seq<Json>): seq<Entry<Json>>
    requires |fields| == |values|
  {
    seq(|fields|, i requires 0 <= i < |fields| => Entry(Name(fields[i]), values[i]))
  }

  function OpenJson(open: Option<bool>): Json {
    match open case None => Null case Some(b) => Bool(b)
  }

  function StateValues(s: P.HandleState): seq<Json> {
    [Str(s.handle), Str(s.database), Str(ConnectionText(s.connectionStatus)), Str(TransactionText(s.transactionStatus)),
     OpenJson(s.transactionOpen), Bool(s.busy), Bool(s.schemaObserved)]
  }

  function StateJson(s: P.HandleState): Json {
    Obj(Record(STATE_FIELDS, StateValues(s)))
  }

  function OptionalStateJson(s: Option<P.HandleState>): Json {
    match s case None => Null case Some(state) => StateJson(state)
  }

  function MoveJson(m: Move): Json {
    Obj(Record(MOVE_FIELDS, [Str(m.tool), m.arguments, Str(m.guidance)]))
  }

  function MovesJson(moves: seq<Move>): seq<Json> {
    if moves == [] then [] else [MoveJson(moves[0])] + MovesJson(moves[1..])
  }

  function OutcomeJson(unknown: bool): Json {
    if unknown then Str(OUTCOME_UNKNOWN) else Null
  }

  /** The message written is the one of the code, whatever the payload carries. */
  function PayloadJson(e: ErrorPayload): Json {
    Obj(Record(PAYLOAD_FIELDS,
               [Str(Code(e.code)), Str(Message(e.code)), TextOrNull(e.sqlstate), OutcomeJson(e.outcomeUnknown)]))
  }

  /** The outcome that is there is written under its own key; the other key is left out. */
  function WrittenFields(e: Envelope): seq<Field> {
    [EnvelopeVersionField, HandleStateField, NextMovesField, if e.result.Some? then ResultField else ErrorField]
  }

  /** The encoder refuses an envelope that is not valid. */
  function Encode(e: Envelope): Option<Json> {
    if !ValidEnvelope(e) then None
    else Some(Obj(Record(WrittenFields(e),
                         [Num(e.version), OptionalStateJson(e.handleState), Arr(MovesJson(e.nextMoves)),
                          if e.result.Some? then e.result.value else PayloadJson(e.error.value)])))
  }

  // ----- decoding -----

  predicate OneOf(key: string, fields: seq<Field>) {
    exists k :: 0 <= k < |fields| && Name(fields[k]) == key
  }

  /** `deny_unknown_fields` and `allowed_object_keys`. */
  predicate OnlyFields(ms: seq<Entry<Json>>, fields: seq<Field>) {
    forall i | 0 <= i < |ms| :: OneOf(ms[i].key, fields)
  }

  function AsText(j: Option<Json>): Option<string> {
    match j case Some(Str(s)) => Some(s) case _ => None
  }

  function AsBool(j: Option<Json>): Option<bool> {
    match j case Some(Bool(b)) => Some(b) case _ => None
  }

  /** A unit variant: its name, or an object with the name as only key and null under it. */
  function AsVariant(j: Option<Json>): Option<string> {
    match j
    case Some(Str(s)) => Some(s)
    case Some(Obj(ms)) => if |ms| == 1 && ms[0].value == Null then Some(ms[0].key) else None
    case _ => None
  }

  function AsConnection(j: Option<Json>): Option<P.ConnectionStatus> {
    match AsVariant(j) case Some(s) => ParseConnection(s) case None => None
  }

  function AsTransaction(j: Option<Json>): Option<P.TransactionStatus> {
    match AsVariant(j) case Some(s) => ParseTransaction(s) case None => None
  }

  function AsCode(j: Option<Json>): Option<P.ErrorCode> {
    match AsVariant(j) case Some(s) => ParseCode(s) case None => None
  }

  function AsOpen(j: Option<Json>): Option<Option<bool>> {
    match j
    case Some(Null) => Some(None)
    case _ => match AsBool(j) case Some(b) => Some(Some(b)) case None => None
  }

  function AsOptionalText(j: Option<Json>): Option<Option<string>> {
    match j
    case Some(Null) => Some(None)
    case _ => match AsText(j) case Some(s) => Some(Some(s)) case None => None
  }

  function AsOutcome(j: Option<Json>): Option<bool> {
    match j
    case Some(Null) => Some(false)
    case _ => if AsVariant(j) == Some(OUTCOME_UNKNOWN) then Some(true) else None
  }

  function AsVersion(j: Option<Json>): Option<nat> {
    match j case Some(Num(n)) => if n <= 255 then Some(n) else None case _ => None
  }

  const STATE_FIELDS := [HandleField, DatabaseField, ConnectionStatusField, TransactionStatusField,
                         TransactionOpenField, BusyField, SchemaObservedField]

  function StateOf(handle: Option<Json>, database: Option<Json>, connection: Option<Json>, transaction: Option<Json>,
                   open: Option<Json>, busy: Option<Json>, observed: Option<Json>): Option<P.HandleState>
  {
    match (AsText(handle), AsText(database), AsConnection(connection), AsTransaction(transaction), AsOpen(open),
           AsBool(busy), AsBool(observed))
    case (Some(h), Some(d), Some(c), Some(t), Some(o), Some(b), Some(s)) => Some(P.HandleState(h, d, c, t, o, b, s))
    case _ => None
  }

  /** The derived decoder: an object, in which only the nullable field may be missing, or an array of the
      fields in order. */
  function DecodeState(j: Json): Option<P.HandleState> {
    match j
    case Obj(ms) =>
      if !OnlyFields(ms, STATE_FIELDS) then None
      else
        var open := Get(ms, Name(TransactionOpenField));
        StateOf(Get(ms, Name(HandleField)), Get(ms, Name(DatabaseField)), Get(ms, Name(ConnectionStatusField)),
                Get(ms, Name(TransactionStatusField)), if open.None? then Some(Null) else open,
                Get(ms, Name(BusyField)), Get(ms, Name(SchemaObservedField)))
    case Arr(items) =>
      if |items| != 7 then None
      else StateOf(Some(items[0]), Some(items[1]), Some(items[2]), Some(items[3]), Some(items[4]), Some(items[5]),
                   Some(items[6]))
    case _ => None
  }

  function DecodeOptionalState(j: Option<Json>): Option<Option<P.HandleState>> {
    match j
    case None => None
    case Some(Null) => Some(None)
    case Some(state) => match DecodeState(state) case Some(s) => Some(Some(s)) case None => None
  }

  const MOVE_FIELDS := [ToolField, ArgumentsField, GuidanceField]

  function MoveOf(tool: Option<Json>, arguments: Option<Json>, guidance: Option<Json>): Option<Move> {
    match (AsText(tool), arguments, AsText(guidance))
    case (Some(t), Some(a), Some(g)) => Some(Move(t, a, g))
    case _ => None
  }

  function DecodeMove(j: Json): Option<Move> {
    match j
    case Obj(ms) =>
      if !OnlyFields(ms, MOVE_FIELDS) then None
      else MoveOf(Get(ms, Name(ToolField)), Get(ms, Name(ArgumentsField)), Get(ms, Name(GuidanceField)))
    case Arr(items) => if |items| != 3 then None else MoveOf(Some(items[0]), Some(items[1]), Some(items[2]))
    case _ => None
  }

  function DecodeMoves(items: seq<Json>): Option<seq<Move>> {
    if items == [] then Some([])
    else match (DecodeMove(items[0]), DecodeMoves(items[1..]))
         case (Some(m), Some(rest)) => Some([m] + rest)
         case _ => None
  }

  function DecodeMoveList(j: Option<Json>): Option<seq<Move>> {
    match j case Some(Arr(items)) => DecodeMoves(items) case _ => None
  }

  const PAYLOAD_FIELDS := [CodeField, MessageField, SqlstateField, TransactionOutcomeField]

  function PayloadOf(code: Option<Json>, message: Option<Json>, sqlstate: Option<Json>, outcome: Option<Json>):
    Option<ErrorPayload>
  {
    match (AsCode(code), AsText(message), AsOptionalText(sqlstate), AsOutcome(outcome))
    case (Some(c), Some(m), Some(s), Some(o)) =>
      var e := ErrorPayload(c, m, s, o);
      if ValidPayload(e) then Some(e) else None
    case _ => None
  }

  /** All four fields have to be there. */
  function DecodePayload(j: Json): Option<ErrorPayload> {
    match j
    case Obj(ms) =>
      if !OnlyFields(ms, PAYLOAD_FIELDS) then None
      else PayloadOf(Get(ms, Name(CodeField)), Get(ms, Name(MessageField)), Get(ms, Name(SqlstateField)),
                     Get(ms, Name(TransactionOutcomeField)))
    case _ => None
  }

  const ENVELOPE_FIELDS := [EnvelopeVersionField, HandleStateField, NextMovesField, ResultField, ErrorField]

  predicate Absent(j: Option<Json>) {
    j.None? || j.value == Null
  }

  function EnvelopeOf(version: Option<Json>, state: Option<Json>, moves: Option<Json>, result: Option<Json>,
                      error: Option<Json>): Option<Envelope>
  {
    match (AsVersion(version), DecodeOptionalState(state), DecodeMoveList(moves))
    case (Some(v), Some(s), Some(ms)) =>
      if !Absent(result) && Absent(error) then
        var e := Envelope(v, s, ms, result, None);
        if ValidEnvelope(e) then Some(e) else None
      else if Absent(result) && !Absent(error) then
        match DecodePayload(error.value)
        case None => None
        case Some(payload) =>
          var e := Envelope(v, s, ms, None, Some(payload));
          if ValidEnvelope(e) then Some(e) else None
      else None
    case _ => None
  }

  function Decode(j: Json): Option<Envelope> {
    match j
    case Obj(ms) =>
      if !OnlyFields(ms, ENVELOPE_FIELDS) then None
      else EnvelopeOf(Get(ms, Name(EnvelopeVersionField)), Get(ms, Name(HandleStateField)),
                      Get(ms, Name(NextMovesField)), Get(ms, Name(ResultField)), Get(ms, Name(ErrorField)))
    case _ => None
  }
}
