/** Theorems about the envelope's encoder and decoder. */
module EnvelopeRoundTrip {
  import opened Wrappers
  import opened SortedMap
  import opened Json
  import opened Wire
  import opened Envelope
  import P = Protocol

  // ----- structures -----

  ghost predicate Distinct(fields: seq<Field>) {
    forall i, j | 0 <= i < j < |fields| :: fields[i] != fields[j]
  }

  lemma RecordGet(fields: seq<Field>, values: seq<Json>, i: nat)
    requires |fields| == |values| && Distinct(fields) && i < |fields|
    ensures Get(Record(fields, values), Name(fields[i])) == Some(values[i])
  {
    hide Name;
    NamesDiffer();
    GetFindsEntry(Record(fields, values), i);
  }

  lemma RecordLacks(fields: seq<Field>, values: seq<Json>, f: Field)
    requires |fields| == |values| && f !in fields
    ensures Get(Record(fields, values), Name(f)) == None
  {
    hide Name;
    NamesDiffer();
    GetIsMember(Record(fields, values), Name(f));
  }

  lemma RecordOnly(fields: seq<Field>, values: seq<Json>, allowed: seq<Field>)
    requires |fields| == |values| && forall i | 0 <= i < |fields| :: fields[i] in allowed
    ensures OnlyFields(Record(fields, values), allowed)
  {
    hide Name;
    var ms := Record(fields, values);
    forall i | 0 <= i < |ms| ensures OneOf(ms[i].key, allowed) {
      var k :| 0 <= k < |allowed| && allowed[k] == fields[i];
    }
  }

  // ----- parts -----

  lemma StateField(s: P.HandleState, i: nat)
    requires i < 7
    ensures Get(Record(STATE_FIELDS, StateValues(s)), Name(STATE_FIELDS[i])) == Some(StateValues(s)[i])
    ensures OnlyFields(Record(STATE_FIELDS, StateValues(s)), STATE_FIELDS)
  {
    hide Name, StateValues, ConnectionText, TransactionText;
    assert |StateValues(s)| == 7 by { StateSize(s); }
    RecordOnly(STATE_FIELDS, StateValues(s), STATE_FIELDS);
    RecordGet(STATE_FIELDS, StateValues(s), i);
  }

  lemma StateSize(s: P.HandleState)
    ensures |StateValues(s)| == |STATE_FIELDS| == 7
  {}

  lemma StateRoundTrip(s: P.HandleState)
    ensures DecodeState(StateJson(s)) == Some(s)
  {
    hide Name, Record, Get, OnlyFields, ConnectionText, TransactionText, ParseConnection, ParseTransaction;
    StateField(s, 0);
    StateField(s, 1);
    StateField(s, 2);
    StateField(s, 3);
    StateField(s, 4);
    StateField(s, 5);
    StateField(s, 6);
    ConnectionRoundTrip(s.connectionStatus);
    TransactionRoundTrip(s.transactionStatus);
  }

  lemma MoveRoundTrip(m: Move)
    ensures DecodeMove(MoveJson(m)) == Some(m)
  {
    hide Name;
    var values := [Str(m.tool), m.arguments, Str(m.guidance)];
    RecordOnly(MOVE_FIELDS, values, MOVE_FIELDS);
    RecordGet(MOVE_FIELDS, values, 0);
    RecordGet(MOVE_FIELDS, values, 1);
    RecordGet(MOVE_FIELDS, values, 2);
  }

  lemma {:induction false} MovesRoundTrip(moves: seq<Move>)
    ensures DecodeMoves(MovesJson(moves)) == Some(moves)
  {
    hide MoveJson, DecodeMove;
    if moves != [] {
      MoveRoundTrip(moves[0]);
      MovesRoundTrip(moves[1..]);
      assert MovesJson(moves)[1..] == MovesJson(moves[1..]) && moves == [moves[0]] + moves[1..];
    }
  }

  lemma PayloadRoundTrip(e: ErrorPayload)
    requires ValidPayload(e)
    ensures DecodePayload(PayloadJson(e)) == Some(e)
  {
    hide Name, Code, Message, ParseCode;
    var values := [Str(Code(e.code)), Str(Message(e.code)), TextOrNull(e.sqlstate), OutcomeJson(e.outcomeUnknown)];
    RecordOnly(PAYLOAD_FIELDS, values, PAYLOAD_FIELDS);
    RecordGet(PAYLOAD_FIELDS, values, 0);
    RecordGet(PAYLOAD_FIELDS, values, 1);
    RecordGet(PAYLOAD_FIELDS, values, 2);
    RecordGet(PAYLOAD_FIELDS, values, 3);
    CodeRoundTrip(e.code, Code(e.code));
  }

  // ----- envelopes -----

  lemma EncodedFields(e: Envelope, f: Field)
    requires ValidEnvelope(e)
    ensures OnlyFields(Encode(e).value.members, ENVELOPE_FIELDS)
    ensures Get(Encode(e).value.members, Name(f)) ==
            match f
            case EnvelopeVersionField => Some(Num(e.version))
            case HandleStateField => Some(OptionalStateJson(e.handleState))
            case NextMovesField => Some(Arr(MovesJson(e.nextMoves)))
            case ResultField => e.result
            case ErrorField => (match e.error case Some(p) => Some(PayloadJson(p)) case None => None)
            case _ => None
  {
    hide Name, ValidMoves, ValidPayload;
    var fields := WrittenFields(e);
    var values := [Num(e.version), OptionalStateJson(e.handleState), Arr(MovesJson(e.nextMoves)),
                   if e.result.Some? then e.result.value else PayloadJson(e.error.value)];
    assert Encode(e).value.members == Record(fields, values);
    RecordOnly(fields, values, ENVELOPE_FIELDS);
    if f in fields {
      var i :| 0 <= i < |fields| && fields[i] == f;
      RecordGet(fields, values, i);
    } else {
      RecordLacks(fields, values, f);
    }
  }

  /** Decoding inverts encoding exactly on the envelopes whose result is not JSON null: a null result is written
      as null and read back as no result. */
  lemma EnvelopeRoundTrip(e: Envelope)
    requires ValidEnvelope(e)
    ensures Decode(Encode(e).value) == if e.result == Some(Null) then None else Some(e)
  {
    hide Name, StateJson, DecodeState, MoveJson, PayloadJson, DecodePayload, P.ValidState, ValidPayload, ValidMoves;
    EncodedFields(e, EnvelopeVersionField);
    EncodedFields(e, HandleStateField);
    EncodedFields(e, NextMovesField);
    EncodedFields(e, ResultField);
    EncodedFields(e, ErrorField);
    MovesRoundTrip(e.nextMoves);
    if e.handleState.Some? {
      StateRoundTrip(e.handleState.value);
      StateIsNotNull(e.handleState.value);
    }
    if e.error.Some? {
      PayloadRoundTrip(e.error.value);
      PayloadIsNotNull(e.error.value);
    }
  }

  /** A valid success with a null result, which the decoder refuses. */
  lemma NullResultRefused()
    ensures var e := Envelope(1, None, [], Some(Null), None); ValidEnvelope(e) && Decode(Encode(e).value) == None
  {
    EnvelopeRoundTrip(Envelope(1, None, [], Some(Null), None));
  }

  lemma StateIsNotNull(s: P.HandleState)
    ensures StateJson(s) != Null
  {}

  lemma PayloadIsNotNull(e: ErrorPayload)
    ensures PayloadJson(e) != Null
  {}

  /** Whatever document is accepted, what comes out is a valid envelope with exactly one outcome, never a null
      one, and encoding it gives a document that decodes to it again. */
  lemma DecodedIsValid(j: Json)
    requires Decode(j).Some?
    ensures var e := Decode(j).value;
            && ValidEnvelope(e) && (e.result.Some? <==> e.error.None?) && e.result != Some(Null)
            && Encode(e).Some? && Decode(Encode(e).value) == Some(e)
  {
    DecodedParts(j);
    EnvelopeRoundTrip(Decode(j).value);
  }

  lemma DecodedParts(j: Json)
    requires Decode(j).Some?
    ensures ValidEnvelope(Decode(j).value) && Decode(j).value.result != Some(Null)
  {
    hide Name, DecodeState, DecodeMoves, DecodePayload, ValidEnvelope, OnlyFields;
  }

  /** The envelopes the decoder can produce are the valid ones without a null result. */
  lemma DecodableExactly(e: Envelope)
    ensures (exists j :: Decode(j) == Some(e)) <==> ValidEnvelope(e) && e.result != Some(Null)
  {
    if ValidEnvelope(e) && e.result != Some(Null) {
      EnvelopeRoundTrip(e);
    }
    if j :| Decode(j) == Some(e) {
      DecodedParts(j);
    }
  }

  // ----- what the server sends -----

  function AdviceMove(handle: string, a: P.Advice): Move {
    Move(ToolName(a.tool), Obj(Record([HandleField], [Str(handle)])), GuidanceText(a.guidance))
  }

  function AdviceMoves(handle: string, advice: seq<P.Advice>): seq<Move> {
    seq(|advice|, i requires 0 <= i < |advice| => AdviceMove(handle, advice[i]))
  }

  /** `handle_state_envelope` */
  function StateEnvelope(s: P.HandleState, result: Json): Envelope {
    Envelope(1, Some(s), AdviceMoves(s.handle, P.NextMoves(s)), Some(result), None)
  }

  lemma AdviceIsValid(handle: string, a: P.Advice)
    ensures ValidMove(AdviceMove(handle, a))
  {
    hide Name, ToolName, GuidanceText;
    ToolNotEmpty(a.tool);
    GuidanceNotEmpty(a.guidance);
    assert Distinct([HandleField]);
    RecordGet([HandleField], [Str(handle)], 0);
  }

  /** A success envelope for a handle can be sent exactly when the snapshot in it is consistent. */
  lemma StateEnvelopeValid(s: P.HandleState, result: Json)
    ensures ValidEnvelope(StateEnvelope(s, result)) <==> P.ValidState(s)
  {
    hide Name, ToolName, GuidanceText, P.ValidState, P.NextMoves;
    forall i | 0 <= i < |P.NextMoves(s)| ensures ValidMove(AdviceMove(s.handle, P.NextMoves(s)[i])) {
      AdviceIsValid(s.handle, P.NextMoves(s)[i]);
    }
  }
}
