/** The registry, its opens, its workers and several shutdown callers as one state machine.

    One step is one critical section, one channel operation or one backend call of one thread; steps of
    different threads interleave freely. The clock, the backend and the callers are the step's parameters. */
module RegistryProtocol {
  import opened Wrappers
  import HandleId
  import P = Protocol
  import HL = HandleLifecycle
  import opened Registry

  // ----- threads -----

  datatype Message = Request(ticket: nat, op: HL.Operation) | Stop(answered: bool)

  datatype Phase =
    | Receiving
    | Executing(ticket: nat, op: HL.Operation)     // dequeued; the admission guard is held
    | Served(ticket: nat, closing: bool)           // published; not yet answered
    | Replied(closing: bool)                       // answered; the guard is still held
    | Halting(answered: bool)                      // a shutdown request was dequeued
    | Halted(answered: bool, clean: bool)          // the backend is shut down and published as closed
    | Leaving                                      // out of the loop; the queue is about to be dropped
    | Finished

  datatype Ending =
    | Alive
    | ClosedOnRequest
    | ShutDown(before: P.TransactionStatus, rolledBack: bool, after: P.TransactionStatus)

  /** A worker thread and its channel; `accepted`, `completed` and `lost` record tickets in order. */
  datatype Worker = Worker(
    queue: seq<Message>,
    capacity: nat,
    phase: Phase,
    answer: Option<Verdict>,
    ending: Ending,
    accepted: seq<nat>,
    completed: seq<nat>,
    lost: seq<nat>)

  /** How far `connect_and_publish` has come for a reservation. */
  datatype Opening =
    | Connecting(profile: string) | Ready(profile: string, limit: nat) | Registered | Refused | Failing | Over

  datatype Caller = Owning | Waiting | Returned(report: seq<Row>)

  datatype Collect = NextHandle | JoiningClosed | Enqueuing | Awaiting

  /** The shutdown owner: the handles and reservations it found, the rows made so far, how many reservations
      it has looked at, and those of them whose deadline fired while they were pending. */
  datatype Owner =
    | NoOwner
    | Collecting(caller: nat, handles: seq<Id>, opens: seq<Id>, rows: seq<Row>, stage: Collect, looked: nat,
                 late: seq<Id>)
    | Done(handles: seq<Id>, opens: seq<Id>, late: seq<Id>)

  datatype System = System(
    reg: RegistryState,
    quota: Quota,
    issued: seq<Id>,
    opens: map<Id, Opening>,
    workers: map<Id, Worker>,
    callers: map<nat, Caller>,
    owner: Owner,
    sent: set<Id>)  // handles the owner has sent a shutdown request

  function Init(quota: Quota): System {
    System(Registry.EMPTY, quota, [], map[], map[], map[], NoOwner, {})
  }

  // ----- worker bookkeeping -----

  function Tickets(queue: seq<Message>): seq<nat> {
    if queue == [] then []
    else (if queue[0].Request? then [queue[0].ticket] else []) + Tickets(queue[1..])
  }

  function InFlight(phase: Phase): seq<nat> {
    match phase
    case Executing(t, _) => [t]
    case Served(t, _) => [t]
    case _ => []
  }

  /** Whether an admission guard is held. */
  function Held(phase: Phase): nat {
    if phase.Executing? || phase.Served? || phase.Replied? then 1 else 0
  }

  function NewWorker(limit: nat): Worker {
    Worker([], if limit == 0 then 1 else limit, Receiving, None, Alive, [], [], [])
  }

  function ChannelOf(w: Worker): Channel {
    if w.phase.Finished? then Disconnected else if |w.queue| < w.capacity then Room else Full
  }

  /** `LibpqBackend::shutdown`: an open transaction is rolled back, and only a rollback that left the
      connection idle is clean. */
  predicate CleanShutdown(before: P.TransactionStatus, rolledBack: bool, after: P.TransactionStatus) {
    before == P.InTransaction || before == P.InError ==> rolledBack && after == P.Idle
  }

  predicate CleanEnding(e: Ending) {
    match e
    case Alive => false
    case ClosedOnRequest => true
    case ShutDown(before, rolledBack, after) => CleanShutdown(before, rolledBack, after)
  }

  // ----- what one worker does -----

  function Send(w: Worker, m: Message): Worker {
    w.(queue := w.queue + [m], accepted := w.accepted + if m.Request? then [m.ticket] else [])
  }

  function Take(w: Worker): Worker
    requires w.queue != []
  {
    w.(queue := w.queue[1..],
       phase := match w.queue[0] case Request(ticket, op) => Executing(ticket, op) case Stop(a) => Halting(a))
  }

  function EndServing(w: Worker, closing: bool): Worker
    requires w.phase.Executing?
  {
    w.(phase := Served(w.phase.ticket, closing), ending := if closing then ClosedOnRequest else w.ending)
  }

  function AnswerRequest(w: Worker): Worker
    requires w.phase.Served?
  {
    w.(phase := Replied(w.phase.closing), completed := w.completed + [w.phase.ticket])
  }

  function DropGuard(w: Worker): Worker
    requires w.phase.Replied?
  {
    w.(phase := if w.phase.closing then Leaving else Receiving)
  }

  function HaltBackend(w: Worker, before: P.TransactionStatus, rolledBack: bool, after: P.TransactionStatus): Worker
    requires w.phase.Halting?
  {
    w.(phase := Halted(w.phase.answered, CleanShutdown(before, rolledBack, after)),
       ending := ShutDown(before, rolledBack, after))
  }

  function AnswerShutdown(w: Worker): Worker
    requires w.phase.Halted?
  {
    w.(phase := Leaving,
       answer := if !w.phase.answered then w.answer
                 else if w.phase.clean then Some(Verified) else Some(Uncertain(RollbackStage)))
  }

  function DropQueue(w: Worker): Worker
    requires w.phase.Leaving?
  {
    w.(phase := Finished, queue := [], lost := Tickets(w.queue))
  }

  // ----- steps -----

  datatype Step =
    | ReserveStep(profile: string)
    | ConnectFails(id: Id)
    | ConnectSucceeds(id: Id, limit: nat)
    | EndOpen(id: Id)
    | PublishStep(id: Id, database: string, observation: HL.Observation)
    | DispatchStep(id: Id, ticket: nat, op: HL.Operation)
    | Dequeue(id: Id)
    | Execute(id: Id, ctx: HL.Context, native: HL.Native, latest: HL.Observation)
    | Reply(id: Id)
    | ReleaseStep(id: Id)
    | Halt(id: Id, before: P.TransactionStatus, rolledBack: bool, after: P.TransactionStatus)
    | AnswerStop(id: Id)
    | ExitThread(id: Id)
    | CallShutdown(caller: nat, handles: seq<Id>, opens: seq<Id>)
    | PollReport(caller: nat)
    | OwnerExpired
    | OwnerInspects
    | OwnerJoinsClosed
    | OwnerJoinExpired
    | OwnerSends
    | OwnerSendExpired
    | OwnerReceives
    | OwnerAnswerMissing
    | OwnerSkipsOpen
    | OwnerOpenExpired
    | OwnerFreezes

  predicate InPhase(s: System, id: Id, phase: Phase) {
    id in s.workers && s.workers[id].phase == phase
  }

  predicate OwnerAt(s: System, stage: Collect) {
    s.owner.Collecting? && s.owner.stage == stage && |s.owner.rows| < |s.owner.handles|
  }

  function Current(s: System): Id
    requires s.owner.Collecting? && |s.owner.rows| < |s.owner.handles|
  {
    s.owner.handles[|s.owner.rows|]
  }

  /** The owner has a row for every handle and still has reservations to look at. */
  predicate OwnerAtOpens(s: System) {
    s.owner.Collecting? && |s.owner.rows| == |s.owner.handles| && s.owner.looked < |s.owner.opens|
  }

  ghost predicate Enabled(s: System, t: Step) {
    match t
    case ReserveStep(profile) => Reserve(s.reg, s.quota, profile).Ok?
    case ConnectFails(id) => id in s.opens && s.opens[id].Connecting?
    case ConnectSucceeds(id, _) => id in s.opens && s.opens[id].Connecting?
    case EndOpen(id) => id in s.opens && (s.opens[id].Failing? || s.opens[id].Refused?)
    case PublishStep(id, _, o) =>
      id in s.opens && s.opens[id].Ready? && id in s.workers && o.connection == HL.ConnOk && o.transaction == P.Idle
    case DispatchStep(id, _, _) =>
      id in s.workers && id in s.reg.handles && Admit(s.reg, id, ChannelOf(s.workers[id])) == Admitted
    case Dequeue(id) => InPhase(s, id, Receiving) && s.workers[id].queue != []
    case Execute(id, _, _, _) => id in s.workers && s.workers[id].phase.Executing? && id in s.reg.handles
    case Reply(id) => id in s.workers && s.workers[id].phase.Served?
    case ReleaseStep(id) => id in s.workers && s.workers[id].phase.Replied?
    case Halt(id, _, _, _) => id in s.workers && s.workers[id].phase.Halting?
    case AnswerStop(id) => id in s.workers && s.workers[id].phase.Halted?
    case ExitThread(id) => InPhase(s, id, Leaving)
    case CallShutdown(c, handles, opens) =>
      c !in s.callers && Lists(handles, s.reg.handles.Keys) && Lists(opens, s.reg.pending.Keys)
    case PollReport(c) => c in s.callers && s.callers[c] == Waiting && s.reg.frozen.Some?
    case OwnerExpired => OwnerAt(s, NextHandle)
    case OwnerInspects => OwnerAt(s, NextHandle)
    case OwnerJoinsClosed => OwnerAt(s, JoiningClosed) && Current(s) in s.workers && s.workers[Current(s)].phase.Finished?
    case OwnerJoinExpired => OwnerAt(s, JoiningClosed)
    case OwnerSends => OwnerAt(s, Enqueuing) && Current(s) in s.workers && ChannelOf(s.workers[Current(s)]) != Full
    case OwnerSendExpired => OwnerAt(s, Enqueuing)
    case OwnerReceives => OwnerAt(s, Awaiting) && Current(s) in s.workers && s.workers[Current(s)].answer.Some?
    case OwnerAnswerMissing => OwnerAt(s, Awaiting)
    case OwnerSkipsOpen => OwnerAtOpens(s) && s.owner.opens[s.owner.looked] !in s.reg.pending
    case OwnerOpenExpired => OwnerAtOpens(s) && s.owner.opens[s.owner.looked] in s.reg.pending
    case OwnerFreezes =>
      s.owner.Collecting? && |s.owner.rows| == |s.owner.handles| && s.owner.looked == |s.owner.opens|
  }

  function SetWorker(s: System, id: Id, w: Worker): System {
    s.(workers := s.workers[id := w])
  }

  function SetOpening(s: System, id: Id, o: Opening): System {
    s.(opens := s.opens[id := o])
  }

  /** The owner records a row for the current handle and moves on. */
  function AddRow(s: System, verdict: Verdict): System
    requires s.owner.Collecting? && |s.owner.rows| < |s.owner.handles|
  {
    s.(owner := s.owner.(rows := s.owner.rows + [Row(Current(s), verdict)], stage := NextHandle))
  }

  function NewEntry(id: Id, database: string, o: HL.Observation, profile: string, limit: nat): Entry {
    Entry(HL.Published(HandleId.HandleName(id), database, o, false, false, false), profile, limit, 0, false)
  }

  function LateRows(late: seq<Id>): seq<Row> {
    seq(|late|, i requires 0 <= i < |late| => Row(late[i], Uncertain(PendingOpenStage)))
  }

  function Apply(s: System, t: Step): System
    requires Enabled(s, t)
  {
    match t
    case ReserveStep(profile) =>
      SetOpening(s, s.reg.next, Connecting(profile)).(
        reg := Reserve(s.reg, s.quota, profile).value, issued := s.issued + [s.reg.next])
    case ConnectFails(id) => SetOpening(s, id, Failing)
    case ConnectSucceeds(id, limit) =>
      SetWorker(SetOpening(s, id, Ready(s.opens[id].profile, limit)), id, NewWorker(limit))
    case EndOpen(id) => SetOpening(s, id, Over).(reg := FinishOpen(s.reg, id))
    case PublishStep(id, database, o) =>
      var published := Publish(s.reg, id, NewEntry(id, database, o, s.opens[id].profile, s.opens[id].limit));
      if published.Ok? then SetOpening(s, id, Registered).(reg := published.value)
      else SetWorker(SetOpening(s, id, Refused), id, Send(s.workers[id], Stop(false)))
    case DispatchStep(id, ticket, op) =>
      SetWorker(s, id, Send(s.workers[id], Request(ticket, op))).(
        reg := Dispatch(s.reg, id, ChannelOf(s.workers[id])))
    case Dequeue(id) => SetWorker(s, id, Take(s.workers[id]))
    case Execute(id, ctx, native, latest) =>
      var op := s.workers[id].phase.op;
      var served := HL.Serve(s.reg.handles[id].published, op, ctx, native, latest);
      SetWorker(s, id, EndServing(s.workers[id], op.Close? && served.reply.Success?)).(
        reg := SetPublished(s.reg, id, served.published))
    case Reply(id) => SetWorker(s, id, AnswerRequest(s.workers[id]))
    case ReleaseStep(id) => SetWorker(s, id, DropGuard(s.workers[id])).(reg := Release(s.reg, id))
    case Halt(id, before, rolledBack, after) =>
      SetWorker(s, id, HaltBackend(s.workers[id], before, rolledBack, after)).(
        reg := if id in s.reg.handles then SetPublished(s.reg, id, HL.PublishClosed(s.reg.handles[id].published))
               else s.reg)
    case AnswerStop(id) => SetWorker(s, id, AnswerShutdown(s.workers[id]))
    case ExitThread(id) => SetWorker(s, id, DropQueue(s.workers[id]))
    case CallShutdown(c, handles, opens) =>
      if s.reg.frozen.Some? then s.(callers := s.callers[c := Returned(s.reg.frozen.value)])
      else if s.reg.lifecycle != Running then s.(callers := s.callers[c := Waiting])
      else s.(callers := s.callers[c := Owning], reg := BeginShutdown(s.reg),
              owner := Collecting(c, handles, opens, [], NextHandle, 0, []))
    case PollReport(c) => s.(callers := s.callers[c := Returned(s.reg.frozen.value)])
    case OwnerExpired => AddRow(s, Uncertain(DeadlineStage))
    case OwnerInspects =>
      var id := Current(s);
      if id !in s.reg.handles then AddRow(s, Uncertain(MissingStage))
      else s.(owner := s.owner.(stage := if s.reg.handles[id].published.closed then JoiningClosed else Enqueuing))
    case OwnerJoinsClosed => AddRow(s, Verified).(reg := Join(s.reg, Current(s), true))
    case OwnerJoinExpired => AddRow(s, Uncertain(JoinStage))
    case OwnerSends =>
      var id := Current(s);
      var w := s.workers[id];
      SetWorker(s, id, if w.phase.Finished? then w else Send(w, Stop(true))).(
        owner := s.owner.(stage := Awaiting), sent := s.sent + {id})
    case OwnerSendExpired => AddRow(s, Uncertain(EnqueueStage))
    case OwnerReceives =>
      var id := Current(s);
      var w := s.workers[id];
      if Joins(s.reg, id, w.phase.Finished?) then
        AddRow(s, w.answer.value).(reg := Join(s.reg, id, w.phase.Finished?))
      else AddRow(s, Uncertain(JoinStage))
    case OwnerAnswerMissing => AddRow(s, Uncertain(DeadlineStage))
    case OwnerSkipsOpen => s.(owner := s.owner.(looked := s.owner.looked + 1))
    case OwnerOpenExpired =>
      s.(owner := s.owner.(looked := s.owner.looked + 1, late := s.owner.late + [s.owner.opens[s.owner.looked]]))
    case OwnerFreezes =>
      var report := SortRows(s.owner.rows + LateRows(s.owner.late));
      var frozen := Freeze(s.reg, report);
      s.(reg := frozen, callers := s.callers[s.owner.caller := Returned(frozen.frozen.value)],
         owner := Done(s.owner.handles, s.owner.opens, s.owner.late))
  }
}
