/** What every step of the registry protocol keeps. */
module RegistrySafety {
  import opened Wrappers
  import HandleId
  import P = Protocol
  import HL = HandleLifecycle
  import opened Registry
  import opened RegistryProtocol

  // ----- the invariant, part by part -----

  /** Admission order is execution order and nothing is lost or repeated: what was accepted is what has been
      answered, then what is being served, then what is queued, then what was dropped with the queue. */
  ghost predicate Conserved(w: Worker) {
    w.accepted == w.completed + InFlight(w.phase) + Tickets(w.queue) + w.lost
  }

  ghost predicate EndingOk(w: Worker) {
    match w.phase
    case Receiving => w.ending == Alive
    case Executing(_, _) => w.ending == Alive
    case Halting(_) => w.ending == Alive
    case Served(_, closing) => w.ending == if closing then ClosedOnRequest else Alive
    case Replied(closing) => w.ending == if closing then ClosedOnRequest else Alive
    case Halted(_, clean) => w.ending.ShutDown? && clean == CleanEnding(w.ending)
    case Leaving => w.ending != Alive
    case Finished => w.ending != Alive
  }

  ghost predicate WorkerOk(w: Worker) {
    && Conserved(w) && EndingOk(w)
    && (w.lost != [] ==> w.phase.Finished?)
    && (w.phase.Finished? ==> w.queue == [])
    && |w.queue| <= w.capacity && w.capacity >= 1
    && (w.answer.Some? ==> (w.phase.Leaving? || w.phase.Finished?) && w.ending.ShutDown?)
    && (w.answer == Some(Verified) ==> CleanEnding(w.ending))
  }

  /** No shutdown request has come near the worker. */
  predicate Unstopped(w: Worker) {
    && |w.queue| == |Tickets(w.queue)|
    && !w.phase.Halting? && !w.phase.Halted? && !w.ending.ShutDown?
  }

  ghost predicate EntryOk(e: Entry, w: Worker, unsent: bool) {
    && e.admitted == Load(w)
    && e.admitted <= e.limit
    && w.capacity == (if e.limit == 0 then 1 else e.limit)
    && (e.published.closed <==> w.ending != Alive)
    && (unsent ==> Unstopped(w))
    && (e.joined ==> w.phase.Finished?)
  }

  ghost predicate OpeningOk(s: System, id: Id)
    requires id in s.opens
  {
    match s.opens[id]
    case Connecting(p) =>
      id in s.reg.pending && s.reg.pending[id].profile == p && id !in s.reg.handles && id !in s.workers
    case Ready(p, limit) =>
      id in s.reg.pending && s.reg.pending[id].profile == p && id !in s.reg.handles
      && id in s.workers && s.workers[id] == NewWorker(limit)
    case Registered => id !in s.reg.pending && id in s.reg.handles && id in s.workers
    case Refused => id in s.reg.pending && id !in s.reg.handles && id in s.workers && s.workers[id].accepted == []
    case Failing => id in s.reg.pending && id !in s.reg.handles && id !in s.workers
    case Over => id !in s.reg.pending && id !in s.reg.handles && (id in s.workers ==> s.workers[id].accepted == [])
  }

  ghost predicate IdsOk(s: System) {
    && (forall k | 0 <= k < |s.issued| :: s.issued[k] == k + 1)
    && s.reg.next == (if |s.issued| < HandleId.U64_MAX then |s.issued| + 1 else HandleId.U64_MAX)
    && (forall id :: id in s.opens <==> 1 <= id <= |s.issued|)
  }

  ghost predicate ThreadsOk(s: System) {
    && (forall id | id in s.reg.handles :: id in s.opens)
    && (forall id | id in s.reg.pending :: id in s.opens)
    && (forall id | id in s.workers :: id in s.opens)
    && (forall id | id in s.opens :: OpeningOk(s, id))
    && (forall id | id in s.workers :: WorkerOk(s.workers[id]))
    && (forall id | id in s.reg.handles :: id in s.workers
          && EntryOk(s.reg.handles[id], s.workers[id], id !in s.sent))
  }

  ghost predicate QuotaOk(s: System) {
    forall p :: InUse(s.reg, p) <= Allowed(s.quota, p)
  }

  ghost predicate LifecycleOk(s: System) {
    && (s.reg.lifecycle == Running <==> s.owner.NoOwner?)
    && (s.reg.lifecycle == Stopped <==> s.owner.Done?)
    && (s.reg.frozen.Some? <==> s.owner.Done?)
    && (s.owner.NoOwner? ==> s.callers == map[])
    && (s.owner.Collecting? ==> s.owner.caller in s.callers)
    && (forall c | c in s.callers && s.callers[c].Returned? :: s.reg.frozen == Some(s.callers[c].report))
    && (forall c | c in s.callers :: s.callers[c].Owning? <==> s.owner.Collecting? && c == s.owner.caller)
  }

  /** A verified row is backed by a joined worker that ended cleanly. */
  ghost predicate Backed(s: System, id: Id) {
    && id in s.reg.handles && s.reg.handles[id].joined
    && id in s.workers && s.workers[id].phase.Finished? && CleanEnding(s.workers[id].ending)
  }

  ghost predicate SnapshotOk(s: System, handles: seq<Id>, opens: seq<Id>) {
    && Lists(handles, s.reg.handles.Keys)
    && (forall i, j | 0 <= i < j < |opens| :: opens[i] < opens[j])
    && (forall id | id in s.reg.pending :: id in opens)
    && (forall id | id in opens :: id in s.opens && id !in s.reg.handles)
  }

  ghost predicate LateOk(s: System, opens: seq<Id>, looked: nat, late: seq<Id>) {
    && looked <= |opens|
    && (forall i, j | 0 <= i < j < |late| :: late[i] < late[j])
    && (forall id | id in late :: id in opens[..looked])
    && (forall k | 0 <= k < looked :: opens[k] in late || opens[k] !in s.reg.pending)
  }

  ghost predicate RowsOk(s: System, handles: seq<Id>, rows: seq<Row>) {
    && |rows| <= |handles|
    && (forall k | 0 <= k < |rows| :: rows[k].handle == handles[k])
    && (forall k | 0 <= k < |rows| :: rows[k].verdict.Verified? ==> Backed(s, rows[k].handle))
  }

  ghost predicate ReportOk(s: System, report: seq<Row>, late: seq<Id>) {
    && StrictlyAscending(report)
    && (forall r | r in report :: r.handle in s.reg.handles || r.handle in late)
    && (forall r | r in report && r.verdict.Verified? :: Backed(s, r.handle))
    && (forall id | id in s.reg.handles :: exists r :: r in report && r.handle == id)
    && (forall id | id in late :: Row(id, Uncertain(PendingOpenStage)) in report)
  }

  /** Shutdown requests go out in handle order, at most one to each handle. */
  ghost predicate SentOk(s: System, handles: seq<Id>, n: nat) {
    n <= |handles| && forall id | id in s.sent :: id in handles[..n]
  }

  ghost predicate OwnerOk(s: System) {
    match s.owner
    case NoOwner => s.sent == {}
    case Collecting(_, handles, opens, rows, stage, looked, late) =>
      && SnapshotOk(s, handles, opens) && RowsOk(s, handles, rows) && LateOk(s, opens, looked, late)
      && SentOk(s, handles, |rows| + if stage == Awaiting then 1 else 0)
      && (stage != NextHandle ==> |rows| < |handles|)
      && (stage == JoiningClosed ==> s.reg.handles[handles[|rows|]].published.closed)
      && (looked > 0 ==> |rows| == |handles|)
    case Done(handles, opens, late) =>
      && SnapshotOk(s, handles, opens) && LateOk(s, opens, |opens|, late)
      && s.reg.frozen.Some? && ReportOk(s, s.reg.frozen.value, late)
  }

  ghost predicate Good(s: System) {
    IdsOk(s) && ThreadsOk(s) && QuotaOk(s) && LifecycleOk(s) && OwnerOk(s)
  }

  // ----- small facts -----

  lemma {:induction false} TicketsAppend(queue: seq<Message>, m: Message)
    ensures Tickets(queue + [m]) == Tickets(queue) + if m.Request? then [m.ticket] else []
  {
    if queue == [] {
      assert queue + [m] == [m] && [m][1..] == [];
    } else {
      TicketsAppend(queue[1..], m);
      assert (queue + [m])[1..] == queue[1..] + [m];
    }
  }

  lemma {:induction false} TicketsAtMost(queue: seq<Message>)
    ensures |Tickets(queue)| <= |queue|
  {
    if queue != [] {
      TicketsAtMost(queue[1..]);
    }
  }

  /** While the registry runs, an admitted request always finds room in its channel, and an open one. */
  lemma AdmittedSendSucceeds(s: System, id: Id)
    requires Good(s) && id in s.reg.handles && s.reg.lifecycle == Running
    requires !s.reg.handles[id].published.closed && s.reg.handles[id].admitted < s.reg.handles[id].limit
    ensures ChannelOf(s.workers[id]) == Room && Admit(s.reg, id, ChannelOf(s.workers[id])) == Admitted
  {
    assert EntryOk(s.reg.handles[id], s.workers[id], true) && WorkerOk(s.workers[id]);
  }

  // ----- steps of one worker -----

  /** Requests accepted and not released: queued, held by the worker, or dropped with the queue. */
  function Load(w: Worker): nat {
    |Tickets(w.queue)| + Held(w.phase) + |w.lost|
  }

  lemma SendKeeps(w: Worker, m: Message)
    requires WorkerOk(w) && ChannelOf(w) == Room
    ensures WorkerOk(Send(w, m)) && Load(Send(w, m)) == Load(w) + if m.Request? then 1 else 0
    ensures m.Request? && Unstopped(w) ==> Unstopped(Send(w, m))
  {
    TicketsAppend(w.queue, m);
    assert w.lost == [];
  }

  lemma TakeKeeps(w: Worker)
    requires WorkerOk(w) && w.phase.Receiving? && w.queue != []
    ensures WorkerOk(Take(w)) && Load(Take(w)) == Load(w)
    ensures Unstopped(w) ==> Unstopped(Take(w))
  {
    TicketsAtMost(w.queue[1..]);
  }

  lemma EndServingKeeps(w: Worker, closing: bool)
    requires WorkerOk(w) && w.phase.Executing?
    ensures WorkerOk(EndServing(w, closing)) && Load(EndServing(w, closing)) == Load(w)
  {}

  lemma AnswerRequestKeeps(w: Worker)
    requires WorkerOk(w) && w.phase.Served?
    ensures WorkerOk(AnswerRequest(w)) && Load(AnswerRequest(w)) == Load(w)
  {
    var t := [w.phase.ticket];
    assert w.completed + t + Tickets(w.queue) + w.lost == (w.completed + t) + [] + Tickets(w.queue) + w.lost;
  }

  lemma DropGuardKeeps(w: Worker)
    requires WorkerOk(w) && w.phase.Replied?
    ensures WorkerOk(DropGuard(w)) && Load(DropGuard(w)) == Load(w) - 1
  {}

  lemma HaltBackendKeeps(w: Worker, before: P.TransactionStatus, rolledBack: bool, after: P.TransactionStatus)
    requires WorkerOk(w) && w.phase.Halting?
    ensures WorkerOk(HaltBackend(w, before, rolledBack, after))
    ensures Load(HaltBackend(w, before, rolledBack, after)) == Load(w)
  {}

  lemma AnswerShutdownKeeps(w: Worker)
    requires WorkerOk(w) && w.phase.Halted?
    ensures WorkerOk(AnswerShutdown(w)) && Load(AnswerShutdown(w)) == Load(w)
  {}

  lemma DropQueueKeeps(w: Worker)
    requires WorkerOk(w) && w.phase.Leaving?
    ensures WorkerOk(DropQueue(w)) && Load(DropQueue(w)) == Load(w)
  {
    assert w.lost == [];
    assert w.completed + [] + Tickets(w.queue) + [] == w.completed + [] + [] + Tickets(w.queue);
  }

  /** A step that changes one worker, and at most admission, publication or joining in its entry. */
  ghost predicate WorkerStep(s: System, s': System, id: Id) {
    && id in s.workers && id in s'.workers
    && s'.workers == s.workers[id := s'.workers[id]]
    && s' == s.(workers := s'.workers, reg := s.reg.(handles := s'.reg.handles))
    && s'.reg.handles.Keys == s.reg.handles.Keys
    && (forall k | k in s.reg.handles && k != id :: s'.reg.handles[k] == s.reg.handles[k])
    && (id in s.reg.handles ==>
          var e, e' := s.reg.handles[id], s'.reg.handles[id];
          && e'.profile == e.profile && e'.limit == e.limit
          && (e.joined ==> e'.joined) && (e.published.closed ==> e'.published.closed))
    && var w, w' := s.workers[id], s'.workers[id];
       && (w.phase.Finished? ==> w'.phase.Finished?) && (w.ending != Alive ==> w'.ending == w.ending)
  }

  lemma WorkerStepThreads(s: System, s': System, id: Id)
    requires ThreadsOk(s) && WorkerStep(s, s', id)
    requires WorkerOk(s'.workers[id])
    requires id in s.reg.handles ==> EntryOk(s'.reg.handles[id], s'.workers[id], id !in s.sent)
    requires id !in s.reg.handles ==> s'.workers[id].accepted == s.workers[id].accepted
    requires s.opens[id].Ready? ==> s'.workers[id] == s.workers[id]
    ensures ThreadsOk(s')
  {
    hide WorkerOk, EntryOk;
    forall k | k in s'.opens ensures OpeningOk(s', k) {
      assert OpeningOk(s, k);
    }
    assert OpeningOk(s, id);
  }

  lemma SameUse(s: RegistryState, s': RegistryState)
    requires s'.pending == s.pending && s'.handles.Keys == s.handles.Keys
    requires forall k | k in s.handles :: s'.handles[k].profile == s.handles[k].profile
    ensures forall p :: InUse(s', p) == InUse(s, p)
  {
    forall p ensures InUse(s', p) == InUse(s, p) {
      assert HandlesOf(s', p) == HandlesOf(s, p);
      assert PendingOf(s', p) == PendingOf(s, p);
    }
  }

  /** Finished workers stay finished and joined ones joined, so rows stay backed. */
  ghost predicate BackingKept(s: System, s': System) {
    forall id | Backed(s, id) :: Backed(s', id)
  }

  lemma OwnerKept(s: System, s': System)
    requires OwnerOk(s) && BackingKept(s, s')
    requires s'.owner == s.owner && s'.sent == s.sent && s'.reg.frozen == s.reg.frozen
    requires s'.reg.handles.Keys == s.reg.handles.Keys && s'.reg.pending.Keys <= s.reg.pending.Keys
    requires s.opens.Keys <= s'.opens.Keys
    requires forall id | id in s.reg.handles && s.reg.handles[id].published.closed :: s'.reg.handles[id].published.closed
    ensures OwnerOk(s')
  {
    if s.owner.Collecting? {
      assert RowsOk(s', s.owner.handles, s.owner.rows);
      assert LateOk(s', s.owner.opens, s.owner.looked, s.owner.late);
      assert SnapshotOk(s', s.owner.handles, s.owner.opens);
      assert SentOk(s', s.owner.handles, |s.owner.rows| + if s.owner.stage == Awaiting then 1 else 0);
    } else if s.owner.Done? {
      assert SnapshotOk(s', s.owner.handles, s.owner.opens);
      assert LateOk(s', s.owner.opens, |s.owner.opens|, s.owner.late);
      assert ReportOk(s', s.reg.frozen.value, s.owner.late);
    }
  }

  lemma WorkerStepOwner(s: System, s': System, id: Id)
    requires OwnerOk(s) && WorkerStep(s, s', id)
    ensures OwnerOk(s')
  {
    OwnerKept(s, s');
  }

  lemma WorkerStepRegistry(s: System, s': System, id: Id)
    requires IdsOk(s) && QuotaOk(s) && LifecycleOk(s) && WorkerStep(s, s', id)
    ensures IdsOk(s') && QuotaOk(s') && LifecycleOk(s')
  {
    SameUse(s.reg, s'.reg);
  }

  lemma WorkerStepKeeps(s: System, s': System, id: Id)
    requires Good(s) && WorkerStep(s, s', id)
    requires WorkerOk(s'.workers[id])
    requires id in s.reg.handles ==> EntryOk(s'.reg.handles[id], s'.workers[id], id !in s.sent)
    requires id !in s.reg.handles ==> s'.workers[id].accepted == s.workers[id].accepted
    requires s.opens[id].Ready? ==> s'.workers[id] == s.workers[id]
    ensures Good(s')
  {
    WorkerStepThreads(s, s', id);
    WorkerStepOwner(s, s', id);
    WorkerStepRegistry(s, s', id);
  }

  /** What is known about one worker before one of its steps. */
  lemma AtWorker(s: System, id: Id)
    requires Good(s) && id in s.workers
    ensures id in s.opens && WorkerOk(s.workers[id])
    ensures id in s.reg.handles ==> EntryOk(s.reg.handles[id], s.workers[id], id !in s.sent)
    ensures id !in s.reg.handles ==> s.workers[id].accepted == []
    ensures s.opens[id].Ready? ==> id !in s.reg.handles && s.workers[id].phase == Receiving && s.workers[id].queue == []
  {
    assert OpeningOk(s, id);
  }

  /** The state with one worker and its entry replaced. */
  function WithWorker(s: System, id: Id, w: Worker, e: Entry): System {
    s.(workers := s.workers[id := w],
       reg := if id in s.reg.handles then s.reg.(handles := s.reg.handles[id := e]) else s.reg)
  }

  function EntryAt(s: System, id: Id): Entry {
    if id in s.reg.handles then s.reg.handles[id] else NewEntry(id, "", HL.GONE, "", 0)
  }

  lemma WithWorkerKeeps(s: System, id: Id, w: Worker, e: Entry)
    requires Good(s) && id in s.workers
    requires s.workers[id].queue != [] || s.workers[id].phase != Receiving || id in s.reg.handles
    requires WorkerOk(w) && EndingKept(s.workers[id], w)
    requires id !in s.reg.handles ==> w.accepted == s.workers[id].accepted
    requires id in s.reg.handles ==> EntryOk(e, w, id !in s.sent) && EntryKept(s.reg.handles[id], e)
    ensures Good(WithWorker(s, id, w, e))
  {
    hide Good, WorkerOk;
    AtWorker(s, id);
    WorkerStepKeeps(s, WithWorker(s, id, w, e), id);
  }

  lemma SameEntry(s: System, id: Id, w: Worker)
    ensures WithWorker(s, id, w, EntryAt(s, id)) == SetWorker(s, id, w)
  {
    if id in s.reg.handles {
      assert s.reg.handles[id := s.reg.handles[id]] == s.reg.handles;
    }
  }

  lemma SetWorkerKeeps(s: System, id: Id, w: Worker)
    requires Good(s) && id in s.workers
    requires s.workers[id].queue != [] || s.workers[id].phase != Receiving || id in s.reg.handles
    requires WorkerOk(w) && EndingKept(s.workers[id], w)
    requires id !in s.reg.handles ==> w.accepted == s.workers[id].accepted
    requires id in s.reg.handles ==> EntryOk(s.reg.handles[id], w, id !in s.sent)
    ensures Good(SetWorker(s, id, w))
  {
    WithWorkerKeeps(s, id, w, EntryAt(s, id));
    SameEntry(s, id, w);
  }

  ghost predicate EndingKept(w: Worker, w': Worker) {
    (w.phase.Finished? ==> w'.phase.Finished?) && (w.ending != Alive ==> w'.ending == w.ending)
  }

  ghost predicate EntryKept(e: Entry, e': Entry) {
    && e'.profile == e.profile && e'.limit == e.limit
    && (e.joined ==> e'.joined) && (e.published.closed ==> e'.published.closed)
  }

  lemma DispatchIs(s: System, id: Id, ticket: nat, op: HL.Operation)
    requires Enabled(s, DispatchStep(id, ticket, op))
    ensures Apply(s, DispatchStep(id, ticket, op)) ==
            WithWorker(s, id, Send(s.workers[id], Request(ticket, op)),
                       s.reg.handles[id].(admitted := s.reg.handles[id].admitted + 1))
    ensures ChannelOf(s.workers[id]) == Room && s.reg.handles[id].admitted < s.reg.handles[id].limit
    ensures s.reg.lifecycle == Running && !s.reg.handles[id].published.closed
  {}

  lemma AdmittedEntry(e: Entry, w: Worker, unsent: bool, ticket: nat, op: HL.Operation)
    requires EntryOk(e, w, unsent) && WorkerOk(w) && ChannelOf(w) == Room && e.admitted < e.limit
    ensures EntryOk(e.(admitted := e.admitted + 1), Send(w, Request(ticket, op)), unsent)
    ensures WorkerOk(Send(w, Request(ticket, op)))
  {
    SendKeeps(w, Request(ticket, op));
  }

  lemma AcceptKeeps(s: System, id: Id, ticket: nat, op: HL.Operation)
    requires Good(s) && id in s.reg.handles && id in s.workers
    requires ChannelOf(s.workers[id]) == Room && s.reg.handles[id].admitted < s.reg.handles[id].limit
    ensures Good(WithWorker(s, id, Send(s.workers[id], Request(ticket, op)),
                            s.reg.handles[id].(admitted := s.reg.handles[id].admitted + 1)))
  {
    hide Good, WorkerOk, EntryOk;
    var w, e := s.workers[id], s.reg.handles[id];
    AtWorker(s, id);
    AdmittedEntry(e, w, id !in s.sent, ticket, op);
    WithWorkerKeeps(s, id, Send(w, Request(ticket, op)), e.(admitted := e.admitted + 1));
  }

  lemma DispatchKeeps(s: System, id: Id, ticket: nat, op: HL.Operation)
    requires Good(s) && Enabled(s, DispatchStep(id, ticket, op))
    ensures Good(Apply(s, DispatchStep(id, ticket, op)))
  {
    hide Good;
    DispatchIs(s, id, ticket, op);
    AcceptKeeps(s, id, ticket, op);
  }

  lemma DequeueKeeps(s: System, id: Id)
    requires Good(s) && Enabled(s, Dequeue(id))
    ensures Good(Apply(s, Dequeue(id)))
  {
    hide Good;
    var w := s.workers[id];
    AtWorker(s, id);
    TakeKeeps(w);
    SetWorkerKeeps(s, id, Take(w));
  }

  lemma ExecuteKeeps(s: System, id: Id, ctx: HL.Context, n: HL.Native, latest: HL.Observation)
    requires Good(s) && Enabled(s, Execute(id, ctx, n, latest))
    ensures Good(Apply(s, Execute(id, ctx, n, latest)))
  {
    hide Good;
    var w, e := s.workers[id], s.reg.handles[id];
    AtWorker(s, id);
    var served := HL.Serve(e.published, w.phase.op, ctx, n, latest);
    var closing := w.phase.op.Close? && served.reply.Success?;
    HL.ServeCloses(e.published, w.phase.op, ctx, n, latest);
    EndServingKeeps(w, closing);
    WithWorkerKeeps(s, id, EndServing(w, closing), e.(published := served.published));
  }

  lemma ReplyKeeps(s: System, id: Id)
    requires Good(s) && Enabled(s, Reply(id))
    ensures Good(Apply(s, Reply(id)))
  {
    hide Good;
    var w := s.workers[id];
    AtWorker(s, id);
    AnswerRequestKeeps(w);
    SetWorkerKeeps(s, id, AnswerRequest(w));
  }

  lemma ReleaseKeeps(s: System, id: Id)
    requires Good(s) && Enabled(s, ReleaseStep(id))
    ensures Good(Apply(s, ReleaseStep(id)))
  {
    hide Good;
    var w, e := s.workers[id], EntryAt(s, id);
    AtWorker(s, id);
    DropGuardKeeps(w);
    var n := if e.admitted == 0 then 0 else e.admitted - 1;
    WithWorkerKeeps(s, id, DropGuard(w), e.(admitted := n));
    assert Apply(s, ReleaseStep(id)) == WithWorker(s, id, DropGuard(w), e.(admitted := n));
  }

  lemma HaltKeeps(s: System, id: Id, before: P.TransactionStatus, rolledBack: bool, after: P.TransactionStatus)
    requires Good(s) && Enabled(s, Halt(id, before, rolledBack, after))
    ensures Good(Apply(s, Halt(id, before, rolledBack, after)))
  {
    hide Good;
    var w, e := s.workers[id], EntryAt(s, id);
    AtWorker(s, id);
    HaltBackendKeeps(w, before, rolledBack, after);
    var w', e' := HaltBackend(w, before, rolledBack, after), e.(published := HL.PublishClosed(e.published));
    WithWorkerKeeps(s, id, w', e');
    assert Apply(s, Halt(id, before, rolledBack, after)) == WithWorker(s, id, w', e');
  }

  lemma AnswerStopKeeps(s: System, id: Id)
    requires Good(s) && Enabled(s, AnswerStop(id))
    ensures Good(Apply(s, AnswerStop(id)))
  {
    hide Good;
    var w := s.workers[id];
    AtWorker(s, id);
    AnswerShutdownKeeps(w);
    SetWorkerKeeps(s, id, AnswerShutdown(w));
  }

  lemma ExitThreadKeeps(s: System, id: Id)
    requires Good(s) && Enabled(s, ExitThread(id))
    ensures Good(Apply(s, ExitThread(id)))
  {
    hide Good;
    var w := s.workers[id];
    AtWorker(s, id);
    DropQueueKeeps(w);
    SetWorkerKeeps(s, id, DropQueue(w));
  }

  // ----- opening -----

  lemma PendingAdded(r: RegistryState, r': RegistryState, id: Id, o: PendingOpen, p: string)
    requires id !in r.pending && r'.pending == r.pending[id := o]
    ensures |PendingOf(r', p)| == |PendingOf(r, p)| + if o.profile == p then 1 else 0
  {
    assert PendingOf(r', p) == PendingOf(r, p) + if o.profile == p then {id} else {};
  }

  lemma PendingRemoved(r: RegistryState, r': RegistryState, id: Id, p: string)
    requires id in r.pending && r'.pending == r.pending - {id}
    ensures |PendingOf(r', p)| == |PendingOf(r, p)| - if r.pending[id].profile == p then 1 else 0
  {
    assert PendingOf(r', p) == PendingOf(r, p) - if r.pending[id].profile == p then {id} else {};
  }

  lemma HandleAdded(r: RegistryState, r': RegistryState, id: Id, e: Entry, p: string)
    requires id !in r.handles && r'.handles == r.handles[id := e]
    ensures |HandlesOf(r', p)| == |HandlesOf(r, p)| + if e.profile == p then 1 else 0
  {
    assert HandlesOf(r', p) == HandlesOf(r, p) + if e.profile == p then {id} else {};
  }

  lemma HandlesSame(r: RegistryState, r': RegistryState, p: string)
    requires r'.handles == r.handles
    ensures HandlesOf(r', p) == HandlesOf(r, p)
  {}

  lemma AtOpening(s: System, id: Id)
    requires ThreadsOk(s) && id in s.opens
    ensures OpeningOk(s, id)
  {}

  lemma ReserveUse(r: RegistryState, quota: Quota, profile: string)
    requires Reserve(r, quota, profile).Ok? && r.next !in r.pending
    ensures forall p :: InUse(Reserve(r, quota, profile).value, p) == InUse(r, p) + if p == profile then 1 else 0
  {
    hide HandlesOf, PendingOf;
    var r' := Reserve(r, quota, profile).value;
    forall p ensures InUse(r', p) == InUse(r, p) + if p == profile then 1 else 0 {
      HandlesSame(r, r', p);
      PendingAdded(r, r', r.next, PendingOpen(profile, false), p);
    }
  }

  lemma ReserveThreads(s: System, profile: string)
    requires IdsOk(s) && ThreadsOk(s) && |s.issued| < HandleId.U64_MAX && Enabled(s, ReserveStep(profile))
    ensures IdsOk(Apply(s, ReserveStep(profile))) && ThreadsOk(Apply(s, ReserveStep(profile)))
  {
    var s' := Apply(s, ReserveStep(profile));
    assert s.reg.next !in s.opens;
    forall k | k in s'.opens ensures OpeningOk(s', k) {
      if k != s.reg.next {
        assert OpeningOk(s, k);
      }
    }
  }

  lemma ReserveKeeps(s: System, profile: string)
    requires Good(s) && |s.issued| < HandleId.U64_MAX && Enabled(s, ReserveStep(profile))
    ensures Good(Apply(s, ReserveStep(profile)))
  {
    ReserveThreads(s, profile);
    assert s.reg.next !in s.opens;
    ReserveUse(s.reg, s.quota, profile);
  }

  lemma ConnectFailsThreads(s: System, id: Id)
    requires ThreadsOk(s) && Enabled(s, ConnectFails(id))
    ensures ThreadsOk(Apply(s, ConnectFails(id)))
  {
    hide WorkerOk, EntryOk;
    var s' := Apply(s, ConnectFails(id));
    forall k | k in s'.opens ensures OpeningOk(s', k) {
      assert OpeningOk(s, k);
    }
  }

  lemma ConnectFailsKeeps(s: System, id: Id)
    requires Good(s) && Enabled(s, ConnectFails(id))
    ensures Good(Apply(s, ConnectFails(id)))
  {
    hide ThreadsOk, OwnerOk;
    ConnectFailsThreads(s, id);
    OwnerKept(s, Apply(s, ConnectFails(id)));
  }

  lemma NewWorkerOk(limit: nat)
    ensures WorkerOk(NewWorker(limit)) && NewWorker(limit).accepted == []
  {}

  lemma NewEntryOk(id: Id, database: string, o: HL.Observation, profile: string, limit: nat, unsent: bool)
    ensures EntryOk(NewEntry(id, database, o, profile, limit), NewWorker(limit), unsent)
  {}

  lemma ConnectSucceedsThreads(s: System, id: Id, limit: nat)
    requires ThreadsOk(s) && Enabled(s, ConnectSucceeds(id, limit))
    ensures ThreadsOk(Apply(s, ConnectSucceeds(id, limit)))
  {
    hide EntryOk, WorkerOk, NewWorker;
    var s' := Apply(s, ConnectSucceeds(id, limit));
    NewWorkerOk(limit);
    assert OpeningOk(s, id);
    forall k | k in s'.opens ensures OpeningOk(s', k) {
      assert OpeningOk(s, k);
    }
  }

  lemma ConnectSucceedsOwner(s: System, id: Id, limit: nat)
    requires OwnerOk(s) && Enabled(s, ConnectSucceeds(id, limit)) && id !in s.workers
    ensures OwnerOk(Apply(s, ConnectSucceeds(id, limit)))
  {
    hide OwnerOk;
    OwnerKept(s, Apply(s, ConnectSucceeds(id, limit)));
  }

  lemma ConnectSucceedsKeeps(s: System, id: Id, limit: nat)
    requires Good(s) && Enabled(s, ConnectSucceeds(id, limit))
    ensures Good(Apply(s, ConnectSucceeds(id, limit)))
  {
    hide ThreadsOk, OwnerOk;
    ConnectSucceedsThreads(s, id, limit);
    AtOpening(s, id);
    ConnectSucceedsOwner(s, id, limit);
  }

  lemma EndOpenQuota(s: System, id: Id)
    requires QuotaOk(s) && id in s.reg.pending
    ensures forall p :: InUse(FinishOpen(s.reg, id), p) <= Allowed(s.quota, p)
  {
    hide HandlesOf, PendingOf;
    var r := FinishOpen(s.reg, id);
    forall p ensures InUse(r, p) <= InUse(s.reg, p) {
      HandlesSame(s.reg, r, p);
      PendingRemoved(s.reg, r, id, p);
    }
  }

  lemma EndOpenThreads(s: System, id: Id)
    requires ThreadsOk(s) && Enabled(s, EndOpen(id))
    ensures ThreadsOk(Apply(s, EndOpen(id)))
  {
    hide WorkerOk, EntryOk;
    var s' := Apply(s, EndOpen(id));
    forall k | k in s'.opens ensures OpeningOk(s', k) {
      assert OpeningOk(s, k);
    }
  }

  lemma EndOpenKeeps(s: System, id: Id)
    requires Good(s) && Enabled(s, EndOpen(id))
    ensures Good(Apply(s, EndOpen(id)))
  {
    hide ThreadsOk, OwnerOk;
    EndOpenThreads(s, id);
    AtOpening(s, id);
    EndOpenQuota(s, id);
    OwnerKept(s, Apply(s, EndOpen(id)));
  }

  lemma PublishQuota(s: System, id: Id, e: Entry)
    requires id in s.reg.pending && id !in s.reg.handles && s.reg.pending[id].profile == e.profile
    requires s.reg.lifecycle == Running
    ensures forall p :: InUse(Publish(s.reg, id, e).value, p) == InUse(s.reg, p)
  {
    hide HandlesOf, PendingOf;
    var r := Publish(s.reg, id, e).value;
    forall p ensures InUse(r, p) == InUse(s.reg, p) {
      HandleAdded(s.reg, r, id, e, p);
      PendingRemoved(s.reg, r, id, p);
    }
  }

  lemma PublishedThreads(s: System, id: Id, database: string, o: HL.Observation)
    requires ThreadsOk(s) && s.reg.lifecycle == Running && Enabled(s, PublishStep(id, database, o))
    ensures ThreadsOk(Apply(s, PublishStep(id, database, o)))
  {
    hide EntryOk, WorkerOk, NewWorker, NewEntry;
    var s' := Apply(s, PublishStep(id, database, o));
    assert OpeningOk(s, id);
    NewEntryOk(id, database, o, s.opens[id].profile, s.opens[id].limit, id !in s.sent);
    forall k | k in s'.opens ensures OpeningOk(s', k) {
      assert OpeningOk(s, k);
    }
  }

  lemma RefusedThreads(s: System, id: Id, database: string, o: HL.Observation)
    requires ThreadsOk(s) && s.reg.lifecycle != Running && Enabled(s, PublishStep(id, database, o))
    ensures ThreadsOk(Apply(s, PublishStep(id, database, o)))
  {
    hide EntryOk, WorkerOk;
    var s' := Apply(s, PublishStep(id, database, o));
    assert OpeningOk(s, id);
    NewWorkerOk(s.opens[id].limit);
    SendKeeps(s.workers[id], Stop(false));
    forall k | k in s'.opens ensures OpeningOk(s', k) {
      assert OpeningOk(s, k);
    }
  }

  lemma RefusedOwner(s: System, id: Id, database: string, o: HL.Observation)
    requires OwnerOk(s) && s.reg.lifecycle != Running && Enabled(s, PublishStep(id, database, o))
    requires id !in s.reg.handles
    ensures OwnerOk(Apply(s, PublishStep(id, database, o)))
  {
    OwnerKept(s, Apply(s, PublishStep(id, database, o)));
  }

  lemma PublishedKeeps(s: System, id: Id, database: string, o: HL.Observation)
    requires Good(s) && s.reg.lifecycle == Running && Enabled(s, PublishStep(id, database, o))
    ensures Good(Apply(s, PublishStep(id, database, o)))
  {
    hide ThreadsOk;
    AtOpening(s, id);
    PublishedThreads(s, id, database, o);
    PublishQuota(s, id, NewEntry(id, database, o, s.opens[id].profile, s.opens[id].limit));
  }

  lemma RefusedKeeps(s: System, id: Id, database: string, o: HL.Observation)
    requires Good(s) && s.reg.lifecycle != Running && Enabled(s, PublishStep(id, database, o))
    ensures Good(Apply(s, PublishStep(id, database, o)))
  {
    hide OwnerOk, ThreadsOk;
    AtOpening(s, id);
    RefusedThreads(s, id, database, o);
    RefusedOwner(s, id, database, o);
    var s' := Apply(s, PublishStep(id, database, o));
    assert s'.reg == s.reg && s'.callers == s.callers && s'.owner == s.owner && s'.issued == s.issued;
  }

  // ----- shutdown -----

  lemma BeginShutdownThreads(s: System, s': System)
    requires ThreadsOk(s) && QuotaOk(s)
    requires s' == s.(reg := BeginShutdown(s.reg), callers := s'.callers, owner := s'.owner)
    ensures ThreadsOk(s') && QuotaOk(s')
  {
    forall k | k in s'.opens ensures OpeningOk(s', k) {
      assert OpeningOk(s, k);
    }
    forall p ensures InUse(s'.reg, p) == InUse(s.reg, p) {
      assert HandlesOf(s'.reg, p) == HandlesOf(s.reg, p);
      assert PendingOf(s'.reg, p) == PendingOf(s.reg, p);
    }
  }

  lemma FirstCallKeeps(s: System, c: nat, handles: seq<Id>, opens: seq<Id>)
    requires Good(s) && Enabled(s, CallShutdown(c, handles, opens)) && s.reg.lifecycle == Running
    ensures Good(Apply(s, CallShutdown(c, handles, opens)))
  {
    hide ThreadsOk, QuotaOk;
    var s' := Apply(s, CallShutdown(c, handles, opens));
    BeginShutdownThreads(s, s');
    forall id | id in opens ensures id in s'.opens && id !in s'.reg.handles {
      PendingIsOpening(s, id);
    }
  }

  lemma PendingIsOpening(s: System, id: Id)
    requires ThreadsOk(s) && id in s.reg.pending
    ensures id in s.opens && id !in s.reg.handles
  {
    assert OpeningOk(s, id);
  }

  lemma LaterCallKeeps(s: System, c: nat, handles: seq<Id>, opens: seq<Id>)
    requires Good(s) && Enabled(s, CallShutdown(c, handles, opens)) && s.reg.lifecycle != Running
    ensures Good(Apply(s, CallShutdown(c, handles, opens)))
  {
    hide ThreadsOk, OwnerOk, QuotaOk;
    var s' := Apply(s, CallShutdown(c, handles, opens));
    ThreadsUntouched(s, s');
    OwnerKept(s, s');
  }

  lemma CallShutdownKeeps(s: System, c: nat, handles: seq<Id>, opens: seq<Id>)
    requires Good(s) && Enabled(s, CallShutdown(c, handles, opens))
    ensures Good(Apply(s, CallShutdown(c, handles, opens)))
  {
    hide Good;
    if s.reg.lifecycle == Running {
      FirstCallKeeps(s, c, handles, opens);
    } else {
      LaterCallKeeps(s, c, handles, opens);
    }
  }

  /** A step of the callers or the owner that leaves registry and threads alone. */
  lemma ThreadsUntouched(s: System, s': System)
    requires IdsOk(s) && ThreadsOk(s) && QuotaOk(s)
    requires s' == s.(callers := s'.callers, owner := s'.owner, sent := s'.sent) && s.sent <= s'.sent
    ensures IdsOk(s') && ThreadsOk(s') && QuotaOk(s')
  {
    forall k | k in s'.opens ensures OpeningOk(s', k) {
      assert OpeningOk(s, k);
    }
  }

  lemma PollReportKeeps(s: System, c: nat)
    requires Good(s) && Enabled(s, PollReport(c))
    ensures Good(Apply(s, PollReport(c)))
  {
    ThreadsUntouched(s, Apply(s, PollReport(c)));
    OwnerKept(s, Apply(s, PollReport(c)));
  }

  lemma AddRowOwner(s: System, verdict: Verdict)
    requires OwnerOk(s) && s.owner.Collecting? && |s.owner.rows| < |s.owner.handles|
    requires verdict.Verified? ==> Backed(s, Current(s))
    ensures OwnerOk(AddRow(s, verdict))
  {
    var s', o := AddRow(s, verdict), s.owner;
    var n := |o.rows|;
    assert SnapshotOk(s', o.handles, o.opens);
    assert forall id | Backed(s, id) :: Backed(s', id);
    assert RowsOk(s', o.handles, s'.owner.rows);
    assert LateOk(s', o.opens, o.looked, o.late);
    assert o.handles[..n + 1] == o.handles[..n] + [o.handles[n]];
    assert SentOk(s', o.handles, n + 1);
  }

  lemma AddRowKeeps(s: System, verdict: Verdict)
    requires Good(s) && s.owner.Collecting? && |s.owner.rows| < |s.owner.handles|
    requires verdict.Verified? ==> Backed(s, Current(s))
    ensures Good(AddRow(s, verdict))
  {
    ThreadsUntouched(s, AddRow(s, verdict));
    AddRowOwner(s, verdict);
  }

  lemma StageOwner(s: System, stage: Collect)
    requires OwnerOk(s) && s.owner.Collecting? && |s.owner.rows| < |s.owner.handles| && s.owner.stage == NextHandle
    requires stage == JoiningClosed ==> s.reg.handles[Current(s)].published.closed
    requires stage != Awaiting
    ensures OwnerOk(s.(owner := s.owner.(stage := stage)))
  {
    var s', o := s.(owner := s.owner.(stage := stage)), s.owner;
    assert SnapshotOk(s', o.handles, o.opens);
    assert forall id | Backed(s, id) :: Backed(s', id);
    assert RowsOk(s', o.handles, o.rows);
    assert LateOk(s', o.opens, o.looked, o.late);
    assert SentOk(s', o.handles, |o.rows|);
  }

  lemma AwaitOwner(s: System, s': System)
    requires OwnerOk(s) && s.owner.Collecting? && |s.owner.rows| < |s.owner.handles| && s.owner.stage == Enqueuing
    requires s' == s.(owner := s.owner.(stage := Awaiting), sent := s.sent + {Current(s)})
    ensures OwnerOk(s')
  {
    var o, n := s.owner, |s.owner.rows|;
    assert SnapshotOk(s', o.handles, o.opens);
    assert forall id | Backed(s, id) :: Backed(s', id);
    assert RowsOk(s', o.handles, o.rows);
    assert LateOk(s', o.opens, o.looked, o.late);
    assert o.handles[..n + 1] == o.handles[..n] + [o.handles[n]];
    assert SentOk(s', o.handles, n + 1);
  }

  lemma CurrentIsRegistered(s: System)
    requires Good(s) && s.owner.Collecting? && |s.owner.rows| < |s.owner.handles|
    ensures Current(s) in s.reg.handles && Current(s) in s.workers && s.reg.lifecycle == Stopping
  {
    assert Current(s) in s.owner.handles;
  }

  lemma OwnerInspectsKeeps(s: System)
    requires Good(s) && Enabled(s, OwnerInspects)
    ensures Good(Apply(s, OwnerInspects))
  {
    CurrentIsRegistered(s);
    ThreadsUntouched(s, Apply(s, OwnerInspects));
    StageOwner(s, if s.reg.handles[Current(s)].published.closed then JoiningClosed else Enqueuing);
  }

  lemma JoinIs(s: System, id: Id)
    requires id in s.reg.handles && id in s.workers
    ensures WithWorker(s, id, s.workers[id], s.reg.handles[id].(joined := true)) == s.(reg := Join(s.reg, id, true))
  {
    assert s.workers[id := s.workers[id]] == s.workers;
  }

  lemma JoinKeeps(s: System, id: Id)
    requires Good(s) && id in s.reg.handles && id in s.workers && s.workers[id].phase.Finished?
    ensures Good(s.(reg := Join(s.reg, id, true)))
  {
    AtWorker(s, id);
    WithWorkerKeeps(s, id, s.workers[id], s.reg.handles[id].(joined := true));
    JoinIs(s, id);
  }

  /** Joining a finished worker and recording its row. */
  lemma JoinRowKeeps(s: System, verdict: Verdict)
    requires Good(s) && s.owner.Collecting? && |s.owner.rows| < |s.owner.handles|
    requires Current(s) in s.workers && s.workers[Current(s)].phase.Finished?
    requires verdict.Verified? ==> CleanEnding(s.workers[Current(s)].ending)
    ensures Good(AddRow(s, verdict).(reg := Join(s.reg, Current(s), true)))
  {
    CurrentIsRegistered(s);
    JoinKeeps(s, Current(s));
    AddRowKeeps(s.(reg := Join(s.reg, Current(s), true)), verdict);
  }

  lemma OwnerJoinsClosedKeeps(s: System)
    requires Good(s) && Enabled(s, OwnerJoinsClosed)
    ensures Good(Apply(s, OwnerJoinsClosed))
  {
    var id := Current(s);
    CurrentIsRegistered(s);
    AtWorker(s, id);
    CurrentUnsent(s);
    JoinRowKeeps(s, Verified);
  }

  lemma CurrentUnsent(s: System)
    requires OwnerOk(s) && s.owner.Collecting? && |s.owner.rows| < |s.owner.handles| && s.owner.stage != Awaiting
    ensures Current(s) !in s.sent
  {
    var n := |s.owner.rows|;
    assert SentOk(s, s.owner.handles, n) && Lists(s.owner.handles, s.reg.handles.Keys);
    forall k | 0 <= k < n ensures s.owner.handles[..n][k] != Current(s) {
      assert s.owner.handles[k] < s.owner.handles[n];
    }
  }

  lemma AwaitKeeps(s: System)
    requires Good(s) && OwnerAt(s, Enqueuing)
    ensures Good(s.(owner := s.owner.(stage := Awaiting), sent := s.sent + {Current(s)}))
  {
    var s' := s.(owner := s.owner.(stage := Awaiting), sent := s.sent + {Current(s)});
    AwaitOwner(s, s');
    ThreadsUntouched(s, s');
  }

  lemma StopSentKeeps(s: System, id: Id)
    requires Good(s) && id in s.reg.handles && id in s.workers && id in s.sent && ChannelOf(s.workers[id]) == Room
    ensures Good(SetWorker(s, id, Send(s.workers[id], Stop(true))))
  {
    AtWorker(s, id);
    SendKeeps(s.workers[id], Stop(true));
    SetWorkerKeeps(s, id, Send(s.workers[id], Stop(true)));
  }

  lemma OwnerSendsKeeps(s: System)
    requires Good(s) && Enabled(s, OwnerSends)
    ensures Good(Apply(s, OwnerSends))
  {
    hide Good;
    var id := Current(s);
    CurrentIsRegistered(s);
    AwaitKeeps(s);
    if s.workers[id].phase.Finished? {
      assert s.workers[id := s.workers[id]] == s.workers;
    } else {
      StopSentKeeps(s.(owner := s.owner.(stage := Awaiting), sent := s.sent + {id}), id);
    }
  }

  lemma OwnerReceivesKeeps(s: System)
    requires Good(s) && Enabled(s, OwnerReceives)
    ensures Good(Apply(s, OwnerReceives))
  {
    var id := Current(s);
    CurrentIsRegistered(s);
    AtWorker(s, id);
    if s.workers[id].phase.Finished? {
      JoinRowKeeps(s, s.workers[id].answer.value);
    } else {
      AddRowKeeps(s, Uncertain(JoinStage));
    }
  }

  lemma OwnerSkipsOpenKeeps(s: System)
    requires Good(s) && Enabled(s, OwnerSkipsOpen)
    ensures Good(Apply(s, OwnerSkipsOpen))
  {
    var s' := Apply(s, OwnerSkipsOpen);
    var looked := s.owner.looked;
    ThreadsUntouched(s, s');
    assert s.owner.opens[..looked + 1] == s.owner.opens[..looked] + [s.owner.opens[looked]];
    OwnerLooks(s, s', s.owner.late);
  }

  lemma OwnerOpenExpiredKeeps(s: System)
    requires Good(s) && Enabled(s, OwnerOpenExpired)
    ensures Good(Apply(s, OwnerOpenExpired))
  {
    hide ThreadsOk;
    var s' := Apply(s, OwnerOpenExpired);
    var looked, opens, late := s.owner.looked, s.owner.opens, s.owner.late;
    ThreadsUntouched(s, s');
    assert opens[..looked + 1] == opens[..looked] + [opens[looked]];
    forall i | 0 <= i < |late| ensures late[i] < opens[looked] {
      assert late[i] in opens[..looked];
    }
    OwnerLooks(s, s', late + [opens[looked]]);
  }

  /** The owner has looked at one more reservation. */
  lemma OwnerLooks(s: System, s': System, late: seq<Id>)
    requires OwnerOk(s) && OwnerAtOpens(s)
    requires s' == s.(owner := s.owner.(looked := s.owner.looked + 1, late := late))
    requires LateOk(s', s.owner.opens, s.owner.looked + 1, late)
    ensures OwnerOk(s')
  {
    assert SnapshotOk(s', s.owner.handles, s.owner.opens);
    assert forall id | Backed(s, id) :: Backed(s', id);
    assert RowsOk(s', s.owner.handles, s.owner.rows);
    assert SentOk(s', s.owner.handles, |s.owner.rows|);
  }

  lemma ReportRows(s: System)
    requires Good(s) && Enabled(s, OwnerFreezes)
    ensures DistinctHandles(s.owner.rows + LateRows(s.owner.late))
    ensures forall r | r in s.owner.rows :: r.handle in s.reg.handles && (r.verdict.Verified? ==> Backed(s, r.handle))
    ensures forall id | id in s.reg.handles :: exists r :: r in s.owner.rows && r.handle == id
  {
    var rows, late := s.owner.rows, s.owner.late;
    forall k | 0 <= k < |late| ensures late[k] in late && late[k] !in s.reg.handles {
      assert late[k] in s.owner.opens[..s.owner.looked];
    }
    forall k | 0 <= k < |rows| ensures rows[k].handle in s.reg.handles {
      assert s.owner.handles[k] in s.owner.handles;
    }
    forall id | id in s.reg.handles ensures exists r :: r in rows && r.handle == id {
      var k :| 0 <= k < |s.owner.handles| && s.owner.handles[k] == id;
      assert rows[k] in rows && rows[k].handle == id;
    }
  }

  lemma LateRowsAre(late: seq<Id>)
    ensures forall id | id in late :: Row(id, Uncertain(PendingOpenStage)) in LateRows(late)
    ensures forall r | r in LateRows(late) :: r.handle in late && !r.verdict.Verified?
  {
    forall id | id in late ensures Row(id, Uncertain(PendingOpenStage)) in LateRows(late) {
      var k :| 0 <= k < |late| && late[k] == id;
      assert LateRows(late)[k] == Row(id, Uncertain(PendingOpenStage));
    }
  }

  lemma ReportIsOk(s: System)
    requires Good(s) && Enabled(s, OwnerFreezes)
    ensures ReportOk(s, SortRows(s.owner.rows + LateRows(s.owner.late)), s.owner.late)
  {
    hide Good, Backed, SortRows, LateRows;
    var rows, late := s.owner.rows, LateRows(s.owner.late);
    ReportRows(s);
    LateRowsAre(s.owner.late);
    SortedStrictly(rows + late);
    forall r ensures r in SortRows(rows + late) <==> r in rows || r in late {
      SortedMembers(rows + late, r);
    }
  }

  lemma OwnerFreezesKeeps(s: System)
    requires Good(s) && Enabled(s, OwnerFreezes)
    ensures Good(Apply(s, OwnerFreezes))
  {
    var s' := Apply(s, OwnerFreezes);
    ReportIsOk(s);
    FrozenThreads(s, s');
    var report := s'.reg.frozen.value;
    assert forall id | Backed(s, id) :: Backed(s', id);
    assert ReportOk(s', report, s.owner.late);
    assert SnapshotOk(s', s.owner.handles, s.owner.opens);
    assert LateOk(s', s.owner.opens, |s.owner.opens|, s.owner.late);
  }

  lemma FrozenThreads(s: System, s': System)
    requires IdsOk(s) && ThreadsOk(s) && QuotaOk(s)
    requires s' == s.(reg := s.reg.(lifecycle := Stopped, frozen := s'.reg.frozen), callers := s'.callers,
                      owner := s'.owner)
    requires s'.owner.Done?
    ensures IdsOk(s') && ThreadsOk(s') && QuotaOk(s')
  {
    forall k | k in s'.opens ensures OpeningOk(s', k) {
      assert OpeningOk(s, k);
    }
    forall p ensures InUse(s'.reg, p) == InUse(s.reg, p) {
      assert HandlesOf(s'.reg, p) == HandlesOf(s.reg, p);
      assert PendingOf(s'.reg, p) == PendingOf(s.reg, p);
    }
  }
}
