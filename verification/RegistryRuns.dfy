/** Theorems about every interleaving of the registry protocol. */
module RegistryRuns {
  import HandleId
  import opened Registry
  import opened RegistryProtocol
  import opened RegistrySafety

  ghost predicate IsRun(quota: Quota, trace: seq<System>, steps: seq<Step>) {
    && |trace| == |steps| + 1
    && trace[0] == Init(quota)
    && forall i | 0 <= i < |steps| :: IsStep(trace[i], steps[i], trace[i + 1])
  }

  ghost predicate IsStep(s: System, t: Step, s': System) {
    Enabled(s, t) && s' == Apply(s, t)
  }

  // ----- kinds of steps, and what none of them touches -----

  predicate StepOfOpen(t: Step) {
    t.ReserveStep? || t.ConnectFails? || t.ConnectSucceeds? || t.EndOpen? || t.PublishStep?
  }

  predicate StepOfWorker(t: Step) {
    t.DispatchStep? || t.Dequeue? || t.Execute? || t.Reply? || t.ReleaseStep? || t.Halt? || t.AnswerStop?
    || t.ExitThread?
  }

  /** The owner gives up on the current handle. */
  predicate GivesUp(t: Step) {
    t.OwnerExpired? || t.OwnerJoinExpired? || t.OwnerSendExpired? || t.OwnerAnswerMissing?
  }

  predicate StepOfHandles(t: Step) {
    t.OwnerInspects? || t.OwnerJoinsClosed? || t.OwnerSends? || t.OwnerReceives?
  }

  /** Nothing is forgotten, and from the Stopping step on nothing is added. */
  ghost predicate Frame(s: System, t: Step, s': System) {
    && s'.quota == s.quota && |s.issued| <= |s'.issued|
    && (!t.ReserveStep? ==> s'.issued == s.issued && s'.reg.next == s.reg.next)
    && s.workers.Keys <= s'.workers.Keys && s.reg.handles.Keys <= s'.reg.handles.Keys
    && (!t.PublishStep? || s.reg.lifecycle != Running ==> s'.reg.handles.Keys == s.reg.handles.Keys)
    && (s.reg.lifecycle != Running ==> s'.reg.lifecycle != Running && s'.reg.pending.Keys <= s.reg.pending.Keys)
    && (s.reg.frozen.Some? ==> s'.reg.frozen == s.reg.frozen)
  }

  lemma OpenFrame(s: System, t: Step)
    requires Enabled(s, t) && StepOfOpen(t)
    ensures Frame(s, t, Apply(s, t))
  {}

  lemma WorkerFrame(s: System, t: Step)
    requires Enabled(s, t) && StepOfWorker(t)
    ensures Frame(s, t, Apply(s, t))
  {}

  lemma GivingUpFrame(s: System, t: Step)
    requires Enabled(s, t) && GivesUp(t)
    ensures Frame(s, t, Apply(s, t))
  {}

  lemma JoiningFrame(s: System, t: Step)
    requires Enabled(s, t) && (t.OwnerJoinsClosed? || t.OwnerReceives?)
    ensures Frame(s, t, Apply(s, t))
  {}

  lemma AskingFrame(s: System, t: Step)
    requires Enabled(s, t) && (t.OwnerInspects? || t.OwnerSends?)
    ensures Frame(s, t, Apply(s, t))
  {}

  lemma ReportFrame(s: System, t: Step)
    requires Enabled(s, t) && !StepOfOpen(t) && !StepOfWorker(t) && !GivesUp(t) && !StepOfHandles(t)
    ensures Frame(s, t, Apply(s, t))
  {}

  lemma StepFrame(s: System, t: Step, s': System)
    requires IsStep(s, t, s')
    ensures Frame(s, t, s')
  {
    hide Enabled, Apply, Frame, StepOfOpen, StepOfWorker, GivesUp;
    if StepOfOpen(t) {
      OpenFrame(s, t);
    } else if StepOfWorker(t) {
      WorkerFrame(s, t);
    } else if GivesUp(t) {
      GivingUpFrame(s, t);
    } else if StepOfHandles(t) {
      if t.OwnerJoinsClosed? || t.OwnerReceives? {
        JoiningFrame(s, t);
      } else {
        AskingFrame(s, t);
      }
    } else {
      ReportFrame(s, t);
    }
  }

  // ----- names -----

  function Capped(n: nat): nat {
    if n <= HandleId.U64_MAX then n else HandleId.U64_MAX
  }

  ghost predicate IssuedInOrder(s: System) {
    && (forall k | 0 <= k < |s.issued| :: s.issued[k] == Capped(k + 1))
    && s.reg.next == Capped(|s.issued| + 1)
  }

  lemma IssuedStep(s: System, t: Step, s': System)
    requires IsStep(s, t, s') && IssuedInOrder(s)
    ensures IssuedInOrder(s')
  {
    hide Enabled, Apply, IssuedInOrder;
    if t.ReserveStep? {
      ReserveIssues(s, t, s');
      IssuedAfterReserve(s, s');
    } else {
      StepFrame(s, t, s');
      IssuedKept(s, s');
    }
  }

  lemma ReserveIssues(s: System, t: Step, s': System)
    requires IsStep(s, t, s') && t.ReserveStep?
    ensures s'.issued == s.issued + [s.reg.next] && s'.reg.next == Successor(s.reg.next)
  {}

  lemma IssuedAfterReserve(s: System, s': System)
    requires IssuedInOrder(s)
    requires s'.issued == s.issued + [s.reg.next] && s'.reg.next == Successor(s.reg.next)
    ensures IssuedInOrder(s')
  {}

  lemma IssuedKept(s: System, s': System)
    requires IssuedInOrder(s) && s'.issued == s.issued && s'.reg.next == s.reg.next
    ensures IssuedInOrder(s')
  {}

  lemma {:induction false} IssuedAlways(quota: Quota, trace: seq<System>, steps: seq<Step>, i: nat)
    requires IsRun(quota, trace, steps) && i < |trace|
    ensures IssuedInOrder(trace[i])
  {
    if i > 0 {
      IssuedAlways(quota, trace, steps, i - 1);
      IssuedStep(trace[i - 1], steps[i - 1], trace[i]);
    }
  }

  /** A handle name is never given out twice, in any run, exactly as long as no more than 2^64 - 1 opens
      have been reserved: the counter saturates there. */
  lemma NamesNeverReused(quota: Quota, trace: seq<System>, steps: seq<Step>, i: nat)
    requires IsRun(quota, trace, steps) && i < |trace|
    ensures (forall a, b | 0 <= a < b < |trace[i].issued| :: trace[i].issued[a] != trace[i].issued[b])
            <==> |trace[i].issued| <= HandleId.U64_MAX
  {
    IssuedAlways(quota, trace, steps, i);
    var issued := trace[i].issued;
    if |issued| > HandleId.U64_MAX {
      var m := HandleId.U64_MAX;
      assert issued[m - 1] == issued[m];
    }
  }

  // ----- the invariant in every run -----

  lemma OpenStepKeeps(s: System, t: Step)
    requires Good(s) && Enabled(s, t) && StepOfOpen(t) && |Apply(s, t).issued| <= HandleId.U64_MAX
    ensures Good(Apply(s, t))
  {
    hide Good;
    match t {
      case ReserveStep(profile) => ReserveKeeps(s, profile);
      case ConnectFails(id) => ConnectFailsKeeps(s, id);
      case ConnectSucceeds(id, limit) => ConnectSucceedsKeeps(s, id, limit);
      case EndOpen(id) => EndOpenKeeps(s, id);
      case PublishStep(id, database, o) =>
        if s.reg.lifecycle == Running {
          PublishedKeeps(s, id, database, o);
        } else {
          RefusedKeeps(s, id, database, o);
        }
    }
  }

  lemma WorkerStepIsKept(s: System, t: Step)
    requires Good(s) && Enabled(s, t) && StepOfWorker(t)
    ensures Good(Apply(s, t))
  {
    hide Good;
    match t {
      case DispatchStep(id, ticket, op) => DispatchKeeps(s, id, ticket, op);
      case Dequeue(id) => DequeueKeeps(s, id);
      case Execute(id, ctx, native, latest) => ExecuteKeeps(s, id, ctx, native, latest);
      case Reply(id) => ReplyKeeps(s, id);
      case ReleaseStep(id) => ReleaseKeeps(s, id);
      case Halt(id, before, rolledBack, after) => HaltKeeps(s, id, before, rolledBack, after);
      case AnswerStop(id) => AnswerStopKeeps(s, id);
      case ExitThread(id) => ExitThreadKeeps(s, id);
    }
  }

  lemma GivesUpKeeps(s: System, t: Step)
    requires Good(s) && Enabled(s, t) && GivesUp(t)
    ensures Good(Apply(s, t))
  {
    hide Good;
    match t {
      case OwnerExpired => AddRowKeeps(s, Uncertain(DeadlineStage));
      case OwnerJoinExpired => AddRowKeeps(s, Uncertain(JoinStage));
      case OwnerSendExpired => AddRowKeeps(s, Uncertain(EnqueueStage));
      case OwnerAnswerMissing => AddRowKeeps(s, Uncertain(DeadlineStage));
    }
  }

  lemma HandlesStepKeeps(s: System, t: Step)
    requires Good(s) && Enabled(s, t) && StepOfHandles(t)
    ensures Good(Apply(s, t))
  {
    hide Good;
    match t {
      case OwnerInspects => OwnerInspectsKeeps(s);
      case OwnerJoinsClosed => OwnerJoinsClosedKeeps(s);
      case OwnerSends => OwnerSendsKeeps(s);
      case OwnerReceives => OwnerReceivesKeeps(s);
    }
  }

  lemma ReportStepKeeps(s: System, t: Step)
    requires Good(s) && Enabled(s, t) && !StepOfOpen(t) && !StepOfWorker(t)
    requires !GivesUp(t) && !StepOfHandles(t)
    ensures Good(Apply(s, t))
  {
    hide Good;
    match t {
      case CallShutdown(c, handles, opens) => CallShutdownKeeps(s, c, handles, opens);
      case PollReport(c) => PollReportKeeps(s, c);
      case OwnerSkipsOpen => OwnerSkipsOpenKeeps(s);
      case OwnerOpenExpired => OwnerOpenExpiredKeeps(s);
      case OwnerFreezes => OwnerFreezesKeeps(s);
    }
  }

  lemma StepKeeps(s: System, t: Step, s': System)
    requires Good(s) && IsStep(s, t, s') && |s'.issued| <= HandleId.U64_MAX
    ensures Good(s')
  {
    hide Good, Enabled, Apply, StepOfOpen, StepOfWorker, GivesUp, StepOfHandles;
    if StepOfOpen(t) {
      OpenStepKeeps(s, t);
    } else if StepOfWorker(t) {
      WorkerStepIsKept(s, t);
    } else if GivesUp(t) {
      GivesUpKeeps(s, t);
    } else if StepOfHandles(t) {
      HandlesStepKeeps(s, t);
    } else {
      ReportStepKeeps(s, t);
    }
  }

  lemma InitIsGood(quota: Quota)
    ensures Good(Init(quota))
  {
    var s := Init(quota);
    assert forall p :: HandlesOf(s.reg, p) == {} && PendingOf(s.reg, p) == {};
  }

  /** In every interleaving, every state reached before the names run out satisfies the invariant. */
  lemma {:induction false} RunIsGood(quota: Quota, trace: seq<System>, steps: seq<Step>, i: nat)
    requires IsRun(quota, trace, steps) && i < |trace| && |trace[i].issued| <= HandleId.U64_MAX
    ensures Good(trace[i])
  {
    if i == 0 {
      InitIsGood(quota);
    } else {
      StepFrame(trace[i - 1], steps[i - 1], trace[i]);
      RunIsGood(quota, trace, steps, i - 1);
      StepKeeps(trace[i - 1], steps[i - 1], trace[i]);
    }
  }

  // ----- capacity and admission -----

  lemma QuotaOfGood(s: System, profile: string)
    requires Good(s)
    ensures InUse(s.reg, profile) <= Allowed(s.quota, profile)
    ensures s.reg.handles.Keys !! s.reg.pending.Keys
  {
    forall id | id in s.reg.handles ensures id !in s.reg.pending {
      assert OpeningOk(s, id);
    }
  }

  /** No profile ever has more handles and pending opens than it allows, and an id is never both. */
  lemma QuotaInEveryRun(quota: Quota, trace: seq<System>, steps: seq<Step>, i: nat, profile: string)
    requires IsRun(quota, trace, steps) && i < |trace| && |trace[i].issued| <= HandleId.U64_MAX
    ensures |set id | id in trace[i].reg.handles && trace[i].reg.handles[id].profile == profile|
            + |set id | id in trace[i].reg.pending && trace[i].reg.pending[id].profile == profile|
            <= if profile in quota && quota[profile].Some? then quota[profile].value else 0
    ensures trace[i].reg.handles.Keys !! trace[i].reg.pending.Keys
  {
    hide Good, IsStep, IsRun;
    RunIsGood(quota, trace, steps, i);
    QuotaConstant(quota, trace, steps, i);
    QuotaOfGood(trace[i], profile);
    var reg := trace[i].reg;
    assert (set id | id in reg.handles && reg.handles[id].profile == profile) == HandlesOf(reg, profile);
    assert (set id | id in reg.pending && reg.pending[id].profile == profile) == PendingOf(reg, profile);
  }

  lemma {:induction false} QuotaConstant(quota: Quota, trace: seq<System>, steps: seq<Step>, i: nat)
    requires IsRun(quota, trace, steps) && i < |trace|
    ensures trace[i].quota == quota
  {
    hide IsStep;
    if i > 0 {
      QuotaConstant(quota, trace, steps, i - 1);
      StepFrame(trace[i - 1], steps[i - 1], trace[i]);
    }
  }

  lemma AtHandle(s: System, id: Id)
    requires Good(s) && id in s.reg.handles
    ensures id in s.workers && WorkerOk(s.workers[id])
    ensures EntryOk(s.reg.handles[id], s.workers[id], id !in s.sent)
  {
    hide WorkerOk, EntryOk, OwnerOk, QuotaOk, IdsOk, LifecycleOk, OpeningOk;
  }

  lemma AdmissionOfWorker(e: Entry, w: Worker, unsent: bool)
    requires EntryOk(e, w, unsent) && WorkerOk(w)
    ensures e.admitted <= e.limit && Conserved(w)
    ensures !w.phase.Finished? ==> e.admitted == |Tickets(w.queue)| + Held(w.phase) && w.lost == []
    ensures w.phase.Finished? ==> w.accepted == w.completed + w.lost && e.admitted == |w.lost|
  {
    hide EndingOk, Unstopped;
    if w.phase.Finished? {
      assert w.completed + [] + [] + w.lost == w.completed + w.lost;
    }
  }

  /** While a worker's queue lives, `admitted` counts exactly the requests queued and the one being served,
      within the handle's limit; requests are answered in the order they were admitted, each once, and the
      ones that are not are those dropped, in order, with the queue. */
  lemma AdmissionConserved(quota: Quota, trace: seq<System>, steps: seq<Step>, i: nat, id: Id)
    requires IsRun(quota, trace, steps) && i < |trace| && |trace[i].issued| <= HandleId.U64_MAX
    requires id in trace[i].reg.handles
    ensures id in trace[i].workers
    ensures var e, w := trace[i].reg.handles[id], trace[i].workers[id];
            && e.admitted <= e.limit
            && w.accepted == w.completed + InFlight(w.phase) + Tickets(w.queue) + w.lost
            && (!w.phase.Finished? ==> e.admitted == |Tickets(w.queue)| + Held(w.phase) && w.lost == [])
            && (w.phase.Finished? ==> w.accepted == w.completed + w.lost && e.admitted == |w.lost|)
  {
    hide IsStep, IsRun, Good, WorkerOk, EntryOk;
    RunIsGood(quota, trace, steps, i);
    AtHandle(trace[i], id);
    AdmissionOfWorker(trace[i].reg.handles[id], trace[i].workers[id], id !in trace[i].sent);
  }

  /** An admitted request is never turned away by its channel: neither full nor disconnected. */
  lemma AdmittedIsSent(quota: Quota, trace: seq<System>, steps: seq<Step>, i: nat, id: Id)
    requires IsRun(quota, trace, steps) && i < |trace| && |trace[i].issued| <= HandleId.U64_MAX
    requires id in trace[i].workers
    ensures Admit(trace[i].reg, id, ChannelOf(trace[i].workers[id])) == Admit(trace[i].reg, id, Room)
  {
    RunIsGood(quota, trace, steps, i);
    if Admit(trace[i].reg, id, Room) == Admitted {
      AdmittedSendSucceeds(trace[i], id);
    }
  }

  lemma OpensKeepSnapshots(s: System, t: Step, s': System, id: Id)
    requires IsStep(s, t, s') && id in s.reg.handles && StepOfOpen(t) && !(t.PublishStep? && t.id == id)
    ensures id in s'.reg.handles && s'.reg.handles[id].published == s.reg.handles[id].published
  {}

  lemma WorkersKeepSnapshots(s: System, t: Step, s': System, id: Id)
    requires IsStep(s, t, s') && id in s.reg.handles && StepOfWorker(t)
    requires !(t.Execute? && t.id == id) && !(t.Halt? && t.id == id)
    ensures id in s'.reg.handles && s'.reg.handles[id].published == s.reg.handles[id].published
  {}

  lemma JoiningKeepsSnapshots(s: System, t: Step, s': System, id: Id)
    requires IsStep(s, t, s') && id in s.reg.handles && (t.OwnerReceives? || t.OwnerJoinsClosed?)
    ensures id in s'.reg.handles && s'.reg.handles[id].published == s.reg.handles[id].published
  {}

  lemma GivingUpKeepsSnapshots(s: System, t: Step, s': System, id: Id)
    requires IsStep(s, t, s') && id in s.reg.handles && GivesUp(t)
    ensures id in s'.reg.handles && s'.reg.handles[id].published == s.reg.handles[id].published
  {}

  lemma OthersKeepSnapshots(s: System, t: Step, s': System, id: Id)
    requires IsStep(s, t, s') && id in s.reg.handles && !StepOfOpen(t) && !StepOfWorker(t) && !GivesUp(t)
    requires !t.OwnerReceives? && !t.OwnerJoinsClosed?
    ensures id in s'.reg.handles && s'.reg.handles[id].published == s.reg.handles[id].published
  {}

  /** Only the handle's own worker publishes its snapshot, so it is what the next request finds. */
  lemma PublishedByOwnWorker(s: System, t: Step, s': System, id: Id)
    requires IsStep(s, t, s') && id in s.reg.handles
    requires !(t.Execute? && t.id == id) && !(t.Halt? && t.id == id) && !(t.PublishStep? && t.id == id)
    ensures id in s'.reg.handles && s'.reg.handles[id].published == s.reg.handles[id].published
  {
    hide Enabled, Apply, StepOfOpen, StepOfWorker, GivesUp;
    if StepOfOpen(t) {
      OpensKeepSnapshots(s, t, s', id);
    } else if StepOfWorker(t) {
      WorkersKeepSnapshots(s, t, s', id);
    } else if GivesUp(t) {
      GivingUpKeepsSnapshots(s, t, s', id);
    } else if t.OwnerReceives? || t.OwnerJoinsClosed? {
      JoiningKeepsSnapshots(s, t, s', id);
    } else {
      OthersKeepSnapshots(s, t, s', id);
    }
  }

  // ----- shutdown -----

  /** From the Stopping step on the set of handles is fixed, reservations only go away, and a frozen report
      never changes. */
  lemma {:induction false} NothingNewAfterStopping(quota: Quota, trace: seq<System>, steps: seq<Step>,
                                                   i: nat, j: nat)
    requires IsRun(quota, trace, steps) && i <= j < |trace|
    ensures trace[i].reg.lifecycle != Running ==>
              trace[j].reg.lifecycle != Running && trace[j].reg.handles.Keys == trace[i].reg.handles.Keys
              && trace[j].reg.pending.Keys <= trace[i].reg.pending.Keys
    ensures trace[i].reg.frozen.Some? ==> trace[j].reg.frozen == trace[i].reg.frozen
  {
    if i < j {
      NothingNewAfterStopping(quota, trace, steps, i, j - 1);
      assert IsStep(trace[j - 1], steps[j - 1], trace[j]);
      StepFrame(trace[j - 1], steps[j - 1], trace[j]);
    }
  }

  /** However many callers there are, all of them get one and the same report. */
  lemma OneReport(quota: Quota, trace: seq<System>, steps: seq<Step>, i: nat, j: nat, c: nat, d: nat)
    requires IsRun(quota, trace, steps) && i <= j < |trace| && |trace[j].issued| <= HandleId.U64_MAX
    requires c in trace[i].callers && trace[i].callers[c].Returned?
    requires d in trace[j].callers && trace[j].callers[d].Returned?
    ensures trace[i].callers[c].report == trace[j].callers[d].report
  {
    FewerIssuedBefore(quota, trace, steps, i, j);
    RunIsGood(quota, trace, steps, i);
    RunIsGood(quota, trace, steps, j);
    NothingNewAfterStopping(quota, trace, steps, i, j);
  }

  lemma {:induction false} FewerIssuedBefore(quota: Quota, trace: seq<System>, steps: seq<Step>,
                                             i: nat, j: nat)
    requires IsRun(quota, trace, steps) && i <= j < |trace|
    ensures |trace[i].issued| <= |trace[j].issued|
  {
    hide IsStep;
    if i < j {
      FewerIssuedBefore(quota, trace, steps, i, j - 1);
      StepFrame(trace[j - 1], steps[j - 1], trace[j]);
    }
  }

  ghost predicate AllVerified(report: seq<Row>) {
    forall r | r in report :: r.verdict.Verified?
  }

  /** The report a caller gets is strictly sorted by handle: one row for each handle registered at the
      Stopping step `k`, and one for each reservation whose deadline fired while it was pending. */
  lemma ReportCoversHandles(quota: Quota, trace: seq<System>, steps: seq<Step>, k: nat, i: nat, c: nat)
    requires IsRun(quota, trace, steps) && k <= i < |trace| && |trace[i].issued| <= HandleId.U64_MAX
    requires trace[k].reg.lifecycle != Running
    requires c in trace[i].callers && trace[i].callers[c].Returned?
    ensures trace[i].owner.Done?
    ensures var report, late := trace[i].callers[c].report, trace[i].owner.late;
            && StrictlyAscending(report)
            && (forall id :: (exists r :: r in report && r.handle == id) <==> id in trace[k].reg.handles || id in late)
            && (forall id | id in late :: Row(id, Uncertain(PendingOpenStage)) in report)
  {
    RunIsGood(quota, trace, steps, i);
    NothingNewAfterStopping(quota, trace, steps, k, i);
  }

  /** What a verified report means: every handle registered at the Stopping step was joined after it had
      been closed or had finished a clean shutdown, and no reservation is left. */
  lemma VerifiedReportIsSound(quota: Quota, trace: seq<System>, steps: seq<Step>, k: nat, i: nat, c: nat)
    requires IsRun(quota, trace, steps) && k <= i < |trace| && |trace[i].issued| <= HandleId.U64_MAX
    requires trace[k].reg.lifecycle != Running
    requires c in trace[i].callers && trace[i].callers[c].Returned? && AllVerified(trace[i].callers[c].report)
    ensures trace[i].reg.pending == map[]
    ensures forall id | id in trace[k].reg.handles :: Backed(trace[i], id)
  {
    RunIsGood(quota, trace, steps, i);
    NothingNewAfterStopping(quota, trace, steps, k, i);
    var s := trace[i];
    var report, late, opens := s.reg.frozen.value, s.owner.late, s.owner.opens;
    assert ReportOk(s, report, late) && LateOk(s, opens, |opens|, late) && SnapshotOk(s, s.owner.handles, opens);
    forall id ensures id !in late {
      assert id in late ==> Row(id, Uncertain(PendingOpenStage)) in report;
    }
    assert opens[..|opens|] == opens;
    forall n | 0 <= n < |opens| ensures opens[n] !in s.reg.pending {
      assert opens[n] !in late;
    }
    assert forall id | id in s.reg.pending :: id in opens;
    forall id | id in trace[k].reg.handles ensures Backed(s, id) {
      var r :| r in report && r.handle == id;
    }
  }

  lemma NothingPendingThen(s: System, id: Id)
    requires Good(s) && s.reg.pending == map[] && id in s.workers
    ensures id in s.opens && s.opens[id] == if id in s.reg.handles then Registered else Over
  {
    assert OpeningOk(s, id);
  }

  /** Exactly which workers a verified report speaks of: those of the handles registered at the Stopping step
      have ended cleanly and been joined, and every other worker, of which it says nothing, is that of an open that
      was refused and is over. */
  lemma VerifiedReportSpeaksOf(quota: Quota, trace: seq<System>, steps: seq<Step>, k: nat, i: nat, c: nat)
    requires IsRun(quota, trace, steps) && k <= i < |trace| && |trace[i].issued| <= HandleId.U64_MAX
    requires trace[k].reg.lifecycle != Running
    requires c in trace[i].callers && trace[i].callers[c].Returned? && AllVerified(trace[i].callers[c].report)
    ensures forall id | id in trace[i].workers :: Backed(trace[i], id) <==> id in trace[k].reg.handles
    ensures forall id | id in trace[i].workers && id !in trace[k].reg.handles ::
              id in trace[i].opens && trace[i].opens[id] == Over
  {
    hide IsStep, Good, AllVerified;
    RunIsGood(quota, trace, steps, i);
    NothingNewAfterStopping(quota, trace, steps, k, i);
    VerifiedReportIsSound(quota, trace, steps, k, i, c);
    forall id | id in trace[i].workers && id !in trace[k].reg.handles
      ensures id in trace[i].opens && trace[i].opens[id] == Over
    {
      NothingPendingThen(trace[i], id);
    }
  }
}
