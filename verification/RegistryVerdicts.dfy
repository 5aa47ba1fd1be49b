/** When a shutdown report is verified: exactly when the owner never gives up and finds every worker that has answered
    already finished. */
module RegistryVerdicts {
  import opened Wrappers
  import HandleId
  import P = Protocol
  import HL = HandleLifecycle
  import opened Registry
  import opened RegistryProtocol
  import opened RegistrySafety
  import opened RegistryRuns
  import RC = RegistryCounterexamples

  // ----- what spoils a report -----

  /** The owner has not given up on a handle or a reservation with this step, and if it has received an answer, it was a
      verified one of a worker whose thread had finished. */
  predicate Prompt(s: System, t: Step) {
    !GivesUp(t) && !t.OwnerOpenExpired? && (t.OwnerReceives? ==> AnsweredAndFinished(s))
  }

  predicate AnsweredAndFinished(s: System) {
    && OwnerAt(s, Awaiting) && Current(s) in s.workers
    && s.workers[Current(s)].answer == Some(Verified) && s.workers[Current(s)].phase.Finished?
  }

  /** Nothing uncertain so far. */
  ghost predicate Unspoiled(s: System) {
    match s.owner
    case NoOwner => true
    case Collecting(_, _, _, rows, _, _, late) => AllVerified(rows) && late == []
    case Done(_, _, _) => s.reg.frozen.Some? && AllVerified(s.reg.frozen.value)
  }

  lemma RowSpoils(s: System, verdict: Verdict)
    requires s.owner.Collecting? && |s.owner.rows| < |s.owner.handles|
    ensures Unspoiled(AddRow(s, verdict)) <==> Unspoiled(s) && verdict.Verified?
  {
    var rows, row := s.owner.rows, Row(Current(s), verdict);
    assert (rows + [row])[|rows|] == row;
    assert forall r | r in rows :: r in rows + [row];
  }

  lemma SameOwnerSameSpoil(s: System, s': System)
    requires s'.owner == s.owner && s'.reg.frozen == s.reg.frozen
    ensures Unspoiled(s') <==> Unspoiled(s)
  {}

  lemma GivingUpSpoils(s: System, t: Step)
    requires Enabled(s, t) && GivesUp(t)
    ensures !Unspoiled(Apply(s, t))
  {
    hide Unspoiled, AddRow;
    match t {
      case OwnerExpired => RowSpoils(s, Uncertain(DeadlineStage));
      case OwnerJoinExpired => RowSpoils(s, Uncertain(JoinStage));
      case OwnerSendExpired => RowSpoils(s, Uncertain(EnqueueStage));
      case OwnerAnswerMissing => RowSpoils(s, Uncertain(DeadlineStage));
    }
  }

  /** The current handle is registered, and is marked as joined only if its thread has finished. */
  lemma CurrentEntry(s: System)
    requires Good(s) && s.owner.Collecting? && |s.owner.rows| < |s.owner.handles|
    ensures Current(s) in s.reg.handles && Current(s) in s.workers
    ensures s.reg.handles[Current(s)].joined ==> s.workers[Current(s)].phase.Finished?
  {
    CurrentIsRegistered(s);
    AtWorker(s, Current(s));
  }

  lemma InspectingSpoilsNothing(s: System)
    requires Good(s) && Enabled(s, OwnerInspects)
    ensures Unspoiled(Apply(s, OwnerInspects)) <==> Unspoiled(s)
  {
    CurrentEntry(s);
  }

  lemma SendingSpoilsNothing(s: System)
    requires Enabled(s, OwnerSends)
    ensures Unspoiled(Apply(s, OwnerSends)) <==> Unspoiled(s)
  {}

  lemma JoiningClosedSpoilsNothing(s: System)
    requires Enabled(s, OwnerJoinsClosed)
    ensures Unspoiled(Apply(s, OwnerJoinsClosed)) <==> Unspoiled(s)
  {
    hide Unspoiled;
    RowSpoils(s, Verified);
    SameOwnerSameSpoil(AddRow(s, Verified), Apply(s, OwnerJoinsClosed));
  }

  lemma ReceivingSpoils(s: System)
    requires Good(s) && Enabled(s, OwnerReceives)
    ensures Unspoiled(Apply(s, OwnerReceives)) <==> Unspoiled(s) && Prompt(s, OwnerReceives)
  {
    hide Good, Unspoiled;
    CurrentEntry(s);
    var verdict := s.workers[Current(s)].answer.value;
    RowSpoils(s, verdict);
    RowSpoils(s, Uncertain(JoinStage));
    if s.workers[Current(s)].phase.Finished? {
      SameOwnerSameSpoil(AddRow(s, verdict), Apply(s, OwnerReceives));
    }
  }

  lemma SkippingSpoilsNothing(s: System)
    requires Enabled(s, OwnerSkipsOpen)
    ensures Unspoiled(Apply(s, OwnerSkipsOpen)) <==> Unspoiled(s)
  {}

  lemma LateOpenSpoils(s: System)
    requires Enabled(s, OwnerOpenExpired)
    ensures !Unspoiled(Apply(s, OwnerOpenExpired))
  {}

  lemma FreezingSpoilsNothing(s: System)
    requires Good(s) && Enabled(s, OwnerFreezes)
    ensures Unspoiled(Apply(s, OwnerFreezes)) <==> Unspoiled(s)
  {
    var rows, late := s.owner.rows, s.owner.late;
    var report := SortRows(rows + LateRows(late));
    LateRowsAre(late);
    assert Apply(s, OwnerFreezes).reg.frozen == Some(report);
    forall r ensures r in report <==> r in rows || r in LateRows(late) {
      SortedMembers(rows + LateRows(late), r);
    }
    if late != [] {
      assert Row(late[0], Uncertain(PendingOpenStage)) in report;
    } else {
      assert LateRows(late) == [];
    }
  }

  lemma OthersSpoilNothing(s: System, t: Step)
    requires LifecycleOk(s) && Enabled(s, t) && (StepOfOpen(t) || StepOfWorker(t) || t.CallShutdown? || t.PollReport?)
    ensures Unspoiled(Apply(s, t)) <==> Unspoiled(s)
  {
    if StepOfOpen(t) || StepOfWorker(t) {
      hide Unspoiled;
      SameOwnerSameSpoil(s, Apply(s, t));
    }
  }

  /** Whether a step keeps the report verified is decided by what the owner finds at that step. */
  lemma StepSpoils(s: System, t: Step, s': System)
    requires Good(s) && IsStep(s, t, s')
    ensures Unspoiled(s') <==> Unspoiled(s) && Prompt(s, t)
  {
    hide Enabled, Apply, Good, LifecycleOk, Unspoiled, AnsweredAndFinished;
    PartsOfGood(s);
    match t {
      case OwnerInspects => InspectingSpoilsNothing(s);
      case OwnerSends => SendingSpoilsNothing(s);
      case OwnerJoinsClosed => JoiningClosedSpoilsNothing(s);
      case OwnerReceives => ReceivingSpoils(s);
      case OwnerSkipsOpen => SkippingSpoilsNothing(s);
      case OwnerOpenExpired => LateOpenSpoils(s);
      case OwnerFreezes => FreezingSpoilsNothing(s);
      case _ =>
        if GivesUp(t) {
          GivingUpSpoils(s, t);
        } else {
          OthersSpoilNothing(s, t);
        }
    }
  }

  lemma PartsOfGood(s: System)
    requires Good(s)
    ensures LifecycleOk(s)
  {}

  lemma {:induction false} UnspoiledSoFar(quota: Quota, trace: seq<System>, steps: seq<Step>, i: nat)
    requires IsRun(quota, trace, steps) && i < |trace| && |trace[i].issued| <= HandleId.U64_MAX
    ensures Unspoiled(trace[i]) <==> forall k | 0 <= k < i :: Prompt(trace[k], steps[k])
  {
    hide IsStep, Prompt, Good;
    if i > 0 {
      StepFrame(trace[i - 1], steps[i - 1], trace[i]);
      RunIsGood(quota, trace, steps, i - 1);
      UnspoiledSoFar(quota, trace, steps, i - 1);
      StepSpoils(trace[i - 1], steps[i - 1], trace[i]);
    }
  }

  lemma ReturnedReport(s: System, c: nat)
    requires Good(s) && c in s.callers && s.callers[c].Returned?
    ensures Unspoiled(s) <==> AllVerified(s.callers[c].report)
  {}

  /** The report is verified exactly when, up to the moment it is returned, the owner has never given up on a handle
      or a reservation and each answer it has received was verified and came from a thread that had finished by
      then. */
  lemma VerifiedExactly(quota: Quota, trace: seq<System>, steps: seq<Step>, i: nat, c: nat)
    requires IsRun(quota, trace, steps) && i < |trace| && |trace[i].issued| <= HandleId.U64_MAX
    requires c in trace[i].callers && trace[i].callers[c].Returned?
    ensures AllVerified(trace[i].callers[c].report) <==> forall k | 0 <= k < i :: Prompt(trace[k], steps[k])
  {
    hide IsStep, Prompt, Good, Unspoiled, AllVerified;
    RunIsGood(quota, trace, steps, i);
    UnspoiledSoFar(quota, trace, steps, i);
    ReturnedReport(trace[i], c);
  }

  // ----- a clean shutdown that is not reported as one -----

  const IDLE: HL.Observation := HL.Observation(HL.ConnOk, P.Idle, false)
  const OPENED: Entry := NewEntry(1, "d", IDLE, "p", 1)
  const CLOSED: Entry := OPENED.(published := HL.PublishClosed(OPENED.published))

  /** One registered handle, and where its shutdown has got to. */
  function ShuttingDown(e: Entry, w: Worker, rows: seq<Row>, stage: Collect, sent: set<Id>): System {
    System(RegistryState(Stopping, map[1 := e], map[], 2, None), RC.ONE_EACH, [1], map[1 := Registered], map[1 := w],
           map[0 := Owning], Collecting(0, [1], [], rows, stage, 0, []), sent)
  }

  predicate OwnerGivesUp(t: Step) {
    GivesUp(t) || t.OwnerOpenExpired?
  }

  lemma Next(trace: seq<System>, steps: seq<Step>, s: System, t: Step, s': System)
    returns (trace': seq<System>, steps': seq<Step>)
    requires IsRun(RC.ONE_EACH, trace, steps) && trace[|steps|] == s && IsStep(s, t, s')
    requires !OwnerGivesUp(t) && forall k | k in steps :: !OwnerGivesUp(k)
    ensures IsRun(RC.ONE_EACH, trace', steps') && trace'[|steps'|] == s'
    ensures forall k | k in steps' :: !OwnerGivesUp(k)
  {
    hide IsStep, IsRun, OwnerGivesUp;
    trace', steps' := RC.Extend(RC.ONE_EACH, trace, steps, s, t, s');
  }

  lemma RunToConnected() returns (trace: seq<System>, steps: seq<Step>)
    ensures IsRun(RC.ONE_EACH, trace, steps) && forall t | t in steps :: !OwnerGivesUp(t)
    ensures trace[|steps|] == Connected()
  {
    var s0, s2 := Init(RC.ONE_EACH), Connected();
    var s1 := s0.(reg := RC.RESERVED, issued := [1], opens := map[1 := Connecting("p")]);
    trace, steps := [s0], [];
    RC.FirstReservation(RC.ONE_EACH, s0, s1);
    assert IsStep(s1, ConnectSucceeds(1, 1), s2);
    hide IsStep, Connected;
    trace, steps := Next(trace, steps, s0, ReserveStep("p"), s1);
    trace, steps := Next(trace, steps, s1, ConnectSucceeds(1, 1), s2);
  }

  function Connected(): System {
    Init(RC.ONE_EACH).(reg := RC.RESERVED, issued := [1], opens := map[1 := Ready("p", 1)], workers := map[1 := NewWorker(1)])
  }

  function Registering(): System {
    Connected().(reg := RegistryState(Running, map[1 := OPENED], map[], 2, None), opens := map[1 := Registered])
  }

  lemma Publishes()
    ensures IsStep(Connected(), PublishStep(1, "d", IDLE), Registering())
  {}

  lemma BeginsShutdown()
    ensures IsStep(Registering(), CallShutdown(0, [1], []), ShuttingDown(OPENED, NewWorker(1), [], NextHandle, {}))
  {}

  lemma Inspects()
    ensures IsStep(ShuttingDown(OPENED, NewWorker(1), [], NextHandle, {}), OwnerInspects,
                   ShuttingDown(OPENED, NewWorker(1), [], Enqueuing, {}))
  {}

  /** The worker with the shutdown request in its queue, then as it serves it, and after it has answered. */
  const ASKED: Worker := NewWorker(1).(queue := [Stop(true)])
  const STOPPING: Worker := NewWorker(1).(phase := Halting(true))
  const ENDED: Worker :=
    NewWorker(1).(phase := Halted(true, true), ending := ShutDown(P.Idle, false, P.Idle))
  const ANSWERED: Worker := ENDED.(phase := Leaving, answer := Some(Verified))

  lemma Sends()
    ensures IsStep(ShuttingDown(OPENED, NewWorker(1), [], Enqueuing, {}), OwnerSends,
                   ShuttingDown(OPENED, ASKED, [], Awaiting, {1}))
  {
    assert Send(NewWorker(1), Stop(true)) == ASKED;
    assert map[1 := NewWorker(1)][1 := ASKED] == map[1 := ASKED];
  }

  lemma Dequeues()
    ensures IsStep(ShuttingDown(OPENED, ASKED, [], Awaiting, {1}), Dequeue(1),
                   ShuttingDown(OPENED, STOPPING, [], Awaiting, {1}))
  {
    assert Take(ASKED) == STOPPING;
  }

  lemma Halts()
    ensures IsStep(ShuttingDown(OPENED, STOPPING, [], Awaiting, {1}), Halt(1, P.Idle, false, P.Idle),
                   ShuttingDown(CLOSED, ENDED, [], Awaiting, {1}))
  {}

  lemma Answers()
    ensures IsStep(ShuttingDown(CLOSED, ENDED, [], Awaiting, {1}), AnswerStop(1),
                   ShuttingDown(CLOSED, ANSWERED, [], Awaiting, {1}))
  {}

  const TOO_EARLY: Row := Row(1, Uncertain(JoinStage))

  lemma Receives()
    ensures IsStep(ShuttingDown(CLOSED, ANSWERED, [], Awaiting, {1}), OwnerReceives,
                   ShuttingDown(CLOSED, ANSWERED, [TOO_EARLY], NextHandle, {1}))
  {
    assert [] + [TOO_EARLY] == [TOO_EARLY] && !CLOSED.joined;
  }

  lemma Freezes() returns (last: System)
    ensures IsStep(ShuttingDown(CLOSED, ANSWERED, [TOO_EARLY], NextHandle, {1}), OwnerFreezes, last)
    ensures last.workers == map[1 := ANSWERED] && last.callers == map[0 := Returned([TOO_EARLY])]
  {
    assert LateRows([]) == [] && [TOO_EARLY] + LateRows([]) == [TOO_EARLY];
    assert [TOO_EARLY][..0] == [] && SortRows([TOO_EARLY]) == [TOO_EARLY];
    last := Apply(ShuttingDown(CLOSED, ANSWERED, [TOO_EARLY], NextHandle, {1}), OwnerFreezes);
  }

  /** A run in which the only handle is shut down cleanly and its worker answers so, and the owner never gives up,
      and yet the report is uncertain: the owner looked for the end of the thread before the thread had got there. */
  lemma CleanShutdownReportedUncertain() returns (trace: seq<System>, steps: seq<Step>)
    ensures IsRun(RC.ONE_EACH, trace, steps) && forall t | t in steps :: !OwnerGivesUp(t)
    ensures var last := trace[|steps|];
            && 0 in last.callers && last.callers[0] == Returned([Row(1, Uncertain(JoinStage))])
            && 1 in last.workers && last.workers[1].answer == Some(Verified) && CleanEnding(last.workers[1].ending)
  {
    hide IsStep, ShuttingDown, Connected, Registering, IsRun;
    var w, none := NewWorker(1), [];
    trace, steps := RunToConnected();
    Publishes();
    trace, steps := Next(trace, steps, Connected(), PublishStep(1, "d", IDLE), Registering());
    BeginsShutdown();
    var s4, s5 := ShuttingDown(OPENED, w, none, NextHandle, {}), ShuttingDown(OPENED, w, none, Enqueuing, {});
    trace, steps := Next(trace, steps, Registering(), CallShutdown(0, [1], []), s4);
    Inspects();
    trace, steps := Next(trace, steps, s4, OwnerInspects, s5);
    Sends();
    var s6, s7 := ShuttingDown(OPENED, ASKED, none, Awaiting, {1}), ShuttingDown(OPENED, STOPPING, none, Awaiting, {1});
    trace, steps := Next(trace, steps, s5, OwnerSends, s6);
    Dequeues();
    trace, steps := Next(trace, steps, s6, Dequeue(1), s7);
    Halts();
    var s8, s9 := ShuttingDown(CLOSED, ENDED, none, Awaiting, {1}), ShuttingDown(CLOSED, ANSWERED, none, Awaiting, {1});
    trace, steps := Next(trace, steps, s7, Halt(1, P.Idle, false, P.Idle), s8);
    Answers();
    trace, steps := Next(trace, steps, s8, AnswerStop(1), s9);
    Receives();
    var s10 := ShuttingDown(CLOSED, ANSWERED, [TOO_EARLY], NextHandle, {1});
    trace, steps := Next(trace, steps, s9, OwnerReceives, s10);
    var s11 := Freezes();
    trace, steps := Next(trace, steps, s10, OwnerFreezes, s11);
  }
}
