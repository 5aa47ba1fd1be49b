/** What became of the connections behind a shutdown report: each verdict is traced back to the step that ended the
    worker. */
module RegistryEndings {
  import opened Wrappers
  import HandleId
  import P = Protocol
  import HL = HandleLifecycle
  import opened Registry
  import opened RegistryProtocol
  import opened RegistrySafety
  import opened RegistryRuns
  import opened RegistryHandles

  // ----- steps that end a worker -----

  /** The step serves a close of the handle, and the client is told that it succeeded. */
  ghost predicate ClosesHandle(s: System, t: Step, id: Id) {
    && Serves(s, t, id) && s.workers[id].phase.op == HL.Close
    && ReplyOf(s, t).Success?
  }

  predicate Halts(t: Step, id: Id) {
    t.Halt? && t.id == id
  }

  /** No transaction was open at the shutdown, or its ROLLBACK was carried out and left the connection idle. */
  predicate LeavesNothingOpen(t: Step)
    requires t.Halt?
  {
    t.before == P.InTransaction || t.before == P.InError ==> t.rolledBack && t.after == P.Idle
  }

  // ----- how a worker ended -----

  lemma OpensAddWorkers(s: System, t: Step, id: Id)
    requires ThreadsOk(s) && Enabled(s, t) && StepOfOpen(t) && id in Apply(s, t).workers
    ensures if id in s.workers then Apply(s, t).workers[id].ending == s.workers[id].ending
                                    && Apply(s, t).workers[id].answer == s.workers[id].answer
            else Apply(s, t).workers[id].ending == Alive && Apply(s, t).workers[id].answer == None
  {
    hide WorkerOk, EntryOk;
    if id in s.opens {
      assert OpeningOk(s, id);
    }
  }

  lemma OwnerAddsNoWorkers(s: System, t: Step, id: Id)
    requires Enabled(s, t) && !StepOfOpen(t) && !StepOfWorker(t)
    ensures id in Apply(s, t).workers <==> id in s.workers
    ensures id in s.workers ==> Apply(s, t).workers[id].ending == s.workers[id].ending
                                && Apply(s, t).workers[id].answer == s.workers[id].answer
  {}

  lemma ServedEnding(s: System, t: Step, id: Id)
    requires Serves(s, t, id) && EndingOk(s.workers[id])
    ensures id in Apply(s, t).workers && s.workers[id].ending == Alive
    ensures Apply(s, t).workers[id].ending == if ClosesHandle(s, t, id) then ClosedOnRequest else Alive
    ensures Apply(s, t).workers[id].answer == s.workers[id].answer
  {}

  lemma HaltedEnding(s: System, t: Step, id: Id)
    requires Enabled(s, t) && Halts(t, id) && EndingOk(s.workers[id])
    ensures id in Apply(s, t).workers && s.workers[id].ending == Alive
    ensures Apply(s, t).workers[id].ending == ShutDown(t.before, t.rolledBack, t.after)
    ensures Apply(s, t).workers[id].answer == s.workers[id].answer
  {}

  lemma OtherEnding(s: System, t: Step, id: Id)
    requires Enabled(s, t) && StepOfWorker(t) && id in Apply(s, t).workers && !Serves(s, t, id) && !Halts(t, id)
    ensures id in s.workers && Apply(s, t).workers[id].ending == s.workers[id].ending
    ensures !(t.AnswerStop? && t.id == id) ==> Apply(s, t).workers[id].answer == s.workers[id].answer
  {}

  lemma KnownWorker(s: System, id: Id)
    requires Good(s) && id in s.workers
    ensures ThreadsOk(s) && WorkerOk(s.workers[id]) && EndingOk(s.workers[id])
  {
    AtWorker(s, id);
  }

  lemma ThreadsOfGood(s: System)
    requires Good(s)
    ensures ThreadsOk(s)
  {}

  lemma EndingStep(s: System, t: Step, s': System, id: Id)
    requires Good(s) && IsStep(s, t, s') && id in s'.workers
    ensures (ClosesHandle(s, t, id) || Halts(t, id)) ==> id in s.workers && s.workers[id].ending == Alive
    ensures s'.workers[id].ending ==
            if Halts(t, id) then ShutDown(t.before, t.rolledBack, t.after)
            else if ClosesHandle(s, t, id) then ClosedOnRequest
            else if id in s.workers then s.workers[id].ending
            else Alive
  {
    ThreadsOfGood(s);
    if id in s.workers {
      KnownWorker(s, id);
    }
    EndingCases(s, t, id);
  }

  lemma EndingCases(s: System, t: Step, id: Id)
    requires ThreadsOk(s) && Enabled(s, t) && id in Apply(s, t).workers
    requires id in s.workers ==> EndingOk(s.workers[id])
    ensures (ClosesHandle(s, t, id) || Halts(t, id)) ==> id in s.workers && s.workers[id].ending == Alive
    ensures Apply(s, t).workers[id].ending ==
            if Halts(t, id) then ShutDown(t.before, t.rolledBack, t.after)
            else if ClosesHandle(s, t, id) then ClosedOnRequest
            else if id in s.workers then s.workers[id].ending
            else Alive
  {
    hide Apply, ThreadsOk, EndingOk, StepOfOpen, StepOfWorker, HL.Serve;
    if Halts(t, id) {
      HaltedEnding(s, t, id);
    } else if Serves(s, t, id) {
      ServedEnding(s, t, id);
    } else if StepOfWorker(t) {
      OtherEnding(s, t, id);
    } else if StepOfOpen(t) {
      OpensAddWorkers(s, t, id);
    } else {
      OwnerAddsNoWorkers(s, t, id);
    }
  }

  /** A step before the `n`-th ended the worker in this way. */
  ghost predicate EndedBy(trace: seq<System>, steps: seq<Step>, n: nat, id: Id, e: Ending)
    requires n <= |steps| <= |trace|
  {
    match e
    case Alive => true
    case ClosedOnRequest => exists j: nat :: j < n && ClosesHandle(trace[j], steps[j], id)
    case ShutDown(before, rolledBack, after) => exists j: nat :: j < n && steps[j] == Halt(id, before, rolledBack, after)
  }

  lemma EndedLater(trace: seq<System>, steps: seq<Step>, n: nat, id: Id, e: Ending)
    requires n < |steps| <= |trace| && EndedBy(trace, steps, n, id, e)
    ensures EndedBy(trace, steps, n + 1, id, e)
  {}

  /** How a worker ended is how one of the steps of the run ended it, and it was halted at most once. */
  lemma {:induction false} EndingHistory(quota: Quota, trace: seq<System>, steps: seq<Step>, i: nat, id: Id)
    requires IsRun(quota, trace, steps) && i < |trace| && |trace[i].issued| <= HandleId.U64_MAX
    requires id in trace[i].workers
    ensures EndedBy(trace, steps, i, id, trace[i].workers[id].ending)
    ensures forall j | 0 <= j < i && Halts(steps[j], id) ::
              trace[i].workers[id].ending == ShutDown(steps[j].before, steps[j].rolledBack, steps[j].after)
  {
    hide IsStep, Good, Halts, ClosesHandle;
    if i > 0 {
      var s, t, s' := trace[i - 1], steps[i - 1], trace[i];
      StepFrame(s, t, s');
      RunIsGood(quota, trace, steps, i - 1);
      EndingStep(s, t, s', id);
      if id in s.workers {
        EndingHistory(quota, trace, steps, i - 1, id);
        EndingGrows(trace, steps, i, id);
      } else {
        NoStepsBefore(quota, trace, steps, i - 1, id);
      }
    }
  }

  lemma EndingGrows(trace: seq<System>, steps: seq<Step>, i: nat, id: Id)
    requires 0 < i <= |steps| < |trace| && id in trace[i - 1].workers && id in trace[i].workers
    requires EndedBy(trace, steps, i - 1, id, trace[i - 1].workers[id].ending)
    requires trace[i].workers[id].ending ==
             if Halts(steps[i - 1], id) then ShutDown(steps[i - 1].before, steps[i - 1].rolledBack, steps[i - 1].after)
             else if ClosesHandle(trace[i - 1], steps[i - 1], id) then ClosedOnRequest
             else trace[i - 1].workers[id].ending
    ensures EndedBy(trace, steps, i, id, trace[i].workers[id].ending)
  {
    hide ClosesHandle;
    EndedLater(trace, steps, i - 1, id, trace[i - 1].workers[id].ending);
  }

  lemma WorkersStay(quota: Quota, trace: seq<System>, steps: seq<Step>, i: nat, j: nat)
    requires IsRun(quota, trace, steps) && i <= j < |trace|
    ensures trace[i].workers.Keys <= trace[j].workers.Keys
  {
    hide IsStep;
    if i < j {
      WorkersStay(quota, trace, steps, i, j - 1);
      StepFrame(trace[j - 1], steps[j - 1], trace[j]);
    }
  }

  lemma NoStepsBefore(quota: Quota, trace: seq<System>, steps: seq<Step>, i: nat, id: Id)
    requires IsRun(quota, trace, steps) && i < |trace| && id !in trace[i].workers
    ensures forall j | 0 <= j < i :: !Halts(steps[j], id)
  {
    forall j | 0 <= j < i ensures !Halts(steps[j], id) {
      assert IsStep(trace[j], steps[j], trace[j + 1]);
      WorkersStay(quota, trace, steps, j, i);
      HaltsItsWorker(trace[j], steps[j], id);
    }
  }

  lemma HaltsItsWorker(s: System, t: Step, id: Id)
    requires Enabled(s, t)
    ensures Halts(t, id) ==> id in s.workers
  {}

  // ----- what a worker answers -----

  predicate OpenLeft(e: Ending) {
    e.ShutDown? && (e.before == P.InTransaction || e.before == P.InError) && !(e.rolledBack && e.after == P.Idle)
  }

  /** A worker answers a shutdown request only after it was shut down, and says whether a transaction was left open. */
  predicate AnswerOk(w: Worker) {
    w.answer.Some? ==>
      w.ending.ShutDown? && w.answer.value == if OpenLeft(w.ending) then Uncertain(RollbackStage) else Verified
  }

  lemma AnsweringIsOk(s: System, t: Step, id: Id)
    requires Enabled(s, t) && t.AnswerStop? && t.id == id && (id in s.workers ==> WorkerOk(s.workers[id]))
    ensures id in s.workers && s.workers[id].answer.None?
    ensures id in Apply(s, t).workers && AnswerOk(Apply(s, t).workers[id])
  {}

  lemma AnswerStep(s: System, t: Step, s': System, id: Id)
    requires Good(s) && IsStep(s, t, s') && id in s'.workers
    requires id in s.workers ==> AnswerOk(s.workers[id])
    ensures AnswerOk(s'.workers[id])
    ensures id in s.workers && s.workers[id].answer.Some? ==> s'.workers[id].answer == s.workers[id].answer
  {
    ThreadsOfGood(s);
    if id in s.workers {
      KnownWorker(s, id);
    }
    EndingStep(s, t, s', id);
    AnswerCases(s, t, id);
  }

  lemma AnswerCases(s: System, t: Step, id: Id)
    requires ThreadsOk(s) && Enabled(s, t) && id in Apply(s, t).workers
    requires id in s.workers ==> EndingOk(s.workers[id]) && WorkerOk(s.workers[id]) && AnswerOk(s.workers[id])
    requires id !in s.workers ==> Apply(s, t).workers[id].ending == Alive
    requires id in s.workers && s.workers[id].ending != Alive ==> Apply(s, t).workers[id].ending == s.workers[id].ending
    ensures AnswerOk(Apply(s, t).workers[id])
    ensures id in s.workers && s.workers[id].answer.Some? ==> Apply(s, t).workers[id].answer == s.workers[id].answer
  {
    hide Apply, ThreadsOk, EndingOk, WorkerOk, StepOfOpen, StepOfWorker, OpenLeft;
    if t.AnswerStop? && t.id == id {
      AnsweringIsOk(s, t, id);
    } else if Halts(t, id) {
      HaltedEnding(s, t, id);
    } else if Serves(s, t, id) {
      ServedEnding(s, t, id);
    } else if StepOfWorker(t) {
      OtherEnding(s, t, id);
    } else if StepOfOpen(t) {
      OpensAddWorkers(s, t, id);
    } else {
      OwnerAddsNoWorkers(s, t, id);
    }
  }

  lemma {:induction false} AnswersAreOk(quota: Quota, trace: seq<System>, steps: seq<Step>, i: nat, id: Id)
    requires IsRun(quota, trace, steps) && i < |trace| && |trace[i].issued| <= HandleId.U64_MAX
    requires id in trace[i].workers
    ensures AnswerOk(trace[i].workers[id])
  {
    hide IsStep, Good, AnswerOk;
    if i > 0 {
      StepFrame(trace[i - 1], steps[i - 1], trace[i]);
      RunIsGood(quota, trace, steps, i - 1);
      if id in trace[i - 1].workers {
        AnswersAreOk(quota, trace, steps, i - 1, id);
      }
      AnswerStep(trace[i - 1], steps[i - 1], trace[i], id);
    }
  }

  // ----- verdicts -----

  /** Whether some shutdown of the handle so far left a transaction open. */
  ghost predicate LeftOpen(steps: seq<Step>, n: nat, id: Id)
    requires n <= |steps|
  {
    exists j: nat :: j < n && Halts(steps[j], id) && !LeavesNothingOpen(steps[j])
  }

  /** A worker that was shut down left a transaction open exactly if the one step that shut it down did. */
  lemma ShutDownHistory(quota: Quota, trace: seq<System>, steps: seq<Step>, i: nat, id: Id)
    requires IsRun(quota, trace, steps) && i < |trace| && |trace[i].issued| <= HandleId.U64_MAX
    requires id in trace[i].workers
    ensures OpenLeft(trace[i].workers[id].ending) <==> LeftOpen(steps, i, id)
  {
    hide IsStep;
    EndingHistory(quota, trace, steps, i, id);
    var e := trace[i].workers[id].ending;
    if OpenLeft(e) {
      var j: nat :| j < i && steps[j] == Halt(id, e.before, e.rolledBack, e.after);
      assert Halts(steps[j], id) && !LeavesNothingOpen(steps[j]);
    }
  }

  lemma BackedEndsClean(s: System, id: Id)
    requires Backed(s, id)
    ensures id in s.workers && s.workers[id].ending != Alive && !OpenLeft(s.workers[id].ending)
  {}

  /** The handle's thread has finished and been joined. */
  predicate JoinedNow(s: System, id: Id) {
    id in s.reg.handles && s.reg.handles[id].joined && id in s.workers && s.workers[id].phase.Finished?
  }

  /** The connection was closed on request, or it was shut down with nothing left open. */
  ghost predicate EndedWell(trace: seq<System>, steps: seq<Step>, n: nat, id: Id)
    requires n <= |steps| <= |trace|
  {
    && (exists j: nat ::
          j < n && (ClosesHandle(trace[j], steps[j], id) || (Halts(steps[j], id) && LeavesNothingOpen(steps[j]))))
    && !LeftOpen(steps, n, id)
  }

  lemma BackedEndedWell(quota: Quota, trace: seq<System>, steps: seq<Step>, i: nat, id: Id)
    requires IsRun(quota, trace, steps) && i < |trace| && |trace[i].issued| <= HandleId.U64_MAX
    requires Backed(trace[i], id)
    ensures EndedWell(trace, steps, i, id)
  {
    hide IsStep, Backed, ClosesHandle;
    BackedEndsClean(trace[i], id);
    EndingHistory(quota, trace, steps, i, id);
    ShutDownHistory(quota, trace, steps, i, id);
    var e := trace[i].workers[id].ending;
    if e.ShutDown? {
      var j: nat :| j < i && steps[j] == Halt(id, e.before, e.rolledBack, e.after);
      assert Halts(steps[j], id) && LeavesNothingOpen(steps[j]);
    }
  }

  lemma ReportedIsBacked(s: System, c: nat, id: Id)
    requires Good(s) && c in s.callers && s.callers[c].Returned? && Row(id, Verified) in s.callers[c].report
    ensures Backed(s, id)
  {}

  /** A handle is reported as verified only if its thread was joined and its connection ended well: it was closed on
      request, or shut down with no transaction open or with a ROLLBACK that left it idle. */
  lemma VerifiedRowMeans(quota: Quota, trace: seq<System>, steps: seq<Step>, i: nat, c: nat, id: Id)
    requires IsRun(quota, trace, steps) && i < |trace| && |trace[i].issued| <= HandleId.U64_MAX
    requires c in trace[i].callers && trace[i].callers[c].Returned?
    requires Row(id, Verified) in trace[i].callers[c].report
    ensures EndedWell(trace, steps, i, id) && JoinedNow(trace[i], id)
  {
    hide IsStep, Good, Backed, EndedWell;
    RunIsGood(quota, trace, steps, i);
    ReportedIsBacked(trace[i], c, id);
    BackedEndedWell(quota, trace, steps, i, id);
    BackedIsJoined(trace[i], id);
  }

  lemma BackedIsJoined(s: System, id: Id)
    requires Backed(s, id)
    ensures JoinedNow(s, id)
  {}

  /** If the whole report is verified, every handle registered at the Stopping step ended well and no open is
      pending. */
  lemma VerifiedReportMeans(quota: Quota, trace: seq<System>, steps: seq<Step>, k: nat, i: nat, c: nat)
    requires IsRun(quota, trace, steps) && k <= i < |trace| && |trace[i].issued| <= HandleId.U64_MAX
    requires trace[k].reg.lifecycle != Running
    requires c in trace[i].callers && trace[i].callers[c].Returned?
    requires forall r | r in trace[i].callers[c].report :: r.verdict == Verified
    ensures trace[i].reg.pending == map[]
    ensures forall id | id in trace[k].reg.handles :: EndedWell(trace, steps, i, id) && JoinedNow(trace[i], id)
  {
    hide IsStep, Backed, EndedWell, JoinedNow;
    VerifiedReportIsSound(quota, trace, steps, k, i, c);
    forall id | id in trace[k].reg.handles ensures EndedWell(trace, steps, i, id) && JoinedNow(trace[i], id) {
      assert Backed(trace[i], id);
      BackedIsJoined(trace[i], id);
      BackedEndedWell(quota, trace, steps, i, id);
    }
  }

  /** What the owner records when it receives an answer of a worker whose thread has finished: verified if no
      shutdown of the handle left a transaction open, and uncertain with the rollback as its stage if one did. */
  lemma ReceivedRowMeans(quota: Quota, trace: seq<System>, steps: seq<Step>, i: nat)
    requires IsRun(quota, trace, steps) && i < |steps| && |trace[i].issued| <= HandleId.U64_MAX
    requires steps[i].OwnerReceives?
    ensures OwnerAt(trace[i], Awaiting) && Current(trace[i]) in trace[i].workers
    ensures trace[i].workers[Current(trace[i])].phase.Finished? ==>
              && trace[i + 1].owner.Collecting?
              && trace[i + 1].owner.rows == trace[i].owner.rows + [Row(Current(trace[i]),
                   if LeftOpen(steps, i, Current(trace[i])) then Uncertain(RollbackStage) else Verified)]
  {
    assert IsStep(trace[i], steps[i], trace[i + 1]);
    hide IsRun, LeftOpen, OpenLeft;
    ReceivesCurrent(trace[i], steps[i], trace[i + 1]);
    hide IsStep;
    var id := Current(trace[i]);
    AnswersAreOk(quota, trace, steps, i, id);
    ShutDownHistory(quota, trace, steps, i, id);
  }

  lemma ReceivesCurrent(s: System, t: Step, s': System)
    requires IsStep(s, t, s') && t.OwnerReceives?
    ensures OwnerAt(s, Awaiting) && Current(s) in s.workers && s.workers[Current(s)].answer.Some?
    ensures s.workers[Current(s)].phase.Finished? ==>
              && s'.owner.Collecting?
              && s'.owner.rows == s.owner.rows + [Row(Current(s), s.workers[Current(s)].answer.value)]
  {}

  // ----- rows that say a rollback failed -----

  ghost predicate RowAnswered(s: System, r: Row) {
    r.verdict == Uncertain(RollbackStage) ==>
      r.handle in s.workers && s.workers[r.handle].answer == Some(Uncertain(RollbackStage))
  }

  ghost predicate RowsAnswered(s: System) {
    match s.owner
    case NoOwner => true
    case Collecting(_, _, _, rows, _, _, _) => forall r | r in rows :: RowAnswered(s, r)
    case Done(_, _, _) => s.reg.frozen.Some? && forall r | r in s.reg.frozen.value :: RowAnswered(s, r)
  }

  ghost predicate AnswersKept(s: System, s': System) {
    forall id | id in s.workers ::
      id in s'.workers && (s.workers[id].answer.Some? ==> s'.workers[id].answer == s.workers[id].answer)
  }

  lemma RowStaysAnswered(s: System, s': System, r: Row)
    requires RowAnswered(s, r) && AnswersKept(s, s')
    ensures RowAnswered(s', r)
  {}

  lemma SameRowsAnswered(s: System, s': System)
    requires RowsAnswered(s) && AnswersKept(s, s')
    requires (s'.owner == s.owner && s'.reg.frozen == s.reg.frozen)
             || (s.owner.Collecting? && s'.owner.Collecting? && s'.owner.rows == s.owner.rows)
    ensures RowsAnswered(s')
  {
    forall r | RowAnswered(s, r) ensures RowAnswered(s', r) {
      RowStaysAnswered(s, s', r);
    }
  }

  lemma NextRowAnswered(s: System, s': System, row: Row)
    requires RowsAnswered(s) && AnswersKept(s, s') && RowAnswered(s, row)
    requires s.owner.Collecting? && s'.owner.Collecting? && s'.owner.rows == s.owner.rows + [row]
    ensures RowsAnswered(s')
  {
    forall r | r in s'.owner.rows ensures RowAnswered(s', r) {
      assert r in s.owner.rows || r == row;
      RowStaysAnswered(s, s', r);
    }
  }

  lemma GivingUpRow(s: System, t: Step) returns (row: Row)
    requires Enabled(s, t) && GivesUp(t)
    ensures s.owner.Collecting? && Apply(s, t).owner.Collecting?
    ensures Apply(s, t).owner.rows == s.owner.rows + [row] && row.verdict != Uncertain(RollbackStage)
  {
    row := Apply(s, t).owner.rows[|s.owner.rows|];
  }

  lemma HandlesRow(s: System, t: Step)
    requires Enabled(s, t) && StepOfHandles(t)
    ensures s.owner.Collecting? && Apply(s, t).owner.Collecting?
    ensures Apply(s, t).owner.rows == s.owner.rows || exists row ::
              Apply(s, t).owner.rows == s.owner.rows + [row] && RowAnswered(s, row)
  {
    if t.OwnerReceives? {
      ReceivedRow(s);
    } else {
      OtherRow(s, t);
    }
  }

  lemma ReceivedRow(s: System)
    requires Enabled(s, OwnerReceives)
    ensures s.owner.Collecting? && Apply(s, OwnerReceives).owner.Collecting?
    ensures exists row ::
              Apply(s, OwnerReceives).owner.rows == s.owner.rows + [row] && RowAnswered(s, row)
  {
    var id := Current(s);
    var finished := s.workers[id].phase.Finished?;
    var row := Row(id, if Joins(s.reg, id, finished) then s.workers[id].answer.value else Uncertain(JoinStage));
    assert RowAnswered(s, row);
    assert Apply(s, OwnerReceives).owner.rows == s.owner.rows + [row];
  }

  lemma OtherRow(s: System, t: Step)
    requires Enabled(s, t) && (t.OwnerInspects? || t.OwnerJoinsClosed? || t.OwnerSends?)
    ensures s.owner.Collecting? && Apply(s, t).owner.Collecting?
    ensures Apply(s, t).owner.rows == s.owner.rows || exists row ::
              Apply(s, t).owner.rows == s.owner.rows + [row] && RowAnswered(s, row)
  {
    var id := Current(s);
    var missing, joined := Row(id, Uncertain(MissingStage)), Row(id, Verified);
    assert RowAnswered(s, missing) && RowAnswered(s, joined);
    assert t.OwnerJoinsClosed? ==> Apply(s, t).owner.rows == s.owner.rows + [joined];
    assert t.OwnerInspects? && id !in s.reg.handles ==> Apply(s, t).owner.rows == s.owner.rows + [missing];
  }

  lemma FrozenRows(s: System, s': System)
    requires Good(s) && Enabled(s, OwnerFreezes) && s' == Apply(s, OwnerFreezes) && RowsAnswered(s)
    ensures RowsAnswered(s')
  {
    var rows, late := s.owner.rows, LateRows(s.owner.late);
    LateRowsAre(s.owner.late);
    forall r | r in SortRows(rows + late) ensures RowAnswered(s', r) {
      SortedMembers(rows + late, r);
    }
  }

  lemma OthersKeepRows(s: System, t: Step)
    requires LifecycleOk(s) && Enabled(s, t) && !GivesUp(t) && !StepOfHandles(t) && !t.OwnerFreezes?
    ensures Apply(s, t).reg.frozen == s.reg.frozen
    ensures if s.owner.NoOwner? && t.CallShutdown? then Apply(s, t).owner.Collecting? && Apply(s, t).owner.rows == []
            else if s.owner.Collecting? then Apply(s, t).owner.Collecting? && Apply(s, t).owner.rows == s.owner.rows
            else Apply(s, t).owner == s.owner
  {}

  lemma RowsStep(s: System, t: Step, s': System)
    requires Good(s) && IsStep(s, t, s') && RowsAnswered(s) && AnswersKept(s, s')
    ensures RowsAnswered(s')
  {
    hide Enabled, Apply, Good, RowAnswered, AnswersKept, GivesUp, StepOfHandles;
    if GivesUp(t) {
      var row := GivingUpRow(s, t);
      NotRollback(s, row);
      NextRowAnswered(s, s', row);
    } else if StepOfHandles(t) {
      HandlesRow(s, t);
      if s'.owner.rows == s.owner.rows {
        SameRowsAnswered(s, s');
      } else {
        var row :| s'.owner.rows == s.owner.rows + [row] && RowAnswered(s, row);
        NextRowAnswered(s, s', row);
      }
    } else if t.OwnerFreezes? {
      FrozenRows(s, s');
    } else {
      LifecycleOfGood(s);
      OthersKeepRows(s, t);
      if !(s.owner.NoOwner? && t.CallShutdown?) {
        SameRowsAnswered(s, s');
      }
    }
  }

  lemma NotRollback(s: System, row: Row)
    requires row.verdict != Uncertain(RollbackStage)
    ensures RowAnswered(s, row)
  {}

  lemma LifecycleOfGood(s: System)
    requires Good(s)
    ensures LifecycleOk(s)
  {}

  lemma {:induction false} RowsAreAnswered(quota: Quota, trace: seq<System>, steps: seq<Step>, i: nat)
    requires IsRun(quota, trace, steps) && i < |trace| && |trace[i].issued| <= HandleId.U64_MAX
    ensures RowsAnswered(trace[i])
  {
    hide IsStep, Good, RowsAnswered, AnswerOk;
    if i == 0 {
      NoRowsYet(quota);
    } else {
      var s, t, s' := trace[i - 1], steps[i - 1], trace[i];
      StepFrame(s, t, s');
      RunIsGood(quota, trace, steps, i - 1);
      RowsAreAnswered(quota, trace, steps, i - 1);
      forall id | id in s.workers
        ensures id in s'.workers && (s.workers[id].answer.Some? ==> s'.workers[id].answer == s.workers[id].answer)
      {
        AnswersAreOk(quota, trace, steps, i - 1, id);
        AnswerStep(s, t, s', id);
      }
      RowsStep(s, t, s');
    }
  }

  lemma NoRowsYet(quota: Quota)
    ensures RowsAnswered(Init(quota))
  {}

  lemma ReturnedRow(s: System, c: nat, r: Row)
    requires Good(s) && RowsAnswered(s) && c in s.callers && s.callers[c].Returned? && r in s.callers[c].report
    ensures RowAnswered(s, r)
  {}

  lemma AnsweredRollback(w: Worker)
    requires AnswerOk(w) && w.answer == Some(Uncertain(RollbackStage))
    ensures OpenLeft(w.ending)
  {}

  /** A row that gives the rollback as its stage means just that: the shutdown of that handle found a transaction open,
      and its ROLLBACK failed or did not leave the connection idle. */
  lemma RollbackRowMeans(quota: Quota, trace: seq<System>, steps: seq<Step>, i: nat, c: nat, id: Id)
    requires IsRun(quota, trace, steps) && i < |trace| && |trace[i].issued| <= HandleId.U64_MAX
    requires c in trace[i].callers && trace[i].callers[c].Returned?
    requires Row(id, Uncertain(RollbackStage)) in trace[i].callers[c].report
    ensures LeftOpen(steps, i, id)
  {
    RunIsGood(quota, trace, steps, i);
    hide IsStep, Good, RowsAnswered, OpenLeft, AnswerOk, LeftOpen;
    RowsAreAnswered(quota, trace, steps, i);
    ReturnedRow(trace[i], c, Row(id, Uncertain(RollbackStage)));
    AnswersAreOk(quota, trace, steps, i, id);
    AnsweredRollback(trace[i].workers[id]);
    ShutDownHistory(quota, trace, steps, i, id);
  }
}
