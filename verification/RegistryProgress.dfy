/** Shutdown gets somewhere: its owner is never stuck, takes a bounded number of steps whatever the other threads
    do, and every caller can return. */
module RegistryProgress {
  import HandleId
  import opened Registry
  import opened RegistryProtocol
  import opened RegistrySafety
  import opened RegistryRuns

  predicate OwnerStep(t: Step) {
    GivesUp(t) || StepOfHandles(t) || t.OwnerSkipsOpen? || t.OwnerOpenExpired? || t.OwnerFreezes?
  }

  function StagesDone(stage: Collect): nat {
    match stage
    case NextHandle => 0
    case JoiningClosed => 1
    case Enqueuing => 1
    case Awaiting => 2
  }

  /** At most how many steps the owner still takes: three for each handle without a row, one for each reservation it has
      not looked at, and the freezing of the report. */
  function WorkLeft(o: Owner): int {
    if o.Collecting? then 3 * (|o.handles| - |o.rows|) - StagesDone(o.stage) + (|o.opens| - o.looked) + 1 else 0
  }

  lemma WorkLeftAtMost(s: System)
    requires OwnerOk(s) && s.owner.Collecting?
    ensures 1 <= WorkLeft(s.owner) <= 3 * |s.owner.handles| + |s.owner.opens| + 1
  {}

  /** What the owner does where it stands once its deadline has passed. */
  function Expiry(s: System): Step
    requires s.owner.Collecting?
  {
    var o := s.owner;
    if |o.rows| < |o.handles| then
      match o.stage
      case NextHandle => OwnerExpired
      case JoiningClosed => OwnerJoinExpired
      case Enqueuing => OwnerSendExpired
      case Awaiting => OwnerAnswerMissing
    else if o.looked < |o.opens| then
      if o.opens[o.looked] in s.reg.pending then OwnerOpenExpired else OwnerSkipsOpen
    else OwnerFreezes
  }

  /** Whatever the workers and the opens are doing, the owner can go on when its deadline has passed. */
  lemma OwnerNeverStuck(s: System)
    requires OwnerOk(s) && s.owner.Collecting?
    ensures OwnerStep(Expiry(s)) && Enabled(s, Expiry(s))
    ensures !StepOfHandles(Expiry(s)) && !Expiry(s).ReserveStep?
  {}

  lemma RowTakesStages(s: System, verdict: Verdict)
    requires s.owner.Collecting? && |s.owner.rows| < |s.owner.handles|
    ensures AddRow(s, verdict).owner.Collecting? && WorkLeft(AddRow(s, verdict).owner) < WorkLeft(s.owner)
  {}

  lemma StageTaken(s: System, stage: Collect)
    requires s.owner.Collecting? && StagesDone(s.owner.stage) < StagesDone(stage)
    ensures WorkLeft(s.owner.(stage := stage)) < WorkLeft(s.owner)
  {}

  lemma GivingUpIsProgress(s: System, t: Step)
    requires Enabled(s, t) && GivesUp(t)
    ensures Apply(s, t).owner.Collecting? && WorkLeft(Apply(s, t).owner) < WorkLeft(s.owner)
  {
    hide WorkLeft, AddRow;
    match t {
      case OwnerExpired => RowTakesStages(s, Uncertain(DeadlineStage));
      case OwnerJoinExpired => RowTakesStages(s, Uncertain(JoinStage));
      case OwnerSendExpired => RowTakesStages(s, Uncertain(EnqueueStage));
      case OwnerAnswerMissing => RowTakesStages(s, Uncertain(DeadlineStage));
    }
  }

  lemma HandlesStepIsProgress(s: System, t: Step)
    requires Enabled(s, t) && StepOfHandles(t)
    ensures Apply(s, t).owner.Collecting? && WorkLeft(Apply(s, t).owner) < WorkLeft(s.owner)
  {
    hide WorkLeft, AddRow;
    match t {
      case OwnerInspects =>
        if Current(s) in s.reg.handles {
          StageTaken(s, if s.reg.handles[Current(s)].published.closed then JoiningClosed else Enqueuing);
        } else {
          RowTakesStages(s, Uncertain(MissingStage));
        }
      case OwnerJoinsClosed => RowTakesStages(s, Verified);
      case OwnerSends => StageTaken(s, Awaiting);
      case OwnerReceives =>
        RowTakesStages(s, s.workers[Current(s)].answer.value);
        RowTakesStages(s, Uncertain(JoinStage));
    }
  }

  /** Every step of the owner leaves it fewer to take. */
  lemma OwnerProgress(s: System, t: Step)
    requires OwnerOk(s) && Enabled(s, t) && OwnerStep(t)
    ensures s.owner.Collecting? && WorkLeft(Apply(s, t).owner) < WorkLeft(s.owner)
    ensures Apply(s, t).owner.Collecting? || Apply(s, t).owner.Done?
  {
    if GivesUp(t) {
      GivingUpIsProgress(s, t);
    } else if StepOfHandles(t) {
      HandlesStepIsProgress(s, t);
    } else {
      LastStepsAreProgress(s, t);
    }
  }

  lemma LastStepsAreProgress(s: System, t: Step)
    requires OwnerOk(s) && Enabled(s, t) && (t.OwnerSkipsOpen? || t.OwnerOpenExpired? || t.OwnerFreezes?)
    ensures s.owner.Collecting? && WorkLeft(Apply(s, t).owner) < WorkLeft(s.owner)
    ensures Apply(s, t).owner.Collecting? || Apply(s, t).owner.Done?
  {}

  lemma OthersLeaveOwner(s: System, t: Step)
    requires LifecycleOk(s) && Enabled(s, t) && !OwnerStep(t) && !s.owner.NoOwner?
    ensures Apply(s, t).owner == s.owner
  {}

  // ----- the owner's steps are bounded -----

  function OwnerSteps(steps: seq<Step>): nat {
    if steps == [] then 0 else OwnerSteps(steps[..|steps| - 1]) + if OwnerStep(steps[|steps| - 1]) then 1 else 0
  }

  lemma WorkStep(s: System, t: Step, s': System)
    requires Good(s) && IsStep(s, t, s') && !s.owner.NoOwner?
    ensures !s'.owner.NoOwner? && (if OwnerStep(t) then 1 else 0) + WorkLeft(s'.owner) <= WorkLeft(s.owner)
  {
    hide Enabled, Apply, OwnerStep, WorkLeft, IdsOk, ThreadsOk, QuotaOk, LifecycleOk, OwnerOk;
    if OwnerStep(t) {
      OwnerProgress(s, t);
    } else {
      OthersLeaveOwner(s, t);
    }
  }

  /** From when a shutdown has an owner, in every run and however the other threads interleave, the owner takes at most
      three steps for each handle, one for each reservation and one to freeze the report. */
  lemma {:induction false} OwnerStepsBounded(quota: Quota, trace: seq<System>, steps: seq<Step>, i: nat, j: nat)
    requires IsRun(quota, trace, steps) && i <= j < |trace| && |trace[j].issued| <= HandleId.U64_MAX
    requires trace[i].owner.Collecting?
    ensures !trace[j].owner.NoOwner?
    ensures OwnerSteps(steps[i..j]) + WorkLeft(trace[j].owner) <= WorkLeft(trace[i].owner)
    ensures WorkLeft(trace[i].owner) <= 3 * |trace[i].owner.handles| + |trace[i].owner.opens| + 1
  {
    hide IsStep, WorkLeft, OwnerStep, Good, OwnerOk;
    if i == j {
      RunIsGood(quota, trace, steps, i);
      GoodOwner(trace[i]);
      WorkLeftAtMost(trace[i]);
    } else {
      var s, t, s' := trace[j - 1], steps[j - 1], trace[j];
      StepFrame(s, t, s');
      OwnerStepsBounded(quota, trace, steps, i, j - 1);
      RunIsGood(quota, trace, steps, j - 1);
      WorkStep(s, t, s');
      assert steps[i..j][..j - 1 - i] == steps[i..j - 1];
    }
  }

  lemma GoodOwner(s: System)
    requires Good(s)
    ensures OwnerOk(s)
  {}

  // ----- every caller can return -----

  /** The steps lead from one state to another. */
  ghost predicate Leads(s: System, steps: seq<Step>, s': System)
    decreases |steps|
  {
    if steps == [] then s' == s else Enabled(s, steps[0]) && Leads(Apply(s, steps[0]), steps[1..], s')
  }

  lemma {:induction false} LeadsOn(s: System, steps: seq<Step>, s': System, t: Step)
    requires Leads(s, steps, s') && Enabled(s', t)
    ensures Leads(s, steps + [t], Apply(s', t))
    decreases |steps|
  {
    hide Enabled, Apply;
    if steps == [] {
      assert [] + [t] == [t] && [t][1..] == [];
    } else {
      LeadsOn(Apply(s, steps[0]), steps[1..], s', t);
      assert (steps + [t])[1..] == steps[1..] + [t];
    }
  }

  lemma CallersKept(s: System, t: Step)
    requires Enabled(s, t) && OwnerStep(t) && !StepOfHandles(t) && !t.OwnerFreezes?
    ensures Apply(s, t).callers == s.callers
  {}

  lemma FreezingFrame(s: System)
    requires LifecycleOk(s) && Enabled(s, OwnerFreezes)
    ensures Apply(s, OwnerFreezes).callers.Keys == s.callers.Keys
  {}

  lemma ExpiryKeeps(s: System)
    requires Good(s) && s.owner.Collecting? && |s.issued| <= HandleId.U64_MAX
    ensures Enabled(s, Expiry(s)) && Good(Apply(s, Expiry(s)))
    ensures Apply(s, Expiry(s)).issued == s.issued && Apply(s, Expiry(s)).callers.Keys == s.callers.Keys
  {
    hide IdsOk, ThreadsOk, QuotaOk, LifecycleOk, OwnerOk, Enabled, Apply, Expiry, OwnerStep, StepOfHandles;
    OwnerNeverStuck(s);
    StepFrame(s, Expiry(s), Apply(s, Expiry(s)));
    if Expiry(s).OwnerFreezes? {
      FreezingFrame(s);
    } else {
      CallersKept(s, Expiry(s));
    }
    StepKeeps(s, Expiry(s), Apply(s, Expiry(s)));
  }

  /** The owner alone can finish the shutdown, in as many steps as it has left. */
  lemma {:induction false} OwnerFinishes(s: System) returns (steps: seq<Step>, s': System)
    requires Good(s) && s.owner.Collecting? && |s.issued| <= HandleId.U64_MAX
    ensures Leads(s, steps, s') && |steps| <= WorkLeft(s.owner) && forall t | t in steps :: OwnerStep(t)
    ensures Good(s') && s'.owner.Done? && s'.callers.Keys == s.callers.Keys
    decreases WorkLeft(s.owner)
  {
    hide Good, Enabled, Apply, OwnerStep, WorkLeft, Expiry;
    var t := Expiry(s);
    GoodOwner(s);
    ExpiryKeeps(s);
    OwnerNeverStuck(s);
    OwnerProgress(s, t);
    WorkLeftAtMost(s);
    var next := Apply(s, t);
    if next.owner.Collecting? {
      steps, s' := OwnerFinishes(next);
      WorkLeftAtMost(s);
      steps := [t] + steps;
      assert steps[1..] == steps[1..];
    } else {
      steps, s' := [t], next;
      assert [t][1..] == [];
    }
  }

  /** The owner's steps and the caller's own poll lead to a state in which the caller has its report. */
  ghost predicate Brings(s: System, c: nat, steps: seq<Step>, s': System) {
    && Leads(s, steps, s') && (forall t | t in steps :: OwnerStep(t) || t == PollReport(c))
    && c in s'.callers && s'.callers[c].Returned?
  }

  lemma FrozenCallerReturns(s: System, c: nat)
    requires LifecycleOk(s) && s.owner.Done? && c in s.callers && !s.callers[c].Returned?
    ensures Enabled(s, PollReport(c))
    ensures c in Apply(s, PollReport(c)).callers && Apply(s, PollReport(c)).callers[c].Returned?
  {}

  lemma CallersMeanShutdown(s: System, c: nat)
    requires Good(s) && c in s.callers
    ensures LifecycleOk(s) && !s.owner.NoOwner?
  {}

  lemma NoWorkLeft(o: Owner)
    requires !o.Collecting?
    ensures WorkLeft(o) == 0
  {}

  lemma CallerReturns(s: System, c: nat)
    requires Good(s) && |s.issued| <= HandleId.U64_MAX && c in s.callers
    ensures exists steps, s' :: Brings(s, c, steps, s') && |steps| <= WorkLeft(s.owner) + 1
  {
    hide Good, Enabled, Apply, OwnerStep, WorkLeft, LifecycleOk;
    CallersMeanShutdown(s, c);
    var steps, done := [], s;
    if s.owner.Collecting? {
      steps, done := OwnerFinishes(s);
    } else {
      NoWorkLeft(s.owner);
    }
    CallersMeanShutdown(done, c);
    if done.callers[c].Returned? {
      assert Brings(s, c, steps, done);
    } else {
      FrozenCallerReturns(done, c);
      LeadsOn(s, steps, done, PollReport(c));
      assert Brings(s, c, steps + [PollReport(c)], Apply(done, PollReport(c)));
    }
  }

  /** No shutdown call is ever lost: in every state of every run each caller, the owner included, can still return, by
      the owner's steps and one look of its own, whether or not any worker, open or other caller moves again. */
  lemma EveryCallerCanReturn(quota: Quota, trace: seq<System>, steps: seq<Step>, i: nat, c: nat)
    requires IsRun(quota, trace, steps) && i < |trace| && |trace[i].issued| <= HandleId.U64_MAX
    requires c in trace[i].callers
    ensures exists more, s' :: Brings(trace[i], c, more, s') && |more| <= WorkLeft(trace[i].owner) + 1
  {
    RunIsGood(quota, trace, steps, i);
    CallerReturns(trace[i], c);
  }
}
