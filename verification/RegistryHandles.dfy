/** One handle inside the whole registry: what holds for sequences of requests holds in every interleaving. */
module RegistryHandles {
  import HandleId
  import HL = HandleLifecycle
  import HR = HandleRuns
  import opened Registry
  import opened RegistryProtocol
  import opened RegistrySafety
  import opened RegistryRuns

  ghost predicate Serves(s: System, t: Step, id: Id) {
    t.Execute? && t.id == id && Enabled(s, t)
  }

  ghost function RequestOf(s: System, t: Step): HR.Request
    requires t.Execute? && Enabled(s, t)
  {
    HR.Request(s.workers[t.id].phase.op, t.ctx, t.native, t.latest)
  }

  ghost function ReplyOf(s: System, t: Step): HL.Reply
    requires t.Execute? && Enabled(s, t)
  {
    HR.ServeRequest(s.reg.handles[t.id].published, RequestOf(s, t)).reply
  }

  lemma ServingStep(s: System, t: Step, s': System, id: Id)
    requires IsStep(s, t, s') && Serves(s, t, id)
    ensures id in s.reg.handles && id in s'.reg.handles
    ensures s'.reg.handles[id].published == HR.ServeRequest(s.reg.handles[id].published, RequestOf(s, t)).published
  {}

  /** The requests of one handle among the first `n` steps, in the order in which they were served. */
  ghost function Served(trace: seq<System>, steps: seq<Step>, id: Id, n: nat): seq<HR.Request>
    requires n <= |steps| < |trace|
  {
    if n == 0 then []
    else Served(trace, steps, id, n - 1)
         + if Serves(trace[n - 1], steps[n - 1], id) then [RequestOf(trace[n - 1], steps[n - 1])] else []
  }

  // ----- the handle's snapshot is the replay of its requests -----

  lemma PublishingRegisters(s: System, t: Step, s': System, id: Id)
    requires IsStep(s, t, s') && t.PublishStep?
    ensures s.reg.handles.Keys <= s'.reg.handles.Keys
    ensures id !in s.reg.handles && id in s'.reg.handles ==> HR.JustOpened(s'.reg.handles[id].published)
  {}

  lemma {:induction false} NothingServedBefore(quota: Quota, trace: seq<System>, steps: seq<Step>, id: Id, n: nat)
    requires IsRun(quota, trace, steps) && n < |trace| && id !in trace[n].reg.handles
    ensures Served(trace, steps, id, n) == []
  {
    hide IsStep;
    if n > 0 {
      assert IsStep(trace[n - 1], steps[n - 1], trace[n]);
      StepFrame(trace[n - 1], steps[n - 1], trace[n]);
      NothingServedBefore(quota, trace, steps, id, n - 1);
      NotServedUnregistered(trace[n - 1], steps[n - 1], id);
    }
  }

  lemma NotServedUnregistered(s: System, t: Step, id: Id)
    requires id !in s.reg.handles
    ensures !Serves(s, t, id)
  {}

  lemma Registration(s: System, t: Step, s': System, id: Id)
    requires IsStep(s, t, s') && id !in s.reg.handles && id in s'.reg.handles
    ensures HR.JustOpened(s'.reg.handles[id].published) && !Serves(s, t, id)
  {
    hide Enabled, Apply, HR.JustOpened;
    if t.PublishStep? {
      PublishingRegisters(s, t, s', id);
    } else {
      StepFrame(s, t, s');
    }
  }

  lemma KnownHandle(s: System, id: Id)
    requires Good(s) && id in s.reg.handles
    ensures id in s.opens && OpeningOk(s, id) && id in s.workers && EndingOk(s.workers[id])
  {
    AtHandle(s, id);
    hide OwnerOk, QuotaOk, IdsOk, LifecycleOk, EntryOk, OpeningOk, EndingOk;
  }

  lemma RegisteredOnce(s: System, t: Step, s': System, id: Id)
    requires IsStep(s, t, s') && id in s.reg.handles && id in s.opens && OpeningOk(s, id)
    ensures !(t.PublishStep? && t.id == id)
    ensures id in s.workers && id in s'.workers
  {
    hide Apply;
    StepFrame(s, t, s');
  }

  /** Shut down by its owner, after which it serves nothing. */
  predicate ShutDownBy(w: Worker) {
    w.ending.ShutDown?
  }

  lemma HaltShutsDown(s: System, t: Step, s': System, id: Id)
    requires IsStep(s, t, s') && t.Halt? && t.id == id && id in s.workers
    ensures id in s'.workers && ShutDownBy(s'.workers[id])
  {}

  lemma ServingIsNotShutDown(s: System, t: Step, id: Id)
    requires Enabled(s, t) && t.Execute? && t.id == id && id in s.workers && EndingOk(s.workers[id])
    ensures !ShutDownBy(s.workers[id])
  {}

  lemma EndingStaysWithWorkers(s: System, t: Step, id: Id)
    requires Enabled(s, t) && StepOfWorker(t) && id in s.workers
    requires !(t.Halt? && t.id == id) && !(t.Execute? && t.id == id)
    ensures id in Apply(s, t).workers && Apply(s, t).workers[id].ending == s.workers[id].ending
  {}

  lemma EndingStaysWithOpens(s: System, t: Step, id: Id)
    requires Enabled(s, t) && StepOfOpen(t) && id in s.reg.handles && id in s.opens && OpeningOk(s, id) && id in s.workers
    ensures id in Apply(s, t).workers && Apply(s, t).workers[id].ending == s.workers[id].ending
  {}

  lemma EndingStaysWithOwner(s: System, t: Step, id: Id)
    requires Enabled(s, t) && !StepOfWorker(t) && !StepOfOpen(t) && id in s.workers
    ensures id in Apply(s, t).workers && Apply(s, t).workers[id].ending == s.workers[id].ending
  {}

  lemma EndingStays(s: System, t: Step, s': System, id: Id)
    requires IsStep(s, t, s') && id in s.reg.handles && id in s.opens && OpeningOk(s, id) && id in s.workers
    requires !(t.Halt? && t.id == id) && !(t.Execute? && t.id == id)
    ensures id in s'.workers && s'.workers[id].ending == s.workers[id].ending
  {
    hide Enabled, Apply, OpeningOk, StepOfWorker, StepOfOpen;
    if StepOfWorker(t) {
      EndingStaysWithWorkers(s, t, id);
    } else if StepOfOpen(t) {
      EndingStaysWithOpens(s, t, id);
    } else {
      EndingStaysWithOwner(s, t, id);
    }
  }

  lemma ShutDownStays(s: System, t: Step, s': System, id: Id)
    requires IsStep(s, t, s') && id in s.reg.handles && id in s.opens && OpeningOk(s, id)
    requires id in s.workers && id in s'.workers && EndingOk(s.workers[id])
    ensures ShutDownBy(s.workers[id]) ==> ShutDownBy(s'.workers[id])
    ensures t.Halt? && t.id == id ==> ShutDownBy(s'.workers[id])
  {
    hide Enabled, Apply, OpeningOk, EndingOk;
    if t.Halt? && t.id == id {
      HaltShutsDown(s, t, s', id);
    } else if t.Execute? && t.id == id {
      ServingIsNotShutDown(s, t, id);
    } else {
      EndingStays(s, t, s', id);
    }
  }

  ghost predicate Replays(p: HL.Published, rs: seq<HR.Request>) {
    exists first :: HR.JustOpened(first) && p == HR.After(first, rs)
  }

  lemma ReplayStart(p: HL.Published)
    requires HR.JustOpened(p)
    ensures Replays(p, [])
  {
    assert HR.After(p, []) == p;
  }

  lemma ReplayStep(p: HL.Published, rs: seq<HR.Request>, r: HR.Request)
    requires Replays(p, rs)
    ensures Replays(HR.ServeRequest(p, r).published, rs + [r])
  {
    hide HR.ServeRequest;
    var first :| HR.JustOpened(first) && p == HR.After(first, rs);
    assert (rs + [r])[..|rs|] == rs;
    assert HR.After(first, rs + [r]) == HR.ServeRequest(p, r).published;
  }

  lemma ReplayAcross(s: System, t: Step, s': System, id: Id, rs: seq<HR.Request>)
    requires Good(s) && IsStep(s, t, s') && id in s.reg.handles && id in s'.reg.handles
    requires id in s.workers && id in s'.workers && !ShutDownBy(s'.workers[id])
    requires !ShutDownBy(s.workers[id]) ==> Replays(s.reg.handles[id].published, rs)
    ensures Replays(s'.reg.handles[id].published, rs + if Serves(s, t, id) then [RequestOf(s, t)] else [])
  {
    hide IsStep, Good, ShutDownBy, Replays, OpeningOk, EndingOk, Enabled;
    KnownHandle(s, id);
    RegisteredOnce(s, t, s', id);
    ShutDownStays(s, t, s', id);
    if Serves(s, t, id) {
      ServingStep(s, t, s', id);
      ReplayStep(s.reg.handles[id].published, rs, RequestOf(s, t));
    } else {
      NotServing(s, t, s', id);
      PublishedByOwnWorker(s, t, s', id);
      assert rs + [] == rs;
    }
  }

  lemma HandleHasWorker(s: System, id: Id)
    requires Good(s) && id in s.reg.handles
    ensures id in s.workers
  {
    AtHandle(s, id);
  }

  /** In every interleaving, as long as a registered handle has not been shut down, its published snapshot is what
      its own requests, served in their order from a freshly opened handle, make of it. */
  lemma {:induction false} SnapshotIsReplay(quota: Quota, trace: seq<System>, steps: seq<Step>, id: Id, n: nat)
    requires IsRun(quota, trace, steps) && n < |trace| && |trace[n].issued| <= HandleId.U64_MAX
    requires id in trace[n].reg.handles && id in trace[n].workers && !ShutDownBy(trace[n].workers[id])
    ensures Replays(trace[n].reg.handles[id].published, Served(trace, steps, id, n))
  {
    hide IsStep, Good, Serves, ShutDownBy, Replays, Enabled;
    assert Init(quota).reg.handles == map[];
    if n > 0 {
      var s, t, s' := trace[n - 1], steps[n - 1], trace[n];
      assert IsStep(s, t, s');
      StepFrame(s, t, s');
      RunIsGood(quota, trace, steps, n - 1);
      if id in s.reg.handles {
        HandleHasWorker(s, id);
        if !ShutDownBy(s.workers[id]) {
          SnapshotIsReplay(quota, trace, steps, id, n - 1);
        }
        ReplayAcross(s, t, s', id, Served(trace, steps, id, n - 1));
      } else {
        NothingServedBefore(quota, trace, steps, id, n - 1);
        Registration(s, t, s', id);
        ReplayStart(s'.reg.handles[id].published);
        assert Served(trace, steps, id, n) == Served(trace, steps, id, n - 1) + [];
      }
    }
  }

  lemma NotServing(s: System, t: Step, s': System, id: Id)
    requires IsStep(s, t, s') && !Serves(s, t, id)
    ensures !(t.Execute? && t.id == id)
  {}

  /** The bookkeeping of every handle, in every interleaving, is the fold over what its clients were told. */
  lemma BookkeepingInRegistry(quota: Quota, trace: seq<System>, steps: seq<Step>, id: Id, n: nat)
    requires IsRun(quota, trace, steps) && n < |trace| && |trace[n].issued| <= HandleId.U64_MAX
    requires id in trace[n].reg.handles && id in trace[n].workers && !ShutDownBy(trace[n].workers[id])
    ensures exists first :: HR.JustOpened(first) &&
              HR.MemoryOf(trace[n].reg.handles[id].published) == HR.Fold(HR.History(first, Served(trace, steps, id, n)))
  {
    hide IsStep;
    SnapshotIsReplay(quota, trace, steps, id, n);
    var rs := Served(trace, steps, id, n);
    var first :| HR.JustOpened(first) && trace[n].reg.handles[id].published == HR.After(first, rs);
    HR.BookkeepingIsFold(first, rs);
  }

  // ----- after an unknown outcome -----

  predicate Observed(s: System, id: Id) {
    id in s.reg.handles && s.reg.handles[id].published.schemaObserved
  }

  ghost predicate SchemaServed(s: System, t: Step, id: Id) {
    Serves(s, t, id) && RequestOf(s, t).op.GetSchema? && ReplyOf(s, t).Success?
  }

  lemma ServedObservation(p: HL.Published, r: HR.Request)
    ensures var s := HR.ServeRequest(p, r);
            && (HL.UnknownOutcome(s.reply) ==> !s.published.schemaObserved)
            && (s.published.schemaObserved ==> p.schemaObserved || (r.op.GetSchema? && s.reply.Success?))
  {
    HR.MemoryStep(p, r);
  }

  lemma ObservationArises(s: System, t: Step, s': System, id: Id)
    requires IsStep(s, t, s') && !Observed(s, id) && Observed(s', id)
    ensures SchemaServed(s, t, id)
  {
    if id in s.reg.handles && t.Execute? && t.id == id {
      ServedObservation(s.reg.handles[id].published, RequestOf(s, t));
      ServingStep(s, t, s', id);
    } else if id in s.reg.handles && !(t.Halt? && t.id == id) && !(t.PublishStep? && t.id == id) {
      PublishedByOwnWorker(s, t, s', id);
    }
  }

  lemma {:induction false} ObservedAgain(quota: Quota, trace: seq<System>, steps: seq<Step>, id: Id, i: nat, j: nat)
    requires IsRun(quota, trace, steps) && i <= j < |trace| && !Observed(trace[i], id) && Observed(trace[j], id)
    ensures exists k :: i <= k < j && SchemaServed(trace[k], steps[k], id)
  {
    hide IsStep, Observed, SchemaServed;
    assert i < j && IsStep(trace[j - 1], steps[j - 1], trace[j]);
    if Observed(trace[j - 1], id) {
      ObservedAgain(quota, trace, steps, id, i, j - 1);
    } else {
      ObservationArises(trace[j - 1], steps[j - 1], trace[j], id);
    }
  }

  lemma GuardedMeansObserved(s: System, t: Step, id: Id)
    requires Serves(s, t, id)
    requires HR.NeedsSchema(RequestOf(s, t).op)
    requires HL.ReachesBackend(s.reg.handles[id].published, RequestOf(s, t).op, t.ctx)
    ensures Observed(s, id)
  {
    HR.ReachingNeedsObservation(s.reg.handles[id].published, RequestOf(s, t).op, t.ctx);
  }

  /** In every interleaving of all handles, opens and shutdown: between an unknown outcome on a handle and the next
      open_read, open_write or query on it that reaches its backend, a get_schema on it has succeeded. */
  lemma UnknownOutcomeNeedsSchema(quota: Quota, trace: seq<System>, steps: seq<Step>, id: Id, i: nat, j: nat)
    requires IsRun(quota, trace, steps) && i < j < |steps|
    requires Serves(trace[i], steps[i], id) && HL.UnknownOutcome(ReplyOf(trace[i], steps[i]))
    requires Serves(trace[j], steps[j], id) && HR.NeedsSchema(RequestOf(trace[j], steps[j]).op)
    requires HL.ReachesBackend(trace[j].reg.handles[id].published, RequestOf(trace[j], steps[j]).op, steps[j].ctx)
    ensures exists k :: i < k < j && SchemaServed(trace[k], steps[k], id)
  {
    assert IsStep(trace[i], steps[i], trace[i + 1]);
    hide IsStep, SchemaServed;
    ServedObservation(trace[i].reg.handles[id].published, RequestOf(trace[i], steps[i]));
    ServingStep(trace[i], steps[i], trace[i + 1], id);
    GuardedMeansObserved(trace[j], steps[j], id);
    ObservedAgain(quota, trace, steps, id, i + 1, j);
  }
}
