/** No thread of the registry gets stuck: a worker can always go on whatever its backend does, and by its own steps
    alone it ends every request it has admitted. */
module RegistryThreads {
  import HandleId
  import P = Protocol
  import HL = HandleLifecycle
  import opened Registry
  import opened RegistryProtocol
  import opened RegistrySafety
  import opened RegistryRuns
  import opened RegistryProgress

  // ----- workers -----

  predicate OwnStep(t: Step, id: Id) {
    match t
    case Dequeue(k) => k == id
    case Execute(k, _, _, _) => k == id
    case Reply(k) => k == id
    case ReleaseStep(k) => k == id
    case Halt(k, _, _, _) => k == id
    case AnswerStop(k) => k == id
    case ExitThread(k) => k == id
    case _ => false
  }

  /** Nothing to do: the thread is gone, or it waits for a message and there is none. */
  predicate AtRest(w: Worker) {
    w.phase.Finished? || (w.phase == Receiving && w.queue == [])
  }

  /** A worker that is not at rest can go on, and the backend may do what it likes: every answer to a request and
      every end of a shutdown is one of its next steps. */
  lemma WorkerNeverStuck(s: System, id: Id)
    requires Good(s) && id in s.workers && !AtRest(s.workers[id])
    ensures match s.workers[id].phase
            case Receiving => Enabled(s, Dequeue(id))
            case Executing(_, _) => forall ctx, native, latest :: Enabled(s, Execute(id, ctx, native, latest))
            case Served(_, _) => Enabled(s, Reply(id))
            case Replied(_) => Enabled(s, ReleaseStep(id))
            case Halting(_) => forall before, rolledBack, after :: Enabled(s, Halt(id, before, rolledBack, after))
            case Halted(_, _) => Enabled(s, AnswerStop(id))
            case Leaving => Enabled(s, ExitThread(id))
            case Finished => false
  {
    hide Good, WorkerOk, EntryOk, Enabled, AtRest;
    AtWorker(s, id);
    AcceptedIfServing(s.workers[id]);
    CanGoOn(s, id);
  }

  lemma CanGoOn(s: System, id: Id)
    requires id in s.workers && !AtRest(s.workers[id]) && (s.workers[id].phase.Executing? ==> id in s.reg.handles)
    ensures match s.workers[id].phase
            case Receiving => Enabled(s, Dequeue(id))
            case Executing(_, _) => forall ctx, native, latest :: Enabled(s, Execute(id, ctx, native, latest))
            case Served(_, _) => Enabled(s, Reply(id))
            case Replied(_) => Enabled(s, ReleaseStep(id))
            case Halting(_) => forall before, rolledBack, after :: Enabled(s, Halt(id, before, rolledBack, after))
            case Halted(_, _) => Enabled(s, AnswerStop(id))
            case Leaving => Enabled(s, ExitThread(id))
            case Finished => false
  {}

  lemma AcceptedIfServing(w: Worker)
    requires WorkerOk(w)
    ensures w.phase.Executing? ==> w.accepted != []
  {
    assert Conserved(w);
  }

  /** At most how many steps the worker takes until it is at rest, if no further message arrives. */
  function Work(w: Worker): nat {
    4 * |w.queue| +
    match w.phase
    case Receiving => 2
    case Executing(_, _) => 5
    case Served(_, _) => 4
    case Replied(_) => 3
    case Halting(_) => 3
    case Halted(_, _) => 2
    case Leaving => 1
    case Finished => 0
  }

  /** Its own steps use up its work and admit nothing. */
  lemma WorkerProgress(s: System, t: Step, id: Id)
    requires Enabled(s, t) && OwnStep(t, id)
    ensures id in s.workers && id in Apply(s, t).workers
    ensures Work(Apply(s, t).workers[id]) < Work(s.workers[id])
    ensures Apply(s, t).workers[id].accepted == s.workers[id].accepted && Apply(s, t).issued == s.issued
  {}

  const ANY_CONTEXT := HL.Context(false, false, false)
  const ANY_NATIVE := HL.Native(false, HL.GONE, HL.Tag(""), HL.GONE, true)

  /** One of the steps the worker can take. */
  function NextOf(w: Worker, id: Id): Step {
    match w.phase
    case Receiving => Dequeue(id)
    case Executing(_, _) => Execute(id, ANY_CONTEXT, ANY_NATIVE, HL.GONE)
    case Served(_, _) => Reply(id)
    case Replied(_) => ReleaseStep(id)
    case Halting(_) => Halt(id, P.Idle, false, P.Idle)
    case Halted(_, _) => AnswerStop(id)
    case _ => ExitThread(id)
  }

  lemma NextIsEnabled(s: System, id: Id)
    requires Good(s) && id in s.workers && !AtRest(s.workers[id])
    ensures OwnStep(NextOf(s.workers[id], id), id) && Enabled(s, NextOf(s.workers[id], id))
  {
    hide Good;
    WorkerNeverStuck(s, id);
  }

  /** The worker's own steps lead from one state to another in which it is at rest, and admit nothing on the way. */
  ghost predicate Serves(s: System, id: Id, steps: seq<Step>, s': System) {
    && Leads(s, steps, s') && (forall t | t in steps :: OwnStep(t, id))
    && id in s.workers && id in s'.workers && AtRest(s'.workers[id])
    && s'.workers[id].accepted == s.workers[id].accepted
  }

  lemma ServesMore(s: System, id: Id, t: Step, steps: seq<Step>, s': System)
    requires Enabled(s, t) && OwnStep(t, id) && Serves(Apply(s, t), id, steps, s')
    ensures Serves(s, id, [t] + steps, s')
  {
    hide Enabled, Apply, OwnStep, AtRest;
    WorkerProgress(s, t, id);
    assert ([t] + steps)[1..] == steps;
  }

  lemma {:induction false} QueueFinishes(s: System, id: Id) returns (steps: seq<Step>, s': System)
    requires Good(s) && id in s.workers && |s.issued| <= HandleId.U64_MAX
    ensures Serves(s, id, steps, s') && |steps| <= Work(s.workers[id]) && Good(s')
    decreases Work(s.workers[id])
  {
    hide Good, Enabled, Apply, OwnStep, Work, AtRest;
    if AtRest(s.workers[id]) {
      steps, s' := [], s;
    } else {
      var t := NextOf(s.workers[id], id);
      NextIsEnabled(s, id);
      hide NextOf;
      WorkerProgress(s, t, id);
      StepKeeps(s, t, Apply(s, t));
      steps, s' := QueueFinishes(Apply(s, t), id);
      ServesMore(s, id, t, steps, s');
      steps := [t] + steps;
    }
  }

  lemma RestMeansEnded(s: System, id: Id)
    requires Good(s) && id in s.workers && AtRest(s.workers[id])
    ensures s.workers[id].accepted == s.workers[id].completed + s.workers[id].lost
  {
    AtWorker(s, id);
    hide Good, EntryOk;
    RestEnds(s.workers[id]);
  }

  lemma RestEnds(w: Worker)
    requires WorkerOk(w) && AtRest(w)
    ensures w.accepted == w.completed + w.lost
  {
    hide EndingOk;
    assert InFlight(w.phase) == [] && Tickets(w.queue) == [];
    assert w.completed + [] + [] + w.lost == w.completed + w.lost;
  }

  /** No admitted request is ever stranded: in every state of every run, some steps of the handle's own worker, at
      most four for each message in its queue and five for the one it is at, lead to a state in which every request
      it has admitted has been answered or was dropped with its queue. */
  lemma EveryRequestCanEnd(quota: Quota, trace: seq<System>, steps: seq<Step>, i: nat, id: Id)
    requires IsRun(quota, trace, steps) && i < |trace| && |trace[i].issued| <= HandleId.U64_MAX
    requires id in trace[i].workers
    ensures exists more, s' ::
              && Serves(trace[i], id, more, s') && |more| <= 4 * |trace[i].workers[id].queue| + 5
              && s'.workers[id].accepted == s'.workers[id].completed + s'.workers[id].lost
  {
    hide Good, AtRest;
    RunIsGood(quota, trace, steps, i);
    var more, s' := QueueFinishes(trace[i], id);
    RestMeansEnded(s', id);
  }

  // ----- opens and requests -----

  /** An open can go on in every way its connection attempt can end, and a request is taken by the channel whenever
      it is admitted. */
  lemma OpenNeverStuck(s: System, id: Id)
    requires Good(s) && id in s.opens && !s.opens[id].Registered? && !s.opens[id].Over?
    ensures s.opens[id].Connecting? ==>
              Enabled(s, ConnectFails(id)) && forall limit :: Enabled(s, ConnectSucceeds(id, limit))
    ensures s.opens[id].Ready? ==>
              forall database, busy ::
                Enabled(s, PublishStep(id, database, HL.Observation(HL.ConnOk, P.Idle, busy)))
    ensures s.opens[id].Failing? || s.opens[id].Refused? ==> Enabled(s, EndOpen(id))
  {
    assert OpeningOk(s, id);
  }

  /** A request is admitted and queued in every state in which the handle is open, below its limit and not being
      shut down, whatever it asks for. */
  lemma RequestIsTaken(s: System, id: Id, ticket: nat, op: HL.Operation)
    requires Good(s) && s.reg.lifecycle == Running && id in s.reg.handles
    requires !s.reg.handles[id].published.closed && s.reg.handles[id].admitted < s.reg.handles[id].limit
    ensures Enabled(s, DispatchStep(id, ticket, op))
    ensures id in Apply(s, DispatchStep(id, ticket, op)).workers
    ensures var w := Apply(s, DispatchStep(id, ticket, op)).workers[id];
            w.queue == s.workers[id].queue + [Request(ticket, op)] && w.accepted == s.workers[id].accepted + [ticket]
  {
    AtWorker(s, id);
    AdmittedSendSucceeds(s, id);
  }

  // ----- shutdown -----

  lemma LeastFirst(keys: set<Id>, m: Id, rest: seq<Id>)
    requires Least(m, keys) && Lists(rest, keys - {m})
    ensures Lists([m] + rest, keys)
  {
    var ids := [m] + rest;
    forall id ensures id in ids <==> id in keys {
      assert id in ids <==> id == m || id in rest;
    }
    forall i, j | 0 <= i < j < |ids| ensures ids[i] < ids[j] {
      assert rest[j - 1] in rest;
      if i > 0 {
        assert ids[i] == rest[i - 1];
      }
    }
  }

  lemma {:induction false} KeysAreListed(keys: set<Id>) returns (ids: seq<Id>)
    ensures Lists(ids, keys)
    decreases keys
  {
    if keys == {} {
      ids := [];
    } else {
      hide Least, Lists;
      LeastExists(keys);
      var m :| Least(m, keys);
      assert m in keys by {
        LeastIsKey(m, keys);
      }
      ids := KeysAreListed(keys - {m});
      LeastFirst(keys, m, ids);
      ids := [m] + ids;
    }
  }

  lemma LeastIsKey(m: Id, keys: set<Id>)
    requires Least(m, keys)
    ensures m in keys
  {}

  /** Anybody may ask for shutdown at any time. */
  lemma ShutdownCanBeCalled(s: System, c: nat)
    requires c !in s.callers
    ensures exists handles, opens :: Enabled(s, CallShutdown(c, handles, opens))
  {
    hide Lists;
    var handles := KeysAreListed(s.reg.handles.Keys);
    var opens := KeysAreListed(s.reg.pending.Keys);
    assert Enabled(s, CallShutdown(c, handles, opens));
  }

  lemma OwnerWaits(s: System)
    requires s.owner.Collecting? && |s.owner.rows| < |s.owner.handles| && Current(s) in s.workers
    ensures var w := s.workers[Current(s)];
            match s.owner.stage
            case NextHandle => Enabled(s, OwnerInspects)
            case JoiningClosed => w.phase.Finished? ==> Enabled(s, OwnerJoinsClosed)
            case Enqueuing => w.phase.Finished? || |w.queue| < w.capacity ==> Enabled(s, OwnerSends)
            case Awaiting => w.answer.Some? ==> Enabled(s, OwnerReceives)
  {}

  /** Before its deadline the owner goes on as soon as what it waits for is there: the closed worker's thread has
      finished, the queue has room, the answer has come. */
  lemma OwnerGoesOn(s: System)
    requires Good(s) && s.owner.Collecting? && |s.owner.rows| < |s.owner.handles|
    ensures Current(s) in s.workers
    ensures var w := s.workers[Current(s)];
            match s.owner.stage
            case NextHandle => Enabled(s, OwnerInspects)
            case JoiningClosed => w.phase.Finished? ==> Enabled(s, OwnerJoinsClosed)
            case Enqueuing => w.phase.Finished? || |w.queue| < w.capacity ==> Enabled(s, OwnerSends)
            case Awaiting => w.answer.Some? ==> Enabled(s, OwnerReceives)
  {
    hide Good, Enabled;
    CurrentIsRegistered(s);
    OwnerWaits(s);
  }

  // ----- what the owner writes down -----

  ghost predicate Records(s: System, s': System, verdict: Verdict) {
    && s.owner.Collecting? && s'.owner.Collecting? && |s.owner.rows| < |s.owner.handles|
    && s'.owner.rows == s.owner.rows + [Row(s.owner.handles[|s.owner.rows|], verdict)]
    && s'.owner.handles == s.owner.handles && s'.owner.opens == s.owner.opens && s'.owner.late == s.owner.late
  }

  /** The reason the owner gives is where it gave up: before it looked at the handle or while it waited for the
      answer, while it waited for a closed worker's thread, or while the queue had no room. */
  lemma GivenUpIsRecorded(s: System, t: Step)
    requires Enabled(s, t) && GivesUp(t)
    ensures Records(s, Apply(s, t),
                    if t.OwnerJoinExpired? then Uncertain(JoinStage)
                    else if t.OwnerSendExpired? then Uncertain(EnqueueStage)
                    else Uncertain(DeadlineStage))
  {}

  /** A closed handle is waited for and an open one is asked to stop; a row is written only for one that is missing. */
  lemma InspectionIsRecorded(s: System)
    requires Enabled(s, OwnerInspects)
    ensures var s' := Apply(s, OwnerInspects);
            if Current(s) !in s.reg.handles then Records(s, s', Uncertain(MissingStage))
            else s'.owner == s.owner.(stage := if s.reg.handles[Current(s)].published.closed then JoiningClosed
                                               else Enqueuing)
  {}

  /** The shutdown request goes to the end of the queue of the handle's worker, unless its thread is gone. */
  lemma StopIsSent(s: System)
    requires Enabled(s, OwnerSends)
    ensures var s', id := Apply(s, OwnerSends), Current(s);
            && s'.owner == s.owner.(stage := Awaiting) && id in s.workers && id in s'.workers && id in s'.sent
            && s'.workers[id].queue ==
               if s.workers[id].phase.Finished? then s.workers[id].queue else s.workers[id].queue + [Stop(true)]
  {}

  /** An answer is written down as it is if the thread has finished or was joined, and as a failed join if not. */
  lemma AnswerIsRecorded(s: System)
    requires Enabled(s, OwnerReceives)
    ensures var w, id := s.workers[Current(s)], Current(s);
            Records(s, Apply(s, OwnerReceives),
                    if id in s.reg.handles && !s.reg.handles[id].joined && !w.phase.Finished? then Uncertain(JoinStage)
                    else w.answer.value)
  {}
}
