/** What a pause that has returned means, exactly. */
module ProxyPause {
  import opened Proxy
  import opened ProxyProtocol
  import opened ProxySafety
  import opened ProxyRuns

  predicate Resumes(t: Step, d: Direction) {
    t.CallResume? && t.d == d
  }

  predicate SameBytes(w: Worker, w': Worker) {
    w'.received == w.received && w'.delivered == w.delivered
  }

  predicate Untouched(w: Worker) {
    w.received == [] && w.delivered == []
  }

  ghost predicate NothingMoved(s: System, s': System, d: Direction) {
    && (forall id | id in s.workers :: id in s'.workers && SameBytes(s.workers[id].At(d), s'.workers[id].At(d)))
    && (forall id | id in s'.workers && id !in s.workers :: Untouched(s'.workers[id].At(d)))
  }

  ghost predicate NeverResumes(steps: seq<Step>, d: Direction) {
    forall k | 0 <= k < |steps| :: !Resumes(steps[k], d)
  }

  /** The barrier: whatever happens from here on, as long as the direction is not resumed no byte of it is read or
      delivered, on the connections there are and on those that come later. */
  ghost predicate Barred(s: System, d: Direction) {
    forall trace, steps :: Continues(s, trace, steps) && NeverResumes(steps, d) ==> NothingMoved(s, trace[|steps|], d)
  }

  // ----- states that are barred -----

  /** Armed, and every worker of the direction is at the barrier. */
  predicate Held(s: State, d: Direction) {
    s.paused.At(d) && AllQuiet(s, d)
  }

  /** No worker of the direction is between the barrier and the end of its loop. */
  ghost predicate Still(s: System, d: Direction) {
    s.state.paused.At(d) && forall id | id in s.workers :: Idle(s.workers[id].At(d).phase)
  }

  predicate Idle(p: Phase) {
    p.Barrier? || p == Leaving || p.Retiring? || p.Gone?
  }

  lemma HeldIsStill(s: System, d: Direction)
    requires Good(s) && Held(s.state, d)
    ensures Still(s, d)
    ensures forall id | id in s.workers :: s.workers[id].At(d).phase.Gone? || s.workers[id].At(d).phase == Barrier(true)
  {
    SubsetSize(Waiting(s, d), Live(s, d));
    forall id | id in s.workers
      ensures s.workers[id].At(d).phase.Gone? || s.workers[id].At(d).phase == Barrier(true)
    {
      assert id in Live(s, d) ==> id in Waiting(s, d);
    }
  }

  lemma IdleWorkerStays(s: System, t: Step, s': System, d: Direction, id: nat)
    requires s.state.nextId !in s.workers && s.state.paused.At(d) && IsStep(s, t, s') && !Resumes(t, d)
    requires id in s.workers && Idle(s.workers[id].At(d).phase)
    ensures id in s'.workers && Idle(s'.workers[id].At(d).phase)
    ensures SameBytes(s.workers[id].At(d), s'.workers[id].At(d))
  {}

  lemma ArrivalIsIdle(s: System, t: Step, s': System, d: Direction, id: nat)
    requires IsStep(s, t, s') && id !in s.workers && id in s'.workers
    ensures Idle(s'.workers[id].At(d).phase) && Untouched(s'.workers[id].At(d))
  {}

  lemma StillWorker(s: System, t: Step, s': System, d: Direction, id: nat)
    requires s.state.nextId !in s.workers && Still(s, d) && IsStep(s, t, s') && !Resumes(t, d)
    requires id in s'.workers
    ensures Idle(s'.workers[id].At(d).phase)
    ensures if id in s.workers then SameBytes(s.workers[id].At(d), s'.workers[id].At(d))
            else Untouched(s'.workers[id].At(d))
  {
    hide IsStep, Idle, SameBytes, Untouched;
    if id in s.workers {
      IdleWorkerStays(s, t, s', d, id);
    } else {
      ArrivalIsIdle(s, t, s', d, id);
    }
  }

  lemma StaysArmed(s: System, t: Step, s': System, d: Direction)
    requires s.state.paused.At(d) && IsStep(s, t, s') && !Resumes(t, d)
    ensures s'.state.paused.At(d) && s.workers.Keys <= s'.workers.Keys
  {}

  lemma StillStep(s: System, t: Step, s': System, d: Direction)
    requires ConnectionsOk(s) && Still(s, d) && IsStep(s, t, s') && !Resumes(t, d)
    ensures Still(s', d) && NothingMoved(s, s', d)
  {
    hide IsStep, Idle, SameBytes, Untouched;
    StaysArmed(s, t, s', d);
    forall id | id in s'.workers
      ensures Idle(s'.workers[id].At(d).phase)
      ensures if id in s.workers then SameBytes(s.workers[id].At(d), s'.workers[id].At(d))
              else Untouched(s'.workers[id].At(d))
    {
      StillWorker(s, t, s', d, id);
    }
  }

  /** While the proxy stops, only a transfer that has passed its last look at the flags can still happen. */
  predicate MidTransfer(p: Phase) {
    p == Reading || (p.Writing? && p.checked)
  }

  ghost predicate Wound(s: System, d: Direction) {
    s.state.stopping && forall id | id in s.workers :: !MidTransfer(s.workers[id].At(d).phase)
  }

  lemma WoundWorker(s: System, t: Step, s': System, d: Direction, id: nat)
    requires Wound(s, d) && IsStep(s, t, s') && id in s'.workers
    ensures id in s.workers && !MidTransfer(s'.workers[id].At(d).phase)
    ensures SameBytes(s.workers[id].At(d), s'.workers[id].At(d))
  {
    assert id in s.workers ==> !MidTransfer(s.workers[id].At(d).phase);
  }

  lemma StoppingStays(s: System, t: Step, s': System)
    requires s.state.stopping && IsStep(s, t, s')
    ensures s'.state.stopping && s.workers.Keys <= s'.workers.Keys
  {}

  lemma WoundStep(s: System, t: Step, s': System, d: Direction)
    requires Wound(s, d) && IsStep(s, t, s')
    ensures Wound(s', d) && NothingMoved(s, s', d)
  {
    hide IsStep, MidTransfer, SameBytes, Untouched;
    StoppingStays(s, t, s');
    forall id | id in s'.workers
      ensures id in s.workers && !MidTransfer(s'.workers[id].At(d).phase)
      ensures SameBytes(s.workers[id].At(d), s'.workers[id].At(d))
    {
      WoundWorker(s, t, s', d, id);
    }
  }

  lemma {:induction false} StillAlong(s: System, trace: seq<System>, steps: seq<Step>, j: nat, d: Direction)
    requires Good(s) && (Still(s, d) || Wound(s, d))
    requires Continues(s, trace, steps) && NeverResumes(steps, d) && j < |trace|
    ensures (Still(trace[j], d) || Wound(trace[j], d)) && NothingMoved(s, trace[j], d)
  {
    hide IsStep, Still, Wound;
    if j > 0 {
      var before, t, after := trace[j - 1], steps[j - 1], trace[j];
      StillAlong(s, trace, steps, j - 1, d);
      ContinuesGood(s, trace, steps, j - 1);
      assert IsStep(before, t, after) && !Resumes(t, d);
      if Still(before, d) {
        StillStep(before, t, after, d);
      } else {
        WoundStep(before, t, after, d);
      }
    }
  }

  lemma StillIsBarred(s: System, d: Direction)
    requires Good(s) && (Still(s, d) || Wound(s, d))
    ensures Barred(s, d)
  {
    forall trace, steps | Continues(s, trace, steps) && NeverResumes(steps, d)
      ensures NothingMoved(s, trace[|steps|], d)
    {
      StillAlong(s, trace, steps, |steps|, d);
    }
  }

  // ----- states that are not -----

  lemma BarredStep(s: System, t: Step, s': System, d: Direction)
    requires Barred(s, d) && IsStep(s, t, s') && !Resumes(t, d)
    ensures NothingMoved(s, s', d) && Barred(s', d)
  {
    hide IsStep;
    assert Continues(s, [s, s'], [t]) && NeverResumes([t], d);
    assert [s, s'][|[t]|] == s';
    forall trace, steps | Continues(s', trace, steps) && NeverResumes(steps, d)
      ensures NothingMoved(s', trace[|steps|], d)
    {
      Prepend(s, t, s', trace, steps);
      assert NeverResumes([t] + steps, d);
      assert ([s] + trace)[|[t] + steps|] == trace[|steps|];
      Forward(s', trace, steps, 0, |steps|);
    }
  }

  /** A worker in the middle of a transfer completes it. */
  lemma MidTransferMoves(s: System, d: Direction, id: nat)
    requires Good(s) && id in s.workers && MidTransfer(s.workers[id].At(d).phase)
    ensures !Barred(s, d)
  {
    var w := s.workers[id].At(d);
    assert WorkerOk(w);
    var t := MoveStep(id, d, if w.phase == Reading then Read([7]) else Write(1));
    assert IsStep(s, t, Apply(s, t));
    var w' := Apply(s, t).workers[id].At(d);
    assert |w'.received| + |w'.delivered| == |w.received| + |w.delivered| + 1;
    if Barred(s, d) {
      BarredStep(s, t, Apply(s, t), d);
      assert false;
    }
  }

  /** A new connection passes an open barrier and comes to its first read. */
  lemma NewConnectionReads(s: System, d: Direction) returns (s1: System, s2: System, s3: System)
    requires s.state.nextId !in s.workers && !Stopped(s.state) && !s.state.paused.At(d)
    ensures var id := s.state.nextId;
            && IsStep(s, Connect(Both(true, true)), s1) && IsStep(s1, BarrierStep(id, d), s2)
            && IsStep(s2, MoveStep(id, d, Check), s3)
            && id in s3.workers && s3.workers[id].At(d).phase == Reading
  {
    var id := s.state.nextId;
    s1 := Apply(s, Connect(Both(true, true)));
    assert s1.workers[id].At(d) == NewWorker(true);
    s2 := Apply(s1, BarrierStep(id, d));
    s3 := Apply(s2, MoveStep(id, d, Check));
  }

  /** A direction that is not armed lets the next connection through. */
  lemma NewConnectionMoves(s: System, d: Direction)
    requires Good(s) && !Stopped(s.state) && !s.state.paused.At(d)
    ensures !Barred(s, d)
  {
    var id, both := s.state.nextId, Both(true, true);
    NextIsNew(s);
    hide Good, Barred;
    var s1, s2, s3 := NewConnectionReads(s, d);
    GoodStep(s, Connect(both), s1);
    GoodStep(s1, BarrierStep(id, d), s2);
    GoodStep(s2, MoveStep(id, d, Check), s3);
    MidTransferMoves(s3, d, id);
    hide IsStep;
    if Barred(s, d) {
      BarredStep(s, Connect(both), s1, d);
      BarredStep(s1, BarrierStep(id, d), s2, d);
      BarredStep(s2, MoveStep(id, d, Check), s3, d);
      assert false;
    }
  }

  lemma NextIsNew(s: System)
    requires Good(s)
    ensures s.state.nextId !in s.workers
  {}

  lemma GoodStep(s: System, t: Step, s': System)
    requires Good(s) && IsStep(s, t, s')
    ensures Good(s')
  {
    hide Good;
    StepKeeps(s, t);
  }

  /** While the flag of a drop is set and the proxy is not stopping, some drop has still to release it. */
  ghost predicate DropPending(s: System) {
    s.state.dropping && !s.state.stopping ==>
      exists c :: c in s.callers && (s.callers[c] == Dropping || s.callers[c].DropEnding?)
  }

  lemma DropPendingStep(s: System, t: Step, s': System)
    requires DropPending(s) && IsStep(s, t, s')
    ensures DropPending(s')
  {
    if s.state.dropping && !s.state.stopping && s'.state.dropping && !s'.state.stopping {
      var c :| c in s.callers && (s.callers[c] == Dropping || s.callers[c].DropEnding?);
      assert c in s'.callers && (s'.callers[c] == Dropping || s'.callers[c].DropEnding?);
    } else if t.CallDrop? && s'.state.dropping && !s'.state.stopping {
      assert t.c in s'.callers && s'.callers[t.c] == Dropping;
    }
  }

  lemma {:induction false} DropPendingAlways(trace: seq<System>, steps: seq<Step>, i: nat)
    requires IsRun(trace, steps) && i < |trace|
    ensures DropPending(trace[i])
  {
    hide IsStep, DropPending;
    if i == 0 {
      NothingPendingAtFirst();
    } else {
      DropPendingAlways(trace, steps, i - 1);
      assert IsStep(trace[i - 1], steps[i - 1], trace[i]);
      DropPendingStep(trace[i - 1], steps[i - 1], trace[i]);
    }
  }

  lemma NothingPendingAtFirst()
    ensures DropPending(Init())
  {}

  lemma ReleaseUnbars(s: System, d: Direction, c: nat)
    requires Good(s) && !s.state.stopping && !s.state.paused.At(d) && c in s.callers && s.callers[c].DropEnding?
    ensures !Barred(s, d)
  {
    var s' := Apply(s, DropReleases(c));
    assert IsStep(s, DropReleases(c), s');
    StepKeeps(s, DropReleases(c));
    NewConnectionMoves(s', d);
    if Barred(s, d) {
      BarredStep(s, DropReleases(c), s', d);
      assert false;
    }
  }

  lemma UnarmedIsNotBarred(s: System, d: Direction)
    requires Good(s) && DropPending(s) && !s.state.stopping && !s.state.paused.At(d)
    ensures !Barred(s, d)
  {
    if s.state.dropping {
      var c :| c in s.callers && (s.callers[c] == Dropping || s.callers[c].DropEnding?);
      if s.callers[c].DropEnding? {
        ReleaseUnbars(s, d, c);
      } else {
        var t := if AllGone(s.state) then DropObserves(c) else DropExpires(c);
        var s' := Apply(s, t);
        assert IsStep(s, t, s');
        StepKeeps(s, t);
        ReleaseUnbars(s', d, c);
        if Barred(s, d) {
          BarredStep(s, t, s', d);
          assert false;
        }
      }
    } else {
      NewConnectionMoves(s, d);
    }
  }

  // ----- what a pause that returned means -----

  lemma PauseReturning(s: System, c: nat, s': System)
    requires IsStep(s, PauseReturns(c), s')
    ensures c in s.callers && s.callers[c].Pausing?
    ensures s'.state == s.state && s'.workers == s.workers && c in s'.callers && s'.callers[c] == Returned(true)
    ensures !s.state.stopping ==> AllQuiet(s.state, s.callers[c].d)
  {}

  /** The barrier holds after a pause has returned successfully exactly when, while the proxy is not stopping, the
      direction is still armed, and while it is stopping, no worker is in the middle of a transfer. */
  lemma PauseMeansBarred(trace: seq<System>, steps: seq<Step>, i: nat, c: nat)
    requires IsRun(trace, steps) && i < |steps| && steps[i] == PauseReturns(c)
    ensures c in trace[i].callers && trace[i].callers[c].Pausing? && trace[i + 1].callers[c] == Returned(true)
    ensures var s, d := trace[i + 1], trace[i].callers[c].d;
            Barred(s, d) <==>
              if s.state.stopping then forall id | id in s.workers :: !MidTransfer(s.workers[id].At(d).phase)
              else s.state.paused.At(d)
  {
    hide IsStep, Barred, Still, MidTransfer;
    assert IsStep(trace[i], steps[i], trace[i + 1]);
    PauseReturning(trace[i], c, trace[i + 1]);
    RunIsGood(trace, steps, i + 1);
    DropPendingAlways(trace, steps, i + 1);
    var s, d := trace[i + 1], trace[i].callers[c].d;
    if s.state.stopping {
      if forall id | id in s.workers :: !MidTransfer(s.workers[id].At(d).phase) {
        StillIsBarred(s, d);
      } else {
        var id :| id in s.workers && MidTransfer(s.workers[id].At(d).phase);
        MidTransferMoves(s, d, id);
      }
    } else if s.state.paused.At(d) {
      HeldIsStill(s, d);
      StillIsBarred(s, d);
    } else {
      UnarmedIsNotBarred(s, d);
    }
  }

  /** A pause has armed its direction for as long as nobody resumes it. */
  lemma {:induction false} ArmedSinceCall(trace: seq<System>, steps: seq<Step>, a: nat, i: nat, c: nat, d: Direction)
    requires IsRun(trace, steps) && a < i < |trace| && steps[a] == CallPause(c, d) && !trace[a].state.stopping
    requires forall k | a < k < i :: !Resumes(steps[k], d)
    ensures trace[i].state.paused.At(d)
    ensures c in trace[i].callers && (trace[i].callers[c] == Pausing(d) || trace[i].callers[c].Returned?)
  {
    assert IsStep(trace[i - 1], steps[i - 1], trace[i]);
    hide IsStep;
    if i - 1 > a {
      ArmedSinceCall(trace, steps, a, i - 1, c, d);
      ArmedStep(trace[i - 1], steps[i - 1], trace[i], c, d);
    } else {
      ArmedAtCall(trace[a], trace[i], c, d);
    }
  }

  lemma ArmedAtCall(s: System, s': System, c: nat, d: Direction)
    requires IsStep(s, CallPause(c, d), s') && !s.state.stopping
    ensures s'.state.paused.At(d) && c in s'.callers && s'.callers[c] == Pausing(d)
  {}

  lemma ArmedStep(s: System, t: Step, s': System, c: nat, d: Direction)
    requires IsStep(s, t, s') && !Resumes(t, d) && s.state.paused.At(d)
    requires c in s.callers && (s.callers[c] == Pausing(d) || s.callers[c].Returned?)
    ensures s'.state.paused.At(d) && c in s'.callers && (s'.callers[c] == Pausing(d) || s'.callers[c].Returned?)
  {}

  /** From the moment a pause returns successfully, the proxy not stopping, until its direction is resumed, no byte
      of that direction is read or delivered; nobody may have resumed it since the call either. */
  lemma PauseHoldsUntilResume(trace: seq<System>, steps: seq<Step>, a: nat, i: nat, j: nat, c: nat, d: Direction)
    requires IsRun(trace, steps) && a < i < j < |trace|
    requires steps[a] == CallPause(c, d) && steps[i] == PauseReturns(c) && !trace[i].state.stopping
    requires forall k | a < k < j :: !Resumes(steps[k], d)
    ensures trace[i + 1].callers[c] == Returned(true) && NothingMoved(trace[i], trace[j], d)
  {
    hide IsStep;
    Forward(Init(), trace, steps, a, i);
    ArmedSinceCall(trace, steps, a, i, c, d);
    PauseMeansBarred(trace, steps, i, c);
    assert IsStep(trace[i], steps[i], trace[i + 1]);
    PauseReturning(trace[i], c, trace[i + 1]);
    RunFrom(trace, steps, i + 1, j);
    assert NeverResumes(steps[i + 1..j], d);
    assert trace[i + 1..j + 1][|steps[i + 1..j]|] == trace[j];
  }

  /** At the moment a pause returns, every worker of its direction is at the barrier and the flag is armed exactly
      when the state is held. */
  lemma PauseReturnsHeld(trace: seq<System>, steps: seq<Step>, i: nat, c: nat)
    requires IsRun(trace, steps) && i < |steps| && steps[i] == PauseReturns(c)
    ensures c in trace[i].callers && trace[i].callers[c].Pausing?
    ensures var s, d := trace[i], trace[i].callers[c].d;
            && (Held(s.state, d) <==> s.state.paused.At(d) && Waiting(s, d) == Live(s, d))
            && (!s.state.stopping ==> Waiting(s, d) == Live(s, d))
  {
    assert IsStep(trace[i], steps[i], trace[i + 1]);
    PauseReturning(trace[i], c, trace[i + 1]);
    RunIsGood(trace, steps, i);
    var d := trace[i].callers[c].d;
    SubsetSize(Waiting(trace[i], d), Live(trace[i], d));
  }

  // ----- runs in which the barrier does not hold -----

  /** One connection whose first worker is in a given phase and has received some bytes, the other one still at the
      barrier. */
  function OneWorker(phase: Phase, received: seq<bv8>, state: State, callers: map<nat, Caller>): System {
    System(state, map[0 := Both(Worker(phase, received, [], false), NewWorker(true))], map[0 := 2], [], callers)
  }

  lemma ReadSeven(s: System, s': System)
    requires 0 in s.workers && s.workers[0].toServer == Worker(Reading, [], [], false)
    requires s' == s.(workers := s.workers[0 := s.workers[0].(toServer := Worker(Writing([7], false), [7], [], false))])
    ensures IsStep(s, MoveStep(0, ToServer, Read([7])), s')
  {
    assert [] + [7 as bv8] == [7];
  }

  const ONE: State := START.(active := Both(1, 1), connections := {0}, nextId := 1)

  /** While the proxy is stopping, a pause returns successfully although a worker is about to read, and it reads. */
  lemma PauseReturnsEarlyWhileStopping() returns (trace: seq<System>, steps: seq<Step>, i: nat)
    ensures IsRun(trace, steps) && i + 1 < |steps| && steps[i] == PauseReturns(0)
    ensures trace[i].state.stopping && 0 in trace[i].callers && trace[i].callers[0] == Pausing(ToServer)
    ensures 0 in trace[i + 1].callers && trace[i + 1].callers[0] == Returned(true)
    ensures !Resumes(steps[i + 1], ToServer) && !NothingMoved(trace[i + 1], trace[i + 2], ToServer)
  {
    var armed := ONE.(paused := Both(true, false));
    var stopped := armed.(stopping := true, dropping := true);
    var s0, s1 := Init(), OneWorker(Barrier(false), [], ONE, map[]);
    var s2, s3 := OneWorker(Checking, [], ONE, map[]), OneWorker(Reading, [], ONE, map[]);
    var s4 := OneWorker(Reading, [], armed, map[0 := Pausing(ToServer)]);
    var s5 := OneWorker(Reading, [], stopped, map[0 := Pausing(ToServer)]);
    var s6 := OneWorker(Reading, [], stopped, map[0 := Returned(true)]);
    var s7 := OneWorker(Writing([7], false), [7], stopped, map[0 := Returned(true)]);
    trace, steps := [s0], [];
    assert IsStep(s0, Connect(Both(true, true)), s1);
    trace, steps := Extend(trace, steps, s0, Connect(Both(true, true)), s1);
    assert IsStep(s1, BarrierStep(0, ToServer), s2);
    trace, steps := Extend(trace, steps, s1, BarrierStep(0, ToServer), s2);
    assert IsStep(s2, MoveStep(0, ToServer, Check), s3);
    trace, steps := Extend(trace, steps, s2, MoveStep(0, ToServer, Check), s3);
    assert IsStep(s3, CallPause(0, ToServer), s4);
    trace, steps := Extend(trace, steps, s3, CallPause(0, ToServer), s4);
    assert IsStep(s4, Shutdown, s5);
    trace, steps := Extend(trace, steps, s4, Shutdown, s5);
    i := |steps|;
    assert IsStep(s5, PauseReturns(0), s6);
    trace, steps := Extend(trace, steps, s5, PauseReturns(0), s6);
    ReadSeven(s6, s7);
    trace, steps := Extend(trace, steps, s6, MoveStep(0, ToServer, Read([7])), s7);
    assert !SameBytes(s6.workers[0].At(ToServer), s7.workers[0].At(ToServer));
  }

  /** A resume that came between a pause's call and its return: the pause returns successfully, nobody resumes
      afterwards, and the next connection's bytes are read. */
  lemma OverlappingResumeDefeatsPause() returns (trace: seq<System>, steps: seq<Step>, i: nat)
    ensures IsRun(trace, steps) && |steps| == i + 5 && steps[i] == PauseReturns(0)
    ensures !trace[i].state.stopping && 0 in trace[i].callers && trace[i].callers[0] == Pausing(ToServer)
    ensures 0 in trace[i + 1].callers && trace[i + 1].callers[0] == Returned(true)
    ensures forall k | i < k < |steps| :: !Resumes(steps[k], ToServer)
    ensures !NothingMoved(trace[i + 1], trace[|steps|], ToServer)
  {
    var armed := START.(paused := Both(true, false));
    var s0, s1 := Init(), Init().(state := armed, callers := map[0 := Pausing(ToServer)]);
    var s2 := Init().(callers := map[0 := Pausing(ToServer), 1 := Resuming(ToServer)]);
    var callers := map[0 := Returned(true), 1 := Resuming(ToServer)];
    var s3, s4 := Init().(callers := callers), OneWorker(Barrier(false), [], ONE, callers);
    var s5, s6 := OneWorker(Checking, [], ONE, callers), OneWorker(Reading, [], ONE, callers);
    var s7 := OneWorker(Writing([7], false), [7], ONE, callers);
    trace, steps := [s0], [];
    assert IsStep(s0, CallPause(0, ToServer), s1);
    trace, steps := Extend(trace, steps, s0, CallPause(0, ToServer), s1);
    assert IsStep(s1, CallResume(1, ToServer), s2);
    trace, steps := Extend(trace, steps, s1, CallResume(1, ToServer), s2);
    i := |steps|;
    assert IsStep(s2, PauseReturns(0), s3);
    trace, steps := Extend(trace, steps, s2, PauseReturns(0), s3);
    assert IsStep(s3, Connect(Both(true, true)), s4);
    trace, steps := Extend(trace, steps, s3, Connect(Both(true, true)), s4);
    assert IsStep(s4, BarrierStep(0, ToServer), s5);
    trace, steps := Extend(trace, steps, s4, BarrierStep(0, ToServer), s5);
    assert IsStep(s5, MoveStep(0, ToServer, Check), s6);
    trace, steps := Extend(trace, steps, s5, MoveStep(0, ToServer, Check), s6);
    ReadSeven(s6, s7);
    trace, steps := Extend(trace, steps, s6, MoveStep(0, ToServer, Read([7])), s7);
    assert !Untouched(s7.workers[0].At(ToServer));
  }
}
