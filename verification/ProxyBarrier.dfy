/** Passing the barrier: no byte is read without it, and what a resume that has returned says about it. */
module ProxyBarrier {
  import opened Proxy
  import opened ProxyProtocol
  import opened ProxySafety
  import opened ProxyRuns
  import opened ProxyStopping

  // ----- every read passes the barrier -----

  /** With step `k` the worker goes through the barrier: its direction is not paused and nothing is to stop. */
  ghost predicate PassesAt(trace: seq<System>, steps: seq<Step>, k: nat, id: nat, d: Direction)
    requires k < |steps| < |trace|
  {
    steps[k] == BarrierStep(id, d) && !trace[k].state.paused.At(d) && !Stopped(trace[k].state)
  }

  /** It has gone through the barrier and made no socket call since. */
  ghost predicate Passed(trace: seq<System>, steps: seq<Step>, j: nat, id: nat, d: Direction)
    requires j <= |steps| < |trace|
  {
    exists k: nat :: k < j && PassesAt(trace, steps, k, id, d) && forall n | k < n < j :: !SocketCall(steps[n], id, d)
  }

  predicate PastBarrier(p: Phase) {
    p == Checking || p == Reading
  }

  /** Only the barrier lets a worker past it, and only from there does it come to reading. */
  lemma PastBarrierStep(s: System, t: Step, id: nat, d: Direction)
    requires Enabled(s, t) && id in Apply(s, t).workers && PastBarrier(Apply(s, t).workers[id].At(d).phase)
    ensures !SocketCall(t, id, d)
    ensures if t == BarrierStep(id, d) then !s.state.paused.At(d) && !Stopped(s.state)
            else id in s.workers && PastBarrier(s.workers[id].At(d).phase)
  {}

  lemma {:induction false} PastBarrierPassed(trace: seq<System>, steps: seq<Step>, j: nat, id: nat, d: Direction)
    requires IsRun(trace, steps) && j < |trace|
    requires id in trace[j].workers && PastBarrier(trace[j].workers[id].At(d).phase)
    ensures Passed(trace, steps, j, id, d)
  {
    hide Enabled, Apply, SocketCall, PastBarrier;
    if j > 0 {
      var t := steps[j - 1];
      assert IsStep(trace[j - 1], t, trace[j]);
      PastBarrierStep(trace[j - 1], t, id, d);
      if t == BarrierStep(id, d) {
        assert PassesAt(trace, steps, j - 1, id, d);
      } else {
        PastBarrierPassed(trace, steps, j - 1, id, d);
        var k: nat :| k < j - 1 && PassesAt(trace, steps, k, id, d)
                      && forall n | k < n < j - 1 :: !SocketCall(steps[n], id, d);
      }
    }
  }

  /** In every run each look at the source, also one after a look that found nothing yet, comes after a passage of
      the barrier of its own: nothing was paused, stopping or being dropped then, and the worker has made no socket
      call since. */
  lemma EveryReadPassesBarrier(trace: seq<System>, steps: seq<Step>, j: nat, id: nat, d: Direction, m: Move)
    requires IsRun(trace, steps) && j < |steps| && steps[j] == MoveStep(id, d, m)
    requires m.Read? || m.ReadAgain? || m.ReadEnds? || m.ReadFails?
    ensures Passed(trace, steps, j, id, d)
  {
    assert IsStep(trace[j], steps[j], trace[j + 1]);
    hide Passed, IsRun;
    PastBarrierPassed(trace, steps, j, id, d);
  }

  // ----- resuming -----

  lemma NobodyWaits(s: System, d: Direction)
    requires Good(s) && s.state.pausedWorkers.At(d) == 0
    ensures forall id | id in s.workers :: s.workers[id].At(d).phase != Barrier(true)
  {
    assert |Waiting(s, d)| == 0;
    assert forall id | id in s.workers && s.workers[id].At(d).phase == Barrier(true) :: id in Waiting(s, d);
  }

  /** A resume returns Ok exactly if the proxy is not stopping and its deadline has not passed, and then no worker
      of the direction waits at the barrier any more: all of them have seen the release. */
  lemma ResumeMeansReleased(trace: seq<System>, steps: seq<Step>, j: nat, c: nat)
    requires IsRun(trace, steps) && j < |steps| && c in trace[j].callers && trace[j].callers[c].Resuming?
    requires steps[j] == ResumeReturns(c) || steps[j] == ResumeExpires(c)
    ensures c in trace[j + 1].callers && trace[j + 1].callers[c].Returned?
    ensures trace[j + 1].callers[c].ok <==> steps[j].ResumeReturns? && !trace[j].state.stopping
    ensures trace[j + 1].callers[c].ok ==>
              forall id | id in trace[j].workers :: trace[j].workers[id].At(trace[j].callers[c].d).phase != Barrier(true)
  {
    assert IsStep(trace[j], steps[j], trace[j + 1]);
    RunIsGood(trace, steps, j);
    hide Good, IsRun;
    if trace[j].state.pausedWorkers.At(trace[j].callers[c].d) == 0 {
      NobodyWaits(trace[j], trace[j].callers[c].d);
    }
  }
}
