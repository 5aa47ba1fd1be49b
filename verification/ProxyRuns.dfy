/** Runs of the proxy: every interleaving of its workers and controllers. */
module ProxyRuns {
  import opened Proxy
  import opened ProxyProtocol
  import opened ProxySafety

  ghost predicate IsStep(s: System, t: Step, s': System) {
    Enabled(s, t) && s' == Apply(s, t)
  }

  /** A run from any state on. */
  ghost predicate Continues(s: System, trace: seq<System>, steps: seq<Step>) {
    && |trace| == |steps| + 1
    && trace[0] == s
    && forall i | 0 <= i < |steps| :: IsStep(trace[i], steps[i], trace[i + 1])
  }

  ghost predicate IsRun(trace: seq<System>, steps: seq<Step>) {
    Continues(Init(), trace, steps)
  }

  lemma InitIsGood()
    ensures Good(Init())
  {
    assert forall d :: Live(Init(), d) == {} && Waiting(Init(), d) == {};
  }

  lemma {:induction false} ContinuesGood(s: System, trace: seq<System>, steps: seq<Step>, i: nat)
    requires Good(s) && Continues(s, trace, steps) && i < |trace|
    ensures Good(trace[i])
  {
    hide Good;
    if i > 0 {
      ContinuesGood(s, trace, steps, i - 1);
      assert IsStep(trace[i - 1], steps[i - 1], trace[i]);
      StepKeeps(trace[i - 1], steps[i - 1]);
    }
  }

  lemma RunIsGood(trace: seq<System>, steps: seq<Step>, i: nat)
    requires IsRun(trace, steps) && i < |trace|
    ensures Good(trace[i])
  {
    hide Good;
    InitIsGood();
    ContinuesGood(Init(), trace, steps, i);
  }

  /** What follows a state of a run continues that state. */
  lemma RunFrom(trace: seq<System>, steps: seq<Step>, i: nat, j: nat)
    requires IsRun(trace, steps) && i <= j < |trace|
    ensures Continues(trace[i], trace[i..j + 1], steps[i..j])
  {
    hide IsStep;
    forall k | 0 <= k < j - i ensures IsStep(trace[i..j + 1][k], steps[i..j][k], trace[i..j + 1][k + 1]) {
      assert IsStep(trace[i + k], steps[i + k], trace[i + k + 1]);
    }
  }

  lemma Prepend(s: System, t: Step, s': System, trace: seq<System>, steps: seq<Step>)
    requires IsStep(s, t, s') && Continues(s', trace, steps)
    ensures Continues(s, [s] + trace, [t] + steps)
  {
    hide IsStep;
    var trace', steps' := [s] + trace, [t] + steps;
    forall k | 0 <= k < |steps'| ensures IsStep(trace'[k], steps'[k], trace'[k + 1]) {
      if k > 0 {
        assert IsStep(trace[k - 1], steps[k - 1], trace[k]);
      }
    }
  }

  lemma Extend(trace: seq<System>, steps: seq<Step>, s: System, t: Step, s': System)
    returns (trace': seq<System>, steps': seq<Step>)
    requires IsRun(trace, steps) && trace[|steps|] == s && IsStep(s, t, s')
    ensures IsRun(trace', steps') && trace'[|steps'|] == s'
    ensures trace' == trace + [s'] && steps' == steps + [t]
  {
    hide IsStep;
    trace', steps' := trace + [s'], steps + [t];
    forall i | 0 <= i < |steps'| ensures IsStep(trace'[i], steps'[i], trace'[i + 1]) {
      if i < |steps| {
        assert IsStep(trace[i], steps[i], trace[i + 1]);
      }
    }
  }

  // ----- counts and connections -----

  /** In every reachable state the count of paused workers is the number of workers that wait at the barrier, and
      it never exceeds the number of workers that have not retired. */
  lemma PausedAreWaiting(trace: seq<System>, steps: seq<Step>, i: nat, d: Direction)
    requires IsRun(trace, steps) && i < |trace|
    ensures trace[i].state.pausedWorkers.At(d) == |Waiting(trace[i], d)|
    ensures trace[i].state.active.At(d) == |Live(trace[i], d)|
    ensures trace[i].state.pausedWorkers.At(d) <= trace[i].state.active.At(d)
  {
    RunIsGood(trace, steps, i);
    SubsetSize(Waiting(trace[i], d), Live(trace[i], d));
  }

  lemma {:induction false} SubsetSize<T>(a: set<T>, b: set<T>)
    requires a <= b
    ensures |a| <= |b|
    ensures |a| == |b| ==> a == b
  {
    assert |b - a| == |b| - |a|;
  }

  /** In any state the map holds exactly the connections that are not yet removed, none removed twice. */
  lemma RemovedOnce(trace: seq<System>, steps: seq<Step>, i: nat)
    requires IsRun(trace, steps) && i < |trace|
    ensures forall id :: id in trace[i].removed <==> id in trace[i].workers && id !in trace[i].state.connections
    ensures forall a, b | 0 <= a < b < |trace[i].removed| :: trace[i].removed[a] != trace[i].removed[b]
  {
    RunIsGood(trace, steps, i);
  }

  // ----- what never goes back -----

  lemma ForwardStep(s: System, t: Step, s': System)
    requires IsStep(s, t, s')
    ensures s.workers.Keys <= s'.workers.Keys
    ensures s.state.stopping ==> s'.state.stopping
    ensures forall c | c in s.callers :: c in s'.callers && (s.callers[c].Returned? ==> s'.callers[c] == s.callers[c])
  {}

  /** Connections are never forgotten, stopping is for good, and a call that has returned has returned. */
  lemma {:induction false} Forward(s: System, trace: seq<System>, steps: seq<Step>, i: nat, j: nat)
    requires Continues(s, trace, steps) && i <= j < |trace|
    ensures trace[i].workers.Keys <= trace[j].workers.Keys
    ensures trace[i].state.stopping ==> trace[j].state.stopping
    ensures forall c | c in trace[i].callers ::
              c in trace[j].callers && (trace[i].callers[c].Returned? ==> trace[j].callers[c] == trace[i].callers[c])
  {
    hide IsStep;
    if i < j {
      Forward(s, trace, steps, i, j - 1);
      assert IsStep(trace[j - 1], steps[j - 1], trace[j]);
      ForwardStep(trace[j - 1], steps[j - 1], trace[j]);
    }
  }

  // ----- transparency -----

  /** In every interleaving what a direction has delivered is a prefix of what it has received; a direction that
      forwarded until its source ended has delivered all of it. */
  lemma Transparent(trace: seq<System>, steps: seq<Step>, i: nat, id: nat, d: Direction)
    requires IsRun(trace, steps) && i < |trace| && id in trace[i].workers
    ensures var w := trace[i].workers[id].At(d);
            && w.delivered <= w.received
            && (w.sourceEnded ==> w.delivered == w.received)
            && (w.phase.Barrier? || w.phase == Checking || w.phase == Reading ==> w.delivered == w.received)
  {
    RunIsGood(trace, steps, i);
    assert WorkerOk(trace[i].workers[id].At(d));
  }
}
