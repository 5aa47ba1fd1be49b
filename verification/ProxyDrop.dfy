/** What a drop that has returned means, exactly. */
module ProxyDrop {
  import opened Proxy
  import opened ProxyProtocol
  import opened ProxySafety
  import opened ProxyRuns

  /** When a drop observes its condition, every worker of every connection has retired and every connection ever
      admitted has been removed, once. */
  lemma DropSucceeds(trace: seq<System>, steps: seq<Step>, i: nat)
    requires IsRun(trace, steps) && i < |trace| && AllGone(trace[i].state)
    ensures forall id, d | id in trace[i].workers :: trace[i].workers[id].At(d).phase.Gone?
    ensures forall id :: id in trace[i].workers <==> id in trace[i].removed
    ensures forall a, b | 0 <= a < b < |trace[i].removed| :: trace[i].removed[a] != trace[i].removed[b]
  {
    RunIsGood(trace, steps, i);
    var s := trace[i];
    forall id, d | id in s.workers ensures s.workers[id].At(d).phase.Gone? {
      assert |Live(s, d)| == 0;
      assert id !in Live(s, d);
    }
  }

  /** Only the release of a drop clears the flag, and nothing is admitted while it is set. */
  lemma DroppingStep(s: System, t: Step, s': System)
    requires IsStep(s, t, s') && s.state.dropping
    ensures s'.state.dropping <==> !t.DropReleases?
    ensures s'.workers.Keys == s.workers.Keys && s'.state.connections <= s.state.connections
  {}

  /** From the moment a drop has set its flag until some drop releases it, no connection is admitted. */
  lemma {:induction false} NoneAdmittedWhileDropping(trace: seq<System>, steps: seq<Step>, i: nat, j: nat)
    requires IsRun(trace, steps) && i <= j < |trace| && trace[i].state.dropping
    requires forall k | i <= k < j :: !steps[k].DropReleases?
    ensures trace[j].state.dropping && trace[j].workers.Keys == trace[i].workers.Keys
    ensures trace[j].state.connections <= trace[i].state.connections
  {
    hide IsStep;
    if i < j {
      NoneAdmittedWhileDropping(trace, steps, i, j - 1);
      assert IsStep(trace[j - 1], steps[j - 1], trace[j]);
      DroppingStep(trace[j - 1], steps[j - 1], trace[j]);
    }
  }

  // ----- what a drop that returned means -----

  /** Between the two moments no connection was admitted, and at the second every connection has been removed,
      exactly once, and no worker is live. */
  ghost predicate Dropped(s: System, s': System) {
    && s'.workers.Keys == s.workers.Keys && s'.state.connections == {}
    && (forall id, d | id in s'.workers :: s'.workers[id].At(d).phase.Gone?)
    && (forall id :: id in s'.removed <==> id in s.workers)
    && (forall a, b | 0 <= a < b < |s'.removed| :: s'.removed[a] != s'.removed[b])
  }

  /** `add_connection` refused every connection that came in between. */
  ghost predicate AllRefused(trace: seq<System>, steps: seq<Step>, i: nat, j: nat)
    requires i < j <= |steps| < |trace|
  {
    forall k | i < k < j && steps[k].Connect? :: Stopped(trace[k].state)
  }

  /** A drop that saw everything gone still sees it, as long as connections are refused. */
  lemma GoneStep(s: System, t: Step, s': System, c: nat)
    requires IsStep(s, t, s') && (t.Connect? ==> Stopped(s.state))
    requires c in s.callers && !s.callers[c].Pausing? && !s.callers[c].Resuming?
    requires s.callers[c] == DropEnding(true) ==> AllGone(s.state)
    ensures s'.workers.Keys == s.workers.Keys
    ensures c in s'.callers && !s'.callers[c].Pausing? && !s'.callers[c].Resuming?
    ensures s'.callers[c] == DropEnding(true) ==> AllGone(s'.state)
  {}

  lemma {:induction false} RefusedAlong(trace: seq<System>, steps: seq<Step>, i: nat, j: nat, c: nat)
    requires IsRun(trace, steps) && i < j <= |steps| && steps[i] == CallDrop(c) && AllRefused(trace, steps, i, j)
    ensures trace[j].workers.Keys == trace[i].workers.Keys
    ensures c in trace[j].callers && !trace[j].callers[c].Pausing? && !trace[j].callers[c].Resuming?
    ensures trace[j].callers[c] == DropEnding(true) ==> AllGone(trace[j].state)
  {
    if j == i + 1 {
      assert IsStep(trace[i], steps[i], trace[j]);
    } else {
      hide IsStep;
      RefusedAlong(trace, steps, i, j - 1, c);
      assert IsStep(trace[j - 1], steps[j - 1], trace[j]);
      GoneStep(trace[j - 1], steps[j - 1], trace[j], c);
    }
  }

  /** An admitted connection is remembered. */
  lemma AdmittedIsNew(trace: seq<System>, steps: seq<Step>, i: nat, j: nat, k: nat)
    requires IsRun(trace, steps) && i < k < j <= |steps| && steps[k].Connect? && !Stopped(trace[k].state)
    ensures trace[j].workers.Keys != trace[i].workers.Keys
  {
    RunIsGood(trace, steps, k);
    var id := trace[k].state.nextId;
    assert IsStep(trace[k], steps[k], trace[k + 1]);
    assert id !in trace[k].workers && id in trace[k + 1].workers;
    Forward(Init(), trace, steps, i, k);
    Forward(Init(), trace, steps, k + 1, j);
  }

  lemma Releasing(s: System, c: nat, s': System)
    requires IsStep(s, DropReleases(c), s')
    ensures c in s.callers && s.callers[c].DropEnding?
    ensures c in s'.callers && s'.callers[c] == Returned(s.callers[c].ok)
    ensures s'.workers == s.workers && s'.removed == s.removed && s'.state == s.state.(dropping := false)
  {}

  /** `drop_connections` that returns successfully has done its work at that moment exactly when every connection
      that came in since the call was refused. */
  lemma DropMeansDropped(trace: seq<System>, steps: seq<Step>, i: nat, j: nat, c: nat)
    requires IsRun(trace, steps) && i < j < |steps| && steps[i] == CallDrop(c) && steps[j] == DropReleases(c)
    requires c in trace[j + 1].callers && trace[j + 1].callers[c] == Returned(true)
    ensures Dropped(trace[i], trace[j + 1]) <==> AllRefused(trace, steps, i, j)
  {
    assert IsStep(trace[j], steps[j], trace[j + 1]);
    hide IsStep;
    Releasing(trace[j], c, trace[j + 1]);
    if AllRefused(trace, steps, i, j) {
      RefusedAlong(trace, steps, i, j, c);
      DropSucceeds(trace, steps, j);
    } else {
      var k :| i < k < j && steps[k].Connect? && !Stopped(trace[k].state);
      AdmittedIsNew(trace, steps, i, j, k);
    }
  }

  /** A call that was accepted has set the flag. */
  lemma AcceptedSetsFlag(trace: seq<System>, steps: seq<Step>, i: nat, j: nat, c: nat)
    requires IsRun(trace, steps) && i < j < |steps| && steps[i] == CallDrop(c) && steps[j] == DropReleases(c)
    ensures trace[i + 1].state.dropping
  {
    assert IsStep(trace[i], steps[i], trace[i + 1]);
    assert IsStep(trace[j], steps[j], trace[j + 1]);
    Releasing(trace[j], c, trace[j + 1]);
    Forward(Init(), trace, steps, i + 1, j);
  }

  /** A drop during which no other drop releases the flag: when it returns successfully, its work is done. */
  lemma DropAloneIsDropped(trace: seq<System>, steps: seq<Step>, i: nat, j: nat, c: nat)
    requires IsRun(trace, steps) && i < j < |steps| && steps[i] == CallDrop(c) && steps[j] == DropReleases(c)
    requires c in trace[j + 1].callers && trace[j + 1].callers[c] == Returned(true)
    requires forall k | i < k < j :: !steps[k].DropReleases?
    ensures Dropped(trace[i], trace[j + 1])
  {
    hide IsStep, Dropped;
    AcceptedSetsFlag(trace, steps, i, j, c);
    forall k | i < k < j && steps[k].Connect? ensures Stopped(trace[k].state) {
      NoneAdmittedWhileDropping(trace, steps, i + 1, k);
    }
    DropMeansDropped(trace, steps, i, j, c);
  }

  /** Two drops at a time: the release of one lets a connection in, and the other returns successfully while that
      connection is live. */
  lemma OverlappingDropLetsConnectionIn() returns (trace: seq<System>, steps: seq<Step>, j: nat)
    ensures IsRun(trace, steps) && 0 < j < |steps| && steps[0] == CallDrop(0) && steps[j] == DropReleases(0)
    ensures 0 in trace[j + 1].callers && trace[j + 1].callers[0] == Returned(true)
    ensures !Dropped(trace[0], trace[j + 1]) && trace[j + 1].state.connections != {}
  {
    var flag := START.(dropping := true);
    var one := START.(active := Both(1, 1), connections := {0}, nextId := 1);
    var s0, s1 := Init(), Init().(state := flag, callers := map[0 := Dropping]);
    var s2 := s1.(callers := map[0 := Dropping, 1 := Dropping]);
    var s3 := s1.(callers := map[0 := DropEnding(true), 1 := Dropping]);
    var s4 := s1.(callers := map[0 := DropEnding(true), 1 := DropEnding(true)]);
    var s5 := s1.(state := START, callers := map[0 := DropEnding(true), 1 := Returned(true)]);
    var s6 := s5.(state := one, workers := map[0 := Both(NewWorker(true), NewWorker(true))], live := map[0 := 2]);
    var s7 := s6.(callers := map[0 := Returned(true), 1 := Returned(true)]);
    trace, steps := [s0], [];
    assert IsStep(s0, CallDrop(0), s1);
    trace, steps := Extend(trace, steps, s0, CallDrop(0), s1);
    assert IsStep(s1, CallDrop(1), s2);
    trace, steps := Extend(trace, steps, s1, CallDrop(1), s2);
    assert IsStep(s2, DropObserves(0), s3);
    trace, steps := Extend(trace, steps, s2, DropObserves(0), s3);
    assert IsStep(s3, DropObserves(1), s4);
    trace, steps := Extend(trace, steps, s3, DropObserves(1), s4);
    assert IsStep(s4, DropReleases(1), s5);
    trace, steps := Extend(trace, steps, s4, DropReleases(1), s5);
    assert IsStep(s5, Connect(Both(true, true)), s6);
    trace, steps := Extend(trace, steps, s5, Connect(Both(true, true)), s6);
    j := |steps|;
    assert IsStep(s6, DropReleases(0), s7);
    trace, steps := Extend(trace, steps, s6, DropReleases(0), s7);
    assert 0 in s7.state.connections;
  }
}
