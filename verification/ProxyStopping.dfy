/** After the proxy has been stopped, or while a drop is under way, every worker leaves: it takes a bounded number
    of steps, makes at most one more socket call, and is never stuck on the way. */
module ProxyStopping {
  import opened Proxy
  import opened ProxyProtocol
  import opened ProxySafety
  import opened ProxyRuns

  predicate OwnStep(t: Step, id: nat, d: Direction) {
    match t
    case BarrierStep(k, e) => k == id && e == d
    case MoveStep(k, e, _) => k == id && e == d
    case GiveUpShare(k, e) => k == id && e == d
    case Retire(k, e) => k == id && e == d
    case _ => false
  }

  /** Reading from the source or writing to the destination; the other moves look at the flags. */
  predicate SocketCall(t: Step, id: nat, d: Direction) {
    t.MoveStep? && t.id == id && t.d == d && !t.m.Check? && !t.m.WriteCheck?
  }

  /** At most how many steps the worker still takes once it is to stop. */
  function StepsLeft(p: Phase): nat {
    match p
    case Gone(_) => 0
    case Retiring(_) => 1
    case Leaving => 2
    case Barrier(_) => 3
    case Checking => 3
    case Writing(_, checked) => if checked then 5 else 4
    case Reading => 5
  }

  /** It still makes the socket call it is about to make, and no other. */
  function CallsLeft(p: Phase): nat {
    if p == Reading || (p.Writing? && p.checked) then 1 else 0
  }

  lemma BarrierWindsDown(s: System, id: nat, d: Direction)
    requires Enabled(s, BarrierStep(id, d)) && Stopped(s.state)
    ensures var s' := Apply(s, BarrierStep(id, d)); id in s'.workers && s'.workers[id].At(d).phase == Leaving
  {}

  lemma MoveWindsDown(w: Worker, m: Move)
    requires CanMove(w, m)
    ensures var p := Moved(w, m, true).phase;
            && StepsLeft(p) < StepsLeft(w.phase)
            && CallsLeft(p) + (if m.Check? || m.WriteCheck? then 0 else 1) <= CallsLeft(w.phase)
  {}

  lemma WindsDown(s: System, t: Step, id: nat, d: Direction)
    requires Enabled(s, t) && Stopped(s.state) && OwnStep(t, id, d)
    ensures id in s.workers && id in Apply(s, t).workers
    ensures var p, q := s.workers[id].At(d).phase, Apply(s, t).workers[id].At(d).phase;
            StepsLeft(q) < StepsLeft(p) && CallsLeft(q) + (if SocketCall(t, id, d) then 1 else 0) <= CallsLeft(p)
  {
    if t.MoveStep? {
      MoveWindsDown(s.workers[id].At(d), t.m);
    } else if t.BarrierStep? {
      BarrierWindsDown(s, id, d);
    }
  }

  lemma OthersLeaveIt(s: System, t: Step, id: nat, d: Direction)
    requires Enabled(s, t) && id in s.workers && id < s.state.nextId && !OwnStep(t, id, d)
    ensures id in Apply(s, t).workers && Apply(s, t).workers[id].At(d) == s.workers[id].At(d)
    ensures !SocketCall(t, id, d)
  {}

  function OwnSteps(steps: seq<Step>, id: nat, d: Direction): nat {
    if steps == [] then 0
    else OwnSteps(steps[..|steps| - 1], id, d) + if OwnStep(steps[|steps| - 1], id, d) then 1 else 0
  }

  function SocketCalls(steps: seq<Step>, id: nat, d: Direction): nat {
    if steps == [] then 0
    else SocketCalls(steps[..|steps| - 1], id, d) + if SocketCall(steps[|steps| - 1], id, d) then 1 else 0
  }

  lemma WindStep(s: System, t: Step, s': System, id: nat, d: Direction)
    requires Good(s) && IsStep(s, t, s') && Stopped(s.state) && id in s.workers
    ensures id in s'.workers
    ensures var p, q := s.workers[id].At(d).phase, s'.workers[id].At(d).phase;
            && StepsLeft(q) + (if OwnStep(t, id, d) then 1 else 0) <= StepsLeft(p)
            && CallsLeft(q) + (if SocketCall(t, id, d) then 1 else 0) <= CallsLeft(p)
  {
    hide Enabled, Apply, OwnStep, SocketCall, StepsLeft, CallsLeft;
    if OwnStep(t, id, d) {
      WindsDown(s, t, id, d);
    } else {
      OthersLeaveIt(s, t, id, d);
    }
  }

  /** As long as the flags stay set a worker takes at most five more steps, of which at most one is a socket call. */
  lemma {:induction false} StoppedWorkersLeave(trace: seq<System>, steps: seq<Step>, i: nat, j: nat, id: nat,
                                               d: Direction)
    requires IsRun(trace, steps) && i <= j < |trace| && id in trace[i].workers
    requires forall k | i <= k < j :: Stopped(trace[k].state)
    ensures id in trace[j].workers
    ensures OwnSteps(steps[i..j], id, d) + StepsLeft(trace[j].workers[id].At(d).phase)
            <= StepsLeft(trace[i].workers[id].At(d).phase) <= 5
    ensures SocketCalls(steps[i..j], id, d) + CallsLeft(trace[j].workers[id].At(d).phase)
            <= CallsLeft(trace[i].workers[id].At(d).phase) <= 1
  {
    hide IsStep, Good, Stopped, OwnStep, SocketCall;
    if i < j {
      StoppedWorkersLeave(trace, steps, i, j - 1, id, d);
      RunIsGood(trace, steps, j - 1);
      assert IsStep(trace[j - 1], steps[j - 1], trace[j]);
      WindStep(trace[j - 1], steps[j - 1], trace[j], id, d);
      assert steps[i..j][..j - 1 - i] == steps[i..j - 1];
    }
  }

  /** Stopping is for good, so after it that is all a worker ever does. */
  lemma StopEndsForwarding(trace: seq<System>, steps: seq<Step>, i: nat, j: nat, id: nat, d: Direction)
    requires IsRun(trace, steps) && i <= j < |trace| && id in trace[i].workers && trace[i].state.stopping
    ensures OwnSteps(steps[i..j], id, d) <= 5 && SocketCalls(steps[i..j], id, d) <= 1
  {
    hide IsStep, Good;
    forall k | i <= k < j ensures Stopped(trace[k].state) {
      Forward(Init(), trace, steps, i, k);
    }
    StoppedWorkersLeave(trace, steps, i, j, id, d);
  }

  // ----- nothing is stuck -----

  lemma SocketNeverStuck(s: System, id: nat, d: Direction)
    requires id in s.workers
    ensures match s.workers[id].At(d).phase
            case Reading =>
              && (forall bytes | bytes != [] :: Enabled(s, MoveStep(id, d, Read(bytes))))
              && Enabled(s, MoveStep(id, d, ReadAgain)) && Enabled(s, MoveStep(id, d, ReadEnds))
              && Enabled(s, MoveStep(id, d, ReadFails))
            case Writing(pending, checked) =>
              if checked then
                && (forall n | 0 <= n <= |pending| :: Enabled(s, MoveStep(id, d, Write(n))))
                && Enabled(s, MoveStep(id, d, WriteAgain)) && Enabled(s, MoveStep(id, d, WriteFails))
              else Enabled(s, MoveStep(id, d, WriteCheck))
            case _ => true
  {}

  lemma CanGoOn(s: System, id: nat, d: Direction)
    requires id in s.workers && id in s.live
    ensures match s.workers[id].At(d).phase
            case Barrier(_) => Enabled(s, BarrierStep(id, d))
            case Checking => Enabled(s, MoveStep(id, d, Check))
            case Leaving => Enabled(s, GiveUpShare(id, d))
            case Retiring(_) => Enabled(s, Retire(id, d))
            case _ => true
  {}

  /** A worker that is not gone can go on, whatever the sockets do. */
  lemma WorkerNeverStuck(s: System, id: nat, d: Direction)
    requires Good(s) && id in s.workers
    ensures match s.workers[id].At(d).phase
            case Barrier(_) => Enabled(s, BarrierStep(id, d))
            case Checking => Enabled(s, MoveStep(id, d, Check))
            case Reading =>
              && (forall bytes | bytes != [] :: Enabled(s, MoveStep(id, d, Read(bytes))))
              && Enabled(s, MoveStep(id, d, ReadAgain)) && Enabled(s, MoveStep(id, d, ReadEnds))
              && Enabled(s, MoveStep(id, d, ReadFails))
            case Writing(pending, checked) =>
              if checked then
                && (forall n | 0 <= n <= |pending| :: Enabled(s, MoveStep(id, d, Write(n))))
                && Enabled(s, MoveStep(id, d, WriteAgain)) && Enabled(s, MoveStep(id, d, WriteFails))
              else Enabled(s, MoveStep(id, d, WriteCheck))
            case Leaving => Enabled(s, GiveUpShare(id, d))
            case Retiring(_) => Enabled(s, Retire(id, d))
            case Gone(_) => true
  {
    hide Good, Enabled;
    SharesAreCounted(s);
    if s.workers[id].At(d).phase.Reading? || s.workers[id].At(d).phase.Writing? {
      SocketNeverStuck(s, id, d);
    } else {
      CanGoOn(s, id, d);
    }
  }

  lemma SharesAreCounted(s: System)
    requires Good(s)
    ensures s.live.Keys == s.workers.Keys
  {}

  /** A controller that has called can always return: its condition holds, or its deadline may pass; and one that has
      returned does nothing more. */
  lemma CallerNeverStuck(s: System, c: nat)
    requires c in s.callers
    ensures match s.callers[c]
            case Pausing(_) => Enabled(s, PauseReturns(c)) <==> !Enabled(s, PauseExpires(c))
            case Resuming(_) => Enabled(s, ResumeReturns(c)) <==> !Enabled(s, ResumeExpires(c))
            case Dropping => Enabled(s, DropObserves(c)) <==> !Enabled(s, DropExpires(c))
            case DropEnding(_) => Enabled(s, DropReleases(c))
            case Returned(_) => true
  {}
}
