/** Runs of the registry in which a promise does not hold. */
module RegistryCounterexamples {
  import opened Wrappers
  import HandleId
  import P = Protocol
  import HL = HandleLifecycle
  import opened Registry
  import opened RegistryProtocol
  import opened RegistryRuns

  lemma Extend(quota: Quota, trace: seq<System>, steps: seq<Step>, s: System, t: Step, s': System)
    returns (trace': seq<System>, steps': seq<Step>)
    requires IsRun(quota, trace, steps) && trace[|steps|] == s && IsStep(s, t, s')
    ensures IsRun(quota, trace', steps') && trace'[|steps'|] == s' && steps' == steps + [t]
  {
    hide IsStep;
    trace', steps' := trace + [s'], steps + [t];
    forall i | 0 <= i < |steps'| ensures IsStep(trace'[i], steps'[i], trace'[i + 1]) {
      if i < |steps| {
        assert IsStep(trace[i], steps[i], trace[i + 1]);
      }
    }
  }

  lemma FirstReservation(quota: Quota, s: System, s': System)
    requires s == Init(quota) && "p" in quota && quota["p"] == Some(1)
    requires s' == s.(reg := Registry.EMPTY.(pending := map[1 := PendingOpen("p", false)], next := 2), issued := [1],
                      opens := map[1 := Connecting("p")])
    ensures IsStep(s, ReserveStep("p"), s')
  {
    assert HandlesOf(s.reg, "p") == {} && PendingOf(s.reg, "p") == {};
  }

  // ----- a verified report -----

  const ONE_EACH: Quota := map["p" := Some(1)]
  const RESERVED: RegistryState := RegistryState(Running, map[], map[1 := PendingOpen("p", false)], 2, None)
  const STOPPING: RegistryState := RegistryState(Stopping, map[], map[1 := PendingOpen("p", true)], 2, None)

  /** One open, connected while the registry was running; shutdown has begun. */
  function ConnectedAtShutdown(): System {
    System(STOPPING, ONE_EACH, [1], map[1 := Ready("p", 1)], map[1 := NewWorker(1)], map[0 := Owning],
           Collecting(0, [], [1], [], NextHandle, 0, []), {})
  }

  /** The same after the open was refused and its reservation released. */
  function RefusedAtShutdown(): System {
    ConnectedAtShutdown().(reg := STOPPING.(pending := map[]), opens := map[1 := Over],
                           workers := map[1 := Send(NewWorker(1), Stop(false))])
  }

  lemma RunToShutdown() returns (trace: seq<System>, steps: seq<Step>)
    ensures IsRun(ONE_EACH, trace, steps) && trace[|steps|] == ConnectedAtShutdown()
  {
    var s0 := Init(ONE_EACH);
    var s1 := s0.(reg := RESERVED, issued := [1], opens := map[1 := Connecting("p")]);
    var s2 := s1.(opens := map[1 := Ready("p", 1)], workers := map[1 := NewWorker(1)]);
    trace, steps := [s0], [];
    FirstReservation(ONE_EACH, s0, s1);
    trace, steps := Extend(ONE_EACH, trace, steps, s0, ReserveStep("p"), s1);
    assert IsStep(s1, ConnectSucceeds(1, 1), s2);
    trace, steps := Extend(ONE_EACH, trace, steps, s1, ConnectSucceeds(1, 1), s2);
    assert IsStep(s2, CallShutdown(0, [], [1]), ConnectedAtShutdown());
    trace, steps := Extend(ONE_EACH, trace, steps, s2, CallShutdown(0, [], [1]), ConnectedAtShutdown());
  }

  lemma RunToRefusal() returns (trace: seq<System>, steps: seq<Step>)
    ensures IsRun(ONE_EACH, trace, steps) && trace[|steps|] == RefusedAtShutdown()
  {
    var s3 := ConnectedAtShutdown();
    var s4 := s3.(opens := map[1 := Refused], workers := map[1 := Send(NewWorker(1), Stop(false))]);
    var publish := PublishStep(1, "d", HL.Observation(HL.ConnOk, P.Idle, false));
    trace, steps := RunToShutdown();
    assert IsStep(s3, publish, s4);
    trace, steps := Extend(ONE_EACH, trace, steps, s3, publish, s4);
    assert IsStep(s4, EndOpen(1), RefusedAtShutdown());
    trace, steps := Extend(ONE_EACH, trace, steps, s4, EndOpen(1), RefusedAtShutdown());
  }

  /** The owner has found the reservation gone, and then has frozen the empty report. */
  function LookedAtShutdown(): System {
    RefusedAtShutdown().(owner := Collecting(0, [], [1], [], NextHandle, 1, []))
  }

  function FrozenAtShutdown(): System {
    RefusedAtShutdown().(reg := STOPPING.(lifecycle := Stopped, pending := map[], frozen := Some([])),
                         callers := map[0 := Returned([])], owner := Done([], [1], []))
  }

  lemma SkipsReleased()
    ensures IsStep(RefusedAtShutdown(), OwnerSkipsOpen, LookedAtShutdown())
  {}

  lemma FreezesNothing()
    ensures IsStep(LookedAtShutdown(), OwnerFreezes, FrozenAtShutdown())
  {
    assert LateRows([]) == [] && [] + LateRows([]) == [];
  }

  /** A run with one open that is refused because shutdown has begun: its reservation is released, so the report
      is verified, while its worker, which was never registered, has not even seen its shutdown request. */
  lemma VerifiedReportMissesRefusedWorker() returns (trace: seq<System>, steps: seq<Step>)
    ensures IsRun(ONE_EACH, trace, steps)
    ensures var last := trace[|steps|];
            && 0 in last.callers && last.callers[0].Returned? && AllVerified(last.callers[0].report)
            && 1 in last.workers && last.workers[1].phase == Receiving && last.workers[1].ending == Alive
  {
    hide IsStep;
    trace, steps := RunToRefusal();
    SkipsReleased();
    trace, steps := Extend(ONE_EACH, trace, steps, RefusedAtShutdown(), OwnerSkipsOpen, LookedAtShutdown());
    FreezesNothing();
    trace, steps := Extend(ONE_EACH, trace, steps, LookedAtShutdown(), OwnerFreezes, FrozenAtShutdown());
  }

  // ----- a handle name -----

  /** Nothing is open, and `n` opens have been reserved. */
  ghost predicate Cycled(s: System, n: nat) {
    && s.reg.lifecycle == Running && s.reg.handles == map[] && s.reg.pending == map[]
    && s.quota == ONE_EACH && |s.issued| == n
  }

  lemma ReserveAgain(s: System, n: nat)
    requires Cycled(s, n)
    ensures Enabled(s, ReserveStep("p"))
  {
    assert HandlesOf(s.reg, "p") == {} && PendingOf(s.reg, "p") == {};
  }

  /** An open that is reserved, does not connect and is given up. */
  lemma FailedOpen(s: System, n: nat) returns (s1: System, s2: System, s3: System)
    requires Cycled(s, n)
    ensures IsStep(s, ReserveStep("p"), s1) && IsStep(s1, ConnectFails(s.reg.next), s2)
    ensures IsStep(s2, EndOpen(s.reg.next), s3) && Cycled(s3, n + 1)
  {
    ReserveAgain(s, n);
    s1 := Apply(s, ReserveStep("p"));
    s2 := Apply(s1, ConnectFails(s.reg.next));
    s3 := Apply(s2, EndOpen(s.reg.next));
    assert s3.reg.pending == map[];
  }

  lemma {:induction false} RunOfFailedOpens(n: nat) returns (trace: seq<System>, steps: seq<Step>)
    ensures IsRun(ONE_EACH, trace, steps) && Cycled(trace[|steps|], n)
  {
    if n == 0 {
      trace, steps := [Init(ONE_EACH)], [];
    } else {
      trace, steps := RunOfFailedOpens(n - 1);
      var s := trace[|steps|];
      var s1, s2, s3 := FailedOpen(s, n - 1);
      hide IsStep;
      trace, steps := Extend(ONE_EACH, trace, steps, s, ReserveStep("p"), s1);
      trace, steps := Extend(ONE_EACH, trace, steps, s1, ConnectFails(s.reg.next), s2);
      trace, steps := Extend(ONE_EACH, trace, steps, s2, EndOpen(s.reg.next), s3);
    }
  }

  /** A run, with at most one open at a time, whose last two opens were given the same handle name. */
  lemma NameGivenTwice() returns (trace: seq<System>, steps: seq<Step>)
    ensures IsRun(ONE_EACH, trace, steps)
    ensures var issued := trace[|steps|].issued;
            |issued| == HandleId.U64_MAX + 1 && issued[HandleId.U64_MAX - 1] == issued[HandleId.U64_MAX]
  {
    hide IsStep;
    trace, steps := RunOfFailedOpens(HandleId.U64_MAX + 1);
    IssuedAlways(ONE_EACH, trace, steps, |steps|);
  }
}
