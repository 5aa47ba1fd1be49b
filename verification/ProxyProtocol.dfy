/** The proxy's forwarding workers and its controllers as one state machine: a step is one critical section, one
    atomic counter operation or one socket call of one thread. */
module ProxyProtocol {
  import opened Proxy

  // ----- threads -----

  datatype Phase =
    | Barrier(flag: bool)                              // in the loop of the pause barrier
    | Checking                                         // past the barrier
    | Reading
    | Writing(pending: seq<bv8>, checked: bool)
    | Leaving                                          // out of the forwarding loop
    | Retiring(last: bool)                             // has given up its share of the connection
    | Gone(last: bool)

  /** One direction of one connection: everything read from the source and written to the destination. */
  datatype Worker = Worker(phase: Phase, received: seq<bv8>, delivered: seq<bv8>, sourceEnded: bool)

  datatype Caller =
    | Pausing(d: Direction)
    | Resuming(d: Direction)
    | Dropping
    | DropEnding(ok: bool)
    | Returned(ok: bool)

  datatype System = System(
    state: State,
    workers: map<nat, Both<Worker>>,
    live: map<nat, nat>,             // `live_workers` of each connection
    removed: seq<nat>,               // connections taken out of the map, in order
    callers: map<nat, Caller>)

  function Init(): System {
    System(START, map[], map[], [], map[])
  }

  function NewWorker(started: bool): Worker {
    Worker(if started then Barrier(false) else Leaving, [], [], false)
  }

  // ----- what one worker does -----

  datatype Move =
    | Check
    | Read(bytes: seq<bv8>)
    | ReadAgain
    | ReadEnds
    | ReadFails
    | WriteCheck
    | Write(n: nat)
    | WriteAgain
    | WriteFails

  predicate CanMove(w: Worker, m: Move) {
    match m
    case Check => w.phase == Checking
    case Read(bytes) => w.phase == Reading && bytes != []
    case ReadAgain => w.phase == Reading
    case ReadEnds => w.phase == Reading
    case ReadFails => w.phase == Reading
    case WriteCheck => w.phase.Writing? && !w.phase.checked
    case Write(n) => w.phase.Writing? && w.phase.checked && n <= |w.phase.pending|
    case WriteAgain => w.phase.Writing? && w.phase.checked
    case WriteFails => w.phase.Writing? && w.phase.checked
  }

  /** The forwarding loop outside the lock; `stopped` is what a look at the shared flags says. */
  function Moved(w: Worker, m: Move, stopped: bool): Worker
    requires CanMove(w, m)
  {
    match m
    case Check => w.(phase := if stopped then Leaving else Reading)
    case Read(bytes) => w.(phase := Writing(bytes, false), received := w.received + bytes)
    case ReadAgain => w.(phase := Barrier(false))
    case ReadEnds => w.(phase := Leaving, sourceEnded := true)
    case ReadFails => w.(phase := Leaving)
    case WriteCheck =>
      w.(phase := if w.phase.pending == [] then Barrier(false)
                  else if stopped then Leaving
                  else Writing(w.phase.pending, true))
    case Write(n) =>
      if n == 0 then w.(phase := Leaving)
      else w.(phase := Writing(w.phase.pending[n..], false), delivered := w.delivered + w.phase.pending[..n])
    case WriteAgain => w.(phase := Writing(w.phase.pending, false))
    case WriteFails => w.(phase := Leaving)
  }

  function AfterBarrier(w: Worker, flag: bool, v: Verdict): Worker {
    w.(phase := match v case Wait => Barrier(flag) case Proceed => Checking case Quit => Leaving)
  }

  // ----- steps -----

  datatype Step =
    | Connect(started: Both<bool>)
    | BarrierStep(id: nat, d: Direction)
    | MoveStep(id: nat, d: Direction, m: Move)
    | GiveUpShare(id: nat, d: Direction)      // the atomic decrement of `live_workers`
    | Retire(id: nat, d: Direction)
    | CallPause(c: nat, d: Direction)
    | PauseReturns(c: nat)
    | PauseExpires(c: nat)
    | CallResume(c: nat, d: Direction)
    | ResumeReturns(c: nat)
    | ResumeExpires(c: nat)
    | CallDrop(c: nat)
    | DropObserves(c: nat)
    | DropExpires(c: nat)
    | DropReleases(c: nat)
    | Shutdown

  predicate PauseReached(s: State, d: Direction) {
    s.stopping || AllQuiet(s, d)
  }

  predicate ResumeReached(s: State, d: Direction) {
    s.stopping || s.pausedWorkers.At(d) == 0
  }

  predicate Enabled(s: System, t: Step) {
    match t
    case Connect(_) => true
    case BarrierStep(id, d) => id in s.workers && s.workers[id].At(d).phase.Barrier?
    case MoveStep(id, d, m) => id in s.workers && CanMove(s.workers[id].At(d), m)
    case GiveUpShare(id, d) => id in s.workers && id in s.live && s.workers[id].At(d).phase == Leaving
    case Retire(id, d) => id in s.workers && s.workers[id].At(d).phase.Retiring?
    case CallPause(c, _) => c !in s.callers
    case PauseReturns(c) => c in s.callers && s.callers[c].Pausing? && PauseReached(s.state, s.callers[c].d)
    case PauseExpires(c) => c in s.callers && s.callers[c].Pausing? && !PauseReached(s.state, s.callers[c].d)
    case CallResume(c, _) => c !in s.callers
    case ResumeReturns(c) => c in s.callers && s.callers[c].Resuming? && ResumeReached(s.state, s.callers[c].d)
    case ResumeExpires(c) => c in s.callers && s.callers[c].Resuming? && !ResumeReached(s.state, s.callers[c].d)
    case CallDrop(c) => c !in s.callers
    case DropObserves(c) => c in s.callers && s.callers[c] == Dropping && AllGone(s.state)
    case DropExpires(c) => c in s.callers && s.callers[c] == Dropping && !AllGone(s.state)
    case DropReleases(c) => c in s.callers && s.callers[c].DropEnding?
    case Shutdown => true
  }

  function SetWorker(s: System, id: nat, d: Direction, w: Worker): System
    requires id in s.workers
  {
    s.(workers := s.workers[id := With(s.workers[id], d, w)])
  }

  function SetCaller(s: System, c: nat, caller: Caller): System {
    s.(callers := s.callers[c := caller])
  }

  function Apply(s: System, t: Step): System
    requires Enabled(s, t)
  {
    match t
    case Connect(started) =>
      if Stopped(s.state) then s.(state := Admitted(s.state))
      else s.(state := Admitted(s.state),
              workers := s.workers[s.state.nextId := Both(NewWorker(started.toServer), NewWorker(started.toClient))],
              live := s.live[s.state.nextId := 2])
    case BarrierStep(id, d) =>
      var w := s.workers[id].At(d);
      var (state, flag, verdict) := AtBarrier(s.state, d, w.phase.flag);
      SetWorker(s, id, d, AfterBarrier(w, flag, verdict)).(state := state)
    case MoveStep(id, d, m) => SetWorker(s, id, d, Moved(s.workers[id].At(d), m, Stopped(s.state)))
    case GiveUpShare(id, d) =>
      var w := s.workers[id].At(d);
      SetWorker(s, id, d, w.(phase := Retiring(s.live[id] == 1))).(live := s.live[id := Less1(s.live[id])])
    case Retire(id, d) =>
      var w := s.workers[id].At(d);
      var last := w.phase.last;
      SetWorker(s, id, d, w.(phase := Gone(last))).(
        state := Retired(s.state, d, id, last), removed := if last then s.removed + [id] else s.removed)
    case CallPause(c, d) =>
      if s.state.stopping then SetCaller(s, c, Returned(false))
      else SetCaller(s, c, Pausing(d)).(state := s.state.(paused := With(s.state.paused, d, true)))
    case PauseReturns(c) => SetCaller(s, c, Returned(true))
    case PauseExpires(c) => SetCaller(s, c, Returned(false))
    case CallResume(c, d) => SetCaller(s, c, Resuming(d)).(state := s.state.(paused := With(s.state.paused, d, false)))
    case ResumeReturns(c) => SetCaller(s, c, Returned(!s.state.stopping))
    case ResumeExpires(c) => SetCaller(s, c, Returned(false))
    case CallDrop(c) =>
      if s.state.stopping then SetCaller(s, c, Returned(false))
      else SetCaller(s, c, Dropping).(state := s.state.(dropping := true))
    case DropObserves(c) => SetCaller(s, c, DropEnding(true))
    case DropExpires(c) => SetCaller(s, c, DropEnding(false))
    case DropReleases(c) => SetCaller(s, c, Returned(s.callers[c].ok)).(state := s.state.(dropping := false))
    case Shutdown => s.(state := s.state.(stopping := true, dropping := true))
  }
}
