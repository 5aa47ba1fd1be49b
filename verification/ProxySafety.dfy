/** What every step of the proxy keeps. */
module ProxySafety {
  import opened Proxy
  import opened ProxyProtocol

  /** Nothing is lost or reordered between the two sockets of a direction: while the worker forwards, what it read
      is what it has written and then what it still has to write; when the source ended, all of it was written. */
  ghost predicate WorkerOk(w: Worker) {
    && w.delivered <= w.received
    && (match w.phase
        case Barrier(_) => w.received == w.delivered
        case Checking => w.received == w.delivered
        case Reading => w.received == w.delivered
        case Writing(pending, checked) => w.received == w.delivered + pending && (checked ==> pending != [])
        case _ => true)
    && (w.sourceEnded ==> w.received == w.delivered && (w.phase == Leaving || w.phase.Retiring? || w.phase.Gone?))
  }

  function Share(p: Phase): nat {
    if p.Retiring? || p.Gone? then 0 else 1
  }

  predicate IsLast(p: Phase) {
    (p.Retiring? || p.Gone?) && p.last
  }

  /** Exactly one of the two workers finds itself the last, and it is the one that removes the connection. */
  ghost predicate PairOk(b: Both<Worker>, live: nat, present: bool) {
    var p, q := b.toServer.phase, b.toClient.phase;
    && live == Share(p) + Share(q)
    && !(IsLast(p) && IsLast(q))
    && (live == 0 <==> IsLast(p) || IsLast(q))
    && (present <==> p != Gone(true) && q != Gone(true))
  }

  function Live(s: System, d: Direction): set<nat> {
    set id | id in s.workers && !s.workers[id].At(d).phase.Gone?
  }

  function Waiting(s: System, d: Direction): set<nat> {
    set id | id in s.workers && s.workers[id].At(d).phase == Barrier(true)
  }

  ghost predicate CountsOk(s: System) {
    forall d :: s.state.active.At(d) == |Live(s, d)| && s.state.pausedWorkers.At(d) == |Waiting(s, d)|
  }

  ghost predicate WorkersOk(s: System) {
    forall id, d | id in s.workers :: WorkerOk(s.workers[id].At(d))
  }

  ghost predicate ConnectionsOk(s: System) {
    && s.live.Keys == s.workers.Keys
    && (forall id | id in s.workers ::
          id < s.state.nextId && PairOk(s.workers[id], s.live[id], id in s.state.connections))
    && (forall id :: id in s.removed <==> id in s.workers && id !in s.state.connections)
    && (forall i, j | 0 <= i < j < |s.removed| :: s.removed[i] != s.removed[j])
    && s.state.connections <= s.workers.Keys
  }

  ghost predicate Good(s: System) {
    CountsOk(s) && WorkersOk(s) && ConnectionsOk(s)
  }

  // ----- one worker -----

  lemma MovedOk(w: Worker, m: Move, stopped: bool)
    requires WorkerOk(w) && CanMove(w, m)
    ensures WorkerOk(Moved(w, m, stopped))
    ensures !Moved(w, m, stopped).phase.Gone? && !Moved(w, m, stopped).phase.Retiring?
    ensures Moved(w, m, stopped).phase != Barrier(true)
  {
    match m {
      case Read(bytes) =>
        assert w.received + bytes == w.delivered + bytes;
      case Write(n) =>
        var pending := w.phase.pending;
        assert pending == pending[..n] + pending[n..];
        assert w.delivered + pending == (w.delivered + pending[..n]) + pending[n..];
      case _ =>
    }
  }

  lemma OtherDirection(s: System, s': System, id: nat, d: Direction, w: Worker, e: Direction)
    requires id in s.workers && s'.workers == s.workers[id := With(s.workers[id], d, w)] && e != d
    ensures Live(s', e) == Live(s, e) && Waiting(s', e) == Waiting(s, e)
  {
    assert forall k | k in s.workers :: s'.workers[k].At(e) == s.workers[k].At(e);
  }

  lemma LiveAfter(s: System, s': System, id: nat, d: Direction, w: Worker)
    requires id in s.workers && s'.workers == s.workers[id := With(s.workers[id], d, w)]
    requires !s.workers[id].At(d).phase.Gone?
    ensures |Live(s', d)| == |Live(s, d)| - if w.phase.Gone? then 1 else 0
  {
    assert Live(s', d) == if w.phase.Gone? then Live(s, d) - {id} else Live(s, d);
  }

  lemma WaitingAfter(s: System, s': System, id: nat, d: Direction, w: Worker)
    requires id in s.workers && s'.workers == s.workers[id := With(s.workers[id], d, w)]
    ensures |Waiting(s', d)| == |Waiting(s, d)| - (if s.workers[id].At(d).phase == Barrier(true) then 1 else 0)
                                                + (if w.phase == Barrier(true) then 1 else 0)
  {
    assert Waiting(s', d) == if w.phase == Barrier(true) then Waiting(s, d) + {id} else Waiting(s, d) - {id};
  }

  /** Replacing one worker changes the two counts of its direction by at most that worker. */
  lemma CountAfter(s: System, s': System, id: nat, d: Direction, w: Worker)
    requires id in s.workers && s'.workers == s.workers[id := With(s.workers[id], d, w)]
    requires !s.workers[id].At(d).phase.Gone?
    ensures |Live(s', d)| == |Live(s, d)| - if w.phase.Gone? then 1 else 0
    ensures |Waiting(s', d)| == |Waiting(s, d)| - (if s.workers[id].At(d).phase == Barrier(true) then 1 else 0)
                                                + (if w.phase == Barrier(true) then 1 else 0)
    ensures forall e | e != d :: Live(s', e) == Live(s, e) && Waiting(s', e) == Waiting(s, e)
  {
    hide Live, Waiting;
    LiveAfter(s, s', id, d, w);
    WaitingAfter(s, s', id, d, w);
    forall e | e != d ensures Live(s', e) == Live(s, e) && Waiting(s', e) == Waiting(s, e) {
      OtherDirection(s, s', id, d, w, e);
    }
  }

  lemma WorkersAfter(s: System, s': System, id: nat, d: Direction, w: Worker)
    requires WorkersOk(s) && WorkerOk(w)
    requires id in s.workers && s'.workers == s.workers[id := With(s.workers[id], d, w)]
    ensures WorkersOk(s')
  {
    forall k, e | k in s'.workers ensures WorkerOk(s'.workers[k].At(e)) {
      assert s'.workers[k].At(e) == w || s'.workers[k].At(e) == s.workers[k].At(e);
    }
  }

  /** A worker that keeps its share of the connection. */
  lemma SharingKeeps(s: System, s': System, id: nat, d: Direction, w: Worker)
    requires ConnectionsOk(s) && id in s.workers
    requires s'.workers == s.workers[id := With(s.workers[id], d, w)]
    requires Share(s.workers[id].At(d).phase) == 1 && Share(w.phase) == 1
    requires s'.live == s.live && s'.removed == s.removed
    requires s'.state.connections == s.state.connections && s'.state.nextId == s.state.nextId
    ensures ConnectionsOk(s')
  {
    forall k | k in s'.workers ensures PairOk(s'.workers[k], s'.live[k], k in s'.state.connections) {
      assert PairOk(s.workers[k], s.live[k], k in s.state.connections);
    }
  }

  lemma MoveKeeps(s: System, id: nat, d: Direction, m: Move)
    requires Good(s) && Enabled(s, MoveStep(id, d, m))
    ensures Good(Apply(s, MoveStep(id, d, m)))
  {
    hide ConnectionsOk, Live, Waiting;
    var s', before := Apply(s, MoveStep(id, d, m)), s.workers[id].At(d);
    var w := Moved(before, m, Stopped(s.state));
    assert WorkerOk(before);
    MovedOk(before, m, Stopped(s.state));
    StillForwarding(before, m);
    CountAfter(s, s', id, d, w);
    WorkersAfter(s, s', id, d, w);
    SharingKeeps(s, s', id, d, w);
  }

  lemma StillForwarding(w: Worker, m: Move)
    requires CanMove(w, m)
    ensures Share(w.phase) == 1 && w.phase != Barrier(true)
  {}

  lemma BarrierCounts(s: System, id: nat, d: Direction)
    requires CountsOk(s) && Enabled(s, BarrierStep(id, d))
    ensures CountsOk(Apply(s, BarrierStep(id, d)))
  {
    var s', before := Apply(s, BarrierStep(id, d)), s.workers[id].At(d);
    var (state, flag, verdict) := AtBarrier(s.state, d, before.phase.flag);
    assert before.phase.flag ==> id in Waiting(s, d);
    CountAfter(s, s', id, d, AfterBarrier(before, flag, verdict));
    forall e ensures s'.state.active.At(e) == |Live(s', e)| && s'.state.pausedWorkers.At(e) == |Waiting(s', e)| {
      if e != d {
        assert s'.state.pausedWorkers.At(e) == s.state.pausedWorkers.At(e);
      }
    }
  }

  lemma BarrierKeeps(s: System, id: nat, d: Direction)
    requires Good(s) && Enabled(s, BarrierStep(id, d))
    ensures Good(Apply(s, BarrierStep(id, d)))
  {
    hide CountsOk, ConnectionsOk;
    var s', before := Apply(s, BarrierStep(id, d)), s.workers[id].At(d);
    var (state, flag, verdict) := AtBarrier(s.state, d, before.phase.flag);
    var w := AfterBarrier(before, flag, verdict);
    BarrierCounts(s, id, d);
    assert WorkerOk(before);
    WorkersAfter(s, s', id, d, w);
    SharingKeeps(s, s', id, d, w);
  }

  lemma GiveUpConnections(s: System, id: nat, d: Direction)
    requires ConnectionsOk(s) && Enabled(s, GiveUpShare(id, d))
    ensures ConnectionsOk(Apply(s, GiveUpShare(id, d)))
  {
    var s' := Apply(s, GiveUpShare(id, d));
    forall k | k in s'.workers ensures PairOk(s'.workers[k], s'.live[k], k in s'.state.connections) {
      assert PairOk(s.workers[k], s.live[k], k in s.state.connections);
    }
  }

  lemma GiveUpShareKeeps(s: System, id: nat, d: Direction)
    requires Good(s) && Enabled(s, GiveUpShare(id, d))
    ensures Good(Apply(s, GiveUpShare(id, d)))
  {
    hide ConnectionsOk, Live, Waiting;
    var s' := Apply(s, GiveUpShare(id, d));
    var w := s.workers[id].At(d).(phase := Retiring(s.live[id] == 1));
    assert WorkerOk(s.workers[id].At(d));
    CountAfter(s, s', id, d, w);
    WorkersAfter(s, s', id, d, w);
    GiveUpConnections(s, id, d);
  }

  lemma RetireKeeps(s: System, id: nat, d: Direction)
    requires Good(s) && Enabled(s, Retire(id, d))
    ensures Good(Apply(s, Retire(id, d)))
  {
    var s' := Apply(s, Retire(id, d));
    var last := s.workers[id].At(d).phase.last;
    var w := s.workers[id].At(d).(phase := Gone(last));
    CountAfter(s, s', id, d, w);
    WorkersAfter(s, s', id, d, w);
    assert id in Live(s, d);
    forall e ensures s'.state.active.At(e) == |Live(s', e)| && s'.state.pausedWorkers.At(e) == |Waiting(s', e)| {
      if e != d {
        assert s'.state.active.At(e) == s.state.active.At(e);
      }
    }
    RetireConnections(s, id, d);
  }

  lemma RetirePairs(s: System, id: nat, d: Direction, k: nat)
    requires ConnectionsOk(s) && Enabled(s, Retire(id, d)) && k in s.workers
    ensures var s' := Apply(s, Retire(id, d));
            && PairOk(s'.workers[k], s'.live[k], k in s'.state.connections)
            && (s.workers[id].At(d).phase.last ==> id in s.state.connections)
  {
    assert PairOk(s.workers[k], s.live[k], k in s.state.connections);
    assert PairOk(s.workers[id], s.live[id], id in s.state.connections);
  }

  lemma RetireConnections(s: System, id: nat, d: Direction)
    requires ConnectionsOk(s) && Enabled(s, Retire(id, d))
    ensures ConnectionsOk(Apply(s, Retire(id, d)))
  {
    hide PairOk;
    var s' := Apply(s, Retire(id, d));
    forall k | k in s'.workers ensures PairOk(s'.workers[k], s'.live[k], k in s'.state.connections) {
      RetirePairs(s, id, d, k);
    }
    RetirePairs(s, id, d, id);
  }

  lemma LiveWith(s: System, s': System, id: nat, b: Both<Worker>, d: Direction)
    requires id !in s.workers && s'.workers == s.workers[id := b] && !b.At(d).phase.Gone?
    ensures |Live(s', d)| == |Live(s, d)| + 1
  {
    assert Live(s', d) == Live(s, d) + {id};
  }

  lemma WaitingWith(s: System, s': System, id: nat, b: Both<Worker>, d: Direction)
    requires id !in s.workers && s'.workers == s.workers[id := b] && b.At(d).phase != Barrier(true)
    ensures Waiting(s', d) == Waiting(s, d)
  {}

  lemma SameWorkers(s: System, s': System)
    requires s'.workers == s.workers
    ensures forall d :: Live(s', d) == Live(s, d) && Waiting(s', d) == Waiting(s, d)
  {}

  lemma ConnectCounts(s: System, started: Both<bool>, d: Direction)
    requires ConnectionsOk(s)
    ensures var s' := Apply(s, Connect(started));
            |Live(s', d)| == |Live(s, d)| + (if Stopped(s.state) then 0 else 1) && Waiting(s', d) == Waiting(s, d)
  {
    hide Live, Waiting;
    var s', id := Apply(s, Connect(started)), s.state.nextId;
    if Stopped(s.state) {
      SameWorkers(s, s');
    } else {
      var b := Both(NewWorker(started.toServer), NewWorker(started.toClient));
      assert id !in s.workers && s'.workers == s.workers[id := b];
      LiveWith(s, s', id, b, d);
      WaitingWith(s, s', id, b, d);
    }
  }

  lemma ConnectConnections(s: System, started: Both<bool>)
    requires ConnectionsOk(s)
    ensures ConnectionsOk(Apply(s, Connect(started)))
  {
    var s', id := Apply(s, Connect(started)), s.state.nextId;
    assert id !in s.workers;
    forall k | k in s'.workers ensures PairOk(s'.workers[k], s'.live[k], k in s'.state.connections) {
      if k in s.workers {
        assert PairOk(s.workers[k], s.live[k], k in s.state.connections);
      }
    }
  }

  lemma ConnectKeeps(s: System, started: Both<bool>)
    requires Good(s)
    ensures Good(Apply(s, Connect(started)))
  {
    hide ConnectionsOk, Live, Waiting;
    var s' := Apply(s, Connect(started));
    ConnectConnections(s, started);
    forall d ensures s'.state.active.At(d) == |Live(s', d)| && s'.state.pausedWorkers.At(d) == |Waiting(s', d)| {
      ConnectCounts(s, started, d);
    }
  }

  /** Controllers change only their own progress and the three flags. */
  lemma ControlKeeps(s: System, s': System)
    requires Good(s) && s'.workers == s.workers && s'.live == s.live && s'.removed == s.removed
    requires s'.state == s.state.(paused := s'.state.paused, dropping := s'.state.dropping, stopping := s'.state.stopping)
    ensures Good(s')
  {
    assert forall d :: Live(s', d) == Live(s, d) && Waiting(s', d) == Waiting(s, d);
  }

  lemma StepKeeps(s: System, t: Step)
    requires Good(s) && Enabled(s, t)
    ensures Good(Apply(s, t))
  {
    hide Good;
    match t {
      case Connect(started) => ConnectKeeps(s, started);
      case BarrierStep(id, d) => BarrierKeeps(s, id, d);
      case MoveStep(id, d, m) => MoveKeeps(s, id, d, m);
      case GiveUpShare(id, d) => GiveUpShareKeeps(s, id, d);
      case Retire(id, d) => RetireKeeps(s, id, d);
      case _ => ControlKeeps(s, Apply(s, t));
    }
  }
}
