/** The shared state of the test proxy and the critical sections under its one lock (tests/support/proxy.rs). */
module Proxy {
  import opened Wrappers

  datatype Direction = ToServer | ToClient

  /** One value for each direction. */
  datatype Both<+T> = Both(toServer: T, toClient: T) {
    function At(d: Direction): T {
      if d == ToServer then toServer else toClient
    }
  }

  function With<T>(b: Both<T>, d: Direction, value: T): Both<T> {
    if d == ToServer then b.(toServer := value) else b.(toClient := value)
  }

  datatype State = State(
    paused: Both<bool>,
    active: Both<nat>,
    pausedWorkers: Both<nat>,
    connections: set<nat>,
    nextId: nat,
    dropping: bool,
    stopping: bool)

  const START := State(Both(false, false), Both(0, 0), Both(0, 0), {}, 0, false, false)

  /** `saturating_sub(1)` */
  function Less1(n: nat): nat {
    if n == 0 then 0 else n - 1
  }

  // ----- critical sections -----

  function Unpause(s: State, d: Direction, flag: bool): State {
    if flag then s.(pausedWorkers := With(s.pausedWorkers, d, Less1(s.pausedWorkers.At(d)))) else s
  }

  datatype Verdict = Wait | Proceed | Quit

  function Stopped(s: State): bool {
    s.stopping || s.dropping
  }

  /** One round at the pause barrier: the new state, the worker's own flag, and what it does next. */
  function AtBarrier(s: State, d: Direction, flag: bool): (State, bool, Verdict) {
    if Stopped(s) then (Unpause(s, d, flag), false, Quit)
    else if !s.paused.At(d) then (Unpause(s, d, flag), false, Proceed)
    else (if flag then s else s.(pausedWorkers := With(s.pausedWorkers, d, s.pausedWorkers.At(d) + 1)), true, Wait)
  }

  /** `allocate_connection_id` and `add_connection`. */
  function Admitted(s: State): State {
    if Stopped(s) then s.(nextId := s.nextId + 1)
    else s.(active := Both(s.active.toServer + 1, s.active.toClient + 1),
            connections := s.connections + {s.nextId}, nextId := s.nextId + 1)
  }

  /** The locked part of `worker_finished`; the worker has found out before whether it is the last one. */
  function Retired(s: State, d: Direction, id: nat, last: bool): State {
    s.(active := With(s.active, d, Less1(s.active.At(d))),
       connections := if last then s.connections - {id} else s.connections)
  }

  predicate AllQuiet(s: State, d: Direction) {
    s.active.At(d) == s.pausedWorkers.At(d)
  }

  predicate AllGone(s: State) {
    s.connections == {} && s.active == Both(0, 0)
  }

  /** The lock-protected object. */
  class Shared {
    var paused: Both<bool>
    var active: Both<nat>
    var pausedWorkers: Both<nat>
    var connections: set<nat>
    var nextId: nat
    var dropping: bool
    var stopping: bool

    function Value(): State
      reads this
    {
      State(paused, active, pausedWorkers, connections, nextId, dropping, stopping)
    }

    constructor ()
      ensures Value() == START
    {
      paused, active, pausedWorkers := Both(false, false), Both(0, 0), Both(0, 0);
      connections, nextId, dropping, stopping := {}, 0, false, false;
    }

    /** One round of the loop in `wait_until_resumed`. */
    method BarrierRound(d: Direction, flag: bool) returns (flag': bool, verdict: Verdict)
      modifies this
      ensures verdict == Quit <==> old(stopping) || old(dropping)
      ensures verdict == Wait <==> !old(stopping) && !old(dropping) && old(paused).At(d)
      ensures flag' <==> verdict == Wait
      ensures forall o :: pausedWorkers.At(o) ==
                if o != d || flag' == flag then old(pausedWorkers).At(o)
                else if flag' then old(pausedWorkers).At(o) + 1
                else if old(pausedWorkers).At(o) == 0 then 0
                else old(pausedWorkers).At(o) - 1
      ensures Value() == old(Value()).(pausedWorkers := pausedWorkers)
      ensures (Value(), flag', verdict) == AtBarrier(old(Value()), d, flag)
    {
      flag' := flag;
      if stopping || dropping {
        if flag' {
          pausedWorkers := With(pausedWorkers, d, Less1(pausedWorkers.At(d)));
          flag' := false;
        }
        return flag', Quit;
      }
      if !paused.At(d) {
        if flag' {
          pausedWorkers := With(pausedWorkers, d, Less1(pausedWorkers.At(d)));
          flag' := false;
        }
        return flag', Proceed;
      }
      if !flag' {
        pausedWorkers := With(pausedWorkers, d, pausedWorkers.At(d) + 1);
        flag' := true;
      }
      return flag', Wait;
    }

    method AddConnection() returns (id: nat, added: bool)
      modifies this
      ensures Value() == Admitted(old(Value())) && id == old(nextId)
      ensures added <==> !old(stopping) && !old(dropping)
      ensures nextId == old(nextId) + 1
      ensures connections == if added then old(connections) + {id} else old(connections)
      ensures forall d :: active.At(d) == old(active).At(d) + if added then 1 else 0
      ensures Value() == old(Value()).(active := active, connections := connections, nextId := nextId)
    {
      id := nextId;
      nextId := nextId + 1;
      if stopping || dropping {
        return id, false;
      }
      active := With(active, ToServer, active.toServer + 1);
      active := With(active, ToClient, active.toClient + 1);
      connections := connections + {id};
      return id, true;
    }

    method WorkerFinished(id: nat, d: Direction, last: bool)
      modifies this
      ensures forall o :: active.At(o) ==
                if o == d && old(active).At(o) > 0 then old(active).At(o) - 1 else old(active).At(o)
      ensures connections == if last then old(connections) - {id} else old(connections)
      ensures Value() == old(Value()).(active := active, connections := connections)
      ensures Value() == Retired(old(Value()), d, id, last)
    {
      active := With(active, d, Less1(active.At(d)));
      if last {
        connections := connections - {id};
      }
    }

    /** The locked part of `pause`. */
    method ArmPause(d: Direction) returns (ok: bool)
      modifies this
      ensures ok <==> !old(stopping)
      ensures forall o :: paused.At(o) <==> old(paused).At(o) || (ok && o == d)
      ensures Value() == old(Value()).(paused := paused)
    {
      if stopping {
        return false;
      }
      paused := With(paused, d, true);
      return true;
    }

    method BeginShutdown()
      modifies this
      ensures Value() == old(Value()).(stopping := true, dropping := true)
    {
      stopping, dropping := true, true;
    }
  }

  // ----- forwarding one buffer -----

  datatype WriteOutcome = Written(n: nat) | Retry | Failed

  /** What one round of the write loop meets: whether the proxy was stopped, and what the socket did. */
  datatype WriteRound = WriteRound(stopped: bool, outcome: WriteOutcome)

  predicate GivesUp(r: WriteRound) {
    r.stopped || r.outcome == Failed || r.outcome == Written(0)
  }

  /** What the socket takes in rounds none of which gives up. */
  function Taken(rounds: seq<WriteRound>): nat {
    if rounds == [] then 0
    else
      var last := rounds[|rounds| - 1];
      Taken(rounds[..|rounds| - 1]) + if last.outcome.Written? then last.outcome.n else 0
  }

  /** The loop is still writing after `n` rounds. */
  predicate StillWriting(size: nat, rounds: seq<WriteRound>, n: nat) {
    n <= |rounds| && Taken(rounds[..n]) < size && forall i | 0 <= i < n :: !GivesUp(rounds[i])
  }

  /** All has been taken after `n` rounds. */
  predicate DoneWriting(size: nat, rounds: seq<WriteRound>, n: nat) {
    n <= |rounds| && Taken(rounds[..n]) >= size && forall i | 0 <= i < n :: !GivesUp(rounds[i])
  }

  lemma NotDone(size: nat, rounds: seq<WriteRound>, n: nat)
    requires StillWriting(size, rounds, n) && (n < |rounds| ==> GivesUp(rounds[n]))
    ensures forall m: nat :: !DoneWriting(size, rounds, m)
  {
    forall m: nat ensures !DoneWriting(size, rounds, m) {
      if m <= n {
        TakenGrows(rounds, m, n);
      }
    }
  }

  lemma DoneMeans(size: nat, rounds: seq<WriteRound>, m: nat)
    requires DoneWriting(size, rounds, m)
    ensures forall n: nat | StillWriting(size, rounds, n) :: n < m && !GivesUp(rounds[n])
  {
    forall n: nat | StillWriting(size, rounds, n) ensures n < m && !GivesUp(rounds[n]) {
      if m <= n {
        TakenGrows(rounds, m, n);
      }
    }
  }

  lemma {:induction false} TakenGrows(rounds: seq<WriteRound>, n: nat, m: nat)
    requires n <= m <= |rounds|
    ensures Taken(rounds[..n]) <= Taken(rounds[..m])
  {
    if n < m {
      TakenGrows(rounds, n, m - 1);
      assert rounds[..m][..m - 1] == rounds[..m - 1];
    }
  }

  /** `write_all_interruptible` on a finite script; nothing when the script ends first. Delivered is always a
      prefix of the bytes, and all of them exactly when the loop succeeds. */
  method WriteAll(bytes: seq<bv8>, rounds: seq<WriteRound>) returns (ok: Option<bool>, delivered: seq<bv8>)
    ensures delivered <= bytes
    ensures ok == Some(true) <==> delivered == bytes
    ensures ok == Some(false) ==> exists i :: 0 <= i < |rounds| && GivesUp(rounds[i])
    ensures ok == Some(true) <==> exists n: nat :: DoneWriting(|bytes|, rounds, n)
    ensures ok == Some(false) <==>
            exists n: nat :: n < |rounds| && StillWriting(|bytes|, rounds, n) && GivesUp(rounds[n])
                             && delivered == bytes[..Taken(rounds[..n])]
    ensures ok == None <==> StillWriting(|bytes|, rounds, |rounds|)
  {
    delivered := [];
    var rest := bytes;
    for i := 0 to |rounds|
      invariant bytes == delivered + rest
      invariant rest != [] ==> StillWriting(|bytes|, rounds, i) && |delivered| == Taken(rounds[..i])
      invariant rest == [] ==> DoneWriting(|bytes|, rounds, i)
    {
      assert rounds[..i + 1][..i] == rounds[..i];
      if rest == [] {
        DoneMeans(|bytes|, rounds, i);
        return Some(true), delivered;
      }
      if GivesUp(rounds[i]) {
        NotDone(|bytes|, rounds, i);
      }
      if rounds[i].stopped || rounds[i].outcome == Failed {
        return Some(false), delivered;
      }
      if rounds[i].outcome.Written? {
        var n := if rounds[i].outcome.n <= |rest| then rounds[i].outcome.n else |rest|;
        if n == 0 {
          return Some(false), delivered;
        }
        delivered, rest := delivered + rest[..n], rest[n..];
      }
    }
    if rest == [] {
      DoneMeans(|bytes|, rounds, |rounds|);
      return Some(true), delivered;
    }
    NotDone(|bytes|, rounds, |rounds|);
    return None, delivered;
  }
}
