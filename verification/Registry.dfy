/** The registry behind `Core` and its critical sections (worker.rs). Handles are named by their counter;
    `HandleId` shows that the spelled names are distinct and in the same order. */
module Registry {
  import opened Wrappers
  import HandleId
  import P = Protocol
  import HL = HandleLifecycle

  type Id = nat

  datatype Lifecycle = Running | Stopping | Stopped

  datatype Entry = Entry(published: HL.Published, profile: string, limit: nat, admitted: nat, joined: bool)

  datatype PendingOpen = PendingOpen(profile: string, cancelled: bool)

  datatype Stage = DeadlineStage | MissingStage | JoinStage | EnqueueStage | PendingOpenStage | RollbackStage

  datatype Verdict = Verified | Uncertain(stage: Stage)

  datatype Row = Row(handle: Id, verdict: Verdict)

  datatype RegistryState = RegistryState(
    lifecycle: Lifecycle,
    handles: map<Id, Entry>,
    pending: map<Id, PendingOpen>,
    next: nat,
    frozen: Option<seq<Row>>)

  const EMPTY := RegistryState(Running, map[], map[], 1, None)

  // ----- opening -----

  function HandlesOf(s: RegistryState, profile: string): set<Id> {
    set id | id in s.handles && s.handles[id].profile == profile
  }

  function PendingOf(s: RegistryState, profile: string): set<Id> {
    set id | id in s.pending && s.pending[id].profile == profile
  }

  function InUse(s: RegistryState, profile: string): nat {
    |HandlesOf(s, profile)| + |PendingOf(s, profile)|
  }

  /** `allocate_handle` counts with saturation. */
  function Successor(n: nat): nat {
    if n >= HandleId.U64_MAX then HandleId.U64_MAX else n + 1
  }

  /** What each configured profile allows: nothing when its settings are out of range. */
  type Quota = map<string, Option<nat>>

  function Allowed(quota: Quota, profile: string): nat {
    if profile in quota && quota[profile].Some? then quota[profile].value else 0
  }

  function Reserve(s: RegistryState, quota: Quota, profile: string): Result<RegistryState, P.ErrorCode> {
    if s.lifecycle != Running then Err(P.ServerStopping)
    else if profile == "" || profile !in quota then Err(P.DatabaseUnknown)
    else if quota[profile].None? then Err(P.ConfigError)
    else if InUse(s, profile) >= quota[profile].value then Err(P.HandleLimit)
    else Ok(s.(pending := s.pending[s.next := PendingOpen(profile, false)], next := Successor(s.next)))
  }

  function FinishOpen(s: RegistryState, id: Id): RegistryState {
    s.(pending := s.pending - {id})
  }

  function Publish(s: RegistryState, id: Id, entry: Entry): Result<RegistryState, P.ErrorCode> {
    if s.lifecycle != Running then Err(P.ServerStopping)
    else Ok(s.(pending := s.pending - {id}, handles := s.handles[id := entry]))
  }

  // ----- requests -----

  /** What `try_send` finds on the handle's channel. */
  datatype Channel = Room | Full | Disconnected

  datatype Admission = Admitted | Rejected(code: P.ErrorCode, unknown: bool)

  function Admit(s: RegistryState, id: Id, channel: Channel): Admission {
    if s.lifecycle != Running then Rejected(P.ServerStopping, false)
    else if id !in s.handles || s.handles[id].published.closed then Rejected(P.HandleUnknown, false)
    else if s.handles[id].admitted >= s.handles[id].limit then Rejected(P.QueueFull, false)
    else
      match channel
      case Room => Admitted
      case Full => Rejected(P.QueueFull, false)
      case Disconnected => Rejected(P.ConnectionLost, true)
  }

  function SetAdmitted(s: RegistryState, id: Id, n: nat): RegistryState
    requires id in s.handles
  {
    s.(handles := s.handles[id := s.handles[id].(admitted := n)])
  }

  function Dispatch(s: RegistryState, id: Id, channel: Channel): RegistryState {
    if Admit(s, id, channel) == Admitted then SetAdmitted(s, id, s.handles[id].admitted + 1) else s
  }

  /** Dropping the admission guard. */
  function Release(s: RegistryState, id: Id): RegistryState {
    if id !in s.handles then s
    else SetAdmitted(s, id, if s.handles[id].admitted == 0 then 0 else s.handles[id].admitted - 1)
  }

  function SetPublished(s: RegistryState, id: Id, p: HL.Published): RegistryState {
    if id !in s.handles then s else s.(handles := s.handles[id := s.handles[id].(published := p)])
  }

  // ----- shutdown -----

  function BeginShutdown(s: RegistryState): RegistryState {
    s.(lifecycle := Stopping, pending := map id | id in s.pending :: s.pending[id].(cancelled := true))
  }

  /** `join_worker`: whether the worker has been joined, joining it now if its thread has finished. */
  function Joins(s: RegistryState, id: Id, finished: bool): bool {
    id in s.handles ==> s.handles[id].joined || finished
  }

  function Join(s: RegistryState, id: Id, finished: bool): RegistryState {
    if id in s.handles && finished then s.(handles := s.handles[id := s.handles[id].(joined := true)]) else s
  }

  function Freeze(s: RegistryState, report: seq<Row>): RegistryState {
    s.(lifecycle := Stopped, frozen := if s.frozen.Some? then s.frozen else Some(report))
  }

  // ----- the report -----

  function InsertRow(r: Row, rows: seq<Row>): seq<Row> {
    if rows == [] || r.handle < rows[0].handle then [r] + rows else [rows[0]] + InsertRow(r, rows[1..])
  }

  /** A stable sort by handle. */
  function SortRows(rows: seq<Row>): seq<Row> {
    if rows == [] then [] else InsertRow(rows[|rows| - 1], SortRows(rows[..|rows| - 1]))
  }

  predicate Ascending(rows: seq<Row>) {
    forall i, j | 0 <= i < j < |rows| :: rows[i].handle <= rows[j].handle
  }

  lemma {:induction false} InsertedMembers(r: Row, rows: seq<Row>)
    ensures multiset(InsertRow(r, rows)) == multiset(rows) + multiset{r}
  {
    if rows != [] {
      assert rows == [rows[0]] + rows[1..];
      if r.handle >= rows[0].handle {
        InsertedMembers(r, rows[1..]);
      }
    }
  }

  lemma {:induction false} InsertedAscending(r: Row, rows: seq<Row>)
    requires Ascending(rows)
    ensures Ascending(InsertRow(r, rows))
  {
    if rows != [] && r.handle >= rows[0].handle {
      InsertedAscending(r, rows[1..]);
      InsertedMembers(r, rows[1..]);
      var tail := InsertRow(r, rows[1..]);
      forall q | q in tail ensures rows[0].handle <= q.handle {
        assert q in multiset(tail);
        assert q == r || q in rows[1..];
      }
    }
  }

  /** Sorting orders the rows and neither loses nor repeats one. */
  lemma {:induction false} SortedRows(rows: seq<Row>)
    ensures Ascending(SortRows(rows)) && multiset(SortRows(rows)) == multiset(rows)
  {
    if rows != [] {
      var n := |rows| - 1;
      SortedRows(rows[..n]);
      InsertedMembers(rows[n], SortRows(rows[..n]));
      InsertedAscending(rows[n], SortRows(rows[..n]));
      assert rows == rows[..n] + [rows[n]];
    }
  }

  predicate StrictlyAscending(rows: seq<Row>) {
    forall i, j | 0 <= i < j < |rows| :: rows[i].handle < rows[j].handle
  }

  predicate DistinctHandles(rows: seq<Row>) {
    forall i, j | 0 <= i < j < |rows| :: rows[i].handle != rows[j].handle
  }

  lemma SortedMembers(rows: seq<Row>, r: Row)
    ensures r in SortRows(rows) <==> r in rows
  {
    SortedRows(rows);
    assert r in multiset(rows) <==> r in multiset(SortRows(rows));
  }

  lemma {:induction false} InsertedStrictly(r: Row, rows: seq<Row>)
    requires StrictlyAscending(rows) && forall q | q in rows :: q.handle != r.handle
    ensures StrictlyAscending(InsertRow(r, rows))
  {
    if rows != [] && r.handle >= rows[0].handle {
      InsertedStrictly(r, rows[1..]);
      InsertedMembers(r, rows[1..]);
      var tail := InsertRow(r, rows[1..]);
      forall q | q in tail ensures rows[0].handle < q.handle {
        assert q in multiset(tail);
        assert q == r || q in rows[1..];
      }
    }
  }

  /** Rows about different handles sort into strictly increasing order. */
  lemma {:induction false} SortedStrictly(rows: seq<Row>)
    requires DistinctHandles(rows)
    ensures StrictlyAscending(SortRows(rows))
  {
    if rows != [] {
      var n := |rows| - 1;
      SortedStrictly(rows[..n]);
      forall q | q in SortRows(rows[..n]) ensures q.handle != rows[n].handle {
        SortedMembers(rows[..n], q);
      }
      InsertedStrictly(rows[n], SortRows(rows[..n]));
    }
  }

  // ----- keys -----

  /** `keys()` of a `BTreeMap`: all of them, in increasing order. */
  ghost predicate Lists(ids: seq<Id>, keys: set<Id>) {
    && (forall i, j | 0 <= i < j < |ids| :: ids[i] < ids[j])
    && (forall id :: id in ids <==> id in keys)
  }

  ghost predicate Least(m: Id, keys: set<Id>) {
    m in keys && forall k | k in keys :: m <= k
  }

  lemma LeastOfMore(keys: set<Id>, a: Id, m: Id)
    requires a in keys && Least(m, keys - {a})
    ensures Least(if a < m then a else m, keys)
  {
    assert forall k | k in keys :: k == a || k in keys - {a};
  }

  lemma OnlyIsLeast(keys: set<Id>, a: Id)
    requires a in keys && keys - {a} == {}
    ensures Least(a, keys)
  {
    assert forall k | k in keys :: k == a || k in keys - {a};
  }

  lemma {:induction false} LeastExists(keys: set<Id>)
    requires keys != {}
    ensures exists m :: Least(m, keys)
    decreases keys
  {
    hide Least;
    var a :| a in keys;
    if keys - {a} == {} {
      OnlyIsLeast(keys, a);
    } else {
      LeastExists(keys - {a});
      var m :| Least(m, keys - {a});
      LeastOfMore(keys, a, m);
    }
  }

  lemma OneMoreListed(ids: seq<Id>, listed: set<Id>, m: Id)
    requires Lists(ids, listed) && forall i | i in listed :: i < m
    ensures Lists(ids + [m], listed + {m})
  {
    forall i, j | 0 <= i < j < |ids + [m]| ensures (ids + [m])[i] < (ids + [m])[j] {
      assert ids[i] in ids;
    }
  }

  /** What is listed lies below what is left. */
  ghost predicate Splits(keys: set<Id>, ids: seq<Id>, rest: set<Id>) {
    && rest <= keys && Lists(ids, keys - rest)
    && forall i, k | i in keys - rest && k in rest :: i < k
  }

  lemma SplitStep(keys: set<Id>, ids: seq<Id>, rest: set<Id>, m: Id)
    requires Splits(keys, ids, rest) && Least(m, rest)
    ensures Splits(keys, ids + [m], rest - {m})
  {
    OneMoreListed(ids, keys - rest, m);
    assert keys - (rest - {m}) == (keys - rest) + {m};
  }

  lemma SplitEnds(keys: set<Id>, ids: seq<Id>)
    ensures Splits(keys, [], keys)
    ensures Splits(keys, ids, {}) ==> Lists(ids, keys)
  {
    assert keys - {} == keys && keys - keys == {};
  }

  method SortedKeys(keys: set<Id>) returns (ids: seq<Id>)
    ensures Lists(ids, keys)
  {
    hide Splits, Lists;
    ids := [];
    SplitEnds(keys, ids);
    var rest := keys;
    while rest != {}
      invariant Splits(keys, ids, rest)
      decreases rest
    {
      LeastExists(rest);
      var m :| m in rest && forall k | k in rest :: m <= k;
      assert Least(m, rest);
      SplitStep(keys, ids, rest, m);
      ids, rest := ids + [m], rest - {m};
    }
    SplitEnds(keys, ids);
  }

  // ----- the object -----

  /** Each method is one critical section under the registry mutex. */
  class Core {
    const quota: Quota
    var lifecycle: Lifecycle
    var handles: map<Id, Entry>
    var pending: map<Id, PendingOpen>
    var next: nat
    var frozen: Option<seq<Row>>

    function State(): RegistryState
      reads this
    {
      RegistryState(lifecycle, handles, pending, next, frozen)
    }

    constructor (quota: Quota)
      ensures State() == EMPTY && this.quota == quota
    {
      this.quota := quota;
      lifecycle, handles, pending, next, frozen := Running, map[], map[], 1, None;
    }

    /** An open is granted exactly while the registry runs, for a configured profile whose settings are in range and
        whose handles and pending opens together are fewer than it allows. */
    method ReserveOpen(profile: string) returns (r: Result<Id, P.ErrorCode>)
      modifies this`pending, this`next
      ensures r == Err(P.ServerStopping) <==> lifecycle != Running
      ensures r == Err(P.DatabaseUnknown) <==> lifecycle == Running && (profile == "" || profile !in quota)
      ensures r == Err(P.ConfigError) <==>
                lifecycle == Running && profile != "" && profile in quota && quota[profile] == None
      ensures r == Err(P.HandleLimit) <==>
                && lifecycle == Running && profile != "" && profile in quota && quota[profile].Some?
                && |set id | id in handles && handles[id].profile == profile|
                   + |set id | id in old(pending) && old(pending)[id].profile == profile| >= quota[profile].value
      ensures r.Ok? <==>
                && lifecycle == Running && profile != "" && profile in quota && quota[profile].Some?
                && |set id | id in handles && handles[id].profile == profile|
                   + |set id | id in old(pending) && old(pending)[id].profile == profile| < quota[profile].value
      ensures r.Ok? ==>
                && r.value == old(next) && pending == old(pending)[old(next) := PendingOpen(profile, false)]
                && next == if old(next) < HandleId.U64_MAX then old(next) + 1 else HandleId.U64_MAX
      ensures r.Err? ==> State() == old(State())
      ensures var reserved := Reserve(old(State()), quota, profile);
              match r
              case Ok(id) => id == old(next) && reserved == Ok(State())
              case Err(e) => reserved == Err(e) && State() == old(State())
    {
      if lifecycle != Running {
        return Err(P.ServerStopping);
      }
      if profile == "" || profile !in quota {
        return Err(P.DatabaseUnknown);
      }
      if quota[profile].None? {
        return Err(P.ConfigError);
      }
      var profileHandles := |set id | id in handles && handles[id].profile == profile|;
      var profilePending := |set id | id in pending && pending[id].profile == profile|;
      assert (set id | id in handles && handles[id].profile == profile) == HandlesOf(State(), profile);
      assert (set id | id in pending && pending[id].profile == profile) == PendingOf(State(), profile);
      if profileHandles + profilePending >= quota[profile].value {
        return Err(P.HandleLimit);
      }
      var id := next;
      next := if next >= HandleId.U64_MAX then HandleId.U64_MAX else next + 1;
      pending := pending[id := PendingOpen(profile, false)];
      return Ok(id);
    }

    method EndOpen(id: Id)
      modifies this`pending
      ensures forall k :: k in pending <==> k in old(pending) && k != id
      ensures forall k | k in pending :: pending[k] == old(pending)[k]
      ensures State() == FinishOpen(old(State()), id)
    {
      pending := pending - {id};
    }

    method PublishHandle(id: Id, entry: Entry) returns (r: Result<(), P.ErrorCode>)
      modifies this`pending, this`handles
      ensures if lifecycle == Running
              then r == Ok(()) && handles == old(handles)[id := entry] && pending == old(pending) - {id}
              else r == Err(P.ServerStopping) && State() == old(State())
      ensures match Publish(old(State()), id, entry)
              case Ok(s) => r == Ok(()) && State() == s
              case Err(e) => r == Err(e) && State() == old(State())
    {
      if lifecycle != Running {
        return Err(P.ServerStopping);
      }
      pending := pending - {id};
      handles := handles[id := entry];
      return Ok(());
    }

    /** A request is admitted, and counted, exactly for an open handle of a running registry that is below its limit and
        has room in its channel; the reason of every refusal is told. */
    method DispatchRequest(id: Id, channel: Channel) returns (a: Admission)
      modifies this`handles
      ensures a == Rejected(P.ServerStopping, false) <==> lifecycle != Running
      ensures a == Rejected(P.HandleUnknown, false) <==>
                lifecycle == Running && (id in old(handles) ==> old(handles)[id].published.closed)
      ensures a == Rejected(P.QueueFull, false) <==>
                && lifecycle == Running && id in old(handles) && !old(handles)[id].published.closed
                && (old(handles)[id].admitted >= old(handles)[id].limit || channel == Full)
      ensures a == Rejected(P.ConnectionLost, true) <==>
                && lifecycle == Running && id in old(handles) && !old(handles)[id].published.closed
                && old(handles)[id].admitted < old(handles)[id].limit && channel == Disconnected
      ensures a == Admitted <==>
                && lifecycle == Running && id in old(handles) && !old(handles)[id].published.closed
                && old(handles)[id].admitted < old(handles)[id].limit && channel == Room
      ensures handles == if a == Admitted
                         then old(handles)[id := old(handles)[id].(admitted := old(handles)[id].admitted + 1)]
                         else old(handles)
      ensures a == Admit(old(State()), id, channel) && State() == Dispatch(old(State()), id, channel)
    {
      if lifecycle != Running {
        return Rejected(P.ServerStopping, false);
      }
      if id !in handles || handles[id].published.closed {
        return Rejected(P.HandleUnknown, false);
      }
      if handles[id].admitted >= handles[id].limit {
        return Rejected(P.QueueFull, false);
      }
      ghost var before := handles;
      handles := handles[id := handles[id].(admitted := handles[id].admitted + 1)];
      if channel != Room {
        handles := handles[id := handles[id].(admitted := handles[id].admitted - 1)];
        assert handles == before;
        return if channel == Full then Rejected(P.QueueFull, false) else Rejected(P.ConnectionLost, true);
      }
      return Admitted;
    }

    method ReleaseAdmission(id: Id)
      modifies this`handles
      ensures handles.Keys == old(handles).Keys
      ensures forall k | k in handles && k != id :: handles[k] == old(handles)[k]
      ensures id in handles ==>
                && handles[id] == old(handles)[id].(admitted := handles[id].admitted)
                && handles[id].admitted == if old(handles)[id].admitted > 0 then old(handles)[id].admitted - 1 else 0
      ensures State() == Release(old(State()), id)
    {
      if id in handles {
        var e := handles[id];
        handles := handles[id := e.(admitted := if e.admitted == 0 then 0 else e.admitted - 1)];
      }
    }

    /** The first part of `shutdown`: only the caller that finds the registry running becomes the owner. It takes
        the handles and reservations of that moment, in order. */
    method StartShutdown() returns (owner: bool, report: Option<seq<Row>>, ids: seq<Id>, opens: seq<Id>)
      modifies this`lifecycle, this`pending
      ensures report == old(frozen)
      ensures owner ==> Lists(ids, old(handles).Keys) && Lists(opens, old(pending).Keys)
      ensures owner <==> old(frozen).None? && old(lifecycle) == Running
      ensures owner ==> lifecycle == Stopping && pending.Keys == old(pending).Keys
      ensures owner ==> forall k | k in pending :: pending[k] == PendingOpen(old(pending)[k].profile, true)
      ensures State() == if owner then BeginShutdown(old(State())) else old(State())
    {
      if frozen.Some? {
        return false, frozen, [], [];
      }
      if lifecycle != Running {
        return false, None, [], [];
      }
      lifecycle := Stopping;
      ids := SortedKeys(handles.Keys);
      opens := SortedKeys(pending.Keys);
      pending := map id | id in pending :: pending[id].(cancelled := true);
      return true, None, ids, opens;
    }

    method JoinWorker(id: Id, finished: bool) returns (joined: bool)
      modifies this`handles
      ensures joined <==> id !in old(handles) || old(handles)[id].joined || finished
      ensures handles.Keys == old(handles).Keys
      ensures forall k | k in handles ::
                handles[k] == old(handles)[k].(joined := old(handles)[k].joined || (k == id && finished))
      ensures joined == Joins(old(State()), id, finished)
      ensures State() == Join(old(State()), id, finished)
    {
      if id !in handles {
        return true;
      }
      if finished {
        handles := handles[id := handles[id].(joined := true)];
        return true;
      }
      return handles[id].joined;
    }

    /** The last part of `shutdown`: sort, freeze, and answer with the report that is frozen. */
    method FreezeReport(workers: seq<Row>) returns (report: seq<Row>)
      modifies this`lifecycle, this`frozen
      ensures lifecycle == Stopped && frozen == Some(report)
      ensures old(frozen).Some? ==> report == old(frozen).value
      ensures old(frozen).None? ==> multiset(report) == multiset(workers)
      ensures old(frozen).None? ==> forall i, j | 0 <= i < j < |report| :: report[i].handle <= report[j].handle
      ensures State() == Freeze(old(State()), SortRows(workers)) && frozen == Some(report)
    {
      var sorted := SortRows(workers);
      SortedRows(workers);
      lifecycle := Stopped;
      if frozen.Some? {
        return frozen.value;
      }
      frozen := Some(sorted);
      return sorted;
    }
  }
}
