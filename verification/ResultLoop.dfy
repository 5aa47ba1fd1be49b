/** The adapter's wait, cancel and drain loops (libpq.rs), over an adversarial libpq.

    What libpq, the clock and the caller's tokens do is given to each method as a finite script; a method
    that is still waiting when its script ends answers `Pending`. */
module ResultLoop {
  import opened Wrappers
  import opened QueryResult
  import opened Collector
  import opened Acceptance

  datatype CancelReason = Shutdown | Cancel | Deadline

  datatype AdapterError = AdapterError(kind: ErrorClass, unknown: bool)

  datatype Outcome<+T> = Pending | Finished(result: Result<T, AdapterError>)

  function ReasonClass(r: CancelReason): ErrorClass {
    match r case Shutdown => ServerStopping case Cancel => Cancelled case Deadline => DeadlineExceeded
  }

  function ReasonError(r: CancelReason): AdapterError {
    AdapterError(ReasonClass(r), true)
  }

  /** One look at the caller's control: shutdown first, then cancellation, then the deadline. */
  datatype Signal = Signal(shutdown: bool, cancelled: bool, expired: bool) {
    function Reason(): Option<CancelReason> {
      if shutdown then Some(CancelReason.Shutdown)
      else if cancelled then Some(CancelReason.Cancel)
      else if expired then Some(CancelReason.Deadline)
      else None
    }
  }

  datatype Wait = Ready | TimedOut | Lost

  // ----- scripts -----

  datatype FlushTick = FlushTick(signal: Signal, status: FlushStatus)
  datatype FlushStatus = Flushed | Waiting(wait: Wait, readable: bool, consumed: bool) | Broken

  /** One round of the result loop: PQconsumeInput, PQisBusy, the wait if busy, and otherwise what
      PQgetResult returns up to its terminating NULL. */
  datatype Tick = Tick(signal: Signal, consumed: bool, busy: bool, ready: bool, results: seq<PgResult>)

  datatype PollStatus = Reading | Writing | Active | Done | Failed
  datatype CancelScript = CancelScript(created: bool, started: bool, polls: seq<CancelTick>)
  datatype CancelTick = CancelTick(expired: bool, ready: bool, next: PollStatus)

  datatype DrainTick = DrainTick(consumed: bool, busy: bool, ready: bool)

  /** How a cancellation ends: still being driven, given up together with the connection, delivered, or refused
      by the server. */
  datatype CancelEnd = Unsettled | Abandoned | Delivered | Refused

  function CancelRun(polls: seq<CancelTick>, state: PollStatus): CancelEnd {
    if polls == [] then Unsettled
    else if polls[0].expired then Abandoned
    else if state == Done then Delivered
    else if state == Failed then Refused
    else if (state == Reading || state == Writing) && !polls[0].ready then Abandoned
    else CancelRun(polls[1..], polls[0].next)
  }

  function CancelEnds(script: CancelScript): CancelEnd {
    if script.created && script.started then CancelRun(script.polls, Writing) else Abandoned
  }

  // ----- what a finished loop may answer -----

  function FirstSignal(ticks: seq<Tick>): Option<CancelReason> {
    if ticks == [] then None
    else
      var earlier := FirstSignal(ticks[..|ticks| - 1]);
      if earlier.Some? then earlier else ticks[|ticks| - 1].signal.Reason()
  }

  /** Rows are rejected as too large, or because they cannot be read. */
  predicate RowsRaise(limits: Limits, c: Retained, t: Tuples, kind: ErrorClass) {
    && !AcceptsTuples(limits, c, t)
    && ((kind == ResultLimit && (Oversized(t, limits) || !Fits(Public(WithTuples(c, t)), limits)))
        || (kind == Database && (!Decodable(t) || !HeaderAgrees(c, t))))
  }

  predicate CommandRaises(limits: Limits, c: Retained, m: Command, kind: ErrorClass) {
    || (kind == ResultLimit && !(Fits(Public(WithTag(c, m)), limits) && Fits(Public(WithCommand(c, m)), limits)))
    || (kind == Database && !DecodableCommand(m))
  }

  /** The errors one rejected result may raise. */
  predicate MayRaise(limits: Limits, c: Retained, r: PgResult, kind: ErrorClass) {
    match r
    case Copy => kind == CopyUnsupported
    case Failure => kind == Database
    case Unexpected => kind == Database
    case EmptyQuery => kind == InvalidInput
    case Chunk(t) => RowsRaise(limits, c, t, kind)
    case TuplesOk(t, m) =>
      if AcceptsTuples(limits, c, t) then CommandRaises(limits, WithTuples(c, t), m, kind)
      else RowsRaise(limits, c, t, kind)
    case CommandOk(m) => CommandRaises(limits, c, m, kind)
  }

  predicate RejectedAt(limits: Limits, rs: seq<PgResult>, k: nat, kind: ErrorClass) {
    && k < |rs|
    && AllAccepted(limits, rs[..k])
    && !Accepts(limits, Gathered(rs[..k]), rs[k])
    && MayRaise(limits, Gathered(rs[..k]), rs[k], kind)
  }

  /** The rounds before the last one all waited for more input. */
  predicate AllWaited(ticks: seq<Tick>) {
    forall i | 0 <= i < |ticks| :: ticks[i].consumed && ticks[i].busy && ticks[i].ready
  }

  const UNLIMITED := Limits(USIZE_MAX, USIZE_MAX, USIZE_MAX, USIZE_MAX)

  const LOST := AdapterError(ConnectionLost, true)

  /** How the result loop may answer after `n` rounds of waiting: the first error is the answer, except
      that lost input and COPY take its place. */
  ghost predicate Answers(limits: Limits, ticks: seq<Tick>, n: nat, answer: Result<Retained, AdapterError>) {
    && n < |ticks| && AllWaited(ticks[..n])
    && var last, first := ticks[n], FirstSignal(ticks[..n + 1]);
       match answer
       case Ok(c) =>
         last.consumed && !last.busy && first.None? && AllAccepted(limits, last.results) && c == Gathered(last.results)
       case Err(e) =>
         || (FirstSignal(ticks[..n]).None? && first.Some? && e == ReasonError(first.value))  // cancel not sent
         || (!last.consumed && e == LOST)
         || (last.consumed && last.busy && !last.ready && e == if first.Some? then ReasonError(first.value) else LOST)
         || (last.consumed && !last.busy &&
             if Copy in last.results then e == AdapterError(CopyUnsupported, true)
             else if first.Some? then e == ReasonError(first.value)
             else !e.unknown && exists k: nat :: RejectedAt(limits, last.results, k, e.kind))
  }

  /** Everything the outside contributes to one query. */
  datatype QueryScript = QueryScript(
    before: Signal,
    sent: bool,
    singleRow: bool,
    flush: seq<FlushTick>,
    ticks: seq<Tick>,
    cancel: CancelScript,
    drain: seq<DrainTick>)

  predicate WellShapedTicks(ticks: seq<Tick>) {
    forall i, k | 0 <= i < |ticks| && 0 <= k < |ticks[i].results| :: WellShaped(ticks[i].results[k])
  }

  /** Shutdown, cancellation or the deadline was seen at some point. */
  ghost predicate SignalRaised(s: QueryScript) {
    || s.before.Reason().Some?
    || (exists i :: 0 <= i < |s.flush| && FlushSignal(s.flush[i]))
    || FirstSignal(s.ticks).Some?
  }

  /** A round of flushing that only waits for the socket. */
  predicate FlushWaits(t: FlushTick) {
    t.signal.Reason().None? && t.status.Waiting? && t.status.wait.Ready? && (t.status.readable ==> t.status.consumed)
  }

  /** Round `n` is the first that does more than wait. */
  predicate FlushEnds(ticks: seq<FlushTick>, n: nat, open: bool) {
    && n < |ticks| && (n > 0 ==> open) && (forall i | 0 <= i < n :: FlushWaits(ticks[i]))
    && !(open && FlushWaits(ticks[n]))
  }

  /** What a deciding round answers: a signal comes first and is not reported as an unknown outcome; success needs
      an open connection and a flushed buffer; a wait that outlives the deadline is a deadline; everything else, a
      failed flush, socket or read or a connection that is gone, has lost it. */
  function FlushAnswer(t: FlushTick, open: bool): Result<(), AdapterError> {
    var reason := t.signal.Reason();
    if reason.Some? then Err(AdapterError(ReasonClass(reason.value), false))
    else if open && t.status.Flushed? then Ok(())
    else if open && t.status.Waiting? && t.status.wait.TimedOut? then Err(AdapterError(DeadlineExceeded, true))
    else Err(LOST)
  }

  predicate FlushSignal(t: FlushTick) {
    t.signal.Reason().Some? || (t.status.Waiting? && t.status.wait.TimedOut?)
  }

  // ----- results left unread -----

  /** The request could not be pushed out, or the caller's control spoke up before it was. */
  ghost predicate FlushFails(flush: seq<FlushTick>) {
    exists n: nat :: FlushEnds(flush, n, true) && FlushAnswer(flush[n], true).Err?
  }

  /** After `n` rounds of waiting reading fails, and no cancellation on the way has given the connection up. */
  predicate LostAt(ticks: seq<Tick>, n: nat, cancel: CancelScript) {
    && n < |ticks| && AllWaited(ticks[..n]) && !ticks[n].consumed
    && (FirstSignal(ticks[..n + 1]).Some? ==> CancelEnds(cancel).Delivered? || CancelEnds(cancel).Refused?)
  }

  ghost predicate InputLost(ticks: seq<Tick>, cancel: CancelScript) {
    exists n: nat :: LostAt(ticks, n, cancel)
  }

  /** A statement that was sent returns with its results unread. */
  ghost predicate LeavesUnread(s: QueryScript) {
    FlushFails(s.flush) || InputLost(s.ticks, s.cancel)
  }

  /** Draining reads to NULL after rounds that all wait. */
  ghost predicate Drains(ticks: seq<DrainTick>) {
    exists n :: 0 <= n < |ticks| && DrainedAt(ticks, n)
  }

  predicate DrainedAt(ticks: seq<DrainTick>, n: nat)
    requires n < |ticks|
  {
    ticks[n].consumed && !ticks[n].busy && forall i | 0 <= i < n :: ticks[i].consumed && ticks[i].busy && ticks[i].ready
  }

  /** Cancelling and draining brings the connection back: the cancellation was delivered and NULL was read. */
  ghost predicate Recovers(cancel: CancelScript, drain: seq<DrainTick>) {
    CancelEnds(cancel).Delivered? && Drains(drain)
  }

  /** Round `n`, at which the loop ends, gives the connection up: its cancellation was abandoned, the wait for more
      input failed, or COPY was met. */
  predicate GivesUpAt(ticks: seq<Tick>, n: nat, cancel: CancelScript)
    requires n < |ticks|
  {
    || (FirstSignal(ticks[..n + 1]).Some? && CancelEnds(cancel).Abandoned?)
    || (ticks[n].consumed && ticks[n].busy && !ticks[n].ready)
    || (ticks[n].consumed && !ticks[n].busy && Copy in ticks[n].results)
  }

  predicate Dispatches(s: QueryScript) {
    s.before.Reason().None? && s.sent
  }

  /** The statement gives the connection up. */
  ghost predicate GivesUp(s: QueryScript, rounds: Option<nat>) {
    && Dispatches(s)
    && if !s.singleRow then CancelEnds(s.cancel).Abandoned? || !Drains(s.drain)
       else rounds.Some? && rounds.value < |s.ticks| && GivesUpAt(s.ticks, rounds.value, s.cancel)
  }

  /** The error a streamed statement raises: the caller's reason, a connection that is gone or a statement libpq did not
      take, before anything is sent; then the error of the flush; then that of the results. */
  ghost predicate Raises(limits: Limits, s: QueryScript, open: bool, undrained: bool, rounds: Option<nat>,
                         e: AdapterError)
  {
    if s.before.Reason().Some? then e == AdapterError(ReasonClass(s.before.Reason().value), false)
    else if !open then e == AdapterError(ConnectionLost, false)
    else if !s.sent || undrained then e == AdapterError(Database, false)
    else if !s.singleRow then e == AdapterError(Internal, true)
    else if rounds.None? then exists n: nat :: FlushEnds(s.flush, n, true) && FlushAnswer(s.flush[n], true) == Err(e)
    else Answers(limits, s.ticks, rounds.value, Err(e))
  }

  // ----- what the control says -----

  /** Shutdown comes before cancellation and cancellation before the deadline, and each has its own error. */
  lemma ReasonMeans(s: Signal)
    ensures s.Reason() == None <==> !s.shutdown && !s.cancelled && !s.expired
    ensures s.shutdown ==> ReasonError(s.Reason().value) == AdapterError(ServerStopping, true)
    ensures !s.shutdown && s.cancelled ==> ReasonError(s.Reason().value) == AdapterError(Cancelled, true)
    ensures !s.shutdown && !s.cancelled && s.expired ==>
              ReasonError(s.Reason().value) == AdapterError(DeadlineExceeded, true)
  {}

  /** Pushing the request out fails for the caller's reason, whose outcome is then known, for a wait that outlives the
      deadline, or because the connection is lost; it succeeds only with a flushed buffer. */
  lemma FlushAnswerMeans(t: FlushTick, open: bool)
    ensures t.signal.shutdown ==> FlushAnswer(t, open) == Err(AdapterError(ServerStopping, false))
    ensures !t.signal.shutdown && t.signal.cancelled ==> FlushAnswer(t, open) == Err(AdapterError(Cancelled, false))
    ensures !t.signal.shutdown && !t.signal.cancelled && t.signal.expired ==>
              FlushAnswer(t, open) == Err(AdapterError(DeadlineExceeded, false))
    ensures !t.signal.shutdown && !t.signal.cancelled && !t.signal.expired ==>
              if open && t.status == Flushed then FlushAnswer(t, open) == Ok(())
              else if open && t.status.Waiting? && t.status.wait == TimedOut
              then FlushAnswer(t, open) == Err(AdapterError(DeadlineExceeded, true))
              else FlushAnswer(t, open) == Err(AdapterError(ConnectionLost, true))
  {}

  // ----- how a cancellation goes -----

  /** What the cancellation connection is waiting for at a poll. */
  function StateAt(polls: seq<CancelTick>, state: PollStatus, i: nat): PollStatus
    requires i <= |polls|
  {
    if i == 0 then state else polls[i - 1].next
  }

  /** The poll only drives the cancellation on. */
  predicate DrivesOn(polls: seq<CancelTick>, state: PollStatus, i: nat)
    requires i < |polls|
  {
    var now := StateAt(polls, state, i);
    && !polls[i].expired && now != Done && now != Failed
    && (now == Reading || now == Writing ==> polls[i].ready)
  }

  /** The first poll that does not just drive the cancellation on decides how it ends. */
  lemma {:induction false} CancelRunExactly(polls: seq<CancelTick>, state: PollStatus, n: nat)
    requires n <= |polls| && forall i | 0 <= i < n :: DrivesOn(polls, state, i)
    requires n < |polls| ==> !DrivesOn(polls, state, n)
    ensures CancelRun(polls, state) ==
            if n == |polls| then Unsettled
            else if polls[n].expired then Abandoned
            else if StateAt(polls, state, n) == Done then Delivered
            else if StateAt(polls, state, n) == Failed then Refused
            else Abandoned
  {
    if n > 0 {
      assert DrivesOn(polls, state, 0);
      forall i | 0 <= i < |polls| - 1
        ensures DrivesOn(polls[1..], polls[0].next, i) <==> DrivesOn(polls, state, i + 1)
        ensures StateAt(polls[1..], polls[0].next, i) == StateAt(polls, state, i + 1)
      {
        assert i > 0 ==> polls[1..][i - 1] == polls[i];
        assert polls[1..][i] == polls[i + 1];
      }
      forall i | 0 <= i < n - 1 ensures DrivesOn(polls[1..], polls[0].next, i) {
        assert DrivesOn(polls, state, i + 1);
      }
      CancelRunExactly(polls[1..], polls[0].next, n - 1);
    }
  }

  /** A signal while the request is still being pushed out leaves its results unread: nothing is cancelled, and the
      connection stays open. */
  lemma SignalledFlushLeavesUnread(s: QueryScript, n: nat)
    requires n < |s.flush| && FlushSignal(s.flush[n]) && forall i | 0 <= i < n :: FlushWaits(s.flush[i])
    ensures LeavesUnread(s)
  {
    assert FlushEnds(s.flush, n, true);
  }

  /** A round that is not lost and does not wait decides that nothing is. */
  lemma DecidedNotLost(ticks: seq<Tick>, n: nat, cancel: CancelScript)
    requires n < |ticks| && AllWaited(ticks[..n]) && ticks[n].consumed && !(ticks[n].busy && ticks[n].ready)
    ensures !InputLost(ticks, cancel)
  {
    forall m: nat ensures !LostAt(ticks, m, cancel) {
      if m < n {
        assert ticks[..n][m] == ticks[m];
      } else if n < m < |ticks| {
        assert ticks[..m][n] == ticks[n];
      }
    }
  }

  lemma GivenUpNotLost(ticks: seq<Tick>, n: nat, cancel: CancelScript)
    requires n < |ticks| && AllWaited(ticks[..n]) && FirstSignal(ticks[..n + 1]).Some? && CancelEnds(cancel).Abandoned?
    ensures !InputLost(ticks, cancel)
  {
    forall m: nat ensures !LostAt(ticks, m, cancel) {
      if m < n {
        assert ticks[..n][m] == ticks[m];
      } else if m < |ticks| {
        assert ticks[..m + 1][..n + 1] == ticks[..n + 1];
        FirstSignalKept(ticks[..m + 1], n + 1);
      }
    }
  }

  lemma {:induction false} FirstSignalWasRaised(ticks: seq<Tick>)
    ensures FirstSignal(ticks).Some? <==> exists i :: 0 <= i < |ticks| && ticks[i].signal.Reason().Some?
    ensures FirstSignal(ticks).Some? ==> exists i :: 0 <= i < |ticks| && ticks[i].signal.Reason() == FirstSignal(ticks)
                                                  && forall k | 0 <= k < i :: ticks[k].signal.Reason().None?
  {
    if ticks != [] {
      var n := |ticks| - 1;
      FirstSignalWasRaised(ticks[..n]);
      if FirstSignal(ticks[..n]).Some? {
        var i :| 0 <= i < n && ticks[..n][i].signal.Reason() == FirstSignal(ticks[..n])
                 && forall k | 0 <= k < i :: ticks[..n][k].signal.Reason().None?;
        assert ticks[i].signal.Reason().Some?;
        forall k | 0 <= k < i ensures ticks[k].signal.Reason().None? {
          assert ticks[..n][k] == ticks[k];
        }
      } else {
        forall k | 0 <= k < n ensures ticks[k].signal.Reason().None? {
          assert ticks[..n][k] == ticks[k];
        }
      }
    }
  }

  lemma {:induction false} FirstSignalKept(ticks: seq<Tick>, n: nat)
    requires n <= |ticks| && FirstSignal(ticks[..n]).Some?
    ensures FirstSignal(ticks) == FirstSignal(ticks[..n])
  {
    if n == |ticks| {
      assert ticks[..n] == ticks;
    } else {
      assert ticks[..|ticks| - 1][..n] == ticks[..n];
      FirstSignalKept(ticks[..|ticks| - 1], n);
    }
  }

  lemma SignalsOfPrefix(ticks: seq<Tick>, n: nat)
    requires n < |ticks|
    ensures FirstSignal(ticks[..n + 1]).Some? ==> FirstSignal(ticks).Some?
  {
    if FirstSignal(ticks[..n + 1]).Some? {
      FirstSignalKept(ticks, n + 1);
    }
  }

  lemma RejectedIsNotAccepted(limits: Limits, rs: seq<PgResult>, k: nat, kind: ErrorClass)
    requires RejectedAt(limits, rs, k, kind)
    ensures !AllAccepted(limits, rs)
  {
    AcceptedStep(limits, rs, k);
    if AllAccepted(limits, rs) {
      AcceptedPrefix(limits, rs, k + 1);
    }
  }

  lemma CopyIsNotAccepted(limits: Limits, rs: seq<PgResult>, k: nat)
    requires k < |rs| && rs[k] == Copy
    ensures !AllAccepted(limits, rs)
  {
    AcceptedStep(limits, rs, k);
    if AllAccepted(limits, rs) {
      AcceptedPrefix(limits, rs, k + 1);
    }
  }

  /** What the loop knows after `k` results, none of them COPY: the error it will report, if any. */
  ghost predicate Noted(limits: Limits, rs: seq<PgResult>, k: nat, signal: Option<CancelReason>,
                        e: Option<AdapterError>)
  {
    && k <= |rs| && Copy !in rs[..k]
    && match signal
       case Some(reason) => e == Some(ReasonError(reason))
       case None =>
         match e
         case None => AllAccepted(limits, rs[..k])
         case Some(x) => !x.unknown && exists n: nat :: RejectedAt(limits, rs, n, x.kind)
  }

  lemma NotedNext(limits: Limits, rs: seq<PgResult>, k: nat, signal: Option<CancelReason>, e: Option<AdapterError>,
                  error: Option<ErrorClass>)
    requires Noted(limits, rs, k, signal, e) && k < |rs| && rs[k] != Copy
    requires e.None? ==> (error.None? <==> Accepts(limits, Gathered(rs[..k]), rs[k]))
    requires e.None? && error.Some? ==> MayRaise(limits, Gathered(rs[..k]), rs[k], error.value)
    ensures Noted(limits, rs, k + 1, signal, if e.None? && error.Some? then Some(AdapterError(error.value, false)) else e)
  {
    hide Accepts, MayRaise, Gathered;
    AcceptedStep(limits, rs, k);
    assert rs[..k + 1] == rs[..k] + [rs[k]];
    if e.None? && error.Some? {
      assert RejectedAt(limits, rs, k, error.value);
    }
  }

  lemma NotedEnd(limits: Limits, rs: seq<PgResult>, signal: Option<CancelReason>, e: Option<AdapterError>)
    requires Noted(limits, rs, |rs|, signal, e)
    ensures Copy !in rs
    ensures e.None? <==> signal.None? && AllAccepted(limits, rs)
    ensures e.Some? && signal.None? ==> !e.value.unknown && exists n: nat :: RejectedAt(limits, rs, n, e.value.kind)
  {
    assert rs[..|rs|] == rs;
    if e.Some? && signal.None? {
      var n: nat :| RejectedAt(limits, rs, n, e.value.kind);
      RejectedIsNotAccepted(limits, rs, n, e.value.kind);
    }
  }

  predicate IsControl(kind: ErrorClass) {
    kind == Cancelled || kind == DeadlineExceeded || kind == ServerStopping
  }

  lemma ControlMeansSignal(limits: Limits, ticks: seq<Tick>, n: nat, answer: Result<Retained, AdapterError>)
    requires Answers(limits, ticks, n, answer)
    ensures n < |ticks|
    ensures answer.Err? && IsControl(answer.error.kind) ==> FirstSignal(ticks[..n + 1]).Some?
  {}

  class Connection {
    var open: bool             // the PGconn has not been finished
    var busy: bool
    var undrained: bool        // libpq: a statement was sent and PQgetResult has not returned NULL since
    ghost var cancels: nat     // cancellations started

    /** A finished connection has nothing left to drain. */
    ghost predicate Valid()
      reads this
    {
      !open ==> !undrained && !busy
    }

    constructor ()
      ensures Valid() && open && !busy && !undrained && cancels == 0
    {
      open, busy, undrained, cancels := true, false, false, 0;
    }

    method Dispose()
      modifies this
      ensures Valid() && !open && !undrained && !busy && cancels == old(cancels)
    {
      open, busy, undrained := false, false, false;
    }

    /** Start and drive the separate cancellation connection; every failure disposes of the original. */
    method DispatchCancel(reason: CancelReason, script: CancelScript) returns (r: Outcome<bool>)
      requires Valid()
      modifies this
      ensures Valid()
      ensures cancels <= old(cancels) + 1
      ensures r.Finished? && r.result.Err? ==> !open && r.result.error == ReasonError(reason)
      ensures r.Finished? && r.result.Ok? ==>
                open == old(open) && busy == old(busy) && undrained == old(undrained)
                && (r.result.value ==> cancels == old(cancels) + 1)
      ensures !old(open) ==> r == Finished(Ok(false)) && cancels == old(cancels)
      ensures old(open) ==> match CancelEnds(script)
                            case Unsettled => r == Pending
                            case Abandoned => r == Finished(Err(ReasonError(reason)))
                            case Delivered => r == Finished(Ok(true))
                            case Refused => r == Finished(Ok(false))
    {
      if !open {
        return Finished(Ok(false));
      }
      if !script.created || !script.started {
        Dispose();
        return Finished(Err(ReasonError(reason)));
      }
      cancels := cancels + 1;
      var state := Writing;
      for i := 0 to |script.polls|
        invariant open && busy == old(busy) && undrained == old(undrained) && cancels == old(cancels) + 1
        invariant CancelEnds(script) == CancelRun(script.polls[i..], state)
      {
        var poll := script.polls[i];
        if poll.expired {
          Dispose();
          return Finished(Err(ReasonError(reason)));
        }
        if state == Done {
          return Finished(Ok(true));
        }
        if state == Failed {
          return Finished(Ok(false));
        }
        if (state == Reading || state == Writing) && !poll.ready {
          Dispose();
          return Finished(Err(ReasonError(reason)));
        }
        state := poll.next;
      }
      return Pending;
    }

    /** Read and discard results until NULL. */
    method DrainUntilIdle(ticks: seq<DrainTick>) returns (r: Outcome<()>)
      requires Valid()
      modifies this`undrained
      ensures Valid()
      ensures r.Finished? && r.result.Ok? ==> !undrained
      ensures !(r.Finished? && r.result.Ok?) ==> undrained == old(undrained)
      ensures r.Finished? && old(open) ==> (r.result.Ok? <==> Drains(ticks))
      ensures r.Finished? && !old(open) ==> r.result.Ok?
      ensures r.Finished? && r.result.Err? ==> r.result.error == LOST
    {
      for i := 0 to |ticks|
        invariant undrained == old(undrained)
        invariant i > 0 ==> open
        invariant forall k | 0 <= k < i :: ticks[k].consumed && ticks[k].busy && ticks[k].ready
      {
        if !open {
          return Finished(Ok(()));
        }
        if !ticks[i].consumed {
          return Finished(Err(AdapterError(ConnectionLost, true)));
        }
        if !ticks[i].busy {
          assert DrainedAt(ticks, i);
          undrained := false;
          return Finished(Ok(()));
        }
        if !ticks[i].ready {
          return Finished(Err(AdapterError(ConnectionLost, true)));
        }
      }
      return if open then Pending else Finished(Ok(()));
    }

    /** Whatever the answer, the connection is drained or gone. */
    method CancelAndDrain(reason: CancelReason, script: CancelScript, ticks: seq<DrainTick>) returns (r: Outcome<bool>)
      requires Valid()
      modifies this
      ensures Valid()
      ensures r.Finished? ==> !undrained
      ensures r.Finished? ==>
                r.result == if old(open) && Recovers(script, ticks) then Ok(true) else Err(ReasonError(reason))
      ensures r.Finished? && old(open) ==> (open <==> !CancelEnds(script).Abandoned? && Drains(ticks))
      ensures cancels <= old(cancels) + 1
    {
      var dispatched := DispatchCancel(reason, script);
      if dispatched.Pending? || dispatched.result.Err? {
        return dispatched;
      }
      var drained := DrainUntilIdle(ticks);
      if drained.Pending? {
        return Pending;
      }
      if drained.result.Err? {
        Dispose();
        return Finished(Err(ReasonError(reason)));
      }
      return if dispatched.result.value then Finished(Ok(true)) else Finished(Err(ReasonError(reason)));
    }

    /** Push the request out; nothing has been read back yet, so nothing is drained either way. The first round that
        does not just wait decides. */
    method FlushOutput(ticks: seq<FlushTick>) returns (r: Outcome<()>)
      requires Valid()
      ensures r.Pending? <==> (ticks != [] ==> open) && forall i | 0 <= i < |ticks| :: FlushWaits(ticks[i])
      ensures r.Finished? ==> exists n: nat :: FlushEnds(ticks, n, open) && FlushAnswer(ticks[n], open) == r.result
      ensures r.Finished? && r.result.Ok? ==> open
      ensures r.Finished? && open ==> (r.result.Err? <==> FlushFails(ticks))
    {
      for i := 0 to |ticks|
        invariant forall k | 0 <= k < i :: FlushWaits(ticks[k])
        invariant i > 0 ==> open
      {
        var reason := ticks[i].signal.Reason();
        if reason.Some? {
          r := Finished(Err(AdapterError(ReasonClass(reason.value), false)));
          assert FlushEnds(ticks, i, open);
          return;
        }
        if !open {
          assert FlushEnds(ticks, i, open);
          return Finished(Err(LOST));
        }
        match ticks[i].status {
          case Flushed =>
            assert FlushEnds(ticks, i, open);
            return Finished(Ok(()));
          case Broken =>
            assert FlushEnds(ticks, i, open);
            return Finished(Err(LOST));
          case Waiting(wait, readable, consumed) =>
            if wait == TimedOut {
              assert FlushEnds(ticks, i, open);
              return Finished(Err(AdapterError(DeadlineExceeded, true)));
            }
            if wait == Lost || (readable && !consumed) {
              assert FlushEnds(ticks, i, open);
              return Finished(Err(LOST));
            }
        }
      }
      return Pending;
    }

    /** Note the first signal and, once, ask the server to cancel. */
    method NoteSignal(first: Option<CancelReason>, signal: Signal, cancel: CancelScript)
      returns (now: Option<CancelReason>, r: Outcome<bool>)
      requires Valid()
      modifies this
      ensures Valid()
      ensures now == if first.Some? then first else signal.Reason()
      ensures cancels <= old(cancels) + (if first.None? && now.Some? then 1 else 0)
      ensures r.Finished? && r.result.Ok? ==> open == old(open) && undrained == old(undrained)
      ensures r.Finished? && r.result.Err? ==>
                first.None? && now.Some? && !open && r.result.error == ReasonError(now.value)
      ensures r.Finished? && old(open) && first.None? && now.Some? ==>
                if r.result.Ok? then CancelEnds(cancel).Delivered? || CancelEnds(cancel).Refused?
                else CancelEnds(cancel).Abandoned?
    {
      now := first;
      r := Finished(Ok(true));
      if first.None? && signal.Reason().Some? {
        now := signal.Reason();
        r := DispatchCancel(now.value, cancel);
      }
    }

    /** Collect until NULL, noting the first signal and the first rejected result on the way. */
    method CollectResults(limits: Limits, flush: seq<FlushTick>, ticks: seq<Tick>, cancel: CancelScript)
      returns (r: Outcome<Retained>, rounds: Option<nat>)
      requires Valid() && limits.resultJsonBytes >= 62 && WellShapedTicks(ticks)
      modifies this
      ensures Valid()
      ensures cancels <= old(cancels) + if FirstSignal(ticks).Some? then 1 else 0
      ensures r.Finished? && rounds.Some? ==> Answers(limits, ticks, rounds.value, r.result)
      ensures r.Finished? && rounds.None? ==>
                r.result.Err? && (r.result.error.kind == ConnectionLost ||
                                  exists i :: 0 <= i < |flush| && FlushSignal(flush[i]))
      ensures r.Finished? && rounds.None? ==>
                exists n: nat ::
                  FlushEnds(flush, n, old(open)) && FlushAnswer(flush[n], old(open)) == Err(r.result.error)
      ensures r.Finished? && old(open) ==>
                (open <==> (rounds.Some? ==> !GivesUpAt(ticks, rounds.value, cancel)))
      ensures r.Finished? && r.result.Ok? ==> rounds.Some? && open && !undrained && !busy
      ensures r.Finished? && rounds.Some? && undrained ==> r.result == Err(LOST)
      ensures r.Finished? && old(undrained) ==> (undrained <==> FlushFails(flush) || InputLost(ticks, cancel))
    {
      hide CancelRun, AllAccepted, Gathered, RejectedAt;
      var flushed := FlushOutput(flush);
      if flushed.Pending? {
        return Pending, None;
      }
      if flushed.result.Err? {
        ghost var n: nat :| FlushEnds(flush, n, open) && FlushAnswer(flush[n], open) == flushed.result;
        assert flushed.result.error.kind == ConnectionLost || FlushSignal(flush[n]);
        return Finished(Err(flushed.result.error)), None;
      }
      var collector := new ResultCollector(limits);
      var first: Option<CancelReason> := None;
      for n := 0 to |ticks|
        invariant Valid() && open && fresh(collector) && collector.limits == limits && collector.Contents() == EMPTY
        invariant AllWaited(ticks[..n])
        invariant first == FirstSignal(ticks[..n])
        invariant cancels <= old(cancels) + if first.Some? then 1 else 0
        invariant undrained == old(undrained) && (old(undrained) ==> !FlushFails(flush))
        invariant first.Some? ==> CancelEnds(cancel).Delivered? || CancelEnds(cancel).Refused?
      {
        assert ticks[..n + 1][..n] == ticks[..n];
        var noted;
        first, noted := NoteSignal(first, ticks[n].signal, cancel);
        assert first == FirstSignal(ticks[..n + 1]);
        if first.Some? {
          FirstSignalKept(ticks, n + 1);
        }
        if noted.Pending? {
          return Pending, None;
        }
        if noted.result.Err? {
          GivenUpNotLost(ticks, n, cancel);
          return Finished(Err(noted.result.error)), Some(n);
        }
        if !ticks[n].consumed {
          busy := false;
          assert LostAt(ticks, n, cancel);
          return Finished(Err(LOST)), Some(n);
        }
        if ticks[n].busy {
          if !ticks[n].ready {
            DecidedNotLost(ticks, n, cancel);
            Dispose();
            return Finished(Err(if first.Some? then ReasonError(first.value) else LOST)), Some(n);
          }
          continue;
        }
        DecidedNotLost(ticks, n, cancel);
        r := TakeResults(limits, collector, ticks[n].results, first);
        return r, Some(n);
      }
      assert ticks[..|ticks|] == ticks;
      return Pending, None;
    }

    /** Not busy any more: take every result until NULL. */
    method TakeResults(limits: Limits, collector: ResultCollector, results: seq<PgResult>, signal: Option<CancelReason>)
      returns (r: Outcome<Retained>)
      requires Valid() && open && limits.resultJsonBytes >= 62
      requires collector.limits == limits && collector.Contents() == EMPTY
      requires forall k | 0 <= k < |results| :: WellShaped(results[k])
      modifies this, collector
      ensures Valid() && !undrained && !busy && cancels == old(cancels) && r.Finished?
      ensures r.result.Ok? ==> open
      ensures open <==> Copy !in results
      ensures r.result.Ok? <==> signal.None? && AllAccepted(limits, results)
      ensures r.result.Ok? ==> r.result.value == Gathered(results)
      ensures r.result.Err? ==>
                if Copy in results then r.result.error == AdapterError(CopyUnsupported, true) && !open
                else if signal.Some? then r.result.error == ReasonError(signal.value)
                else !r.result.error.unknown && exists k: nat :: RejectedAt(limits, results, k, r.result.error.kind)
    {
      EmptyFits(limits);
      var firstError := match signal case Some(s) => Some(ReasonError(s)) case None => None;
      for k := 0 to |results|
        invariant Valid() && open && cancels == old(cancels)
        invariant collector.Valid() && collector.limits == limits
        invariant Noted(limits, results, k, signal, firstError)
        invariant firstError.None? ==> collector.Contents() == Gathered(results[..k])
      {
        AcceptedStep(limits, results, k);
        var error := ConsumeResult(collector, results[k]);
        if error == Some(CopyUnsupported) {
          Dispose();
          CopyIsNotAccepted(limits, results, k);
          return Finished(Err(AdapterError(CopyUnsupported, true)));
        }
        NotedNext(limits, results, k, signal, firstError, error);
        if error.Some? && firstError.None? {
          firstError := Some(AdapterError(error.value, false));
        }
      }
      NotedEnd(limits, results, signal, firstError);
      assert results[..|results|] == results;
      busy, undrained := false, false;
      if firstError.Some? {
        return Finished(Err(firstError.value));
      }
      return Finished(Ok(collector.Contents()));
    }

    /** `Connection::query` after its argument checks. What it leaves unread, nobody drains here. */
    method SendQuery(limits: Limits, script: QueryScript) returns (r: Outcome<Retained>, rounds: Option<nat>)
      requires Valid() && limits.resultJsonBytes >= 62 && WellShapedTicks(script.ticks)
      modifies this
      ensures Valid()
      ensures r.Finished? && r.result.Ok? ==>
                rounds.Some? && Answers(limits, script.ticks, rounds.value, r.result) && open && !undrained && !busy
      ensures r.Finished? ==>
                (undrained <==>
                   old(undrained) || (old(open) && Dispatches(script) && script.singleRow && LeavesUnread(script)))
      ensures r.Finished? && r.result.Err? && undrained && !old(undrained) ==>
                r.result.error.kind == ConnectionLost || SignalRaised(script)
      ensures r.Finished? && r.result.Err? && IsControl(r.result.error.kind) ==> SignalRaised(script)
      ensures (old(undrained) || !old(open)) && r.Finished? ==> r.result.Err? && !r.result.error.unknown
      ensures r.Finished? && r.result.Err? ==>
                if script.before.Reason().Some? then
                  rounds == None && r.result.error == AdapterError(ReasonClass(script.before.Reason().value), false)
                else if !old(open) then rounds == None && r.result.error == AdapterError(ConnectionLost, false)
                else if !script.sent || old(undrained) then
                  rounds == None && r.result.error == AdapterError(Database, false)
                else if !script.singleRow then rounds == None && r.result.error == AdapterError(Internal, true)
                else if rounds.None? then
                  exists n: nat ::
                    FlushEnds(script.flush, n, true) && FlushAnswer(script.flush[n], true) == Err(r.result.error)
                else Answers(limits, script.ticks, rounds.value, r.result)
      ensures !Dispatches(script) || old(undrained) || !old(open) ==> open == old(open)
      ensures r.Finished? && old(open) && Dispatches(script) && !old(undrained) ==>
                (open <==> if !script.singleRow then !CancelEnds(script.cancel).Abandoned? && Drains(script.drain)
                           else rounds.Some? ==> !GivesUpAt(script.ticks, rounds.value, script.cancel))
    {
      hide Answers, FlushFails, InputLost;
      rounds := None;
      var reason := script.before.Reason();
      if reason.Some? {
        return Finished(Err(AdapterError(ReasonClass(reason.value), false))), None;
      }
      if !open {
        return Finished(Err(AdapterError(ConnectionLost, false))), None;
      }
      if !script.sent || undrained {  // libpq takes no statement before the last one is read to NULL
        return Finished(Err(AdapterError(Database, false))), None;
      }
      busy, undrained := true, true;
      if !script.singleRow {
        var drained := CancelAndDrain(CancelReason.Cancel, script.cancel, script.drain);
        return if drained.Pending? then Pending else Finished(Err(AdapterError(Internal, true))), None;
      }
      r, rounds := CollectResults(limits, script.flush, script.ticks, script.cancel);
      busy := false;
      if r.Finished? && rounds.Some? {
        ControlMeansSignal(limits, script.ticks, rounds.value, r.result);
        SignalsOfPrefix(script.ticks, rounds.value);
      }
    }

    /** `Connection::execute`, which sends BEGIN, COMMIT and ROLLBACK: no row mode and no limits. */
    method Execute(script: QueryScript) returns (r: Outcome<Retained>, rounds: Option<nat>)
      requires Valid() && WellShapedTicks(script.ticks)
      modifies this
      ensures Valid()
      ensures r.Finished? && r.result.Ok? ==>
                rounds.Some? && Answers(UNLIMITED, script.ticks, rounds.value, r.result) && open && !undrained && !busy
      ensures r.Finished? ==> (undrained <==> old(undrained) || (old(open) && Dispatches(script) && LeavesUnread(script)))
      ensures r.Finished? && r.result.Err? && undrained && !old(undrained) ==>
                r.result.error.kind == ConnectionLost || SignalRaised(script)
      ensures (old(undrained) || !old(open)) && r.Finished? ==> r.result.Err? && !r.result.error.unknown
      ensures r.Finished? && r.result.Err? ==>
                if script.before.Reason().Some? then
                  rounds == None && r.result.error == AdapterError(ReasonClass(script.before.Reason().value), false)
                else if !old(open) then rounds == None && r.result.error == AdapterError(ConnectionLost, false)
                else if !script.sent || old(undrained) then
                  rounds == None && r.result.error == AdapterError(Database, false)
                else if rounds.None? then
                  exists n: nat ::
                    FlushEnds(script.flush, n, true) && FlushAnswer(script.flush[n], true) == Err(r.result.error)
                else Answers(UNLIMITED, script.ticks, rounds.value, r.result)
      ensures !Dispatches(script) || old(undrained) || !old(open) ==> open == old(open)
      ensures r.Finished? && old(open) && Dispatches(script) && !old(undrained) ==>
                (open <==> (rounds.Some? ==> !GivesUpAt(script.ticks, rounds.value, script.cancel)))
    {
      hide Answers, FlushFails, InputLost, FlushEnds, FlushAnswer;
      rounds := None;
      var reason := script.before.Reason();
      if reason.Some? {
        return Finished(Err(AdapterError(ReasonClass(reason.value), false))), None;
      }
      if !open {
        return Finished(Err(AdapterError(ConnectionLost, false))), None;
      }
      if !script.sent || undrained {
        return Finished(Err(AdapterError(Database, false))), None;
      }
      busy, undrained := true, true;
      r, rounds := CollectResults(UNLIMITED, script.flush, script.ticks, script.cancel);
      busy := false;
    }

    /** `LibpqBackend::query`: after an error, a request that was stopped, cancelled or out of time is
        cancelled and drained before anything else happens on the connection. */
    method BackendQuery(limits: Limits, script: QueryScript, after: Signal, cancel: CancelScript, drain: seq<DrainTick>)
      returns (r: Outcome<Retained>, rounds: Option<nat>)
      requires Valid() && limits.resultJsonBytes >= 62 && WellShapedTicks(script.ticks)
      requires SignalRaised(script) ==> after.Reason().Some?  // tokens and the clock never go back
      modifies this
      ensures Valid()
      ensures r.Finished? && r.result.Ok? ==>
                rounds.Some? && Answers(limits, script.ticks, rounds.value, r.result) && open && !undrained && !busy
      ensures r.Finished? && r.result.Ok? ==> Fits(Public(r.result.value), limits)
      ensures r.Finished? && r.result.Err? && (IsControl(r.result.error.kind) || after.Reason().Some?) ==> !undrained
      ensures r.Finished? && r.result.Err? && undrained && !old(undrained) ==> r.result.error.kind == ConnectionLost
      ensures r.Finished? ==>
                (undrained <==>
                 && after.Reason().None?
                 && (old(undrained) || (old(open) && Dispatches(script) && script.singleRow && LeavesUnread(script))))
      ensures r.Finished? && r.result.Err? && (after.cancelled || after.expired) ==> r.result.error.unknown
      ensures r.Finished? && r.result.Err? ==>
                if after.Reason().Some?
                   && !(old(open) && (old(undrained) || !GivesUp(script, rounds)) && Recovers(cancel, drain))
                then r.result.error == ReasonError(after.Reason().value)
                else exists e ::
                  && Raises(limits, script, old(open), old(undrained), rounds, e)
                  && r.result.error == AdapterError(e.kind, e.unknown || after.cancelled || after.expired)
    {
      hide LeavesUnread, SignalRaised;
      r, rounds := SendQuery(limits, script);
      if r.Pending? {
        return;
      }
      if r.result.Ok? {
        AcceptedResultFits(limits, script.ticks[rounds.value].results);
        return;
      }
      var reason := after.Reason();
      if reason.Some? {
        var drained := CancelAndDrain(reason.value, cancel, drain);
        if drained.Pending? {
          return Pending, None;
        }
        if drained.result.Err? {
          return Finished(Err(drained.result.error)), rounds;
        }
      }
      var error := r.result.error;
      r := Finished(Err(error.(unknown := error.unknown || after.cancelled || after.expired)));
    }
  }

  /** One result goes to the collector; the error it raises is the one its status stands for. */
  method ConsumeResult(collector: ResultCollector, r: PgResult) returns (error: Option<ErrorClass>)
    requires collector.Valid() && WellShaped(r)
    modifies collector
    ensures collector.Valid()
    ensures error.None? <==> Accepts(collector.limits, old(collector.Contents()), r)
    ensures error.None? ==> collector.Contents() == WithResult(old(collector.Contents()), r)
    ensures error.Some? ==> MayRaise(collector.limits, old(collector.Contents()), r, error.value)
    ensures error == Some(CopyUnsupported) <==> r == Copy
    ensures r == EmptyQuery ==> error == Some(InvalidInput)
    ensures r == Failure || r == Unexpected ==> error == Some(Database)
  {
    match r {
      case Chunk(t) =>
        error := collector.ConsumeRows(t);
      case TuplesOk(t, m) =>
        error := collector.ConsumeRows(t);
        if error.None? {
          error := collector.ConsumeCommand(m);
        }
      case CommandOk(m) =>
        error := collector.ConsumeCommand(m);
      case Copy =>
        error := Some(CopyUnsupported);
      case Failure =>
        error := Some(Database);
      case EmptyQuery =>
        error := Some(InvalidInput);
      case Unexpected =>
        error := Some(Database);
    }
  }
}
