# A verified model of the PostgreSQL MCP server

The server hands out handles to PostgreSQL connections, each owned by one worker thread, and answers a small set of
lifecycle tools with bounded results. This project models the parts of it that can go wrong in ways no single function
shows, and proves properties of them with Dafny. `dafny verify dfyconfig.toml` checks everything.

What the modules cover:

- **Registry and shutdown** (`HandleId`, `Registry`, `RegistryProtocol`, `RegistrySafety`, `RegistryRuns`,
  `RegistryHandles`, `RegistryProgress`, `RegistryThreads`, `RegistryVerdicts`, `RegistryEndings`,
  `RegistryCounterexamples`). The locked sections of the registry are methods of a class, each equated with a function
  on the registry's value. The protocol puts them, the worker loops, the channels and any number of shutdown callers
  into one state machine whose steps interleave freely; the backend, the clock and the callers are parameters of the
  steps.
- **One handle over its life** (`Protocol`, `HandleLifecycle`, `HandleReplies`, `HandleRuns`). Preconditions, the
  backend's answers, re-observation, publication and guidance for one request, and theorems about all sequences of
  requests; `RegistryHandles` carries them over to every interleaving of the whole registry.
- **Bounded results** (`QueryResult`, `Collector`, `Acceptance`, `AnswerContents`, `ResultDocuments`). The collector
  keeps columns and rows as long as the canonical JSON of what it holds stays within the budget, undoing what does not
  fit. The theorems compare this row-by-row check with the check of the whole.
- **The adapter's loops** (`ResultLoop`). Flushing, collecting, cancelling and draining over finite scripts of
  whatever libpq, the clock and the caller's tokens may do. A loop still waiting at the end of its script says so.
  libpq takes no statement while results of an earlier one are unread, as its documentation of PQsendQuery says.
- **Schema assembly** (`Lists`, `Catalog`, `CatalogRows`, `SchemaSize`, `SchemaAssembly`, `SchemaResponse`,
  `SchemaContents`, `SchemaDocuments`, `SchemaSession`). Catalog rows are folded into nested sorted maps, with the
  whole response validated after each row. The three loops of the source are three calls of one method with that loop.
  `SchemaSession` puts the transaction around them, over the adapter's loops.
- **JSON and envelopes** (`ByteOrder`, `SortedMap`, `Json`, `JsonText`, `JsonReading`, `JsonUnique`, `Wire`,
  `Envelope`, `EnvelopeRoundTrip`, `EnvelopeDocuments`). Canonical form, text length, and the hand-written envelope
  encoder and decoder, including what derived decoders also accept: structures as arrays and unit variants as
  one-member objects.
- **The test proxy** (`Proxy`, `ProxyProtocol`, `ProxySafety`, `ProxyRuns`, `ProxyPause`, `ProxyDrop`,
  `ProxyStopping`, `ProxyBarrier`). The pause barrier, resume, drop and the forwarding workers as a state machine over
  the one locked state.
- **The changelog extractor** (`Strings`, `Changelog`, `ChangelogLines`, `ChangelogSections`, `ChangelogRendering`).
  The scanner with its loops, and the theorem that it inverts rendering.
- **Limits** (`Limits`). Merging and checking of settings, and the argument checks of the two layers that use them.

Conventions. A Rust `String` is modelled as its UTF-8 bytes, one `char` for each byte, so that lengths are byte lengths
and string order is byte order; in `Strings`, the changelog modules and `Limits`, which depend on white space and on
character classes, a string is a sequence of Unicode scalar values instead, and `Limits.Utf8` gives its bytes. A
`BTreeMap` is the sequence of its entries in key order. Unsigned integers are naturals; where the width matters
(the handle counter, unit and byte totals, 32-bit catalog numbers, the C int parameter count) the bound and what
happens at it are written out. Object keys are sorted by UTF-8 bytes, unlike section 3.2.3 of RFC 8785, which sorts by
UTF-16 code units.

Where the code and its documents disagree the model follows the code:

- DESIGN.md:25 says every end of a transaction clears the schema observation; DESIGN.md:29 says verified row-only
  commits and rollbacks keep it. The code does the latter.
- DESIGN.md:33 has a refused close recommend commit and rollback. The reply is built with the general moves, which in a
  healthy transaction include a query.
- `dispatch` looks up the state of a closed handle while it holds the registry lock that the lookup takes
  (crates/postgres-mcp-core/src/worker.rs:772-777). The model has the refusal with HANDLE_UNKNOWN that is meant.
- Publishing an unknown outcome is not sticky: the next request observes the backend again. Only the lost schema
  observation lasts, which is what `HandleRuns.UnknownOutcomeNeedsSchema` rests on.

Promises that turned out false of the code, each with the exact condition under which they hold and a concrete case in
which they do not:

- Handle names are unique: `RegistryRuns.NamesNeverReused`, `RegistryCounterexamples.NameGivenTwice`.
- A verified report speaks of every worker: `RegistryRuns.VerifiedReportSpeaksOf`,
  `RegistryCounterexamples.VerifiedReportMissesRefusedWorker`.
- A worker that shuts down cleanly is reported as verified: `RegistryVerdicts.VerifiedExactly`,
  `RegistryVerdicts.CleanShutdownReportedUncertain`.
- A statement that was sent and is then cancelled is drained, or its connection disposed (DESIGN.md:47):
  `ResultLoop.Connection.Execute`, `SchemaSession.Retrieve`, `ResultLoop.SignalledFlushLeavesUnread`.
- What a reply recommends is accepted: `HandleRuns.MovesMatchPreconditions`, `HandleRuns.RecommendedQueryRefused`.
- A refused close recommends commit and rollback: `HandleRuns.RefusedCloseMoves`,
  `HandleRuns.RefusedCloseRecommendsQuery`.
- The collector accepts whatever fits: `Acceptance.ConservativeByOneByte`, `Acceptance.RefusedThoughItFits`.
- Envelopes survive the round trip: `EnvelopeRoundTrip.EnvelopeRoundTrip`, `EnvelopeRoundTrip.NullResultRefused`.
- A configuration file that loads can be used: `Limits.UsableProfiles`, `Limits.AcceptedFileWithUnusableProfile`.
- After an Ok pause nothing moves until a resume: `ProxyPause.PauseMeansBarred`,
  `ProxyPause.PauseReturnsEarlyWhileStopping`, `ProxyPause.OverlappingResumeDefeatsPause`.
- After an Ok drop nothing is left and nothing was let in: `ProxyDrop.DropMeansDropped`,
  `ProxyDrop.OverlappingDropLetsConnectionIn`.

## Model

| member | source | states |
|---|---|---|
| `RegistryRuns.RunIsGood` | crates/postgres-mcp-core/src/worker.rs:458-959 | Every state of every interleaving of opens, requests, workers and several shutdown callers satisfies the whole invariant (ids, threads, quota, lifecycle, owner), as long as handle names last |
| `RegistryRuns.StepKeeps` | crates/postgres-mcp-core/src/worker.rs:1066-1148 | Each of the 26 kinds of steps, whatever thread takes it, keeps that invariant |
| `RegistryRuns.NamesNeverReused` | crates/postgres-mcp-core/src/worker.rs:359-363 | In every run no handle name is given out twice if and only if at most 2^64 - 1 opens were reserved: the saturating counter repeats its last value after that |
| `RegistryRuns.QuotaInEveryRun` | crates/postgres-mcp-core/src/worker.rs:458-519 | In every run the number of a profile's handles (closed ones included) plus that of its pending opens is at most its max_handles, and no id is both registered and pending |
| `RegistryRuns.AdmissionConserved` | crates/postgres-mcp-core/src/worker.rs:1040-1131 | In every run `admitted` equals queued plus executing requests while the worker lives and never exceeds the limit; requests finish in admission order, each exactly once, by a reply or by being dropped with the queue |
| `RegistryRuns.AdmittedIsSent` | crates/postgres-mcp-core/src/worker.rs:762-811 | In every run an admitted `try_send` meets neither a full nor a disconnected channel: admission decides exactly as if there were room |
| `RegistryRuns.PublishedByOwnWorker` | crates/postgres-mcp-core/src/worker.rs:1098-1124 | No step but the handle's own execution, halting or registration changes its published snapshot, so the next request is judged against the one its predecessor left |
| `RegistryRuns.NothingNewAfterStopping` | crates/postgres-mcp-core/src/worker.rs:610-651 | From the Stopping step on the handle set is fixed even with connects in flight, reservations only disappear, and a frozen report never changes |
| `RegistryRuns.OneReport` | crates/postgres-mcp-core/src/worker.rs:816-862 | However many callers ask for shutdown, and whenever they return, they all return the same report |
| `RegistryRuns.ReportCoversHandles` | crates/postgres-mcp-core/src/worker.rs:864-959 | The report is strictly sorted; its rows are exactly one for each handle registered at the Stopping step and one for each reservation still pending when its deadline check fired |
| `RegistryRuns.VerifiedReportIsSound` | crates/postgres-mcp-core/src/worker.rs:1353-1399 | If every row is verified, every handle registered at the Stopping step has a joined, finished worker that had closed or completed its shutdown rollback to Idle where one was needed, and every reservation was released |
| `RegistryRuns.VerifiedReportSpeaksOf` | crates/postgres-mcp-core/src/worker.rs:1936-1947 | Exactly which workers a verified report speaks of: a worker has ended cleanly and been joined if and only if its handle was registered at the Stopping step, and every other worker is that of an open that is over |
| `RegistryEndings.VerifiedReportMeans` | crates/postgres-mcp-core/src/worker.rs:816-959 | If a report is all verified, then for each handle registered at the Stopping step there was, earlier in the run, either a served close that succeeded or a halt of its backend with no transaction open, or one that was rolled back and left the connection idle; its thread has finished and been joined, and no reservation is left |
| `RegistryEndings.VerifiedRowMeans` | crates/postgres-mcp-core/src/worker.rs:1843-1856 | The same of every single verified row, whatever the other rows say |
| `RegistryEndings.RollbackRowMeans` | crates/postgres-mcp-core/src/worker.rs:1843-1856 | A row that is uncertain about a rollback comes from a halt in the run that found a transaction open and did not roll it back to idle |
| `RegistryEndings.ShutDownHistory` | crates/postgres-mcp-core/src/worker.rs:1843-1856 | A worker has ended with a transaction left open if and only if such a halt is among the steps of the run |
| `RegistryEndings.ReceivedRowMeans` | crates/postgres-mcp-core/src/worker.rs:916-926 | When the owner receives the answer of a finished worker, the row is verified if and only if no halt of that worker in the run left a transaction open, and otherwise names the rollback |
| `RegistryThreads.EveryRequestCanEnd` | crates/postgres-mcp-core/src/worker.rs:1066-1148 | In every state of every run, at most four steps of the handle's own worker for each message in its queue and five for the one it is at lead to a state in which every admitted request has been answered or was dropped with the queue |
| `RegistryThreads.WorkerNeverStuck` | crates/postgres-mcp-core/src/worker.rs:1066-1148 | A worker that has something to do can go on, and every behaviour of its backend is one of its next steps |
| `RegistryThreads.OpenNeverStuck` | crates/postgres-mcp-core/src/worker.rs:521-651 | An open can go on in every way its connection attempt can end |
| `RegistryThreads.RequestIsTaken` | crates/postgres-mcp-core/src/worker.rs:762-811 | A request to an open handle below its limit is queued last in its worker's channel, whatever it asks for |
| `RegistryThreads.GivenUpIsRecorded` | crates/postgres-mcp-core/src/worker.rs:864-926 | The stage an uncertain row names is where the owner gave up |
| `RegistryThreads.AnswerIsRecorded` | crates/postgres-mcp-core/src/worker.rs:916-926 | An answer is recorded as it is if the worker is joined or finished, and as a failed join if not |
| `RegistryThreads.StopIsSent` | crates/postgres-mcp-core/src/worker.rs:891-910 | The shutdown request goes to the end of the queue of a worker whose thread still runs, and asks for an answer |
| `RegistryThreads.OwnerGoesOn` | crates/postgres-mcp-core/src/worker.rs:864-926 | Before its deadline the owner goes on as soon as what it waits for is there: a finished thread, room in the queue, an answer |
| `RegistryThreads.ShutdownCanBeCalled` | crates/postgres-mcp-core/src/worker.rs:816-862 | Anybody may ask for shutdown at any time |
| `RegistryCounterexamples.VerifiedReportMissesRefusedWorker` | crates/postgres-mcp-core/src/worker.rs:610-642 | A concrete run in which the report is verified while the worker of an open refused by shutdown is still running |
| `RegistryCounterexamples.NameGivenTwice` | crates/postgres-mcp-core/src/worker.rs:359-363 | A run, one open at a time, whose last two opens get the same handle name |
| `RegistryVerdicts.VerifiedExactly` | crates/postgres-mcp-core/src/worker.rs:864-959 | The report is verified if and only if, up to its return, the owner never gave up on a handle or a reservation and every answer it received was verified and came from a thread that had finished by then |
| `RegistryVerdicts.StepSpoils` | crates/postgres-mcp-core/src/worker.rs:864-946 | Whether one step, of whatever thread, makes the report uncertain is decided by what the owner finds at that step alone |
| `RegistryVerdicts.CleanShutdownReportedUncertain` | crates/postgres-mcp-core/src/worker.rs:1132-1145 | A concrete run in which the only worker shuts down cleanly and answers so, the owner never gives up, and the report is uncertain, because the thread had not ended when the owner looked |
| `RegistryProgress.OwnerNeverStuck` | crates/postgres-mcp-core/src/worker.rs:864-946 | Wherever the owner stands, and whatever workers and opens are doing, it can go on once its deadline has passed |
| `RegistryProgress.OwnerStepsBounded` | crates/postgres-mcp-core/src/worker.rs:864-959 | In every run, however the threads interleave, the owner takes at most three steps for each handle, one for each reservation and one to freeze the report |
| `RegistryProgress.EveryCallerCanReturn` | crates/postgres-mcp-core/src/worker.rs:816-862 | In every state of every run each shutdown caller can still return with its report, by the owner's bounded steps and one look of its own, whether or not any other thread moves again |
| `RegistryHandles.SnapshotIsReplay` | crates/postgres-mcp-core/src/worker.rs:1073-1131 | In every interleaving the published snapshot of a handle that was not shut down is what its own requests, in the order served, make of a freshly opened handle |
| `RegistryHandles.BookkeepingInRegistry` | crates/postgres-mcp-core/src/worker.rs:1098-1115 | In every interleaving the observed and dirty bits of each handle are the fold over what its clients were told |
| `RegistryHandles.UnknownOutcomeNeedsSchema` | crates/postgres-mcp-core/src/worker.rs:1100-1115 | In every interleaving of all handles, opens and shutdown, between an unknown outcome on a handle and the next open_read, open_write or query on it that reaches its backend a get_schema on it has succeeded |
| `RegistrySafety.ExecuteKeeps` | crates/postgres-mcp-core/src/worker.rs:1073-1131 | Serving one request and publishing its result keeps the invariant; the handle is published as closed exactly when a close succeeded |
| `RegistrySafety.RefusedKeeps` | crates/postgres-mcp-core/src/worker.rs:610-642 | An open that finds the registry stopping registers nothing and keeps the invariant |
| `RegistrySafety.OwnerReceivesKeeps` | crates/postgres-mcp-core/src/worker.rs:916-926 | A worker's shutdown answer is recorded as verified only together with a join of its finished thread |
| `RegistrySafety.ReportIsOk` | crates/postgres-mcp-core/src/worker.rs:947-948 | The rows the owner froze, sorted, cover every handle and every late reservation with distinct handles, and verified rows are backed by joined workers |
| `RegistrySafety.AdmittedSendSucceeds` | crates/postgres-mcp-core/src/worker.rs:779-811 | While running, an open handle below its limit always has room in its channel |
| `Registry.Core.ReserveOpen` | crates/postgres-mcp-core/src/worker.rs:458-519 | An open is granted if and only if the registry runs and the number of the profile's handles plus that of its pending opens is below what the profile allows; then the reservation is made at the old counter and nothing else changes. Each refusal has its code and its condition, in terms of the state alone |
| `Registry.Core.EndOpen` | crates/postgres-mcp-core/src/worker.rs:648-651 | Abandoning an open removes exactly its reservation |
| `Registry.Core.PublishHandle` | crates/postgres-mcp-core/src/worker.rs:610-642 | Publication moves the id from pending to registered if and only if the registry runs, and refuses with SERVER_STOPPING, changing nothing, otherwise |
| `Registry.Core.DispatchRequest` | crates/postgres-mcp-core/src/worker.rs:762-811 | A request is admitted, and counted, if and only if the registry runs, the handle is open and below its limit and its channel has room; each refusal has its code and its condition, and changes nothing |
| `Registry.Core.ReleaseAdmission` | crates/postgres-mcp-core/src/worker.rs:1045-1052 | Dropping the guard gives back one admission of its handle |
| `Registry.Core.StartShutdown` | crates/postgres-mcp-core/src/worker.rs:817-844 | Exactly the caller that finds the registry running and no report becomes owner; it gets all handles and all reservations of that moment in increasing order, and every pending open is cancelled; later callers get the frozen report or wait |
| `Registry.SortedKeys` | crates/postgres-mcp-core/src/worker.rs:828-836 | The keys of a map in order, all of them and nothing else |
| `Registry.Core.JoinWorker` | crates/postgres-mcp-core/src/worker.rs:1379-1399 | A worker counts as joined if and only if its handle is unknown, it was joined before or its thread has finished, and only its own mark changes |
| `Registry.Core.FreezeReport` | crates/postgres-mcp-core/src/worker.rs:947-958 | The first report is kept, in increasing order of handles and with exactly the rows collected, the lifecycle becomes Stopped, and what is returned is what is kept |
| `Registry.SortedStrictly` | crates/postgres-mcp-core/src/worker.rs:947 | Sorting rows with distinct handles gives strictly increasing handles |
| `Registry.SortedRows` | crates/postgres-mcp-core/src/worker.rs:947 | Sorting rows arranges and permutes them |
| `HandleId.NamesInAllocationOrder` | crates/postgres-mcp-core/src/worker.rs:359-363 | The byte order of `h-` and sixteen hexadecimal digits is the numeric order of the counters, and equal names mean equal counters, so lists and reports sorted by name are in allocation order |
| `HandleId.NameTellsCounter` | crates/postgres-mcp-core/src/worker.rs:359-363 | A name is `h-` and sixteen lower-case hexadecimal digits that, read as a number, are the counter |
| `ByteOrder.LessIsLexicographic` | crates/postgres-mcp-core/src/protocol.rs:1262-1273 | Byte order is: a proper prefix, or a smaller byte at the first place where the texts differ |
| `HandleRuns.AdmittedAndRecommended` | crates/postgres-mcp-core/src/protocol.rs:239-286 | Guidance leaves nothing out: on a handle that is not busy, what the worker would admit is recommended except an idle rollback and a close while active, and what is recommended is admitted except a query without an observation |
| `HandleRuns.RefusalMeans` | crates/postgres-mcp-core/src/worker.rs:973-1038 | Supporting, a table of one function: for each error code the exact states and operations it refuses: the code tells the state, and the other way round |
| `HandleRuns.CommitOracle` | crates/postgres-mcp-core/src/worker.rs:1745-1786 | Supporting, a table of one function: a commit succeeds if and only if the COMMIT tag came back and the connection is idle; otherwise it is COMMIT_OUTCOME_UNKNOWN, never a plain failure |
| `HandleReplies.ReachingExactly` | crates/postgres-mcp-core/src/worker.rs:1165-1226 | A request reaches the backend if and only if its published state admits it and it was neither stopped, cancelled, out of time nor invalid; otherwise it is refused for the first of these reasons, as an unknown outcome only for a query that was cancelled or out of time |
| `HandleReplies.RollbackOracle` | crates/postgres-mcp-core/src/worker.rs:1788-1812 | A rollback succeeds if and only if the connection is idle, in which case no command matters, or the ROLLBACK tag came back and it is idle afterwards; one that was sent and not confirmed is CONNECTION_LOST with an unknown outcome |
| `HandleReplies.OpenOracle` | crates/postgres-mcp-core/src/worker.rs:1591-1622 | open_read and open_write succeed if and only if the BEGIN tag came back; every other answer has its own error |
| `HandleReplies.CommitReplies` | crates/postgres-mcp-core/src/worker.rs:1745-1786 | A commit succeeds if and only if a transaction was open, the COMMIT tag came back and the connection is idle; which error it is otherwise, from any state |
| `HandleReplies.GetSchemaOracle` | crates/postgres-mcp-core/src/worker.rs:1227-1240 | get_schema succeeds if and only if the retrieval did and the schema passes the second check; the reply to every failure |
| `HandleReplies.QueryOracle` | crates/postgres-mcp-core/src/worker.rs:1241-1260 | query succeeds if and only if the statement did and the result passes the second check; the reply to every failure |
| `HandleReplies.CloseOracle` | crates/postgres-mcp-core/src/worker.rs:1815-1838 | close is refused if and only if the connection it still owns has a transaction open |
| `HandleReplies.PublishedAfter` | crates/postgres-mcp-core/src/worker.rs:1098-1124 | What the next request finds after every request: names kept, the last observation unless closed or a commit went unknown, and the observation of the schema lost with an unknown outcome |
| `HandleReplies.SnapshotShows` | crates/postgres-mcp-core/src/worker.rs:299-324 | Every field of the snapshot a client is shown, in terms of what is published |
| `HandleReplies.ShutDownShows` | crates/postgres-mcp-core/src/worker.rs:1401-1414 | However a handle was closed, its snapshot is closed, with nothing known about the connection |
| `HandleReplies.GuidanceFits` | crates/postgres-mcp-core/src/protocol.rs:239-286 | Every recommended tool comes with the guidance text of the situation it is recommended in |
| `HandleRuns.UnlistedTagsAreDdl` | crates/postgres-mcp-core/src/libpq.rs:86-130 | Supporting, a table of one function: a tag counts as direct DDL exactly when it is not empty and its first word is none of 21 row commands: the explicit DDL list adds nothing |
| `HandleRuns.BookkeepingIsFold` | crates/postgres-mcp-core/src/worker.rs:1098-1115 | In every run the observed and dirty bits are a fold over what the client was told |
| `HandleRuns.DirtyMeansDdlPending` | crates/postgres-mcp-core/src/worker.rs:1310-1324 | The dirty bit says exactly that a direct-DDL query succeeded and nothing has cleared it since |
| `HandleRuns.ObservedMeansSchemaSeen` | crates/postgres-mcp-core/src/worker.rs:1227-1351 | The observed bit says exactly that a get_schema succeeded and nothing since has ended the observation |
| `HandleRuns.CommitInvalidatesAfterDdl` | crates/postgres-mcp-core/src/worker.rs:1261-1297 | In every run a successful commit leaves the handle observed exactly when it was and no direct DDL was pending |
| `HandleRuns.UnknownOutcomeNeedsSchema` | crates/postgres-mcp-core/src/worker.rs:1100-1115 | In every run, between an unknown outcome and the next open_read, open_write or query that reaches the backend there is a successful get_schema |
| `HandleRuns.MovesMatchPreconditions` | crates/postgres-mcp-core/src/protocol.rs:239-286 | Exactly which recommended moves the worker would refuse |
| `HandleRuns.CloseRefusalMovesAccepted` | crates/postgres-mcp-core/src/protocol.rs:232-235 | The moves the guidance table keeps for a refused close are commit and rollback, and on a healthy connection they are accepted; no reply of the worker uses them |
| `HandleRuns.RefusedCloseMoves` | crates/postgres-mcp-core/src/worker.rs:1448-1463 | A reply to a refused close carries the general moves; they are the ones DESIGN.md:33 promises exactly unless the connection is ok, not busy and in a transaction, and then a query is recommended too |
| `HandleRuns.RefusedCloseRecommendsQuery` | crates/postgres-mcp-core/src/worker.rs:1161-1163 | A concrete refused close whose reply recommends a query |
| `HandleRuns.RecommendedQueryRefused` | crates/postgres-mcp-core/src/worker.rs:1109-1115 | A concrete cancelled query whose reply recommends a query that the worker would refuse with SCHEMA_REQUIRED |
| `HandleRuns.GuidanceAgreesWithEnforcement` | crates/postgres-mcp-core/src/worker.rs:1448-1463 | The snapshot in a reply is the state the next request is judged against; its moves are accepted except a query whose observation was lost; an open handle neither busy nor active always has an accepted move |
| `Acceptance.AcceptedResultFits` | crates/postgres-mcp-core/src/libpq.rs:1118-1146 | Whatever a stream made the collector retain passes the whole-result check |
| `Acceptance.IncrementalIsWhole` | crates/postgres-mcp-core/src/libpq.rs:1008-1146 | For a well-formed single-command answer the row-by-row check accepts if and only if the finished result fits with its row count and without it |
| `Acceptance.ConservativeByOneByte` | crates/postgres-mcp-core/src/libpq.rs:1091-1137 | The exact condition in bytes: the whole canonical size, plus one byte when the row count has one digit, is within the budget |
| `Acceptance.RefusedThoughItFits` | crates/postgres-mcp-core/src/libpq.rs:1091-1137 | A concrete answer of 62 bytes that the whole-result check accepts under a budget of 62 and the collector refuses |
| `Acceptance.RowsInOrder` | crates/postgres-mcp-core/src/libpq.rs:1008-1090 | The rows of an answer are those of its results, concatenated in arrival order |
| `AnswerContents.AcceptedRowsShow` | crates/postgres-mcp-core/src/libpq.rs:1008-1090 | The rows of an accepted answer are the rows libpq delivered, in order and complete, each null shown as null and each text as itself |
| `AnswerContents.SingleAnswer` | crates/postgres-mcp-core/src/libpq.rs:1008-1116 | The answer to one statement has the headings of its rows with their names and type ids, the tag of its closing message, and its row count if it has one |
| `AnswerContents.LastTagAndCount` | crates/postgres-mcp-core/src/libpq.rs:1091-1116 | Of several closing messages the last one gives the tag, and the last one with a count the count |
| `Collector.ResultCollector.EnsureCandidateFits` | crates/postgres-mcp-core/src/libpq.rs:1118-1137 | The candidate check decides exactly the whole-result condition on what is retained |
| `Collector.ResultCollector.ConsumeRows` | crates/postgres-mcp-core/src/libpq.rs:1008-1090 | A row message is accepted if and only if it can be decoded, its heading agrees and the result with all its rows fits; on refusal nothing beyond what fits is retained, and the error says whether a limit or the decoding is to blame |
| `Collector.ResultCollector.ConsumeCommand` | crates/postgres-mcp-core/src/libpq.rs:1091-1116 | A closing message is accepted if and only if tag and count can be decoded and both the result with the tag and the one with the count fit |
| `Collector.EmptyFits` | crates/postgres-mcp-core/src/libpq.rs:998-1006 | The empty result fits exactly when the budget is at least 62 bytes |
| `Collector.FewerRowsFit` | crates/postgres-mcp-core/src/libpq.rs:1050-1090 | Removing rows from a result that fits leaves one that fits |
| `Collector.FewerColumnsFit` | crates/postgres-mcp-core/src/libpq.rs:1015-1045 | Removing headings from a result without rows that fits leaves one that fits |
| `QueryResult.Validate` | crates/postgres-mcp-core/src/protocol.rs:1042-1069 | The check decides exactly the counts, cell sizes, shape and canonical byte budget, written out field by field |
| `QueryResult.LengthIsCanonical` | crates/postgres-mcp-core/src/protocol.rs:1247-1260 | The canonical encoding is exactly as long as the sum of its fields, separators and frame |
| `ResultDocuments.ResultTextDescribes` | crates/postgres-mcp-core/src/protocol.rs:1012-1073 | The canonical text of a result, read back as JSON, has exactly the four keys and under them the columns, rows, tag and count of the result, in order |
| `ResultDocuments.DescribesOneResult` | crates/postgres-mcp-core/src/protocol.rs:1012-1073 | Such a document describes one result only |
| `ResultLoop.Connection.BackendQuery` | crates/postgres-mcp-core/src/worker.rs:1657-1743 | A query answers Ok only after NULL with every result accepted and exactly their rows, and that answer passes the worker's second validation; every error is the one its statement raised, its kind unchanged, unless a cleanup was due and did not bring the connection back, which answers the control's reason; its outcome is unknown if and only if the error's was or the request is cancelled or out of time; results are left unread exactly when they were on the way and no signal is up afterwards |
| `ResultLoop.Connection.SendQuery` | crates/postgres-mcp-core/src/libpq.rs:614-654 | After the argument checks: an Ok answer is the complete, drained one; every error is identified: the control's reason, the lost connection or the refused statement before sending, the flush's answer, or that of the deciding round; results are left unread exactly when the statement was sent and then its flush failed or was signalled, or reading failed with no cancellation given up before |
| `ResultLoop.Connection.Execute` | crates/postgres-mcp-core/src/libpq.rs:461-469 | BEGIN, COMMIT and ROLLBACK: the same identification of every error, the same condition for unread results, and no cleanup follows |
| `ResultLoop.SignalledFlushLeavesUnread` | crates/postgres-mcp-core/src/libpq.rs:744-752 | Every statement that is signalled while it is being pushed out leaves its results unread on an open connection |
| `ResultLoop.Connection.CollectResults` | crates/postgres-mcp-core/src/libpq.rs:744-833 | At most one cancel is dispatched; the answer is the first error, except that lost input and COPY take its place |
| `ResultLoop.Connection.TakeResults` | crates/postgres-mcp-core/src/libpq.rs:807-832 | Once not busy, every result up to NULL is taken; the answer is Ok exactly when there was no signal and all were accepted, and is their concatenation |
| `ResultLoop.ConsumeResult` | crates/postgres-mcp-core/src/libpq.rs:835-870 | A result raises an error exactly when the collector does not accept it, and for each status, limit and decoding fault which error it is |
| `ResultLoop.Connection.CancelAndDrain` | crates/postgres-mcp-core/src/libpq.rs:510-529 | However it ends, the connection is drained to NULL or disposed, and it succeeds exactly when the cancellation was delivered and NULL was read |
| `ResultLoop.Connection.DispatchCancel` | crates/postgres-mcp-core/src/libpq.rs:531-584 | At most one cancellation is started; every failure disposes the connection and keeps the caller's reason; the script decides which of the four ends it comes to |
| `ResultLoop.Connection.DrainUntilIdle` | crates/postgres-mcp-core/src/libpq.rs:906-932 | It succeeds exactly when the connection is gone or NULL is reached after rounds that all wait; every failure is a lost connection |
| `ResultLoop.Connection.FlushOutput` | crates/postgres-mcp-core/src/libpq.rs:872-904 | The first round that does not just wait decides; success means an open connection with its buffer flushed, and each error has its one kind of cause |
| `ResultLoop.FirstSignalWasRaised` | crates/postgres-mcp-core/src/libpq.rs:756-785 | The reason kept is that of the earliest round with a signal |
| `ResultLoop.CancelRunExactly` | crates/postgres-mcp-core/src/libpq.rs:531-584 | The first poll that does not just drive a cancellation on decides how it ends, and each of the four ends has its condition |
| `ResultLoop.FlushAnswerMeans` | crates/postgres-mcp-core/src/libpq.rs:872-904 | Supporting: what each deciding round of the flush answers, with the control's reasons in their order of precedence |
| `SchemaAssembly.RetrieveInner` | crates/postgres-mcp-core/src/schema.rs:142-267 | Incremental validation accepts exactly the well-formed streams whose complete response is within the unit, cell and byte limits, and returns that response; each error has its reason in a prefix of the rows |
| `SchemaAssembly.RetainRow` | crates/postgres-mcp-core/src/schema.rs:154-178 | One row is retained exactly when it can be placed and the response made so far fits |
| `SchemaAssembly.ExcessRejects` | crates/postgres-mcp-core/src/schema.rs:298-310 | A response that is too large after some rows is too large, or malformed, after all of them |
| `SchemaSession.Retrieve` | crates/postgres-mcp-core/src/schema.rs:105-138 | A schema is returned only from a begun and committed transaction, made of exactly the rows of three complete answers, on a drained connection; every failure is that of the first statement that failed, or of the assembly, and a ROLLBACK follows exactly if a transaction was begun and the connection is still there and drained; results are left unread exactly when the last statement libpq took, the ROLLBACK included, left them |
| `SchemaSession.QueryCatalog` | crates/postgres-mcp-core/src/schema.rs:142-267 | The three queries are run in order until one fails, and an accepted response is made of exactly the rows of three complete answers within the limits |
| `SchemaContents.RetrievedSays` | crates/postgres-mcp-core/src/schema.rs:142-267 | In terms of what the cells of the three answers spell: a retrieval is well formed if and only if every column and constraint is of a listed relation, and the response then holds exactly the listed relations, each with its first kind and all of its columns and constraints |
| `SchemaContents.ArrangedInOrder` | crates/postgres-mcp-core/src/schema.rs:249-254 | Columns are in ordinal order and constraints in byte order of their names, none lost or repeated, and those with equal ordinals or names in the order of their rows |
| `SchemaContents.FitsMeans` | crates/postgres-mcp-core/src/protocol.rs:1160-1195 | The limits in plain terms: schemas, relations, columns and constraints counted together, every text, and the bytes of the canonical JSON |
| `CatalogRows.DecodesExactly` | crates/postgres-mcp-core/src/schema.rs:153-233 | A catalog row is read as an item if and only if its cells spell that item: which cell says what, the flags, the letters of kinds, and numbers in any of their spellings |
| `SchemaResponse.AcceptedPrefixFits` | crates/postgres-mcp-core/src/schema.rs:298-310 | Every prefix of an accepted stream makes an acceptable response |
| `SchemaResponse.AssembledExactly` | crates/postgres-mcp-core/src/schema.rs:153-233 | Assembly succeeds exactly when every row decodes and columns and constraints follow their relation; then each relation has its first kind and all its rows, none lost and none repeated |
| `SchemaResponse.ResponseHolds` | crates/postgres-mcp-core/src/schema.rs:240-259 | The response holds exactly the relations that were introduced, each with its arranged columns and constraints |
| `SchemaResponse.ResponseIsSorted` | crates/postgres-mcp-core/src/schema.rs:240-259 | Schemas, and relations within a schema, strictly increase in byte order |
| `SchemaResponse.ArrangedIsSorted` | crates/postgres-mcp-core/src/schema.rs:249-254 | Columns are permuted into ordinal order and constraints into name order, equal keys keeping their order |
| `SchemaSize.StoreGrows` | crates/postgres-mcp-core/src/schema.rs:273-310 | Adding to a relation makes the response larger in units, in cells and in canonical bytes at once |
| `Catalog.ValidateResult` | crates/postgres-mcp-core/src/protocol.rs:1160-1195 | The running count with its overflow guard decides exactly the three limits |
| `Catalog.ValidateRelation` | crates/postgres-mcp-core/src/protocol.rs:1169-1187 | The count of one relation and its cells, exactly |
| `Catalog.ParsesExactly` | crates/postgres-mcp-core/src/schema.rs:165-167 | A 32-bit number is read from exactly its spellings, an optional plus sign, any zeros and its decimal form, and everything else is refused |
| `SchemaDocuments.ResponseTextDescribes` | crates/postgres-mcp-core/src/protocol.rs:1075-1200 | The canonical text of a schema response, read back as JSON, has exactly its keys at every level and under them the schemas, relations, columns and constraints, in order and field by field |
| `SchemaDocuments.DescribesOneResponse` | crates/postgres-mcp-core/src/protocol.rs:1075-1200 | Such a document describes one response only |
| `Json.CanonicalizeValue` | crates/postgres-mcp-core/src/protocol.rs:1262-1276 | The recursive routine computes the canonical form |
| `Json.CanonicalDependsOnMeaning` | crates/postgres-mcp-core/src/protocol.rs:1242-1276 | Two values have equal canonical forms if and only if they agree up to the order of object members at every depth |
| `Json.CanonicalizeIdempotent` | crates/postgres-mcp-core/src/protocol.rs:1262-1276 | The canonical values are exactly the fixed points; canonicalizing twice changes nothing |
| `Json.CanonicalMembersAre` | crates/postgres-mcp-core/src/protocol.rs:1262-1273 | Keys strictly increase in byte order and every key keeps its own canonical value |
| `Json.CanonicalItemsAre` | crates/postgres-mcp-core/src/protocol.rs:1273 | Arrays keep their order and length |
| `JsonText.LengthKeptByCanonical` | crates/postgres-mcp-core/src/protocol.rs:1258-1260 | Sorting keys at every depth does not change the length of the text |
| `JsonText.EscapeIsInjective` | crates/postgres-mcp-core/src/protocol.rs:1244-1247 | String escaping (section 7 of RFC 8259) loses nothing |
| `JsonReading.ValueRead` | crates/postgres-mcp-core/src/protocol.rs:1240-1250 | A reader written from RFC 8259 reads every printed value back, whatever follows it in the text |
| `JsonReading.NoShorterString` | crates/postgres-mcp-core/src/protocol.rs:1244-1247 | No text that the reader reads as a string is shorter than the one that is printed for it |
| `JsonUnique.PrintIsInjective` | crates/postgres-mcp-core/src/protocol.rs:1240-1250 | Different values have different texts |
| `JsonUnique.ValuesSplit` | crates/postgres-mcp-core/src/protocol.rs:1240-1250 | Where a value ends inside a text, and which value it is, is decided by the text: no printed value is continued by another |
| `JsonUnique.CanonicalTextIsMeaning` | crates/postgres-mcp-core/src/protocol.rs:1240-1276 | Canonical texts are equal if and only if the values agree up to the order of object members at every depth |
| `EnvelopeRoundTrip.EnvelopeRoundTrip` | crates/postgres-mcp-core/src/protocol.rs:725-833 | For every valid envelope, decoding its encoding returns it if and only if its result is not JSON null; a null result is refused |
| `EnvelopeRoundTrip.NullResultRefused` | crates/postgres-mcp-core/src/protocol.rs:797-799 | A concrete valid envelope with a null result, whose encoding is refused |
| `EnvelopeRoundTrip.DecodedIsValid` | crates/postgres-mcp-core/src/protocol.rs:765-833 | Every accepted document decodes to a valid envelope with exactly one, non-null outcome, whose encoding decodes to it again |
| `EnvelopeRoundTrip.DecodableExactly` | crates/postgres-mcp-core/src/protocol.rs:765-833 | The envelopes the decoder can produce are exactly the valid ones without a null result |
| `EnvelopeDocuments.DecodesExactly` | crates/postgres-mcp-core/src/protocol.rs:765-833 | A document decodes to an envelope if and only if the envelope is valid and the document describes it key by key: which keys may stand, which may be missing or null, and in which forms structures and variants may be written |
| `EnvelopeDocuments.EncodedDescribes` | crates/postgres-mcp-core/src/protocol.rs:725-764 | What is written for an envelope describes it |
| `EnvelopeRoundTrip.PayloadRoundTrip` | crates/postgres-mcp-core/src/protocol.rs:626-682 | Error payloads survive the round trip |
| `EnvelopeRoundTrip.StateRoundTrip` | crates/postgres-mcp-core/src/protocol.rs:96-107 | Every handle snapshot survives the round trip, consistent or not |
| `EnvelopeRoundTrip.MovesRoundTrip` | crates/postgres-mcp-core/src/protocol.rs:174-180 | Lists of moves survive the round trip in order |
| `EnvelopeRoundTrip.StateEnvelopeValid` | crates/postgres-mcp-core/src/protocol.rs:300-304 | A success envelope for a handle can be sent exactly when its snapshot is consistent; its rendered moves are always valid |
| `EnvelopeDocuments.StateEnvelopeSays` | crates/postgres-mcp-core/src/protocol.rs:300-304 | A success for a handle carries its snapshot, the result, and for each recommended tool a move with its name, the handle as only argument and its guidance |
| `Wire.CodeRoundTrip` | crates/postgres-mcp-core/src/protocol.rs:335-446 | The 24 codes and their names correspond one to one and no other name is a code |
| `ProxyRuns.PausedAreWaiting` | crates/postgres-mcp/tests/support/proxy.rs:748-779 | In every run `paused_workers` is exactly the number of workers waiting at the barrier, `active_workers` the number not retired, and the first never exceeds the second |
| `ProxyPause.PauseHoldsUntilResume` | crates/postgres-mcp/tests/support/proxy.rs:265-288 | From the successful return of a pause, the proxy not stopping, until its direction is resumed no byte of it is read or delivered, on present and later connections, provided nobody resumed it since the call |
| `ProxyPause.PauseMeansBarred` | crates/postgres-mcp/tests/support/proxy.rs:265-288 | The barrier holds after a pause has returned Ok if and only if, not stopping, the direction is still armed, or, stopping, no worker is in the middle of a transfer |
| `ProxyPause.PauseReturnsHeld` | crates/postgres-mcp/tests/support/proxy.rs:231-236 | When a pause returns, the state is held exactly when the flag is armed and every live worker waits; not stopping, every live worker does |
| `ProxyPause.PauseReturnsEarlyWhileStopping` | crates/postgres-mcp/tests/support/proxy.rs:231-236 | A concrete run in which a pause returns Ok while stopping and a worker then reads |
| `ProxyPause.OverlappingResumeDefeatsPause` | crates/postgres-mcp/tests/support/proxy.rs:290-297 | A concrete run, not stopping, in which a resume between a pause's call and its Ok return lets the next connection's bytes through |
| `ProxyDrop.DropMeansDropped` | crates/postgres-mcp/tests/support/proxy.rs:316-349 | When drop_connections returns Ok, every connection has been removed exactly once, no worker is live and none was admitted since the call, if and only if every connection that came in since was refused |
| `ProxyDrop.DropAloneIsDropped` | crates/postgres-mcp/tests/support/proxy.rs:316-349 | That is so whenever no other drop released the flag in between |
| `ProxyDrop.NoneAdmittedWhileDropping` | crates/postgres-mcp/tests/support/proxy.rs:174-184 | From a drop's setting of the flag until some drop's release no connection is admitted |
| `ProxyDrop.OverlappingDropLetsConnectionIn` | crates/postgres-mcp/tests/support/proxy.rs:334-338 | A concrete run of two drops in which one's release admits a connection and the other then returns Ok while it is live |
| `ProxyStopping.StoppedWorkersLeave` | crates/postgres-mcp/tests/support/proxy.rs:703-804 | In every run, as long as stopping or dropping stays set, a worker takes at most five more steps and at most one of them is a socket call |
| `ProxyStopping.StopEndsForwarding` | crates/postgres-mcp/tests/support/proxy.rs:211-221 | Stopping is for good: after it that is all any worker does |
| `ProxyStopping.WorkerNeverStuck` | crates/postgres-mcp/tests/support/proxy.rs:703-804 | A worker that is not gone can go on whatever its sockets do |
| `ProxyStopping.CallerNeverStuck` | crates/postgres-mcp/tests/support/proxy.rs:231-349 | A waiting controller can return: its condition holds or its deadline may pass, never both and never neither |
| `ProxyBarrier.EveryReadPassesBarrier` | crates/postgres-mcp/tests/support/proxy.rs:703-746 | In every run each look at the source comes after a passage of the barrier of its own, at which the direction was not paused and nothing was stopping or being dropped, with no socket call in between |
| `ProxyBarrier.ResumeMeansReleased` | crates/postgres-mcp/tests/support/proxy.rs:290-312 | A resume returns Ok exactly if its deadline has not passed and the proxy is not stopping, and then no worker of the direction waits at the barrier any more |
| `ProxyRuns.RemovedOnce` | crates/postgres-mcp/tests/support/proxy.rs:186-202 | In every run the map holds exactly the connections not yet removed, none removed twice |
| `ProxyRuns.Transparent` | crates/postgres-mcp/tests/support/proxy.rs:703-804 | In every run the bytes delivered are a prefix of the bytes received, and all of them when the source ended |
| `ProxySafety.StepKeeps` | crates/postgres-mcp/tests/support/proxy.rs:143-349 | Every step of every thread keeps the counts, the workers and the connection map in agreement |
| `ProxySafety.RetireKeeps` | crates/postgres-mcp/tests/support/proxy.rs:186-202 | Retiring decrements one count, without saturating, and the one last worker removes the connection |
| `Proxy.Shared.constructor` | crates/postgres-mcp/tests/support/proxy.rs:107-121 | A new proxy has empty counts and no flags |
| `Proxy.Shared.BarrierRound` | crates/postgres-mcp/tests/support/proxy.rs:748-779 | One round at the barrier: it quits, waits or proceeds as the flags say, the worker is marked as waiting exactly when it waits, and only its direction's count moves, by its own change of mark |
| `Proxy.Shared.AddConnection` | crates/postgres-mcp/tests/support/proxy.rs:167-184 | An id is always consumed; two workers are counted and the connection stored exactly when neither stopping nor dropping |
| `Proxy.Shared.WorkerFinished` | crates/postgres-mcp/tests/support/proxy.rs:186-202 | The locked part: one worker fewer, and the connection gone if it was the last |
| `Proxy.Shared.ArmPause` | crates/postgres-mcp/tests/support/proxy.rs:265-276 | Arming sets the direction's flag unless the proxy is stopping |
| `Proxy.Shared.BeginShutdown` | crates/postgres-mcp/tests/support/proxy.rs:211-221 | Both flags are set and nothing else changes |
| `Proxy.WriteAll` | crates/postgres-mcp/tests/support/proxy.rs:781-804 | The write loop delivers a prefix, all of it exactly when it succeeds; it succeeds if and only if the socket takes all bytes in rounds none of which gives up, and fails if and only if a round gives up before that, having delivered what was taken |
| `Changelog.ExtractNotes` | crates/xtask/src/main.rs:130-191 | The scanner with its loops computes the section extraction function, errors included |
| `Changelog.ScanLines` | crates/xtask/src/main.rs:135-160 | The fence and heading scan, first error first |
| `Changelog.MatchHeadings` | crates/xtask/src/main.rs:161-174 | The heading check, first error first |
| `ChangelogRendering.ExtractInvertsRender` | crates/xtask/src/main.rs:130-191 | For every well-formed document extraction returns the trimmed body it was rendered from and a line feed when exactly one release has the version and its body is not blank, and refuses otherwise |
| `ChangelogRendering.DistinctVersions` | crates/xtask/src/main.rs:175-179 | With distinct versions every release finds its own body |
| `ChangelogRendering.HeadingNamesExactly` | crates/xtask/src/main.rs:165-172 | A rendered heading names its version if and only if the version does not contain the separator |
| `ChangelogLines.HeadingSays` | crates/xtask/src/main.rs:165-172 | In any release heading what stands before the first separator is the version, and what stands after it has to be a date |
| `ChangelogLines.HeadingRefused` | crates/xtask/src/main.rs:161-167 | A heading is malformed exactly when it is not the unreleased one and has no opening bracket or no separator |
| `ChangelogRendering.DateIsExactly` | crates/xtask/src/main.rs:120-129 | A date is accepted exactly when it is four, two and two digits with hyphens, month 1 to 12 and day 1 to 31 |
| `ChangelogSections.ScanAcceptsSections` | crates/xtask/src/main.rs:135-160 | The scan accepts exactly the texts that are an introduction followed by headed sections with balanced fences and no level-two heading outside them |
| `ChangelogSections.ScanThrough` | crates/xtask/src/main.rs:137-156 | Headings inside fences, and other quiet lines, never start a section |
| `ChangelogLines.ScanFails` | crates/xtask/src/main.rs:137-160 | The scan fails for a malformed heading exactly when one is met outside the fences, and for an unterminated fence exactly when the fold of the lines ends inside one |
| `ChangelogLines.OpensExactly` | crates/xtask/src/main.rs:145-152 | A line opens a fence exactly if it begins, after white space, with three or more backticks or tildes, and the fence is as wide as there are |
| `ChangelogLines.ClosesExactly` | crates/xtask/src/main.rs:140-144 | A line closes a fence exactly if it begins, after white space, with at least as many of its marks and has only white space after them |
| `ChangelogLines.HeadingExactly` | crates/xtask/src/main.rs:153-157 | Which lines are level-two headings and which are malformed ones, by their first three characters |
| `ChangelogLines.NotesAre` | crates/xtask/src/main.rs:186-190 | The notes are the body without the white space around it and one line feed; a body of white space has none |
| `ChangelogSections.ExtractChooses` | crates/xtask/src/main.rs:130-191 | Extraction from a text of sections is the choice of a section |
| `Strings.LinesOfUnlines` | crates/xtask/src/main.rs:131 | Splitting into lines undoes joining them |
| `Strings.LinesOfText` | crates/xtask/src/main.rs:131 | Splitting finds the lines whichever ending, a line feed with or without a carriage return, each of them has, and a last line without one |
| `Strings.TrimIsExact` | crates/xtask/src/main.rs:186-190 | Trimming removes white space only, and all of it at both ends |
| `Limits.ProfileConfigIsEffective` | crates/postgres-mcp-core/src/config.rs:335-344 | A profile's configuration is accepted exactly when every setting in force is in range; in force is profile over top level over defaults over constants |
| `Limits.FileAcceptedExactly` | crates/postgres-mcp-core/src/config.rs:306-314 | Loading a file checks its base only: profile overrides are masked |
| `Limits.UsableProfiles` | crates/postgres-mcp-core/src/config.rs:335-344 | In an accepted file a profile can be used exactly when its own settings are in range |
| `Limits.AcceptedFileWithUnusableProfile` | crates/postgres-mcp-core/src/config.rs:306-314 | A concrete file that loads with a profile that cannot be used |
| `Limits.LayersAgree` | crates/postgres-mcp-core/src/libpq.rs:594-613 | Under a profile's configuration the adapter's pre-send checks accept exactly what the request check accepts, apart from blank statements, which only the request check refuses |
| `Limits.ValidateRequest` | crates/postgres-mcp-core/src/protocol.rs:910-935 | The request check decides exactly the statement, count, NUL and checked byte-total conditions, and reports the first that fails |
| `Limits.ValidateForSending` | crates/postgres-mcp-core/src/libpq.rs:1191-1213 | The adapter's checks decide exactly their conditions, with an overflow-checked total and a C int count |
| `Limits.NulIsZeroByte` | crates/postgres-mcp-core/src/protocol.rs:855-864 | A NUL character is a zero byte and the other way round, so the two layers look for the same thing |
| `Limits.ProfileLimitsSuffice` | crates/postgres-mcp-core/src/config.rs:234-277 | Every usable profile meets what the collector, the schema check and the queues rely on |
| `Limits.RangesAre` | crates/postgres-mcp-core/src/config.rs:234-277 | The range of each of the thirteen settings, in figures |
| `Limits.Utf8Exactly` | crates/postgres-mcp-core/src/protocol.rs:855-864 | The bytes of a character are exactly those that section 3 of RFC 3629 lets stand for it |

## Left out

- FFI, sockets, `poll`, TLS and DSN parsing: libpq appears only as the scripts and observations the loops are given.
- How long anything takes: deadlines are inputs that say expired or not, and waiting loops may end with their script.
- SQL semantics and the text of the catalog queries: only command tags, row shapes and cells matter.
- The lock that the shutdown owner releases between seeing a reservation pending and looking at the clock (crates/postgres-mcp-core/src/worker.rs:928-946): `OwnerOpenExpired` is one step, so that a reservation which ends in between and still gets its row is not distinguished.
- DSN commands, process groups and reading configuration files from disk.
- tools.rs, lib.rs and main.rs of the server: tool adapters, signal handling and exit codes.
- Release publishing, downloads, archives, checksums and workflow checks of the release tool: external processes, or simple scans.
- tokio, channel and mutex internals, lock poisoning and thread panics: a locked block is one step and a channel a bounded queue.
- `Core::new` with a single configuration: the profile form is modelled, of which it is the case of one profile.
- Publications inside one request that `list_handles` could see before the request ends: a request's publication is one step.
- The first lookup of `dispatch` before it validates a query: both lookups are one atomic decision.
- The branch of `LibpqBackend::close` that reports cleanup as unverified: the model's close always disposes.
- Negative and fractional JSON numbers: the protocol writes none, and documents that contain them are not modelled.
- Messages of decoding and validation errors: a refused document is just refused.
- Configuration tables are maps from setting to value rather than structures of thirteen fields, which the source's macros treat alike.
- The wrap-around of the proxy's connection ids after 2^64 accepted connections.
- The proxy's accept loop before it takes the lock, its `shutdown` wait and `wait_for_connection`: admission itself and the two flags are modelled.
- `QueryRequest` deserialization and tool argument schemas: easy beside the envelope.
