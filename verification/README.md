# GoHTTPX: models and proofs

GoHTTPX is an HTTPX-style Python SDK that drives a supervised local Go process. This project models
its five linked cores in Dafny and proves what their documentation and tests promise of them:

- **Managed requests** (`ManagedCall`, `ManagedPool`): one call, seen from the client, the Go handler
  and the two-attempt loop, with a count of target executions; and the pool of built transports that
  all calls share, over every interleaving of its lock sections.
- **Sessions** (`SyncSession`, `AsyncSession`): the generation-tagged rebuild of the sync transport,
  and the create task that cancellable async requests share.
- **Supervisor** (`Supervisor`, `FailureLimiter`): launch, health, backoff and shutdown of the Go
  process, over a real clock that never runs backwards, with the sliding-window failure limiter.
- **ClientHello importer** (`Bytes`, `TlsNames`, `TlsDecl`, `HelloImport`, `HelloCodec`, `TlsRegistry`,
  `WireMeaning`, `RecordLayer`, `ImporterTheorems`, `SecondParser`, `GoSpec`, `ImporterToGo`,
  `Acceptance`): the binary parser, an encoder for the same messages, the round trip in both
  directions, the meaning of a declaration in the numbers of the TLS registries, the agreement with a
  second parser, the Go side that resolves the names again, and exactly which messages it accepts.
  Formats are those of sections 4.1.2, 4.2 and 5.1 of RFC 8446, section 2 of RFC 8701 and section 7.3
  of RFC 8879.
- **Go server** (`Registry`, `JsonNull`, `Headers`): the session registry under its two kinds of lock,
  the one-pass null scanner against the JSON tree (sections 2 to 7 of RFC 8259), and the header
  regrouping loop with the Latin-1 codec.

The concurrent cores have one shape. What a lock protects is a datatype, every lock section is a
function on it, and a machine interleaves the sections of any number of threads with the
surroundings (replies, exits, cancellations, the clock). The invariant is proved for every step and,
by induction, for every run. There, the theorems whose names end in `Iff` or `Ends` say what a step of
a run does from the state, the events and the earlier steps alone, without naming the functions that
compute it. The classes in the same files have the fields and methods of the source; each method is
proved equal to the lock section of the old state, so that what is proved about the sections holds of
the methods, and also states its new fields in its own words. `Registry.Server` is the exception: its
methods work on a map of session objects and have contracts of their own; with the machine they share
the counter functions and the idle test, and no theorem links the rest. Both sides say in terms of the
fields what idle means.

## What the proofs found

Places where the code does less than one might expect. The code is modelled as it is; each has a
lemma with the exact condition or a concrete run.

- In external mode `GoServiceUnavailable` can follow an executed request, exactly when a reply was
  lost (`ManagedCall.ExternalAtMostOnce`, `ManagedCall.LostReplyIsReportedUnavailable`).
- A lost session is rebuilt if and only if no rebuild of the transport has ever failed in the ordinary
  way; after one such failure every request that comes to the rebuild gets the stored error. This
  holds of both transports (`RebuildTurn`, `FailureIsStored` and `FailureIsFinal` in `SyncSession` and
  `AsyncSession`; a run with one request is `OneFailureIsEnough`).
- An interrupted rebuild may be attempted again in the same generation, once for every interrupt
  (`SyncSession.SessionSafety`, `SyncSession.InterruptAllowsSecondAttempt`).
- DELETE and Close, unlike the idle reaper, can take a session away from a running request: exactly if
  its counter is above zero at that moment (`Registry.TakenOutUnheld`,
  `Registry.DeleteClosesUnderRequest`).
- `close_connection` removes the caller's connection header only in the spelling "Connection"
  (`Headers.ConnectionDropped`, `Headers.LowerCaseConnectionStays`).

Two results are about the machines, which allow more runs than asyncio makes, and are no faults of the
code under its scheduler:

- A request that leaves the shared create task only after something was rebuilt sends the first
  session's id with the current generation, and exactly then (`AsyncSession.JoinedPair`,
  `AsyncSession.PairOfRequest`, `AsyncSession.JoinedPairCanBeStale`); it can replace a session that was
  never refused and is never deleted (`AsyncSession.SessionLostToLateJoin`). asyncio wakes a waiter
  within two turns of its loop after the task ends, so another request's whole POST and rebuild would
  have to run without suspending once; a control transport over a network suspends. The sync
  transport has no such runs (`SyncSession.ReplacedWasRefused`).
- A cancellation at the free session lock leaks a waiter and can pin a failed first attempt
  (`AsyncSession.UnsuspendedCancelLeaks`). asyncio does not suspend a request there, and
  `AsyncSession.NoLeakBeforeSession` shows that cancelling only suspended requests never leads to it.

## Model

| member | source | states |
|---|---|---|
| ManagedCall.PostCounts | python/gohttpx.py:828-871 | one POST submits at most once; in managed mode GoServiceUnavailable and service errors mean that the target executed nothing, whatever became of the connection, the reply or its envelope |
| ManagedCall.PostEnds | python/gohttpx.py:828-871 | one POST from its events: its outcome, whether it was submitted and how often it was executed; CLIENT_NOT_FOUND exactly if the Go process had lost the session and its answer came through, and in managed mode GoServiceUnavailable exactly without budget or connection |
| ManagedCall.NotFoundIsNoUpstream | api.go:609-621 | CLIENT_NOT_FOUND and the other codes given before the send are no upstream codes |
| ManagedCall.ManagedHandleRequest | python/gohttpx.py:1462-1500 | for every choice of the surroundings in both attempts: the outcome, the envelopes and the executions of the call, from the events alone; a second attempt is made exactly if the first had no budget or no connection, could not build its transport for such a reason, or was told that the session is lost, and every other end of the first is final; so at most two envelopes and one execution (plus configured Go-side retries), and none if the call ends in GoServiceUnavailable, a service error, a refused encoding or a configuration error |
| ManagedCall.ExternalAtMostOnce | python/gohttpx.py:927-952 | the external transport also executes at most once; its GoServiceUnavailable means "not executed" if and only if no executed request lost its reply |
| ManagedCall.ExternalEnds | python/gohttpx.py:934-952 | an external call from its events: sent again exactly if the Go process had lost the session and the rebuild succeeded, with the outcome of the last POST or of the rebuild |
| ManagedCall.LostReplyIsReportedUnavailable | python/gohttpx.py:853-856 | the concrete input for which it does not |
| ManagedPool.StepKeeps | python/gohttpx.py:1387-1437 | every step of every thread keeps the invariant: users counts holders, unused mapped entries were built, every retired entry waits in exactly one list |
| ManagedPool.RunInv | python/gohttpx.py:1387-1523 | so it holds in every reachable state |
| ManagedPool.PoolSafety | python/gohttpx.py:1387-1523 | in every run each built transport is closed at most once and never while somebody holds it, all are closed when `close` is through, and every finished call kept the retry rule |
| ManagedPool.ClosedUnused | python/gohttpx.py:1452-1460 | the step that closes a transport closes one that nobody holds |
| ManagedPool.AttemptEnds | python/gohttpx.py:1468-1494 | in every run a request that has been made takes its thread to a second attempt exactly if it was the first one and ended in a way that allows it, and otherwise to the end of the call with its outcome and counts |
| ManagedPool.LostSessionUnmaps | python/gohttpx.py:1487-1494 | the release after a request takes the entry out of the dictionary if and only if the first attempt learned that the Go process had lost the session; nothing else changes but one user less, and the thread goes on to close the entry exactly if it was the last user and the entry is unmapped |
| ManagedPool.FailedBuildEnds | python/gohttpx.py:1395-1408 | a transport that could not be built is unmapped, and the call makes its second attempt exactly if the first ended in GoServiceUnavailable or CLIENT_NOT_FOUND |
| ManagedPool.ManagedState.Begin | python/gohttpx.py:1426-1432 | refused exactly when closing or closed, else one more active call |
| ManagedPool.ManagedState.Checkout | python/gohttpx.py:1387-1394 | the entry of the instance with one more user, new and mapped exactly if there was none |
| ManagedPool.ManagedState.CheckoutFailed | python/gohttpx.py:1403-1408 | the user leaves and the entry, if it is still the mapped one, is unmapped; no other entry changes |
| ManagedPool.ManagedState.ReleaseEntry | python/gohttpx.py:1410-1417 | the caller must close exactly if it was the last user of an unmapped entry |
| ManagedPool.ManagedState.Prune | python/gohttpx.py:1419-1424 | takes out exactly the unused entries of other instances and returns each once |
| ManagedPool.ManagedState.Collect | python/gohttpx.py:1421 | the list of exactly those entries |
| ManagedPool.ManagedState.EnterClose | python/gohttpx.py:1503-1510 | one caller closes |
| ManagedPool.ManagedState.Sweep | python/gohttpx.py:1511-1514 | empties the map and returns every mapped entry once |
| SyncSession.StepKeeps | python/gohttpx.py:927-994 | every step keeps the invariant of generations, snapshots, the one creator and the closer |
| SyncSession.SessionSafety | python/gohttpx.py:927-1113 | in every run: one creation per generation beyond those interrupted, exactly so for ended generations, never two at a time, snapshots are pairs published together, a resubmission names a strictly later generation, a closed transport deleted its last session, unless it is a managed one that the pool had made forget it, and whoever returns from `close` finds it closed |
| SyncSession.RebuildNamesItsSession | python/gohttpx.py:934-952 | a rebuild of a generation is entered only by a request whose POST named the session published for it, and creates only while that generation is current |
| SyncSession.CameFromRefusal | python/gohttpx.py:943-946 | that POST was refused with CLIENT_NOT_FOUND |
| SyncSession.ReplacedWasRefused | python/gohttpx.py:927-994 | in every run no session is replaced unless a POST that named it was refused |
| SyncSession.FailureIsStored | python/gohttpx.py:976-994 | an error is stored if and only if a creation of the run has failed in the ordinary way |
| SyncSession.RebuildTurn | python/gohttpx.py:965-974 | at the rebuild of the current generation, with nobody rebuilding: a session is created if and only if no creation has ever failed so (and the transport is open), and the stored error is raised if and only if one has |
| SyncSession.EnterIff | python/gohttpx.py:964-974 | in every run a request at the rebuild takes the session published last exactly if its generation was replaced; it waits exactly while somebody creates for that generation; it ends if a creation has failed or `close` has begun; and else it creates |
| SyncSession.BeginIff | python/gohttpx.py:927-933 | in every run a request starts with the session published last, or is refused exactly once `close` has begun |
| SyncSession.ReplyIff | python/gohttpx.py:943-946 | a POST of an external transport refused with CLIENT_NOT_FOUND goes to the rebuild with what it named; every other reply ends the request |
| SyncSession.CreatedIff | python/gohttpx.py:987-994 | the created session becomes the one of the next generation, clears the error, and its creator sends to it |
| SyncSession.OneFailureIsEnough | python/gohttpx.py:976-985 | a run of one request that gets there |
| SyncSession.FailureIsFinal | python/gohttpx.py:964-985 | after an ordinary failure nothing is created or published again |
| SyncSession.InterruptAllowsSecondAttempt | python/gohttpx.py:977-985 | a run in which one generation is attempted twice, after an interrupt |
| SyncSession.NothingPublishedAfterClose | python/gohttpx.py:1090-1113 | the session deleted by `close` stays the last one published |
| SyncSession.NobodyCreates | python/gohttpx.py:967-974 | no creation runs once one failed or all is closed |
| SyncSession.GoTransport.Begin | python/gohttpx.py:928-933 | a snapshot of id and generation, or the refusal |
| SyncSession.GoTransport.EnterRebuild | python/gohttpx.py:965-974 | the stored session exactly for a replaced generation, else wait, the stored error, the refusal or creation, in this order |
| SyncSession.GoTransport.RebuildFailed | python/gohttpx.py:978-984 | only an ordinary failure is remembered |
| SyncSession.GoTransport.Publish | python/gohttpx.py:987-994 | id and generation change together |
| SyncSession.GoTransport.EnterClose | python/gohttpx.py:1090-1098 | one caller closes, others join or return |
| AsyncSession.StepKeeps | python/gohttpx.py:1222-1352 | every step, cancellations at every await included, keeps the invariant |
| AsyncSession.SessionSafety | python/gohttpx.py:1222-1352 | in every run at most one create task is unfinished and at most one ever succeeds; the waiter count is the waiting requests plus leaks, and each of them waits for the current task; after `aclose` every task is done and the last session was deleted, also if all its waiters were cancelled, and whoever returns from `aclose` finds it closed |
| AsyncSession.JoinedPair | python/gohttpx.py:1261-1265 | the id a waiter takes is that of generation 0; with no id given twice, its pair was published together if and only if nothing has been rebuilt |
| AsyncSession.LateMeansJoinedLate | python/gohttpx.py:1261-1265 | the flag that a request carries is exactly that it left the shared task after a rebuild |
| AsyncSession.PairOfRequest | python/gohttpx.py:1289-1313 | the id a request sends and rebuilds with is that of its generation or the first one; with no id given twice, it is its own if and only if the request did not join late |
| AsyncSession.ReplacedWasRefused | python/gohttpx.py:1267-1313 | no session is replaced unless a POST of its generation was refused, which named that session or, exactly if its request joined late, the first one |
| AsyncSession.JoinedPairCanBeStale | python/gohttpx.py:1261-1265 | a run with such a late join |
| AsyncSession.SessionLostToLateJoin | python/gohttpx.py:1261-1287 | and on to a session that is replaced and never deleted although no POST that named it was refused |
| AsyncSession.FailureIsStored | python/gohttpx.py:1276-1287 | an error is stored if and only if a rebuild of the run has failed in the ordinary way |
| AsyncSession.RebuildTurn | python/gohttpx.py:1268-1275 | at the rebuild of the current generation a session is created if and only if none has ever failed so (and the transport is open), and the stored error is raised if and only if one has |
| AsyncSession.EnterIff | python/gohttpx.py:1267-1275 | in every run a request at the rebuild takes the session published last exactly if its generation was replaced; it ends if a rebuild has failed or `aclose` has begun; and else it creates, holding the lock |
| AsyncSession.EnsureIff | python/gohttpx.py:1228-1244 | in every run a request at the start takes the session published last if there is one, is refused once `aclose` has begun, and else waits for the create task, which is new exactly if there was none or it has failed with nobody waiting |
| AsyncSession.JoinIff | python/gohttpx.py:1261-1265 | a waiter that comes back takes the id of the first session with the generation it finds, and the last one drops the task |
| AsyncSession.ReplyIff | python/gohttpx.py:1299-1313 | a refused POST goes to the rebuild with the pair it named; every other reply ends the request |
| AsyncSession.RebuiltIff | python/gohttpx.py:1283-1287 | the created session becomes the one of the next generation, clears the error, and its creator sends to it |
| AsyncSession.FailureIsFinal | python/gohttpx.py:1267-1287 | after an ordinary failure nothing is created or published again |
| AsyncSession.OneFailureIsEnough | python/gohttpx.py:1276-1281 | a run of one request that gets there |
| AsyncSession.FailedAttemptIsReplaced | python/gohttpx.py:1235-1244 | after a failed first attempt the next request starts a new one if and only if nobody waits and nobody leaked |
| AsyncSession.LeakKeepsFailedAttempt | python/gohttpx.py:1235-1256 | with a leak the failed attempt is never replaced |
| AsyncSession.UnsuspendedCancelLeaks | python/gohttpx.py:1248-1256 | a run of the machine that gets there, by a cancellation at the free lock |
| AsyncSession.HeldLockMeansSession | python/gohttpx.py:1267-1287 | only a rebuild holds the session lock across an await, so once it was held there is a session |
| AsyncSession.NoLeakBeforeSession | python/gohttpx.py:1222-1265 | no leak meets a failed first attempt if cancellations at the lock hit requests that it suspends, that is, only once somebody has held it |
| AsyncSession.AsyncGoTransport.EnsureSession | python/gohttpx.py:1228-1244 | the stored session, the refusal, or the shared task with one more waiter |
| AsyncSession.AsyncGoTransport.LeaveAttempt | python/gohttpx.py:1249-1256 | the task is dropped only by the last waiter and only when done |
| AsyncSession.AsyncGoTransport.JoinAttempt | python/gohttpx.py:1261-1265 | the last waiter drops the task and the generation is read in the same section |
| AsyncSession.AsyncGoTransport.EnterRebuild | python/gohttpx.py:1268-1275 | the stored session exactly for a replaced generation, else the stored error, the refusal or creation, in this order |
| AsyncSession.AsyncGoTransport.Publish | python/gohttpx.py:1283-1287 | id and generation change together |
| AsyncSession.AsyncGoTransport.Settle | python/gohttpx.py:1344-1347 | the id to delete is read after the awaited task is dropped |
| FailureLimiter.DropOldTail | python/_gohttpx_runtime.py:281-283 | the deque stays the end of the failure history, and what it lacks is out of the window |
| FailureLimiter.KeptInWindow | python/_gohttpx_runtime.py:281-283 | the deque holds exactly the failures in the window, the new one included |
| FailureLimiter.DelayIsSchedule | python/_gohttpx_runtime.py:284 | the delay after the failure that makes n in the window: 0.25, 0.5, 1, 2, 4 and then 5 seconds, and the cooldown from restart_limit on |
| FailureLimiter.PacedStep | python/_gohttpx_runtime.py:279-285 | one more failure keeps the pacing: full windows are followed by the cooldown |
| FailureLimiter.CrashStormBound | python/_gohttpx_runtime.py:279-288 | k failures less than restart_window apart satisfy (k - restart_limit) * cooldown < restart_window |
| Supervisor.StepKeeps | python/_gohttpx_runtime.py:290-376 | every step of the supervisor, its callers, the child and the clock keeps the invariant |
| Supervisor.SupervisorSafety | python/_gohttpx_runtime.py:290-365 | in every run at most one child is not closed and none once the loop ended, no launch is under way after a fatal error, and RUNNING means an open published child without shutdown or fatal error |
| Supervisor.RequestReturnsLive | python/_gohttpx_runtime.py:103-131 | what `ensure` returns is the current, running, last published child, the only open one and not exited |
| Supervisor.AnswerIff | python/_gohttpx_runtime.py:103-119 | in every reachable state the answer is a child if and only if there is a current one that has not exited, with neither shutdown nor a fatal error |
| Supervisor.NothingPublishedAfterStop | python/_gohttpx_runtime.py:318-331 | nothing is published once shutdown took the lock |
| Supervisor.NothingLaunchedAfterFatal | python/_gohttpx_runtime.py:296-317 | no launch, child or publication follows a fatal error |
| Supervisor.ReplacementJustified | python/_gohttpx_runtime.py:332-350 | a child is withdrawn only if it exited, if its last health_failures probes all failed with no success between, or by the loop on its way out |
| Supervisor.WithdrawnIff | python/_gohttpx_runtime.py:340-344 | in every run the loop withdraws the current child if and only if its last poll found it exited, or the last health_failures probes of that child all failed with no success between; the counter of the loop is exactly the number of failed probes since the last success or the publication |
| Supervisor.WithdrawnIsClosed | python/_gohttpx_runtime.py:341-350 | a withdrawn child has exited and is closed whenever the loop reads `_current` again |
| Supervisor.ProbedIff | python/_gohttpx_runtime.py:332-339 | the loop probes if and only if the last poll found the child running, the runtime was used or pinned when the request for a probe was taken, and that request named this child or a health interval has passed since its publication or its last probe |
| Supervisor.LaunchedIff | python/_gohttpx_runtime.py:294-305 | before shutdown the loop launches if and only if there is no current child and no fatal error, somebody has asked for one, it is used or pinned, and the waiting time set by the last failure is over |
| Supervisor.LoopIff | python/_gohttpx_runtime.py:294 | the loop ends at its test exactly after shutdown |
| Supervisor.WaitingTimes | python/_gohttpx_runtime.py:279-286 | every waiting time in a run is that of the schedule for the number of failures in its window, plus less than 50 ms |
| Supervisor.HistoryStep | python/_gohttpx_runtime.py:279-350 | the recorded probes and failures are those of the steps, in their order |
| Supervisor.EarlyProbeJustified | python/_gohttpx_runtime.py:146-150 | a probe ahead of schedule was asked for by a report that named this child while it was current |
| Supervisor.EarlyProbesAreReports | python/_gohttpx_runtime.py:333-338 | there are never more early probes than reports taken: each report is good for one |
| Supervisor.FailureStorm | python/_gohttpx_runtime.py:279-350 | the crash-storm bound in every run, for the failures recorded before shutdown |
| Supervisor.LaunchStorm | python/_gohttpx_runtime.py:295-350 | launches take turns with failures, so before shutdown there is at most one more in a window |
| Supervisor.ManagedRuntime.Acquire | python/_gohttpx_runtime.py:90-96 | refused exactly after shutdown |
| Supervisor.ManagedRuntime.Release | python/_gohttpx_runtime.py:98-101 | never below zero users |
| Supervisor.ManagedRuntime.RequestReady | python/_gohttpx_runtime.py:103-119 | the four answers and what a request leaves behind |
| Supervisor.ManagedRuntime.ReportFault | python/_gohttpx_runtime.py:146-150 | a report that names another child changes nothing |
| Supervisor.CurrentIsOpen | python/_gohttpx_runtime.py:152-154 | a yes of `is_current` means the last published child, the only open one and not exited |
| Supervisor.NotCurrentIsFinal | python/gohttpx.py:1452-1460 | a no about a published child is final, so the pool may forget its session without a DELETE |
| Supervisor.ManagedRuntime.Decide | python/_gohttpx_runtime.py:295-305 | when to watch, wait or launch |
| Supervisor.ManagedRuntime.RecordFailure | python/_gohttpx_runtime.py:279-286 | the popleft loop drops exactly the leading failures that left the window, and the retry time is that of the schedule for those kept |
| Supervisor.ManagedRuntime.Publish | python/_gohttpx_runtime.py:318-326 | published unless shutdown came first |
| Supervisor.ManagedRuntime.NoteRequests | python/_gohttpx_runtime.py:333-336 | a stored request counts only for the child it names, and is consumed |
| Supervisor.ManagedRuntime.Retire | python/_gohttpx_runtime.py:341-343 | the section that withdraws the current child |
| Supervisor.ManagedRuntime.Fail | python/_gohttpx_runtime.py:311-313 | a fatal error and the state that goes with it |
| Supervisor.ManagedRuntime.Leave | python/_gohttpx_runtime.py:361-365 | no child, and CLOSED after shutdown |
| Supervisor.ManagedRuntime.Shutdown | python/_gohttpx_runtime.py:370-374 | stop, no backoff, and the state by whether the thread was started |
| Bytes.TakeVectorIff | python/gohttpx.py:476-484 | reading a length-prefixed vector succeeds exactly on its encoding |
| TlsNames.GreaseValues | python/gohttpx.py:412-413 | the bit test accepts exactly the sixteen values of section 2 of RFC 8701 |
| TlsNames.NameInverse | python/gohttpx.py:416-419 | the Go resolver gives back the wire id of an importer name, GREASE as 0x0a0a |
| TlsNames.NamesUnambiguous | python/gohttpx.py:416-419 | equal name lists come from equal ids, up to the choice of the GREASE value |
| TlsNames.NamesInverse | tls_spec.go:119-143 | resolving importer names gives the wire ids in order, and succeeds if and only if they are pairwise distinct with GREASE normalised |
| TlsNames.TlsIds | tls_spec.go:119-143 | accepted exactly if every name resolves and no id repeats, and then the ids in order |
| TlsRegistry.CiphersRegistered | python/gohttpx.py:393-401 | the cipher table and the numbers of the registry, written out, say the same in both directions |
| TlsRegistry.GroupsRegistered | python/gohttpx.py:402 | so do the group table |
| TlsRegistry.SignaturesRegistered | python/gohttpx.py:403-407 | the signature table |
| TlsRegistry.VersionsRegistered | python/gohttpx.py:408 | the version table |
| TlsRegistry.CompressionRegistered | python/gohttpx.py:409 | and the compression table, with section 7.3 of RFC 8879: zlib 1, brotli 2, zstd 3 |
| TlsRegistry.ReservedIff | python/gohttpx.py:412-413 | the GREASE test holds exactly for the sixteen reserved values, written out, and those are normalised to 0x0a0a |
| TlsRegistry.TlsNameSpells | python/gohttpx.py:416-419 | the name of an id is its registered one, "GREASE" for a reserved value, and otherwise its four hexadecimal digits |
| HelloImport.ProtocolList | python/gohttpx.py:494-512 | the cursor loop computes the specified protocol names |
| HelloImport.ParseKeyShares | python/gohttpx.py:515-533 | the cursor loop computes the specified shares |
| HelloImport.ParseExtensions | python/gohttpx.py:656-666 | the cursor loop computes the specified extensions |
| HelloImport.ImportHandshake | python/gohttpx.py:637-675 | the whole message parser computes the specified tls_spec |
| HelloCodec.ExtensionWritten | python/gohttpx.py:554-623 | a well-formed extension is parsed back from its encoding to its projection |
| HelloCodec.ExtensionRead | python/gohttpx.py:554-623 | every accepted extension body is the encoding of a well-formed extension |
| HelloCodec.EchWritten | python/gohttpx.py:536-551 | a well-formed GREASE ECH body is accepted |
| HelloCodec.EchRead | python/gohttpx.py:536-551 | every accepted ECH body is the encoding of one |
| HelloCodec.HelloWritten | python/gohttpx.py:638-675 | a well-formed hello is parsed back from its encoding |
| HelloCodec.HelloRead | python/gohttpx.py:638-675 | every accepted message is the encoding of a well-formed hello, byte for byte |
| HelloCodec.ProjectionForgets | python/gohttpx.py:626-675 | two hellos have the same projection if and only if they differ in dynamic fields only |
| HelloCodec.TwinsProject | python/gohttpx.py:626-627 | hellos that differ only in dynamic fields have the same projection |
| WireMeaning.ProjectDeclares | python/gohttpx.py:554-623 | the declaration of an extension says what is on the wire in the numbers of the registries: its type, and every listed name resolves to the id at its place (compression algorithms included) |
| WireMeaning.ProjectionDeclares | python/gohttpx.py:637-675 | and the declaration of a whole hello does: ciphers, extensions, and the lowest and highest real version offered |
| RecordLayer.UnwrapClientHello | python/gohttpx.py:455-473 | the record loop computes the specified handshake |
| RecordLayer.FragmentationInvariance | python/gohttpx.py:458-470 | any split into records within the limits unwraps to the same handshake |
| RecordLayer.UnwrapExact | python/gohttpx.py:455-473 | an accepted input is one raw handshake or exactly a sequence of records, never both |
| RecordLayer.RawHandshake | python/gohttpx.py:471-473 | a raw handshake unwraps to itself |
| ImporterTheorems.TlsSpecFromClientHello | python/gohttpx.py:626-675 | accepts exactly the inputs that represent a well-formed hello, and returns its projection, whose names resolve by the registries to the ids at their places on the wire |
| ImporterTheorems.RoundTrip | python/gohttpx.py:626-675 | parse after encode is projection, raw or in any fragmentation |
| ImporterTheorems.Exactness | python/gohttpx.py:626-675 | an accepted input represents some well-formed hello: no byte is skipped or read twice |
| ImporterTheorems.ImportIsInverse | python/gohttpx.py:626-675 | both directions for every input |
| ImporterTheorems.ImportDeclares | python/gohttpx.py:626-675 | what is imported says, in the numbers of the registries, what the message has on the wire |
| ImporterTheorems.DynamicFieldsDropped | python/gohttpx.py:627 | random, session id, key bytes, server name, GREASE choices and ECH bytes do not influence the result |
| ImporterTheorems.OnlyDynamicFieldsDropped | python/gohttpx.py:626-675 | two inputs import to the same tls_spec if and only if their hellos differ in dynamic fields only |
| SecondParser.RawExtensions | python/tls_test_support.py:24-61 | its extension loop computes the specified list |
| SecondParser.ParseClientHello | python/tls_test_support.py:24-61 | the second parser as a specification |
| SecondParser.SameVector | python/tls_test_support.py:24-61 | its two-step vector reader is the importer's |
| SecondParser.ParsersAgree | python/tls_test_support.py:24-61 | it accepts every handshake the importer accepts, with the same ciphers and extensions, element by element |
| GoSpec.ParseTlsKeyShares | tls_spec.go:432-486 | accepted if and only if there are one to four shares, each resolves to an id, no id repeats, a GREASE share has no key or [0], and a real one has no key and one of the five supported groups; then those ids in order |
| GoSpec.ScanExtensions | tls_spec.go:157-186 | the extension loop with its seen map and collected lists computes the specification |
| GoSpec.VersionRange | tls_spec.go:190-203 | the running minimum and maximum are those of the specification |
| GoSpec.BuildClientHelloSpec | tls_spec.go:145-232 | the validator as a whole |
| GoSpec.AcceptedIsCoherent | tls_spec.go:145-232 | an accepted spec has distinct key shares within its groups, one of them real for TLS 1.3, ALPS within ALPN, versions that span exactly min to max, and the declared order without shuffle |
| GoSpec.TablesAgree | tls_spec.go:119-143 | dictionaries with the registered numbers undo the importer's tables |
| ImporterToGo.SameRange | python/gohttpx.py:667-674 | importer and Go compute the same version range |
| ImporterToGo.VersionBranchesUnreachable | tls_spec.go:190-203 | for imported specs the version conflict errors of the validator cannot occur |
| ImporterToGo.WireToGo | tls_spec.go:145-232 | from the wire to the accepted Go spec: the ciphers, and for every extension its number in the registry and its whole content (groups, signature algorithms, delegated credentials, versions, key shares, ALPN and ALPS lists, the names that the registry gives the compression algorithms, size limit, ECH) in the wire's order, and the lists the checks compare are those |
| Acceptance.ParseIff | tls_spec.go:234-366 | Go parses the declaration of an imported extension exactly under conditions on its wire values: length bounds, no repetition with GREASE counting once, ECH payload size |
| Acceptance.ScanIff | tls_spec.go:163-186 | the extension loop succeeds exactly if every extension is acceptable and no kind repeats, GREASE kinds at most twice, and then holds the offered lists |
| Acceptance.CheckIff | tls_spec.go:187-228 | the checks behind the loop, as conditions on the offered lists |
| Acceptance.AcceptedIff | tls_spec.go:145-232 | an imported hello is accepted by Go if and only if explicit conditions hold on the wire: counts, distinct ciphers, acceptable extensions without repetition, signature algorithms present, for TLS 1.3 a share and a 1.3 cipher, shares within groups, ALPS within ALPN, one ALPS code point |
| Registry.StepKeeps | api.go:588-626 | every section of either lock keeps the invariant |
| Registry.RegistrySafety | api.go:588-626 | in every run a session is closed at most once and only outside the map, activeCalls is the number of handlers between its two sections, no handler holds a reaped session, and no session that was taken out is forgotten |
| Registry.ReapedIsNeverHeld | api.go:1596-1612 | once the idle reaper took a session out, no handler of any later state holds it |
| Registry.ReapedIff | api.go:1596-1607 | in every run the reaper's look at an id takes its session out if and only if nobody is counted on it and every use of it, creation included, is further back than the idle limit |
| Registry.LastUsedIsLastUse | api.go:609-617 | the stamp of a session is the time of the last step that used it |
| Registry.EveryIdIsChecked | api.go:1599-1607 | a pass of the reaper looks at every id of the map |
| Registry.GuardsHold | api.go:588-626 | the index conditions of the machine's steps hold wherever a thread gets to, so they block nothing the code does |
| Registry.TakenOutUnheld | api.go:436-447 | a session that DELETE or Close takes out is held by no handler, then and in every later state, if and only if its counter was zero at that moment |
| Registry.UnheldStays | api.go:609-626 | a session outside the map that nobody holds is never held again |
| Registry.DeleteClosesUnderRequest | api.go:588-597 | a run in which DELETE closes a session under a request |
| Registry.Server.StoreClient | api.go:579-581 | the session is registered under its id and under no other |
| Registry.Server.BeginCall | api.go:609-617 | the session of the id with one more call and the time of this one as its stamp, or none |
| Registry.Server.EndCall | api.go:622-626 | one call less |
| Registry.Server.DeleteClient | api.go:588-597 | the id leaves the map and its session is closed once |
| Registry.Server.Expired | api.go:1599-1607 | the loop finds exactly the sessions without an active call that were last used longer ago than the idle limit, each once |
| Registry.Server.CleanupIdleClients | api.go:1596-1612 | an id leaves the map if and only if its session had no active call and was last used longer ago than the idle limit; each such session is closed once, and all others stay as they are |
| Registry.Server.Close | api.go:436-447 | the first call empties the map and closes every session once; later calls do nothing |
| JsonNull.RejectJSONNull | api.go:265-288 | the loop computes the scanner of the specification |
| JsonNull.ScanValue | api.go:265-288 | a value at the front of the data is rejected exactly if it contains null, and otherwise passed over |
| JsonNull.ScanString | api.go:269-277 | strings are passed over, whatever they contain or escape |
| JsonNull.ScannerAgreesWithTree | api.go:265-288 | for every JSON text, with any nesting, blanks and escapes: rejected if and only if the value contains null at some depth |
| Headers.Latin1ToBytes | api.go:902-912 | accepted exactly without code points above 255, and then the same numbers |
| Headers.BytesToLatin1 | api.go:914-920 | the same numbers as code points |
| Headers.Latin1RoundTrip | api.go:902-920 | every byte string survives |
| Headers.Latin1RoundTripText | api.go:902-920 | every accepted text survives, and the others are refused |
| Headers.Regroup | api.go:660-676 | names in order of first occurrence with the first spelling, under each the values of that case-folded name in input order, and nothing else |
| Headers.NamesDistinct | api.go:663-672 | no two listed names are the same up to case |
| Headers.FoldedIff | api.go:663-664 | names are the same after folding exactly if they differ in the case of ASCII letters only |
| Headers.RegroupingIsStable | api.go:660-680 | written out in the automatic order the names follow each other as they came first, each with the spelling that came first (`Host` always so) and its values in input order, and nothing is lost or invented |
| Headers.DecodeHeaders | api.go:868-887 | accepted exactly if all texts are Latin-1, there are at most 256 headers of 1048576 bytes in all, names are tokens of section 5.6.2 of RFC 9110 with at most 256 bytes, and values have at most 16384 bytes and no control character but the tab; then the same bytes |
| Headers.RequestHeaders | api.go:660-680 | from the envelope through codec, checks and grouping to the automatic order: names in order of first occurrence with their first spelling, each with its values in their order, and the same bag |
| Headers.SendHeaders | api.go:902-920 | so headers of accepted bytes sent as Latin-1 text are lost in no way |
| Headers.LowerCaseConnectionStays | api.go:677-679 | the input that shows it: a lone header `connection` stays |
| Headers.ConnectionDropped | api.go:677-679 | with close_connection the caller's connection header is gone if and only if its first spelling is "Connection" or there was none |

## Left out

- Network, QUIC, uTLS and req internals, certificates, proxies and handshake bytes: a POST, a probe and a launch have any outcome; the uTLS dictionaries and version names are parameters that agree with the Python tables.
- Hex-dump text, file paths and the JSON decoder in front of the importer and of the Go spec: the models start from bytes and from declared values.
- Windows Job objects, pipes and the start handshake messages: reduced to spawn, poll and a `close` that returns once the child has exited; a `close` that itself fails for good is not modelled.
- `_ManagedAsyncGoTransport` and its cleanup task: the pool is modelled for the sync transport; the shared `_ManagedState` sections are the same.
- `AsyncSession` is the external transport only: a managed one rebuilds nothing, and `_close_entry` of the async pool clears its session id for a child that is gone, as `SyncSession` has it for the sync one.
- KeyboardInterrupt inside `_checkout`, exceptions other than httpx.HTTPError in `_close_entry`, cancellation of `aclose` and `close`, and a cancellation while a request leaves `_active`.
- The process id checks after fork, the text of error messages, `status`, and the exact state strings during shutdown.
- Entries of the pool are places in a table instead of objects, so identity is index equality; the supervisor loop is a machine and not one method, because other threads act between its sections.
- The power of two in the backoff is a real number; the float overflow for a restart_limit above a thousand is not modelled.
- In AsyncSession a cancellation may arrive at every await, also at an uncontended lock, where asyncio does not suspend: safety is proved for more runs than there are.
- Registry: session creation that stores after `Close` stays open, as in the code, and a DELETE that fails on the way is left to the idle limit.
- Extension shuffling in the Go spec: only the declared order is modelled; GREASE values that uTLS draws are library behaviour.
- Range checks of single fields, DTO copying, enum tables, capabilities and response field checks.
- HelloImport.ImportHandshake: the exceptions that Python distinguishes are all one ValueError.
